/**
 The shared scheduler state (crates/byteflow/src/scheduler/{runtime,finalize,worker,timer,link,
 monitor,registry}.rs). Each public method is one step: a worker effect, a timer firing, a
 host call, or the finalization of a flow with everything that follows from it.
 */
module Scheduler {
  import opened Wrappers
  import opened Values
  import opened MailboxSpec
  import opened Residence
  import opened Lifecycle
  import opened Exits
  import opened Fates
  import opened Finalization
  import opened Monitoring
  import opened Steps
  import opened Registers
  import Capabilities

  class Shared {
    const mailboxConfig: Config
    /** 0 is no limit. */
    const maxFlows: nat
    var directory: set<FlowId>
    var mailboxes: map<FlowId, Mailbox>
    var ready: map<FlowId, Flow>
    var running: map<FlowId, Flow>
    var sleeping: map<FlowId, Flow>
    var deadlines: set<Deadline>
    var killSignals: map<FlowId, Reason>
    var waitingSendAt: map<FlowId, FlowId>
    var byAsker: map<FlowId, FlowId>
    var byTarget: map<FlowId, set<FlowId>>
    var requestIds: map<FlowId, u64>
    var monitors: map<nat, Monitor>
    var links: map<nat, Pair>
    var byName: map<Name, NameEntry>
    var byFlow: map<FlowId, seq<Name>>
    var caps: Capabilities.CapState
    var quotas: set<FlowId>
    var nextFlow: nat
    var nextMonitor: nat
    var nextLink: nat
    /** Where each unfinished flow is; the program knows it only from finding the flow there. */
    ghost var place: map<FlowId, Place>
    /** Every DOWN hop ever sent, in order. */
    ghost var downs: seq<Down>

    ghost function Core(): Core
      reads `place, `mailboxes, `ready, `running, `sleeping, `waitingSendAt, `byAsker, `byTarget, `requestIds
    {
      Residence.Core.Core(place, mailboxes, ready, running, sleeping, waitingSendAt, byAsker, byTarget, requestIds)
    }

    ghost function Now(): Snap
      reads this
    {
      Snap(Core(), directory, quotas, killSignals, monitors, links, byName, byFlow, caps, deadlines, nextFlow,
           nextMonitor, nextLink, downs)
    }

    /** What holds between any two steps. */
    ghost predicate Valid()
      reads this
    {
      SnapOk(Now(), {})
    }

    /** A runtime that has just started. */
    constructor (config: Config, limit: nat)
      ensures Valid() && mailboxConfig == config && maxFlows == limit && directory == {} && downs == []
    {
      mailboxConfig, maxFlows := config, limit;
      directory, quotas, deadlines := {}, {}, {};
      mailboxes, ready, running, sleeping := map[], map[], map[], map[];
      killSignals, waitingSendAt := map[], map[];
      byAsker, byTarget, requestIds := map[], map[], map[];
      monitors, links, byName, byFlow := map[], map[], map[], map[];
      caps := Capabilities.EMPTY;
      nextFlow, nextMonitor, nextLink := 1, 1, 1;
      place, downs := map[], [];
      new;
      hide SnapOk;
      StartIsOk();
    }

    /** Nothing about monitors has changed since the method began. */
    twostate lemma WatchStays()
      requires unchanged(`monitors, `nextMonitor, `downs)
      ensures SameWatch(old(Now()), Now())
    {
    }

    twostate lemma MovesElsewhere()
      requires unchanged(`monitors, `nextMonitor, `downs)
      ensures Moves(old(Now()), Now())
    {
      WatchStays();
      StaysPut(old(Now()), Now());
    }

    /** No mailbox and no entry of the ask index has changed since the method began. */
    twostate lemma AsksElsewhere()
      requires unchanged(`mailboxes, `byAsker, `requestIds)
      ensures AsksGoOn(old(Now()), Now())
    {
      NothingAsked(old(Now()), Now());
    }

    // ----- the ask index -----

    method RemoveAsker(a: FlowId)
      modifies `byAsker, `byTarget, `requestIds
      ensures Now() == old(Now()).(core := AskRemove(old(Now()).core, a))
    {
      hide Now, Core, WaitersWithout;
      var target := ForgetAsker(a);
      if target.Some? {
        DropWaiter(target.value, a);
      }
    }

    method ForgetAsker(a: FlowId) returns (target: Option<FlowId>)
      modifies `byAsker, `requestIds
      ensures var c := old(Now()).core;
              && target == (if a in c.byAsker then Some(c.byAsker[a]) else None)
              && Now() == old(Now()).(core := c.(byAsker := c.byAsker - {a}, requestIds := c.requestIds - {a}))
    {
      requestIds := requestIds - {a};
      target := if a in byAsker then Some(byAsker[a]) else None;
      byAsker := byAsker - {a};
    }

    method DropWaiter(target: FlowId, a: FlowId)
      modifies `byTarget
      ensures Now()
              == old(Now()).(core := old(Now()).core.(byTarget := WaitersWithout(old(Now()).core.byTarget, target, a)))
    {
      if target in byTarget {
        var rest := byTarget[target] - {a};
        byTarget := if rest == {} then byTarget - {target} else byTarget[target := rest];
      }
    }

    /** A parked flow leaves its slot and goes to the run queue with a value in its register. */
    method Resume(a: FlowId, dest: Option<u8>, v: Value)
      requires a in Now().core.boxes && Now().core.boxes[a].parked.Some? && Now().core.boxes[a].parked.value.id == a
      modifies `place, `mailboxes, `ready, `byAsker, `byTarget, `requestIds
      ensures var c := old(Now()).core;
              Now() == old(Now()).(core := HandOver(c, a, Wrote(c.boxes[a].parked.value, dest, v)))
    {
      hide Now, Core, AskRemove;
      ghost var s := Now();
      var flow := TakeParked(a);
      RemoveAsker(a);
      MakeReady(Wrote(flow.value, dest, v));
    }

    /** `take_parked`: the slot is empty afterwards. */
    method TakeParked(f: FlowId) returns (taken: Option<Flow>)
      requires f in Now().core.boxes
      modifies `mailboxes, `place
      ensures taken == old(Now()).core.boxes[f].parked
      ensures Now() == if taken.Some? then old(Now()).(core := HoldParked(old(Now()).core, f)) else old(Now())
    {
      taken := mailboxes[f].parked;
      if taken.Some? {
        mailboxes := mailboxes[f := Vacated(mailboxes[f])];
        place := place[f := Held];
      }
    }

    /** Onto a run queue. */
    method MakeReady(flow: Flow)
      modifies `ready, `place
      ensures Now() == old(Now()).(core := PutReady(old(Now()).core, flow))
    {
      ready := ready[flow.id := flow];
      place := place[flow.id := Ready];
    }

    // ----- first part of an exit -----

    /** Out of the signal, waiting-send and ask indices. */
    method Unindex(id: FlowId)
      modifies `killSignals, `waitingSendAt, `byAsker, `byTarget, `requestIds
      ensures Now() == Unindexed(old(Now()), id)
    {
      hide AskRemove, Core, Now;
      ForgetSignal(id);
      ForgetWait(id);
      RemoveAsker(id);
    }

    method ForgetSignal(id: FlowId)
      modifies `killSignals
      ensures Now() == old(Now()).(signals := old(Now()).signals - {id})
    {
      hide Core;
      killSignals := killSignals - {id};
    }

    method ForgetWait(id: FlowId)
      modifies `waitingSendAt
      ensures Now() == old(Now()).(core := old(Now()).core.(waitingAt := old(Now()).core.waitingAt - {id}))
    {
      waitingSendAt := waitingSendAt - {id};
    }

    /** The stranded senders leave the waiting index and go on the work list. */
    method CollectStranded(senders: seq<Waiting>, work: seq<PendingExit>) returns (work': seq<PendingExit>)
      requires NoTwice(senders) && WorkDistinct(work) && WaitIds(senders) !! WorkIds(work)
      modifies `waitingSendAt
      ensures waitingSendAt == old(waitingSendAt) - WaitIds(senders)
      ensures WorkDistinct(work') && WorkIds(work') == WorkIds(work) + WaitIds(senders)
      ensures Grown(work, work', Fault, WaitIds(senders))
    {
      hide WaitIds, WorkIds, WorkDistinct, Grown, NoTwice;
      work' := work;
      NoWaiters();
      GrownNothing(work, Fault, WaitIds(senders));
      assert senders[..0] == [];
      assert waitingSendAt - {} == waitingSendAt;
      var i := 0;
      while i < |senders|
        invariant 0 <= i <= |senders|
        invariant waitingSendAt == old(waitingSendAt) - WaitIds(senders[..i])
        invariant WorkDistinct(work') && WorkIds(work') == WorkIds(work) + WaitIds(senders[..i])
        invariant Grown(work, work', Fault, WaitIds(senders))
      {
        var flow := senders[i].flow;
        assert senders[..i + 1] == senders[..i] + [senders[i]];
        WaitIdsPush(senders[..i], senders[i]);
        NextIsNew(senders, i);
        waitingSendAt := waitingSendAt - {flow.id};
        WorkPush(work', PendingExit(flow, Fault));
        GrownOne(work, work', Fault, WaitIds(senders), PendingExit(flow, Fault));
        work' := work' + [PendingExit(flow, Fault)];
        i := i + 1;
      }
      assert senders[..i] == senders;
    }

    /** The inbox of `id` closes; every sender waiting in it is stranded and goes on the work list. */
    method StrandSenders(id: FlowId, work: seq<PendingExit>) returns (work': seq<PendingExit>)
      requires id in mailboxes && NoTwice(mailboxes[id].waiting)
      requires WorkDistinct(work) && WaitIds(mailboxes[id].waiting) !! WorkIds(work)
      modifies `mailboxes, `waitingSendAt, `place
      ensures Now() == old(Now()).(core := CloseBox(old(Core()), id))
      ensures WorkDistinct(work') && WorkIds(work') == WorkIds(work) + WaitIds(old(mailboxes[id].waiting))
      ensures Grown(work, work', Fault, WaitIds(old(mailboxes[id].waiting)))
    {
      hide WaitIds, WorkIds, WorkDistinct, Grown, NoTwice, Strand;
      var senders := mailboxes[id].waiting;
      mailboxes := mailboxes[id := Close(mailboxes[id]).0];
      work' := CollectStranded(senders, work);
      place := Strand(place, WaitIds(senders));
    }

    /**
     Everyone parked for an answer of `id` is resumed with the news of its exit, and nobody stays in
     the index for it.
     */
    method WakeOrphans(id: FlowId, reason: Reason, ghost held: set<FlowId>)
      requires SnapOk(Now(), held) && id <= ID_LIMIT
      modifies `place, `mailboxes, `ready, `byAsker, `byTarget, `requestIds
      ensures SnapOk(Now(), held) && Woken(old(Now()), Now(), id, reason)
    {
      hide Now, Core, SnapOk, TablesOk, CoreOk, Woken, Waking, Tame, WithIndex, WithoutOrphans, Orphans;
      ghost var s := Now();
      var waiters := TakeWaiters(id);
      OrphansAreAskers(s, held, id);
      if waiters == {} {
        NobodyToWake(s, held, id, reason);
      } else {
        ghost var c := ResumeAll(id, waiters, ExitHop(id, ReasonCode(reason)), s, held);
        WokenAll(s, c, held, id, reason);
      }
    }

    /** `take_waiters_of`: the askers of `target` leave all three maps. */
    method TakeWaiters(target: FlowId) returns (waiters: set<FlowId>)
      modifies `byAsker, `byTarget, `requestIds
      ensures waiters == Orphans(old(Now()).core, target)
      ensures Now() == old(Now()).(core := WithoutOrphans(old(Now()).core, target))
    {
      waiters := {};
      if target in byTarget {
        waiters := byTarget[target];
        byTarget := byTarget - {target};
        byAsker := byAsker - waiters;
        requestIds := requestIds - waiters;
      }
    }

    /** Askers already out of the index leave their slots one by one. */
    method ResumeAll(id: FlowId, waiters: set<FlowId>, hop: Value, ghost s: Snap,
                     ghost held: set<FlowId>) returns (ghost c: Core)
      requires SnapOk(s, held) && waiters == Orphans(s.core, id) && Now() == s.(core := WithoutOrphans(s.core, id))
      requires id in s.core.byTarget
      modifies `place, `mailboxes, `ready
      ensures CoreOk(c, held) && Tame(s.core, c) && Waking(s.core, c, waiters, {}, hop)
      ensures Now() == s.(core := WithIndex(c, WithoutOrphans(s.core, id)))
    {
      hide Now, Core, SnapOk, TablesOk, CoreOk, Tame, Waking, WakeOne, Unparked, WithoutOrphans, Orphans, SamePlaces;
      SnapCore(s, held);
      SnapListed(s, held);
      OrphansAreAskers(s, held, id);
      WakingStarts(s.core, held, waiters, hop);
      TameItself(s.core, held);
      c := s.core;
      ghost var w := WithoutOrphans(s.core, id);
      OnlyIndex(s.core, id);
      var left := waiters;
      while left != {}
        invariant left <= waiters && CoreOk(c, held) && Tame(s.core, c) && Waking(s.core, c, waiters, left, hop)
        invariant Now() == s.(core := WithIndex(c, w))
        decreases left
      {
        var a :| a in left;
        WakingPlaces(s.core, c, waiters, left, hop);
        WakingGoesOn(s.core, c, held, waiters, left, hop, a);
        UnparkedIs(c, held, w, a, hop);
        ResumeOrphan(a, hop);
        c := WakeOne(c, a, hop);
        left := left - {a};
      }
    }

    method ResumeOrphan(a: FlowId, hop: Value)
      requires a in Now().directory && a in Now().core.boxes
      modifies `place, `mailboxes, `ready
      ensures Now() == old(Now()).(core := Unparked(old(Now()).core, a, hop))
    {
      hide Core, HoldParked, Wrote;
      if a in directory {
        var flow := TakeParked(a);
        if flow.Some? {
          MakeReady(Wrote(flow.value, flow.value.lastDest, hop));
        }
      }
    }

    /**
     The flow leaves the signal and waiting indices, its senders are stranded, and everyone
     waiting for its answer is told.
     */
    method Detach(id: FlowId, reason: Reason, work: seq<PendingExit>) returns (work': seq<PendingExit>)
      requires WorkDistinct(work) && id !in WorkIds(work) && SnapOk(Now(), WorkIds(work) + {id})
      modifies `killSignals, `waitingSendAt, `mailboxes, `place, `ready, `byAsker, `byTarget, `requestIds
      ensures WorkDistinct(work') && id !in WorkIds(work') && SnapOk(Now(), WorkIds(work') + {id})
      ensures Detached(old(Now()), Now(), id, reason, work, work') && Unbound(Now(), id)
    {
      hide SnapOk, CoreOk, Tame, WorkIds, WorkDistinct, Unindexed, CloseBox, Detached, Unbound, Woken, Stranded, Grown,
           AskerGone, WaitIds, NoTwice;
      ghost var s0, held := Now(), WorkIds(work) + {id};
      FinalizingId(s0, held, id);
      Unindex(id);
      ghost var s1 := Now();
      UnindexedOk(s0, held, id);
      StrandingReady(s1, held, id);
      work' := StrandSenders(id, work);
      ghost var s2 := Now();
      StrandedOk(s1, held, id, work, work');
      assert WorkIds(work') + {id} == held + WaitIds(s1.core.boxes[id].waiting);
      WakeOrphans(id, reason, WorkIds(work') + {id});
      DetachedInParts(s0, s1, s2, Now(), id, reason, work, work');
    }

    // ----- second part -----

    ghost method LeavePlace(id: FlowId)
      modifies `place
      ensures Now() == old(Now()).(core := Retire(old(Now()).core, id))
    {
      place := place - {id};
    }

    method UnregisterFlow(f: FlowId)
      requires NamesOk(Now().byName, Now().byFlow, Now().directory)
      modifies `byName, `byFlow
      ensures Now() == old(Now()).(byName := NamesWithout(old(Now()).byName, f), byFlow := old(Now()).byFlow - {f})
    {
      hide Core, NamesOk, NamesWithout;
      if f in byFlow {
        var names := byFlow[f];
        byFlow := byFlow - {f};
        DropNames(names);
        NamesSwept(old(byName), old(byFlow), byName, f, directory);
      } else {
        NamesAbsent(byName, byFlow, f, directory);
      }
    }

    method DropNames(names: seq<Name>)
      modifies `byName
      ensures forall n :: n in byName <==> n in old(byName) && n !in names
      ensures forall n :: n in byName ==> byName[n] == old(byName[n])
    {
      var i := 0;
      while i < |names|
        invariant 0 <= i <= |names|
        invariant forall n :: n in byName <==> n in old(byName) && n !in names[..i]
        invariant forall n :: n in byName ==> byName[n] == old(byName[n])
      {
        assert names[..i + 1] == names[..i] + [names[i]];
        byName := byName - {names[i]};
        i := i + 1;
      }
      assert names[..i] == names;
    }

    method Revoke(id: FlowId)
      modifies `caps, `quotas
      ensures Now()
              == old(Now()).(caps := Capabilities.RevokeFlow(old(Now()).caps, id), quotas := old(Now()).quotas - {id})
    {
      hide Core, Capabilities.RevokeFlow;
      caps := Capabilities.RevokeFlow(caps, id);
      quotas := quotas - {id};
    }

    method Unlist(id: FlowId)
      modifies `directory, `monitors
      ensures Now()
              == old(Now()).(directory := old(Now()).directory - {id},
                             monitors := OwnedRemoved(old(Now()).monitors, id))
    {
      hide Core, OwnedRemoved;
      directory := directory - {id};
      monitors := OwnedRemoved(monitors, id);
    }

    /** Capabilities, quota, directory entry, owned monitors and names go. */
    method Sweep(id: FlowId, ghost held: set<FlowId>)
      requires SnapOk(Now(), held + {id}) && id !in held && Unbound(Now(), id)
      modifies `caps, `quotas, `directory, `place, `monitors, `byName, `byFlow
      ensures SnapOk(Now(), held) && Now() == Swept(old(Now()), id) && id !in Now().core.place && id !in Now().signals
      ensures Tame(old(Now()).core, Now().core)
    {
      hide Now, Core, SnapOk, Tame, NamesOk, NamesWithout, OwnedRemoved, Capabilities.RevokeFlow, Retire;
      SweptOk(Now(), held, id);
      SnapNames(Now(), held + {id});
      Revoke(id);
      UnregisterFlow(id);
      Unlist(id);
      LeavePlace(id);
    }

    // ----- third part -----

    /** A DOWN hop is handed to its parked owner or queued, whatever the bounds of the inbox. */
    method DeliverDown(e: Down, ghost held: set<FlowId>)
      requires SnapOk(Now(), held) && e.target !in Now().core.place && e.ref <= ID_LIMIT && e.target <= ID_LIMIT
      modifies `place, `mailboxes, `ready, `byAsker, `byTarget, `requestIds
      ensures SnapOk(Now(), held) && Now() == old(Now()).(core := Now().core) && Quiet(old(Now()).core, Now().core)
      ensures e.owner in old(Now()).directory ==>
                Now().core == DeliverTo(old(Now()).core, e.owner, DownFor(e))
                && DownArrived(old(Now()).core, Now().core, e.owner, DownFor(e))
      ensures e.owner !in old(Now()).directory ==> Now() == old(Now())
    {
      hide Now, Core, SnapOk, Quiet, Tame, DeliverTo, DownArrived, DownFor;
      DownDelivered(Now(), held, e);
      ShowDirectory();
      if e.owner in directory {
        PushDown(e.owner, DownFor(e));
      }
    }

    lemma ShowDirectory()
      ensures Now().directory == directory
    {
    }

    method PushDown(owner: FlowId, hop: Value)
      requires owner in Now().core.boxes
               && (Now().core.boxes[owner].parked.Some? ==> Now().core.boxes[owner].parked.value.id == owner)
      modifies `place, `mailboxes, `ready, `byAsker, `byTarget, `requestIds
      ensures Now() == old(Now()).(core := DeliverTo(old(Now()).core, owner, hop))
    {
      hide Now, Core, HandOver, Wrote, Matches, PushBack;
      ShowBoxes();
      var (m, d) := PushSystem(mailboxes[owner], hop);
      if d.Handoff? {
        Resume(owner, d.flow.lastDest, hop);
      } else {
        SetMailbox(owner, m);
      }
    }

    lemma ShowBoxes()
      ensures Now().core.boxes == mailboxes
    {
    }

    method SetMailbox(f: FlowId, m: Mailbox)
      modifies `mailboxes
      ensures Now() == old(Now()).(core := WithBox(old(Now()).core, f, m))
    {
      mailboxes := mailboxes[f := m];
    }

    /** Every monitor on `target` leaves the table and fires once, in order of reference. */
    method NotifyTargetExit(target: FlowId, reason: Reason, ghost held: set<FlowId>)
      requires SnapOk(Now(), held) && target !in Now().core.place && target <= ID_LIMIT
      modifies `monitors, `downs, `place, `mailboxes, `ready, `byAsker, `byTarget, `requestIds
      ensures SnapOk(Now(), held) && Notified(old(Now()), Now(), target, reason)
    {
      hide Now, Core, SnapOk, CoreOk, Tame, Quiet, Firing, DownsFor, TargetRemoved, DeliverTo, DownArrived, Notified,
           RousedPlaces;
      NobodyRoused(Now().core);
      ghost var s := Now();
      ghost var events: seq<Down> := [];
      ShowMonitors();
      var entries := monitors;
      var refs := set r | r in entries && entries[r].target == target;
      DropMonitors(target);
      MonitorsCut(s, held, target);
      FiringStarts(entries, target, reason, refs);
      SnapQuiet(s, held);
      while refs != {}
        invariant SnapOk(Now(), held) && Quiet(s.core, Now().core)
        invariant Now() == s.(core := Now().core, monitors := TargetRemoved(s.monitors, target))
                  && entries == s.monitors
        invariant Firing(events, entries, target, reason, refs) && RousedPlaces(s.core, Now().core, events)
        decreases refs
      {
        ghost var least := LeastExists(refs);
        var r :| r in refs && forall q :: q in refs ==> r <= q;
        FiringNext(events, entries, target, reason, refs, r);
        RefsBounded(s, held, r);
        var event := Down(r, entries[r].owner, target, reason);
        ghost var c := Now().core;
        QuietPlace(s.core, c, target);
        LiveBox(Now(), held, event.owner);
        DeliverDown(event, held);
        RousedOne(s, c, Now().core, held, events, event);
        QuietTrans(s.core, c, Now().core);
        events := events + [event];
        refs := refs - {r};
      }
      FiringDone(events, entries, target, reason);
      NotifiedAt(s, Now(), events, held, target, reason);
      LogDowns(events);
    }

    lemma ShowMonitors()
      ensures Now().monitors == monitors
    {
    }

    method DropMonitors(target: FlowId)
      modifies `monitors
      ensures Now() == old(Now()).(monitors := TargetRemoved(old(Now()).monitors, target))
    {
      hide Core, TargetRemoved;
      monitors := TargetRemoved(monitors, target);
    }

    ghost method LogDowns(events: seq<Down>)
      modifies `downs
      ensures Now() == old(Now()).(downs := old(Now()).downs + events)
    {
      hide Core;
      downs := downs + events;
    }

    /** A kill signal, and the flow itself when it is parked or waits to send. */
    method ExtractForKill(f: FlowId, reason: Reason, ghost held: set<FlowId>) returns (taken: Option<Flow>)
      requires SnapOk(Now(), held)
      modifies `killSignals, `mailboxes, `waitingSendAt, `place
      ensures (Now(), taken) == KillTaken(old(Now()), f, reason)
    {
      hide Now, Core, SnapOk, HoldParked, HoldWaiting, TakeSender;
      KillReady(Now(), held, f);
      ShowDirectory();
      taken := None;
      if f in directory {
        SetSignal(f, reason);
        taken := TakeParked(f);
        if taken.None? {
          taken := TakeWaiting(f);
        }
      }
    }

    method SetSignal(f: FlowId, reason: Reason)
      modifies `killSignals
      ensures Now() == old(Now()).(signals := old(Now()).signals[f := reason])
    {
      hide Core;
      killSignals := killSignals[f := reason];
    }

    /** Out of the queue of waiting senders it is in, if any. */
    method TakeWaiting(f: FlowId) returns (taken: Option<Flow>)
      requires WaitsInLive(Now(), f)
      modifies `mailboxes, `waitingSendAt, `place
      ensures var c := old(Now()).core;
              && taken == (if f in c.waitingAt then TakeSender(c.boxes[c.waitingAt[f]], f).1 else None)
              && Now() == if f in c.waitingAt
                          then old(Now()).(core := HoldWaiting(c, f, c.waitingAt[f]))
                          else old(Now())
    {
      hide TakeSender;
      taken := None;
      if f in waitingSendAt && waitingSendAt[f] in directory {
        var target := waitingSendAt[f];
        var (m, flow) := TakeSender(mailboxes[target], f);
        taken := flow;
        if flow.Some? {
          mailboxes := mailboxes[target := m];
          waitingSendAt := waitingSendAt - {f};
          place := place[f := Held];
        }
      }
    }

    /** Every live peer of an abnormal exit gets a kill signal; those that can be pulled out go on the work list. */
    method CollectLinkExits(peers: set<FlowId>, work: seq<PendingExit>) returns (work': seq<PendingExit>)
      requires SnapOk(Now(), WorkIds(work)) && WorkDistinct(work)
      modifies `killSignals, `mailboxes, `waitingSendAt, `place
      ensures SnapOk(Now(), WorkIds(work')) && WorkDistinct(work')
      ensures Reached(old(Now()), Now(), peers) && Grown(work, work', Link, peers)
    {
      hide Now, Core, SnapOk, WorkIds, WorkDistinct, Quiet, KillTaken, Reached, Grown;
      ghost var s := Now();
      work' := work;
      ReachedNone(s, WorkIds(work));
      GrownNothing(work, Link, peers);
      var left := peers;
      assert peers - left == {};
      while left != {}
        invariant left <= peers && SnapOk(Now(), WorkIds(work')) && WorkDistinct(work')
        invariant Reached(s, Now(), peers - left) && Grown(work, work', Link, peers)
        decreases left
      {
        var peer :| peer in left;
        KillTakenOk(Now(), WorkIds(work'), peer, Link);
        ReachedOne(s, Now(), WorkIds(work'), peers - left, peer);
        var taken := ExtractForKill(peer, Link, WorkIds(work'));
        if taken.Some? {
          WorkPush(work', PendingExit(taken.value, Link));
          GrownOne(work, work', Link, peers, PendingExit(taken.value, Link));
          work' := work' + [PendingExit(taken.value, Link)];
        }
        assert peers - (left - {peer}) == peers - left + {peer};
        left := left - {peer};
      }
      assert peers - left == peers;
    }

    method CutLinks(id: FlowId) returns (peers: set<FlowId>)
      modifies `links
      ensures peers == Peers(old(Now()).links, id)
      ensures Now() == old(Now()).(links := LinksWithout(old(Now()).links, id))
    {
      hide Core, Peers, LinksWithout;
      peers := Peers(links, id);
      links := LinksWithout(links, id);
    }

    /** Monitors fire, links go, and an abnormal exit reaches for its peers. */
    method Propagate(id: FlowId, reason: Reason, work: seq<PendingExit>) returns (work': seq<PendingExit>)
      requires SnapOk(Now(), WorkIds(work)) && WorkDistinct(work) && id !in Now().core.place && id <= ID_LIMIT
               && id !in Now().signals
      modifies `monitors, `downs, `links, `killSignals, `place, `mailboxes, `waitingSendAt, `ready, `byAsker,
        `byTarget, `requestIds
      ensures SnapOk(Now(), WorkIds(work')) && WorkDistinct(work')
      ensures Propagated(old(Now()), Now(), id, reason, work, work')
    {
      hide Now, Core, SnapOk, WorkIds, WorkDistinct, Quiet, Reached, Grown, Notified, Propagated, Peers,
           LinksWithout;
      ghost var s0 := Now();
      NotifyTargetExit(id, reason, WorkIds(work));
      ghost var s1 := Now();
      NotifiedLinks(s0, s1, id, reason);
      LinksCut(s1, WorkIds(work), id);
      var peers := CutLinks(id);
      if Abnormal(reason) {
        work' := CollectLinkExits(peers, work);
      } else {
        work' := work;
        ReachedNone(Now(), WorkIds(work));
        GrownNothing(work, Link, {});
      }
      PropagatedInParts(s0, s1, Now(), id, reason, work, work');
    }

    // ----- one exit, and everything that follows from it -----

    method FinalizeOne(p: PendingExit, work: seq<PendingExit>) returns (work': seq<PendingExit>)
      requires WorkDistinct(work) && p.flow.id !in WorkIds(work) && SnapOk(Now(), WorkIds(work) + {p.flow.id})
      modifies this
      ensures WorkDistinct(work') && SnapOk(Now(), WorkIds(work'))
      ensures p.flow.id in old(Now()).directory && Exited(old(Now()), Now(), p.flow.id, p.reason, work, work')
    {
      hide Now, Core, SnapOk, WorkIds, WorkDistinct, Detached, Unbound, Swept, Propagated, Exited, Tame;
      var id := p.flow.id;
      ghost var s0 := Now();
      FinalizingId(s0, WorkIds(work) + {id}, id);
      SnapListed(s0, WorkIds(work) + {id});
      var detached := Detach(id, p.reason, work);
      ghost var s1 := Now();
      Sweep(id, WorkIds(detached));
      work' := Propagate(id, p.reason, detached);
      ExitInParts(s0, s1, Now(), id, p.reason, work, detached, work');
    }

    /**
     The flow in hand exits for `reason`; so do, one after another, the senders stranded in the
     inboxes that close and the parked peers of every abnormal exit. `done` tells who and why.
     */
    method FinalizeFlow(flow: Flow, reason: Reason) returns (ghost done: map<FlowId, Fate>)
      requires SnapOk(Now(), {flow.id})
      modifies this
      ensures Valid() && Progress(old(Now()), Now(), done, [], PendingExit(flow, reason))
      ensures flow.id in done && done[flow.id] == Fate(reason, 0)
    {
      hide Now, Core, SnapOk, Progress, WorkIds, WorkDistinct, Exited;
      ghost var s, root := Now(), PendingExit(flow, reason);
      var work := [PendingExit(flow, reason)];
      done := map[];
      FirstOfWork(root);
      ProgressStarts(s, root);
      while work != []
        invariant SnapOk(Now(), WorkIds(work)) && WorkDistinct(work) && Progress(s, Now(), done, work, root)
        invariant if done == map[] then work == [root] else flow.id in done && done[flow.id] == Fate(reason, 0)
        decreases Now().directory
      {
        var rest, p := work[..|work| - 1], work[|work| - 1];
        assert work == rest + [p];
        WorkPop(work);
        ghost var m := Now();
        ProgressParts(s, m, done, work, root);
        work := FinalizeOne(p, rest);
        ProgressOne(s, m, Now(), done, rest, p, work, root);
        DirectoryShrinks(m, Now(), p.flow.id, p.reason, rest, work);
        done := Buried(done, p.flow.id, p.reason);
      }
      NoWork();
    }

    // ----- steps: taking flows from queues and putting them back -----

    method DequeueReady(f: FlowId) returns (flow: Flow)
      requires f in Now().core.ready
      modifies `ready, `place
      ensures flow == old(Now()).core.ready[f] && Now() == TakeReady(old(Now()), f)
    {
      flow := ready[f];
      ready := ready - {f};
      place := place[f := Held];
    }

    method DequeueRunning(f: FlowId) returns (flow: Flow)
      requires f in Now().core.running
      modifies `running, `place
      ensures flow == old(Now()).core.running[f] && Now() == TakeRunning(old(Now()), f)
    {
      flow := running[f];
      running := running - {f};
      place := place[f := Held];
    }

    method DequeueSleeping(f: FlowId) returns (flow: Flow)
      requires f in Now().core.sleeping
      modifies `sleeping, `place
      ensures flow == old(Now()).core.sleeping[f] && Now() == TakeSleeping(old(Now()), f)
    {
      flow := sleeping[f];
      sleeping := sleeping - {f};
      place := place[f := Held];
    }

    method MakeRunning(flow: Flow)
      modifies `running, `place
      ensures Now() == ToRunning(old(Now()), flow)
    {
      running := running[flow.id := flow];
      place := place[flow.id := Running];
    }

    method MakeSleeping(flow: Flow)
      modifies `sleeping, `place
      ensures Now() == ToSleeping(old(Now()), flow)
    {
      sleeping := sleeping[flow.id := flow];
      place := place[flow.id := Sleeping];
    }

    method TakeSignal(f: FlowId) returns (signal: Option<Reason>)
      modifies `killSignals
      ensures signal == if f in old(Now()).signals then Some(old(Now()).signals[f]) else None
      ensures Now() == if signal.Some? then old(Now()).(signals := old(Now()).signals - {f}) else old(Now())
    {
      hide Core;
      signal := None;
      if f in killSignals {
        signal := Some(killSignals[f]);
        killSignals := killSignals - {f};
      }
    }

    /** A worker takes a runnable flow; one under a kill signal exits instead of running. */
    method Drive(f: FlowId) returns (alive: bool, ghost done: map<FlowId, Fate>)
      requires Valid() && f in Now().core.ready
      modifies this
      ensures Moves(old(Now()), Now()) && AsksGoOn(old(Now()), Now())
      ensures Valid() && (alive <==> f !in old(Now()).signals)
      ensures alive ==> Now() == ToRunning(TakeReady(old(Now()), f), Refreshed(old(Now()).core.ready[f]))
      ensures !alive ==>
                var root := PendingExit(Refreshed(old(Now()).core.ready[f]), old(Now()).signals[f]);
                && Progress(TakeReady(old(Now()), f).(signals := old(Now()).signals - {f}), Now(), done, [], root)
                && f in done && done[f] == Fate(root.reason, 0)
    {
      hide Now, Core, SnapOk, Progress, Refreshed, InStep, ToRunning;
      ghost var s := Now();
      TakeReadyOk(s, f);
      RefreshedIs(s.core.ready[f]);
      StepSnap(TakeReady(s, f), f);
      SignalsAside(TakeReady(s, f), {f}, f);
      var flow := DequeueReady(f);
      flow := Refreshed(flow);
      var signal := TakeSignal(f);
      done := map[];
      if signal.Some? {
        alive := false;
        WatchStays();
        ghost var taken := Now();
        done := FinalizeFlow(flow, signal.value);
        FinalizedMoves(old(Now()), taken, Now(), done, PendingExit(flow, signal.value));
        TakenFromQueueAsks(old(Now()), taken, Now(), done, PendingExit(flow, signal.value));
      } else {
        alive := true;
        ToRunningOk(TakeReady(s, f), flow);
        MakeRunning(flow);
        MovesElsewhere();
        AsksElsewhere();
      }
    }

    /** A running flow returns, traps, or is stopped by a failed effect. */
    method Complete(f: FlowId, reason: Reason) returns (ghost done: map<FlowId, Fate>)
      requires Valid() && f in Now().core.running
      modifies this
      ensures Moves(old(Now()), Now()) && AsksGoOn(old(Now()), Now())
      ensures Valid()
      ensures Progress(TakeRunning(old(Now()), f), Now(), done, [], PendingExit(old(Now()).core.running[f], reason))
      ensures f in done && done[f] == Fate(reason, 0)
    {
      hide Now, Core, SnapOk, Progress, InStep;
      TakeRunningOk(Now(), f);
      StepSnap(TakeRunning(Now(), f), f);
      var flow := DequeueRunning(f);
      WatchStays();
      ghost var taken := Now();
      done := FinalizeFlow(flow, reason);
      FinalizedMoves(old(Now()), taken, Now(), done, PendingExit(flow, reason));
      TakenFromQueueAsks(old(Now()), taken, Now(), done, PendingExit(flow, reason));
    }

    method Yield(f: FlowId)
      requires Valid() && f in Now().core.running
      modifies `running, `ready, `place
      ensures Moves(old(Now()), Now()) && AsksGoOn(old(Now()), Now())
      ensures Valid() && Now() == ToReady(TakeRunning(old(Now()), f), old(Now()).core.running[f])
    {
      hide Now, Core, SnapOk, InStep, HoldRunning;
      TakeRunningOk(Now(), f);
      ToReadyOk(TakeRunning(Now(), f), Now().core.running[f]);
      var flow := DequeueRunning(f);
      MakeReady(flow);
      MovesElsewhere();
      AsksElsewhere();
    }

    method SleepFor(f: FlowId)
      requires Valid() && f in Now().core.running
      modifies `running, `sleeping, `place
      ensures Moves(old(Now()), Now()) && AsksGoOn(old(Now()), Now())
      ensures Valid() && Now() == ToSleeping(TakeRunning(old(Now()), f), old(Now()).core.running[f])
    {
      hide Now, Core, SnapOk, InStep, TakeRunning, ToSleeping;
      TakeRunningOk(Now(), f);
      ToSleepingOk(TakeRunning(Now(), f), Now().core.running[f]);
      var flow := DequeueRunning(f);
      MakeSleeping(flow);
      MovesElsewhere();
      AsksElsewhere();
    }

    method WakeSleeper(f: FlowId)
      requires Valid() && f in Now().core.sleeping
      modifies `sleeping, `ready, `place
      ensures Moves(old(Now()), Now()) && AsksGoOn(old(Now()), Now())
      ensures Valid() && Now() == ToReady(TakeSleeping(old(Now()), f), old(Now()).core.sleeping[f])
    {
      hide Now, Core, SnapOk, InStep, HoldSleeping;
      TakeSleepingOk(Now(), f);
      ToReadyOk(TakeSleeping(Now(), f), Now().core.sleeping[f]);
      var flow := DequeueSleeping(f);
      MakeReady(flow);
      MovesElsewhere();
      AsksElsewhere();
    }

    // ----- steps: hops -----

    /** `true` is the refusal of a full inbox; a hop to a dead flow is dropped. */
    method Deliver(target: FlowId, hop: Value) returns (full: bool)
      requires Valid()
      modifies `place, `mailboxes, `ready, `byAsker, `byTarget, `requestIds
      ensures Moves(old(Now()), Now()) && AsksGoOn(old(Now()), Now())
      ensures Valid() && (Now(), full) == HopDelivered(old(Now()), target, hop, mailboxConfig)
    {
      hide Now, Core, SnapOk, HandOver, WithBox, Wrote, Matches, Enqueue;
      ghost var s := Now();
      DeliveredOk(s, {}, target, hop, mailboxConfig);
      ShowDirectory();
      ShowBoxes();
      full := false;
      if target in directory {
        LiveBox(s, {}, target);
        var (m, d) := Push(mailboxes[target], hop, mailboxConfig);
        if d.Handoff? {
          Resume(target, d.flow.lastDest, hop);
        } else {
          full := d.Full?;
          SetMailbox(target, m);
        }
      }
      MovesElsewhere();
      DeliveredAsks(s, target, hop, mailboxConfig);
    }

    /** A running flow looks into its inbox. */
    method Receive(f: FlowId, dest: u8, filter: WaitFilter) returns (got: bool)
      requires Valid() && f in Now().core.running
      modifies `mailboxes, `running
      ensures Moves(old(Now()), Now()) && AsksGoOn(old(Now()), Now())
      ensures Valid() && f in old(Now()).core.boxes && (Now(), got) == Received(old(Now()), f, dest, filter)
    {
      hide Now, Core, SnapOk, TakeFrom, Wrote;
      ReceivedOk(Now(), f, dest, filter);
      ShowBoxes();
      ShowRunning();
      var flow := running[f].(lastDest := Some(dest));
      var (m, v) := TryPop(mailboxes[f], filter);
      got := v.Some?;
      if v.Some? {
        SetMailbox(f, m);
        SetRunning(f, Wrote(flow, Some(dest), v.value));
      } else {
        SetRunning(f, flow);
      }
      MovesElsewhere();
      ReceivedAsks(old(Now()), f, dest, filter);
    }

    lemma ShowRunning()
      ensures Now().core.running == running
    {
    }

    method SetRunning(f: FlowId, flow: Flow)
      modifies `running
      ensures Now() == old(Now()).(core := old(Now()).core.(running := old(Now()).core.running[f := flow]))
    {
      running := running[f := flow];
    }

    method SetDeadlines(next: set<Deadline>)
      modifies `deadlines
      ensures Now() == old(Now()).(deadlines := next)
    {
      hide Core;
      deadlines := next;
    }

    lemma ShowDeadlines()
      ensures Now().deadlines == deadlines
    {
    }

    /** The flow goes into its own slot. */
    method Install(flow: Flow, m: Mailbox)
      modifies `mailboxes, `place
      ensures Now() == old(Now()).(core := old(Now()).core.(boxes := old(Now()).core.boxes[flow.id := m],
                                                            place := old(Now()).core.place[flow.id := Parked]))
    {
      mailboxes := mailboxes[flow.id := m];
      place := place[flow.id := Parked];
    }

    /** A running flow that found nothing parks, unless a match has come in by now. */
    method ParkOnMailbox(f: FlowId, dest: u8, filter: WaitFilter, timeout: bool)
      requires Valid() && f in Now().core.running && !AskFilter(filter) && Now().core.running[f].lastDest == Some(dest)
      modifies `place, `mailboxes, `running, `ready, `deadlines
      ensures Moves(old(Now()), Now()) && AsksGoOn(old(Now()), Now())
      ensures Valid() && f in old(Now()).core.boxes && f == old(Now()).core.running[f].id
      ensures Now() == ParkedPlain(TakeRunning(old(Now()), f), old(Now()).core.running[f], dest, filter, timeout)
    {
      hide Now, Core, SnapOk, InStep, TakeFrom, Wrote;
      ghost var s := TakeRunning(Now(), f);
      TakeRunningOk(Now(), f);
      StepBox(s, f);
      ParkedPlainOk(s, Now().core.running[f], dest, filter, timeout);
      var flow := DequeueRunning(f);
      ShowBoxes();
      ShowDeadlines();
      var (m, r) := Park(mailboxes[f], flow, filter);
      if r.Raced? {
        SetMailbox(f, m);
        MakeReady(Answered(r.flow, dest));
      } else {
        Install(flow, m);
        SetDeadlines(Armed(deadlines, f, dest, m, timeout));
      }
      MovesElsewhere();
      ParkedPlainAsks(old(Now()), f, flow, dest, filter, timeout);
    }

    /** `insert` of the ask index; `false` is `DuplicateAsk`. */
    method InsertAsker(a: FlowId, target: FlowId, rid: u64) returns (ok: bool)
      modifies `byAsker, `byTarget, `requestIds
      ensures ok == (a !in old(Now()).core.requestIds)
      ensures Now() == if ok then old(Now()).(core := AskInsert(old(Now()).core, a, target, rid)) else old(Now())
    {
      hide Now, Core, AskInsert;
      ShowRequests();
      ok := a !in requestIds;
      if ok {
        AddAsker(a, target, rid);
      }
    }

    lemma ShowRequests()
      ensures Now().core.requestIds == requestIds
    {
    }

    method AddAsker(a: FlowId, target: FlowId, rid: u64)
      modifies `byAsker, `byTarget, `requestIds
      ensures Now() == old(Now()).(core := AskInsert(old(Now()).core, a, target, rid))
    {
      hide Now, Core;
      AddRequest(a, target, rid);
      AddWaiter(a, target);
    }

    method AddRequest(a: FlowId, target: FlowId, rid: u64)
      modifies `byAsker, `requestIds
      ensures var c := old(Now()).core;
              Now() == old(Now()).(core := c.(byAsker := c.byAsker[a := target], requestIds := c.requestIds[a := rid]))
    {
      requestIds := requestIds[a := rid];
      byAsker := byAsker[a := target];
    }

    method AddWaiter(a: FlowId, target: FlowId)
      modifies `byTarget
      ensures var c := old(Now()).core;
              var waiters := if target in c.byTarget then c.byTarget[target] else {};
              Now() == old(Now()).(core := c.(byTarget := c.byTarget[target := waiters + {a}]))
    {
      byTarget := byTarget[target := (if target in byTarget then byTarget[target] else {}) + {a}];
    }

    /** Parking for an answer; the flow in hand is in no index, so it is never a duplicate. */
    method ParkAsk(flow: Flow, dest: u8, rid: u64, target: u64, timeout: bool)
      requires InStep(Now(), flow.id) && flow.lastDest == Some(dest)
      modifies `place, `mailboxes, `ready, `byAsker, `byTarget, `requestIds, `deadlines
      ensures Valid() && flow.id in old(Now()).core.boxes
              && Now() == ParkedAsking(old(Now()), flow, dest, rid, target, timeout)
    {
      hide Now, Core, SnapOk, InStep, ParkedIndexed, Wrote;
      StepBox(Now(), flow.id);
      NoDuplicate(Now(), flow.id);
      ParkedAskingOk(Now(), flow, dest, rid, target, timeout);
      var inserted := InsertAsker(flow.id, target, rid);
      if !inserted {
        assert false;
      }
      ParkIndexed(flow, dest, rid, target, timeout);
    }

    method ParkIndexed(flow: Flow, dest: u8, rid: u64, target: u64, timeout: bool)
      requires flow.id in Now().core.boxes
      modifies `place, `mailboxes, `ready, `byAsker, `byTarget, `requestIds, `deadlines
      ensures Now() == ParkedIndexed(old(Now()), flow, dest, rid, target, timeout)
    {
      hide Now, Core, TakeFrom, Wrote, AskInsert, AskRemove;
      ShowBoxes();
      ShowDeadlines();
      ShowDirectory();
      var filter := Correlation(rid, Some(target));
      var (m, r) := Park(mailboxes[flow.id], flow, filter);
      if r.Raced? {
        SetMailbox(flow.id, m);
        RemoveAsker(flow.id);
        MakeReady(Answered(r.flow, dest));
      } else {
        Install(flow, m);
        if target in directory {
          SetDeadlines(Armed(deadlines, flow.id, dest, m, timeout));
        } else {
          Resume(flow.id, Some(dest), ExitHop(target, ReasonCode(Fault)));
        }
      }
    }

    /** A running flow has put its request and parks for the answer. */
    method AskAndPark(f: FlowId, dest: u8, rid: u64, target: u64, timeout: bool)
      requires Valid() && f in Now().core.running && Now().core.running[f].lastDest == Some(dest)
      modifies `place, `mailboxes, `running, `ready, `byAsker, `byTarget, `requestIds, `deadlines
      ensures Moves(old(Now()), Now()) && AsksGoOn(old(Now()), Now())
      ensures Valid() && f in old(Now()).core.boxes && f == old(Now()).core.running[f].id
      ensures Now() == ParkedAsking(TakeRunning(old(Now()), f), old(Now()).core.running[f], dest, rid, target, timeout)
    {
      hide Now, Core, SnapOk, InStep, ParkedAsking;
      TakeRunningOk(Now(), f);
      StepBox(TakeRunning(Now(), f), f);
      var flow := DequeueRunning(f);
      ParkAsk(flow, dest, rid, target, timeout);
      MovesElsewhere();
      AskedAsks(old(Now()), f, flow, dest, rid, target, timeout);
    }

    /** After a receive has made room, one waiting sender is admitted. */
    method AdmitWaitingOn(f: FlowId)
      requires Valid() && f in Now().core.running
      modifies `place, `mailboxes, `ready, `waitingSendAt, `byAsker, `byTarget, `requestIds, `deadlines
      ensures Moves(old(Now()), Now()) && AsksGoOn(old(Now()), Now())
      ensures Valid() && f in old(Now()).core.boxes && old(Now()).core.boxes[f].parked.None?
      ensures Now() == AdmittedOn(old(Now()), f, mailboxConfig)
    {
      hide Now, Core, SnapOk, InStep, AdmitOne, ParkedAsking, Consistent;
      ReceivedOk(Now(), f, 0, AnyHop);
      AdmitOneOk(Now(), f, mailboxConfig);
      AdmittedOnOk(Now(), f, mailboxConfig);
      var sender := AdmitFirst(f);
      if sender.Some? {
        Continue(sender.value);
      }
      MovesElsewhere();
      AdmittedAsks(old(Now()), f, mailboxConfig);
    }

    method AdmitFirst(f: FlowId) returns (sender: Option<Flow>)
      requires f in Now().core.boxes
      modifies `place, `mailboxes, `waitingSendAt
      ensures (Now(), sender) == AdmitOne(old(Now()), f, mailboxConfig)
    {
      hide AdmitSender;
      var (m, o) := AdmitSender(mailboxes[f], mailboxConfig);
      sender := o;
      if o.Some? {
        mailboxes := mailboxes[f := m];
        waitingSendAt := waitingSendAt - {o.value.id};
        place := place[o.value.id := Held];
      }
    }

    method Continue(sender: Flow)
      requires InStep(Now(), sender.id) && Consistent(sender)
      modifies `place, `mailboxes, `ready, `byAsker, `byTarget, `requestIds, `deadlines
      ensures sender.id in old(Now()).core.boxes && Now() == Continued(old(Now()), sender)
    {
      hide Now, Core, SnapOk, InStep, ParkedAsking;
      StepBox(Now(), sender.id);
      var flow := sender.(pendingSend := None);
      match sender.pendingSend {
        case Some(AskReply(dest, rid, target, timeout)) => ParkAsk(flow, dest, rid, target, timeout.Some?);
        case Some(FireAndForget) => MakeReady(flow);
        case None => MakeReady(flow);
      }
    }

    method JoinQueue(flow: Flow, target: FlowId, hop: Value)
      requires target in Now().core.boxes
      modifies `place, `mailboxes, `waitingSendAt
      ensures Now() == old(Now()).(core := PutWaiting(old(Now()).core, flow, target, hop))
    {
      mailboxes := mailboxes[target := mailboxes[target].(waiting := mailboxes[target].waiting + [Waiting(flow, hop)])];
      waitingSendAt := waitingSendAt[flow.id := target];
      place := place[flow.id := WaitingIn(target)];
    }

    /** The hop was refused: the sender waits in the target's queue, or exits if the target is gone. */
    method ParkWaitingSend(f: FlowId, target: FlowId, hop: Value, pending: PendingSend) returns (parked: bool,
                           ghost done: map<FlowId, Fate>)
      requires Valid() && f in Now().core.running
      requires Consistent(Now().core.running[f].(pendingSend := Some(pending)))
      modifies this
      ensures Moves(old(Now()), Now()) && AsksGoOn(old(Now()), Now())
      ensures Valid() && (parked <==> target in old(Now()).directory)
      ensures var flow := old(Now()).core.running[f].(pendingSend := Some(pending));
              && (parked ==>
                    && target in old(Now()).core.boxes
                    && var taken := TakeRunning(old(Now()), f);
                       Now() == taken.(core := PutWaiting(taken.core, flow, target, hop)))
              && (!parked ==>
                    && Progress(TakeRunning(old(Now()), f), Now(), done, [], PendingExit(flow, Fault))
                    && f in done && done[f] == Fate(Fault, 0))
    {
      hide Now, Core, SnapOk, InStep, PutWaiting, Progress, Consistent;
      ghost var s := TakeRunning(Now(), f);
      TakeRunningOk(Now(), f);
      StepSnap(s, f);
      var flow := DequeueRunning(f);
      flow := flow.(pendingSend := Some(pending));
      ShowDirectory();
      parked := target in directory;
      done := map[];
      if parked {
        WaitingOk(s, flow, target, hop);
        JoinQueue(flow, target, hop);
        MovesElsewhere();
        WaitingAsks(old(Now()), f, flow, target, hop);
      } else {
        WatchStays();
        ghost var taken := Now();
        done := FinalizeFlow(flow, Fault);
        FinalizedMoves(old(Now()), taken, Now(), done, PendingExit(flow, Fault));
        TakenFromQueueAsks(old(Now()), taken, Now(), done, PendingExit(flow, Fault));
      }
    }

    /** A receive timeout whose time has come. */
    method Fire(d: Deadline) returns (resumed: bool)
      requires Valid() && d in Now().deadlines
      modifies `place, `mailboxes, `ready, `byAsker, `byTarget, `requestIds, `deadlines
      ensures Moves(old(Now()), Now()) && AsksGoOn(old(Now()), Now())
      ensures Valid() && d.pid in old(Now()).core.boxes && (Now(), resumed) == TimedOut(old(Now()), d)
    {
      hide Now, Core, SnapOk, Wrote, HandOver;
      TimedOutOk(Now(), d);
      ShowDeadlines();
      ShowBoxes();
      SetDeadlines(deadlines - {d});
      ShowBoxes();
      var (m, o) := TakeParkedAt(mailboxes[d.pid], d.epoch);
      resumed := o.Some?;
      if resumed {
        Resume(d.pid, Some(d.dest), Unit);
      }
      MovesElsewhere();
      TimeoutEnds(old(Now()), d);
    }

    // ----- steps: births, relations, names, capabilities, kills -----

    /** `None` is the refusal at the flow limit. */
    method Spawn() returns (id: Option<FlowId>)
      requires Valid() && Now().nextFlow < ID_LIMIT
      modifies `directory, `quotas, `caps, `nextFlow, `mailboxes, `ready, `place
      ensures Moves(old(Now()), Now()) && AsksGoOn(old(Now()), Now())
      ensures Valid() && (id.None? <==> 0 < maxFlows <= |old(Now()).directory|)
      ensures id.None? ==> Now() == old(Now())
      ensures id.Some? ==>
                Now() == Spawned(old(Now())) && id.value == old(Now()).nextFlow && id.value !in old(Now()).directory
    {
      hide Now, Core, SnapOk, Spawned;
      SpawnedOk(Now());
      ShowDirectory();
      id := None;
      SpawnedAsks(Now());
      NothingAsked(Now(), Now());
      if maxFlows == 0 || |directory| < maxFlows {
        var born := Birth();
        id := Some(born);
      }
      MovesElsewhere();
    }

    method Birth() returns (id: FlowId)
      modifies `directory, `quotas, `caps, `nextFlow, `mailboxes, `ready, `place
      ensures id == old(Now()).nextFlow && Now() == Spawned(old(Now()))
    {
      hide Now, Core, Capabilities.Bind, NewFlow;
      id := TakeId();
      Enrol(id);
      Place(NewFlow(id));
    }

    method TakeId() returns (id: FlowId)
      modifies `nextFlow
      ensures id == old(Now()).nextFlow && Now() == old(Now()).(nextFlow := old(Now()).nextFlow + 1)
    {
      hide Core;
      id := nextFlow;
      nextFlow := nextFlow + 1;
    }

    method Enrol(id: FlowId)
      modifies `directory, `quotas, `caps
      ensures Now() == old(Now()).(directory := old(Now()).directory + {id}, quotas := old(Now()).quotas + {id},
                                   caps := Capabilities.Bind(old(Now()).caps, id))
    {
      hide Core, Capabilities.Bind;
      caps := Capabilities.Bind(caps, id);
      directory := directory + {id};
      quotas := quotas + {id};
    }

    method Place(flow: Flow)
      modifies `mailboxes, `ready, `place
      ensures Now() == old(Now()).(core := Admit(old(Now()).core, flow))
    {
      mailboxes := mailboxes[flow.id := EmptyMailbox()];
      ready := ready[flow.id := flow];
      place := place[flow.id := Ready];
    }

    /** A live owner other than the target; the reference is new. */
    method CreateMonitor(owner: FlowId, target: FlowId) returns (r: nat)
      requires Valid() && owner in Now().directory && owner != target && Now().nextMonitor < ID_LIMIT
      modifies `monitors, `nextMonitor
      ensures Moves(old(Now()), Now()) && AsksGoOn(old(Now()), Now())
      ensures Valid() && r == old(Now()).nextMonitor && r !in old(Now()).monitors
              && Now() == Monitored(old(Now()), owner, target)
    {
      hide Core, SnapOk;
      MonitoredOk(Now(), owner, target);
      r := nextMonitor;
      nextMonitor := nextMonitor + 1;
      monitors := monitors[r := Monitor(owner, target)];
      assert Takes(old(Now()), Creates(owner, target), Now());
      AsksElsewhere();
    }

    method RemoveMonitor(owner: FlowId, r: nat) returns (done: Result<(), RelationError>)
      requires Valid()
      modifies `monitors
      ensures Moves(old(Now()), Now()) && AsksGoOn(old(Now()), Now())
      ensures Valid() && (Now(), done) == Demonitored(old(Now()), owner, r)
    {
      hide Core, SnapOk;
      DemonitoredOk(Now(), owner, r);
      if r !in monitors {
        done := Err(InvalidMonitor);
      } else if monitors[r].owner != owner {
        done := Err(NotOwner);
      } else {
        monitors := monitors - {r};
        done := Ok(());
      }
      DropMoves(old(Now()), owner, r);
      AsksElsewhere();
    }

    method CreateLink(a: FlowId, b: FlowId) returns (r: Result<nat, RelationError>)
      requires Valid()
      modifies `links, `nextLink
      ensures Moves(old(Now()), Now()) && AsksGoOn(old(Now()), Now())
      ensures Valid() && (Now(), r) == LinkedNow(old(Now()), a, b)
    {
      hide Core, SnapOk;
      LinkedNowOk(Now(), a, b);
      var taken := exists l ::
        && l in links
        && ((links[l].a == a && links[l].b == b) || (links[l].a == b && links[l].b == a));
      LinkedIs(links, a, b);
      if a == b {
        r := Err(SelfRelation);
      } else if taken {
        r := Err(AlreadyLinked);
      } else {
        r := Ok(nextLink);
        links := links[nextLink := Pair(a, b)];
        nextLink := nextLink + 1;
      }
      MovesElsewhere();
      AsksElsewhere();
    }

    method RemoveLink(owner: FlowId, l: nat) returns (r: Result<(), RelationError>)
      requires Valid()
      modifies `links
      ensures Moves(old(Now()), Now()) && AsksGoOn(old(Now()), Now())
      ensures Valid() && (Now(), r) == Unlinked(old(Now()), owner, l)
    {
      hide Core, SnapOk;
      UnlinkedOk(Now(), owner, l);
      if l !in links {
        r := Err(InvalidLink);
      } else if !Touches(links[l], owner) {
        r := Err(NotOwner);
      } else {
        links := links - {l};
        r := Ok(());
      }
      MovesElsewhere();
      AsksElsewhere();
    }

    method RegisterName(name: Name, cap: u128, flow: FlowId) returns (r: Result<(), RelationError>)
      requires Valid() && flow in Now().directory
      modifies `byName, `byFlow
      ensures Moves(old(Now()), Now()) && AsksGoOn(old(Now()), Now())
      ensures Valid() && (Now(), r) == Named(old(Now()), name, cap, flow)
    {
      hide Core, SnapOk;
      NamedOk(Now(), name, cap, flow);
      if name == [] {
        r := Err(EmptyName);
      } else if name in byName {
        r := Err(AlreadyRegistered);
      } else {
        byFlow := byFlow[flow := (if flow in byFlow then byFlow[flow] else []) + [name]];
        byName := byName[name := NameEntry(cap, flow)];
        r := Ok(());
      }
      MovesElsewhere();
      AsksElsewhere();
    }

    method UnregisterName(name: Name) returns (known: bool)
      requires Valid()
      modifies `byName, `byFlow
      ensures Moves(old(Now()), Now()) && AsksGoOn(old(Now()), Now())
      ensures Valid() && (Now(), known) == Unnamed(old(Now()), name)
    {
      hide Core, SnapOk, NamesLeft;
      UnnamedOk(Now(), name);
      known := name in byName;
      if known {
        var f := byName[name].flow;
        byName := byName - {name};
        var left := if f in byFlow then NamesLeft(byFlow[f], name) else [];
        byFlow := if left == [] then byFlow - {f} else byFlow[f := left];
      }
      MovesElsewhere();
      AsksElsewhere();
    }

    /** Any operation on the capability table other than the revocation that belongs to an exit. */
    method Grant(op: Capabilities.Op)
      requires Valid() && Capabilities.Enabled(Now().caps, op) && !op.DoRevoke?
      modifies `caps
      ensures Moves(old(Now()), Now()) && AsksGoOn(old(Now()), Now())
      ensures Valid() && Now() == old(Now()).(caps := Capabilities.Apply(old(Now()).caps, op))
    {
      hide Core, SnapOk, Capabilities.Apply, Capabilities.Enabled;
      GrantedOk(Now(), op);
      caps := Capabilities.Apply(caps, op);
      MovesElsewhere();
      AsksElsewhere();
    }

    /** Parked and waiting flows exit at once; others get a signal for their next quantum. */
    method RequestKill(f: FlowId, reason: Reason) returns (killed: bool, ghost done: map<FlowId, Fate>)
      requires Valid()
      modifies this
      ensures Moves(old(Now()), Now()) && AsksGoOn(old(Now()), Now())
      ensures Valid() && (killed <==> f in old(Now()).directory && Extractable(old(Now()).core, f))
      ensures var (t, taken) := KillTaken(old(Now()), f, reason);
              && (!killed ==> Now() == t)
              && (killed ==>
                    && taken.Some? && Progress(t, Now(), done, [], PendingExit(taken.value, reason))
                    && f in done && done[f] == Fate(reason, 0))
    {
      hide Now, Core, SnapOk, KillTaken, Progress, Quiet, Extractable;
      KillTakenOk(Now(), {}, f, reason);
      KilledAsks(Now(), f, reason);
      var taken := ExtractForKill(f, reason, {});
      killed := taken.Some?;
      done := map[];
      if killed {
        assert {} + {f} == {f};
        WatchStays();
        ghost var left := Now();
        done := FinalizeFlow(taken.value, reason);
        FinalizedMoves(old(Now()), left, Now(), done, PendingExit(taken.value, reason));
        FinalizedAsks(old(Now()), left, Now(), done, PendingExit(taken.value, reason));
      } else {
        MovesElsewhere();
      }
    }
  }

  lemma NoWaiters()
    ensures WaitIds([]) == {}
  {
  }

  lemma NextIsNew(ws: seq<Waiting>, i: nat)
    requires NoTwice(ws) && i < |ws|
    ensures ws[i].flow.id !in WaitIds(ws[..i]) && ws[i].flow.id in WaitIds(ws)
  {
  }

  lemma SnapListed(s: Snap, held: set<FlowId>)
    requires SnapOk(s, held)
    ensures Listed(s.directory, s.core.place)
  {
    hide CoreOk, Listed, SignalsOk, MonitorsOk, DownsOk, LinksOk, NamesOk, IdsOk, DeadlinesOk, Capabilities.Sane;
  }

  lemma StrandingReady(s: Snap, held: set<FlowId>, id: FlowId)
    requires SnapOk(s, held) && id in held
    ensures id in s.core.boxes && NoTwice(s.core.boxes[id].waiting) && WaitIds(s.core.boxes[id].waiting) !! held
  {
    hide SnapOk, CoreOk, TablesOk, WaitIds, NoTwice;
    SnapCore(s, held);
    InHand(s.core, held, id);
    CoreSenders(s.core, held, id);
  }

  lemma OnlyIndex(c: Core, id: FlowId)
    ensures WithIndex(c, WithoutOrphans(c, id)) == WithoutOrphans(c, id)
  {
  }

  lemma SnapNames(s: Snap, held: set<FlowId>)
    requires SnapOk(s, held)
    ensures NamesOk(s.byName, s.byFlow, s.directory)
  {
    hide CoreOk, Listed, SignalsOk, MonitorsOk, DownsOk, LinksOk, NamesOk, IdsOk, DeadlinesOk, Capabilities.Sane;
  }

  lemma NamesAbsent(byName: map<Name, NameEntry>, byFlow: map<FlowId, seq<Name>>, f: FlowId, directory: set<FlowId>)
    requires NamesOk(byName, byFlow, directory) && f !in byFlow
    ensures NamesWithout(byName, f) == byName && byFlow - {f} == byFlow
  {
  }

  lemma NamesSwept(byName: map<Name, NameEntry>, byFlow: map<FlowId, seq<Name>>, after: map<Name, NameEntry>, f: FlowId,
                   directory: set<FlowId>)
    requires NamesOk(byName, byFlow, directory) && f in byFlow
    requires forall n :: n in after <==> n in byName && n !in byFlow[f]
    requires forall n :: n in after ==> after[n] == byName[n]
    ensures after == NamesWithout(byName, f)
  {
    forall n ensures n in after <==> n in byName && byName[n].flow != f {
      if n in byName && byName[n].flow == f {
        assert n in byFlow[f];
      }
    }
  }

  lemma SnapQuiet(s: Snap, held: set<FlowId>)
    requires SnapOk(s, held)
    ensures Quiet(s.core, s.core)
  {
    hide CoreOk, TablesOk, Quiet;
    QuietItself(s.core, held);
  }

  lemma QuietPlace(c: Core, d: Core, f: FlowId)
    requires Quiet(c, d)
    ensures f in d.place <==> f in c.place
  {
    hide Tame;
  }

  lemma MonitorsCut(s: Snap, held: set<FlowId>, target: FlowId)
    requires SnapOk(s, held)
    ensures SnapOk(s.(monitors := TargetRemoved(s.monitors, target)), held)
  {
    hide CoreOk, Listed, SignalsOk, MonitorsOk, LinksOk, NamesOk, IdsOk, DeadlinesOk, Capabilities.Sane;
    MonitorsShrink(s.monitors, s.nextMonitor, s.directory, target);
  }

  lemma NotifiedAt(s: Snap, t: Snap, events: seq<Down>, held: set<FlowId>, target: FlowId, reason: Reason)
    requires SnapOk(s, held) && SnapOk(t, held)
             && t == s.(core := t.core, monitors := TargetRemoved(s.monitors, target))
    requires Quiet(s.core, t.core) && DownsFor(events, s.monitors, target, reason)
    requires RousedPlaces(s.core, t.core, events)
    ensures SnapOk(t.(downs := t.downs + events), held) && Notified(s, t.(downs := t.downs + events), target, reason)
  {
    hide SnapOk, CoreOk, TablesOk, Quiet, DownsFor, TargetRemoved, Notified, RousedPlaces;
    SnapCore(t, held);
    NotifiedOk(s, t.core, events, held, target, reason);
  }

  lemma RefsBounded(s: Snap, held: set<FlowId>, r: nat)
    requires SnapOk(s, held) && r in s.monitors
    ensures r <= ID_LIMIT && s.monitors[r].owner in s.directory && s.monitors[r].owner in s.core.place
  {
    hide CoreOk, SignalsOk, DownsOk, LinksOk, NamesOk, IdsOk, DeadlinesOk, Capabilities.Sane;
  }

  /** What delivering a DOWN hop does, and why it may be done. */
  lemma DownDelivered(s: Snap, held: set<FlowId>, e: Down)
    requires SnapOk(s, held) && e.target !in s.core.place && e.ref <= ID_LIMIT && e.target <= ID_LIMIT
    ensures Quiet(s.core, s.core)
    ensures e.owner in s.directory ==>
              && e.owner in s.core.boxes
              && (s.core.boxes[e.owner].parked.Some? ==> s.core.boxes[e.owner].parked.value.id == e.owner)
              && var d := DeliverTo(s.core, e.owner, DownFor(e));
                 SnapOk(s.(core := d), held) && Quiet(s.core, d) && DownArrived(s.core, d, e.owner, DownFor(e))
  {
    hide SnapOk, CoreOk, TablesOk, Tame, DeliverTo, DownArrived, Matches;
    SnapCore(s, held);
    SnapQuiet(s, held);
    InDirectory(s, held, e.owner);
    if e.owner in s.directory {
      OpenBox(s.core, held, e.owner);
      DeliverToOk(s.core, held, e.owner, DownFor(e), e.target);
      SnapStays(s, s.(core := DeliverTo(s.core, e.owner, DownFor(e))), held, held);
    }
  }

  lemma NobodyRoused(c: Core)
    ensures RousedPlaces(c, c, [])
  {
  }

  lemma RousedMore(events: seq<Down>, e: Down, boxes: map<FlowId, Mailbox>, f: FlowId)
    ensures RousedBy(events + [e], boxes, f)
            <==> RousedBy(events, boxes, f)
                 || (f in boxes && e.owner == f && FitsDown(boxes[f].filter, e.ref, e.target, e.reason))
  {
    hide FitsDown;
    var all := events + [e];
    assert all[|events|] == e && forall k :: 0 <= k < |events| ==> all[k] == events[k];
  }

  /** One more hop on its way: its owner is roused if it is still parked and the hop matches. */
  lemma RousedOne(s: Snap, c: Core, d: Core, held: set<FlowId>, events: seq<Down>, e: Down)
    requires SnapOk(s.(core := c, monitors := TargetRemoved(s.monitors, e.target)), held)
    requires Quiet(s.core, c) && RousedPlaces(s.core, c, events)
    requires e.ref <= ID_LIMIT && e.target <= ID_LIMIT && e.owner in s.core.place
    requires if e.owner in s.directory then e.owner in c.boxes && d == DeliverTo(c, e.owner, DownFor(e)) else d == c
    ensures RousedPlaces(s.core, d, events + [e])
  {
    hide SnapOk, CoreOk, TablesOk, Tame, TargetRemoved, DeliverTo, Matches, RousedBy, SamePlaces;
    var now := s.(core := c, monitors := TargetRemoved(s.monitors, e.target));
    SnapCore(now, held);
    InDirectory(now, held, e.owner);
    QuietParts(s.core, c);
    SamePlacesAre(s.core, c);
    DeliverPlaces(c, held, e.owner, DownFor(e));
    if c.place[e.owner] == Parked {
      FilterStays(s.core, c, e.owner);
    }
    forall f ensures RousedBy(events + [e], s.core.boxes, f)
                     <==> RousedBy(events, s.core.boxes, f)
                          || (f in s.core.boxes && e.owner == f
                              && FitsDown(s.core.boxes[f].filter, e.ref, e.target, e.reason)) {
      RousedMore(events, e, s.core.boxes, f);
    }
  }

  // ----- firing monitors one by one -----

  /** `events` are the monitors on `target` fired so far, `refs` those still to fire. */
  ghost predicate Firing(events: seq<Down>, monitors: map<nat, Monitor>, target: FlowId, reason: Reason, refs: set<nat>)
  {
    && InOrder(events, monitors, target, reason)
    && (forall k, r :: 0 <= k < |events| && r in refs ==> events[k].ref < r)
    && (forall r :: r in refs ==> r in monitors && monitors[r].target == target)
    && (forall r :: r in monitors && monitors[r].target == target && r !in refs ==> HasFired(events, r))
  }

  ghost predicate InOrder(events: seq<Down>, monitors: map<nat, Monitor>, target: FlowId, reason: Reason) {
    && (forall k :: 0 <= k < |events| ==>
          events[k].ref in monitors && monitors[events[k].ref].target == target
          && events[k] == Down(events[k].ref, monitors[events[k].ref].owner, target, reason))
    && (forall j, k :: 0 <= j < k < |events| ==> events[j].ref < events[k].ref)
  }

  ghost predicate HasFired(events: seq<Down>, r: nat) {
    exists k :: 0 <= k < |events| && events[k].ref == r
  }

  lemma FiringStarts(monitors: map<nat, Monitor>, target: FlowId, reason: Reason, refs: set<nat>)
    requires forall r :: r in refs <==> r in monitors && monitors[r].target == target
    ensures Firing([], monitors, target, reason, refs)
  {
  }

  lemma OneFires(events: seq<Down>, e: Down, r: nat)
    ensures HasFired(events + [e], r) <==> HasFired(events, r) || e.ref == r
  {
    var next := events + [e];
    assert next[|events|] == e && forall k :: 0 <= k < |events| ==> next[k] == events[k];
  }

  lemma NextInOrder(events: seq<Down>, monitors: map<nat, Monitor>, target: FlowId, reason: Reason, r: nat)
    requires InOrder(events, monitors, target, reason) && r in monitors && monitors[r].target == target
    requires forall k :: 0 <= k < |events| ==> events[k].ref < r
    ensures InOrder(events + [Down(r, monitors[r].owner, target, reason)], monitors, target, reason)
  {
  }

  lemma FiringNext(events: seq<Down>, monitors: map<nat, Monitor>, target: FlowId, reason: Reason, refs: set<nat>,
                   r: nat)
    requires Firing(events, monitors, target, reason, refs) && r in refs && forall q :: q in refs ==> r <= q
    ensures r in monitors
    ensures Firing(events + [Down(r, monitors[r].owner, target, reason)], monitors, target, reason, refs - {r})
  {
    hide InOrder, HasFired;
    NextInOrder(events, monitors, target, reason, r);
    var e := Down(r, monitors[r].owner, target, reason);
    forall q ensures HasFired(events + [e], q) <==> HasFired(events, q) || r == q {
      OneFires(events, e, q);
    }
  }

  lemma FiringDone(events: seq<Down>, monitors: map<nat, Monitor>, target: FlowId, reason: Reason)
    requires Firing(events, monitors, target, reason, {})
    ensures DownsFor(events, monitors, target, reason)
  {
  }

  // ----- kills -----

  /** A waiting sender is found in the queue of a live target. */
  ghost predicate WaitsInLive(s: Snap, f: FlowId) {
    f in s.core.waitingAt ==>
      s.core.waitingAt[f] in s.core.boxes && s.core.waitingAt[f] in s.directory
      && TakeSender(s.core.boxes[s.core.waitingAt[f]], f).1.Some?
  }

  lemma KillReady(s: Snap, held: set<FlowId>, f: FlowId)
    requires SnapOk(s, held)
    ensures f in s.directory ==> f in s.core.boxes && WaitsInLive(s, f)
  {
    hide SnapOk, CoreOk, TablesOk, TakeSender;
    SnapCore(s, held);
    InDirectory(s, held, f);
    if f in s.directory {
      ExtractOk(s.core, held, f);
      if f in s.core.waitingAt {
        InDirectory(s, held, s.core.waitingAt[f]);
      }
    }
  }

  lemma ReachedNone(s: Snap, held: set<FlowId>)
    requires SnapOk(s, held)
    ensures Reached(s, s, {})
  {
    hide SnapOk, Quiet;
    SnapQuiet(s, held);
  }

  lemma NotifiedLinks(s: Snap, t: Snap, id: FlowId, reason: Reason)
    requires Notified(s, t, id, reason)
    ensures t.links == s.links
  {
    hide Quiet, Fired, TargetRemoved;
  }

  // ----- the work list of a whole finalization -----

  lemma FirstOfWork(p: PendingExit)
    ensures WorkIds([p]) == {p.flow.id} && WorkDistinct([p])
  {
    assert [] + [p] == [p];
    WorkPush([], p);
  }

  lemma NoWork()
    ensures WorkIds([]) == {}
  {
  }

  lemma ProgressParts(s: Snap, t: Snap, done: map<FlowId, Fate>, work: seq<PendingExit>, root: PendingExit)
    requires Progress(s, t, done, work, root)
    ensures t.directory == s.directory - done.Keys
  {
    CutParts(s, t, done.Keys);
    hide TablesCut, Tame, SignalsNow, AskersNow, Informed, AllBecause, WorkBecause, DownsNow, TurnsOk, PlacesNow,
         OnlyFallen;
  }

  lemma DirectoryShrinks(s: Snap, t: Snap, id: FlowId, reason: Reason, work: seq<PendingExit>, work': seq<PendingExit>)
    requires Exited(s, t, id, reason, work, work') && id in s.directory
    ensures t.directory < s.directory
  {
    hide Tame, AskersLeft, AllTold, SignalsAfter, Fired, AllCaused, OwnedRemoved, MonitorsWithout, LinksWithout,
         NamesWithout,
         Capabilities.RevokeFlow;
  }

  // ----- small facts for the steps -----

  lemma StepSnap(s: Snap, f: FlowId)
    requires InStep(s, f)
    ensures SnapOk(s, {f})
  {
    hide SnapOk;
  }

  lemma StepBox(s: Snap, f: FlowId)
    requires InStep(s, f)
    ensures f in s.core.boxes
  {
    hide SnapOk;
  }

  lemma NoDuplicate(s: Snap, f: FlowId)
    requires InStep(s, f)
    ensures f !in s.core.requestIds
  {
    hide SnapOk, CoreOk, TablesOk;
    SnapCore(s, {f});
    AskMaps(s.core, {f});
  }

  lemma LinkedIs(links: map<nat, Pair>, a: FlowId, b: FlowId)
    ensures Linked(links, a, b)
            <==> exists l ::
                   && l in links
                   && ((links[l].a == a && links[l].b == b) || (links[l].a == b && links[l].b == a))
  {
  }

  const START: Snap :=
    Snap(Residence.Core.Core(map[], map[], map[], map[], map[], map[], map[], map[], map[]), {}, {}, map[], map[],
         map[], map[], map[],
         Capabilities.EMPTY, {}, 1, 1, 1, [])

  lemma StartIsOk()
    ensures SnapOk(START, {})
  {
  }

  lemma DropMoves(s: Snap, owner: FlowId, r: nat)
    ensures Moves(s, Demonitored(s, owner, r).0)
  {
    if r in s.monitors && s.monitors[r].owner == owner {
      assert Takes(s, Drops(r), Demonitored(s, owner, r).0);
    } else {
      StaysPut(s, s);
    }
  }
}
