/**
 What a flow finds in its registers (crates/byteflow/src/scheduler/{worker,finalize,timer}.rs): which
 value each step writes, into which register, and how the wait for an answer ends.
 */
module Registers {
  import opened Wrappers
  import opened Values
  import opened MailboxSpec
  import opened Residence
  import opened Lifecycle
  import opened Exits
  import opened Fates
  import opened Finalization
  import opened Steps
  import Capabilities

  /** `after` is `before` with exactly one more value in its registers: `v`, in `dest`. */
  ghost predicate Got(before: Flow, dest: u8, v: Value, after: Flow) {
    after.writes == before.writes + [(dest, v)] && after == before.(writes := after.writes)
  }

  lemma WroteGot(flow: Flow, dest: Option<u8>, v: Value)
    requires dest.Some?
    ensures Got(flow, dest.value, v, Wrote(flow, dest, v)) && Wrote(flow, dest, v).id == flow.id
  {
  }

  lemma HandOverIs(c: Core, a: FlowId, flow: Flow)
    requires a in c.boxes && flow.id == a
    ensures var d := HandOver(c, a, flow);
            && d.ready == c.ready[a := flow] && d.boxes == c.boxes[a := Vacated(c.boxes[a])]
            && d.place == c.place[a := Ready] && d.running == c.running && d.sleeping == c.sleeping
            && d.byAsker == c.byAsker - {a} && d.requestIds == c.requestIds - {a}
  {
    hide WaitersWithout, Vacated;
    assert c.place[a := Held][a := Ready] == c.place[a := Ready];
  }

  lemma ParkedFlow(s: Snap, held: set<FlowId>, f: FlowId)
    requires SnapOk(s, held) && f in s.core.boxes && s.core.boxes[f].parked.Some?
    ensures f in s.core.place && s.core.place[f] == Parked && f in s.directory
    ensures s.core.boxes[f].parked.value.id == f && s.core.boxes[f].parked.value.lastDest.Some?
    ensures NothingMissed(s.core.boxes[f])
  {
    hide SnapOk, CoreOk, TablesOk, Consistent, NothingMissed;
    SnapCore(s, held);
    ParkedAreParked(s.core, held);
    InDirectory(s, held, f);
    OpenBox(s.core, held, f);
    SnapDeadlines(s, held);
  }

  lemma Elsewhere<K, V>(m: map<K, V>, k: K, v: V)
    ensures m[k := v] - {k} == m - {k}
  {
  }

  // ----- hops -----

  /**
   A hop goes straight into the register of a flow parked under a filter that it matches, which is
   runnable then; no older hop in its inbox matches. Any other live flow finds it at the end of its
   inbox if there is room; it is refused for lack of room only. Nobody else notices.
   */
  lemma DeliveredMeans(s: Snap, target: FlowId, hop: Value, cfg: Config)
    requires SnapOk(s, {})
    ensures var (t, full) := HopDelivered(s, target, hop, cfg);
            && (target !in s.directory ==> t == s && !full)
            && (target in s.directory ==>
                  && target in s.core.boxes && target in t.core.boxes
                  && t.core.running == s.core.running && t.core.sleeping == s.core.sleeping
                  && t.core.boxes - {target} == s.core.boxes - {target}
                  && t.core.ready - {target} == s.core.ready - {target})
    ensures target in s.directory && s.core.boxes[target].parked.Some? && Matches(s.core.boxes[target].filter, hop) ==>
              var (t, full) := HopDelivered(s, target, hop, cfg);
              var m := s.core.boxes[target];
              && !full && m.parked.value.lastDest.Some? && target in t.core.ready
              && Got(m.parked.value, m.parked.value.lastDest.value, hop, t.core.ready[target])
              && t.core.boxes[target].parked.None? && t.core.boxes[target].queue == m.queue
              && NoneMatches(m.queue.items, m.filter)
    ensures target in s.directory
            && !(s.core.boxes[target].parked.Some? && Matches(s.core.boxes[target].filter, hop)) ==>
              var (t, full) := HopDelivered(s, target, hop, cfg);
              var m := s.core.boxes[target];
              && t.core.ready == s.core.ready && t.core.boxes[target] == m.(queue := t.core.boxes[target].queue)
              && (Exact(m.queue) && ValidConfig(cfg) ==>
                    if HasRoom(m.queue.items, hop, cfg) then
                      !full && t.core.boxes[target].queue.items == m.queue.items + [hop]
                    else full <==> cfg.policy.Reject? || (cfg.policy.DropOldest? && MemorySize(hop) > cfg.byteLimit))
  {
    hide SnapOk, HandOver, Wrote, Matches, Enqueue, Got, HasRoom, Exact, Vacated, HopDelivered;
    if target !in s.directory {
      NotDelivered(s, target, hop, cfg);
    } else {
      LiveBox(s, {}, target);
      var m := s.core.boxes[target];
      if m.parked.Some? && Matches(m.filter, hop) {
        HandedMeans(s, target, hop, cfg);
      } else {
        QueuedMeans(s, target, hop, cfg);
      }
    }
  }

  lemma NotDelivered(s: Snap, target: FlowId, hop: Value, cfg: Config)
    requires target !in s.directory
    ensures HopDelivered(s, target, hop, cfg) == (s, false)
  {
  }

  lemma HandedMeans(s: Snap, target: FlowId, hop: Value, cfg: Config)
    requires SnapOk(s, {}) && target in s.directory && target in s.core.boxes
    requires s.core.boxes[target].parked.Some? && Matches(s.core.boxes[target].filter, hop)
    ensures var (t, full) := HopDelivered(s, target, hop, cfg);
            var m := s.core.boxes[target];
            && !full && m.parked.value.lastDest.Some? && target in t.core.ready && target in t.core.boxes
            && Got(m.parked.value, m.parked.value.lastDest.value, hop, t.core.ready[target])
            && t.core.boxes[target].parked.None? && t.core.boxes[target].queue == m.queue
            && NoneMatches(m.queue.items, m.filter)
            && t.core.running == s.core.running && t.core.sleeping == s.core.sleeping
            && t.core.boxes - {target} == s.core.boxes - {target}
            && t.core.ready - {target} == s.core.ready - {target}
  {
    hide SnapOk, HandOver, Wrote, Matches, Enqueue, Got;
    var m := s.core.boxes[target];
    ParkedFlow(s, {}, target);
    WroteGot(m.parked.value, m.parked.value.lastDest, hop);
    HandOverIs(s.core, target, Wrote(m.parked.value, m.parked.value.lastDest, hop));
    Elsewhere(s.core.boxes, target, Vacated(m));
    Elsewhere(s.core.ready, target, Wrote(m.parked.value, m.parked.value.lastDest, hop));
  }

  /** What a push that hands nothing over leaves, on the mailbox alone. */
  lemma PushMeans(m: Mailbox, hop: Value, cfg: Config)
    requires !(m.parked.Some? && Matches(m.filter, hop))
    ensures var (m', d) := Push(m, hop, cfg);
            && m' == m.(queue := m'.queue) && !d.Handoff?
            && (Exact(m.queue) && ValidConfig(cfg) ==>
                  if HasRoom(m.queue.items, hop, cfg) then !d.Full? && m'.queue.items == m.queue.items + [hop]
                  else d.Full? <==> cfg.policy.Reject? || (cfg.policy.DropOldest? && MemorySize(hop) > cfg.byteLimit))
  {
    hide Matches, Enqueue, HasRoom, Exact;
    if Exact(m.queue) && ValidConfig(cfg) {
      EnqueueMeans(m.queue, hop, cfg.policy, cfg);
    }
  }

  lemma QueuedIs(s: Snap, target: FlowId, hop: Value, cfg: Config)
    requires target in s.directory && target in s.core.boxes && !Push(s.core.boxes[target], hop, cfg).1.Handoff?
    ensures var (m, d) := Push(s.core.boxes[target], hop, cfg);
            HopDelivered(s, target, hop, cfg) == (s.(core := WithBox(s.core, target, m)), d.Full?)
  {
    hide Push, WithBox;
  }

  lemma QueuedMeans(s: Snap, target: FlowId, hop: Value, cfg: Config)
    requires target in s.directory && target in s.core.boxes
    requires !(s.core.boxes[target].parked.Some? && Matches(s.core.boxes[target].filter, hop))
    ensures var (t, full) := HopDelivered(s, target, hop, cfg);
            var m := s.core.boxes[target];
            && target in t.core.boxes
            && t.core == s.core.(boxes := t.core.boxes)
            && t.core.boxes - {target} == s.core.boxes - {target}
            && t.core.boxes[target] == m.(queue := t.core.boxes[target].queue)
            && (Exact(m.queue) && ValidConfig(cfg) ==>
                  if HasRoom(m.queue.items, hop, cfg) then
                    !full && t.core.boxes[target].queue.items == m.queue.items + [hop]
                  else full <==> cfg.policy.Reject? || (cfg.policy.DropOldest? && MemorySize(hop) > cfg.byteLimit))
  {
    hide Matches, HasRoom, Exact, Push, HopDelivered, MemorySize, ValidConfig;
    PushMeans(s.core.boxes[target], hop, cfg);
    QueuedIs(s, target, hop, cfg);
    Elsewhere(s.core.boxes, target, Push(s.core.boxes[target], hop, cfg).0);
  }

  /**
   A running flow that looks into its inbox finds the oldest hop that matches in the register it
   names, and the inbox without that hop; if none matches it finds nothing and nothing is taken.
   */
  lemma ReceivedMeans(s: Snap, f: FlowId, dest: u8, filter: WaitFilter)
    requires SnapOk(s, {}) && f in s.core.running
    ensures f in s.core.boxes
    ensures var (t, got) := Received(s, f, dest, filter);
            var items, before := s.core.boxes[f].queue.items, s.core.running[f].(lastDest := Some(dest));
            && f in t.core.running && f in t.core.boxes
            && t.core.running - {f} == s.core.running - {f} && t.core.boxes - {f} == s.core.boxes - {f}
            && t.core.ready == s.core.ready && t.core.sleeping == s.core.sleeping
            && (got <==> !NoneMatches(items, filter))
            && (!got ==> t.core.running[f] == before && t.core.boxes == s.core.boxes)
            && (got ==>
                  exists v ::
                    && OldestTaken(items, filter, v, t.core.boxes[f].queue.items)
                    && Got(before, dest, v, t.core.running[f]))
  {
    hide SnapOk, Matches, Wrote, Got, TryPop, OldestTaken, Received, NoneMatches, WithRunning, WithBox;
    ReceivedOk(s, f, dest, filter);
    TryPopMeans(s.core.boxes[f], filter);
    ReceivedIs(s, f, dest, filter);
    var before := s.core.running[f].(lastDest := Some(dest));
    var (m, v) := TryPop(s.core.boxes[f], filter);
    Elsewhere(s.core.boxes, f, m);
    Elsewhere(s.core.running, f, before);
    WithRunningIs(s.core, f, m, before);
    if v.Some? {
      WroteGot(before, Some(dest), v.value);
      WithRunningIs(s.core, f, m, Wrote(before, Some(dest), v.value));
      Elsewhere(s.core.running, f, Wrote(before, Some(dest), v.value));
    }
  }

  lemma ReceivedIs(s: Snap, f: FlowId, dest: u8, filter: WaitFilter)
    requires f in s.core.running && f in s.core.boxes
    ensures var (m, v) := TryPop(s.core.boxes[f], filter);
            var flow := s.core.running[f].(lastDest := Some(dest));
            var next := if v.Some? then Wrote(flow, Some(dest), v.value) else flow;
            var c := if v.Some? then WithBox(s.core, f, m) else s.core;
            Received(s, f, dest, filter) == (s.(core := WithRunning(c, f, next)), v.Some?)
  {
    hide TakeFrom, Wrote;
    var v := TryPop(s.core.boxes[f], filter).1;
    if v.Some? {
      assert Received(s, f, dest, filter).1;
    } else {
      assert !Received(s, f, dest, filter).1;
    }
  }

  function WithRunning(c: Core, f: FlowId, flow: Flow): Core {
    c.(running := c.running[f := flow])
  }

  lemma WithRunningIs(c: Core, f: FlowId, m: Mailbox, flow: Flow)
    ensures WithRunning(c, f, flow) == c.(running := c.running[f := flow])
    ensures var d := WithRunning(WithBox(c, f, m), f, flow);
            d == c.(boxes := c.boxes[f := m], running := c.running[f := flow])
  {
  }

  /** What receiving leaves to the askers. */
  lemma ReceivedAside(s: Snap, f: FlowId, dest: u8, filter: WaitFilter)
    requires f in s.core.running && f in s.core.boxes
    ensures var (m, v) := TryPop(s.core.boxes[f], filter);
            var t := Received(s, f, dest, filter).0.core;
            && t.byAsker == s.core.byAsker && t.requestIds == s.core.requestIds
            && t.boxes == if v.Some? then s.core.boxes[f := m] else s.core.boxes
  {
    hide TryPop, Wrote, WithRunning, WithBox, Received;
    var (m, v) := TryPop(s.core.boxes[f], filter);
    var flow := s.core.running[f].(lastDest := Some(dest));
    ReceivedIs(s, f, dest, filter);
    WithRunningIs(s.core, f, m, if v.Some? then Wrote(flow, Some(dest), v.value) else flow);
  }

  // ----- parking -----

  /**
   A flow that is about to park and finds a match goes on with the oldest one in its register;
   otherwise it is parked as it is.
   */
  lemma ParkedPlainMeans(s: Snap, flow: Flow, dest: u8, filter: WaitFilter, timeout: bool)
    requires flow.id in s.core.boxes && flow.pendingMessage.None?
    ensures var t := ParkedPlain(s, flow, dest, filter, timeout);
            var items := s.core.boxes[flow.id].queue.items;
            && flow.id in t.core.boxes
            && (NoneMatches(items, filter) ==>
                  && t.core.boxes[flow.id].parked == Some(flow) && t.core.boxes[flow.id].filter == filter
                  && t.core.boxes[flow.id].queue == s.core.boxes[flow.id].queue && t.core.ready == s.core.ready)
            && (!NoneMatches(items, filter) ==>
                  flow.id in t.core.ready && TookOldest(s, t, flow, dest, filter))
  {
    hide Matches, Answered, Got, Park, OldestTaken, NoneMatches, ParkedPlain;
    var (m, r) := Park(s.core.boxes[flow.id], flow, filter);
    ParkMeans(s.core.boxes[flow.id], flow, filter);
    ParkedPlainIs(s, flow, dest, filter, timeout);
    if r.Raced? {
      var v :| OldestTaken(s.core.boxes[flow.id].queue.items, filter, v, m.queue.items)
               && r.flow == flow.(pendingMessage := Some(v));
      RacedGot(flow, dest, v);
    } else {
      InstalledIs(s.core.boxes[flow.id], flow, filter);
    }
  }

  lemma AnsweredId(flow: Flow, dest: u8)
    ensures Answered(flow, dest).id == flow.id
  {
  }

  lemma ToReadyIs(s: Snap, f: FlowId, m: Mailbox, flow: Flow)
    ensures var t := ToReady(s.(core := WithBox(s.core, f, m)), flow);
            && t.core.boxes == s.core.boxes[f := m] && t.core.ready == s.core.ready[flow.id := flow]
            && t.core.byAsker == s.core.byAsker && t.core.requestIds == s.core.requestIds
  {
  }

  lemma PutParkedIs(c: Core, flow: Flow, filter: WaitFilter)
    requires flow.id in c.boxes
    ensures var d := PutParked(c, flow, filter);
            && d.boxes == c.boxes[flow.id := Occupied(c.boxes[flow.id], flow, filter)] && d.ready == c.ready
            && d.byAsker == c.byAsker && d.requestIds == c.requestIds
  {
    hide Occupied;
  }

  lemma ParkedPlainIs(s: Snap, flow: Flow, dest: u8, filter: WaitFilter, timeout: bool)
    requires flow.id in s.core.boxes
    ensures var (m, r) := Park(s.core.boxes[flow.id], flow, filter);
            var t := ParkedPlain(s, flow, dest, filter, timeout);
            && t.core.byAsker == s.core.byAsker && t.core.requestIds == s.core.requestIds
            && (r.Installed? ==>
                  t.core.boxes == s.core.boxes[flow.id := Occupied(s.core.boxes[flow.id], flow, filter)]
                  && t.core.ready == s.core.ready)
            && (r.Raced? ==>
                  t.core.boxes == s.core.boxes[flow.id := m]
                  && t.core.ready == s.core.ready[r.flow.id := Answered(r.flow, dest)])
  {
    hide Park, Answered, Occupied, ToReady, PutParked, WithBox, Armed;
    var (m, r) := Park(s.core.boxes[flow.id], flow, filter);
    if r.Raced? {
      AnsweredId(r.flow, dest);
      ToReadyIs(s, flow.id, m, Answered(r.flow, dest));
    } else {
      PutParkedIs(s.core, flow, filter);
    }
  }

  lemma InstalledIs(m: Mailbox, flow: Flow, filter: WaitFilter)
    requires Park(m, flow, filter).1.Installed?
    ensures Park(m, flow, filter).0 == Occupied(m, flow, filter)
  {
    hide TakeFrom;
  }

  /** The oldest match in the flow's inbox has gone to its register. */
  ghost predicate TookOldest(s: Snap, t: Snap, flow: Flow, dest: u8, filter: WaitFilter)
    requires flow.id in s.core.boxes && flow.id in t.core.boxes && flow.id in t.core.ready
  {
    exists v ::
      && OldestTaken(s.core.boxes[flow.id].queue.items, filter, v, t.core.boxes[flow.id].queue.items)
      && Got(flow, dest, v, t.core.ready[flow.id])
  }

  lemma RacedGot(flow: Flow, dest: u8, v: Value)
    requires flow.pendingMessage.None?
    ensures Got(flow, dest, v, Answered(flow.(pendingMessage := Some(v)), dest))
    ensures Answered(flow.(pendingMessage := Some(v)), dest).id == flow.id
  {
    assert flow.(pendingMessage := Some(v)).(pendingMessage := None) == flow;
  }

  /**
   A flow that asks: the answer was there first and is in its register; or the flow asked is gone
   and the news of a fault is; or it is parked as it is, in the index, until one of them comes.
   */
  lemma ParkedAskingMeans(s: Snap, flow: Flow, dest: u8, rid: u64, target: u64, timeout: bool)
    requires InStep(s, flow.id) && flow.pendingMessage.None?
    ensures flow.id in s.core.boxes
    ensures var t := ParkedAsking(s, flow, dest, rid, target, timeout);
            var filter := Correlation(rid, Some(target));
            && flow.id in t.core.boxes
            && (if !NoneMatches(s.core.boxes[flow.id].queue.items, filter) then
                  flow.id in t.core.ready && TookOldest(s, t, flow, dest, filter) && t.core.byAsker == s.core.byAsker
                else if target !in s.directory then
                  flow.id in t.core.ready && Got(flow, dest, ExitHop(target, ReasonCode(Fault)), t.core.ready[flow.id])
                  && t.core.byAsker == s.core.byAsker
                else
                  && t.core.boxes[flow.id].parked == Some(flow) && t.core.boxes[flow.id].filter == filter
                  && t.core.byAsker == s.core.byAsker[flow.id := target]
                  && t.core.requestIds == s.core.requestIds[flow.id := rid] && t.core.ready == s.core.ready)
  {
    hide SnapOk, Matches, Wrote, Got, AskRemove, HandOver, Vacated, Answered, Park, OldestTaken, NoneMatches;
    AskingMeans(s, flow, dest, rid, target, timeout);
    var filter := Correlation(rid, Some(target));
    var (m, r) := Park(s.core.boxes[flow.id], flow, filter);
    ParkMeans(s.core.boxes[flow.id], flow, filter);
    if r.Raced? {
      var v :| OldestTaken(s.core.boxes[flow.id].queue.items, filter, v, m.queue.items)
               && r.flow == flow.(pendingMessage := Some(v));
      RacedGot(flow, dest, v);
    } else if target !in s.directory {
      WroteGot(flow, Some(dest), ExitHop(target, ReasonCode(Fault)));
    }
  }

  // ----- timeouts and lost races -----

  /** The deadline is that of the park the flow is in. */
  ghost predicate OfThisPark(t: Snap, d: Deadline) {
    && d.pid in t.core.boxes && t.core.boxes[d.pid].parked.Some?
    && t.core.boxes[d.pid].epoch == d.epoch && t.core.boxes[d.pid].parks == d.park
  }

  /** A wait with a timeout arms one deadline, for its own park and register; nothing else touches the timer. */
  ghost predicate Arms(s: Snap, t: Snap, f: FlowId, dest: u8, asked: bool) {
    && s.deadlines <= t.deadlines
    && (forall d :: d in s.deadlines && d.pid == f && f in t.core.boxes && t.core.boxes[f].parked.Some? ==>
          d.park < t.core.boxes[f].parks)
    && (forall d :: d in t.deadlines - s.deadlines ==> asked && d.pid == f && d.dest == dest && OfThisPark(t, d))
    && (asked ==> exists d :: d in t.deadlines && d.pid == f && d.dest == dest && OfThisPark(t, d))
  }

  lemma PlainTimeoutIsArmed(s: Snap, flow: Flow, dest: u8, filter: WaitFilter, timeout: bool)
    requires InStep(s, flow.id)
    ensures flow.id in s.core.boxes
    ensures var t := ParkedPlain(s, flow, dest, filter, timeout);
            Arms(s, t, flow.id, dest, timeout && NoneMatches(s.core.boxes[flow.id].queue.items, filter))
  {
    hide SnapOk, Matches, Answered, Park, NoneMatches;
    var f := flow.id;
    NoOwnDeadlineYet(s, f);
    var m := s.core.boxes[f];
    ParkMeans(m, flow, filter);
    ParkedPlainIs(s, flow, dest, filter, timeout);
    if Park(m, flow, filter).1.Installed? {
      InstalledIs(m, flow, filter);
      ArmedOne(s, ParkedPlain(s, flow, dest, filter, timeout), f, dest, timeout, Occupied(m, flow, filter));
    }
  }

  lemma NoOwnDeadlineYet(s: Snap, f: FlowId)
    requires InStep(s, f)
    ensures f in s.core.boxes && s.core.boxes[f].parked.None?
    ensures forall d :: d in s.deadlines && d.pid == f ==> d.park <= s.core.boxes[f].parks
  {
    hide SnapOk;
    SnapCore(s, {f});
    InHand(s.core, {f}, f);
    SnapDeadlines(s, {f});
  }

  lemma ArmedOne(s: Snap, t: Snap, f: FlowId, dest: u8, timeout: bool, m: Mailbox)
    requires f in t.core.boxes && t.core.boxes[f] == m && m.parked.Some?
    requires forall d :: d in s.deadlines && d.pid == f ==> d.park < m.parks
    requires t.deadlines == Armed(s.deadlines, f, dest, m, timeout)
    ensures Arms(s, t, f, dest, timeout)
  {
    if timeout {
      assert OfThisPark(t, Deadline(f, dest, m.epoch, m.parks));
    }
  }

  lemma NotParkedNotArmed(s: Snap, f: FlowId, m: Mailbox, flow: Flow, dest: u8)
    requires m.parked.None?
    ensures Arms(s, ToReady(s.(core := WithBox(s.core, f, m)), flow), f, dest, false)
  {
    ToReadyIs(s, f, m, flow);
  }

  /** The same for an ask, unless the answer was there first or the flow asked is gone. */
  lemma AskTimeoutIsArmed(s: Snap, flow: Flow, dest: u8, rid: u64, target: u64, timeout: bool)
    requires InStep(s, flow.id)
    ensures flow.id in s.core.boxes
    ensures var t := ParkedAsking(s, flow, dest, rid, target, timeout);
            var none := NoneMatches(s.core.boxes[flow.id].queue.items, Correlation(rid, Some(target)));
            Arms(s, t, flow.id, dest, timeout && none && target in s.directory)
  {
    hide SnapOk, Matches, Wrote, AskRemove, HandOver, Answered, Park, NoneMatches, Arms, ToReady;
    var f, filter := flow.id, Correlation(rid, Some(target));
    NoOwnDeadlineYet(s, f);
    AskingMeans(s, flow, dest, rid, target, timeout);
    ParkMeans(s.core.boxes[f], flow, filter);
    var (m, r) := Park(s.core.boxes[f], flow, filter);
    if r.Raced? {
      NotParkedNotArmed(s, f, m, Answered(r.flow, dest), dest);
    } else if target !in s.directory {
      NotParkedNotArmed(s, f, Vacated(m), Wrote(flow, Some(dest), ExitHop(target, ReasonCode(Fault))), dest);
    } else {
      InstalledIs(s.core.boxes[f], flow, filter);
      ArmedOne(s, ParkedAsking(s, flow, dest, rid, target, timeout), f, dest, timeout,
               Occupied(s.core.boxes[f], flow, filter));
    }
  }

  /**
   A deadline that fires under the epoch of the park resumes the flow with `Unit` in the register
   the deadline names; that is the register the flow waits for if the park is the deadline's own.
   */
  lemma TimedOutMeans(s: Snap, d: Deadline)
    requires SnapOk(s, {}) && d in s.deadlines
    ensures d.pid in s.core.boxes
    ensures var (t, resumed) := TimedOut(s, d);
            var m := s.core.boxes[d.pid];
            && t.deadlines == s.deadlines - {d} && t.core.ready - {d.pid} == s.core.ready - {d.pid}
            && (resumed <==> m.parked.Some? && m.epoch == d.epoch)
            && (!resumed ==> t.core == s.core)
            && (resumed ==> d.pid in t.core.ready && Got(m.parked.value, d.dest, Unit, t.core.ready[d.pid]))
            && (resumed && d.park == m.parks ==> m.parked.value.lastDest == Some(d.dest))
  {
    hide SnapOk, Wrote, Got, HandOver, Vacated, Consistent, NothingMissed;
    TimedOutOk(s, d);
    SnapDeadlines(s, {});
    var m := s.core.boxes[d.pid];
    if m.parked.Some? {
      WroteGot(m.parked.value, Some(d.dest), Unit);
      HandOverIs(s.core, d.pid, Wrote(m.parked.value, Some(d.dest), Unit));
    }
  }

  /** Before it runs, a flow finds a hop left over from a lost race in the register it waited for. */
  lemma RefreshedMeans(flow: Flow)
    ensures flow.pendingMessage.None? ==> Refreshed(flow) == flow
    ensures flow.pendingMessage.Some? && flow.lastDest.Some? ==>
              Got(flow.(pendingMessage := None), flow.lastDest.value, flow.pendingMessage.value, Refreshed(flow))
  {
  }

  // ----- exits -----

  /**
   Whoever was parked for an answer of a flow that died and is not dead itself is runnable, with
   exactly one new value, in the register it named: the hop that tells of that exit.
   */
  lemma OrphansRead(s: Snap, t: Snap, done: map<FlowId, Fate>, root: PendingExit, a: FlowId)
    requires SnapOk(s, {root.flow.id}) && SnapOk(t, {}) && Progress(s, t, done, [], root)
    requires Orphaned(s.core, done, a) && a !in done
    ensures a in s.core.boxes && s.core.boxes[a].parked.Some? && s.core.boxes[a].parked.value.lastDest.Some?
    ensures var flow, target := s.core.boxes[a].parked.value, s.core.byAsker[a];
            && target <= ID_LIMIT && a in t.core.ready && a !in t.core.byAsker
            && Got(flow, flow.lastDest.value, ExitHop(target, ReasonCode(done[target].reason)), t.core.ready[a])
  {
    hide SnapOk, Progress, Got, Gained;
    OrphansAreTold(s, t, done, root, a);
    ParkedFlow(s, {root.flow.id}, a);
    var target := s.core.byAsker[a];
    ToldGot(s, t, a, target, done[target].reason);
  }

  lemma ToldGot(m: Snap, t: Snap, a: FlowId, id: FlowId, reason: Reason)
    requires Told(m.core, t.core, a, id, reason) && m.core.boxes[a].parked.value.lastDest.Some?
    ensures id <= ID_LIMIT && a in t.core.ready
    ensures var flow := m.core.boxes[a].parked.value;
            Got(flow, flow.lastDest.value, ExitHop(id, ReasonCode(reason)), t.core.ready[a])
  {
  }

  /** A DOWN hop is in the register its parked owner named, or at the end of the owner's inbox. */
  lemma OwnersRead(s: Snap, t: Snap, held: set<FlowId>, owner: FlowId, hop: Value)
    requires SnapOk(s, held) && owner in s.core.boxes && owner in t.core.boxes
    requires DownArrived(s.core, t.core, owner, hop)
    ensures var m := s.core.boxes[owner];
            || t.core.boxes[owner].queue.items == m.queue.items + [hop]
            || (m.parked.Some? && m.parked.value.lastDest.Some? && owner in t.core.ready
                && Got(m.parked.value, m.parked.value.lastDest.value, hop, t.core.ready[owner]))
  {
    hide SnapOk;
    if s.core.boxes[owner].parked.Some? {
      ParkedFlow(s, held, owner);
    }
  }

  // ----- the wait for an answer -----

  /** `a` is parked for the answer to a request. */
  ghost predicate Awaiting(s: Snap, a: FlowId) {
    a in s.core.byAsker && a in s.core.requestIds && a in s.core.boxes && s.core.boxes[a].parked.Some?
  }

  /** It still is, for the same answer and with the registers it had. */
  ghost predicate StillAwaiting(s: Snap, t: Snap, a: FlowId)
    requires Awaiting(s, a)
  {
    && Awaiting(t, a) && t.core.boxes[a].parked == s.core.boxes[a].parked
    && t.core.byAsker[a] == s.core.byAsker[a] && t.core.requestIds[a] == s.core.requestIds[a]
  }

  /** The deadline fires under the epoch of the park: it is its own, unless 2^64 parks lie between. */
  ghost predicate Expires(s: Snap, a: FlowId, d: Deadline)
    requires Awaiting(s, a)
  {
    var m := s.core.boxes[a];
    && d in s.deadlines && d.pid == a && d.epoch == m.epoch
    && (|| (d.park == m.parks && m.parked.value.lastDest == Some(d.dest))
        || d.park + EPOCHS <= m.parks)
  }

  /**
   What may end the wait, and where it goes: a hop with the request's id from the flow asked, or the
   news that this flow is gone, in the register named; or `Unit` where a deadline says.
   */
  ghost predicate EndsWait(s: Snap, t: Snap, a: FlowId, dest: u8, v: Value)
    requires Awaiting(s, a)
  {
    var named, target, rid := s.core.boxes[a].parked.value.lastDest, s.core.byAsker[a], s.core.requestIds[a];
    || (named == Some(dest) && v.Hop? && v.msg.requestId == rid && v.msg.sender == target && target in s.directory)
    || (named == Some(dest) && target !in t.directory && target <= ID_LIMIT
        && exists reason :: v == ExitHop(target, ReasonCode(reason)))
    || (v == Unit && exists d :: Expires(s, a, d) && d.dest == dest)
  }

  /** The flow is runnable, with exactly one new value in its registers: one that may end the wait. */
  ghost predicate WaitEnded(s: Snap, t: Snap, a: FlowId)
    requires Awaiting(s, a)
  {
    && a in t.core.ready && a !in t.core.byAsker
    && exists dest, v :: EndsWait(s, t, a, dest, v) && Got(s.core.boxes[a].parked.value, dest, v, t.core.ready[a])
  }

  /** A step leaves every asker waiting, ends its wait, or finds it dead. */
  ghost predicate AsksGoOn(s: Snap, t: Snap) {
    forall a :: Awaiting(s, a) ==> StillAwaiting(s, t, a) || WaitEnded(s, t, a) || a !in t.directory
  }

  /** Askers other than `f` are where they were. */
  ghost predicate OthersWait(s: Snap, t: Snap, f: FlowId) {
    forall a :: Awaiting(s, a) && a != f ==> StillAwaiting(s, t, a)
  }

  lemma OthersWaitOn(s: Snap, m: Snap, t: Snap, f: FlowId, g: FlowId)
    requires OthersWait(s, m, f) && OthersWait(m, t, g)
    requires Awaiting(s, g) ==> f == g || StillAwaiting(s, t, g)
    ensures OthersWait(s, t, f)
  {
  }

  lemma NoAskers(s: Snap, t: Snap, f: FlowId)
    requires OthersWait(s, t, f) && !Awaiting(s, f)
    ensures AsksGoOn(s, t)
  {
    hide WaitEnded;
  }

  /** Mailboxes and index as they were. */
  lemma NothingAsked(s: Snap, t: Snap)
    requires t.core.boxes == s.core.boxes && t.core.byAsker == s.core.byAsker
    requires t.core.requestIds == s.core.requestIds
    ensures AsksGoOn(s, t)
  {
    hide WaitEnded;
  }

  /** A flow in a queue is no asker. */
  lemma QueuedAwaitsNothing(s: Snap, f: FlowId)
    requires SnapOk(s, {}) && (f in s.core.ready || f in s.core.running || f in s.core.sleeping)
    ensures !Awaiting(s, f) && f in s.core.boxes && f !in s.core.byAsker
  {
    hide SnapOk, CoreOk, TablesOk;
    SnapCore(s, {});
    QueuedIsFree(s.core, f);
  }

  /** Handing a flow over touches no other asker. */
  lemma HandOverWaits(s: Snap, t: Snap, a: FlowId, flow: Flow)
    requires a in s.core.boxes && flow.id == a && t.core == HandOver(s.core, a, flow)
    ensures OthersWait(s, t, a) && a in t.core.ready && t.core.ready[a] == flow && a !in t.core.byAsker
  {
    hide HandOver, Vacated;
    HandOverIs(s.core, a, flow);
    var d := HandOver(s.core, a, flow);
    assert forall x :: x in d.byAsker <==> x in s.core.byAsker && x != a;
  }

  // ----- hops and deadlines -----

  lemma AnswerEnds(s: Snap, t: Snap, a: FlowId, hop: Value)
    requires SnapOk(s, {}) && Awaiting(s, a) && Matches(s.core.boxes[a].filter, hop)
    requires var flow := s.core.boxes[a].parked.value;
             t.core == HandOver(s.core, a, Wrote(flow, flow.lastDest, hop)) && t.directory == s.directory
    ensures WaitEnded(s, t, a)
  {
    hide SnapOk, HandOver, Wrote, Matches, Got;
    ParkedFlow(s, {}, a);
    var flow := s.core.boxes[a].parked.value;
    OnlyTheAnswerEndsAnAsk(s, {}, a, hop);
    WroteGot(flow, flow.lastDest, hop);
    HandOverWaits(s, t, a, Wrote(flow, flow.lastDest, hop));
    assert EndsWait(s, t, a, flow.lastDest.value, hop);
  }

  lemma DeliveredAsks(s: Snap, target: FlowId, hop: Value, cfg: Config)
    requires SnapOk(s, {})
    ensures AsksGoOn(s, HopDelivered(s, target, hop, cfg).0)
  {
    hide SnapOk, HandOver, Wrote, Matches, Push, WaitEnded;
    var t := HopDelivered(s, target, hop, cfg).0;
    if target !in s.directory {
      NotDelivered(s, target, hop, cfg);
      NothingAsked(s, s);
    } else {
      LiveBox(s, {}, target);
      var m := s.core.boxes[target];
      if m.parked.Some? && Matches(m.filter, hop) {
        var flow := Wrote(m.parked.value, m.parked.value.lastDest, hop);
        ParkedFlow(s, {}, target);
        WroteGot(m.parked.value, m.parked.value.lastDest, hop);
        HandedIs(s, target, hop, cfg);
        HandOverWaits(s, t, target, flow);
        if Awaiting(s, target) {
          AnswerEnds(s, t, target, hop);
        }
      } else {
        PushMeans(m, hop, cfg);
        QueuedIs(s, target, hop, cfg);
        BoxWaits(s, t, target, Push(m, hop, cfg).0);
      }
    }
  }

  lemma HandedIs(s: Snap, target: FlowId, hop: Value, cfg: Config)
    requires target in s.directory && target in s.core.boxes
    requires s.core.boxes[target].parked.Some? && Matches(s.core.boxes[target].filter, hop)
    ensures var flow := s.core.boxes[target].parked.value;
            HopDelivered(s, target, hop, cfg).0 == s.(core := HandOver(s.core, target, Wrote(flow, flow.lastDest, hop)))
  {
    hide HandOver, Wrote, Matches;
  }

  /** Changing an inbox but not its slot ends no wait. */
  lemma BoxWaits(s: Snap, t: Snap, f: FlowId, m: Mailbox)
    requires f in s.core.boxes && m.parked == s.core.boxes[f].parked
    requires t.core.boxes == s.core.boxes[f := m] && t.core.byAsker == s.core.byAsker
    requires t.core.requestIds == s.core.requestIds
    ensures AsksGoOn(s, t)
  {
    hide WaitEnded;
  }

  lemma EpochOfPark(parks: nat, park: nat)
    requires park <= parks && parks % EPOCHS == park % EPOCHS
    ensures park == parks || park + EPOCHS <= parks
  {
    if park < parks < park + EPOCHS {
      ModuloDistinct(park, parks);
    }
  }

  lemma TimeoutEnds(s: Snap, d: Deadline)
    requires SnapOk(s, {}) && d in s.deadlines
    ensures d.pid in s.core.boxes && AsksGoOn(s, TimedOut(s, d).0)
  {
    hide SnapOk, Wrote, Got, HandOver, Consistent, NothingMissed, TimedOut;
    TimedOutMeans(s, d);
    SnapDeadlines(s, {});
    var m := s.core.boxes[d.pid];
    var t := TimedOut(s, d).0;
    if !TimedOut(s, d).1 {
      NothingAsked(s, t);
    } else {
      ParkedFlow(s, {}, d.pid);
      TimedOutIs(s, d);
      WroteGot(m.parked.value, Some(d.dest), Unit);
      HandOverWaits(s, t, d.pid, Wrote(m.parked.value, Some(d.dest), Unit));
      if Awaiting(s, d.pid) {
        EpochOfPark(m.parks, d.park);
        assert Expires(s, d.pid, d);
        assert EndsWait(s, t, d.pid, d.dest, Unit);
      }
    }
  }

  lemma TimedOutIs(s: Snap, d: Deadline)
    requires d.pid in s.core.boxes && TimedOut(s, d).1
    ensures s.core.boxes[d.pid].parked.Some?
    ensures TimedOut(s, d).0.core
            == HandOver(s.core, d.pid, Wrote(s.core.boxes[d.pid].parked.value, Some(d.dest), Unit))
  {
    hide HandOver, Wrote;
  }

  // ----- receiving, parking, waiting to send, births -----

  lemma ReceivedAsks(s: Snap, f: FlowId, dest: u8, filter: WaitFilter)
    requires SnapOk(s, {}) && f in s.core.running && f in s.core.boxes
    ensures AsksGoOn(s, Received(s, f, dest, filter).0)
  {
    hide SnapOk, TryPop, Received, AsksGoOn;
    ReceivedAside(s, f, dest, filter);
    TryPopMeans(s.core.boxes[f], filter);
    var (m, v) := TryPop(s.core.boxes[f], filter);
    if v.Some? {
      BoxWaits(s, Received(s, f, dest, filter).0, f, m);
    } else {
      NothingAsked(s, Received(s, f, dest, filter).0);
    }
  }

  /** A flow that awaited nothing gets a new mailbox and perhaps an index entry: all others wait on. */
  lemma OwnBoxWaits(s: Snap, t: Snap, f: FlowId, m: Mailbox)
    requires t.core.boxes == s.core.boxes[f := m]
    requires forall a :: a in s.core.byAsker && a != f ==> a in t.core.byAsker && t.core.byAsker[a] == s.core.byAsker[a]
    requires forall a :: a in s.core.requestIds && a != f ==>
               a in t.core.requestIds && t.core.requestIds[a] == s.core.requestIds[a]
    ensures OthersWait(s, t, f)
  {
  }

  lemma ParkedPlainAsks(s: Snap, f: FlowId, flow: Flow, dest: u8, filter: WaitFilter, timeout: bool)
    requires SnapOk(s, {}) && f in s.core.running && flow.id == f && f in TakeRunning(s, f).core.boxes
    ensures AsksGoOn(s, ParkedPlain(TakeRunning(s, f), flow, dest, filter, timeout))
  {
    hide SnapOk, Park, Occupied, Answered;
    QueuedAwaitsNothing(s, f);
    var m := TakeRunning(s, f);
    var t := ParkedPlain(m, flow, dest, filter, timeout);
    ParkedPlainIs(m, flow, dest, filter, timeout);
    hide ParkedPlain;
    var (b, r) := Park(m.core.boxes[f], flow, filter);
    OwnBoxWaits(s, t, f, if r.Installed? then Occupied(m.core.boxes[f], flow, filter) else b);
    NoAskers(s, t, f);
  }

  /** Whatever becomes of an asker that is in hand, all others wait on. */
  lemma AskingOthers(s: Snap, flow: Flow, dest: u8, rid: u64, target: u64, timeout: bool)
    requires InStep(s, flow.id)
    ensures flow.id in s.core.boxes
    ensures OthersWait(s, ParkedAsking(s, flow, dest, rid, target, timeout), flow.id)
  {
    hide SnapOk, Park, ParkedAsking, Answered, Wrote, Vacated, ToReady, WithBox;
    AskingMeans(s, flow, dest, rid, target, timeout);
    var t := ParkedAsking(s, flow, dest, rid, target, timeout);
    var filter := Correlation(rid, Some(target));
    var (m, r) := Park(s.core.boxes[flow.id], flow, filter);
    if r.Raced? {
      ToReadyIs(s, flow.id, m, Answered(r.flow, dest));
      OwnBoxWaits(s, t, flow.id, m);
    } else if target !in s.directory {
      ToReadyIs(s, flow.id, Vacated(m), Wrote(flow, Some(dest), ExitHop(target, ReasonCode(Fault))));
      OwnBoxWaits(s, t, flow.id, Vacated(m));
    } else {
      AskingInstalls(s, flow, dest, rid, target, timeout);
      OwnBoxWaits(s, t, flow.id, m);
    }
  }

  lemma AskingInstalls(s: Snap, flow: Flow, dest: u8, rid: u64, target: u64, timeout: bool)
    requires flow.id in s.core.boxes && target in s.directory
    requires Park(s.core.boxes[flow.id], flow, Correlation(rid, Some(target))).1.Installed?
    ensures var t := ParkedAsking(s, flow, dest, rid, target, timeout);
            && t.core.boxes
               == s.core.boxes[flow.id := Park(s.core.boxes[flow.id], flow, Correlation(rid, Some(target))).0]
            && t.core.byAsker == s.core.byAsker[flow.id := target]
            && t.core.requestIds == s.core.requestIds[flow.id := rid]
  {
    InstalledIs(s.core.boxes[flow.id], flow, Correlation(rid, Some(target)));
    hide Park, Occupied, Armed, AskRemove, HandOver;
  }

  lemma AskedAsks(s: Snap, f: FlowId, flow: Flow, dest: u8, rid: u64, target: u64, timeout: bool)
    requires SnapOk(s, {}) && f in s.core.running && flow.id == f && InStep(TakeRunning(s, f), f)
    ensures f in s.core.boxes
    ensures AsksGoOn(s, ParkedAsking(TakeRunning(s, f), flow, dest, rid, target, timeout))
  {
    QueuedAwaitsNothing(s, f);
    hide SnapOk, ParkedAsking;
    var m := TakeRunning(s, f);
    var t := ParkedAsking(m, flow, dest, rid, target, timeout);
    AskingOthers(m, flow, dest, rid, target, timeout);
    SameAskers(s, m, t, f);
    NoAskers(s, t, f);
  }

  lemma SameAskers(s: Snap, m: Snap, t: Snap, f: FlowId)
    requires m.core.boxes == s.core.boxes && m.core.byAsker == s.core.byAsker && m.core.requestIds == s.core.requestIds
    requires OthersWait(m, t, f)
    ensures OthersWait(s, t, f)
  {
    forall a | Awaiting(s, a) && a != f ensures StillAwaiting(s, t, a) {
      assert Awaiting(m, a);
    }
  }

  lemma WaitingAsks(s: Snap, f: FlowId, flow: Flow, target: FlowId, hop: Value)
    requires target in s.core.boxes
    ensures AsksGoOn(s, TakeRunning(s, f).(core := PutWaiting(TakeRunning(s, f).core, flow, target, hop)))
  {
    var m := s.core.boxes[target];
    var t := TakeRunning(s, f).(core := PutWaiting(TakeRunning(s, f).core, flow, target, hop));
    BoxWaits(s, t, target, m.(waiting := m.waiting + [Waiting(flow, hop)]));
  }

  lemma SpawnedAsks(s: Snap)
    requires s.nextFlow !in s.core.boxes
    ensures AsksGoOn(s, Spawned(s))
  {
    hide Capabilities.Bind, WaitEnded;
    NewFlowIs(s.nextFlow);
    hide NewFlow;
    OwnBoxWaits(s, Spawned(s), s.nextFlow, EmptyMailbox());
    NoAskers(s, Spawned(s), s.nextFlow);
  }

  lemma AdmittedAsks(s: Snap, f: FlowId, cfg: Config)
    requires SnapOk(s, {}) && f in s.core.boxes && s.core.boxes[f].parked.None?
    ensures AsksGoOn(s, AdmittedOn(s, f, cfg))
  {
    hide SnapOk, AdmitOne, Continued, InStep, Consistent;
    AdmitOneOk(s, f, cfg);
    var (m, o) := AdmitOne(s, f, cfg);
    if o.None? {
      NothingAsked(s, s);
    } else {
      AdmittedSender(s, f, cfg);
      ContinuedOthers(m, o.value);
      var t := Continued(m, o.value);
      NobodyElseAdmitted(s, m, t, o.value.id);
      NoAskers(s, t, o.value.id);
    }
  }

  lemma NobodyElseAdmitted(s: Snap, m: Snap, t: Snap, f: FlowId)
    requires OthersWait(s, m, f) && OthersWait(m, t, f)
    ensures OthersWait(s, t, f)
  {
  }

  /** A sender that is admitted was no asker, and taking it from its queue touches none. */
  lemma AdmittedSender(s: Snap, f: FlowId, cfg: Config)
    requires SnapOk(s, {}) && f in s.core.boxes && AdmitOne(s, f, cfg).1.Some?
    ensures var (m, o) := AdmitOne(s, f, cfg); !Awaiting(s, o.value.id) && OthersWait(s, m, o.value.id)
  {
    hide SnapOk, CoreOk, TablesOk, AdmitSender;
    SnapCore(s, {});
    AdmitIsTake(s.core.boxes[f], cfg);
    FirstWaits(s.core, {}, f, 0);
    SenderStaysOpen(s.core.boxes[f], cfg);
  }

  lemma ContinuedOthers(s: Snap, sender: Flow)
    requires InStep(s, sender.id)
    ensures sender.id in s.core.boxes && OthersWait(s, Continued(s, sender), sender.id)
  {
    hide SnapOk, ParkedAsking;
    var flow := sender.(pendingSend := None);
    if sender.pendingSend.Some? && sender.pendingSend.value.AskReply? {
      var p := sender.pendingSend.value;
      AskingOthers(s, flow, p.dest, p.requestId, p.target, p.timeout.Some?);
    }
  }

  // ----- finalizations -----

  /** A finalization leaves an asker waiting, tells it that the flow asked is gone, or finds it dead. */
  lemma FinalizedAsks(s: Snap, m: Snap, t: Snap, done: map<FlowId, Fate>, root: PendingExit)
    requires SnapOk(m, {root.flow.id}) && SnapOk(t, {}) && Progress(m, t, done, [], root) && root.flow.id in done
    requires SnapOk(s, {}) && OthersWait(s, m, root.flow.id) && m.directory == s.directory
    ensures AsksGoOn(s, t)
  {
    hide SnapOk, Progress, WaitEnded;
    forall a | Awaiting(s, a) ensures StillAwaiting(s, t, a) || WaitEnded(s, t, a) || a !in t.directory {
      FinalDirectory(m, t, done, root);
      if a !in done {
        OneFinalizedAsk(s, m, t, done, root, a);
      }
    }
  }

  lemma FinalDirectory(s: Snap, t: Snap, done: map<FlowId, Fate>, root: PendingExit)
    requires Progress(s, t, done, [], root)
    ensures t.directory == s.directory - done.Keys && Tame(s.core, t.core)
  {
    hide Tame, SignalsNow, AskersNow, Informed, AllBecause, WorkBecause, DownsNow, TurnsOk, PlacesNow, OnlyFallen;
    CutParts(s, t, done.Keys);
    hide TablesCut;
  }

  lemma OneFinalizedAsk(s: Snap, m: Snap, t: Snap, done: map<FlowId, Fate>, root: PendingExit, a: FlowId)
    requires SnapOk(m, {root.flow.id}) && SnapOk(t, {}) && Progress(m, t, done, [], root)
    requires Awaiting(s, a) && StillAwaiting(s, m, a) && a !in done
    ensures StillAwaiting(s, t, a) || WaitEnded(s, t, a)
  {
    hide SnapOk, Progress, Tame, Told, Got;
    ParkedFlow(m, {root.flow.id}, a);
    OrphansAreTold(m, t, done, root, a);
    FinalDirectory(m, t, done, root);
    if m.core.byAsker[a] in done {
      ToldGot(m, t, a, m.core.byAsker[a], done[m.core.byAsker[a]].reason);
      assert EndsWait(s, t, a, m.core.boxes[a].parked.value.lastDest.value,
                      ExitHop(m.core.byAsker[a], ReasonCode(done[m.core.byAsker[a]].reason)));
    } else {
      AskIndexAgrees(t, a);
      SurvivingAsk(m, t, a);
    }
  }

  lemma SurvivingAsk(m: Snap, t: Snap, a: FlowId)
    requires Tame(m.core, t.core) && SnapOk(t, {}) && Awaiting(m, a)
    requires a in t.core.byAsker && a in t.core.boxes && t.core.boxes[a].parked.Some? && a in t.core.requestIds
    ensures StillAwaiting(m, t, a)
  {
    hide SnapOk, Tame, TamePlaces, TameParks;
    ParkedFlow(t, {}, a);
    TameParts(m.core, t.core);
    TameValues(m.core, t.core);
    ParkedSame(m.core.place, m.core.boxes, t.core.place, t.core.boxes, a);
  }

  /** A flow in hand that was in a queue before awaited nothing. */
  lemma TakenFromQueueAsks(s: Snap, m: Snap, t: Snap, done: map<FlowId, Fate>, root: PendingExit)
    requires SnapOk(s, {}) && SnapOk(m, {root.flow.id}) && SnapOk(t, {}) && Progress(m, t, done, [], root)
    requires root.flow.id in done && m.directory == s.directory
    requires m.core.boxes == s.core.boxes && m.core.byAsker == s.core.byAsker && m.core.requestIds == s.core.requestIds
    ensures AsksGoOn(s, t)
  {
    hide SnapOk, Progress;
    FinalizedAsks(s, m, t, done, root);
  }

  /** Killing a flow that is taken out: the others wait on. */
  lemma KilledAsks(s: Snap, f: FlowId, reason: Reason)
    requires SnapOk(s, {})
    ensures OthersWait(s, KillTaken(s, f, reason).0, f)
    ensures KillTaken(s, f, reason).1.None? ==> AsksGoOn(s, KillTaken(s, f, reason).0)
    ensures KillTaken(s, f, reason).0.directory == s.directory
  {
    hide SnapOk, WaitEnded, Extract, TakenFlow, TakeSender;
    if f in s.directory {
      ExtractWaits(s, f);
    }
    KillTakenOk(s, {}, f, reason);
  }

  lemma ExtractWaits(s: Snap, f: FlowId)
    requires SnapOk(s, {}) && f in s.directory
    ensures OthersWait(s, s.(core := Extract(s.core, f)), f)
    ensures !Extractable(s.core, f) ==> Extract(s.core, f) == s.core
  {
    hide SnapOk, CoreOk, TablesOk, TakeSender, Extractable, Vacated;
    SnapCore(s, {});
    InDirectory(s, {}, f);
    ExtractOk(s.core, {}, f);
    if f in s.core.waitingAt {
      SenderTakenKeepsSlot(s.core.boxes[s.core.waitingAt[f]], f);
    }
  }

  lemma SenderTakenKeepsSlot(m: Mailbox, f: FlowId)
    ensures TakeSender(m, f).0.parked == m.parked
  {
  }

  // ----- runs -----

  /** The states between the steps of a run. */
  ghost predicate AskHistory(h: seq<Snap>) {
    h != [] && forall i :: 0 < i < |h| ==> AsksGoOn(h[i - 1], h[i])
  }

  lemma AwaitsOn(s: Snap, m: Snap, t: Snap, a: FlowId)
    requires Awaiting(s, a) && StillAwaiting(s, m, a)
    ensures StillAwaiting(m, t, a) ==> StillAwaiting(s, t, a)
  {
  }

  /**
   Over any run an asker waits for the same answer with the registers it had until its wait ends,
   once, with the answer, the news that the flow asked is gone, or its own deadline; or until it dies.
   */
  lemma {:induction false} AsksEndOnce(h: seq<Snap>, a: FlowId) returns (n: nat)
    requires AskHistory(h) && Awaiting(h[0], a)
    ensures 0 < n <= |h| && forall i :: 0 <= i < n ==> StillAwaiting(h[0], h[i], a)
    ensures n < |h| ==> Awaiting(h[n - 1], a) && (WaitEnded(h[n - 1], h[n], a) || a !in h[n].directory)
    decreases |h|
  {
    hide WaitEnded, StillAwaiting;
    if |h| == 1 {
      n := 1;
      AwaitsItself(h[0], a);
    } else {
      var last := |h| - 1;
      HistoryFront(h);
      n := AsksEndOnce(h[..last], a);
      assert forall i :: 0 <= i < last ==> h[..last][i] == h[i];
      if n == last {
        LastStep(h, a);
        n := if StillAwaiting(h[0], h[last], a) then last + 1 else last;
      }
    }
  }

  lemma AwaitsItself(s: Snap, a: FlowId)
    requires Awaiting(s, a)
    ensures StillAwaiting(s, s, a)
  {
  }

  lemma HistoryFront(h: seq<Snap>)
    requires AskHistory(h) && |h| > 1
    ensures AskHistory(h[..|h| - 1])
  {
    hide AsksGoOn;
    var front := h[..|h| - 1];
    forall i | 0 < i < |front| ensures AsksGoOn(front[i - 1], front[i]) {
      assert AsksGoOn(h[i - 1], h[i]);
    }
  }

  lemma LastStep(h: seq<Snap>, a: FlowId)
    requires AskHistory(h) && |h| > 1 && Awaiting(h[0], a) && StillAwaiting(h[0], h[|h| - 2], a)
    ensures Awaiting(h[|h| - 2], a)
    ensures StillAwaiting(h[0], h[|h| - 1], a) || WaitEnded(h[|h| - 2], h[|h| - 1], a) || a !in h[|h| - 1].directory
  {
    hide WaitEnded;
    var last := |h| - 1;
    assert AsksGoOn(h[last - 1], h[last]);
    AwaitsOn(h[0], h[last - 1], h[last], a);
  }
}
