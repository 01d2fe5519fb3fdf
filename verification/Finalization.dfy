/**
 What one call of `finalize_flow` amounts to (crates/byteflow/src/scheduler/finalize.rs:156-266):
 which flows it finalizes and why, what the tables say afterwards, and who is told.
 */
module Finalization {
  import opened Wrappers
  import opened Values
  import opened MailboxSpec
  import opened Residence
  import opened Lifecycle
  import opened Exits
  import opened Fates
  import Capabilities

  // ----- the tables without a set of flows -----

  function MonitorsKept(monitors: map<nat, Monitor>, dead: set<FlowId>): map<nat, Monitor> {
    map r | r in monitors && monitors[r].owner !in dead && monitors[r].target !in dead :: monitors[r]
  }

  function LinksKept(links: map<nat, Pair>, dead: set<FlowId>): map<nat, Pair> {
    map l | l in links && links[l].a !in dead && links[l].b !in dead :: links[l]
  }

  function NamesKept(byName: map<Name, NameEntry>, dead: set<FlowId>): map<Name, NameEntry> {
    map n | n in byName && byName[n].flow !in dead :: byName[n]
  }

  predicate ConcernsAny(e: Capabilities.Entry, dead: set<FlowId>) {
    e.holder in dead || (e.cap.target.ToFlow? && e.cap.target.flow in dead)
  }

  function EntriesKept(entries: map<Capabilities.CapId, Capabilities.Entry>, dead: set<FlowId>): map<Capabilities.CapId,
                       Capabilities.Entry> {
    map id | id in entries && !ConcernsAny(entries[id], dead) :: entries[id]
  }

  function RepliesKept(replies: map<(FlowId, FlowId), Capabilities.CapId>,
                       dead: set<FlowId>): map<(FlowId, FlowId), Capabilities.CapId>
  {
    map pair | pair in replies && pair.0 !in dead && pair.1 !in dead :: replies[pair]
  }

  function CapsKept(caps: Capabilities.CapState, dead: set<FlowId>): Capabilities.CapState {
    caps.(cells := caps.cells - dead, entries := EntriesKept(caps.entries, dead),
          replies := RepliesKept(caps.replies, dead))
  }

  function Cut(s: Snap, dead: set<FlowId>): Snap {
    s.(directory := s.directory - dead, quotas := s.quotas - dead, monitors := MonitorsKept(s.monitors, dead),
       links := LinksKept(s.links, dead), byName := NamesKept(s.byName, dead), byFlow := s.byFlow - dead,
       caps := CapsKept(s.caps, dead))
  }

  lemma MonitorsKeptOne(monitors: map<nat, Monitor>, dead: set<FlowId>, id: FlowId)
    ensures MonitorsWithout(MonitorsKept(monitors, dead), id) == MonitorsKept(monitors, dead + {id})
  {
  }

  lemma LinksKeptOne(links: map<nat, Pair>, dead: set<FlowId>, id: FlowId)
    ensures LinksWithout(LinksKept(links, dead), id) == LinksKept(links, dead + {id})
  {
  }

  lemma NamesKeptOne(byName: map<Name, NameEntry>, dead: set<FlowId>, id: FlowId)
    ensures NamesWithout(NamesKept(byName, dead), id) == NamesKept(byName, dead + {id})
  {
  }

  lemma CapsKeptOne(caps: Capabilities.CapState, dead: set<FlowId>, id: FlowId)
    ensures Capabilities.RevokeFlow(CapsKept(caps, dead), id) == CapsKept(caps, dead + {id})
  {
    assert Capabilities.Kept(EntriesKept(caps.entries, dead), id) == EntriesKept(caps.entries, dead + {id});
    assert Capabilities.KeptReplies(RepliesKept(caps.replies, dead), id) == RepliesKept(caps.replies, dead + {id});
    assert Capabilities.Without(caps.cells - dead, id) == caps.cells - (dead + {id});
  }

  lemma SetsKeptOne(directory: set<FlowId>, byFlow: map<FlowId, seq<Name>>, dead: set<FlowId>, id: FlowId)
    ensures directory - dead - {id} == directory - (dead + {id})
    ensures byFlow - dead - {id} == byFlow - (dead + {id})
  {
  }

  /** Apart from places, signals and DOWN hops, the tables are those of `s` without the dead. */
  ghost predicate TablesCut(s: Snap, t: Snap, dead: set<FlowId>) {
    t == Cut(s, dead).(core := t.core, signals := t.signals, downs := t.downs)
  }

  lemma TablesCutOne(s: Snap, m: Snap, t: Snap, dead: set<FlowId>, id: FlowId, reason: Reason, work: seq<PendingExit>,
                     work': seq<PendingExit>)
    requires TablesCut(s, m, dead) && Exited(m, t, id, reason, work, work')
    ensures TablesCut(s, t, dead + {id})
  {
    hide MonitorsKept, LinksKept, NamesKept, CapsKept, MonitorsWithout, LinksWithout, NamesWithout,
         Capabilities.RevokeFlow,
         Tame, AskersLeft, AllTold, SignalsAfter, Fired, AllCaused;
    MonitorsKeptOne(s.monitors, dead, id);
    LinksKeptOne(s.links, dead, id);
    NamesKeptOne(s.byName, dead, id);
    CapsKeptOne(s.caps, dead, id);
    SetsKeptOne(s.directory, s.byFlow, dead, id);
    SetsKeptOne(s.quotas, s.byFlow, dead, id);
  }

  lemma TablesCutNone(s: Snap)
    ensures TablesCut(s, s, {})
  {
    assert MonitorsKept(s.monitors, {}) == s.monitors;
    assert LinksKept(s.links, {}) == s.links;
    assert NamesKept(s.byName, {}) == s.byName;
    assert EntriesKept(s.caps.entries, {}) == s.caps.entries;
    assert RepliesKept(s.caps.replies, {}) == s.caps.replies;
    assert s.caps.cells - {} == s.caps.cells;
    assert s.byFlow - {} == s.byFlow && s.directory - {} == s.directory && s.quotas - {} == s.quotas;
  }

  // ----- kill signals -----

  ghost predicate LinkedToDead(links: map<nat, Pair>, done: map<FlowId, Fate>, f: FlowId) {
    exists g :: g in done && Hits(links, g, done[g].reason, f)
  }

  /**
   The signals are the old ones of survivors, and a signal to die for its link for every survivor
   linked to a flow that died for any reason but `Normal`.
   */
  ghost predicate SignalsNow(before: map<FlowId, Reason>, now: map<FlowId, Reason>, links: map<nat, Pair>,
                             directory: set<FlowId>,
                             done: map<FlowId, Fate>)
  {
    && (forall f :: f in now <==> f in directory && (f in before || LinkedToDead(links, done, f)))
    && (forall f :: f in now ==>
          if LinkedToDead(links, done, f) then now[f] == Link else f in before && now[f] == before[f])
  }

  lemma LinkedKept(links: map<nat, Pair>, dead: set<FlowId>, f: FlowId, g: FlowId)
    requires f !in dead && g !in dead
    ensures Linked(LinksKept(links, dead), f, g) <==> Linked(links, f, g)
  {
    if Linked(links, f, g) {
      var l :| l in links && Joins(links[l], f, g);
      assert Joins(LinksKept(links, dead)[l], f, g);
    }
  }

  lemma LinkedToDeadOne(links: map<nat, Pair>, done: map<FlowId, Fate>, id: FlowId, reason: Reason, f: FlowId)
    requires id !in done
    ensures LinkedToDead(links, Buried(done, id, reason), f)
            <==> LinkedToDead(links, done, f) || Hits(links, id, reason, f)
  {
    hide Hits;
    var next := Buried(done, id, reason);
    if LinkedToDead(links, done, f) {
      var g: FlowId :| g in done && Hits(links, g, done[g].reason, f);
      assert g in next && next[g] == done[g];
    }
    if Hits(links, id, reason, f) {
      assert id in next && next[id].reason == reason;
    }
  }

  lemma SignalsNowOne(before: map<FlowId, Reason>, mid: map<FlowId, Reason>, now: map<FlowId, Reason>,
                      links: map<nat, Pair>,
                      directory: set<FlowId>, done: map<FlowId, Fate>, id: FlowId, reason: Reason)
    requires SignalsNow(before, mid, links, directory - done.Keys, done) && id !in done
    requires SignalsAfter(mid, now, LinksKept(links, done.Keys), directory - (done.Keys + {id}), id, reason)
    ensures SignalsNow(before, now, links, directory - (done.Keys + {id}), Buried(done, id, reason))
  {
    hide LinkedToDead, Linked, LinksKept;
    forall f
      ensures f in now <==>
              && f in directory - (done.Keys + {id})
              && (f in before || LinkedToDead(links, Buried(done, id, reason), f))
      ensures f in now ==>
                if LinkedToDead(links, Buried(done, id, reason), f) then now[f] == Link
                else f in before && now[f] == before[f]
    {
      LinkedToDeadOne(links, done, id, reason, f);
      if f !in done {
        LinkedKept(links, done.Keys, id, f);
      }
    }
  }

  // ----- who waits for an answer -----

  /** The index keeps the live askers of live flows. */
  ghost predicate AskersNow(before: map<FlowId, FlowId>, now: map<FlowId, FlowId>, dead: set<FlowId>) {
    forall a :: a in now <==> a in before && a !in dead && before[a] !in dead
  }

  lemma AskersNowOne(c0: Core, c: Core, d: Core, dead: set<FlowId>, id: FlowId)
    requires AskersNow(c0.byAsker, c.byAsker, dead) && AskersLeft(c, d, id) && Tame(c0, c)
    ensures AskersNow(c0.byAsker, d.byAsker, dead + {id})
  {
    hide Tame;
    TameValues(c0, c);
  }

  /** The asker was parked for an answer of a flow that is dead now. */
  ghost predicate Orphaned(c: Core, done: map<FlowId, Fate>, a: FlowId) {
    a in c.byAsker && c.byAsker[a] in done && a in c.place && c.place[a] == Parked
  }

  /** Every orphan is told, dead itself, or about to be. */
  ghost predicate Informed(c0: Core, c: Core, done: map<FlowId, Fate>, held: set<FlowId>) {
    forall a :: Orphaned(c0, done, a) && a !in done && a !in held ==>
        Told(c0, c, a, c0.byAsker[a], done[c0.byAsker[a]].reason)
  }

  lemma ToldStays(c0: Core, c: Core, d: Core, a: FlowId, t: FlowId, reason: Reason)
    requires Told(c0, c, a, t, reason) && Tame(c, d)
    ensures Told(c0, d, a, t, reason)
  {
    hide Tame, Gained;
    TameKeepsReady(c, d);
  }

  /** An asker of `id` that nobody holds is still parked, as it was at the start, and is told now. */
  lemma ToldFromStart(c0: Core, c: Core, d: Core, held: set<FlowId>, a: FlowId, id: FlowId, reason: Reason)
    requires Tame(c0, c) && CoreOk(c, held) && AllTold(c, d, id, reason)
    requires a in c.byAsker && a != id && a !in held && c0.byAsker[a] == id && a in c0.byAsker
    ensures Told(c0, d, a, id, reason)
  {
    hide CoreOk, Tame, TamePlaces, TameParks, Gained;
    IndexAgrees(c, held, id);
    NotHeld(c, held, a);
    TameValues(c0, c);
    TameParts(c0, c);
    ParkedSame(c0.place, c0.boxes, c.place, c.boxes, a);
  }

  lemma ParkedSame(p: map<FlowId, Place>, b: map<FlowId, Mailbox>, q: map<FlowId, Place>, d: map<FlowId, Mailbox>,
                   a: FlowId)
    requires TamePlaces(p, b, q, d) && a in q && q[a] == Parked
    ensures a in b && a in d && d[a].parked == b[a].parked
  {
  }

  lemma InformedOne(c0: Core, c: Core, d: Core, done: map<FlowId, Fate>, rest: set<FlowId>, held: set<FlowId>,
                    id: FlowId, reason: Reason)
    requires Informed(c0, c, done, rest + {id}) && CoreOk(c, rest + {id}) && Tame(c0, c) && Tame(c, d)
    requires AskersNow(c0.byAsker, c.byAsker, done.Keys) && AllTold(c, d, id, reason) && id !in done && rest <= held
    ensures Informed(c0, d, Buried(done, id, reason), held)
  {
    hide CoreOk, Tame, Told, AllTold;
    var next := Buried(done, id, reason);
    forall a | Orphaned(c0, next, a) && a !in next && a !in held
      ensures Told(c0, d, a, c0.byAsker[a], next[c0.byAsker[a]].reason)
    {
      if c0.byAsker[a] == id {
        ToldFromStart(c0, c, d, rest + {id}, a, id, reason);
      } else {
        assert Orphaned(c0, done, a);
        ToldStays(c0, c, d, a, c0.byAsker[a], done[c0.byAsker[a]].reason);
      }
    }
  }

  // ----- why -----

  /** A dead flow drags `f` along. */
  ghost predicate Dragged(s: Snap, done: map<FlowId, Fate>, f: FlowId, reason: Reason, g: FlowId) {
    g in done
    && (|| (reason == Fault && f in s.core.place && s.core.place[f] == WaitingIn(g))
        || (reason == Link && Hits(s.links, g, done[g].reason, f)))
  }

  ghost predicate Because(s: Snap, done: map<FlowId, Fate>, f: FlowId, reason: Reason, root: PendingExit) {
    (f == root.flow.id && reason == root.reason) || exists g :: Dragged(s, done, f, reason, g)
  }

  /** Every dead flow is the first one or was dragged along by one that died before it. */
  ghost predicate AllBecause(s: Snap, done: map<FlowId, Fate>, root: PendingExit) {
    forall f :: f in done ==> Fated(s, done, f, root)
  }

  ghost predicate Fated(s: Snap, done: map<FlowId, Fate>, f: FlowId, root: PendingExit)
    requires f in done
  {
    || (f == root.flow.id && done[f].reason == root.reason)
    || exists g :: Dragged(s, done, f, done[f].reason, g) && done[g].turn < done[f].turn
  }

  ghost predicate WorkBecause(s: Snap, done: map<FlowId, Fate>, work: seq<PendingExit>, root: PendingExit) {
    forall k :: 0 <= k < |work| ==> Because(s, done, work[k].flow.id, work[k].reason, root)
  }

  lemma BecauseStays(s: Snap, done: map<FlowId, Fate>, id: FlowId, why: Reason, f: FlowId, reason: Reason,
                     root: PendingExit)
    requires Because(s, done, f, reason, root) && id !in done
    ensures Because(s, Buried(done, id, why), f, reason, root)
  {
    hide Linked;
    if !(f == root.flow.id && reason == root.reason) {
      var g: FlowId :| Dragged(s, done, f, reason, g);
      assert Dragged(s, Buried(done, id, why), f, reason, g);
    }
  }

  lemma LinksKeptAre(links: map<nat, Pair>, dead: set<FlowId>, f: FlowId, g: FlowId)
    requires Linked(LinksKept(links, dead), f, g)
    ensures Linked(links, f, g)
  {
    var l :| l in LinksKept(links, dead) && Joins(LinksKept(links, dead)[l], f, g);
    assert Joins(links[l], f, g);
  }

  lemma BecauseNow(s: Snap, m: Snap, done: map<FlowId, Fate>, id: FlowId, why: Reason, p: PendingExit,
                   root: PendingExit)
    requires CausedBy(p, m.core.place, m.links, id, why) && Tame(s.core, m.core)
             && m.links == LinksKept(s.links, done.Keys) && id !in done
    ensures Because(s, Buried(done, id, why), p.flow.id, p.reason, root)
  {
    hide Tame, TamePlaces, TameParks, Linked, LinksKept;
    TameParts(s.core, m.core);
    var next := Buried(done, id, why);
    if p.reason == Fault && p.flow.id in m.core.place && m.core.place[p.flow.id] == WaitingIn(id) {
      WaitingSame(s.core.place, s.core.boxes, m.core.place, m.core.boxes, p.flow.id);
    } else {
      LinksKeptAre(s.links, done.Keys, id, p.flow.id);
    }
    assert Dragged(s, next, p.flow.id, p.reason, id);
  }

  lemma WaitingSame(p: map<FlowId, Place>, b: map<FlowId, Mailbox>, q: map<FlowId, Place>, d: map<FlowId, Mailbox>,
                    f: FlowId)
    requires TamePlaces(p, b, q, d) && f in q && q[f].WaitingIn?
    ensures f in p && p[f] == q[f]
  {
  }

  lemma WorkBecauseOne(s: Snap, m: Snap, done: map<FlowId, Fate>, p: PendingExit, rest: seq<PendingExit>,
                       work': seq<PendingExit>, root: PendingExit)
    requires WorkBecause(s, done, rest, root) && AllCaused(rest, work', m.core.place, m.links, p.flow.id, p.reason)
    requires Tame(s.core, m.core) && m.links == LinksKept(s.links, done.Keys) && p.flow.id !in done
    ensures WorkBecause(s, Buried(done, p.flow.id, p.reason), work', root)
  {
    hide Tame, Linked, LinksKept, Because, CausedBy;
    forall k | 0 <= k < |work'|
      ensures Because(s, Buried(done, p.flow.id, p.reason), work'[k].flow.id, work'[k].reason, root)
    {
      if k < |rest| {
        assert work'[k] == work'[..|rest|][k] == rest[k];
        BecauseStays(s, done, p.flow.id, p.reason, work'[k].flow.id, work'[k].reason, root);
      } else {
        BecauseNow(s, m, done, p.flow.id, p.reason, work'[k], root);
      }
    }
  }

  lemma FatedNow(s: Snap, done: map<FlowId, Fate>, p: PendingExit, root: PendingExit)
    requires Because(s, done, p.flow.id, p.reason, root) && TurnsOk(done) && p.flow.id !in done
    ensures Fated(s, Buried(done, p.flow.id, p.reason), p.flow.id, root)
  {
    hide Linked;
    var next := Buried(done, p.flow.id, p.reason);
    if !(p.flow.id == root.flow.id && p.reason == root.reason) {
      var g: FlowId :| Dragged(s, done, p.flow.id, p.reason, g);
      assert Dragged(s, next, p.flow.id, p.reason, g) && next[g].turn < next[p.flow.id].turn;
    }
  }

  lemma FatedStays(s: Snap, done: map<FlowId, Fate>, id: FlowId, why: Reason, f: FlowId, root: PendingExit)
    requires f in done && Fated(s, done, f, root) && id !in done
    ensures Fated(s, Buried(done, id, why), f, root)
  {
    hide Linked;
    if !(f == root.flow.id && done[f].reason == root.reason) {
      var g: FlowId :| Dragged(s, done, f, done[f].reason, g) && done[g].turn < done[f].turn;
      assert Dragged(s, Buried(done, id, why), f, done[f].reason, g);
    }
  }

  lemma AllBecauseOne(s: Snap, done: map<FlowId, Fate>, p: PendingExit, root: PendingExit)
    requires AllBecause(s, done, root) && Because(s, done, p.flow.id, p.reason, root) && TurnsOk(done)
             && p.flow.id !in done
    ensures AllBecause(s, Buried(done, p.flow.id, p.reason), root)
  {
    hide Because, Fated;
    var next := Buried(done, p.flow.id, p.reason);
    FatedNow(s, done, p, root);
    forall f | f in done ensures Fated(s, next, f, root) {
      FatedStays(s, done, p.flow.id, p.reason, f, root);
    }
  }

  // ----- DOWN hops -----

  /** The owner of the monitor lived to see its target die. */
  ghost predicate SawDeath(m: Monitor, done: map<FlowId, Fate>) {
    m.target in done && (m.owner in done ==> done[m.target].turn < done[m.owner].turn)
  }

  ghost predicate Due(monitors: map<nat, Monitor>, done: map<FlowId, Fate>, e: Down) {
    && e.ref in monitors && SawDeath(monitors[e.ref], done)
    && e == Down(e.ref, monitors[e.ref].owner, monitors[e.ref].target, done[monitors[e.ref].target].reason)
  }

  ghost predicate Sent(before: seq<Down>, now: seq<Down>, r: nat) {
    exists k :: |before| <= k < |now| && now[k].ref == r
  }

  /** The new events are exactly those of the monitors whose owner lived to see the target die. */
  ghost predicate DownsNow(before: seq<Down>, now: seq<Down>, monitors: map<nat, Monitor>, done: map<FlowId, Fate>) {
    && |before| <= |now| && now[..|before|] == before
    && (forall k :: |before| <= k < |now| ==> Due(monitors, done, now[k]))
    && (forall r :: r in monitors && SawDeath(monitors[r], done) ==> Sent(before, now, r))
  }

  lemma SentStays(before: seq<Down>, mid: seq<Down>, now: seq<Down>, r: nat)
    requires Sent(before, mid, r) && |mid| <= |now| && now[..|mid|] == mid
    ensures Sent(before, now, r)
  {
    var k :| |before| <= k < |mid| && mid[k].ref == r;
    assert now[k] == now[..|mid|][k];
  }

  lemma DownsNowOne(before: seq<Down>, mid: seq<Down>, now: seq<Down>, monitors: map<nat, Monitor>,
                    done: map<FlowId, Fate>,
                    id: FlowId, reason: Reason)
    requires DownsNow(before, mid, monitors, done) && id !in done && TurnsOk(done)
    requires forall r :: r in monitors ==> monitors[r].owner != monitors[r].target
    requires Fired(mid, now, OwnedRemoved(MonitorsKept(monitors, done.Keys), id), id, reason)
    ensures DownsNow(before, now, monitors, Buried(done, id, reason))
  {
    hide Sent;
    var next, news, left := Buried(done, id, reason), now[|mid|..], OwnedRemoved(MonitorsKept(monitors, done.Keys), id);
    assert now[..|before|] == now[..|mid|][..|before|];
    forall k | |before| <= k < |now| ensures Due(monitors, next, now[k]) {
      if k < |mid| {
        assert now[k] == now[..|mid|][k] == mid[k];
      } else {
        assert now[k] == news[k - |mid|];
      }
    }
    forall r | r in monitors && SawDeath(monitors[r], next) ensures Sent(before, now, r) {
      if monitors[r].target in done {
        assert SawDeath(monitors[r], done);
        SentStays(before, mid, now, r);
      } else {
        assert r in left && left[r].target == id;
        SentFresh(before, mid, now, left, id, reason, r);
      }
    }
  }

  lemma SentFresh(before: seq<Down>, mid: seq<Down>, now: seq<Down>, left: map<nat, Monitor>, id: FlowId,
                  reason: Reason, r: nat)
    requires Fired(mid, now, left, id, reason) && r in left && left[r].target == id && |before| <= |mid|
    ensures Sent(before, now, r)
  {
    var news := now[|mid|..];
    var k :| 0 <= k < |news| && news[k].ref == r;
    assert now[|mid| + k] == news[k];
  }

  // ----- the whole call -----

  /** From `s` the flows in `done` have been finalized, for the reasons recorded, with `work` still to do. */
  ghost predicate Progress(s: Snap, t: Snap, done: map<FlowId, Fate>, work: seq<PendingExit>, root: PendingExit) {
    && done.Keys <= s.directory && TurnsOk(done)
    && TablesCut(s, t, done.Keys)
    && Tame(s.core, t.core)
    && SignalsNow(s.signals, t.signals, s.links, s.directory - done.Keys, done)
    && AskersNow(s.core.byAsker, t.core.byAsker, done.Keys)
    && Informed(s.core, t.core, done, WorkIds(work))
    && AllBecause(s, done, root) && WorkBecause(s, done, work, root)
    && DownsNow(s.downs, t.downs, s.monitors, done)
    && PlacesNow(s, t, done) && OnlyFallen(s, done, root.flow.id)
  }

  lemma ProgressStarts(s: Snap, root: PendingExit)
    requires SnapOk(s, {root.flow.id})
    ensures Progress(s, s, map[], [root], root)
  {
    hide CoreOk, Tame, TablesCut, SignalsOk, MonitorsOk, DownsOk, LinksOk, NamesOk, IdsOk, DeadlinesOk,
         Capabilities.Sane,
         Listed, Linked, Told, PlacesNow;
    PlacesAtFirst(s);
    TablesCutNone(s);
    TameItself(s.core, {root.flow.id});
    NoSignalsYet(s);
    var none: map<FlowId, Fate> := map[];
    assert none.Keys == {};
  }

  lemma PlacesAtFirst(s: Snap)
    ensures PlacesNow(s, s, map[])
  {
  }

  lemma NoSignalsYet(s: Snap)
    requires SignalsOk(s.signals, s.directory)
    ensures SignalsNow(s.signals, s.signals, s.links, s.directory - {}, map[])
  {
  }

  lemma CutParts(s: Snap, t: Snap, dead: set<FlowId>)
    requires TablesCut(s, t, dead)
    ensures t.links == LinksKept(s.links, dead) && t.monitors == MonitorsKept(s.monitors, dead)
            && t.directory == s.directory - dead
  {
    hide LinksKept, MonitorsKept, NamesKept, CapsKept;
  }

  lemma ExitedParts(s: Snap, t: Snap, id: FlowId, reason: Reason, work: seq<PendingExit>, work': seq<PendingExit>)
    requires Exited(s, t, id, reason, work, work')
    ensures Tame(s.core, t.core) && AskersLeft(s.core, t.core, id) && AllTold(s.core, t.core, id, reason)
    ensures SignalsAfter(s.signals, t.signals, s.links, s.directory - {id}, id, reason)
    ensures Fired(s.downs, t.downs, OwnedRemoved(s.monitors, id), id, reason)
    ensures PlacesAfter(s, t, id, reason)
    ensures AllCaused(work, work', s.core.place, s.links, id, reason)
  {
    hide Tame, AskersLeft, AllTold, SignalsAfter, Fired, AllCaused, OwnedRemoved, MonitorsWithout, LinksWithout,
         NamesWithout, PlacesAfter,
         Capabilities.RevokeFlow;
  }

  lemma RestIsHeld(rest: seq<PendingExit>, work': seq<PendingExit>, place: map<FlowId, Place>, links: map<nat, Pair>,
                   id: FlowId, reason: Reason)
    requires AllCaused(rest, work', place, links, id, reason)
    ensures WorkIds(rest) <= WorkIds(work')
  {
    hide CausedBy;
    forall f | f in WorkIds(rest) ensures f in WorkIds(work') {
      var k :| 0 <= k < |rest| && rest[k].flow.id == f;
      assert work'[k] == work'[..|rest|][k];
    }
  }

  lemma WorkSplit(s: Snap, done: map<FlowId, Fate>, rest: seq<PendingExit>, p: PendingExit, root: PendingExit)
    requires WorkBecause(s, done, rest + [p], root)
    ensures WorkBecause(s, done, rest, root) && Because(s, done, p.flow.id, p.reason, root)
  {
    hide Because;
    var all := rest + [p];
    assert all[|rest|] == p && forall k :: 0 <= k < |rest| ==> all[k] == rest[k];
  }

  lemma OthersOnly(s: Snap, held: set<FlowId>)
    requires SnapOk(s, held)
    ensures forall r :: r in s.monitors ==> s.monitors[r].owner != s.monitors[r].target
  {
    hide CoreOk, Listed, SignalsOk, DownsOk, LinksOk, NamesOk, IdsOk, DeadlinesOk, Capabilities.Sane;
  }

  // ----- where the others are -----

  /** What a death means for a live flow has not changed since the start. */
  lemma RousesSame(s: Snap, m: Snap, done: map<FlowId, Fate>, f: FlowId, id: FlowId, reason: Reason)
    requires Tame(s.core, m.core) && AskersNow(s.core.byAsker, m.core.byAsker, done.Keys)
    requires m.monitors == MonitorsKept(s.monitors, done.Keys) && f !in done && id !in done
    requires f in m.core.place && m.core.place[f] == Parked
    ensures Rouses(m, f, id, reason) <==> Rouses(s, f, id, reason)
  {
    TameValues(s.core, m.core);
    FilterStays(s.core, m.core, f);
    AwaitsSame(s.core.byAsker, m.core.byAsker, done.Keys, f, id);
    hide Tame, DownFits, AskersOf, AskersNow, MonitorsKept;
    DownKept(s.core.boxes, m.core.boxes, s.monitors, done.Keys, f, id, reason);
  }

  lemma AwaitsSame(before: map<FlowId, FlowId>, now: map<FlowId, FlowId>, dead: set<FlowId>, f: FlowId, id: FlowId)
    requires AskersNow(before, now, dead) && f !in dead && id !in dead
    requires forall a :: a in now ==> a in before && now[a] == before[a]
    ensures f in AskersOf(now, id) <==> f in AskersOf(before, id)
  {
  }

  lemma DownKept(b: map<FlowId, Mailbox>, d: map<FlowId, Mailbox>, monitors: map<nat, Monitor>, dead: set<FlowId>,
                 f: FlowId, id: FlowId, reason: Reason)
    requires f in b && f in d && d[f].filter == b[f].filter && f !in dead && id !in dead
    ensures DownFits(d, MonitorsKept(monitors, dead), f, id, reason) <==> DownFits(b, monitors, f, id, reason)
  {
    hide FitsDown;
    if r :| r in monitors && monitors[r] == Monitor(f, id) && FitsDown(b[f].filter, r, id, reason) {
      assert r in MonitorsKept(monitors, dead);
    }
  }

  lemma PlacesNowOne(s: Snap, m: Snap, t: Snap, done: map<FlowId, Fate>, id: FlowId, reason: Reason)
    requires PlacesNow(s, m, done) && PlacesAfter(m, t, id, reason) && id !in done && TurnsOk(done)
    requires Tame(s.core, m.core) && AskersNow(s.core.byAsker, m.core.byAsker, done.Keys)
    requires m.monitors == MonitorsKept(s.monitors, done.Keys) && m.links == LinksKept(s.links, done.Keys)
    ensures PlacesNow(s, t, Buried(done, id, reason))
  {
    hide Tame, AskersNow, TurnsOk, MonitorsKept, LinksKept, Rouses, PlaceNow, Linked;
    forall f | f in s.core.place && f !in Buried(done, id, reason)
      ensures f in t.core.place && t.core.place[f] == PlaceNow(s, Buried(done, id, reason), f)
    {
      PlaceNowOne(s, done, id, reason, f);
      LinkedKept(s.links, done.Keys, id, f);
      if m.core.place[f] == Parked {
        RousesSame(s, m, done, f, id, reason);
      }
    }
  }

  /** A flow on the work list is the first one, or has fallen. */
  lemma HeldFell(s: Snap, m: Snap, done: map<FlowId, Fate>, f: FlowId, root: FlowId)
    requires PlacesNow(s, m, done) && f !in done && f in m.core.place && m.core.place[f] == Held
    requires f in s.core.place && (s.core.place[f] == Held ==> f == root)
    ensures f == root || Fell(s, done, f)
  {
    hide Fell, Saved;
  }

  lemma OnlyFallenOne(s: Snap, m: Snap, done: map<FlowId, Fate>, id: FlowId, reason: Reason, root: FlowId)
    requires OnlyFallen(s, done, root) && PlacesNow(s, m, done) && id !in done && TurnsOk(done)
    requires id in m.core.place && m.core.place[id] == Held
    requires id in s.core.place && (s.core.place[id] == Held ==> id == root)
    ensures OnlyFallen(s, Buried(done, id, reason), root)
  {
    hide Fell, PlaceNow, TurnsOk;
    HeldFell(s, m, done, id, root);
    forall f | f in Buried(done, id, reason) && f != root ensures Fell(s, Buried(done, id, reason), f) {
      FellStays(s, done, id, reason, f);
    }
  }

  lemma HeldNow(s: Snap, held: set<FlowId>, f: FlowId)
    requires SnapOk(s, held)
    ensures f in held <==> f in s.core.place && s.core.place[f] == Held
  {
    hide SnapOk, CoreOk, TablesOk;
    SnapCore(s, held);
    NotHeld(s.core, held, f);
  }

  /** One more flow is finalized. */
  lemma ProgressOne(s: Snap, m: Snap, t: Snap, done: map<FlowId, Fate>, rest: seq<PendingExit>, p: PendingExit,
                    work': seq<PendingExit>, root: PendingExit)
    requires Progress(s, m, done, rest + [p], root) && SnapOk(m, WorkIds(rest) + {p.flow.id})
             && p.flow.id in m.directory
    requires Exited(m, t, p.flow.id, p.reason, rest, work') && SnapOk(s, {root.flow.id})
    ensures Progress(s, t, Buried(done, p.flow.id, p.reason), work', root)
  {
    hide SnapOk, CoreOk, TablesOk, Exited, TablesCut, Tame, SignalsNow, SignalsAfter, AskersNow, AskersLeft, Informed,
         AllTold, AllBecause, WorkBecause,
         Because, AllCaused, DownsNow, Fired, TurnsOk, WorkIds, LinksKept, MonitorsKept, OwnedRemoved, PlacesNow,
         PlacesAfter, OnlyFallen;
    var id, reason := p.flow.id, p.reason;
    var next := Buried(done, id, reason);
    CutParts(s, m, done.Keys);
    assert next.Keys == done.Keys + {id};
    ExitedParts(m, t, id, reason, rest, work');
    WorkPush(rest, p);
    SnapCore(m, WorkIds(rest) + {id});
    WorkSplit(s, done, rest, p, root);
    RestIsHeld(rest, work', m.core.place, m.links, id, reason);
    assert m.directory - {id} == s.directory - next.Keys;
    TablesCutOne(s, m, t, done.Keys, id, reason, rest, work');
    TameTrans(s.core, m.core, t.core);
    SignalsNowOne(s.signals, m.signals, t.signals, s.links, s.directory, done, id, reason);
    AskersNowOne(s.core, m.core, t.core, done.Keys, id);
    InformedOne(s.core, m.core, t.core, done, WorkIds(rest), WorkIds(work'), id, reason);
    AllBecauseOne(s, done, p, root);
    WorkBecauseOne(s, m, done, p, rest, work', root);
    TurnsOkOne(done, id, reason);
    OthersOnly(s, {root.flow.id});
    DownsNowOne(s.downs, m.downs, t.downs, s.monitors, done, id, reason);
    HeldNow(m, WorkIds(rest) + {id}, id);
    InDirectory(s, {root.flow.id}, id);
    HeldNow(s, {root.flow.id}, id);
    OnlyFallenOne(s, m, done, id, reason, root.flow.id);
    PlacesNowOne(s, m, t, done, id, reason);
  }

  // ----- what holds when the work list is empty -----

  /** No table, queue or mailbox knows the flow any more. */
  ghost predicate Unmentioned(s: Snap, f: FlowId) {
    && UnmentionedCore(s.core, f)
    && f !in s.directory && f !in s.quotas && f !in s.signals && f !in s.byFlow && f !in s.caps.cells
    && (forall r :: r in s.monitors ==> s.monitors[r].owner != f && s.monitors[r].target != f)
    && (forall l :: l in s.links ==> !Touches(s.links[l], f))
    && (forall n :: n in s.byName ==> s.byName[n].flow != f)
    && (forall id :: id in s.caps.entries ==>
          var e := s.caps.entries[id]; e.holder != f && !(e.cap.target.ToFlow? && e.cap.target.flow == f))
    && (forall pair :: pair in s.caps.replies ==> pair.0 != f && pair.1 != f)
  }

  ghost predicate UnmentionedCore(c: Core, f: FlowId) {
    && f !in c.ready && f !in c.running && f !in c.sleeping
    && (forall b :: b in c.boxes ==>
          f !in WaitIds(c.boxes[b].waiting) && (c.boxes[b].parked.Some? ==> c.boxes[b].parked.value.id != f))
    && f !in c.waitingAt && (forall x :: x in c.waitingAt ==> c.waitingAt[x] != f)
    && f !in c.byAsker && (forall x :: x in c.byAsker ==> c.byAsker[x] != f)
    && f !in c.requestIds && f !in c.byTarget && (forall t :: t in c.byTarget ==> f !in c.byTarget[t])
  }

  lemma GoneFromCore(c: Core, held: set<FlowId>, f: FlowId)
    requires CoreOk(c, held) && f !in c.place
    ensures UnmentionedCore(c, f)
  {
    hide CoreOk, WaitIds;
    GoneFromPlaces(c, held, f);
    GoneFromIndex(c, held, f);
  }

  lemma GoneFromPlaces(c: Core, held: set<FlowId>, f: FlowId)
    requires CoreOk(c, held) && f !in c.place
    ensures f !in c.ready && f !in c.running && f !in c.sleeping
    ensures forall b :: b in c.boxes ==>
              f !in WaitIds(c.boxes[b].waiting) && (c.boxes[b].parked.Some? ==> c.boxes[b].parked.value.id != f)
    ensures f !in c.waitingAt && (forall x :: x in c.waitingAt ==> c.waitingAt[x] != f)
  {
    hide HeldOk, IndexOk, AskersOk, WaitIds, NoTwice;
  }

  lemma TargetsAwaited(c: Core, held: set<FlowId>)
    requires CoreOk(c, held)
    ensures forall t :: t in c.byTarget ==> exists a :: a in c.byTarget[t] && a in c.byAsker && c.byAsker[a] == t
    ensures forall a :: a in c.byAsker ==> a in c.place && c.byAsker[a] in c.place
  {
    hide CoreOk;
    forall t | t in c.byTarget ensures exists a :: a in c.byTarget[t] && a in c.byAsker && c.byAsker[a] == t {
      IndexAgrees(c, held, t);
      var a: FlowId :| a in c.byTarget[t];
    }
    forall a | a in c.byAsker ensures a in c.place && c.byAsker[a] in c.place {
      IndexAgrees(c, held, a);
    }
  }

  lemma GoneFromIndex(c: Core, held: set<FlowId>, f: FlowId)
    requires CoreOk(c, held) && f !in c.place
    ensures f !in c.byAsker && (forall x :: x in c.byAsker ==> c.byAsker[x] != f)
    ensures f !in c.requestIds && f !in c.byTarget && (forall t :: t in c.byTarget ==> f !in c.byTarget[t])
  {
    hide CoreOk;
    AskMaps(c, held);
    TargetsAwaited(c, held);
    forall t | t in c.byTarget ensures f !in c.byTarget[t] {
      IndexAgrees(c, held, t);
    }
  }

  lemma GoneFromTables(s: Snap, f: FlowId)
    requires TablesOk(s) && f !in s.directory
    ensures f !in s.quotas && f !in s.signals && f !in s.byFlow && f !in s.core.place
  {
    hide MonitorsOk, DownsOk, LinksOk, IdsOk, DeadlinesOk, Capabilities.Sane;
  }

  lemma GoneFromCut(s: Snap, t: Snap, dead: set<FlowId>, f: FlowId)
    requires TablesCut(s, t, dead) && f in dead
    ensures f !in t.directory && f !in t.caps.cells
    ensures forall r :: r in t.monitors ==> t.monitors[r].owner != f && t.monitors[r].target != f
    ensures forall l :: l in t.links ==> !Touches(t.links[l], f)
    ensures forall n :: n in t.byName ==> t.byName[n].flow != f
    ensures forall id :: id in t.caps.entries ==>
              var e := t.caps.entries[id]; e.holder != f && !(e.cap.target.ToFlow? && e.cap.target.flow == f)
    ensures forall pair :: pair in t.caps.replies ==> pair.0 != f && pair.1 != f
  {
  }

  /** When the work list is empty no table mentions any flow finalized in the call. */
  lemma NothingMentionsTheDead(s: Snap, t: Snap, done: map<FlowId, Fate>, root: PendingExit, f: FlowId)
    requires SnapOk(t, {}) && Progress(s, t, done, [], root) && f in done
    ensures Unmentioned(t, f)
  {
    hide SnapOk, CoreOk, TablesOk, TablesCut, Tame, SignalsNow, AskersNow, Informed, AllBecause, WorkBecause,
         DownsNow, TurnsOk, PlacesNow, OnlyFallen,
         UnmentionedCore, Touches;
    SnapCore(t, {});
    GoneFromCut(s, t, done.Keys, f);
    GoneFromTables(t, f);
    GoneFromCore(t.core, {}, f);
  }

  lemma WaitersOfLive(c: Core, held: set<FlowId>, f: FlowId)
    requires CoreOk(c, held) && f in c.place && c.place[f].WaitingIn?
    ensures c.place[f].target in c.place
  {
    hide QueueOk, HeldOk, BoxesOk, IndexOk, AskersOk, WaitIds, NoTwice;
  }

  lemma WaitersWait(p: map<FlowId, Place>, b: map<FlowId, Mailbox>, q: map<FlowId, Place>, d: map<FlowId, Mailbox>,
                    f: FlowId)
    requires TamePlaces(p, b, q, d) && f in p && f in q && p[f].WaitingIn?
    ensures q[f] == p[f] || q[f] == Held
  {
  }

  /** Every sender that was waiting in the inbox of a flow that died has died as well. */
  lemma StrandedSendersDie(s: Snap, t: Snap, done: map<FlowId, Fate>, root: PendingExit, f: FlowId, g: FlowId)
    requires SnapOk(s, {root.flow.id}) && SnapOk(t, {}) && Progress(s, t, done, [], root)
    requires g in done && f in s.core.place && s.core.place[f] == WaitingIn(g)
    ensures f in done
  {
    hide SnapOk, CoreOk, TablesOk, Tame, TamePlaces, TameParks, SignalsNow, AskersNow, Informed, AllBecause,
         WorkBecause,
         DownsNow, TurnsOk, PlacesNow, OnlyFallen, TablesCut;
    SnapCore(t, {});
    InDirectory(s, {root.flow.id}, f);
    InDirectory(t, {}, f);
    InDirectory(t, {}, g);
    CutParts(s, t, done.Keys);
    if f !in done {
      TameParts(s.core, t.core);
      WaitersWait(s.core.place, s.core.boxes, t.core.place, t.core.boxes, f);
      NotHeld(t.core, {}, f);
      WaitersOfLive(t.core, {}, f);
    }
  }

  /** Running, sleeping and runnable flows survive the exit of others, with every register as it was. */
  lemma OnlyWaitingFlowsAreDragged(s: Snap, t: Snap, done: map<FlowId, Fate>, root: PendingExit, f: FlowId)
    requires SnapOk(t, {}) && Progress(s, t, done, [], root)
    ensures f in s.core.running ==> f !in done && f in t.core.running && t.core.running[f] == s.core.running[f]
    ensures f in s.core.sleeping ==> f !in done && f in t.core.sleeping && t.core.sleeping[f] == s.core.sleeping[f]
    ensures f in s.core.ready ==> f !in done && f in t.core.ready && t.core.ready[f] == s.core.ready[f]
  {
    hide SnapOk, CoreOk, TablesOk, Tame, SignalsNow, AskersNow, Informed, AllBecause, WorkBecause, DownsNow, TurnsOk,
         PlacesNow, OnlyFallen,
         TablesCut;
    SnapCore(t, {});
    TameKeepsReady(s.core, t.core);
    QueuesPlaced(t.core, {}, f);
    InDirectory(t, {}, f);
    CutParts(s, t, done.Keys);
  }

  lemma QueuesPlaced(c: Core, held: set<FlowId>, f: FlowId)
    requires CoreOk(c, held)
    ensures f in c.ready || f in c.running || f in c.sleeping ==> f in c.place
  {
    hide HeldOk, BoxesOk, SendersOk, IndexOk, AskersOk;
  }

  /**
   Whoever was parked for an answer of a flow that died is dead too, or is runnable with
   exactly one new value in the register it waits for: the hop that tells of that exit.
   Nobody is left waiting for an answer of the dead.
   */
  lemma OrphansAreTold(s: Snap, t: Snap, done: map<FlowId, Fate>, root: PendingExit, a: FlowId)
    requires SnapOk(t, {}) && Progress(s, t, done, [], root)
    ensures Orphaned(s.core, done, a) && a !in done ==>
              Told(s.core, t.core, a, s.core.byAsker[a], done[s.core.byAsker[a]].reason) && a !in t.core.byAsker
    ensures a in t.core.byAsker <==> a in s.core.byAsker && a !in done && s.core.byAsker[a] !in done
  {
    hide SnapOk, TablesCut, Tame, SignalsNow, AllBecause, WorkBecause, DownsNow, TurnsOk, PlacesNow, OnlyFallen, Told;
  }

  /** Each monitor whose owner lived to see the target die sent one DOWN hop; the others sent none. */
  lemma MonitorsFireOnce(s: Snap, t: Snap, done: map<FlowId, Fate>, root: PendingExit, r: nat)
    requires SnapOk(t, {}) && Progress(s, t, done, [], root)
    ensures r in s.monitors && SawDeath(s.monitors[r], done) <==> Sent(s.downs, t.downs, r)
    ensures forall j, k :: 0 <= j < k < |t.downs| ==> t.downs[j].ref != t.downs[k].ref
    ensures r in s.monitors && s.monitors[r].target in done ==> r !in t.monitors
    ensures forall k :: |s.downs| <= k < |t.downs| && t.downs[k].ref == r ==> Due(s.monitors, done, t.downs[k])
  {
    hide CoreOk, TablesCut, Tame, SignalsNow, AskersNow, Informed, AllBecause, WorkBecause, TurnsOk, PlacesNow,
         OnlyFallen,
         Listed, SignalsOk, MonitorsOk, LinksOk, NamesOk, IdsOk, DeadlinesOk, Capabilities.Sane, SawDeath;
    CutParts(s, t, done.Keys);
  }

  /** Whoever died without being the first was dragged along, in finitely many steps, from the first. */
  lemma {:induction false} DraggedFromTheFirst(s: Snap, done: map<FlowId, Fate>, root: PendingExit, f: FlowId,
                                               line: set<FlowId>)
    requires AllBecause(s, done, root) && f in done
    requires root.flow.id in line
    requires forall g, h :: g in line && h in done && Dragged(s, done, h, done[h].reason, g) ==> h in line
    ensures f in line
    decreases done[f].turn
  {
    hide Linked;
    assert Fated(s, done, f, root);
    if f != root.flow.id {
      var g: FlowId :| Dragged(s, done, f, done[f].reason, g) && done[g].turn < done[f].turn;
      DraggedFromTheFirst(s, done, root, g, line);
    }
  }

  lemma EmptyQueue(place: map<FlowId, Place>, id: FlowId)
    requires Waiters(place, id) == {}
    ensures forall f :: f in place ==> place[f] != WaitingIn(id)
  {
    forall f | f in place ensures place[f] != WaitingIn(id) {
      assert f in Waiters(place, id) <==> place[f] == WaitingIn(id);
    }
  }

  /** A normal exit of a flow nobody waits to send to takes no other flow along and signals nobody. */
  lemma NormalExitSparesPeers(s: Snap, t: Snap, done: map<FlowId, Fate>, root: PendingExit)
    requires Progress(s, t, done, [], root) && root.flow.id in done && done[root.flow.id].reason == Normal
    requires Waiters(s.core.place, root.flow.id) == {}
    ensures done.Keys == {root.flow.id}
    ensures forall f :: f in t.signals ==> f in s.signals
  {
    hide TablesCut, Tame, AskersNow, Informed, WorkBecause, DownsNow, TurnsOk, PlacesNow, OnlyFallen, AllBecause,
         Linked;
    var id := root.flow.id;
    EmptyQueue(s.core.place, id);
    forall f | f in done ensures f == id {
      DraggedFromTheFirst(s, done, root, f, {id});
    }
  }
}
