/**
 Links and kills (crates/byteflow/src/scheduler/finalize.rs with link.rs): who dies with a flow,
 who is left with a signal, and how far a chain of links carries.
 */
module Closure {
  import opened Wrappers
  import opened Values
  import opened MailboxSpec
  import opened Residence
  import opened Lifecycle
  import opened Exits
  import opened Fates
  import opened Finalization
  import opened Scheduler
  import Capabilities

  /** A call of `finalize_flow` has taken the tables from `s` to `t`. */
  ghost predicate Finalized(s: Snap, t: Snap, done: map<FlowId, Fate>, root: PendingExit) {
    SnapOk(s, {root.flow.id}) && SnapOk(t, {}) && Progress(s, t, done, [], root)
  }

  lemma FinalizedParts(s: Snap, t: Snap, done: map<FlowId, Fate>, root: PendingExit)
    requires Finalized(s, t, done, root)
    ensures SnapOk(s, {root.flow.id}) && SnapOk(t, {})
    ensures PlacesNow(s, t, done) && OnlyFallen(s, done, root.flow.id) && AllBecause(s, done, root)
    ensures t.directory == s.directory - done.Keys && done.Keys <= s.directory
    ensures SignalsNow(s.signals, t.signals, s.links, t.directory, done)
  {
    hide SnapOk, Tame, SignalsNow, AskersNow, Informed, AllBecause, WorkBecause, DownsNow, TurnsOk, PlacesNow,
         OnlyFallen;
    CutParts(s, t, done.Keys);
    hide TablesCut;
  }

  /**
   Exactly who dies: the first flow, and every flow that some death found idle and takes along.
   Of the others, those that were parked and have been made runnable by a death are runnable, and
   the rest are where they were.
   */
  lemma WhoDies(s: Snap, t: Snap, done: map<FlowId, Fate>, root: PendingExit, f: FlowId)
    requires Finalized(s, t, done, root) && f in s.directory
    ensures f in done <==> f == root.flow.id || Fell(s, done, f)
    ensures f !in done ==>
              f in t.core.place && f in s.core.place
              && t.core.place[f] == if Saved(s, done, f) then Ready else s.core.place[f]
  {
    hide Finalized, SnapOk, Fell, Saved;
    FinalizedParts(s, t, done, root);
    InDirectory(s, {root.flow.id}, f);
    HeldNow(s, {root.flow.id}, f);
    HeldNow(t, {}, f);
    if !Idle(s, f) {
      NeverSaved(s, done, f);
    }
  }

  /** In a run queue, on a worker or asleep: the signal will be seen. */
  ghost predicate CanRun(s: Snap, f: FlowId) {
    f in s.core.place && (s.core.place[f] == Ready || s.core.place[f] == Running || s.core.place[f] == Sleeping)
  }

  ghost predicate Doomed(s: Snap, f: FlowId) {
    f in s.directory && f in s.signals && s.signals[f] == Link && CanRun(s, f)
  }

  /**
   Link closure: whoever was linked to a flow that died for any reason but `Normal` is dead too, or is
   live with a signal to die for its link and not left parked or waiting. Nobody else got a signal.
   */
  lemma LinkClosure(s: Snap, t: Snap, done: map<FlowId, Fate>, root: PendingExit, f: FlowId)
    requires Finalized(s, t, done, root) && f in s.directory
    ensures (exists g :: g in done && done[g].reason != Normal && Linked(s.links, g, f)) ==> f in done || Doomed(t, f)
    ensures f in t.signals && !(exists g :: g in done && done[g].reason != Normal && Linked(s.links, g, f)) ==>
              f in s.signals && t.signals[f] == s.signals[f]
    ensures f in s.signals && f !in done ==> f in t.signals
  {
    hide SnapOk, Linked, Fell, Saved;
    LinkedToDeadIs(s.links, done, f);
    FinalizedParts(s, t, done, root);
    WhoDies(s, t, done, root, f);
    hide Finalized, LinkedToDead;
    if LinkedToDead(s.links, done, f) && f !in done {
      NotLeftIdle(s, t, done, root, f);
    }
  }

  lemma LinkedToDeadIs(links: map<nat, Pair>, done: map<FlowId, Fate>, f: FlowId)
    ensures LinkedToDead(links, done, f)
            <==> exists g :: g in done && done[g].reason != Normal && Linked(links, g, f)
  {
    hide Linked;
    if g :| g in done && done[g].reason != Normal && Linked(links, g, f) {
      assert Hits(links, g, done[g].reason, f);
    }
  }

  lemma NotLeftIdle(s: Snap, t: Snap, done: map<FlowId, Fate>, root: PendingExit, f: FlowId)
    requires Finalized(s, t, done, root) && f in s.directory && f !in done && LinkedToDead(s.links, done, f)
    ensures CanRun(t, f)
  {
    hide Finalized, SnapOk, Hits, Saves;
    FinalizedParts(s, t, done, root);
    WhoDies(s, t, done, root, f);
    HeldNow(t, {}, f);
    var g: FlowId :| g in done && Hits(s.links, g, done[g].reason, f);
    assert Drags(s, done, f, g);
    if Idle(s, f) && !Saved(s, done, f) {
      DraggedFalls(s, done, f, g);
    }
  }

  // ----- chains of links -----

  ghost predicate Chain(links: map<nat, Pair>, path: seq<FlowId>) {
    path != [] && forall i :: 0 < i < |path| ==> Linked(links, path[i - 1], path[i])
  }

  /** Whoever was idle and died, died for its link or for the send it waited in. */
  lemma DraggedReason(s: Snap, t: Snap, done: map<FlowId, Fate>, root: PendingExit, f: FlowId)
    requires Finalized(s, t, done, root) && f in done && Idle(s, f)
    ensures done[f].reason == Link || done[f].reason == Fault
  {
    hide Finalized, SnapOk, Hits;
    FinalizedParts(s, t, done, root);
    HeldNow(s, {root.flow.id}, f);
    assert Fated(s, done, f, root);
  }

  /**
   A chain of links from a flow that died for any reason but `Normal`, through flows that were
   parked or waiting to send, carries to its end or stops at the first flow that an earlier death,
   or the one before it in the chain, has made runnable. Everyone before that flow is dead, and it
   is live under a signal.
   */
  lemma {:induction false} ChainsOfLinks(s: Snap, t: Snap, done: map<FlowId, Fate>, root: PendingExit,
                                         path: seq<FlowId>)
    returns (n: nat)
    requires Finalized(s, t, done, root) && Chain(s.links, path)
    requires path[0] in done && done[path[0]].reason != Normal
    requires forall i :: 0 < i < |path| ==> Idle(s, path[i])
    ensures 0 < n <= |path| && forall i :: 0 <= i < n ==> path[i] in done && done[path[i]].reason != Normal
    ensures n < |path| ==>
              && path[n] !in done && Doomed(t, path[n])
              && exists h :: Saves(s, done, path[n], h) && h in done && done[h].turn <= done[path[n - 1]].turn
    decreases |path|
  {
    hide Finalized, Linked, Saves;
    if |path| == 1 {
      n := 1;
    } else {
      var last := |path| - 1;
      var front := path[..last];
      forall i | 0 < i < last ensures Linked(s.links, front[i - 1], front[i]) && Idle(s, front[i]) {
        assert Linked(s.links, path[i - 1], path[i]) && Idle(s, path[i]);
      }
      n := ChainsOfLinks(s, t, done, root, front);
      if n == last {
        NextInChain(s, t, done, root, path[last - 1], path[last]);
        n := if path[last] in done then last + 1 else last;
      }
    }
  }

  lemma NextInChain(s: Snap, t: Snap, done: map<FlowId, Fate>, root: PendingExit, g: FlowId, f: FlowId)
    requires Finalized(s, t, done, root) && g in done && done[g].reason != Normal && Linked(s.links, g, f) && Idle(s, f)
    ensures f in done ==> done[f].reason != Normal
    ensures f !in done ==>
              Doomed(t, f) && exists h :: Saves(s, done, f, h) && h in done && done[h].turn <= done[g].turn
  {
    hide Finalized, SnapOk, Linked, Saves;
    FinalizedParts(s, t, done, root);
    InDirectory(s, {root.flow.id}, f);
    WhoDies(s, t, done, root, f);
    LinkClosure(s, t, done, root, f);
    if f in done {
      DraggedReason(s, t, done, root, f);
    } else {
      assert Drags(s, done, f, g);
      assert !Unsaved(s, done, f, done[g].turn);
    }
  }

  /** So everyone along it is dead when no death makes any of them runnable. */
  lemma ChainCarries(s: Snap, t: Snap, done: map<FlowId, Fate>, root: PendingExit, path: seq<FlowId>)
    requires Finalized(s, t, done, root) && Chain(s.links, path)
    requires path[0] in done && done[path[0]].reason != Normal
    requires forall i :: 0 < i < |path| ==> Idle(s, path[i]) && !Saved(s, done, path[i])
    ensures forall i :: 0 <= i < |path| ==> path[i] in done
  {
    hide Finalized, Chain, Saves;
    var n := ChainsOfLinks(s, t, done, root, path);
  }

  /** The whole chain is dead if and only if every flow after the first has fallen. */
  lemma ChainDiesIffAllFell(s: Snap, t: Snap, done: map<FlowId, Fate>, root: PendingExit, path: seq<FlowId>)
    requires Finalized(s, t, done, root) && Chain(s.links, path) && path[0] in done
    requires forall i :: 0 < i < |path| ==> Idle(s, path[i])
    ensures (forall i :: 0 < i < |path| ==> path[i] in done)
            <==> (forall i :: 0 < i < |path| ==> Fell(s, done, path[i]))
  {
    hide Finalized, Chain, SnapOk, Fell;
    FinalizedParts(s, t, done, root);
    forall i | 0 < i < |path| ensures path[i] in done <==> Fell(s, done, path[i]) {
      InDirectory(s, {root.flow.id}, path[i]);
      HeldNow(s, {root.flow.id}, path[i]);
      WhoDies(s, t, done, root, path[i]);
    }
  }

  // ----- a chain that stops -----

  /** A flow parked on its register 0, with an empty inbox. */
  function Resting(id: FlowId): Flow {
    Flow(id, Some(0), None, None, [])
  }

  function RestingBox(id: FlowId, filter: WaitFilter): Mailbox {
    Mailbox(Queue([], 0), Some(Resting(id)), filter, 1, 1, [], false)
  }

  lemma RestingAsIs(id: FlowId, filter: WaitFilter)
    ensures var m := RestingBox(id, filter);
            && m.filter == filter && m.parked == Some(Resting(id)) && m.waiting == []
            && m.epoch == m.parks % EPOCHS && NothingMissed(m)
  {
  }

  /** Flows 1, 2 and 3, all parked; 1 is linked to 2 and 2 to 3, and 2 waits for an answer of 1. */
  const THREE: Snap :=
    Snap(Residence.Core.Core(map[1 := Parked, 2 := Parked, 3 := Parked],
                             map[1 := RestingBox(1, AnyHop), 2 := RestingBox(2, Correlation(7, Some(1))),
                                 3 := RestingBox(3, AnyHop)],
                             map[], map[], map[], map[], map[2 := 1], map[1 := {2}], map[2 := 7]),
         {1, 2, 3}, {1, 2, 3}, map[], map[], map[1 := Pair(1, 2), 2 := Pair(2, 3)], map[], map[],
         Capabilities.EMPTY, {}, 4, 1, 3, [])

  lemma ThreeQueues()
    ensures QueueOk(THREE.core.place, THREE.core.ready, Ready) && QueueOk(THREE.core.place, THREE.core.running, Running)
            && QueueOk(THREE.core.place, THREE.core.sleeping, Sleeping) && HeldOk(THREE.core.place, {})
  {
  }

  lemma ThreeBoxes()
    ensures BoxesOk(THREE.core.place, THREE.core.boxes)
  {
  }

  lemma ThreeSenders()
    ensures SendersOk(THREE.core.place, THREE.core.boxes, THREE.core.waitingAt)
  {
    assert WaitIds([]) == {};
    assert forall t :: t in THREE.core.boxes ==> THREE.core.boxes[t].waiting == [];
  }

  lemma ThreeIndex()
    ensures IndexOk(THREE.core.byAsker, THREE.core.byTarget, THREE.core.requestIds)
  {
  }

  lemma ThreeAskers()
    ensures AskersOk(THREE.core.place, THREE.core.boxes, THREE.core.byAsker, THREE.core.requestIds)
  {
    hide RestingBox;
    RestingAsIs(1, AnyHop);
    RestingAsIs(2, Correlation(7, Some(1)));
    RestingAsIs(3, AnyHop);
  }

  lemma ThreeRelations()
    ensures Listed(THREE.directory, THREE.core.place) && SignalsOk(THREE.signals, THREE.directory)
    ensures MonitorsOk(THREE.monitors, 1, THREE.directory) && DownsOk(THREE.downs, THREE.monitors, 1)
    ensures NamesOk(THREE.byName, THREE.byFlow, THREE.directory) && LinksOk(THREE.links, 3)
  {
  }

  lemma ThreeIds()
    ensures IdsOk(THREE.core.boxes, 4)
  {
  }

  lemma ThreeDeadlines()
    ensures DeadlinesOk(THREE.deadlines, THREE.core.boxes)
  {
    hide RestingBox, NothingMissed, Consistent;
    RestingAsIs(1, AnyHop);
    RestingAsIs(2, Correlation(7, Some(1)));
    RestingAsIs(3, AnyHop);
  }

  lemma ThreeIsOk()
    ensures SnapOk(THREE, {})
  {
    hide QueueOk, HeldOk, BoxesOk, SendersOk, IndexOk, AskersOk, Listed, SignalsOk, MonitorsOk, DownsOk, NamesOk,
         LinksOk, IdsOk, DeadlinesOk;
    ThreeQueues();
    ThreeBoxes();
    ThreeSenders();
    ThreeIndex();
    ThreeAskers();
    ThreeRelations();
    ThreeIds();
    ThreeDeadlines();
  }

  lemma ThreeLinks(f: FlowId)
    ensures Linked(THREE.links, f, 2) <==> f == 1 || f == 3
    ensures Linked(THREE.links, f, 3) <==> f == 2
  {
    if f == 1 {
      assert 1 in THREE.links && Joins(THREE.links[1], f, 2);
    }
    if f == 3 {
      assert 2 in THREE.links && Joins(THREE.links[2], f, 2);
    }
    if f == 2 {
      assert 2 in THREE.links && Joins(THREE.links[2], f, 3);
    }
  }

  /** The first of them has been taken out to be killed. */
  function FirstTaken(): Snap {
    KillTaken(THREE, 1, Killed).0
  }

  lemma FirstTakenIs()
    ensures KillTaken(THREE, 1, Killed) == (FirstTaken(), Some(Resting(1)))
    ensures FirstTaken().core.place == map[1 := Held, 2 := Parked, 3 := Parked]
    ensures FirstTaken().core.byAsker == THREE.core.byAsker && FirstTaken().links == THREE.links
    ensures FirstTaken().monitors == map[] && FirstTaken().directory == {1, 2, 3}
    ensures FirstTaken().signals == map[1 := Killed]
  {
  }

  /** 2 is told of the death of 1 and runs on under a signal; 3, linked to 2, stays parked without one. */
  lemma ChainStops(t: Snap, done: map<FlowId, Fate>)
    requires Finalized(FirstTaken(), t, done, PendingExit(Resting(1), Killed)) && 1 in done && done[1].turn == 0
    ensures done.Keys == {1} && Doomed(t, 2)
    ensures 3 in t.directory && 3 !in t.signals && 3 in t.core.place && t.core.place[3] == Parked
  {
    hide Finalized, SnapOk, SignalsNow, PlacesNow, OnlyFallen, FirstTaken, Linked;
    FirstTakenIs();
    var s, root := FirstTaken(), PendingExit(Resting(1), Killed);
    FinalizedParts(s, t, done, root);
    forall f ensures Linked(s.links, f, 2) <==> f == 1 || f == 3 ensures Linked(s.links, f, 3) <==> f == 2 {
      ThreeLinks(f);
    }
    assert 2 in AskersOf(s.core.byAsker, 1);
    assert Saves(s, done, 2, 1);
    WhoDies(s, t, done, root, 2);
    WhoDies(s, t, done, root, 3);
    LinkClosure(s, t, done, root, 2);
    LinkClosure(s, t, done, root, 3);
  }

  /** So killing a parked flow need not reach everyone down a chain of links between parked flows. */
  method KillTheFirst(shared: Shared) returns (ghost done: map<FlowId, Fate>)
    requires shared.Now() == THREE
    modifies shared
    ensures shared.Valid() && done.Keys == {1} && Doomed(shared.Now(), 2)
    ensures 3 in shared.Now().directory && 3 !in shared.Now().signals
    ensures 3 in shared.Now().core.place && shared.Now().core.place[3] == Parked
  {
    hide Progress, KillTaken, SnapOk;
    ThreeIsOk();
    FirstTakenIs();
    KillTakenOk(THREE, {}, 1, Killed);
    assert {} + {1} == {1};
    var killed;
    killed, done := shared.RequestKill(1, Killed);
    ChainStops(shared.Now(), done);
  }
}
