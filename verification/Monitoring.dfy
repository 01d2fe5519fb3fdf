/**
 Monitors over whole runs (crates/byteflow/src/scheduler/monitor.rs with finalize.rs): what any
 sequence of scheduler steps does to the monitor table and to the DOWN hops sent.
 */
module Monitoring {
  import opened MailboxSpec
  import opened Residence
  import opened Lifecycle
  import opened Exits
  import opened Fates
  import opened Finalization
  import Capabilities

  /** A step as the monitor table sees it. */
  datatype Move =
    | Elsewhere
    | Creates(owner: FlowId, target: FlowId)
    | Drops(ref: nat)
    | Finalizes(done: map<FlowId, Fate>)

  ghost predicate Takes(s: Snap, move: Move, t: Snap) {
    match move
    case Elsewhere => t.monitors == s.monitors && t.nextMonitor == s.nextMonitor && t.downs == s.downs
    case Creates(owner, target) =>
      && t.monitors == s.monitors[s.nextMonitor := Monitor(owner, target)]
      && t.nextMonitor == s.nextMonitor + 1 && t.downs == s.downs
    case Drops(r) =>
      && r in s.monitors && t.monitors == s.monitors - {r}
      && t.nextMonitor == s.nextMonitor && t.downs == s.downs
    case Finalizes(done) =>
      && t.monitors == MonitorsKept(s.monitors, done.Keys)
      && t.nextMonitor == s.nextMonitor && DownsNow(s.downs, t.downs, s.monitors, done)
  }

  ghost predicate Moves(s: Snap, t: Snap) {
    exists move :: Takes(s, move, t)
  }

  /** Two states that differ in nothing monitors are about. */
  ghost predicate SameWatch(s: Snap, t: Snap) {
    t.monitors == s.monitors && t.nextMonitor == s.nextMonitor && t.downs == s.downs
  }

  lemma StaysPut(s: Snap, t: Snap)
    requires SameWatch(s, t)
    ensures Moves(s, t)
  {
    assert Takes(s, Elsewhere, t);
  }

  /** A finalization, after something monitors are not about. */
  lemma FinalizedMoves(s: Snap, m: Snap, t: Snap, done: map<FlowId, Fate>, root: PendingExit)
    requires SameWatch(s, m) && Progress(m, t, done, [], root)
    ensures Moves(s, t)
  {
    hide Tame, SignalsNow, AskersNow, Informed, AllBecause, WorkBecause, DownsNow, TurnsOk, PlacesNow, OnlyFallen,
         MonitorsKept;
    assert Takes(s, Finalizes(done), t);
  }

  // ----- runs -----

  /** States between steps, and what each step did to the monitors. */
  ghost predicate History(h: seq<Snap>, moves: seq<Move>) {
    && |h| == |moves| + 1
    && (forall i :: 0 <= i < |h| ==> SnapOk(h[i], {}))
    && (forall i :: 0 <= i < |moves| ==> Takes(h[i], moves[i], h[i + 1]))
  }

  /** The entry `r` stands when its target is finalized, and its owner lives to see it. */
  ghost predicate SeesDeath(s: Snap, move: Move, r: nat) {
    move.Finalizes? && r in s.monitors && SawDeath(s.monitors[r], move.done)
  }

  ghost predicate Seen(h: seq<Snap>, moves: seq<Move>, r: nat)
    requires |h| == |moves| + 1
  {
    exists i :: 0 <= i < |moves| && SeesDeath(h[i], moves[i], r)
  }

  lemma SnapMonitors(s: Snap)
    requires SnapOk(s, {})
    ensures MonitorsOk(s.monitors, s.nextMonitor, s.directory) && DownsOk(s.downs, s.monitors, s.nextMonitor)
  {
    hide CoreOk, Listed, SignalsOk, MonitorsOk, DownsOk, LinksOk, NamesOk, IdsOk, DeadlinesOk, Capabilities.Sane;
  }

  /** The log of DOWN hops only grows. */
  lemma MoveExtends(s: Snap, move: Move, t: Snap, r: nat)
    requires Takes(s, move, t)
    ensures |s.downs| <= |t.downs| && t.downs[..|s.downs|] == s.downs
    ensures Sent(s.downs, t.downs, r) <==> SeesDeath(s, move, r)
  {
    hide SawDeath;
  }

  lemma SentInParts(a: seq<Down>, b: seq<Down>, c: seq<Down>, r: nat)
    requires |a| <= |b| <= |c| && c[..|b|] == b
    ensures Sent(a, c, r) <==> Sent(a, b, r) || Sent(b, c, r)
  {
    if k :| |a| <= k < |c| && c[k].ref == r {
      assert k < |b| ==> b[k] == c[..|b|][k];
    }
    if Sent(a, b, r) {
      SentStays(a, b, c, r);
    }
  }

  lemma SeenInParts(h: seq<Snap>, moves: seq<Move>, r: nat)
    requires |h| == |moves| + 1 && moves != []
    ensures Seen(h, moves, r) <==> SeesDeath(h[0], moves[0], r) || Seen(h[1..], moves[1..], r)
  {
    hide SeesDeath;
    if i :| 0 <= i < |moves| && SeesDeath(h[i], moves[i], r) {
      assert i > 0 ==> SeesDeath(h[1..][i - 1], moves[1..][i - 1], r);
    }
    if i :| 0 <= i < |moves[1..]| && SeesDeath(h[1..][i], moves[1..][i], r) {
      assert SeesDeath(h[i + 1], moves[i + 1], r);
    }
  }

  lemma HistoryTail(h: seq<Snap>, moves: seq<Move>)
    requires History(h, moves) && moves != []
    ensures History(h[1..], moves[1..]) && Takes(h[0], moves[0], h[1])
  {
    hide SnapOk, Takes;
  }

  lemma {:induction false} DownsOverRuns(h: seq<Snap>, moves: seq<Move>, r: nat)
    requires History(h, moves)
    ensures var last := h[|moves|];
            && |h[0].downs| <= |last.downs| && last.downs[..|h[0].downs|] == h[0].downs
            && (Sent(h[0].downs, last.downs, r) <==> Seen(h, moves, r))
    decreases |moves|
  {
    hide Takes, SnapOk, SeesDeath, Seen, Sent, History;
    if moves == [] {
      NothingSeen(h, moves, r);
    } else {
      HistoryTail(h, moves);
      LastOfTail(h, moves);
      MoveExtends(h[0], moves[0], h[1], r);
      DownsOverRuns(h[1..], moves[1..], r);
      SeenInParts(h, moves, r);
      var last := h[|moves|];
      assert last.downs[..|h[0].downs|] == last.downs[..|h[1].downs|][..|h[0].downs|];
      SentInParts(h[0].downs, h[1].downs, last.downs, r);
    }
  }

  lemma LastOfTail(h: seq<Snap>, moves: seq<Move>)
    requires History(h, moves) && moves != []
    ensures |h| == |moves| + 1 && h[1..][|moves[1..]|] == h[|moves|] && h[1..][0] == h[1]
  {
    hide SnapOk, Takes;
  }

  lemma NothingSeen(h: seq<Snap>, moves: seq<Move>, r: nat)
    requires History(h, moves) && moves == []
    ensures |h| == 1 && !Seen(h, moves, r) && !Sent(h[0].downs, h[0].downs, r)
    ensures h[0].downs[..|h[0].downs|] == h[0].downs
  {
    hide SnapOk, Takes;
  }

  /** An entry never changes while it stands, and a reference that is gone does not come back. */
  lemma MoveKeeps(s: Snap, move: Move, t: Snap, r: nat)
    requires Takes(s, move, t) && r < s.nextMonitor
    ensures r < t.nextMonitor
    ensures r in t.monitors ==> r in s.monitors && t.monitors[r] == s.monitors[r]
  {
    hide DownsNow;
  }

  lemma {:induction false} EntryIsConstant(h: seq<Snap>, moves: seq<Move>, i: nat, j: nat, r: nat)
    requires History(h, moves) && i <= j <= |moves| && r < h[i].nextMonitor
    ensures r < h[j].nextMonitor
    ensures r in h[j].monitors ==> r in h[i].monitors && h[j].monitors[r] == h[i].monitors[r]
    decreases j - i
  {
    hide SnapOk, Takes;
    if i < j {
      MoveKeeps(h[i], moves[i], h[i + 1], r);
      EntryIsConstant(h, moves, i + 1, j, r);
    }
  }

  /** The finalization that sends it names the hop. */
  lemma DownOfMove(s: Snap, move: Move, t: Snap, r: nat, k: nat)
    requires Takes(s, move, t) && |s.downs| <= k < |t.downs| && t.downs[k].ref == r
    ensures SeesDeath(s, move, r)
    ensures var m := s.monitors[r]; t.downs[k] == Down(r, m.owner, m.target, move.done[m.target].reason)
  {
    hide SawDeath;
    assert move.Finalizes?;
    assert Due(s.monitors, move.done, t.downs[k]);
  }

  /** Entry `r`, created for this owner and target, stands when the target is finalized and the owner sees it. */
  ghost predicate Outlived(r: nat, owner: FlowId, target: FlowId, s: Snap, move: Move) {
    move.Finalizes? && r in s.monitors && SawDeath(Monitor(owner, target), move.done)
  }

  lemma CreatedStands(h: seq<Snap>, moves: seq<Move>, i: nat, j: nat)
    requires History(h, moves) && i < j <= |moves| && moves[i].Creates?
    ensures h[i].nextMonitor in h[j].monitors ==>
              h[j].monitors[h[i].nextMonitor] == Monitor(moves[i].owner, moves[i].target)
  {
    hide SnapOk, DownsNow;
    EntryIsConstant(h, moves, i + 1, j, h[i].nextMonitor);
  }

  lemma NotCreatedYet(h: seq<Snap>, moves: seq<Move>, i: nat, j: nat)
    requires History(h, moves) && j <= i < |moves|
    ensures h[i].nextMonitor !in h[j].monitors && h[j].nextMonitor <= h[i].nextMonitor
    decreases i - j
  {
    hide Takes, DownsNow;
    SnapMonitors(h[j]);
    if j < i {
      NotCreatedYet(h, moves, i, j + 1);
      NeverFalls(h[j], moves[j], h[j + 1]);
    }
  }

  lemma NeverFalls(s: Snap, move: Move, t: Snap)
    requires Takes(s, move, t)
    ensures s.nextMonitor <= t.nextMonitor
  {
    hide DownsNow;
  }

  /**
   Over any run a monitor yields its DOWN hop if and only if its target is finalized while the
   entry stands and its owner is still there, and it never yields two.
   */
  lemma MonitorsFireOnceEver(h: seq<Snap>, moves: seq<Move>, i: nat)
    requires |h| == |moves| + 1 && i < |moves| && moves[i].Creates? && History(h, moves)
    ensures Sent(h[0].downs, h[|moves|].downs, h[i].nextMonitor)
            <==> exists j :: i < j < |moves|
                             && Outlived(h[i].nextMonitor, moves[i].owner, moves[i].target, h[j], moves[j])
    ensures FiresOnce(h[0].downs, h[|moves|].downs, h[i].nextMonitor)
  {
    hide SnapOk, Takes, Sent, SawDeath;
    var r, last := h[i].nextMonitor, h[|moves|];
    DownsOverRuns(h, moves, r);
    if Seen(h, moves, r) {
      var j :| 0 <= j < |moves| && SeesDeath(h[j], moves[j], r);
      if j <= i {
        NotCreatedYet(h, moves, i, j);
      } else {
        CreatedStands(h, moves, i, j);
        assert Outlived(r, moves[i].owner, moves[i].target, h[j], moves[j]);
      }
    }
    if j :| i < j < |moves| && Outlived(r, moves[i].owner, moves[i].target, h[j], moves[j]) {
      CreatedStands(h, moves, i, j);
      assert SeesDeath(h[j], moves[j], r);
    }
    SnapMonitors(last);
    SnapMonitors(h[0]);
    NotCreatedYet(h, moves, i, 0);
    assert forall k :: 0 <= k < |h[0].downs| ==> last.downs[k] == last.downs[..|h[0].downs|][k];
  }

  /** No two hops bear the same reference, and none of the earlier ones bore `r`. */
  ghost predicate FiresOnce(before: seq<Down>, now: seq<Down>, r: nat) {
    && (forall k, l :: 0 <= k < l < |now| ==> now[k].ref != now[l].ref)
    && (forall k :: 0 <= k < |now| && now[k].ref == r ==> |before| <= k)
  }

  /** The step of a run that sent a given hop. */
  lemma {:induction false} SentBy(h: seq<Snap>, moves: seq<Move>, k: nat) returns (j: nat)
    requires |h| == |moves| + 1 && History(h, moves) && |h[0].downs| <= k < |h[|moves|].downs|
    ensures j < |moves| && |h[j].downs| <= k < |h[j + 1].downs| && h[|moves|].downs[k] == h[j + 1].downs[k]
    decreases |moves|
  {
    hide Takes, SnapOk, History, Sent;
    if moves == [] {
      NothingSeen(h, moves, 0);
      assert false;
    }
    HistoryTail(h, moves);
    LastOfTail(h, moves);
    DownsOverRuns(h[1..], moves[1..], 0);
    if k < |h[1].downs| {
      j := 0;
      assert h[|moves|].downs[..|h[1].downs|][k] == h[|moves|].downs[k];
    } else {
      j := SentBy(h[1..], moves[1..], k);
      j := j + 1;
    }
  }

  /** The hop a monitor yields names its reference, its owner and target, and the reason its target died for. */
  lemma HopTells(h: seq<Snap>, moves: seq<Move>, i: nat, k: nat) returns (j: nat)
    requires |h| == |moves| + 1 && i < |moves| && moves[i].Creates? && History(h, moves)
    requires k < |h[|moves|].downs| && h[|moves|].downs[k].ref == h[i].nextMonitor
    ensures i < j < |moves| && Outlived(h[i].nextMonitor, moves[i].owner, moves[i].target, h[j], moves[j])
    ensures h[|moves|].downs[k] == Down(h[i].nextMonitor, moves[i].owner, moves[i].target,
                                        moves[j].done[moves[i].target].reason)
  {
    hide SnapOk, Takes, Sent;
    MonitorsFireOnceEver(h, moves, i);
    j := SentBy(h, moves, k);
    DownOfMove(h[j], moves[j], h[j + 1], h[i].nextMonitor, k);
    if j <= i {
      NotCreatedYet(h, moves, i, j);
    } else {
      CreatedStands(h, moves, i, j);
    }
  }
}
