/**
 Restart intensity (`intensity_hit` in crates/byteflow/src/scheduler/supervisor.rs): a
 sliding window over restart times that, once overrun, refuses every later restart.
 */
module Intensity {
  import opened Values

  /** Times in ticks since the clock's origin, before which the clock cannot reach. */
  datatype Config = Config(maxRestarts: u32, maxPeriod: nat)

  datatype Gate = Gate(times: seq<nat>, exceeded: bool)

  function WindowStart(c: Config, now: nat): nat {
    if now >= c.maxPeriod then now - c.maxPeriod else now
  }

  /** Drop the times before the window. */
  function Prune(times: seq<nat>, start: nat): seq<nat> {
    if times != [] && times[0] < start then Prune(times[1..], start) else times
  }

  /** The comparison looks at the low 32 bits of the count. */
  function Overrun(times: seq<nat>, c: Config): bool {
    |times| % 0x1_0000_0000 > c.maxRestarts
  }

  /** One restart request at time `now`; `true` lets it through. */
  function Ask(g: Gate, c: Config, now: nat): (Gate, bool) {
    if g.exceeded then (g, false)
    else
      var times := Prune(g.times + [now], WindowStart(c, now));
      (Gate(times, Overrun(times, c)), !Overrun(times, c))
  }

  /** The times of the restarts let through by a run of requests. */
  function LetThrough(g: Gate, c: Config, requests: seq<nat>): seq<nat>
    decreases |requests|
  {
    if requests == [] then []
    else
      var (g', ok) := Ask(g, c, requests[0]);
      if ok then [requests[0]] + LetThrough(g', c, requests[1..]) else LetThrough(g', c, requests[1..])
  }

  class RestartGate {
    const config: Config
    var restartTimes: seq<nat>
    var intensityExceeded: bool

    ghost function State(): Gate
      reads this
    {
      Gate(restartTimes, intensityExceeded)
    }

    constructor (config: Config)
      ensures this.config == config && State() == Gate([], false)
    {
      this.config := config;
      restartTimes, intensityExceeded := [], false;
    }

    /** `true` refuses the restart. */
    method IntensityHit(now: nat) returns (hit: bool)
      requires !intensityExceeded
      modifies this
      ensures (State(), !hit) == Ask(old(State()), config, now)
    {
      restartTimes := restartTimes + [now];
      ghost var all := restartTimes;
      var start := if now >= config.maxPeriod then now - config.maxPeriod else now;
      while restartTimes != [] && restartTimes[0] < start
        invariant Prune(restartTimes, start) == Prune(all, start) && !intensityExceeded
        decreases |restartTimes|
      {
        restartTimes := restartTimes[1..];
      }
      hit := |restartTimes| % 0x1_0000_0000 > config.maxRestarts;
      if hit {
        intensityExceeded := true;
      }
    }
  }

  ghost predicate Sorted(s: seq<nat>) {
    forall i, j :: 0 <= i < j < |s| ==> s[i] <= s[j]
  }

  /** Requests come from a monotone clock that stands at `from`. */
  ghost predicate Clock(from: nat, requests: seq<nat>) {
    Sorted(requests) && forall i :: 0 <= i < |requests| ==> from <= requests[i]
  }

  /** At most one tick of the period is still missing, so pruning forgets nothing it should not. */
  predicate Ripe(c: Config, from: nat) {
    c.maxPeriod <= from + 1
  }

  /** At most `maxRestarts` entries in every closed window of length `maxPeriod`. */
  ghost predicate Spaced(c: Config, times: seq<nat>) {
    forall i, j :: 0 <= i <= j < |times| && times[j] <= times[i] + c.maxPeriod ==> j - i < c.maxRestarts
  }

  /**
   `past` is everything let through so far: the gate still remembers all of it that can
   share a window with a later restart.
   */
  ghost predicate Remembers(g: Gate, c: Config, past: seq<nat>, last: nat) {
    && Sorted(past) && Spaced(c, past)
    && (forall i :: 0 <= i < |past| ==> past[i] <= last && Ripe(c, past[i]))
    && (!g.exceeded ==>
          && |g.times| <= |past| && g.times == past[|past| - |g.times|..] && |g.times| <= c.maxRestarts
          && forall i :: 0 <= i < |past| - |g.times| ==> past[i] + c.maxPeriod < last)
  }

  lemma {:induction false} PruneIsSuffix(times: seq<nat>, start: nat)
    requires Sorted(times)
    ensures var p := Prune(times, start);
            && |p| <= |times| && p == times[|times| - |p|..]
            && (forall i :: 0 <= i < |times| - |p| ==> times[i] < start)
            && (p != [] ==> p[0] >= start)
  {
    if times != [] && times[0] < start {
      PruneIsSuffix(times[1..], start);
    }
  }

  lemma AskRemembers(g: Gate, c: Config, past: seq<nat>, last: nat, now: nat)
    requires Remembers(g, c, past, last) && last <= now && Ripe(c, now)
    requires c.maxRestarts < 0xFFFF_FFFF
    ensures var (g', ok) := Ask(g, c, now);
            Remembers(g', c, if ok then past + [now] else past, now)
  {
    if !g.exceeded {
      if Ask(g, c, now).1 {
        AskSpaced(g, c, past, last, now);
      }
      hide Prune, Spaced;
    }
  }

  /** One more restart `now`, of which only the last `k` earlier ones can share a window. */
  lemma SpacedPush(c: Config, past: seq<nat>, now: nat, k: nat)
    requires Sorted(past) && Spaced(c, past) && k < c.maxRestarts && k <= |past|
    requires forall i :: 0 <= i < |past| ==> past[i] <= now
    requires forall i :: 0 <= i < |past| - k ==> past[i] + c.maxPeriod < now
    ensures Sorted(past + [now]) && Spaced(c, past + [now])
  {
    var next := past + [now];
    forall i, j | 0 <= i <= j < |next| && next[j] <= next[i] + c.maxPeriod ensures j - i < c.maxRestarts {
      if j < |past| {
        assert next[i] == past[i] && next[j] == past[j];
      } else if i < |past| {
        assert next[i] == past[i];
      }
    }
  }

  /** What pruning leaves of the remembered times is what can share a window with `now`. */
  lemma KeptTimes(g: Gate, c: Config, past: seq<nat>, last: nat, now: nat)
    requires Remembers(g, c, past, last) && last <= now && Ripe(c, now) && !g.exceeded
    ensures Sorted(g.times + [now])
    ensures var kept := Prune(g.times + [now], WindowStart(c, now));
            var next := past + [now];
            && 1 <= |kept| <= |next| && |kept| <= |g.times| + 1 && kept == next[|next| - |kept|..]
            && forall i :: 0 <= i < |next| - |kept| ==> next[i] + c.maxPeriod < now
  {
    hide Spaced;
    var all, next := g.times + [now], past + [now];
    assert Sorted(all);
    PruneIsSuffix(all, WindowStart(c, now));
    var kept := Prune(all, WindowStart(c, now));
    assert kept != [] by { assert all[|g.times|] == now; }
    var skipped := |past| - |g.times|;
    assert all == next[skipped..];
    forall i | 0 <= i < |next| - |kept| ensures next[i] + c.maxPeriod < now {
      if i < skipped {
        assert next[i] == past[i];
      } else {
        assert next[i] == all[i - skipped];
      }
    }
  }

  lemma AskSpaced(g: Gate, c: Config, past: seq<nat>, last: nat, now: nat)
    requires Remembers(g, c, past, last) && last <= now && Ripe(c, now) && !g.exceeded
    requires c.maxRestarts < 0xFFFF_FFFF && Ask(g, c, now).1
    ensures Remembers(Ask(g, c, now).0, c, past + [now], now)
  {
    KeptTimes(g, c, past, last, now);
    hide Prune, WindowStart;
    var kept := Prune(g.times + [now], WindowStart(c, now));
    assert |kept| <= c.maxRestarts;
    assert forall i :: 0 <= i < |past| ==> (past + [now])[i] == past[i];
    SpacedPush(c, past, now, |kept| - 1);
    hide Spaced, Sorted;
  }

  lemma {:induction false} RunRemembers(g: Gate, c: Config, past: seq<nat>, last: nat, requests: seq<nat>)
    requires Remembers(g, c, past, last) && Clock(last, requests) && c.maxRestarts < 0xFFFF_FFFF
             && (requests != [] ==> Ripe(c, requests[0]))
    ensures Spaced(c, past + LetThrough(g, c, requests))
    decreases |requests|
  {
    hide Spaced, Ask, Remembers;
    if requests == [] {
      NothingMore(g, c, past, last);
      assert past + [] == past;
    } else {
      var now := requests[0];
      AskRemembers(g, c, past, last, now);
      var (g', ok) := Ask(g, c, now);
      assert Clock(now, requests[1..]);
      RunRemembers(g', c, if ok then past + [now] else past, now, requests[1..]);
      if ok {
        assert past + LetThrough(g, c, requests) == (past + [now]) + LetThrough(g', c, requests[1..]);
      }
    }
  }

  lemma NothingMore(g: Gate, c: Config, past: seq<nat>, last: nat)
    requires Remembers(g, c, past, last)
    ensures Spaced(c, past)
  {
    hide Spaced;
  }

  lemma RemembersNothing(c: Config)
    ensures Remembers(Gate([], false), c, [], 0)
  {
  }

  /** Every closed window of length `maxPeriod` contains at most `maxRestarts` restarts. */
  lemma WindowsAreBounded(c: Config, from: nat, requests: seq<nat>)
    requires Clock(from, requests) && Ripe(c, from) && c.maxRestarts < 0xFFFF_FFFF
    ensures Spaced(c, LetThrough(Gate([], false), c, requests))
  {
    hide Spaced, LetThrough, Remembers;
    RemembersNothing(c);
    assert Clock(0, requests) && (requests != [] ==> Ripe(c, requests[0]));
    RunRemembers(Gate([], false), c, [], 0, requests);
    assert [] + LetThrough(Gate([], false), c, requests) == LetThrough(Gate([], false), c, requests);
  }

  /** After the first refusal nothing is ever let through again. */
  lemma {:induction false} RefusalIsFinal(g: Gate, c: Config, now: nat, later: seq<nat>)
    requires !Ask(g, c, now).1
    ensures LetThrough(Ask(g, c, now).0, c, later) == []
    decreases |later|
  {
    if later != [] {
      RefusalIsFinal(Ask(g, c, now).0, c, later[0], later[1..]);
    }
  }

  /** More than the allowed restarts at the end of a list that share a window with its last are too many. */
  lemma TooMany(c: Config, times: seq<nat>, k: nat)
    requires 0 < k <= |times| && k > c.maxRestarts && times[|times| - 1] <= times[|times| - k] + c.maxPeriod
    ensures !Spaced(c, times)
  {
    var i, j := |times| - k, |times| - 1;
    assert 0 <= i <= j < |times| && times[j] <= times[i] + c.maxPeriod && j - i >= c.maxRestarts;
  }

  /** A refused restart would have been one too many in the window it ends. */
  lemma RefusedIsTooMany(g: Gate, c: Config, past: seq<nat>, last: nat, now: nat)
    requires Remembers(g, c, past, last) && last <= now && Ripe(c, now) && !g.exceeded
    requires c.maxRestarts < 0xFFFF_FFFF && !Ask(g, c, now).1
    ensures !Spaced(c, past + [now])
  {
    KeptTimes(g, c, past, last, now);
    hide Spaced, Sorted;
    var all, start := g.times + [now], WindowStart(c, now);
    PruneIsSuffix(all, start);
    hide Prune;
    var kept, next := Prune(all, start), past + [now];
    assert next[|next| - |kept|] == kept[0] >= start;
    TooMany(c, next, |kept|);
  }

  lemma {:induction false} LetsThroughFrom(g: Gate, c: Config, past: seq<nat>, last: nat, requests: seq<nat>)
    requires Remembers(g, c, past, last) && Clock(last, requests) && c.maxRestarts < 0xFFFF_FFFF && !g.exceeded
             && (requests != [] ==> Ripe(c, requests[0]))
    ensures var k := |LetThrough(g, c, requests)|;
            && k <= |requests| && LetThrough(g, c, requests) == requests[..k]
            && Spaced(c, past + requests[..k])
            && (k < |requests| ==> !Spaced(c, past + requests[..k + 1]))
    decreases |requests|
  {
    hide Spaced, Ask, Remembers;
    if requests == [] {
      NothingMore(g, c, past, last);
      assert past + requests[..0] == past;
    } else {
      var now, later := requests[0], requests[1..];
      AskRemembers(g, c, past, last, now);
      var (g', ok) := Ask(g, c, now);
      if ok {
        LetThroughOpens(g, c, now);
        LetsThroughFrom(g', c, past + [now], now, later);
        var k := |LetThrough(g', c, later)|;
        assert requests[..k + 1] == [now] + later[..k];
        assert past + requests[..k + 1] == past + [now] + later[..k];
        if k < |later| {
          assert past + requests[..k + 2] == past + [now] + later[..k + 1];
        }
      } else {
        RefusedIsTooMany(g, c, past, last, now);
        RefusalIsFinal(g, c, now, later);
        NothingMore(g, c, past, last);
        assert past + requests[..0] == past && past + requests[..1] == past + [now];
      }
    }
  }

  lemma LetThroughOpens(g: Gate, c: Config, now: nat)
    requires Ask(g, c, now).1
    ensures !Ask(g, c, now).0.exceeded
  {
  }

  /**
   Of the requests of a clock that has passed the period, exactly the longest beginning is let
   through that has at most `maxRestarts` entries in every closed window: a restart is refused
   only when it would be one too many.
   */
  lemma LetsThroughTheLongestPrefix(c: Config, from: nat, requests: seq<nat>)
    requires Clock(from, requests) && Ripe(c, from) && c.maxRestarts < 0xFFFF_FFFF
    ensures var k := |LetThrough(Gate([], false), c, requests)|;
            && k <= |requests| && LetThrough(Gate([], false), c, requests) == requests[..k]
            && Spaced(c, requests[..k])
            && (k < |requests| ==> !Spaced(c, requests[..k + 1]))
  {
    hide Spaced, LetThrough, Remembers;
    RemembersNothing(c);
    LetsThroughFrom(Gate([], false), c, [], 0, requests);
    var k := |LetThrough(Gate([], false), c, requests)|;
    assert [] + requests[..k] == requests[..k];
    if k < |requests| {
      assert [] + requests[..k + 1] == requests[..k + 1];
    }
  }

  /**
   The largest limit is no limit: a 32-bit count never exceeds it, so requests at one and the
   same instant are let through without end.
   */
  lemma {:induction false} LargestLimitNeverRefuses(g: Gate, c: Config, requests: seq<nat>)
    requires !g.exceeded && c.maxRestarts == 0xFFFF_FFFF
    ensures LetThrough(g, c, requests) == requests
    decreases |requests|
  {
    if requests != [] {
      LargestLimitNeverRefuses(Ask(g, c, requests[0]).0, c, requests[1..]);
      assert [requests[0]] + requests[1..] == requests;
    }
  }

  /**
   Before the clock has passed one period the window degenerates to the current instant:
   restarts at strictly growing times are all let through, however many there are.
   */
  lemma {:induction false} EarlyClockForgets(g: Gate, c: Config, requests: seq<nat>)
    requires !g.exceeded && c.maxRestarts >= 1 && Sorted(g.times)
    requires forall i, j :: 0 <= i < j < |requests| ==> requests[i] < requests[j]
    requires forall i :: 0 <= i < |requests| ==> requests[i] < c.maxPeriod
    requires requests != [] ==> forall i :: 0 <= i < |g.times| ==> g.times[i] < requests[0]
    ensures LetThrough(g, c, requests) == requests
    decreases |requests|
  {
    if requests != [] {
      var now := requests[0];
      var all := g.times + [now];
      assert Sorted(all);
      PruneIsSuffix(all, now);
      var kept := Prune(all, now);
      assert all[|all| - 1] == now;
      assert forall i :: 0 <= i < |g.times| ==> all[i] == g.times[i];
      assert kept != [];
      assert kept[0] == all[|all| - |kept|];
      assert kept == [now];
      EarlyClockForgets(Ask(g, c, now).0, c, requests[1..]);
      assert [now] + requests[1..] == requests;
    }
  }

  // ----- exactly when the bound holds -----

  /** Whatever a clock that stands at `from` will ask, every window is bounded. */
  ghost predicate AlwaysSpaced(c: Config, from: nat) {
    forall requests :: Clock(from, requests) ==> Spaced(c, LetThrough(Gate([], false), c, requests))
  }

  lemma {:induction false} LimitZeroRefuses(g: Gate, c: Config, requests: seq<nat>)
    requires c.maxRestarts == 0 && (g.exceeded || g.times == [])
    ensures LetThrough(g, c, requests) == []
    decreases |requests|
  {
    if requests != [] {
      var now := requests[0];
      assert !g.exceeded ==> Prune(g.times + [now], WindowStart(c, now)) == [now];
      LimitZeroRefuses(Ask(g, c, now).0, c, requests[1..]);
    }
  }

  /** As many requests as the limit allows, all at one early instant. */
  lemma {:induction false} SameInstant(c: Config, t: nat, before: nat, n: nat, later: seq<nat>)
    requires t < c.maxPeriod && before + n <= c.maxRestarts < 0xFFFF_FFFF
    ensures LetThrough(Gate(seq(before, _ => t), false), c, seq(n, _ => t) + later)
            == seq(n, _ => t) + LetThrough(Gate(seq(before + n, _ => t), false), c, later)
    decreases n
  {
    if n == 0 {
      assert seq(n, _ => t) + later == later;
      assert seq(n, _ => t) + LetThrough(Gate(seq(before, _ => t), false), c, later)
             == LetThrough(Gate(seq(before, _ => t), false), c, later);
    } else {
      var requests := seq(n, _ => t) + later;
      assert requests[0] == t && requests[1..] == seq(n - 1, _ => t) + later;
      assert seq(before, _ => t) + [t] == seq(before + 1, _ => t);
      assert Prune(seq(before + 1, _ => t), t) == seq(before + 1, _ => t);
      assert Ask(Gate(seq(before, _ => t), false), c, t) == (Gate(seq(before + 1, _ => t), false), true);
      SameInstant(c, t, before + 1, n - 1, later);
      assert [t] + (seq(n - 1, _ => t) + LetThrough(Gate(seq(before + n, _ => t), false), c, later))
             == seq(n, _ => t) + LetThrough(Gate(seq(before + n, _ => t), false), c, later);
    }
  }

  lemma {:induction false} PruneDropsAll(n: nat, t: nat)
    ensures Prune(seq(n, _ => t) + [t + 1], t + 1) == [t + 1]
    decreases n
  {
    var times := seq(n, _ => t) + [t + 1];
    if n > 0 {
      assert times[0] == t && times[1..] == seq(n - 1, _ => t) + [t + 1];
      PruneDropsAll(n - 1, t);
    } else {
      assert times == [t + 1];
    }
  }

  /** Two ticks before the period has passed, one restart too many gets through. */
  lemma UnripeClockOverruns(c: Config, from: nat)
    requires 1 <= c.maxRestarts < 0xFFFF_FFFF && !Ripe(c, from)
    ensures !AlwaysSpaced(c, from)
  {
    var full := seq(c.maxRestarts, _ => from);
    var requests := full + [from + 1];
    assert Clock(from, requests);
    SameInstant(c, from, 0, c.maxRestarts, [from + 1]);
    assert seq(0, _ => from) == [] && seq(0 + c.maxRestarts, _ => from) == full;
    PruneDropsAll(c.maxRestarts, from);
    var g := Gate(full, false);
    assert Ask(g, c, from + 1) == (Gate([from + 1], false), true);
    assert LetThrough(g, c, [from + 1]) == [from + 1];
    var through := LetThrough(Gate([], false), c, requests);
    assert through == full + [from + 1];
    assert through[0] == from && through[c.maxRestarts] == from + 1;
    assert !Spaced(c, through);
  }

  lemma NoLimitOverruns(c: Config, from: nat)
    requires c.maxRestarts == 0xFFFF_FFFF
    ensures !AlwaysSpaced(c, from)
  {
    var requests := seq(0x1_0000_0000, _ => from);
    assert Clock(from, requests);
    LargestLimitNeverRefuses(Gate([], false), c, requests);
    assert requests[0] == from && requests[0xFFFF_FFFF] == from;
    assert !Spaced(c, requests);
  }

  /**
   The window bound holds for everything a clock may still ask exactly if no restart is
   allowed at all, or the limit is below the largest 32-bit number and the clock has reached
   the last tick of the first period.
   */
  lemma BoundedIffRipe(c: Config, from: nat)
    ensures AlwaysSpaced(c, from) <==> c.maxRestarts == 0 || (c.maxRestarts < 0xFFFF_FFFF && Ripe(c, from))
  {
    hide Spaced, LetThrough;
    if c.maxRestarts == 0 {
      forall requests | Clock(from, requests) ensures Spaced(c, LetThrough(Gate([], false), c, requests)) {
        LimitZeroRefuses(Gate([], false), c, requests);
        NothingIsSpaced(c);
      }
    } else if c.maxRestarts == 0xFFFF_FFFF {
      NoLimitOverruns(c, from);
    } else if Ripe(c, from) {
      forall requests | Clock(from, requests) ensures Spaced(c, LetThrough(Gate([], false), c, requests)) {
        WindowsAreBounded(c, from, requests);
      }
    } else {
      UnripeClockOverruns(c, from);
    }
  }

  lemma NothingIsSpaced(c: Config)
    ensures Spaced(c, [])
  {
  }
}
