/**
 The CPU budget (crates/byteflow/src/scheduler/quota.rs) and the slice the worker
 takes from it (crates/byteflow/src/scheduler/worker.rs): exact instruction accounting.
 */
module Quota {
  import opened Wrappers
  import opened Values
  import opened Bytecode
  import opened Machine
  import opened Interpreters

  class FlowQuota {
    var cpuBudget: i64

    constructor (cpuBudget: i64)
      ensures this.cpuBudget == cpuBudget
    {
      this.cpuBudget := cpuBudget;
    }

    method RemainingCpu() returns (n: i64)
      ensures n == Max(cpuBudget, 0)
    {
      n := Max(cpuBudget, 0);
    }

    /** Subtract first, look afterwards, and give the cost back when that went below zero. */
    method ChargeCpu(cost: i64) returns (ok: bool)
      modifies this
      ensures ok <==> Wrap64(old(cpuBudget) - cost) >= 0
      ensures cpuBudget == if ok then Wrap64(old(cpuBudget) - cost) else old(cpuBudget)
    {
      cpuBudget := Wrap64(cpuBudget - cost);
      if cpuBudget < 0 {
        cpuBudget := Wrap64(cpuBudget + cost);
        return false;
      }
      return true;
    }

    method TopUpCpu(extra: i64)
      modifies this
      ensures cpuBudget == Wrap64(old(cpuBudget) + extra)
    {
      cpuBudget := Wrap64(cpuBudget + extra);
    }

    /**
     One turn of the worker's loop: cut the quantum to what is left, run, and pay for what
     was executed. `None` is the flow being stopped for lack of budget, which happens
     only when nothing was left: the charge itself is never refused.
     */
    method RunSlice(quantum: u32, vm: Interpreter) returns (r: Option<VmResult>)
      modifies this, vm
      ensures r.Some? <==> old(cpuBudget) > 0
      ensures r.Some? ==>
                (vm.State(), r.value) == Machine.Run(vm.chunk, vm.host, old(vm.State()), Min(quantum, old(cpuBudget)))
      ensures cpuBudget + vm.instructionsExecuted == old(cpuBudget) + old(vm.instructionsExecuted)
      ensures old(cpuBudget) >= 0 ==> cpuBudget >= 0
    {
      hide Machine.Run, Steps;
      var remaining := RemainingCpu();
      if remaining <= 0 {
        return None;
      }
      var slice := Min(quantum, remaining);
      var before := vm.instructionsExecuted;
      RunCounts(vm.chunk, vm.host, vm.State(), slice);
      var result := vm.Run(slice);
      Wrap64Fits(cpuBudget - (vm.instructionsExecuted - before));
      hide Wrap64;
      var paid := ChargeCpu(vm.instructionsExecuted - before);
      if !paid {
        assert false;
        return None;
      }
      return Some(result);
    }
  }

  // ----- the ledger over a flow's life -----

  datatype Status = Running | Finished | Exhausted | Refused

  /** `credited` adds up the top-ups as requested. */
  datatype Account = Account(budget: i64, vm: Vm, credited: int, status: Status)

  /** A slice, a top-up that arrives while it runs, one that arrives afterwards, and the scheduler's answer. */
  datatype Round = Round(quantum: u32, during: i64, afterwards: i64, answer: Option<(u8, Value)>)

  function Credit(a: Account, extra: i64): Account {
    a.(budget := Wrap64(a.budget + extra), credited := a.credited + extra)
  }

  function Charge(a: Account, cost: nat): Account {
    if Wrap64(a.budget - cost) < 0 then a.(status := Refused) else a.(budget := Wrap64(a.budget - cost))
  }

  function RunRound(c: Chunk, h: Host, a: Account, round: Round): Account {
    if a.budget <= 0 then a.(status := Exhausted)
    else
      var (vm, r) := Machine.Run(c, h, a.vm, Min(round.quantum, a.budget));
      var paid := Charge(Credit(a.(vm := vm), round.during), SatSub(vm.executed, a.vm.executed));
      if paid.status.Refused? then paid
      else if r.Complete? || r.Trapped? then paid.(status := Finished)
      else Credit(paid.(vm := Answered(vm, round.answer)), round.afterwards)
  }

  function RunRounds(c: Chunk, h: Host, a: Account, rounds: seq<Round>): Account
    decreases |rounds|
  {
    if rounds == [] || !a.status.Running? then a
    else RunRounds(c, h, RunRound(c, h, a, rounds[0]), rounds[1..])
  }

  function Credits(rounds: seq<Round>): int {
    if rounds == [] then 0 else rounds[0].during + rounds[0].afterwards + Credits(rounds[1..])
  }

  ghost predicate OnlyGrants(rounds: seq<Round>) {
    forall i :: 0 <= i < |rounds| ==> rounds[i].during >= 0 && rounds[i].afterwards >= 0
  }

  /** What was granted is what is left plus what was executed. */
  ghost predicate Balanced(a: Account, granted: int) {
    && a.budget >= 0 && a.budget + a.vm.executed == granted + a.credited && !a.status.Refused?
    && (a.status.Exhausted? ==> a.budget == 0)
  }

  /** A top-up adds exactly its amount precisely when the sum fits the 64-bit counter. */
  lemma TopUpIsExact(budget: i64, extra: i64)
    requires budget >= 0 && extra >= 0
    ensures Wrap64(budget + extra) == budget + extra <==> budget + extra < 0x8000_0000_0000_0000
    ensures budget + extra >= 0x8000_0000_0000_0000 ==> Wrap64(budget + extra) < 0
  {
  }

  lemma WrapTwice(x: int, y: int)
    ensures Wrap64(Wrap64(x) - y) == Wrap64(x - y)
  {
    var m := 0x1_0000_0000_0000_0000;
    var k := (x - Wrap64(x)) / m;
    assert Wrap64(x) - y == (x - y) - k * m;
    ModuloShift(x - y, -k);
  }

  lemma ModuloShift(x: int, k: int)
    ensures (x + k * 0x1_0000_0000_0000_0000) % 0x1_0000_0000_0000_0000 == x % 0x1_0000_0000_0000_0000
  {
    var m := 0x1_0000_0000_0000_0000;
    assert x == (x / m) * m + x % m;
    assert x + k * m == (x / m + k) * m + x % m;
  }

  /**
   A slice within the budget is paid if and only if what is left with the top-ups that arrived
   meanwhile fits the counter; an overflow that the charge takes back does no harm.
   */
  lemma ChargeIsExact(a: Account, during: i64, cost: nat)
    requires 0 <= cost <= a.budget && during >= 0
    ensures var left := a.budget + during - cost;
            Charge(Credit(a, during), cost)
            == if left < 0x8000_0000_0000_0000 then a.(budget := left, credited := a.credited + during)
               else Credit(a, during).(status := Refused)
  {
    var left := a.budget + during - cost;
    WrapTwice(a.budget + during, cost);
    Wrap64Fits(left);
    assert left >= 0x8000_0000_0000_0000 ==> Wrap64(left) < 0;
    hide Wrap64;
  }

  /** What is left after the slice and its charge fits the counter, and so does the top-up that follows. */
  predicate RoundFits(c: Chunk, h: Host, a: Account, round: Round) {
    a.budget > 0 ==>
      var (vm, r) := Machine.Run(c, h, a.vm, Min(round.quantum, a.budget));
      var left := a.budget + round.during - (vm.executed - a.vm.executed);
      && left < 0x8000_0000_0000_0000
      && (r.Complete? || r.Trapped? || left + round.afterwards < 0x8000_0000_0000_0000)
  }

  /** Every top-up fits when it counts. */
  predicate TopUpsFit(c: Chunk, h: Host, a: Account, rounds: seq<Round>)
    decreases |rounds|
  {
    rounds == [] || !a.status.Running?
    || (RoundFits(c, h, a, rounds[0]) && TopUpsFit(c, h, RunRound(c, h, a, rounds[0]), rounds[1..]))
  }

  /** A round keeps the balance if and only if its top-ups fit; otherwise nothing restores it. */
  lemma RoundBalances(c: Chunk, h: Host, a: Account, round: Round, granted: int)
    requires Balanced(a, granted) && a.status.Running?
    requires round.during >= 0 && round.afterwards >= 0
    ensures RoundFits(c, h, a, round) ==> Balanced(RunRound(c, h, a, round), granted)
    ensures !RoundFits(c, h, a, round) ==> Overdrawn(RunRound(c, h, a, round))
  {
    hide Machine.Run, Steps, Wrap64, Charge, Answered;
    if a.budget > 0 {
      var slice := Min(round.quantum, a.budget);
      RunCounts(c, h, a.vm, slice);
      var (vm, r) := Machine.Run(c, h, a.vm, slice);
      var cost := vm.executed - a.vm.executed;
      ChargeIsExact(a.(vm := vm), round.during, cost);
      LandsExactly(a.budget + round.during - cost, round.afterwards);
      AnswerKeepsCount(vm, round.answer);
    }
  }

  /** Refused, or below zero, which the next round reads as exhausted. */
  ghost predicate Overdrawn(a: Account) {
    a.status.Refused? || (a.budget < 0 && (a.status.Running? || a.status.Exhausted?))
  }

  lemma LandsExactly(left: int, extra: i64)
    requires 0 <= left && extra >= 0
    ensures left + extra < 0x8000_0000_0000_0000 ==> Wrap64(left + extra) == left + extra
    ensures left < 0x8000_0000_0000_0000 <= left + extra ==> Wrap64(left + extra) < 0
  {
  }

  lemma {:induction false} OverdrawnStays(c: Chunk, h: Host, a: Account, rounds: seq<Round>)
    requires Overdrawn(a)
    ensures Overdrawn(RunRounds(c, h, a, rounds))
    decreases |rounds|
  {
    hide Machine.Run, Charge, Credit, Answered;
    if rounds != [] && a.status.Running? {
      OverdrawnStays(c, h, RunRound(c, h, a, rounds[0]), rounds[1..]);
    }
  }

  lemma AnswerKeepsCount(vm: Vm, answer: Option<(u8, Value)>)
    ensures Answered(vm, answer).executed == vm.executed
  {
  }

  lemma {:induction false} RoundsBalance(c: Chunk, h: Host, a: Account, rounds: seq<Round>, granted: int)
    requires Balanced(a, granted) && OnlyGrants(rounds)
    ensures Balanced(RunRounds(c, h, a, rounds), granted) <==> TopUpsFit(c, h, a, rounds)
    decreases |rounds|
  {
    hide RunRound, RoundFits;
    if rounds != [] && a.status.Running? {
      RoundBalances(c, h, a, rounds[0], granted);
      if RoundFits(c, h, a, rounds[0]) {
        RoundsBalance(c, h, RunRound(c, h, a, rounds[0]), rounds[1..], granted);
      } else {
        OverdrawnStays(c, h, RunRound(c, h, a, rounds[0]), rounds[1..]);
      }
    }
  }

  /**
   Over any run of a flow, with top-ups landing at any point: the remaining budget is the
   initial budget plus all top-ups minus the instructions executed, it is not below zero, no
   charge was refused, and a flow stopped for lack of budget has executed exactly what it was
   granted, if and only if every top-up fits when it counts.
   */
  lemma AccountingIsExact(c: Chunk, h: Host, budget: i64, start: Vm, rounds: seq<Round>)
    requires budget >= 0 && start.executed == 0 && OnlyGrants(rounds)
    ensures var a := RunRounds(c, h, Account(budget, start, 0, Running), rounds);
            (&& a.budget == budget + a.credited - a.vm.executed
             && a.budget >= 0
             && !a.status.Refused?
             && (a.status.Exhausted? ==> a.budget == 0 && a.vm.executed == budget + a.credited))
            <==> TopUpsFit(c, h, Account(budget, start, 0, Running), rounds)
  {
    RoundsBalance(c, h, Account(budget, start, 0, Running), rounds, budget);
  }

  lemma {:induction false} CreditsGrow(rounds: seq<Round>)
    requires OnlyGrants(rounds)
    ensures Credits(rounds) >= 0
  {
    if rounds != [] {
      CreditsGrow(rounds[1..]);
    }
  }

  lemma RoundGains(c: Chunk, h: Host, a: Account, round: Round)
    requires a.budget >= 0 && a.status.Running? && round.during >= 0 && round.afterwards >= 0
    requires a.budget + round.during + round.afterwards < 0x8000_0000_0000_0000
    ensures RoundFits(c, h, a, round)
    ensures 0 <= RunRound(c, h, a, round).budget <= a.budget + round.during + round.afterwards
  {
    hide Machine.Run, Steps, Wrap64, Charge, Answered;
    if a.budget > 0 {
      var slice := Min(round.quantum, a.budget);
      RunCounts(c, h, a.vm, slice);
      var (vm, r) := Machine.Run(c, h, a.vm, slice);
      var cost := vm.executed - a.vm.executed;
      ChargeIsExact(a.(vm := vm), round.during, cost);
      LandsExactly(a.budget + round.during - cost, round.afterwards);
    }
  }

  /** Top-ups that sum up to less than 2^63 with the budget always fit. */
  lemma {:induction false} BoundedCreditsFit(c: Chunk, h: Host, a: Account, rounds: seq<Round>)
    requires a.budget >= 0 && OnlyGrants(rounds) && a.budget + Credits(rounds) < 0x8000_0000_0000_0000
    ensures TopUpsFit(c, h, a, rounds)
    decreases |rounds|
  {
    hide RunRound, RoundFits;
    if rounds != [] && a.status.Running? {
      CreditsGrow(rounds[1..]);
      RoundGains(c, h, a, rounds[0]);
      BoundedCreditsFit(c, h, RunRound(c, h, a, rounds[0]), rounds[1..]);
    }
  }

  /** The bound on top-ups is needed: one past it leaves a running flow nothing at all. */
  lemma OverflowingTopUpStops(c: Chunk, h: Host, a: Account, extra: i64, round: Round)
    requires a.budget >= 0 && extra >= 0 && a.budget + extra >= 0x8000_0000_0000_0000
    ensures RunRound(c, h, Credit(a, extra), round).status == Exhausted
  {
    TopUpIsExact(a.budget, extra);
  }
}
