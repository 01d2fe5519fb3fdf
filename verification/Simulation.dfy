/**
 The code of a statement run by the machine (crates/byteflow/src/bytecode/program.rs on
 crates/byteflow/src/vm/machine.rs): wherever it is placed, it does what the statement
 means within 255 registers.
 */
module Simulation {
  import opened Wrappers
  import opened Values
  import opened Bytecode
  import opened Machine
  import opened Operators
  import opened Lowering

  // ----- the machine running that code -----

  /** Everything about the machine that this code leaves alone. */
  datatype Context = Context(below: seq<Frame>, function_: nat, dest: Option<u8>, nextRequestId: u64)

  function Active(k: Context, pc: nat, regs: seq<Value>, executed: nat): Vm {
    Vm(k.below + [Frame(k.function_, pc, regs, k.dest)], executed, k.nextRequestId)
  }

  /** `n` instructions, all fetched from `[lo, hi)` by the active frame. */
  function Walk(c: Chunk, h: Host, k: Context, m: Vm, n: nat, lo: nat, hi: nat): Option<Vm>
    decreases n
  {
    if n == 0 then Some(m)
    else if !(|m.frames| == |k.below| + 1 && lo <= m.frames[|k.below|].pc < hi) then None
    else
      match Step(c, h, m)
      case Continue(m') => Walk(c, h, k, m', n - 1, lo, hi)
      case Stop(_, _) => None
  }

  lemma {:induction false} WalkThenWalk(c: Chunk, h: Host, k: Context, m: Vm, n1: nat, n2: nat, lo: nat, hi: nat)
    requires Walk(c, h, k, m, n1, lo, hi).Some?
    ensures Walk(c, h, k, m, n1 + n2, lo, hi) == Walk(c, h, k, Walk(c, h, k, m, n1, lo, hi).value, n2, lo, hi)
    decreases n1
  {
    hide Step;
    if n1 > 0 {
      WalkThenWalk(c, h, k, Step(c, h, m).m, n1 - 1, n2, lo, hi);
    }
  }

  lemma {:induction false} WalkWidens(c: Chunk, h: Host, k: Context, m: Vm, n: nat, lo: nat, hi: nat,
                                      lo': nat, hi': nat)
    requires lo' <= lo && hi <= hi' && Walk(c, h, k, m, n, lo, hi).Some?
    ensures Walk(c, h, k, m, n, lo', hi') == Walk(c, h, k, m, n, lo, hi)
    decreases n
  {
    hide Step;
    if n > 0 {
      WalkWidens(c, h, k, Step(c, h, m).m, n - 1, lo, hi, lo', hi');
    }
  }

  lemma {:induction false} WalkPrefix(c: Chunk, h: Host, k: Context, m: Vm, n1: nat, n2: nat, lo: nat, hi: nat)
    requires n1 <= n2 && Walk(c, h, k, m, n2, lo, hi).Some?
    ensures Walk(c, h, k, m, n1, lo, hi).Some?
    decreases n1
  {
    hide Step;
    if n1 > 0 {
      WalkPrefix(c, h, k, Step(c, h, m).m, n1 - 1, n2 - 1, lo, hi);
    }
  }

  /** Whatever the instruction reads exists. */
  predicate Sourced(c: Chunk, regs: seq<Value>, i: Instruction) {
    || i.op.LoadImm?
    || (i.op.LoadConst? && AsU32(i.imm) < |c.constants|)
    || (i.op.Move? && i.b < |regs|)
    || (IsArithmetic(i.op) && i.b < |regs| && i.c < |regs|)
  }

  /** What an instruction of this language would store in its destination. */
  function Product(c: Chunk, h: Host, regs: seq<Value>, i: Instruction): Result<Value, Fault>
    requires Sourced(c, regs, i)
  {
    if i.op.LoadImm? then Ok(Int(i.imm))
    else if i.op.LoadConst? then Ok(c.constants[AsU32(i.imm)])
    else if i.op.Move? then Ok(regs[i.b])
    else Operate(h, i.op, regs[i.b], regs[i.c])
  }

  lemma ReplaceTop(below: seq<Frame>, f: Frame, g: Frame)
    ensures (below + [f])[|below| := g] == below + [g]
  {
  }

  lemma ActiveRegisters(k: Context, pc: nat, regs: seq<Value>, executed: nat, r: u8)
    ensures var m := Active(k, pc, regs, executed);
            && GetReg(m, r) == (if r < |regs| then Ok(regs[r]) else Err(RegisterOutOfRange(r, |regs|)))
            && (forall v :: SetReg(m, r, v) == if r < |regs| then Ok(Active(k, pc, regs[r := v], executed))
                                               else Err(RegisterOutOfRange(r, |regs|)))
  {
    if r < |regs| {
      forall v ensures SetReg(Active(k, pc, regs, executed), r, v) == Ok(Active(k, pc, regs[r := v], executed)) {
        ReplaceTop(k.below, Frame(k.function_, pc, regs, k.dest), Frame(k.function_, pc, regs[r := v], k.dest));
      }
    }
  }

  lemma ActivePc(k: Context, pc: nat, regs: seq<Value>, executed: nat, pc': nat)
    ensures SetPc(Active(k, pc, regs, executed), pc') == Active(k, pc', regs, executed)
  {
    ReplaceTop(k.below, Frame(k.function_, pc, regs, k.dest), Frame(k.function_, pc', regs, k.dest));
  }

  lemma SimpleExec(c: Chunk, h: Host, k: Context, pc: nat, regs: seq<Value>, executed: nat, i: Instruction)
    requires Sourced(c, regs, i)
    ensures var m := Active(k, pc, regs, executed);
            Exec(c, h, m, i) == match Product(c, h, regs, i)
                                case Ok(v) =>
                                  if i.a < |regs| then Ok(Continue(Active(k, pc, regs[i.a := v], executed)))
                                  else Err(RegisterOutOfRange(i.a, |regs|))
                                case Err(fault) => Err(fault)
  {
    ActiveRegisters(k, pc, regs, executed, i.a);
    if i.op.Move? || IsArithmetic(i.op) {
      ActiveRegisters(k, pc, regs, executed, i.b);
    }
    if IsArithmetic(i.op) {
      ActiveRegisters(k, pc, regs, executed, i.c);
      MachineComputes(h, i.op, regs[i.b], regs[i.c]);
    }
    hide GetReg, SetReg, Arithmetic, Operate, Active;
  }

  lemma StepFetches(c: Chunk, h: Host, k: Context, pc: nat, regs: seq<Value>, executed: nat)
    requires pc < |c.code|
    ensures Step(c, h, Active(k, pc, regs, executed))
            == match Exec(c, h, Active(k, pc + 1, regs, executed + 1), c.code[pc])
               case Ok(outcome) => outcome
               case Err(fault) => Stop(Active(k, pc + 1, regs, executed + 1), Trapped(fault))
  {
    hide Exec;
    ActivePc(k, pc, regs, executed + 1, pc + 1);
  }

  /** The next step of the active frame raises `fault`. */
  ghost predicate Traps(c: Chunk, h: Host, m: Vm, fault: Fault) {
    Step(c, h, m).Stop? && Step(c, h, m).result == Trapped(fault)
  }

  /** One instruction that computes a value: it is stored, or a fault is raised. */
  lemma SimpleStep(c: Chunk, h: Host, k: Context, pc: nat, regs: seq<Value>, executed: nat)
    requires pc < |c.code| && Sourced(c, regs, c.code[pc])
    ensures var m, a := Active(k, pc, regs, executed), c.code[pc].a;
            match Product(c, h, regs, c.code[pc])
            case Ok(v) =>
              if a < |regs| then Step(c, h, m) == Continue(Active(k, pc + 1, regs[a := v], executed + 1))
              else Traps(c, h, m, RegisterOutOfRange(a, |regs|))
            case Err(fault) => Traps(c, h, m, fault)
  {
    hide Exec, Step, Active, Product;
    StepFetches(c, h, k, pc, regs, executed);
    SimpleExec(c, h, k, pc + 1, regs, executed + 1, c.code[pc]);
  }

  /** The instruction needs register 255, which no frame has. */
  ghost predicate Missing(regs: seq<Value>, i: Instruction) {
    && |regs| == MAX_REGISTERS
    && (|| (i.op.LoadImm? && i.a >= |regs|)
        || (i.op.Move? && i.b >= |regs|)
        || (IsArithmetic(i.op) && (i.b >= |regs| || i.c >= |regs|)))
  }

  lemma MissingStep(c: Chunk, h: Host, k: Context, pc: nat, regs: seq<Value>, executed: nat)
    requires pc < |c.code| && Missing(regs, c.code[pc])
    ensures Traps(c, h, Active(k, pc, regs, executed), NO_REGISTER)
  {
    var i := c.code[pc];
    StepFetches(c, h, k, pc, regs, executed);
    ActiveRegisters(k, pc + 1, regs, executed + 1, i.a);
    ActiveRegisters(k, pc + 1, regs, executed + 1, i.b);
    ActiveRegisters(k, pc + 1, regs, executed + 1, i.c);
    hide Step, GetReg, SetReg, Arithmetic, Active;
  }

  lemma JumpStep(c: Chunk, h: Host, k: Context, pc: nat, regs: seq<Value>, executed: nat)
    requires pc < |c.code| && c.code[pc].op.Jump? && pc + 1 + c.code[pc].imm >= 0
    ensures Step(c, h, Active(k, pc, regs, executed))
            == Continue(Active(k, pc + 1 + c.code[pc].imm, regs, executed + 1))
  {
    StepFetches(c, h, k, pc, regs, executed);
    ActivePc(k, pc + 1, regs, executed + 1, pc + 1 + c.code[pc].imm);
    hide Step, SetPc;
  }

  /** The values a branch jumps on. */
  const FALSE_VALUES: set<Value> := {Unit, Bool(false), Int(0), Str([]), Bytes([])}

  /** A branch jumps on exactly those, and goes on to the next instruction on any other value. */
  lemma BranchStep(c: Chunk, h: Host, k: Context, pc: nat, regs: seq<Value>, executed: nat)
    requires pc < |c.code| && c.code[pc].op.Branch? && c.code[pc].a < |regs| && pc + 1 + c.code[pc].imm >= 0
    ensures var target := if regs[c.code[pc].a] in FALSE_VALUES then pc + 1 + c.code[pc].imm else pc + 1;
            Step(c, h, Active(k, pc, regs, executed)) == Continue(Active(k, target, regs, executed + 1))
  {
    StepFetches(c, h, k, pc, regs, executed);
    ActiveRegisters(k, pc + 1, regs, executed + 1, c.code[pc].a);
    ActivePc(k, pc + 1, regs, executed + 1, pc + 1 + c.code[pc].imm);
    hide Step, SetPc, GetReg;
  }

  lemma WalkOne(c: Chunk, h: Host, k: Context, pc: nat, regs: seq<Value>, executed: nat, m: Vm, lo: nat, hi: nat)
    requires lo <= pc < hi && Step(c, h, Active(k, pc, regs, executed)) == Continue(m)
    ensures Walk(c, h, k, Active(k, pc, regs, executed), 1, lo, hi) == Some(m)
  {
    hide Step;
    assert Walk(c, h, k, m, 0, lo, hi) == Some(m);
  }

  lemma WalkNothing(c: Chunk, h: Host, k: Context, m: Vm, lo: nat, hi: nat)
    ensures Walk(c, h, k, m, 0, lo, hi) == Some(m)
  {
  }

  // ----- the registers stand for the store -----

  /** Every handle that has a register finds its variable's value there. */
  ghost predicate Carries(regs: seq<Value>, vars: seq<u8>, store: Store) {
    |vars| == |store| && forall x :: 0 <= x < |vars| && vars[x] < |regs| ==> regs[vars[x]] == store[x]
  }

  ghost predicate CodeAt(c: Chunk, at: nat, code: seq<Instruction>) {
    at + |code| <= |c.code| && c.code[at..at + |code|] == code
  }

  /** A statement's code sits at `at`, and `f` is the layout of the finished function. */
  ghost predicate Sited(c: Chunk, s: Stmt, l: Layout, f: Layout, at: nat) {
    && Scoped(s, |l.vars|)
    && Tidy(l) && Tidy(f) && Extends(Compile(s, l).1, f)
    && f.pool <= c.constants && |c.constants| <= 0x1_0000_0000
    && |c.code| < 0x8000_0000
    && CodeAt(c, at, Compile(s, l).0)
  }

  lemma SitedVars(c: Chunk, s: Stmt, l: Layout, f: Layout, at: nat)
    requires Sited(c, s, l, f, at)
    ensures Extends(l, f) && Tidy(f) && Tidy(Compile(s, l).1) && |l.vars| + Lets(s) <= |f.vars|
    ensures |Compile(s, l).1.vars| == |l.vars| + Lets(s)
    ensures forall x :: 0 <= x < |l.vars| ==> Reg(l, x) == f.vars[x]
    ensures forall x :: 0 <= x < |l.vars| + Lets(s) ==> Reg(Compile(s, l).1, x) == f.vars[x]
  {
    CompileGrows(s, l);
    CompileExtends(s, l);
    ExtendsTrans(l, Compile(s, l).1, f);
  }

  lemma CodeAtParts(c: Chunk, at: nat, a: seq<Instruction>, b: seq<Instruction>)
    requires CodeAt(c, at, a + b)
    ensures CodeAt(c, at, a) && CodeAt(c, at + |a|, b)
  {
    var whole := c.code[at..at + |a + b|];
    assert c.code[at..at + |a|] == whole[..|a|] == a;
    assert c.code[at + |a|..at + |a| + |b|] == whole[|a|..] == b;
  }

  lemma SitedThen(c: Chunk, a: Stmt, b: Stmt, l: Layout, f: Layout, at: nat)
    requires Sited(c, Then(a, b), l, f, at)
    ensures Sited(c, a, l, f, at) && Sited(c, b, Compile(a, l).1, f, at + |Compile(a, l).0|)
  {
    hide Tidy, Extends, CodeAt;
    var (first, l1) := Compile(a, l);
    CompileGrows(a, l);
    CompileExtends(a, l);
    CompileExtends(b, l1);
    ExtendsTrans(l1, Compile(b, l1).1, f);
    CodeAtParts(c, at, first, Compile(b, l1).0);
  }

  lemma SitedBody(c: Chunk, counter: Var, limit: Var, body: Stmt, l: Layout, f: Layout, at: nat)
    requires Sited(c, WhileLt(counter, limit, body), l, f, at)
    ensures Sited(c, body, Local(l).1, f, at + 2)
    ensures var code := Compile(body, Local(l).1).0;
            && at + |code| + 3 <= |c.code|
            && |Compile(WhileLt(counter, limit, body), l).0| == |code| + 3
            && c.code[at..at + 2] == LoopHead(Local(l).0, Reg(l, counter), Reg(l, limit), |code|)
            && c.code[at + 2 + |code|] == LoopBack(|code|)
  {
    hide CodeAt, Tidy, Extends, Compile, LoopHead, LoopBack;
    LocalIsTidy(l);
    LoopCode(counter, limit, body, l);
    LoopHeadLength(Local(l).0, Reg(l, counter), Reg(l, limit), |Compile(body, Local(l).1).0|);
    var (cond, l1) := Local(l);
    var code := Compile(body, l1).0;
    LoopParts(c, at, LoopHead(cond, Reg(l, counter), Reg(l, limit), |code|), code, LoopBack(|code|));
  }

  lemma LoopHeadLength(cond: u8, counter: u8, limit: u8, bodyLength: nat)
    ensures |LoopHead(cond, counter, limit, bodyLength)| == 2
  {
  }

  lemma LoopParts(c: Chunk, at: nat, head: seq<Instruction>, code: seq<Instruction>, back: Instruction)
    requires CodeAt(c, at, head + code + [back]) && |head| == 2
    ensures at + |code| + 3 <= |c.code| && c.code[at..at + 2] == head
    ensures CodeAt(c, at + 2, code) && c.code[at + 2 + |code|] == back
  {
    CodeAtParts(c, at, head + code, [back]);
    CodeAtParts(c, at, head, code);
    assert c.code[at + 2 + |code|] == c.code[at + 2 + |code|..at + 2 + |code| + 1][0];
  }

  /** Writing a handle's register writes that variable and no other. */
  lemma CarriesWrite(regs: seq<Value>, f: Layout, store: Store, x: Var, v: Value)
    requires Tidy(f) && Carries(regs, f.vars, store) && x < |store| && f.vars[x] < |regs| <= MAX_REGISTERS
    ensures Carries(regs[f.vars[x] := v], f.vars, store[x := v])
  {
  }

  /** Writing a register that belongs to no handle writes no variable. */
  lemma CarriesHidden(regs: seq<Value>, f: Layout, store: Store, r: u8, v: Value)
    requires Carries(regs, f.vars, store) && r < |regs| && r !in f.vars
    ensures Carries(regs[r := v], f.vars, store)
  {
  }

  /** The condition register of a loop is nobody's handle, now or later. */
  lemma CondIsHidden(c: Chunk, counter: Var, limit: Var, body: Stmt, l: Layout, f: Layout, at: nat)
    requires Sited(c, WhileLt(counter, limit, body), l, f, at)
    ensures l.next < f.next && (l.next < MAX_REGISTERS ==> l.next !in f.vars)
  {
    SitedBody(c, counter, limit, body, l, f, at);
    SitedVars(c, body, Local(l).1, f, at + 2);
    forall i | 0 <= i < |f.vars| && l.next < MAX_REGISTERS ensures f.vars[i] != l.next {
      if i < |l.vars| {
        assert f.vars[i] == l.vars[i];
      }
    }
  }

  /** So is the scratch register, once it has been taken. */
  lemma ScratchIsHidden(l: Layout, f: Layout)
    requires Extends(Temp(l).1, f) && Tidy(l) && Tidy(f)
    ensures Temp(l).0 < f.next && (Temp(l).0 < MAX_REGISTERS ==> Temp(l).0 !in f.vars)
  {
  }

  // ----- the simulation -----

  /** What running the code of a statement amounts to, for one meaning of it. */
  ghost predicate Simulated(c: Chunk, h: Host, k: Context, f: Layout, lo: nat, hi: nat,
                            regs: seq<Value>, executed: nat,
                            meaning: Meaning, fuel: nat, n: nat, pc: nat, regs': seq<Value>)
  {
    && Walk(c, h, k, Active(k, lo, regs, executed), n, lo, hi) == Some(Active(k, pc, regs', executed + n))
    && |regs'| == Saturated(f.next)
    && match meaning
       case Done(store) => pc == hi && Carries(regs', f.vars, store)
       case Stuck(fault) => lo <= pc < hi && Traps(c, h, Active(k, pc, regs', executed + n), fault)
       case Busy => n >= fuel && lo <= pc < hi
  }

  /** What a value computed for handle `x` leaves of the store. */
  function Stored(r: Result<Value, Fault>, store: Store, x: Var, dst: u8): Meaning
    requires x < |store|
  {
    Landed(Bind(r, store, x), dst)
  }

  /** The code of a single-instruction statement stores the product, or raises a fault. */
  lemma SimulateOne(c: Chunk, h: Host, k: Context, f: Layout, lo: nat, regs: seq<Value>, executed: nat,
                    store: Store, x: Var, fuel: nat)
    returns (n: nat, pc: nat, regs': seq<Value>)
    requires Tidy(f) && |regs| == Saturated(f.next) && Carries(regs, f.vars, store) && x < |store|
    requires lo < |c.code| && Sourced(c, regs, c.code[lo]) && c.code[lo].a == f.vars[x]
    ensures Simulated(c, h, k, f, lo, lo + 1, regs, executed,
                      Stored(Product(c, h, regs, c.code[lo]), store, x, c.code[lo].a), fuel, n, pc, regs')
  {
    hide Step, Active, Product, Sourced;
    var a := c.code[lo].a;
    SimpleStep(c, h, k, lo, regs, executed);
    n, pc, regs' := 0, lo, regs;
    WalkNothing(c, h, k, Active(k, lo, regs, executed), lo, lo + 1);
    match Product(c, h, regs, c.code[lo]) {
      case Ok(v) =>
        if a < |regs| {
          n, pc, regs' := 1, lo + 1, regs[a := v];
          CarriesWrite(regs, f, store, x, v);
          WalkOne(c, h, k, lo, regs, executed, Active(k, pc, regs', executed + 1), lo, lo + 1);
        }
      case Err(_) =>
    }
  }

  /** Code that starts with an instruction that lacks a register raises that fault. */
  lemma SimulateMissing(c: Chunk, h: Host, k: Context, f: Layout, lo: nat, hi: nat, regs: seq<Value>, executed: nat,
                        fuel: nat)
    requires lo < hi && lo < |c.code| && |regs| == Saturated(f.next) && Missing(regs, c.code[lo])
    ensures Simulated(c, h, k, f, lo, hi, regs, executed, Stuck(NO_REGISTER), fuel, 0, lo, regs)
  {
    hide Step, Active, Missing;
    MissingStep(c, h, k, lo, regs, executed);
    WalkNothing(c, h, k, Active(k, lo, regs, executed), lo, hi);
  }

  /** A walk to `a`, then the simulation of a part `[a, b)` of the code. */
  lemma Chain(c: Chunk, h: Host, k: Context, f: Layout, lo: nat, hi: nat, a: nat, b: nat,
              regs: seq<Value>, executed: nat, n1: nat, regs1: seq<Value>,
              meaning: Meaning, fuel1: nat, n2: nat, pc: nat, regs2: seq<Value>, fuel: nat)
    requires lo <= a && b <= hi && (meaning.Done? ==> b == hi) && fuel <= n1 + fuel1
    requires Walk(c, h, k, Active(k, lo, regs, executed), n1, lo, hi) == Some(Active(k, a, regs1, executed + n1))
    requires Simulated(c, h, k, f, a, b, regs1, executed + n1, meaning, fuel1, n2, pc, regs2)
    ensures Simulated(c, h, k, f, lo, hi, regs, executed, meaning, fuel, n1 + n2, pc, regs2)
  {
    hide Walk, Active, Step, Carries;
    var mid := Active(k, a, regs1, executed + n1);
    WalkWidens(c, h, k, mid, n2, a, b, lo, hi);
    WalkThenWalk(c, h, k, Active(k, lo, regs, executed), n1, n2, lo, hi);
    assert executed + n1 + n2 == executed + (n1 + n2);
  }

  // ----- statements of one or two instructions -----

  /** The last instruction of such a statement, seen from its registers: it computes the confined meaning. */
  ghost predicate Computes(c: Chunk, h: Host, s: Stmt, l: Layout, f: Layout, i: Instruction, regs: seq<Value>,
                           store: Store, fuel: nat)
    requires Basic(s)
    requires |l.vars| + Lets(s) <= |store| && Scoped(s, |l.vars|) && s.x < |f.vars| && s.x < |store|
  {
    if Readable(s, l) then
      && Sourced(c, regs, i) && i.a == f.vars[s.x]
      && Stored(Product(c, h, regs, i), store, s.x, i.a) == Confined(h, s, l, store, fuel)
    else Missing(regs, i)
  }

  /** Where the code of such a statement is found, and which register it writes last. */
  lemma Destination(c: Chunk, s: Stmt, l: Layout, f: Layout, lo: nat)
    requires Basic(s) && Sited(c, s, l, f, lo)
    ensures |Compile(s, l).0| == (if UsesScratch(s) then 2 else 1)
    ensures lo + |Compile(s, l).0| <= |c.code|
    ensures c.code[lo] == Compile(s, l).0[0]
    ensures UsesScratch(s) ==> c.code[lo + 1] == Compile(s, l).0[1]
    ensures s.x < |f.vars| && Reg(Compile(s, l).1, s.x) == f.vars[s.x]
    ensures Compile(s, l).0[if UsesScratch(s) then 1 else 0].a == f.vars[s.x]
  {
    hide Tidy, Extends;
    SitedVars(c, s, l, f, lo);
    var (code, l1) := Compile(s, l);
    ExtendsVars(l1, f);
    assert c.code[lo] == c.code[lo..lo + |code|][0];
    assert |code| == 2 ==> c.code[lo + 1] == c.code[lo..lo + |code|][1];
  }

  lemma ExtendsVars(l: Layout, m: Layout)
    requires Extends(l, m)
    ensures l.vars <= m.vars && l.pool <= m.pool && l.next <= m.next
  {
  }

  /** A handle's register exists, or it is 255 and the frame has 255. */
  lemma RegisterOrNone(c: Chunk, s: Stmt, l: Layout, f: Layout, at: nat, regs: seq<Value>)
    requires Sited(c, s, l, f, at) && |regs| == Saturated(f.next)
    ensures Placed(l, f.vars, regs)
  {
    SitedVars(c, s, l, f, at);
  }

  /** Handles of `l` find their registers in `vars`, or have none. */
  ghost predicate Placed(l: Layout, vars: seq<u8>, regs: seq<Value>) {
    && |l.vars| <= |vars|
    && forall x :: 0 <= x < |l.vars| ==>
         Reg(l, x) == vars[x] && (vars[x] < |regs| || |regs| == MAX_REGISTERS <= vars[x])
  }

  lemma OneReads(c: Chunk, h: Host, s: Stmt, l: Layout, vars: seq<u8>, regs: seq<Value>, store: Store, fuel: nat)
    requires Basic(s) && !UsesScratch(s) && Readable(s, l)
    requires |l.vars| + Lets(s) <= |store| && Scoped(s, |l.vars|)
    requires Placed(l, vars, regs) && Carries(regs, vars, store)
    requires |Compile(s, l).0| == 1 && s.x < |store|
    requires var imm := Compile(s, l).0[0].imm;
             s.LetInt? ==> AsU32(imm) < |c.constants| && c.constants[AsU32(imm)] == Int(s.n)
    ensures var i := Compile(s, l).0[0];
            && Sourced(c, regs, i)
            && Bind(Product(c, h, regs, i), store, s.x) == Eval(h, s, |l.vars|, store, fuel)
  {
    hide Operate, AsU32, Wrap32, Temp, PoolIndex;
    assert s.Mov? || s.LetBinop? ==> s.y in Operands(s);
    assert s.LetBinop? ==> s.z in Operands(s);
  }

  lemma OneMisses(s: Stmt, l: Layout, vars: seq<u8>, regs: seq<Value>)
    requires Basic(s) && !UsesScratch(s) && !Readable(s, l) && Scoped(s, |l.vars|)
    requires Placed(l, vars, regs) && |regs| <= MAX_REGISTERS && |Compile(s, l).0| == 1
    ensures Missing(regs, Compile(s, l).0[0])
  {
    hide Wrap32, Temp, PoolIndex;
  }

  /** The only instruction of such a statement, fed with the store's values, computes its meaning. */
  lemma OneCode(c: Chunk, h: Host, s: Stmt, l: Layout, f: Layout, lo: nat, regs: seq<Value>, store: Store, fuel: nat)
    requires Basic(s) && !UsesScratch(s)
    requires Sited(c, s, l, f, lo) && |store| == |f.vars|
    requires |l.vars| + Lets(s) <= |store| && Scoped(s, |l.vars|)
    requires |regs| == Saturated(f.next) && Carries(regs, f.vars, store)
    ensures |Compile(s, l).0| == 1 && lo < |c.code| && s.x < |store|
    ensures Computes(c, h, s, l, f, c.code[lo], regs, store, fuel)
  {
    hide Carries, Readable, Sourced, Product, Eval, Placed, Missing, CodeAt, Tidy, Extends, Bind;
    Destination(c, s, l, f, lo);
    RegisterOrNone(c, s, l, f, lo, regs);
    OnePool(c, s, l, f, lo);
    hide Compile, Sited;
    if Readable(s, l) {
      OneReads(c, h, s, l, f.vars, regs, store, fuel);
    } else {
      OneMisses(s, l, f.vars, regs);
    }
  }

  lemma OnePool(c: Chunk, s: Stmt, l: Layout, f: Layout, lo: nat)
    requires Basic(s) && !UsesScratch(s) && Sited(c, s, l, f, lo) && |Compile(s, l).0| == 1
    ensures var imm := Compile(s, l).0[0].imm;
            s.LetInt? ==> AsU32(imm) < |c.constants| && c.constants[AsU32(imm)] == Int(s.n)
  {
    hide Tidy, Extends, CodeAt, AsU32, Wrap32, PoolIndex;
    SitedPool(c, s, l, f, lo);
    if s.LetInt? {
      PooledConstant(c.constants, l, s.n);
    }
  }

  lemma PooledConstant(constants: seq<Value>, l: Layout, k: i64)
    requires Pooled(l, Int(k)).1.pool <= constants && |constants| <= 0x1_0000_0000
    ensures var i := AsU32(Wrap32(PoolIndex(l.pool, Int(k)))); i < |constants| && constants[i] == Int(k)
  {
    hide AsU32, Wrap32;
    var i := PoolIndex(l.pool, Int(k));
    var pool := Pooled(l, Int(k)).1.pool;
    assert i < |pool| && pool[i] == Int(k) == constants[i];
    IndexSurvives(i);
  }

  lemma SitedPool(c: Chunk, s: Stmt, l: Layout, f: Layout, at: nat)
    requires Sited(c, s, l, f, at)
    ensures Compile(s, l).1.pool <= c.constants && |c.constants| <= 0x1_0000_0000
  {
    hide Tidy, CodeAt, Compile, Scoped;
  }

  /** The same for the second instruction, after the first has loaded the scratch register. */
  lemma ScratchCode(c: Chunk, h: Host, s: Stmt, l: Layout, f: Layout, lo: nat, regs: seq<Value>, store: Store,
                    fuel: nat)
    requires UsesScratch(s) && Temp(l).0 < |regs|
    requires Sited(c, s, l, f, lo) && |store| == |f.vars|
    requires |l.vars| + Lets(s) <= |store| && Scoped(s, |l.vars|)
    requires |regs| == Saturated(f.next) && Carries(regs[Temp(l).0 := Int(s.imm)], f.vars, store)
    ensures |Compile(s, l).0| == 2 && lo + 1 < |c.code| && s.x < |store|
    ensures c.code[lo] == LoadImmTo(Temp(l).0, s.imm)
    ensures Computes(c, h, s, l, f, c.code[lo + 1], regs[Temp(l).0 := Int(s.imm)], store, fuel)
  {
    hide Carries, Readable, Sourced, Product, Eval, Placed, Missing, CodeAt, Tidy, Extends, Bind;
    Destination(c, s, l, f, lo);
    RegisterOrNone(c, s, l, f, lo, regs);
    TwoCode(s, l);
    hide Compile, Sited;
    var regs1 := regs[Temp(l).0 := Int(s.imm)];
    PlacedStill(l, f.vars, regs, regs1);
    if Readable(s, l) {
      TwoReads(c, h, s, l, f.vars, regs1, store, fuel);
    } else {
      TwoMisses(s, l, f.vars, regs1);
    }
  }

  lemma TwoCode(s: Stmt, l: Layout)
    requires UsesScratch(s)
    ensures |Compile(s, l).0| == 2 && Compile(s, l).0[0] == LoadImmTo(Temp(l).0, s.imm)
  {
    hide Temp;
  }

  lemma PlacedStill(l: Layout, vars: seq<u8>, regs: seq<Value>, regs': seq<Value>)
    requires Placed(l, vars, regs) && |regs'| == |regs|
    ensures Placed(l, vars, regs')
  {
  }

  lemma TempKeeps(l: Layout)
    ensures Temp(l).1.vars == l.vars
  {
  }

  lemma TwoReads(c: Chunk, h: Host, s: Stmt, l: Layout, vars: seq<u8>, regs: seq<Value>, store: Store, fuel: nat)
    requires UsesScratch(s) && Readable(s, l)
    requires |l.vars| + Lets(s) <= |store| && Scoped(s, |l.vars|)
    requires Placed(l, vars, regs) && Carries(regs, vars, store)
    requires |Compile(s, l).0| == 2 && s.x < |store|
    requires Temp(l).0 < |regs| && regs[Temp(l).0] == Int(s.imm)
    ensures var i := Compile(s, l).0[1];
            && Sourced(c, regs, i)
            && Bind(Product(c, h, regs, i), store, s.x) == Eval(h, s, |l.vars|, store, fuel)
  {
    hide Operate, Temp;
    TempKeeps(l);
    var operand := if s.AddImm? then s.x else s.y;
    assert operand in Operands(s);
  }

  lemma TwoMisses(s: Stmt, l: Layout, vars: seq<u8>, regs: seq<Value>)
    requires UsesScratch(s) && !Readable(s, l) && Scoped(s, |l.vars|)
    requires Placed(l, vars, regs) && |regs| <= MAX_REGISTERS && |Compile(s, l).0| == 2 && Temp(l).0 < |regs|
    ensures Missing(regs, Compile(s, l).0[1])
  {
    hide Temp;
    TempKeeps(l);
  }

  lemma ScratchExtends(c: Chunk, s: Stmt, l: Layout, f: Layout, lo: nat)
    requires UsesScratch(s) && Sited(c, s, l, f, lo)
    ensures Extends(Temp(l).1, f)
  {
    TempExtends(l);
    var t := Temp(l).1;
    if s.LetBinopImm? {
      NamedExtends(t);
      ExtendsTrans(t, Named(t).1, f);
    }
  }

  lemma SimulateLast(c: Chunk, h: Host, k: Context, s: Stmt, l: Layout, f: Layout, lo: nat,
                     regs: seq<Value>, executed: nat, store: Store, fuel: nat)
    returns (n: nat, pc: nat, regs': seq<Value>)
    requires Basic(s) && Tidy(f) && |store| == |f.vars| && s.x < |store| && lo < |c.code|
    requires |l.vars| + Lets(s) <= |store| && Scoped(s, |l.vars|)
    requires |regs| == Saturated(f.next) && Carries(regs, f.vars, store)
    requires Computes(c, h, s, l, f, c.code[lo], regs, store, fuel)
    ensures Simulated(c, h, k, f, lo, lo + 1, regs, executed, Confined(h, s, l, store, fuel), fuel, n, pc, regs')
  {
    hide Simulated, Carries, Tidy, Sourced, Missing, Readable, Eval, Compile;
    if Readable(s, l) {
      n, pc, regs' := SimulateOne(c, h, k, f, lo, regs, executed, store, s.x, fuel);
    } else {
      n, pc, regs' := 0, lo, regs;
      SimulateMissing(c, h, k, f, lo, lo + 1, regs, executed, fuel);
    }
  }

  /** Loading the scratch register, then the instruction that uses it. */
  lemma SimulateWithScratch(c: Chunk, h: Host, k: Context, s: Stmt, l: Layout, f: Layout, lo: nat,
                            regs: seq<Value>, executed: nat, store: Store, fuel: nat)
    returns (n: nat, pc: nat, regs': seq<Value>)
    requires UsesScratch(s) && Temp(l).0 < |regs|
    requires Sited(c, s, l, f, lo) && |store| == |f.vars|
    requires |l.vars| + Lets(s) <= |store| && Scoped(s, |l.vars|)
    requires |regs| == Saturated(f.next) && Carries(regs, f.vars, store)
    ensures Simulated(c, h, k, f, lo, lo + 2, regs, executed, Confined(h, s, l, store, fuel), fuel, n, pc, regs')
  {
    hide Step, Active, Walk, Simulated, Compile, Confined, Computes, Extends, CodeAt, Readable;
    var t, regs1 := Temp(l).0, regs[Temp(l).0 := Int(s.imm)];
    ScratchExtends(c, s, l, f, lo);
    ScratchIsHidden(l, f);
    CarriesHidden(regs, f, store, t, Int(s.imm));
    ScratchCode(c, h, s, l, f, lo, regs, store, fuel);
    hide Temp, Carries;
    SimpleStep(c, h, k, lo, regs, executed);
    WalkOne(c, h, k, lo, regs, executed, Active(k, lo + 1, regs1, executed + 1), lo, lo + 2);
    n, pc, regs' := SimulateLast(c, h, k, s, l, f, lo + 1, regs1, executed + 1, store, fuel);
    Chain(c, h, k, f, lo, lo + 2, lo + 1, lo + 2, regs, executed, 1, regs1, Confined(h, s, l, store, fuel), fuel,
          n, pc, regs', fuel);
    n := 1 + n;
  }

  /** No register is left for the scratch value. */
  lemma SimulateNoScratch(c: Chunk, h: Host, k: Context, s: Stmt, l: Layout, f: Layout, lo: nat,
                          regs: seq<Value>, executed: nat, store: Store, fuel: nat)
    requires UsesScratch(s) && Temp(l).0 >= |regs|
    requires Sited(c, s, l, f, lo) && |store| == |f.vars|
    requires |l.vars| + Lets(s) <= |store| && Scoped(s, |l.vars|)
    requires |regs| == Saturated(f.next)
    ensures Simulated(c, h, k, f, lo, lo + 2, regs, executed, Confined(h, s, l, store, fuel), fuel, 0, lo, regs)
  {
    hide Step, Active, Walk, Simulated, Extends, CodeAt;
    Destination(c, s, l, f, lo);
    ScratchExtends(c, s, l, f, lo);
    ScratchIsHidden(l, f);
    SimulateMissing(c, h, k, f, lo, lo + 2, regs, executed, fuel);
  }

  lemma SimulateBasic(c: Chunk, h: Host, k: Context, s: Stmt, l: Layout, f: Layout, lo: nat,
                      regs: seq<Value>, executed: nat, store: Store, fuel: nat)
    returns (n: nat, pc: nat, regs': seq<Value>)
    requires Basic(s)
    requires Sited(c, s, l, f, lo) && |store| == |f.vars|
    requires |l.vars| + Lets(s) <= |store| && Scoped(s, |l.vars|)
    requires |regs| == Saturated(f.next) && Carries(regs, f.vars, store)
    ensures Simulated(c, h, k, f, lo, lo + |Compile(s, l).0|, regs, executed, Confined(h, s, l, store, fuel), fuel,
                      n, pc, regs')
  {
    hide Simulated, Compile, Computes, Confined, Eval, Carries, Extends, CodeAt, Temp, Tidy;
    Destination(c, s, l, f, lo);
    if !UsesScratch(s) {
      OneCode(c, h, s, l, f, lo, regs, store, fuel);
      n, pc, regs' := SimulateLast(c, h, k, s, l, f, lo, regs, executed, store, fuel);
    } else if Temp(l).0 < |regs| {
      n, pc, regs' := SimulateWithScratch(c, h, k, s, l, f, lo, regs, executed, store, fuel);
    } else {
      n, pc, regs' := 0, lo, regs;
      SimulateNoScratch(c, h, k, s, l, f, lo, regs, executed, store, fuel);
    }
  }

  // ----- loops -----

  /** The comparison at the head of a loop, and the branch after it. */
  lemma HeadCode(c: Chunk, counter: Var, limit: Var, body: Stmt, l: Layout, f: Layout, lo: nat, hi: nat,
                 regs: seq<Value>, store: Store)
    requires Sited(c, WhileLt(counter, limit, body), l, f, lo) && hi == lo + |Compile(body, Local(l).1).0| + 3
    requires |regs| == Saturated(f.next) && Carries(regs, f.vars, store)
    ensures counter < |store| && limit < |store| && lo + 1 < |c.code|
    ensures var i := c.code[lo];
            && i.op.Lt? && i.a == Local(l).0
            && if Reg(l, counter) < MAX_REGISTERS && Reg(l, limit) < MAX_REGISTERS then
                 i.b < |regs| && i.c < |regs| && regs[i.b] == store[counter] && regs[i.c] == store[limit]
               else Missing(regs, i)
    ensures var i := c.code[lo + 1]; i.op.Branch? && i.a == Local(l).0 && lo + 2 + i.imm == hi
  {
    hide Tidy, Extends, Sited, CodeAt, Compile;
    var s := WhileLt(counter, limit, body);
    SitedScoped(c, s, l, f, lo);
    RegisterOrNone(c, s, l, f, lo, regs);
    SitedBody(c, counter, limit, body, l, f, lo);
    var code := Compile(body, Local(l).1).0;
    var head := LoopHead(Local(l).0, Reg(l, counter), Reg(l, limit), |code|);
    assert c.code[lo] == c.code[lo..lo + 2][0] == head[0];
    assert c.code[lo + 1] == c.code[lo..lo + 2][1] == head[1];
  }

  /** The first instruction of a loop: the comparison, when all registers it needs exist. */
  lemma CompareStep(c: Chunk, h: Host, k: Context, counter: Var, limit: Var, body: Stmt, l: Layout, f: Layout,
                    lo: nat, hi: nat, regs: seq<Value>, executed: nat, store: Store)
    requires Sited(c, WhileLt(counter, limit, body), l, f, lo) && hi == lo + |Compile(body, Local(l).1).0| + 3
    requires |regs| == Saturated(f.next) && Carries(regs, f.vars, store)
    ensures counter < |store| && limit < |store| && lo + 1 < |c.code|
    ensures var m := Active(k, lo, regs, executed);
            match Compared(h, counter, limit, l, store)
            case Err(fault) => Traps(c, h, m, fault)
            case Ok(more) =>
              && l.next < |regs|
              && Step(c, h, m) == Continue(Active(k, lo + 1, regs[l.next := Bool(more)], executed + 1))
  {
    hide Step, Active, Tidy, Extends, Sited, CodeAt, Compile, Operate, GoesOn, Carries;
    HeadCode(c, counter, limit, body, l, f, lo, hi, regs, store);
    CondIsHidden(c, counter, limit, body, l, f, lo);
    if Reg(l, counter) < MAX_REGISTERS && Reg(l, limit) < MAX_REGISTERS {
      GoesOnIsLess(h, store[counter], store[limit]);
      SimpleStep(c, h, k, lo, regs, executed);
    } else {
      MissingStep(c, h, k, lo, regs, executed);
    }
  }

  /** The loop head: compare, then enter the body or leave. */
  lemma SimulateHead(c: Chunk, h: Host, k: Context, counter: Var, limit: Var, body: Stmt, l: Layout, f: Layout,
                     lo: nat, hi: nat, regs: seq<Value>, executed: nat, store: Store)
    returns (regs': seq<Value>)
    requires Sited(c, WhileLt(counter, limit, body), l, f, lo) && hi == lo + |Compile(body, Local(l).1).0| + 3
    requires |regs| == Saturated(f.next) && Carries(regs, f.vars, store)
    ensures counter < |store| && limit < |store| && |regs'| == Saturated(f.next)
    ensures match Compared(h, counter, limit, l, store)
            case Err(fault) => Traps(c, h, Active(k, lo, regs, executed), fault)
            case Ok(more) =>
              && Carries(regs', f.vars, store)
              && Walk(c, h, k, Active(k, lo, regs, executed), 2, lo, hi)
                 == Some(Active(k, if more then lo + 2 else hi, regs', executed + 2))
  {
    hide Step, Active, Tidy, Extends, Walk, Sited, CodeAt, Compile, Operate, GoesOn, IsTruthy, Carries, Missing;
    CompareStep(c, h, k, counter, limit, body, l, f, lo, hi, regs, executed, store);
    HeadCode(c, counter, limit, body, l, f, lo, hi, regs, store);
    CondIsHidden(c, counter, limit, body, l, f, lo);
    regs' := regs;
    match Compared(h, counter, limit, l, store) {
      case Err(_) =>
      case Ok(more) =>
        GoesOnIsLess(h, store[counter], store[limit]);
        regs' := regs[l.next := Bool(more)];
        CarriesHidden(regs, f, store, l.next, Bool(more));
        WalkOne(c, h, k, lo, regs, executed, Active(k, lo + 1, regs', executed + 1), lo, hi);
        BranchStep(c, h, k, lo + 1, regs', executed + 1);
        var pc := if more then lo + 2 else hi;
        WalkOne(c, h, k, lo + 1, regs', executed + 1, Active(k, pc, regs', executed + 2), lo, hi);
        WalkThenWalk(c, h, k, Active(k, lo, regs, executed), 1, 1, lo, hi);
    }
  }

  lemma SitedScoped(c: Chunk, s: Stmt, l: Layout, f: Layout, at: nat)
    requires Sited(c, s, l, f, at)
    ensures Scoped(s, |l.vars|) && |c.code| < 0x8000_0000 && Tidy(f)
    ensures at + |Compile(s, l).0| <= |c.code|
  {
  }

  /** The jump back from the end of the body to the loop head. */
  lemma LoopsBack(c: Chunk, h: Host, k: Context, counter: Var, limit: Var, body: Stmt, l: Layout, f: Layout,
                  lo: nat, regs: seq<Value>, executed: nat)
    requires Sited(c, WhileLt(counter, limit, body), l, f, lo)
    ensures var at := lo + 2 + |Compile(body, Local(l).1).0|;
            Walk(c, h, k, Active(k, at, regs, executed), 1, lo, at + 1) == Some(Active(k, lo, regs, executed + 1))
  {
    hide Step, Active, Walk, Tidy, Extends, Sited, CodeAt, Compile;
    SitedScoped(c, WhileLt(counter, limit, body), l, f, lo);
    SitedBody(c, counter, limit, body, l, f, lo);
    var at := lo + 2 + |Compile(body, Local(l).1).0|;
    JumpStep(c, h, k, at, regs, executed);
    WalkOne(c, h, k, at, regs, executed, Active(k, lo, regs, executed + 1), lo, at + 1);
  }

  /** One round of the loop whose body finishes, landing on the loop head again. */
  lemma RoundTrip(c: Chunk, h: Host, k: Context, counter: Var, limit: Var, body: Stmt, l: Layout, f: Layout,
                  lo: nat, hi: nat, regs: seq<Value>, executed: nat, regs1: seq<Value>, n: nat, regs2: seq<Value>)
    requires Sited(c, WhileLt(counter, limit, body), l, f, lo) && hi == lo + |Compile(body, Local(l).1).0| + 3
    requires Walk(c, h, k, Active(k, lo, regs, executed), 2, lo, hi) == Some(Active(k, lo + 2, regs1, executed + 2))
    requires Walk(c, h, k, Active(k, lo + 2, regs1, executed + 2), n, lo + 2, hi - 1)
             == Some(Active(k, hi - 1, regs2, executed + 2 + n))
    ensures Walk(c, h, k, Active(k, lo, regs, executed), n + 3, lo, hi)
            == Some(Active(k, lo, regs2, executed + (n + 3)))
  {
    hide Step, Active, Walk, Sited, Compile;
    LoopsBack(c, h, k, counter, limit, body, l, f, lo, regs2, executed + 2 + n);
    WalkWidens(c, h, k, Active(k, lo + 2, regs1, executed + 2), n, lo + 2, hi - 1, lo, hi);
    WalkThenWalk(c, h, k, Active(k, lo + 2, regs1, executed + 2), n, 1, lo, hi);
    WalkThenWalk(c, h, k, Active(k, lo, regs, executed), 2, n + 1, lo, hi);
    assert executed + 2 + n + 1 == executed + (n + 3);
  }

  // ----- all statements -----

  /**
   The code of a statement, wherever it is placed in a function of however many registers,
   does what the statement means within 255 of them: it reaches its end with the meaning's
   store in the handles' registers, or raises the meaning's fault, or keeps running inside
   itself for at least `fuel` instructions when the meaning is not done after `fuel`.
   */
  lemma {:induction false} Simulates(c: Chunk, h: Host, k: Context, s: Stmt, l: Layout, f: Layout, lo: nat,
                                     regs: seq<Value>, executed: nat, store: Store, fuel: nat)
    returns (n: nat, pc: nat, regs': seq<Value>)
    requires Sited(c, s, l, f, lo) && |store| == |f.vars|
    requires |regs| == Saturated(f.next) && Carries(regs, f.vars, store)
    ensures |l.vars| + Lets(s) <= |store| && Scoped(s, |l.vars|)
    ensures Simulated(c, h, k, f, lo, lo + |Compile(s, l).0|, regs, executed, Confined(h, s, l, store, fuel), fuel,
                      n, pc, regs')
    decreases fuel, s
  {
    hide Step, Active, Walk, Tidy, Extends, Sited, CodeAt, Carries, Compile, Confined, Simulated, Scoped, Lets;
    SitedVars(c, s, l, f, lo);
    SitedScoped(c, s, l, f, lo);
    match s {
      case Skip => n, pc, regs' := SimulateNothing(c, h, k, l, f, lo, regs, executed, store, fuel);
      case Then(a, b) => n, pc, regs' := SimulateThen(c, h, k, a, b, l, f, lo, regs, executed, store, fuel);
      case WhileLt(x, y, body) =>
        n, pc, regs' := SimulateLoop(c, h, k, x, y, body, l, f, lo, regs, executed, store, fuel);
      case _ => n, pc, regs' := SimulateBasic(c, h, k, s, l, f, lo, regs, executed, store, fuel);
    }
  }

  lemma SimulateNothing(c: Chunk, h: Host, k: Context, l: Layout, f: Layout, lo: nat, regs: seq<Value>,
                        executed: nat, store: Store, fuel: nat)
    returns (n: nat, pc: nat, regs': seq<Value>)
    requires |regs| == Saturated(f.next) && Carries(regs, f.vars, store)
    requires |l.vars| + Lets(Skip) <= |store| && Scoped(Skip, |l.vars|)
    ensures Simulated(c, h, k, f, lo, lo + |Compile(Skip, l).0|, regs, executed, Confined(h, Skip, l, store, fuel),
                      fuel, n, pc, regs')
  {
    n, pc, regs' := 0, lo, regs;
  }

  lemma {:induction false} SimulateThen(c: Chunk, h: Host, k: Context, a: Stmt, b: Stmt, l: Layout, f: Layout,
                                        lo: nat, regs: seq<Value>, executed: nat, store: Store, fuel: nat)
    returns (n: nat, pc: nat, regs': seq<Value>)
    requires Sited(c, Then(a, b), l, f, lo) && |store| == |f.vars|
    requires |l.vars| + Lets(Then(a, b)) <= |store| && Scoped(Then(a, b), |l.vars|)
    requires |regs| == Saturated(f.next) && Carries(regs, f.vars, store)
    ensures Simulated(c, h, k, f, lo, lo + |Compile(Then(a, b), l).0|, regs, executed,
                      Confined(h, Then(a, b), l, store, fuel), fuel, n, pc, regs')
    decreases fuel, Then(a, b), 0
  {
    hide Step, Active, Walk, Tidy, Extends, Sited, CodeAt, Carries, Compile, Eval;
    ThenCode(a, b, l);
    SitedThen(c, a, b, l, f, lo);
    CompileGrows(a, l);
    var (first, l1) := Compile(a, l);
    var hi := lo + |Compile(Then(a, b), l).0|;
    var mid := lo + |first|;
    n, pc, regs' := Simulates(c, h, k, a, l, f, lo, regs, executed, store, fuel);
    var m := Active(k, lo, regs, executed);
    WalkWidens(c, h, k, m, n, lo, mid, lo, hi);
    match Confined(h, a, l, store, fuel) {
      case Done(next) =>
        var n2, pc2, regs2 := Simulates(c, h, k, b, l1, f, mid, regs', executed + n, next, fuel);
        Chain(c, h, k, f, lo, hi, mid, hi, regs, executed, n, regs', Confined(h, b, l1, next, fuel), fuel,
              n2, pc2, regs2, fuel);
        n, pc, regs' := n + n2, pc2, regs2;
      case _ =>
    }
  }

  lemma {:induction false} SimulateLoop(c: Chunk, h: Host, k: Context, x: Var, y: Var, body: Stmt, l: Layout,
                                        f: Layout, lo: nat, regs: seq<Value>, executed: nat, store: Store, fuel: nat)
    returns (n: nat, pc: nat, regs': seq<Value>)
    requires Sited(c, WhileLt(x, y, body), l, f, lo) && |store| == |f.vars|
    requires |l.vars| + Lets(WhileLt(x, y, body)) <= |store| && Scoped(WhileLt(x, y, body), |l.vars|)
    requires |regs| == Saturated(f.next) && Carries(regs, f.vars, store)
    ensures Simulated(c, h, k, f, lo, lo + |Compile(WhileLt(x, y, body), l).0|, regs, executed,
                      Confined(h, WhileLt(x, y, body), l, store, fuel), fuel, n, pc, regs')
    decreases fuel, WhileLt(x, y, body), 0
  {
    hide Step, Active, Walk, Tidy, Extends, Sited, CodeAt, Carries, Compared, Compile, Eval;
    var s := WhileLt(x, y, body);
    SitedBody(c, x, y, body, l, f, lo);
    var l1 := Local(l).1;
    var end := lo + 2 + |Compile(body, l1).0|;
    var hi := end + 1;
    n, pc, regs' := 0, lo, regs;
    WalkNothing(c, h, k, Active(k, lo, regs, executed), lo, hi);
    if fuel > 0 {
      var regs1 := SimulateHead(c, h, k, x, y, body, l, f, lo, hi, regs, executed, store);
      match Compared(h, x, y, l, store) {
        case Err(_) =>
        case Ok(more) =>
          n, pc, regs' := 2, hi, regs1;
          if more {
            n, pc, regs' := Simulates(c, h, k, body, l1, f, lo + 2, regs1, executed + 2, store, fuel - 1);
            match Confined(h, body, l1, store, fuel - 1) {
              case Done(next) =>
                RoundTrip(c, h, k, x, y, body, l, f, lo, hi, regs, executed, regs1, n, regs');
                var n2, pc2, regs2 :=
                  SimulateLoop(c, h, k, x, y, body, l, f, lo, regs', executed + (n + 3), next, fuel - 1);
                Chain(c, h, k, f, lo, hi, lo, hi, regs, executed, n + 3, regs', Confined(h, s, l, next, fuel - 1),
                      fuel - 1, n2, pc2, regs2, fuel);
                n, pc, regs' := n + 3 + n2, pc2, regs2;
              case meaning =>
                Chain(c, h, k, f, lo, hi, lo + 2, end, regs, executed, 2, regs1, meaning, fuel - 1,
                      n, pc, regs', fuel);
                n := 2 + n;
            }
          }
      }
    }
  }
}
