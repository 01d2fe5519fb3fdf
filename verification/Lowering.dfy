/**
 Structured code lowered to relative jumps (crates/byteflow/src/bytecode/program.rs):
 the meaning of a program of register operations and `while_lt` loops, in full and
 within the 255 registers of a frame, and the code the builder produces for it.
 */
module Lowering {
  import opened Wrappers
  import opened Values
  import opened Bytecode
  import opened Machine
  import opened Operators

  // ----- the source language -----

  /** Variables are register handles, numbered in the order the program obtains them. */
  type Var = nat

  datatype Stmt =
    | Skip
    | Then(first: Stmt, second: Stmt)
    | Assign(x: Var, imm: i32)
    | Mov(x: Var, y: Var)
    | AddImm(x: Var, imm: i32)
    | LetImm(x: Var, imm: i32)
    | LetInt(x: Var, n: i64)
    | LetBinop(x: Var, op: Opcode, y: Var, z: Var)
    | LetBinopImm(x: Var, op: Opcode, y: Var, imm: i32)
    | WhileLt(counter: Var, limit: Var, body: Stmt)

  /** How many handles a statement obtains, loop bodies included. */
  function Lets(s: Stmt): nat {
    match s
    case Then(a, b) => Lets(a) + Lets(b)
    case WhileLt(_, _, body) => Lets(body)
    case LetImm(_, _) => 1
    case LetInt(_, _) => 1
    case LetBinop(_, _, _, _) => 1
    case LetBinopImm(_, _, _, _) => 1
    case _ => 0
  }

  /** Operands are handles already obtained; a `Let` names the next one. */
  predicate Scoped(s: Stmt, n: nat) {
    match s
    case Skip => true
    case Then(a, b) => Scoped(a, n) && Scoped(b, n + Lets(a))
    case Assign(x, _) => x < n
    case Mov(x, y) => x < n && y < n
    case AddImm(x, _) => x < n
    case LetImm(x, _) => x == n
    case LetInt(x, _) => x == n
    case LetBinop(x, op, y, z) => x == n && y < n && z < n && IsArithmetic(op)
    case LetBinopImm(x, op, y, _) => x == n && y < n && IsArithmetic(op)
    case WhileLt(c, l, body) => c < n && l < n && Scoped(body, n)
  }

  type Store = seq<Value>

  datatype Meaning = Done(store: Store) | Stuck(fault: Fault) | Busy

  function Bind(r: Result<Value, Fault>, store: Store, x: Var): Meaning
    requires x < |store|
  {
    match r case Ok(v) => Done(store[x := v]) case Err(fault) => Stuck(fault)
  }

  /** Direct semantics; `fuel` bounds how deep loops are unrolled, and running out of it reads `Busy`. */
  function Eval(h: Host, s: Stmt, n: nat, store: Store, fuel: nat): (m: Meaning)
    requires Scoped(s, n) && n + Lets(s) <= |store|
    ensures m.Done? ==> |m.store| == |store|
    decreases fuel, s
  {
    match s
    case Skip => Done(store)
    case Then(a, b) =>
      (match Eval(h, a, n, store, fuel)
       case Done(mid) => Eval(h, b, n + Lets(a), mid, fuel)
       case other => other)
    case Assign(x, imm) => Done(store[x := Int(imm)])
    case Mov(x, y) => Done(store[x := store[y]])
    case AddImm(x, imm) => Bind(Operate(h, Add, store[x], Int(imm)), store, x)
    case LetImm(x, imm) => Done(store[x := Int(imm)])
    case LetInt(x, k) => Done(store[x := Int(k)])
    case LetBinop(x, op, y, z) => Bind(Operate(h, op, store[y], store[z]), store, x)
    case LetBinopImm(x, op, y, imm) => Bind(Operate(h, op, store[y], Int(imm)), store, x)
    case WhileLt(c, l, body) =>
      if fuel == 0 then Busy
      else
        match GoesOn(h, store[c], store[l])
        case Err(fault) => Stuck(fault)
        case Ok(more) =>
          if !more then Done(store)
          else
            match Eval(h, body, n, store, fuel - 1)
            case Done(next) => Eval(h, s, n, next, fuel - 1)
            case other => other
  }

  /** More fuel never changes a meaning that is settled. */
  lemma {:induction false} EvalIsSettled(h: Host, s: Stmt, n: nat, store: Store, fuel: nat, more: nat)
    requires Scoped(s, n) && n + Lets(s) <= |store| && fuel <= more
    requires !Eval(h, s, n, store, fuel).Busy?
    ensures Eval(h, s, n, store, more) == Eval(h, s, n, store, fuel)
    decreases fuel, s
  {
    hide Operate, GoesOn;
    match s {
      case Then(a, b) =>
        EvalIsSettled(h, a, n, store, fuel, more);
        if Eval(h, a, n, store, fuel).Done? {
          EvalIsSettled(h, b, n + Lets(a), Eval(h, a, n, store, fuel).store, fuel, more);
        }
      case WhileLt(c, l, body) =>
        var goesOn := GoesOn(h, store[c], store[l]);
        if goesOn.Ok? && goesOn.value {
          EvalIsSettled(h, body, n, store, fuel - 1, more - 1);
          if Eval(h, body, n, store, fuel - 1).Done? {
            EvalIsSettled(h, s, n, Eval(h, body, n, store, fuel - 1).store, fuel - 1, more - 1);
          }
        }
      case _ =>
    }
  }

  /** A loop that ends has its counter no longer below its limit. */
  lemma {:induction false} LoopEndsAtItsLimit(h: Host, counter: Var, limit: Var, body: Stmt, n: nat, store: Store,
                                              fuel: nat)
    requires Scoped(WhileLt(counter, limit, body), n) && n + Lets(body) <= |store|
    requires Eval(h, WhileLt(counter, limit, body), n, store, fuel).Done?
    ensures var end := Eval(h, WhileLt(counter, limit, body), n, store, fuel).store;
            && GoesOn(h, end[counter], end[limit]) == Ok(false)
            && (end[counter].Int? && end[limit].Int? ==> end[counter].i >= end[limit].i)
    decreases fuel
  {
    var s := WhileLt(counter, limit, body);
    if GoesOn(h, store[counter], store[limit]) == Ok(true) {
      var next := Eval(h, body, n, store, fuel - 1).store;
      assert Eval(h, s, n, store, fuel) == Eval(h, s, n, next, fuel - 1) by {
        hide GoesOn;
      }
      LoopEndsAtItsLimit(h, counter, limit, body, n, next, fuel - 1);
    }
  }

  /** Counting up one by one ends at the larger of counter and limit, for all integers. */
  lemma {:induction false} LoopCountsUp(h: Host, counter: Var, limit: Var, n: nat, store: Store, fuel: nat)
    requires counter < n && limit < n && n <= |store| && counter != limit
    requires store[counter].Int? && store[limit].Int?
    requires fuel > 0 && fuel > store[limit].i - store[counter].i
    ensures Eval(h, WhileLt(counter, limit, AddImm(counter, 1)), n, store, fuel)
            == Done(store[counter := Int(Max(store[counter].i, store[limit].i))])
    decreases fuel
  {
    var s := WhileLt(counter, limit, AddImm(counter, 1));
    var i, j := store[counter].i, store[limit].i;
    if i < j {
      var next := store[counter := Int(i + 1)];
      assert Operate(h, Add, Int(i), Int(1)) == Ok(Int(i + 1)) by {
        OneMore(h, i);
      }
      assert Eval(h, AddImm(counter, 1), n, store, fuel - 1) == Done(next);
      LoopCountsUp(h, counter, limit, n, next, fuel - 1);
      assert next[counter := Int(Max(i + 1, j))] == store[counter := Int(j)];
    } else {
      assert store[counter := Int(i)] == store;
    }
  }

  lemma OneMore(h: Host, i: i64)
    requires i + 1 < 0x8000_0000_0000_0000
    ensures Operate(h, Add, Int(i), Int(1)) == Ok(Int(i + 1))
  {
    assert i + 1 == i + 1 + 0 * WORD;
    WrapIsUnique(i + 1, i + 1, Operate(h, Add, Int(i), Int(1)).value.i);
  }

  // ----- what the builder emits -----

  const MAX_REGISTERS: nat := 255

  /**
   What the function builder remembers: the register of every handle, how many registers
   were taken, the cached scratch register and the constant pool. The source's counter
   is `next` saturated at 255.
   */
  datatype Layout = Layout(vars: seq<u8>, next: nat, scratch: Option<u8>, pool: seq<Value>)

  function Saturated(next: nat): u8 {
    Min(next, MAX_REGISTERS)
  }

  function Local(l: Layout): (u8, Layout) {
    (Saturated(l.next), l.(next := l.next + 1))
  }

  function Temp(l: Layout): (u8, Layout) {
    if l.scratch.Some? then (l.scratch.value, l)
    else
      var (r, l') := Local(l);
      (r, l'.(scratch := Some(r)))
  }

  /** A fresh local, kept as the next handle. */
  function Named(l: Layout): (u8, Layout) {
    var (r, l') := Local(l);
    (r, l'.(vars := l'.vars + [r]))
  }

  /** Index of the first equal constant, or the pool size. */
  function PoolIndex(pool: seq<Value>, v: Value): (i: nat)
    ensures i <= |pool|
    ensures i < |pool| ==> pool[i] == v
    ensures forall j :: 0 <= j < i ==> pool[j] != v
  {
    if pool == [] || pool[0] == v then 0 else 1 + PoolIndex(pool[1..], v)
  }

  function Pooled(l: Layout, v: Value): (nat, Layout) {
    var i := PoolIndex(l.pool, v);
    (i, if i < |l.pool| then l else l.(pool := l.pool + [v]))
  }

  function Reg(l: Layout, x: Var): u8 {
    if x < |l.vars| then l.vars[x] else 0
  }

  function LoadImmTo(r: u8, imm: i32): Instruction {
    Instruction(LoadImm, r, 0, 0, imm)
  }

  function Op3(op: Opcode, dst: u8, lhs: u8, rhs: u8): Instruction {
    Instruction(op, dst, lhs, rhs, 0)
  }

  function LoopHead(cond: u8, counter: u8, limit: u8, bodyLength: nat): seq<Instruction> {
    [Op3(Lt, cond, counter, limit), Instruction(Branch, cond, 0, 0, Wrap32(bodyLength + 1))]
  }

  function LoopBack(bodyLength: nat): Instruction {
    Instruction(Jump, 0, 0, 0, Wrap32(-(bodyLength + 3)))
  }

  /** Position-independent code of a statement, jumps resolved. */
  function Compile(s: Stmt, l: Layout): (seq<Instruction>, Layout) {
    match s
    case Skip => ([], l)
    case Then(a, b) =>
      var (first, l1) := Compile(a, l);
      var (second, l2) := Compile(b, l1);
      (first + second, l2)
    case Assign(x, imm) => ([LoadImmTo(Reg(l, x), imm)], l)
    case Mov(x, y) => ([Op3(Move, Reg(l, x), Reg(l, y), 0)], l)
    case AddImm(x, imm) =>
      var (t, l1) := Temp(l);
      ([LoadImmTo(t, imm), Op3(Add, Reg(l1, x), Reg(l1, x), t)], l1)
    case LetImm(_, imm) =>
      var (r, l1) := Named(l);
      ([LoadImmTo(r, imm)], l1)
    case LetInt(_, k) =>
      var (i, l1) := Pooled(l, Int(k));
      var (r, l2) := Named(l1);
      ([Instruction(LoadConst, r, 0, 0, Wrap32(i))], l2)
    case LetBinop(_, op, y, z) =>
      var (r, l1) := Named(l);
      ([Op3(op, r, Reg(l, y), Reg(l, z))], l1)
    case LetBinopImm(_, op, y, imm) =>
      var (t, l1) := Temp(l);
      var (r, l2) := Named(l1);
      ([LoadImmTo(t, imm), Op3(op, r, Reg(l, y), t)], l2)
    case WhileLt(c, limit, body) =>
      var (cond, l1) := Local(l);
      var (code, l2) := Compile(body, l1);
      (LoopHead(cond, Reg(l, c), Reg(l, limit), |code|) + code + [LoopBack(|code|)], l2)
  }

  predicate UsesScratch(s: Stmt) {
    s.AddImm? || s.LetBinopImm?
  }

  predicate Basic(s: Stmt) {
    !s.Skip? && !s.Then? && !s.WhileLt?
  }

  lemma {:induction false} CompileGrows(s: Stmt, l: Layout)
    ensures l.next <= Compile(s, l).1.next
    ensures |Compile(s, l).1.vars| == |l.vars| + Lets(s)
  {
    match s {
      case Then(a, b) =>
        CompileGrows(a, l);
        CompileGrows(b, Compile(a, l).1);
      case WhileLt(_, _, body) => CompileGrows(body, Local(l).1);
      case _ =>
    }
  }

  lemma ThenCode(a: Stmt, b: Stmt, l: Layout)
    ensures var (first, l1) := Compile(a, l);
            Compile(Then(a, b), l) == (first + Compile(b, l1).0, Compile(b, l1).1)
  {
  }

  lemma SkipCode(l: Layout)
    ensures Compile(Skip, l) == ([], l)
  {
  }

  lemma LoopCode(counter: Var, limit: Var, body: Stmt, l: Layout)
    ensures var (cond, l1) := Local(l);
            var (code, l2) := Compile(body, l1);
            Compile(WhileLt(counter, limit, body), l)
            == (LoopHead(cond, Reg(l, counter), Reg(l, limit), |code|) + code + [LoopBack(|code|)], l2)
  {
  }

  // ----- registers never clash -----

  /** Handles and the scratch register are distinct registers already taken, as far as there are registers. */
  ghost predicate Tidy(l: Layout) {
    && (forall i :: 0 <= i < |l.vars| ==> l.vars[i] < l.next)
    && (forall i, j :: 0 <= i < j < |l.vars| && l.vars[i] < MAX_REGISTERS ==> l.vars[i] != l.vars[j])
    && (l.scratch.Some? ==>
          l.scratch.value < l.next && (l.scratch.value < MAX_REGISTERS ==> l.scratch.value !in l.vars))
  }

  /** `m` is `l` after more code: old handles keep their registers, new ones get new registers. */
  ghost predicate Extends(l: Layout, m: Layout) {
    && l.next <= m.next
    && l.vars <= m.vars
    && l.pool <= m.pool
    && (l.scratch.Some? ==> m.scratch == l.scratch)
    && (forall i :: |l.vars| <= i < |m.vars| ==> Saturated(l.next) <= m.vars[i])
  }

  lemma ExtendsTrans(a: Layout, b: Layout, c: Layout)
    requires Extends(a, b) && Extends(b, c)
    ensures Extends(a, c)
  {
    assert forall i :: |a.vars| <= i < |b.vars| ==> b.vars[i] == c.vars[i];
  }

  lemma ExtendsItself(l: Layout)
    ensures Extends(l, l)
  {
  }

  lemma LocalIsTidy(l: Layout)
    requires Tidy(l)
    ensures Extends(l, Local(l).1) && Tidy(Local(l).1)
  {
  }

  lemma PooledIsTidy(l: Layout, v: Value)
    requires Tidy(l)
    ensures Extends(l, Pooled(l, v).1) && Tidy(Pooled(l, v).1)
  {
  }

  lemma TempExtends(l: Layout)
    requires Tidy(l)
    ensures Extends(l, Temp(l).1) && Tidy(Temp(l).1)
    ensures Temp(l).1.scratch == Some(Temp(l).0)
  {
  }

  lemma NamedExtends(l: Layout)
    requires Tidy(l)
    ensures Extends(l, Named(l).1) && Tidy(Named(l).1)
    ensures Named(l).1.vars == l.vars + [Named(l).0] && Named(l).0 == Saturated(l.next)
  {
  }

  /** As far as there are registers, every handle has one of its own. */
  lemma {:induction false} CompileExtends(s: Stmt, l: Layout)
    requires Tidy(l)
    ensures Extends(l, Compile(s, l).1) && Tidy(Compile(s, l).1)
  {
    hide Extends, Tidy;
    match s {
      case Then(a, b) =>
        CompileExtends(a, l);
        CompileExtends(b, Compile(a, l).1);
        ExtendsTrans(l, Compile(a, l).1, Compile(s, l).1);
      case WhileLt(_, _, body) =>
        LocalIsTidy(l);
        CompileExtends(body, Local(l).1);
        ExtendsTrans(l, Local(l).1, Compile(s, l).1);
      case AddImm(_, _) => TempExtends(l);
      case LetImm(_, _) => NamedExtends(l);
      case LetInt(_, k) =>
        PooledIsTidy(l, Int(k));
        NamedExtends(Pooled(l, Int(k)).1);
        ExtendsTrans(l, Pooled(l, Int(k)).1, Compile(s, l).1);
      case LetBinop(_, _, _, _) => NamedExtends(l);
      case LetBinopImm(_, _, _, _) =>
        TempExtends(l);
        NamedExtends(Temp(l).1);
        ExtendsTrans(l, Temp(l).1, Compile(s, l).1);
      case _ => ExtendsItself(l);
    }
  }

  // ----- the meaning within 255 registers -----

  /** What code raises that names the register after the last one a frame can have. */
  const NO_REGISTER: Fault := RegisterOutOfRange(255, 255)

  /** The handles a statement of one or two instructions reads. */
  function Operands(s: Stmt): seq<Var> {
    match s
    case Mov(_, y) => [y]
    case AddImm(x, _) => [x]
    case LetBinop(_, _, y, z) => [y, z]
    case LetBinopImm(_, _, y, _) => [y]
    case _ => []
  }

  /** All it reads, the scratch register included, is in a register. */
  predicate Readable(s: Stmt, l: Layout) {
    && (UsesScratch(s) ==> Temp(l).0 < MAX_REGISTERS)
    && (forall x :: x in Operands(s) ==> Reg(l, x) < MAX_REGISTERS)
  }

  /** The condition of a loop, which needs registers for both operands and for itself. */
  function Compared(h: Host, counter: Var, limit: Var, l: Layout, store: Store): Result<bool, Fault>
    requires counter < |store| && limit < |store|
  {
    if Reg(l, counter) >= MAX_REGISTERS || Reg(l, limit) >= MAX_REGISTERS then Err(NO_REGISTER)
    else
      var more :- GoesOn(h, store[counter], store[limit]);
      if Local(l).0 < MAX_REGISTERS then Ok(more) else Err(NO_REGISTER)
  }

  /** A value computed for a handle is kept if the handle has a register. */
  function Landed(m: Meaning, dst: u8): Meaning {
    if m.Done? && dst >= MAX_REGISTERS then Stuck(NO_REGISTER) else m
  }

  function ConfinedBasic(h: Host, s: Stmt, l: Layout, store: Store, fuel: nat): (m: Meaning)
    requires Basic(s) && Scoped(s, |l.vars|) && |l.vars| + Lets(s) <= |store|
    ensures m.Done? ==> |m.store| == |store|
  {
    if Readable(s, l) then Landed(Eval(h, s, |l.vars|, store, fuel), Reg(Compile(s, l).1, s.x)) else Stuck(NO_REGISTER)
  }

  /** Direct semantics again, in which a handle without a register cannot be read or written. */
  function Confined(h: Host, s: Stmt, l: Layout, store: Store, fuel: nat): (m: Meaning)
    requires Scoped(s, |l.vars|) && |l.vars| + Lets(s) <= |store|
    ensures m.Done? ==> |m.store| == |store|
    decreases fuel, s
  {
    match s
    case Skip => Done(store)
    case Then(a, b) =>
      CompileGrows(a, l);
      (match Confined(h, a, l, store, fuel)
       case Done(mid) => Confined(h, b, Compile(a, l).1, mid, fuel)
       case other => other)
    case WhileLt(c, limit, body) =>
      if fuel == 0 then Busy
      else
        (match Compared(h, c, limit, l, store)
         case Err(fault) => Stuck(fault)
         case Ok(more) =>
           if !more then Done(store)
           else
             match Confined(h, body, Local(l).1, store, fuel - 1)
             case Done(next) => Confined(h, s, l, next, fuel - 1)
             case other => other)
    case _ => ConfinedBasic(h, s, l, store, fuel)
  }

  /** A program keeps its meaning or raises `RegisterOutOfRange(255, 255)`, nothing else. */
  lemma {:induction false} ConfinedOrTrapped(h: Host, s: Stmt, l: Layout, store: Store, fuel: nat)
    requires Scoped(s, |l.vars|) && |l.vars| + Lets(s) <= |store|
    ensures var m := Confined(h, s, l, store, fuel);
            m == Eval(h, s, |l.vars|, store, fuel) || m == Stuck(NO_REGISTER)
    decreases fuel, s
  {
    hide Operate, GoesOn, Compile, Reg, Readable, Temp;
    match s {
      case Then(a, b) =>
        CompileGrows(a, l);
        ConfinedOrTrapped(h, a, l, store, fuel);
        if Confined(h, a, l, store, fuel).Done? {
          ConfinedOrTrapped(h, b, Compile(a, l).1, Confined(h, a, l, store, fuel).store, fuel);
        }
      case WhileLt(c, limit, body) =>
        var more := Compared(h, c, limit, l, store);
        if fuel > 0 && more.Ok? && more.value {
          ConfinedOrTrapped(h, body, Local(l).1, store, fuel - 1);
          if Confined(h, body, Local(l).1, store, fuel - 1).Done? {
            ConfinedOrTrapped(h, s, l, Confined(h, body, Local(l).1, store, fuel - 1).store, fuel - 1);
          }
        }
      case _ =>
    }
  }

  lemma BasicInside(h: Host, s: Stmt, l: Layout, store: Store, fuel: nat)
    requires Basic(s) && Scoped(s, |l.vars|) && |l.vars| + Lets(s) <= |store|
    requires Tidy(l) && Compile(s, l).1.next <= MAX_REGISTERS
    ensures ConfinedBasic(h, s, l, store, fuel) == Eval(h, s, |l.vars|, store, fuel)
  {
    hide Eval;
  }

  lemma ComparedInside(h: Host, counter: Var, limit: Var, l: Layout, store: Store)
    requires counter < |l.vars| && limit < |l.vars| && |l.vars| <= |store|
    requires Tidy(l) && l.next < MAX_REGISTERS
    ensures Compared(h, counter, limit, l, store) == GoesOn(h, store[counter], store[limit])
  {
    hide GoesOn;
  }

  /** A program that takes at most 255 registers has its full meaning. */
  lemma {:induction false} ConfinedIsMeaning(h: Host, s: Stmt, l: Layout, store: Store, fuel: nat)
    requires Scoped(s, |l.vars|) && |l.vars| + Lets(s) <= |store|
    requires Tidy(l) && Compile(s, l).1.next <= MAX_REGISTERS
    ensures Confined(h, s, l, store, fuel) == Eval(h, s, |l.vars|, store, fuel)
    decreases fuel, s
  {
    hide Operate, GoesOn, Tidy, Extends, Compared, ConfinedBasic, Compile;
    match s {
      case Then(a, b) =>
        ThenCode(a, b, l);
        CompileGrows(a, l);
        CompileGrows(b, Compile(a, l).1);
        CompileExtends(a, l);
        ConfinedIsMeaning(h, a, l, store, fuel);
        if Confined(h, a, l, store, fuel).Done? {
          ConfinedIsMeaning(h, b, Compile(a, l).1, Confined(h, a, l, store, fuel).store, fuel);
        }
      case WhileLt(c, limit, body) =>
        LoopCode(c, limit, body, l);
        CompileGrows(body, Local(l).1);
        ComparedInside(h, c, limit, l, store);
        LocalIsTidy(l);
        var more := Compared(h, c, limit, l, store);
        if fuel > 0 && more.Ok? && more.value {
          ConfinedIsMeaning(h, body, Local(l).1, store, fuel - 1);
          if Confined(h, body, Local(l).1, store, fuel - 1).Done? {
            ConfinedIsMeaning(h, s, l, Confined(h, body, Local(l).1, store, fuel - 1).store, fuel - 1);
          }
        }
      case Skip =>
      case _ => BasicInside(h, s, l, store, fuel);
    }
  }

  predicate LoopFree(s: Stmt) {
    match s
    case Then(a, b) => LoopFree(a) && LoopFree(b)
    case WhileLt(_, _, _) => false
    case _ => true
  }

  lemma TakesTheLast(s: Stmt, l: Layout)
    requires Basic(s) && Scoped(s, |l.vars|)
    requires l.next <= MAX_REGISTERS < Compile(s, l).1.next
    ensures !Readable(s, l) || Reg(Compile(s, l).1, s.x) >= MAX_REGISTERS
  {
  }

  /** Straight-line code that takes more registers always reaches the instruction that lacks one. */
  lemma {:induction false} OverflowTraps(h: Host, s: Stmt, l: Layout, store: Store, fuel: nat)
    requires Scoped(s, |l.vars|) && |l.vars| + Lets(s) <= |store| && LoopFree(s)
    requires Tidy(l) && l.next <= MAX_REGISTERS < Compile(s, l).1.next
    requires Eval(h, s, |l.vars|, store, fuel).Done?
    ensures Confined(h, s, l, store, fuel) == Stuck(NO_REGISTER)
    decreases s
  {
    hide Operate, GoesOn, Readable, Temp, Compile, Extends, Tidy;
    match s {
      case Then(a, b) =>
        ThenCode(a, b, l);
        CompileGrows(a, l);
        if Compile(a, l).1.next <= MAX_REGISTERS {
          CompileExtends(a, l);
          ConfinedIsMeaning(h, a, l, store, fuel);
          OverflowTraps(h, b, Compile(a, l).1, Eval(h, a, |l.vars|, store, fuel).store, fuel);
        } else {
          OverflowTraps(h, a, l, store, fuel);
        }
      case Skip => SkipCode(l);
      case _ => TakesTheLast(s, l);
    }
  }
}
