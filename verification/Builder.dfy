/**
 The assembler (crates/byteflow/src/bytecode/{builder,program}.rs): instructions appended
 in place, labels bound as code grows, jumps patched at the end. Every piece emitted
 is proved to resolve to the code `Lowering.Compile` describes.
 */
module Builders {
  import opened Wrappers
  import opened Values
  import opened Bytecode
  import opened Lowering
  import opened Programs

  type Label = nat

  /** Where each pending jump goes. A later entry for the same instruction wins. */
  function JumpMap(pending: seq<(nat, Label)>): map<nat, Label> {
    if pending == [] then map[]
    else
      var last := pending[|pending| - 1];
      JumpMap(pending[..|pending| - 1])[last.0 := last.1]
  }

  lemma JumpMapPush(pending: seq<(nat, Label)>, at: nat, lbl: Label)
    ensures JumpMap(pending + [(at, lbl)]) == JumpMap(pending)[at := lbl]
  {
    assert (pending + [(at, lbl)])[..|pending|] == pending;
  }

  /** Relative offset from the instruction after the jump; an unbound lbl falls through. */
  function Offset(targets: map<Label, u32>, lbl: Label, at: nat): i32 {
    if lbl in targets then Wrap32(targets[lbl] - (at + 1)) else 0
  }

  function Truncate32(n: nat): u32 {
    n % 0x1_0000_0000
  }

  datatype Draft = Draft(code: seq<Instruction>, jumps: map<nat, Label>, targets: map<Label, u32>, nextLabel: Label)

  /** Instruction `i` as `finish` would leave it. */
  function Resolve(d: Draft, i: nat): Instruction
    requires i < |d.code|
  {
    if i in d.jumps then d.code[i].(imm := Offset(d.targets, d.jumps[i], i)) else d.code[i]
  }

  function ResolveAll(d: Draft): seq<Instruction> {
    seq(|d.code|, i requires 0 <= i < |d.code| => Resolve(d, i))
  }

  ghost predicate Sound(d: Draft) {
    && (forall i :: i in d.jumps ==> i < |d.code| && d.jumps[i] < d.nextLabel)
    && (forall lbl :: lbl in d.targets ==> lbl < d.nextLabel)
  }

  /**
   `e` is `d` with code added that resolves to `piece` whatever is emitted later: its jumps
   go to labels of its own, all bound, and nothing about the older code changed.
   */
  ghost predicate Appends(d: Draft, e: Draft, piece: seq<Instruction>) {
    && Sound(e)
    && |e.code| == |d.code| + |piece| && e.code[..|d.code|] == d.code
    && d.nextLabel <= e.nextLabel
    && (forall i :: 0 <= i < |d.code| ==>
          (i in e.jumps <==> i in d.jumps) && (i in d.jumps ==> e.jumps[i] == d.jumps[i]))
    && (forall lbl :: 0 <= lbl < d.nextLabel ==>
          (lbl in e.targets <==> lbl in d.targets) && (lbl in d.targets ==> e.targets[lbl] == d.targets[lbl]))
    && (forall i :: |d.code| <= i < |e.code| && i in e.jumps ==> d.nextLabel <= e.jumps[i] && e.jumps[i] in e.targets)
    && (forall i :: 0 <= i < |piece| ==> Resolve(e, |d.code| + i) == piece[i])
  }

  lemma AppendsNothing(d: Draft)
    requires Sound(d)
    ensures Appends(d, d, [])
  {
  }

  lemma AppendsKeeps(d: Draft, e: Draft, f: Draft, piece: seq<Instruction>, more: seq<Instruction>, i: nat)
    requires Sound(d) && Appends(d, e, piece) && Appends(e, f, more) && i < |piece|
    ensures Resolve(f, |d.code| + i) == piece[i]
  {
    var at := |d.code| + i;
    assert f.code[at] == f.code[..|e.code|][at] == e.code[at];
    assert Resolve(e, at) == piece[i];
  }

  lemma AppendsTrans(d: Draft, e: Draft, f: Draft, piece: seq<Instruction>, more: seq<Instruction>)
    requires Sound(d) && Appends(d, e, piece) && Appends(e, f, more)
    ensures Appends(d, f, piece + more)
  {
    assert f.code[..|d.code|] == f.code[..|e.code|][..|d.code|] == d.code;
    forall i | 0 <= i < |piece + more| ensures Resolve(f, |d.code| + i) == (piece + more)[i] {
      if i < |piece| {
        AppendsKeeps(d, e, f, piece, more, i);
      } else {
        assert |d.code| + i == |e.code| + (i - |piece|);
      }
    }
  }

  function Push(d: Draft, i: Instruction): Draft {
    d.(code := d.code + [i])
  }

  function PushJump(d: Draft, i: Instruction, lbl: Label): Draft {
    d.(code := d.code + [i], jumps := d.jumps[|d.code| := lbl])
  }

  function BindTo(d: Draft, lbl: Label): Draft {
    d.(targets := d.targets[lbl := Truncate32(|d.code|)])
  }

  lemma AppendsOne(d: Draft, i: Instruction)
    requires Sound(d)
    ensures Sound(Push(d, i)) && Appends(d, Push(d, i), [i])
  {
  }

  /** Label targets are cut to 32 bits, which no 32-bit offset can tell. */
  lemma TruncationIsHarmless(target: nat, at: nat)
    ensures Wrap32(Truncate32(target) - at) == Wrap32(target - at)
  {
    var q := target / 0x1_0000_0000;
    assert target == q * 0x1_0000_0000 + Truncate32(target);
    ModuloShift(Truncate32(target) - at, q);
  }

  lemma ModuloShift(x: int, q: int)
    ensures (x + q * 0x1_0000_0000) % 0x1_0000_0000 == x % 0x1_0000_0000
  {
    var m := 0x1_0000_0000;
    assert x == (x / m) * m + x % m;
    assert x + q * m == (x / m + q) * m + x % m;
  }

  /** The two instructions before the body: `head` bound here, `done` still open. */
  function OpenLoop(d: Draft, cond: u8, counter: u8, limit: u8): Draft {
    var head, done := d.nextLabel, d.nextLabel + 1;
    var e := BindTo(d.(nextLabel := d.nextLabel + 2), head);
    PushJump(Push(e, Op3(Lt, cond, counter, limit)), Instruction(Branch, cond, 0, 0, 0), done)
  }

  function CloseLoop(d: Draft, e: Draft): Draft {
    BindTo(PushJump(e, Instruction(Jump, 0, 0, 0, 0), d.nextLabel), d.nextLabel + 1)
  }

  lemma OpenLoopSound(d: Draft, cond: u8, counter: u8, limit: u8)
    requires Sound(d)
    ensures Sound(OpenLoop(d, cond, counter, limit))
  {
  }

  /** A loop around a settled body is settled, with the offsets of the lowering. */
  lemma LoopAppends(d: Draft, e: Draft, cond: u8, counter: u8, limit: u8, body: seq<Instruction>)
    requires Sound(d) && Appends(OpenLoop(d, cond, counter, limit), e, body)
    ensures Sound(CloseLoop(d, e))
    ensures Appends(d, CloseLoop(d, e), LoopHead(cond, counter, limit, |body|) + body + [LoopBack(|body|)])
  {
    hide Truncate32, Wrap32, Offset;
    var open, n := OpenLoop(d, cond, counter, limit), |d.code|;
    var f := CloseLoop(d, e);
    var piece := LoopHead(cond, counter, limit, |body|) + body + [LoopBack(|body|)];
    assert |open.code| == n + 2 && |f.code| == n + |piece|;
    assert f.code[..n + 2] == e.code[..n + 2] == open.code;
    assert open.code[..n] == d.code;
    assert f.code[..n] == f.code[..n + 2][..n] == d.code;
    assert Sound(f);
    LoopResolves(d, e, cond, counter, limit, body);
    hide Resolve;
  }

  lemma OuterResolves(d: Draft, e: Draft, cond: u8, counter: u8, limit: u8, body: seq<Instruction>)
    requires Sound(d) && Appends(OpenLoop(d, cond, counter, limit), e, body)
    ensures var f := CloseLoop(d, e);
            var n := |d.code|;
            && |f.code| == n + |body| + 3
            && Resolve(f, n) == Op3(Lt, cond, counter, limit)
            && Resolve(f, n + 1) == Instruction(Branch, cond, 0, 0, Wrap32(|body| + 1))
            && Resolve(f, n + |body| + 2) == LoopBack(|body|)
  {
    var open, n := OpenLoop(d, cond, counter, limit), |d.code|;
    var f := CloseLoop(d, e);
    TruncationIsHarmless(n + |body| + 3, n + 2);
    TruncationIsHarmless(n, n + |body| + 3);
    hide Wrap32, Truncate32;
    assert f.code[..n + 2] == e.code[..n + 2] == open.code;
    assert f.code[n] == f.code[..n + 2][n] && f.code[n + 1] == f.code[..n + 2][n + 1];
  }

  lemma BodyResolves(d: Draft, e: Draft, cond: u8, counter: u8, limit: u8, body: seq<Instruction>, i: nat)
    requires Sound(d) && Appends(OpenLoop(d, cond, counter, limit), e, body) && i < |body|
    ensures |e.code| == |d.code| + 2 + |body| && Resolve(CloseLoop(d, e), |d.code| + 2 + i) == body[i]
  {
    hide Truncate32, Wrap32;
    assert Resolve(e, |d.code| + 2 + i) == body[i];
  }

  lemma LoopResolves(d: Draft, e: Draft, cond: u8, counter: u8, limit: u8, body: seq<Instruction>)
    requires Sound(d) && Appends(OpenLoop(d, cond, counter, limit), e, body)
    ensures var piece := LoopHead(cond, counter, limit, |body|) + body + [LoopBack(|body|)];
            var f := CloseLoop(d, e);
            |f.code| == |d.code| + |piece| && forall i :: 0 <= i < |piece| ==> Resolve(f, |d.code| + i) == piece[i]
  {
    OuterResolves(d, e, cond, counter, limit, body);
    hide Appends, Sound, Resolve, OpenLoop, CloseLoop, LoopBack;
    var piece := LoopHead(cond, counter, limit, |body|) + body + [LoopBack(|body|)];
    forall i | 0 <= i < |piece| ensures Resolve(CloseLoop(d, e), |d.code| + i) == piece[i] {
      if 2 <= i < |body| + 2 {
        BodyResolves(d, e, cond, counter, limit, body, i - 2);
        assert |d.code| + i == |d.code| + 2 + (i - 2);
      }
    }
  }

  class ChunkBuilder {
    const name: seq<u8>
    var constants: seq<Value>
    var code: seq<Instruction>
    var functions: seq<FunctionDef>
    var nextLabel: Label
    var labelTargets: map<Label, u32>
    var pendingJumps: seq<(nat, Label)>

    ghost function State(): Draft
      reads this
    {
      Draft(code, JumpMap(pendingJumps), labelTargets, nextLabel)
    }

    constructor (name: seq<u8>)
      ensures this.name == name && constants == [] && functions == []
      ensures State() == Draft([], map[], map[], 0)
    {
      this.name := name;
      constants, code, functions := [], [], [];
      nextLabel, labelTargets, pendingJumps := 0, map[], [];
    }

    /** The index of an equal constant, added at the end when there is none. */
    method Constant(v: Value) returns (index: nat)
      modifies `constants
      ensures index == PoolIndex(old(constants), v) < |constants| && constants[index] == v
      ensures constants == if index < |old(constants)| then old(constants) else old(constants) + [v]
    {
      index := 0;
      while index < |constants| && constants[index] != v
        invariant 0 <= index <= |constants|
        invariant forall j :: 0 <= j < index ==> constants[j] != v
      {
        index := index + 1;
      }
      assert index == PoolIndex(constants, v);
      if index == |constants| {
        constants := constants + [v];
      }
    }

    method NewLabel() returns (lbl: Label)
      modifies `nextLabel
      ensures lbl == old(nextLabel) && nextLabel == lbl + 1
    {
      lbl := nextLabel;
      nextLabel := nextLabel + 1;
    }

    /** Bind `lbl` to the next instruction that will be emitted. */
    method BindLabel(lbl: Label)
      modifies `labelTargets
      ensures State() == BindTo(old(State()), lbl)
    {
      labelTargets := labelTargets[lbl := Truncate32(|code|)];
    }

    method Emit(i: Instruction) returns (at: nat)
      modifies `code
      ensures at == |old(code)| && State() == Push(old(State()), i)
    {
      at := |code|;
      code := code + [i];
    }

    method EmitJumpTo(i: Instruction, target: Label)
      modifies `code, `pendingJumps
      ensures State() == PushJump(old(State()), i, target)
    {
      var at := Emit(i);
      JumpMapPush(pendingJumps, at, target);
      pendingJumps := pendingJumps + [(at, target)];
    }

    method BeginFunction(name: seq<u8>, arity: u8, numRegisters: u8) returns (id: nat)
      modifies `functions
      ensures id == |old(functions)|
      ensures functions == old(functions) + [FunctionDef(name, Truncate32(|code|), arity, numRegisters)]
    {
      id := |functions|;
      functions := functions + [FunctionDef(name, Truncate32(|code|), arity, numRegisters)];
    }

    method SetNumRegisters(id: nat, n: u8)
      modifies `functions
      ensures functions == if id < |old(functions)| then old(functions)[id := old(functions[id]).(numRegisters := n)]
                           else old(functions)
    {
      if id < |functions| {
        functions := functions[id := functions[id].(numRegisters := n)];
      }
    }

    /** Patch every pending jump and hand over the chunk. */
    method Finish() returns (c: Chunk)
      requires Sound(State())
      modifies `code, `pendingJumps
      ensures c == Chunk(name, constants, ResolveAll(old(State())), functions)
    {
      ghost var d := State();
      var k := 0;
      while k < |pendingJumps|
        invariant pendingJumps == old(pendingJumps) && 0 <= k <= |pendingJumps|
        invariant |code| == |d.code|
        invariant forall i :: 0 <= i < |code| ==>
                    code[i] == Resolve(d.(jumps := JumpMap(pendingJumps[..k])), i)
      {
        var (at, lbl) := pendingJumps[k];
        PendingInCode(pendingJumps, k);
        JumpMapPush(pendingJumps[..k], at, lbl);
        assert pendingJumps[..k + 1] == pendingJumps[..k] + [(at, lbl)];
        var imm := Offset(labelTargets, lbl, at);
        code := code[at := code[at].(imm := imm)];
        k := k + 1;
      }
      assert pendingJumps[..k] == pendingJumps;
      assert code == ResolveAll(d);
      pendingJumps := [];
      c := Chunk(name, constants, code, functions);
    }
  }

  lemma {:induction false} PendingInCode(pending: seq<(nat, Label)>, k: nat)
    requires k < |pending|
    ensures pending[k].0 in JumpMap(pending)
  {
    var last := |pending| - 1;
    if k < last {
      PendingInCode(pending[..last], k);
    }
  }

  /** Emits one function: the register counter saturates at 255, the scratch register is taken once. */
  class FnBuilder {
    const b: ChunkBuilder
    const function_: nat
    var nextReg: u8
    var scratch: Option<u8>

    /** The builder remembers what `l` says. */
    ghost predicate Mirrors(l: Layout)
      reads this, b
    {
      && nextReg == Saturated(l.next) && scratch == l.scratch && b.constants == l.pool
      && function_ < |b.functions| && b.functions[function_].numRegisters == nextReg
    }

    /** Only this function's register count may change in the function table. */
    twostate predicate OnlyRegisters()
      reads this, b
    {
      && function_ < |old(b.functions)|
      && b.functions == old(b.functions)[function_ := old(b.functions[function_]).(numRegisters := nextReg)]
    }

    constructor Open(b: ChunkBuilder, name: seq<u8>, arity: u8)
      requires Sound(b.State())
      modifies b`functions
      ensures this.b == b && function_ == |old(b.functions)|
      ensures b.functions
              == old(b.functions) + [FunctionDef(name, Truncate32(|b.code|), arity, Saturated(Max(arity, 4)))]
      ensures Mirrors(Opened(arity, b.constants))
    {
      this.b := b;
      var registers: u8 := Max(arity, 4);
      var id := b.BeginFunction(name, arity, registers);
      function_, nextReg, scratch := id, registers, None;
    }

    method TakeLocal(ghost l: Layout) returns (r: u8)
      requires Mirrors(l)
      modifies `nextReg, b`functions
      ensures r == Local(l).0 && Mirrors(Local(l).1) && OnlyRegisters()
    {
      r := nextReg;
      nextReg := if nextReg == 255 then 255 else nextReg + 1;
      b.SetNumRegisters(function_, nextReg);
    }

    method TakeTemp(ghost l: Layout) returns (r: u8)
      requires Mirrors(l)
      modifies this, b`functions
      ensures r == Temp(l).0 && Mirrors(Temp(l).1) && OnlyRegisters()
    {
      if scratch.Some? {
        return scratch.value;
      }
      r := TakeLocal(l);
      scratch := Some(r);
    }

    /** What emitting a statement does to builder and chunk, in terms of the lowering. */
    twostate predicate Emitted(s: Stmt, l: Layout)
      reads this, b
    {
      && Mirrors(Compile(s, l).1) && OnlyRegisters()
      && Sound(b.State())
      && Appends(old(b.State()), b.State(), Compile(s, l).0)
    }

    /** The builder calls that make up a statement; `vars` are the handles obtained so far. */
    method EmitStmt(s: Stmt, vars: seq<u8>, ghost l: Layout) returns (vars': seq<u8>)
      requires Sound(b.State()) && Mirrors(l) && vars == l.vars && Scoped(s, |vars|)
      modifies this, b
      ensures Emitted(s, l) && vars' == Compile(s, l).1.vars
      decreases s
    {
      match s {
        case Skip =>
          AppendsNothing(b.State());
          vars' := vars;
        case Then(first, second) =>
          ghost var d0 := b.State();
          CompileGrows(first, l);
          var mid := EmitStmt(first, vars, l);
          ghost var d1, l1 := b.State(), Compile(first, l).1;
          vars' := EmitStmt(second, mid, l1);
          AppendsTrans(d0, d1, b.State(), Compile(first, l).0, Compile(second, l1).0);
        case WhileLt(counter, limit, body) => vars' := EmitLoop(counter, limit, body, vars, l);
        case AddImm(_, _) => vars' := EmitWithScratch(s, vars, l);
        case LetBinopImm(_, _, _, _) => vars' := EmitWithScratch(s, vars, l);
        case _ => vars' := EmitBasic(s, vars, l);
      }
    }

    /** Labels, condition register, comparison and the branch out of the loop. */
    method BeginLoop(counter: u8, limit: u8, ghost l: Layout) returns (head: Label, done: Label, cond: u8)
      requires Mirrors(l)
      modifies this, b
      ensures head == old(b.nextLabel) && done == head + 1 && cond == Local(l).0
      ensures Mirrors(Local(l).1) && OnlyRegisters()
      ensures b.State() == OpenLoop(old(b.State()), cond, counter, limit)
    {
      hide JumpMap;
      head := b.NewLabel();
      done := b.NewLabel();
      cond := TakeLocal(l);
      b.BindLabel(head);
      var _ := b.Emit(Op3(Lt, cond, counter, limit));
      b.EmitJumpTo(Instruction(Branch, cond, 0, 0, 0), done);
    }

    method EmitLoop(counter: Var, limit: Var, body: Stmt, vars: seq<u8>, ghost l: Layout) returns (vars': seq<u8>)
      requires Sound(b.State()) && Mirrors(l) && vars == l.vars && Scoped(WhileLt(counter, limit, body), |vars|)
      modifies this, b
      ensures Emitted(WhileLt(counter, limit, body), l) && vars' == Compile(WhileLt(counter, limit, body), l).1.vars
      decreases WhileLt(counter, limit, body), 0
    {
      hide Compile, Appends, Resolve, Sound, Wrap32, LoopHead, LoopBack, JumpMap, OpenLoop;
      LoopCode(counter, limit, body, l);
      ghost var d := b.State();
      var head, done, cond := BeginLoop(vars[counter], vars[limit], l);
      OpenLoopSound(d, cond, vars[counter], vars[limit]);
      vars' := EmitStmt(body, vars, Local(l).1);
      ghost var e := b.State();
      b.EmitJumpTo(Instruction(Jump, 0, 0, 0, 0), head);
      b.BindLabel(done);
      LoopAppends(d, e, cond, vars[counter], vars[limit], Compile(body, Local(l).1).0);
    }

    method EmitBasic(s: Stmt, vars: seq<u8>, ghost l: Layout) returns (vars': seq<u8>)
      requires Basic(s) && !UsesScratch(s) && Sound(b.State()) && Mirrors(l) && vars == l.vars && Scoped(s, |vars|)
      modifies this, b
      ensures Emitted(s, l) && vars' == Compile(s, l).1.vars
    {
      hide Appends, Resolve, Sound, Wrap32, JumpMap, Truncate32, PoolIndex, Temp;
      ghost var d := b.State();
      var at;
      vars' := vars;
      match s {
        case Assign(x, imm) =>
          AppendsOne(d, LoadImmTo(vars[x], imm));
          at := b.Emit(LoadImmTo(vars[x], imm));
        case Mov(x, y) =>
          AppendsOne(d, Op3(Move, vars[x], vars[y], 0));
          at := b.Emit(Op3(Move, vars[x], vars[y], 0));
        case LetImm(_, imm) =>
          var r := TakeLocal(l);
          AppendsOne(d, LoadImmTo(r, imm));
          at := b.Emit(LoadImmTo(r, imm));
          vars' := vars + [r];
        case LetInt(_, n) =>
          var index := b.Constant(Int(n));
          var r := TakeLocal(Pooled(l, Int(n)).1);
          AppendsOne(d, Instruction(LoadConst, r, 0, 0, Wrap32(index)));
          at := b.Emit(Instruction(LoadConst, r, 0, 0, Wrap32(index)));
          vars' := vars + [r];
        case LetBinop(_, op, y, z) =>
          var r := TakeLocal(l);
          AppendsOne(d, Op3(op, r, vars[y], vars[z]));
          at := b.Emit(Op3(op, r, vars[y], vars[z]));
          vars' := vars + [r];
      }
    }

    /** The scratch register is loaded with the immediate, then used. */
    method EmitWithScratch(s: Stmt, vars: seq<u8>, ghost l: Layout) returns (vars': seq<u8>)
      requires UsesScratch(s) && Sound(b.State()) && Mirrors(l) && vars == l.vars && Scoped(s, |vars|)
      modifies this, b
      ensures Emitted(s, l) && vars' == Compile(s, l).1.vars
    {
      hide Appends, Resolve, Sound, Wrap32, JumpMap;
      ghost var d := b.State();
      vars' := vars;
      var t := TakeTemp(l);
      var at := b.Emit(LoadImmTo(t, s.imm));
      var second;
      if s.AddImm? {
        second := Op3(Add, vars[s.x], vars[s.x], t);
      } else {
        var r := TakeLocal(Temp(l).1);
        second := Op3(s.op, r, vars[s.y], t);
        vars' := vars + [r];
      }
      at := b.Emit(second);
      AppendsTwo(d, LoadImmTo(t, s.imm), second);
    }
  }

  lemma AppendsTwo(d: Draft, i: Instruction, j: Instruction)
    requires Sound(d)
    ensures Sound(Push(d, i)) && Sound(Push(Push(d, i), j)) && Appends(d, Push(Push(d, i), j), [i, j])
  {
    AppendsOne(d, i);
    AppendsOne(Push(d, i), j);
    AppendsTrans(d, Push(d, i), Push(Push(d, i), j), [i], [j]);
  }

  // ----- whole programs -----

  /** A function: its body, then `return_` of one of its handles if there is a result. */
  datatype Source = Source(name: seq<u8>, arity: u8, body: Stmt, result: Option<Var>)

  predicate WellScoped(src: Source) {
    && Scoped(src.body, Max(src.arity, 4))
    && (src.result.Some? ==> src.result.value < HandleCount(src.body, src.arity))
  }

  function ReturnCode(src: Source, l: Layout): seq<Instruction> {
    if src.result.Some? then [ReturnOf(Reg(l, src.result.value))] else []
  }

  function FunctionCode(src: Source, pool: seq<Value>): seq<Instruction> {
    var (code, f) := Compile(src.body, Opened(src.arity, pool));
    code + ReturnCode(src, f)
  }

  function FunctionLayout(src: Source, pool: seq<Value>): Layout {
    Compile(src.body, Opened(src.arity, pool)).1
  }

  function Definition(src: Source, pool: seq<Value>, at: nat): FunctionDef {
    FunctionDef(src.name, Truncate32(at), src.arity, Saturated(FunctionLayout(src, pool).next))
  }

  /** A function's code is settled, and the rest of the draft cannot change it. */
  ghost predicate Settled(d: Draft, def: FunctionDef, constants: seq<Value>, src: Source, pool: seq<Value>, at: nat) {
    var code := FunctionCode(src, pool);
    && def == Definition(src, pool, at)
    && FunctionLayout(src, pool).pool <= constants
    && at + |code| <= |d.code|
    && (forall i :: 0 <= i < |code| ==> Resolve(d, at + i) == code[i])
    && (forall i :: at <= i < at + |code| && i in d.jumps ==> d.jumps[i] in d.targets)
  }

  lemma SettlesNew(d: Draft, e: Draft, constants: seq<Value>, src: Source, pool: seq<Value>)
    requires Appends(d, e, FunctionCode(src, pool)) && FunctionLayout(src, pool).pool <= constants
    ensures Settled(e, Definition(src, pool, |d.code|), constants, src, pool, |d.code|)
  {
    hide FunctionCode, FunctionLayout;
  }

  lemma AppendsReturn(d: Draft, e: Draft, src: Source, pool: seq<Value>)
    requires Sound(d) && Appends(d, e, Compile(src.body, Opened(src.arity, pool)).0)
    ensures Sound(e)
    ensures src.result.None? ==> Appends(d, e, FunctionCode(src, pool))
    ensures src.result.Some? ==>
              var e' := Push(e, ReturnOf(Reg(FunctionLayout(src, pool), src.result.value)));
              Sound(e') && Appends(d, e', FunctionCode(src, pool))
  {
    var (code, f) := Compile(src.body, Opened(src.arity, pool));
    assert code + [] == code;
    if src.result.Some? {
      var last := ReturnOf(Reg(f, src.result.value));
      AppendsOne(e, last);
      AppendsTrans(d, e, Push(e, last), code, [last]);
    }
  }

  /** `Program::function`. */
  method EmitFunction(b: ChunkBuilder, src: Source)
    requires Sound(b.State()) && WellScoped(src)
    modifies b
    ensures Sound(b.State()) && Appends(old(b.State()), b.State(), FunctionCode(src, old(b.constants)))
    ensures b.constants == FunctionLayout(src, old(b.constants)).pool && old(b.constants) <= b.constants
    ensures b.functions == old(b.functions) + [Definition(src, old(b.constants), |old(b.code)|)]
  {
    hide Compile, Appends, Sound, Resolve, JumpMap, FunctionCode;
    ghost var l := Opened(src.arity, b.constants);
    ghost var d, pool := b.State(), b.constants;
    var f := new FnBuilder.Open(b, src.name, src.arity);
    var handles := seq(Max(src.arity, 4), x requires 0 <= x < Max(src.arity, 4) => x);
    handles := f.EmitStmt(src.body, handles, l);
    PoolGrows(src.body, l);
    CompileGrows(src.body, l);
    AppendsReturn(d, b.State(), src, pool);
    if src.result.Some? {
      var _ := b.Emit(ReturnOf(handles[src.result.value]));
    }
  }

  /** Statement code that the verifier accepts wherever it is placed, in any chunk with these constants. */
  ghost predicate Closed(code: seq<Instruction>, constants: nat) {
    forall i :: 0 <= i < |code| ==> ClosedAt(code[i], i, |code|, constants)
  }

  ghost predicate ClosedAt(instr: Instruction, at: nat, length: nat, constants: nat) {
    && !instr.op.Spawn? && !instr.op.Call?
    && (instr.op.LoadConst? ==> AsU32(instr.imm) < constants)
    && (instr.op.Jump? || instr.op.Branch? ==> 0 <= at + 1 + instr.imm <= length)
  }

  lemma ClosedConcat(a: seq<Instruction>, b: seq<Instruction>, m: nat, n: nat)
    requires Closed(a, m) && Closed(b, n) && m <= n
    ensures Closed(a + b, n)
  {
    forall i | 0 <= i < |a + b| ensures ClosedAt((a + b)[i], i, |a + b|, n) {
      if i < |a| {
        assert ClosedAt(a[i], i, |a|, m);
      } else {
        assert ClosedAt(b[i - |a|], i - |a|, |b|, n);
      }
    }
  }

  lemma ClosedLoop(cond: u8, counter: u8, limit: u8, body: seq<Instruction>, n: nat)
    requires Closed(body, n) && |body| + 3 < 0x8000_0000
    ensures Closed(LoopHead(cond, counter, limit, |body|) + body + [LoopBack(|body|)], n)
  {
    var code := LoopHead(cond, counter, limit, |body|) + body + [LoopBack(|body|)];
    forall i | 0 <= i < |code| ensures ClosedAt(code[i], i, |code|, n) {
      if 2 <= i < |body| + 2 {
        assert code[i] == body[i - 2];
        assert ClosedAt(body[i - 2], i - 2, |body|, n);
      }
    }
  }

  /** The lowering emits no call, no constant that is not pooled and no jump out of its own code. */
  lemma {:induction false} CompileIsClosed(s: Stmt, l: Layout)
    requires Scoped(s, |l.vars|)
    requires |Compile(s, l).0| < 0x8000_0000 && |Compile(s, l).1.pool| <= 0x1_0000_0000
    ensures Closed(Compile(s, l).0, |Compile(s, l).1.pool|)
  {
    hide Wrap32, AsU32, LoopHead, LoopBack;
    PoolGrows(s, l);
    match s {
      case Then(a, b) =>
        var (first, l1) := Compile(a, l);
        CompileGrows(a, l);
        PoolGrows(b, l1);
        CompileIsClosed(a, l);
        CompileIsClosed(b, l1);
        hide Closed, Compile;
        ClosedConcat(first, Compile(b, l1).0, |l1.pool|, |Compile(b, l1).1.pool|);
      case WhileLt(counter, limit, body) =>
        LoopLength(counter, limit, body, l);
        CompileIsClosed(body, Local(l).1);
        LoopCode(counter, limit, body, l);
        hide Closed, Compile;
        ClosedLoop(Local(l).0, Reg(l, counter), Reg(l, limit), Compile(body, Local(l).1).0,
                   |Compile(s, l).1.pool|);
      case LetInt(_, k) => IndexSurvives(PoolIndex(l.pool, Int(k)));
      case _ =>
    }
  }

  lemma LoopLength(counter: Var, limit: Var, body: Stmt, l: Layout)
    ensures |Compile(WhileLt(counter, limit, body), l).0| == |Compile(body, Local(l).1).0| + 3
  {
  }

  ghost predicate AllInts(pool: seq<Value>) {
    forall i :: 0 <= i < |pool| ==> pool[i].Int?
  }

  lemma {:induction false} PoolStaysInts(s: Stmt, l: Layout)
    requires AllInts(l.pool)
    ensures AllInts(Compile(s, l).1.pool)
  {
    match s {
      case Then(a, b) =>
        PoolStaysInts(a, l);
        PoolStaysInts(b, Compile(a, l).1);
      case WhileLt(_, _, body) => PoolStaysInts(body, Local(l).1);
      case _ =>
    }
  }

  /** Statements that emit at least one instruction. */
  predicate HasCode(s: Stmt) {
    match s
    case Skip => false
    case Then(a, b) => HasCode(a) || HasCode(b)
    case _ => true
  }

  lemma {:induction false} HasCodeIsExact(s: Stmt, l: Layout)
    ensures HasCode(s) <==> Compile(s, l).0 != []
  {
    match s {
      case Then(a, b) =>
        HasCodeIsExact(a, l);
        HasCodeIsExact(b, Compile(a, l).1);
      case _ =>
    }
  }

  predicate Emits(src: Source) {
    src.result.Some? || HasCode(src.body)
  }

  /** What is known of a finished chunk whose functions were emitted one after the other at `ats`. */
  ghost predicate Assembled(c: Chunk, sources: seq<Source>, ats: seq<nat>) {
    && |c.functions| == |sources| == |ats|
    && AllInts(c.constants) && Closed(c.code, |c.constants|)
    && (forall j :: 0 <= j < |sources| ==> ats[j] <= ats[|sources| - 1] && c.functions[j].entry == Truncate32(ats[j]))
    && (forall j :: 0 <= j < |sources| ==> c.functions[j].arity <= c.functions[j].numRegisters)
    && (sources != [] ==> (ats[|sources| - 1] < |c.code| <==> Emits(sources[|sources| - 1])))
    && (sources != [] ==> ats[|sources| - 1] <= |c.code|)
  }

  /** An assembled chunk is accepted exactly when it has functions and the last of them has code. */
  lemma AssembledVerifies(c: Chunk, sources: seq<Source>, ats: seq<nat>, trust: Trust)
    requires Assembled(c, sources, ats) && |c.code| < 0x8000_0000
    ensures VerifyWith(c, trust).Ok? <==> sources != [] && Emits(sources[|sources| - 1])
  {
    hide VerifyWith, Emits;
    VerifyIsExact(c, trust);
    forall at: nat ensures InstructionOk(c, at) {
      if at < |c.code| {
        assert ClosedAt(c.code[at], at, |c.code|, |c.constants|);
      }
    }
    if sources != [] {
      var last := |sources| - 1;
      if Emits(sources[last]) {
        forall i: nat ensures FunctionOk(c, i) {
        }
      } else {
        assert !FunctionOk(c, last);
      }
    }
  }

  /** What the assembler knows after some of the functions. */
  ghost predicate Progress(d: Draft, constants: seq<Value>, functions: seq<FunctionDef>, sources: seq<Source>,
                           pools: seq<seq<Value>>, ats: seq<nat>)
  {
    && |functions| == |sources| == |pools| == |ats|
    && Sound(d) && AllInts(constants)
    && (|d.code| < 0x8000_0000 && |constants| <= 0x1_0000_0000 ==> Closed(ResolveAll(d), |constants|))
    && (forall j :: 0 <= j < |sources| ==> Settled(d, functions[j], constants, sources[j], pools[j], ats[j]))
    && (forall j :: 0 <= j < |sources| ==> ats[j] <= ats[|sources| - 1])
    && (sources != [] ==>
          var last := |sources| - 1;
          |d.code| == ats[last] + |FunctionCode(sources[last], pools[last])|)
  }

  lemma NoProgress()
    ensures Sound(Draft([], map[], map[], 0))
    ensures Progress(Draft([], map[], map[], 0), [], [], [], [], [])
  {
  }

  /** Older code resolves as before. */
  lemma AppendsResolved(d: Draft, e: Draft, piece: seq<Instruction>)
    requires Sound(d) && Appends(d, e, piece)
    ensures ResolveAll(e) == ResolveAll(d) + piece
  {
    forall i | 0 <= i < |e.code| ensures Resolve(e, i) == (ResolveAll(d) + piece)[i] {
      if i < |d.code| {
        assert e.code[i] == e.code[..|d.code|][i] == d.code[i];
      } else {
        assert Resolve(e, |d.code| + (i - |d.code|)) == piece[i - |d.code|];
      }
    }
  }

  lemma FunctionIsClosed(src: Source, pool: seq<Value>)
    requires WellScoped(src)
    requires |FunctionCode(src, pool)| < 0x8000_0000 && |FunctionLayout(src, pool).pool| <= 0x1_0000_0000
    ensures Closed(FunctionCode(src, pool), |FunctionLayout(src, pool).pool|)
  {
    hide Compile;
    var (code, f) := Compile(src.body, Opened(src.arity, pool));
    OpenedIsTidy(src.arity, pool);
    CompileIsClosed(src.body, Opened(src.arity, pool));
    ClosedConcat(code, ReturnCode(src, f), |f.pool|, |f.pool|);
  }

  lemma ProgressClosed(d: Draft, e: Draft, constants: seq<Value>, src: Source, more: seq<Value>)
    requires Sound(d) && Appends(d, e, FunctionCode(src, constants)) && WellScoped(src)
    requires |d.code| < 0x8000_0000 && |constants| <= 0x1_0000_0000 ==> Closed(ResolveAll(d), |constants|)
    requires more == FunctionLayout(src, constants).pool && constants <= more
    requires |e.code| < 0x8000_0000 && |more| <= 0x1_0000_0000
    ensures Closed(ResolveAll(e), |more|)
  {
    hide Closed, FunctionCode, FunctionLayout, Resolve, Sound;
    AppendsResolved(d, e, FunctionCode(src, constants));
    FunctionIsClosed(src, constants);
    ClosedConcat(ResolveAll(d), FunctionCode(src, constants), |constants|, |more|);
  }

  lemma ProgressStep(d: Draft, e: Draft, constants: seq<Value>, more: seq<Value>, functions: seq<FunctionDef>,
                     sources: seq<Source>, pools: seq<seq<Value>>, ats: seq<nat>, src: Source)
    requires Progress(d, constants, functions, sources, pools, ats) && WellScoped(src)
    requires Appends(d, e, FunctionCode(src, constants))
    requires more == FunctionLayout(src, constants).pool && constants <= more
    ensures Progress(e, more, functions + [Definition(src, constants, |d.code|)], sources + [src],
                     pools + [constants], ats + [|d.code|])
  {
    hide Settled, Closed, FunctionCode, Resolve, Compile;
    if |e.code| < 0x8000_0000 && |more| <= 0x1_0000_0000 {
      ProgressClosed(d, e, constants, src, more);
    }
    PoolStaysInts(src.body, Opened(src.arity, constants));
    SettlesNew(d, e, more, src, constants);
    forall j | 0 <= j < |sources| ensures Settled(e, functions[j], more, sources[j], pools[j], ats[j]) {
      StaysSettled(d, e, FunctionCode(src, constants), functions[j], constants, more, sources[j], pools[j], ats[j]);
    }
    forall j | 0 <= j < |sources| ensures ats[j] <= |d.code| {
    }
  }

  lemma ProgressAssembled(d: Draft, c: Chunk, sources: seq<Source>, pools: seq<seq<Value>>, ats: seq<nat>)
    requires Progress(d, c.constants, c.functions, sources, pools, ats) && c.code == ResolveAll(d)
    requires |c.code| < 0x8000_0000 && |c.constants| <= 0x1_0000_0000
    ensures Assembled(c, sources, ats)
  {
    hide Closed, Compile, Resolve, Sound, HasCode;
    forall j | 0 <= j < |sources|
      ensures c.functions[j].entry == Truncate32(ats[j]) && c.functions[j].arity <= c.functions[j].numRegisters
    {
      assert Settled(d, c.functions[j], c.constants, sources[j], pools[j], ats[j]);
      CompileGrows(sources[j].body, Opened(sources[j].arity, pools[j]));
    }
    if sources != [] {
      var last := |sources| - 1;
      HasCodeIsExact(sources[last].body, Opened(sources[last].arity, pools[last]));
    }
  }

  /** Assemble functions one after the other into one module. */
  method Assemble(name: seq<u8>, sources: seq<Source>) returns (c: Chunk, ghost pools: seq<seq<Value>>)
    requires forall j :: 0 <= j < |sources| ==> WellScoped(sources[j])
    ensures |c.functions| == |sources| == |pools|
    ensures |c.code| < 0x8000_0000 && |c.constants| <= 0x1_0000_0000 && |sources| <= 0x1_0000_0000 ==>
              forall j :: 0 <= j < |sources| ==> IsFunction(c, j, sources[j], pools[j])
    ensures |c.code| < 0x8000_0000 && |c.constants| <= 0x1_0000_0000 ==>
              forall trust :: VerifyWith(c, trust).Ok? <==> sources != [] && Emits(sources[|sources| - 1])
  {
    hide Appends, Settled, Sound, Compile, Resolve, JumpMap, Progress, IsFunction, VerifyWith, FunctionCode, WellScoped,
         Assembled, Emits, Closed;
    NoProgress();
    var b := new ChunkBuilder(name);
    pools := [];
    ghost var ats: seq<nat> := [];
    var i := 0;
    while i < |sources|
      invariant 0 <= i <= |sources|
      invariant Sound(b.State())
      invariant Progress(b.State(), b.constants, b.functions, sources[..i], pools, ats)
    {
      var src := sources[i];
      ghost var d, constants, functions := b.State(), b.constants, b.functions;
      EmitFunction(b, src);
      ProgressStep(d, b.State(), constants, b.constants, functions, sources[..i], pools, ats, src);
      assert sources[..i + 1] == sources[..i] + [src];
      pools, ats := pools + [constants], ats + [|d.code|];
      i := i + 1;
    }
    ghost var d := b.State();
    c := b.Finish();
    assert sources[..i] == sources;
    ProgressMeans(d, c, sources, pools, ats);
  }

  /** Function `j` is its source: its body, and the return after it. */
  ghost predicate IsFunction(c: Chunk, j: nat, src: Source, pool: seq<Value>)
  {
    && j < |c.functions| && j < 0x1_0000_0000
    && c.functions[j].arity == src.arity
    && Built(c, j, src.body, pool)
    && (src.result.Some? ==> Returning(c, j, src.body, pool, src.result.value))
  }

  lemma ProgressMeans(d: Draft, c: Chunk, sources: seq<Source>, pools: seq<seq<Value>>, ats: seq<nat>)
    requires Progress(d, c.constants, c.functions, sources, pools, ats) && c.code == ResolveAll(d)
    requires forall j :: 0 <= j < |sources| ==> WellScoped(sources[j])
    ensures |c.functions| == |sources| == |pools|
    ensures |c.code| < 0x8000_0000 && |c.constants| <= 0x1_0000_0000 && |sources| <= 0x1_0000_0000 ==>
              forall j :: 0 <= j < |sources| ==> IsFunction(c, j, sources[j], pools[j])
    ensures |c.code| < 0x8000_0000 && |c.constants| <= 0x1_0000_0000 ==>
              forall trust :: VerifyWith(c, trust).Ok? <==> sources != [] && Emits(sources[|sources| - 1])
  {
    hide Settled, Closed, Compile, Resolve, IsFunction, VerifyWith, FunctionCode, Emits, Assembled, Sound, WellScoped;
    if |c.code| < 0x8000_0000 && |c.constants| <= 0x1_0000_0000 {
      ProgressAssembled(d, c, sources, pools, ats);
      forall trust ensures VerifyWith(c, trust).Ok? <==> sources != [] && Emits(sources[|sources| - 1]) {
        AssembledVerifies(c, sources, ats, trust);
      }
      forall j | 0 <= j < |sources| && |sources| <= 0x1_0000_0000 ensures IsFunction(c, j, sources[j], pools[j]) {
        SettledIsFunction(d, c, j, sources[j], pools[j], ats[j]);
      }
    }
  }

  lemma {:induction false} PoolGrows(s: Stmt, l: Layout)
    ensures l.pool <= Compile(s, l).1.pool
  {
    match s {
      case Then(a, b) =>
        PoolGrows(a, l);
        PoolGrows(b, Compile(a, l).1);
      case WhileLt(_, _, body) => PoolGrows(body, Local(l).1);
      case _ =>
    }
  }

  lemma StaysSettled(d: Draft, e: Draft, piece: seq<Instruction>, def: FunctionDef, constants: seq<Value>,
                     more: seq<Value>, src: Source, pool: seq<Value>, at: nat)
    requires Sound(d) && Appends(d, e, piece) && constants <= more && Settled(d, def, constants, src, pool, at)
    ensures Settled(e, def, more, src, pool, at)
  {
    hide FunctionCode, FunctionLayout;
    var code := FunctionCode(src, pool);
    forall i | 0 <= i < |code| ensures Resolve(e, at + i) == code[i] {
      assert e.code[at + i] == e.code[..|d.code|][at + i] == d.code[at + i];
      assert Resolve(d, at + i) == code[i];
    }
  }

  lemma SettledIsFunction(d: Draft, c: Chunk, id: u32, src: Source, pool: seq<Value>, at: nat)
    requires c.code == ResolveAll(d) && id < |c.functions| && WellScoped(src)
    requires Settled(d, c.functions[id], c.constants, src, pool, at)
    requires |c.code| < 0x8000_0000 && |c.constants| <= 0x1_0000_0000
    ensures IsFunction(c, id, src, pool)
  {
    hide Compile;
    var (code, f) := Compile(src.body, Opened(src.arity, pool));
    OpenedIsTidy(src.arity, pool);
    CompileGrows(src.body, Opened(src.arity, pool));
    forall i | 0 <= i < |FunctionCode(src, pool)| ensures c.code[at + i] == FunctionCode(src, pool)[i] {
      assert c.code[at + i] == Resolve(d, at + i);
    }
    forall i | 0 <= i < |code| ensures c.code[at..at + |code|][i] == code[i] {
      assert FunctionCode(src, pool)[i] == code[i];
    }
    assert c.code[at..at + |code|] == code;
    assert src.result.Some? ==> c.code[at + |code|] == FunctionCode(src, pool)[|code|];
  }
}
