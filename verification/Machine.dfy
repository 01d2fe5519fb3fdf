/**
 The register VM (crates/byteflow/src/vm/{machine,frame}.rs): one instruction as a
 function, the budgeted run, what verification buys, and how quanta compose.
 */
module Machine {
  import opened Wrappers
  import opened Values
  import opened Bytecode

  const MAX_CALL_DEPTH: nat := 4096

  datatype Fault =
    | DivideByZero
    | RegisterOutOfRange(reg: u8, frameSize: nat)
    | RegisterIndexOverflow(base: u8, offset: u8)
    | BadConstant(index: u32, poolSize: nat)
    | BadFunction(index: u32, tableSize: nat)
    | CallStackOverflow(depth: nat)
    | TypeMismatch(expected: string, got: string)
    | NativeGate(reason: nat)
    | NativeError(reason: nat)
    | Explicit(code: i32)
    | EmptyFrameStack
    | NonArithmeticOpcode

  datatype VmResult =
    | Complete(value: Value)
    | Trapped(fault: Fault)
    | Yielded
    | SleepFor(millis: nat)
    | SpawnFlow(function_: u32, args: seq<Value>, dest: u8, rights: u8)
    | SelfCap(dest: u8)
    | SendHop(cap: u128, message: Value)
    | ReceiveHop(dest: u8, timeout: Option<nat>, tag: Option<u16>, requestId: Option<u64>)
    | AskFlow(dest: u8, cap: u128, request: Value, timeout: Option<nat>)
    | MonitorFlow(dest: u8, cap: u128)
    | DemonitorRef(reg: u8)
    | LinkFlow(dest: u8, cap: u128)
    | UnlinkId(reg: u8)
    | PublishName(name: seq<u8>)
    | LookupName(dest: u8, name: seq<u8>)
    | DelegateCap(dest: u8, cap: u128, wantRights: u32, wantNative: Option<u128>)

  datatype Frame = Frame(function_: nat, pc: nat, registers: seq<Value>, dest: Option<u8>)

  datatype Vm = Vm(frames: seq<Frame>, executed: nat, nextRequestId: u64)

  /** What lies outside the bytecode: the native table with its gate, and float arithmetic. */
  datatype Host = Host(
    gate: u32 -> Option<nat>,
    native: (u32, seq<Value>) -> Result<Value, Fault>,
    float: (Opcode, Value, Value) -> u64,
    floatTest: (Opcode, Value, Value) -> bool,
    floatNeg: u64 -> u64,
    floatEq: (u64, u64) -> bool)

  // ----- registers and frames -----

  function GetReg(m: Vm, r: u8): Result<Value, Fault> {
    if m.frames == [] then Err(EmptyFrameStack)
    else
      var regs := m.frames[|m.frames| - 1].registers;
      if r < |regs| then Ok(regs[r]) else Err(RegisterOutOfRange(r, |regs|))
  }

  function SetReg(m: Vm, r: u8, v: Value): Result<Vm, Fault> {
    if m.frames == [] then Err(EmptyFrameStack)
    else
      var top := m.frames[|m.frames| - 1];
      if r < |top.registers| then
        Ok(m.(frames := m.frames[|m.frames| - 1 := top.(registers := top.registers[r := v])]))
      else Err(RegisterOutOfRange(r, |top.registers|))
  }

  /** Move the program counter of the active frame. */
  function SetPc(m: Vm, pc: nat): Vm
    requires m.frames != []
  {
    m.(frames := m.frames[|m.frames| - 1 := m.frames[|m.frames| - 1].(pc := pc)])
  }

  /** `target as usize`: a negative target wraps to a huge index. */
  function JumpTarget(pc: nat, imm: i32): nat {
    if pc + imm >= 0 then pc + imm else pc + imm + 0x1_0000_0000_0000_0000
  }

  function RegAt(base: u8, offset: nat): Result<u8, Fault> {
    if base + offset < 0x100 then Ok(base + offset)
    else Err(RegisterIndexOverflow(base, if offset < 0x100 then offset else 0xFF))
  }

  /** Arguments from `count` consecutive registers starting at `base + offset`. */
  function GatherArgs(m: Vm, base: u8, offset: nat, count: nat): Result<seq<Value>, Fault>
    decreases count
  {
    if count == 0 then Ok([])
    else
      var r :- RegAt(base, offset);
      var v :- GetReg(m, r);
      var rest :- GatherArgs(m, base, offset + 1, count - 1);
      Ok([v] + rest)
  }

  /** Load the first `count` arguments into the first registers of a fresh file. */
  function LoadArgs(regs: seq<Value>, args: seq<Value>, count: nat, i: nat): (r: Result<seq<Value>, Fault>)
    ensures r.Ok? ==> |r.value| == |regs|
    ensures r.Err? ==> r.error.RegisterOutOfRange? && |regs| < count
    decreases |args| - i
  {
    if i >= |args| || i >= count then Ok(regs)
    else if i < |regs| then LoadArgs(regs[i := args[i]], args, count, i + 1)
    else Err(RegisterOutOfRange(if i < 0x100 then i else 0xFF, |regs|))
  }

  function FreshRegisters(n: nat): (regs: seq<Value>)
    ensures |regs| == n
  {
    seq(n, _ => Unit)
  }

  datatype Outcome = Continue(m: Vm) | Stop(m: Vm, result: VmResult)

  function PopFrame(m: Vm, v: Value): Result<Outcome, Fault> {
    if m.frames == [] then Err(EmptyFrameStack)
    else
      var finished := m.frames[|m.frames| - 1];
      var caller := m.(frames := m.frames[..|m.frames| - 1]);
      match finished.dest
      case None => Ok(Stop(caller, Complete(v)))
      case Some(d) =>
        match SetReg(caller, d, v)
        case Ok(m') => Ok(Continue(m'))
        case Err(_) =>
          var size := if caller.frames == [] then 0 else |caller.frames[|caller.frames| - 1].registers|;
          Ok(Stop(caller, Trapped(RegisterOutOfRange(d, size))))
  }

  // ----- values -----

  function TypeName(v: Value): string {
    match v
    case Unit => "unit" case Bool(_) => "bool" case Int(_) => "int" case Float(_) => "float"
    case Pid(_) => "pid" case Hop(_) => "message" case Cap(_) => "cap" case Str(_) => "str" case Bytes(_) => "bytes"
  }

  /** Structural equality, except that floats compare by the host's rule. */
  function ValueEq(h: Host, a: Value, b: Value): bool {
    match (a, b)
    case (Float(x), Float(y)) => h.floatEq(x, y)
    case (Hop(x), Hop(y)) => x.(payload := Unit) == y.(payload := Unit) && ValueEq(h, x.payload, y.payload)
    case _ => a == b
  }

  function AsFloat(v: Value): Result<(), Fault> {
    if v.Int? || v.Float? then Ok(()) else Err(TypeMismatch("int or float", TypeName(v)))
  }

  function Truncated(x: int, y: int): int
    requires y != 0
  {
    var q := (if x < 0 then -x else x) / (if y < 0 then -y else y);
    if (x < 0) == (y < 0) then q else -q
  }

  function Arithmetic(h: Host, op: Opcode, a: Value, b: Value): Result<Value, Fault> {
    if a.Int? && b.Int? then
      match op
      case Add => Ok(Int(Wrap64(a.i + b.i)))
      case Sub => Ok(Int(Wrap64(a.i - b.i)))
      case Mul => Ok(Int(Wrap64(a.i * b.i)))
      case Div => if b.i == 0 then Err(DivideByZero) else Ok(Int(Wrap64(Truncated(a.i, b.i))))
      case Mod => if b.i == 0 then Err(DivideByZero) else Ok(Int(Wrap64(a.i - Truncated(a.i, b.i) * b.i)))
      case Eq => Ok(Bool(a == b))
      case Lt => Ok(Bool(a.i < b.i))
      case Le => Ok(Bool(a.i <= b.i))
      case _ => Err(NonArithmeticOpcode)
    else if op.Eq? then Ok(Bool(ValueEq(h, a, b)))
    else if op.Div? then
      var _ :- AsFloat(b);
      var _ :- AsFloat(a);
      Ok(Float(h.float(op, a, b)))
    else if op.Add? || op.Sub? || op.Mul? then
      var _ :- AsFloat(a);
      var _ :- AsFloat(b);
      Ok(Float(h.float(op, a, b)))
    else if op.Lt? || op.Le? then
      var _ :- AsFloat(a);
      var _ :- AsFloat(b);
      Ok(Bool(h.floatTest(op, a, b)))
    else Err(NonArithmeticOpcode)
  }

  function CapOf(v: Value): Result<u128, Fault> {
    if v.Cap? then Ok(v.cap) else Err(TypeMismatch("cap", TypeName(v)))
  }

  function HopOf(v: Value): Result<Value, Fault> {
    if v.Hop? then Ok(v) else Err(TypeMismatch("message", TypeName(v)))
  }

  function TagOf(v: Value): Result<u16, Fault> {
    match AsInt(v)
    case Some(i) => if 0 <= i < 0x1_0000 then Ok(i) else Err(TypeMismatch("tag u16", "int-out-of-range"))
    case None => Err(TypeMismatch("int", TypeName(v)))
  }

  function ImmediateTag(imm: i32): Result<u16, Fault> {
    if 0 <= imm < 0x1_0000 then Ok(imm) else Err(TypeMismatch("tag u16", "imm-out-of-range"))
  }

  function RequestIdOf(v: Value): Result<u64, Fault> {
    match AsInt(v)
    case Some(i) => if 0 <= i then Ok(i) else Err(TypeMismatch("request_id u64", "negative-int"))
    case None => Err(TypeMismatch("int", TypeName(v)))
  }

  function NonNegative(v: Value): nat {
    match AsInt(v)
    case Some(n) => if n >= 0 then n else 0
    case None => 0
  }

  // ----- one instruction -----

  predicate IsArithmetic(op: Opcode) {
    op.Add? || op.Sub? || op.Mul? || op.Div? || op.Mod? || op.Eq? || op.Lt? || op.Le?
  }

  /** An instruction that only stores `v` in `r`. */
  function Store(m: Vm, r: u8, v: Value): Result<Outcome, Fault> {
    var m' :- SetReg(m, r, v);
    Ok(Continue(m'))
  }

  function ExecCall(c: Chunk, m: Vm, i: Instruction): Result<Outcome, Fault>
  {
    var function_ := AsU32(i.imm);
    if |m.frames| >= MAX_CALL_DEPTH then Err(CallStackOverflow(|m.frames|))
    else if function_ >= |c.functions| then Err(BadFunction(function_, |c.functions|))
    else
      var def := c.functions[function_];
      var args :- GatherArgs(m, i.a, 0, i.b);
      var regs :- LoadArgs(FreshRegisters(def.numRegisters), args, def.arity, 0);
      Ok(Continue(m.(frames := m.frames + [Frame(function_, def.entry, regs, Some(i.a))])))
  }

  function ExecNative(h: Host, m: Vm, i: Instruction): Result<Outcome, Fault> {
    match h.gate(AsU32(i.imm))
    case Some(reason) => Err(NativeGate(reason))
    case None =>
      var args :- GatherArgs(m, i.a, 0, i.b);
      match h.native(AsU32(i.imm), args)
      case Ok(v) => Store(m, i.a, v)
      case Err(fault) => Err(fault)
  }

  function ExecAsk(m: Vm, i: Instruction, target: Value, request: Value,
                   timeout: Option<nat>): Result<VmResult, Fault> {
    var cap :- CapOf(target);
    var hop :- HopOf(request);
    Ok(AskFlow(i.a, cap, hop, timeout))
  }

  /** The receive family: which filter, and how long to wait. */
  function ExecReceive(m: Vm, i: Instruction): Result<VmResult, Fault> {
    match i.op
    case ReceiveTimeout =>
      var v :- GetReg(m, i.b);
      Ok(ReceiveHop(i.a, Some(NonNegative(v)), None, None))
    case ReceiveMatch =>
      var v :- GetReg(m, i.b);
      var tag :- TagOf(v);
      Ok(ReceiveHop(i.a, None, Some(tag), None))
    case ReceiveMatchImm =>
      var tag :- ImmediateTag(i.imm);
      Ok(ReceiveHop(i.a, None, Some(tag), None))
    case ReceiveMatchCorr =>
      var v :- GetReg(m, i.b);
      var tag :- TagOf(v);
      var id :- GetReg(m, i.c);
      var rid :- RequestIdOf(id);
      Ok(ReceiveHop(i.a, None, Some(tag), Some(rid)))
    case ReceiveMatchCorrImm =>
      var tag :- ImmediateTag(i.imm);
      var id :- GetReg(m, i.b);
      var rid :- RequestIdOf(id);
      Ok(ReceiveHop(i.a, None, Some(tag), Some(rid)))
    case _ => Ok(ReceiveHop(i.a, None, None, None))
  }

  /** Instructions addressed through a capability register. */
  function ExecAddressed(m: Vm, i: Instruction): Result<VmResult, Fault> {
    match i.op
    case Send =>
      var target :- GetReg(m, i.a);
      var message :- GetReg(m, i.b);
      var cap :- CapOf(target);
      var hop :- HopOf(message);
      Ok(SendHop(cap, hop))
    case Ask =>
      var target :- GetReg(m, i.b);
      var request :- GetReg(m, i.c);
      ExecAsk(m, i, target, request, None)
    case AskTimeout =>
      var target :- GetReg(m, i.b);
      var request :- GetReg(m, i.c);
      if !(0 <= i.imm < 0x100) then Err(TypeMismatch("millis register", "imm-out-of-range"))
      else
        var millis :- GetReg(m, i.imm);
        ExecAsk(m, i, target, request, Some(NonNegative(millis)))
    case Monitor =>
      var target :- GetReg(m, i.b);
      var cap :- CapOf(target);
      Ok(MonitorFlow(i.a, cap))
    case Link =>
      var target :- GetReg(m, i.b);
      var cap :- CapOf(target);
      Ok(LinkFlow(i.a, cap))
    case _ =>
      var src :- GetReg(m, i.b);
      var cap :- CapOf(src);
      if i.c == 0xFF then Ok(DelegateCap(i.a, cap, AsU32(i.imm), None))
      else
        var v :- GetReg(m, i.c);
        var native :- CapOf(v);
        Ok(DelegateCap(i.a, cap, AsU32(i.imm), Some(native)))
  }

  /** Instructions that hand an effect to the scheduler; they leave the machine alone. */
  function ExecEffect(m: Vm, i: Instruction): Result<VmResult, Fault> {
    match i.op
    case Spawn =>
      var args :- GatherArgs(m, i.a, 1, i.b);
      Ok(SpawnFlow(AsU32(i.imm), args, i.a, i.c))
    case Yield => Ok(Yielded)
    case Sleep =>
      var v :- GetReg(m, i.a);
      (match AsInt(v)
       case Some(ms) => if ms >= 0 then Ok(SleepFor(ms)) else Err(TypeMismatch("non-negative int", TypeName(v)))
       case None => Err(TypeMismatch("non-negative int", TypeName(v))))
    case SelfPid => Ok(SelfCap(i.a))
    case Receive => ExecReceive(m, i)
    case ReceiveTimeout => ExecReceive(m, i)
    case ReceiveMatch => ExecReceive(m, i)
    case ReceiveMatchImm => ExecReceive(m, i)
    case ReceiveMatchCorr => ExecReceive(m, i)
    case ReceiveMatchCorrImm => ExecReceive(m, i)
    case Send => ExecAddressed(m, i)
    case Ask => ExecAddressed(m, i)
    case AskTimeout => ExecAddressed(m, i)
    case Monitor => ExecAddressed(m, i)
    case Link => ExecAddressed(m, i)
    case Delegate => ExecAddressed(m, i)
    case Demonitor => Ok(DemonitorRef(i.a))
    case Unlink => Ok(UnlinkId(i.a))
    case RegisterName =>
      var v :- GetReg(m, i.a);
      if v.Str? then Ok(PublishName(v.utf8)) else Err(TypeMismatch("str", TypeName(v)))
    case Whereis =>
      var v :- GetReg(m, i.b);
      if v.Str? then Ok(LookupName(i.a, v.utf8)) else Err(TypeMismatch("str", TypeName(v)))
    case _ => Err(Explicit(i.imm))
  }

  /** Arithmetic stores its result; everything else here stops with an effect. */
  function ExecRest(h: Host, m: Vm, i: Instruction): Result<Outcome, Fault> {
    if IsArithmetic(i.op) then
      var a :- GetReg(m, i.b);
      var b :- GetReg(m, i.c);
      var v :- Arithmetic(h, i.op, a, b);
      Store(m, i.a, v)
    else
      var r :- ExecEffect(m, i);
      Ok(Stop(m, r))
  }

  /** `fresh_request_id`: never 0, saturating at the top. */
  function TakeRequestId(m: Vm): (u64, Vm) {
    var id: u64 := if m.nextRequestId == 0 then 1 else m.nextRequestId;
    (id, m.(nextRequestId := if id == 0xFFFF_FFFF_FFFF_FFFF then id else id + 1))
  }

  /** Execute a fetched instruction; the program counter is already past it. */
  function Exec(c: Chunk, h: Host, m: Vm, i: Instruction): Result<Outcome, Fault>
    requires m.frames != []
  {
    match i.op
    case Halt =>
      var v :- GetReg(m, 0);
      Ok(Stop(m, Complete(v)))
    case Nop => Ok(Continue(m))
    case LoadConst =>
      if AsU32(i.imm) < |c.constants| then Store(m, i.a, c.constants[AsU32(i.imm)])
      else Err(BadConstant(AsU32(i.imm), |c.constants|))
    case LoadImm => Store(m, i.a, Int(i.imm))
    case Move =>
      var v :- GetReg(m, i.b);
      Store(m, i.a, v)
    case Neg =>
      var v :- GetReg(m, i.b);
      (match v
       case Int(x) => Store(m, i.a, Int(Wrap64(0 - x)))
       case Float(x) => Store(m, i.a, Float(h.floatNeg(x)))
       case _ => Err(TypeMismatch("int or float", TypeName(v))))
    case Jump => Ok(Continue(SetPc(m, JumpTarget(m.frames[|m.frames| - 1].pc, i.imm))))
    case Branch =>
      var cond :- GetReg(m, i.a);
      if IsTruthy(cond) then Ok(Continue(m))
      else Ok(Continue(SetPc(m, JumpTarget(m.frames[|m.frames| - 1].pc, i.imm))))
    case Call => ExecCall(c, m, i)
    case CallNative => ExecNative(h, m, i)
    case Return =>
      var v :- GetReg(m, i.a);
      PopFrame(m, v)
    case Exit =>
      var v :- GetReg(m, i.a);
      Ok(Stop(m, Complete(v)))
    case FreshRequestId =>
      var (id, m1) := TakeRequestId(m);
      (match SetReg(m1, i.a, Int(Wrap64(id)))
       case Ok(m') => Ok(Continue(m'))
       case Err(fault) => Ok(Stop(m1, Trapped(fault))))
    case _ => ExecRest(h, m, i)
  }

  /** Fetch, count and execute one instruction; running off the end returns `Unit`. */
  function Step(c: Chunk, h: Host, m: Vm): Outcome {
    var m1 := m.(executed := m.executed + 1);
    if m1.frames == [] then Stop(m1, Trapped(EmptyFrameStack))
    else
      var pc := m1.frames[|m1.frames| - 1].pc;
      var (m2, r) :=
        if pc < |c.code| then var m2 := SetPc(m1, pc + 1); (m2, Exec(c, h, m2, c.code[pc]))
        else (m1, PopFrame(m1, Unit));
      match r
      case Ok(outcome) => outcome
      case Err(fault) => Stop(m2, Trapped(fault))
  }

  /** At most `budget` instructions; exhausting the budget reads as a yield. */
  function Run(c: Chunk, h: Host, m: Vm, budget: nat): (Vm, VmResult)
    decreases budget
  {
    if budget == 0 then (m, Yielded)
    else
      match Step(c, h, m)
      case Continue(m') => Run(c, h, m', budget - 1)
      case Stop(m', r) => (m', r)
  }

  // ----- starting -----

  function Start(c: Chunk, function_: u32, args: seq<Value>): Result<Vm, Fault> {
    if function_ >= |c.functions| then Err(BadFunction(function_, |c.functions|))
    else
      var def := c.functions[function_];
      var regs :- LoadArgs(FreshRegisters(def.numRegisters), args, def.arity, 0);
      Ok(Vm([Frame(function_, def.entry, regs, None)], 0, 1))
  }

  // ----- what verification buys -----

  ghost predicate FrameOk(c: Chunk, f: Frame) {
    && f.function_ < |c.functions|
    && f.pc <= |c.code|
    && |f.registers| == c.functions[f.function_].numRegisters
  }

  ghost predicate VmOk(c: Chunk, m: Vm) {
    && 1 <= |m.frames| <= MAX_CALL_DEPTH
    && (forall k :: 0 <= k < |m.frames| ==> FrameOk(c, m.frames[k]))
    && (forall k :: 0 <= k < |m.frames| ==> (m.frames[k].dest.None? <==> k == 0))
  }

  /** Faults that verified bytecode can never raise by itself. */
  ghost predicate Structural(f: Fault) {
    f.BadConstant? || f.BadFunction? || f.EmptyFrameStack?
  }

  /** A native the gate admits returns this fault to a call the machine can make. */
  ghost predicate NativeRaises(h: Host, f: Fault) {
    exists i: u32, args: seq<Value> :: |args| < 0x100 && h.gate(i).None? && h.native(i, args) == Err(f)
  }

  /** A structural fault is a native's. */
  ghost predicate Excused(h: Host, f: Fault) {
    Structural(f) ==> NativeRaises(h, f)
  }

  ghost predicate OutcomeOk(c: Chunk, h: Host, o: Outcome) {
    match o
    case Continue(m) => VmOk(c, m)
    case Stop(m, r) =>
      match r
      case Complete(_) => true
      case Trapped(f) => Excused(h, f)
      case _ => VmOk(c, m)
  }

  ghost predicate ExecOk(c: Chunk, h: Host, r: Result<Outcome, Fault>) {
    match r
    case Ok(o) => OutcomeOk(c, h, o)
    case Err(f) => Excused(h, f)
  }

  lemma SetRegOk(c: Chunk, m: Vm, r: u8, v: Value)
    requires VmOk(c, m)
    ensures SetReg(m, r, v).Ok? ==> VmOk(c, SetReg(m, r, v).value)
    ensures SetReg(m, r, v).Err? ==> SetReg(m, r, v).error.RegisterOutOfRange?
  {
  }

  lemma StoreOk(c: Chunk, h: Host, m: Vm, r: u8, v: Value)
    requires VmOk(c, m)
    ensures ExecOk(c, h, Store(m, r, v))
  {
    SetRegOk(c, m, r, v);
  }

  lemma SetPcOk(c: Chunk, m: Vm, pc: nat)
    requires VmOk(c, m) && pc <= |c.code|
    ensures VmOk(c, SetPc(m, pc))
  {
  }

  lemma {:induction false} GatherArgsOk(c: Chunk, m: Vm, base: u8, offset: nat, count: nat)
    requires VmOk(c, m)
    ensures var r := GatherArgs(m, base, offset, count);
            match r case Ok(args) => |args| == count case Err(f) => !Structural(f)
    decreases count
  {
    if count > 0 {
      GatherArgsOk(c, m, base, offset + 1, count - 1);
    }
  }

  lemma PopFrameOk(c: Chunk, h: Host, m: Vm, v: Value)
    requires VmOk(c, m)
    ensures ExecOk(c, h, PopFrame(m, v))
  {
    var caller := m.(frames := m.frames[..|m.frames| - 1]);
    if |m.frames| > 1 {
      assert forall k :: 0 <= k < |caller.frames| ==> caller.frames[k] == m.frames[k];
      assert VmOk(c, caller);
      SetRegOk(c, caller, m.frames[|m.frames| - 1].dest.value, v);
    }
  }

  lemma ExecCallOk(c: Chunk, h: Host, m: Vm, i: Instruction, trust: Trust)
    requires Verified(c, trust) && VmOk(c, m) && AsU32(i.imm) < |c.functions|
    ensures ExecOk(c, h, ExecCall(c, m, i))
  {
    GatherArgsOk(c, m, i.a, 0, i.b);
    assert FunctionOk(c, AsU32(i.imm));
  }

  lemma ExecNativeOk(c: Chunk, h: Host, m: Vm, i: Instruction)
    requires VmOk(c, m)
    ensures ExecOk(c, h, ExecNative(h, m, i))
  {
    GatherArgsOk(c, m, i.a, 0, i.b);
    if h.gate(AsU32(i.imm)).None? && GatherArgs(m, i.a, 0, i.b).Ok? {
      var args := GatherArgs(m, i.a, 0, i.b).value;
      var r := h.native(AsU32(i.imm), args);
      if r.Ok? {
        StoreOk(c, h, m, i.a, r.value);
      } else {
        assert |args| < 0x100 && h.native(AsU32(i.imm), args) == Err(r.error);
      }
    }
  }

  lemma {:induction false} GatherArgsNotStructural(m: Vm, base: u8, offset: nat, count: nat)
    requires m.frames != []
    ensures GatherArgs(m, base, offset, count).Err? ==> !Structural(GatherArgs(m, base, offset, count).error)
    decreases count
  {
    if count > 0 {
      GatherArgsNotStructural(m, base, offset + 1, count - 1);
    }
  }

  ghost predicate EffectOk(r: Result<VmResult, Fault>) {
    match r case Ok(e) => !e.Complete? && !e.Trapped? case Err(f) => !Structural(f)
  }

  lemma ExecReceiveOk(m: Vm, i: Instruction)
    requires m.frames != []
    ensures EffectOk(ExecReceive(m, i))
  {
  }

  lemma ExecAddressedOk(m: Vm, i: Instruction)
    requires m.frames != []
    ensures EffectOk(ExecAddressed(m, i))
  {
  }

  lemma ExecEffectOk(m: Vm, i: Instruction)
    requires m.frames != []
    ensures EffectOk(ExecEffect(m, i))
  {
    ExecReceiveOk(m, i);
    ExecAddressedOk(m, i);
    hide ExecReceive, ExecAddressed;
    GatherArgsNotStructural(m, i.a, 1, i.b);
  }

  lemma ExecRestOk(c: Chunk, h: Host, m: Vm, i: Instruction)
    requires VmOk(c, m)
    ensures ExecOk(c, h, ExecRest(h, m, i))
  {
    hide ExecEffect;
    if IsArithmetic(i.op) {
      var a, b := GetReg(m, i.b), GetReg(m, i.c);
      if a.Ok? && b.Ok? {
        var v := Arithmetic(h, i.op, a.value, b.value);
        if v.Ok? {
          StoreOk(c, h, m, i.a, v.value);
        }
      }
    } else {
      ExecEffectOk(m, i);
    }
  }

  lemma ExecKeepsOk(c: Chunk, h: Host, m: Vm, at: nat, trust: Trust)
    requires Verified(c, trust) && VmOk(c, m)
    requires at < |c.code| && m.frames[|m.frames| - 1].pc == at + 1
    ensures ExecOk(c, h, Exec(c, h, m, c.code[at]))
  {
    hide ExecRest;
    var i := c.code[at];
    assert InstructionOk(c, at);
    match i.op {
      case LoadConst => StoreOk(c, h, m, i.a, c.constants[AsU32(i.imm)]);
      case LoadImm => StoreOk(c, h, m, i.a, Int(i.imm));
      case Move => if GetReg(m, i.b).Ok? { StoreOk(c, h, m, i.a, GetReg(m, i.b).value); }
      case Neg =>
        var v := GetReg(m, i.b);
        if v.Ok? && v.value.Int? { StoreOk(c, h, m, i.a, Int(Wrap64(0 - v.value.i))); }
        if v.Ok? && v.value.Float? { StoreOk(c, h, m, i.a, Float(h.floatNeg(v.value.bits))); }
      case Jump => SetPcOk(c, m, at + 1 + i.imm);
      case Branch => SetPcOk(c, m, at + 1 + i.imm);
      case Call => ExecCallOk(c, h, m, i, trust);
      case CallNative => ExecNativeOk(c, h, m, i);
      case Return => if GetReg(m, i.a).Ok? { PopFrameOk(c, h, m, GetReg(m, i.a).value); }
      case FreshRequestId =>
        var (id, m1) := TakeRequestId(m);
        assert VmOk(c, m1);
        SetRegOk(c, m1, i.a, Int(Wrap64(id)));
      case Halt =>
      case Nop =>
      case Exit =>
      case _ => ExecRestOk(c, h, m, i);
    }
  }

  /** One instruction of a verified chunk keeps every frame in bounds and never traps structurally. */
  lemma StepKeepsOk(c: Chunk, h: Host, m: Vm, trust: Trust)
    requires Verified(c, trust) && VmOk(c, m)
    ensures OutcomeOk(c, h, Step(c, h, m))
  {
    hide Exec;
    var m1 := m.(executed := m.executed + 1);
    assert VmOk(c, m1);
    var pc := m1.frames[|m1.frames| - 1].pc;
    if pc < |c.code| {
      SetPcOk(c, m1, pc + 1);
      ExecKeepsOk(c, h, SetPc(m1, pc + 1), pc, trust);
    } else {
      PopFrameOk(c, h, m1, Unit);
    }
  }

  /** A whole quantum keeps the bounds: what the scheduler gets back may be resumed. */
  lemma {:induction false} RunKeepsOk(c: Chunk, h: Host, m: Vm, budget: nat, trust: Trust)
    requires Verified(c, trust) && VmOk(c, m)
    ensures OutcomeOk(c, h, Stop(Run(c, h, m, budget).0, Run(c, h, m, budget).1))
    decreases budget
  {
    if budget > 0 {
      StepKeepsOk(c, h, m, trust);
      match Step(c, h, m) {
        case Continue(m') => RunKeepsOk(c, h, m', budget - 1, trust);
        case Stop(_, _) =>
      }
    }
  }

  /** A verified chunk can be entered at any of its functions, with any arguments. */
  lemma StartOk(c: Chunk, function_: u32, args: seq<Value>, trust: Trust)
    requires Verified(c, trust)
    ensures Start(c, function_, args).Ok? <==> function_ < |c.functions|
    ensures Start(c, function_, args).Ok? ==> VmOk(c, Start(c, function_, args).value)
  {
    if function_ < |c.functions| {
      assert FunctionOk(c, function_);
    }
  }

  /** What happens to a flow between two quanta: the scheduler may write its answer to a register. */
  datatype Turn = Turn(budget: nat, answer: Option<(u8, Value)>)

  function Answered(m: Vm, answer: Option<(u8, Value)>): Vm {
    if answer.None? then m
    else match SetReg(m, answer.value.0, answer.value.1) case Ok(m') => m' case Err(_) => m
  }

  /** Turn after turn until the flow completes or traps. */
  function Life(c: Chunk, h: Host, m: Vm, turns: seq<Turn>): (Vm, VmResult)
    decreases |turns|
  {
    if turns == [] then (m, Yielded)
    else
      var (m', r) := Run(c, h, m, turns[0].budget);
      if r.Complete? || r.Trapped? then (m', r)
      else Life(c, h, Answered(m', turns[0].answer), turns[1..])
  }

  lemma {:induction false} LifeKeepsOk(c: Chunk, h: Host, m: Vm, turns: seq<Turn>, trust: Trust)
    requires Verified(c, trust) && VmOk(c, m)
    ensures OutcomeOk(c, h, Stop(Life(c, h, m, turns).0, Life(c, h, m, turns).1))
    decreases |turns|
  {
    if turns != [] {
      RunKeepsOk(c, h, m, turns[0].budget, trust);
      var (m', r) := Run(c, h, m, turns[0].budget);
      if !(r.Complete? || r.Trapped?) {
        if turns[0].answer.Some? {
          SetRegOk(c, m', turns[0].answer.value.0, turns[0].answer.value.1);
        }
        LifeKeepsOk(c, h, Answered(m', turns[0].answer), turns[1..], trust);
      }
    }
  }

  /**
   From entry on, over any sequence of quanta and scheduler answers, an accepted chunk
   keeps pcs, register files, frame destinations and call depth in bounds, and traps on a
   bad constant, a bad function or an empty frame stack only if a native returned that fault.
   */
  lemma VerifiedChunksStayInBounds(c: Chunk, h: Host, trust: Trust, function_: u32, args: seq<Value>, turns: seq<Turn>)
    requires VerifyWith(c, trust).Ok? && Start(c, function_, args).Ok?
    ensures var (m, r) := Life(c, h, Start(c, function_, args).value, turns);
            OutcomeOk(c, h, Stop(m, r))
  {
    hide Life, OutcomeOk, Start;
    VerifyIsExact(c, trust);
    StartOk(c, function_, args, trust);
    LifeKeepsOk(c, h, Start(c, function_, args).value, turns, trust);
  }

  // ----- natives that return the machine's own faults -----

  /** No admitted native ever returns a structural fault. */
  ghost predicate NativesBehave(h: Host) {
    forall i: u32, args: seq<Value> :: |args| < 0x100 && h.gate(i).None? && h.native(i, args).Err? ==>
      !Structural(h.native(i, args).error)
  }

  /** This life, if the chunk is accepted and the function exists, ends without a structural fault. */
  ghost predicate SafeLife(c: Chunk, h: Host, trust: Trust, function_: u32, args: seq<Value>, turns: seq<Turn>) {
    VerifyWith(c, trust).Ok? && Start(c, function_, args).Ok? ==>
      var r := Life(c, h, Start(c, function_, args).value, turns).1;
      r.Trapped? ==> !Structural(r.fault)
  }

  /** One function that hands its arguments to native `i`. */
  function NativeCaller(i: u32, argc: u8): Chunk {
    Chunk([], [], [Instruction(CallNative, 0, argc, 0, Wrap32(i))], [FunctionDef([], 0, argc, argc)])
  }

  lemma {:induction false} LoadsAll(regs: seq<Value>, args: seq<Value>, i: nat)
    requires |regs| == |args| && i <= |args| && regs[..i] == args[..i]
    ensures LoadArgs(regs, args, |args|, i) == Ok(args)
    decreases |args| - i
  {
    if i < |args| {
      var next := regs[i := args[i]];
      assert next[..i + 1] == args[..i + 1];
      LoadsAll(next, args, i + 1);
    } else {
      assert regs == args;
    }
  }

  lemma {:induction false} GathersAll(m: Vm, args: seq<Value>, offset: nat)
    requires m.frames != [] && m.frames[|m.frames| - 1].registers == args && offset <= |args| < 0x100
    ensures GatherArgs(m, 0, offset, |args| - offset) == Ok(args[offset..])
    decreases |args| - offset
  {
    if offset < |args| {
      GathersAll(m, args, offset + 1);
      assert [args[offset]] + args[offset + 1..] == args[offset..];
    } else {
      assert args[offset..] == [];
    }
  }

  /** Called with these arguments, the accepted chunk traps with whatever the native returns. */
  lemma NativeFaultEscapes(h: Host, i: u32, args: seq<Value>, trust: Trust)
    requires |args| < 0x100 && h.gate(i).None? && h.native(i, args).Err?
    ensures var c := NativeCaller(i, |args|);
            && VerifyWith(c, trust).Ok? && Start(c, 0, args).Ok?
            && Life(c, h, Start(c, 0, args).value, [Turn(1, None)]).1 == Trapped(h.native(i, args).error)
  {
    var c := NativeCaller(i, |args|);
    VerifyIsExact(c, trust);
    assert FreshRegisters(|args|)[..0] == args[..0];
    LoadsAll(FreshRegisters(|args|), args, 0);
    var m := Start(c, 0, args).value;
    var m1 := SetPc(m.(executed := 1), 1);
    IndexSurvives(i);
    GathersAll(m1, args, 0);
    assert args[0..] == args;
    assert Exec(c, h, m1, c.code[0]) == ExecNative(h, m1, c.code[0]) == Err(h.native(i, args).error);
    StepTraps(c, h, m, m1, h.native(i, args).error);
    hide Step;
    assert Run(c, h, m, 1) == (m1, Trapped(h.native(i, args).error));
  }

  lemma StepTraps(c: Chunk, h: Host, m: Vm, m1: Vm, f: Fault)
    requires m.frames != [] && m.frames[|m.frames| - 1].pc < |c.code|
    requires m1 == SetPc(m.(executed := m.executed + 1), m.frames[|m.frames| - 1].pc + 1)
    requires Exec(c, h, m1, c.code[m.frames[|m.frames| - 1].pc]) == Err(f)
    ensures Step(c, h, m) == Stop(m1, Trapped(f))
  {
    hide Exec;
  }

  /**
   Accepted chunks are free of structural traps, all of them and for ever, exactly under hosts whose
   natives behave.
   */
  lemma StructuralTrapsAreNatives(h: Host)
    ensures NativesBehave(h) <==>
            forall c, trust, function_, args, turns :: SafeLife(c, h, trust, function_, args, turns)
  {
    hide SafeLife;
    if NativesBehave(h) {
      forall c, trust, function_, args, turns ensures SafeLife(c, h, trust, function_, args, turns) {
        GoodNativesAreSafe(c, h, trust, function_, args, turns);
      }
    }
    if forall c, trust, function_, args, turns :: SafeLife(c, h, trust, function_, args, turns) {
      forall i: u32, args: seq<Value> | |args| < 0x100 && h.gate(i).None? && h.native(i, args).Err?
        ensures !Structural(h.native(i, args).error)
      {
        NativeFaultEscapes(h, i, args, Trusted);
        SafeLifeMeans(NativeCaller(i, |args|), h, Trusted, 0, args, [Turn(1, None)]);
      }
    }
  }

  lemma SafeLifeMeans(c: Chunk, h: Host, trust: Trust, function_: u32, args: seq<Value>, turns: seq<Turn>)
    requires SafeLife(c, h, trust, function_, args, turns)
    requires VerifyWith(c, trust).Ok? && Start(c, function_, args).Ok?
    ensures var r := Life(c, h, Start(c, function_, args).value, turns).1;
            r.Trapped? ==> !Structural(r.fault)
  {
    hide Life, Start, VerifyWith;
  }

  lemma GoodNativesAreSafe(c: Chunk, h: Host, trust: Trust, function_: u32, args: seq<Value>, turns: seq<Turn>)
    requires NativesBehave(h)
    ensures SafeLife(c, h, trust, function_, args, turns)
  {
    hide Life, Start, VerifyWith;
    if VerifyWith(c, trust).Ok? && Start(c, function_, args).Ok? {
      VerifiedChunksStayInBounds(c, h, trust, function_, args, turns);
    }
  }

  // ----- two corners of integer arithmetic -----

  /** Negation wraps on the smallest integer and on no other. */
  lemma NegWrapsOnlyAtTheBottom(x: i64)
    ensures Wrap64(0 - x) + x == 0 <==> x != -0x8000_0000_0000_0000
    ensures x == -0x8000_0000_0000_0000 ==> Wrap64(0 - x) == x
  {
  }

  /** The remainder of anything but two integers breaks an invariant instead of naming a type. */
  lemma ModNeedsIntegers(h: Host, a: Value, b: Value)
    ensures Arithmetic(h, Mod, a, b) == Err(NonArithmeticOpcode) <==> !(a.Int? && b.Int?)
  {
  }

  // ----- splitting a quantum -----

  /** `n` instructions that all continue, if they do. */
  function Steps(c: Chunk, h: Host, m: Vm, n: nat): Option<Vm>
    decreases n
  {
    if n == 0 then Some(m)
    else
      match Step(c, h, m)
      case Continue(m') => Steps(c, h, m', n - 1)
      case Stop(_, _) => None
  }

  lemma {:induction false} StepCounts(c: Chunk, h: Host, m: Vm)
    ensures Step(c, h, m).m.executed == m.executed + 1
  {
    hide Exec;
    if m.frames != [] {
      var m1 := m.(executed := m.executed + 1);
      var pc := m1.frames[|m1.frames| - 1].pc;
      if pc < |c.code| {
        ExecCounts(c, h, SetPc(m1, pc + 1), c.code[pc]);
      }
    }
  }

  lemma ExecCounts(c: Chunk, h: Host, m: Vm, i: Instruction)
    requires m.frames != []
    ensures Exec(c, h, m, i).Ok? ==> Exec(c, h, m, i).value.m.executed == m.executed
  {
  }

  /** A quantum executes at most its budget, and exactly its budget when it is exhausted. */
  lemma {:induction false} RunCounts(c: Chunk, h: Host, m: Vm, budget: nat)
    ensures m.executed <= Run(c, h, m, budget).0.executed <= m.executed + budget
    ensures Steps(c, h, m, budget).Some? ==>
              Run(c, h, m, budget) == (Steps(c, h, m, budget).value, Yielded)
              && Run(c, h, m, budget).0.executed == m.executed + budget
    decreases budget
  {
    hide Step;
    if budget > 0 {
      StepCounts(c, h, m);
      match Step(c, h, m) {
        case Continue(m') => RunCounts(c, h, m', budget - 1);
        case Stop(_, _) =>
      }
    }
  }

  /** A quantum that ends by exhaustion can be continued; one that ends otherwise is over. */
  lemma {:induction false} RunSplits(c: Chunk, h: Host, m: Vm, first: nat, second: nat)
    ensures Run(c, h, m, first + second)
            == match Steps(c, h, m, first)
               case Some(m') => Run(c, h, m', second)
               case None => Run(c, h, m, first)
    decreases first
  {
    hide Step;
    if first > 0 {
      match Step(c, h, m) {
        case Continue(m') => RunSplits(c, h, m', first - 1, second);
        case Stop(_, _) =>
      }
    }
  }

  function Sum(quanta: seq<nat>): nat {
    if quanta == [] then 0 else quanta[0] + Sum(quanta[1..])
  }

  /** Quantum after quantum for as long as they end by exhaustion. */
  function Sliced(c: Chunk, h: Host, m: Vm, quanta: seq<nat>): (Vm, VmResult)
    decreases |quanta|
  {
    if quanta == [] then (m, Yielded)
    else
      match Steps(c, h, m, quanta[0])
      case Some(m') => Sliced(c, h, m', quanta[1..])
      case None => Run(c, h, m, quanta[0])
  }

  /** However the scheduler slices a budget, the flow computes the same. */
  lemma {:induction false} SlicingIsInvisible(c: Chunk, h: Host, m: Vm, quanta: seq<nat>)
    ensures Sliced(c, h, m, quanta) == Run(c, h, m, Sum(quanta))
    decreases |quanta|
  {
    hide Step;
    if quanta == [] {
      assert Run(c, h, m, 0) == (m, Yielded);
    } else {
      hide Run;
      RunSplits(c, h, m, quanta[0], Sum(quanta[1..]));
      if Steps(c, h, m, quanta[0]).Some? {
        SlicingIsInvisible(c, h, Steps(c, h, m, quanta[0]).value, quanta[1..]);
      }
    }
  }

  /** One stream of instructions: an explicit `Yield` is passed, any other result ends it. */
  function Onward(c: Chunk, h: Host, m: Vm, n: nat): (Vm, Option<VmResult>)
    decreases n
  {
    if n == 0 then (m, None)
    else
      match Step(c, h, m)
      case Continue(m') => Onward(c, h, m', n - 1)
      case Stop(m', r) => if r.Yielded? then Onward(c, h, m', n - 1) else (m', Some(r))
  }

  /** What the worker does with a flow: slice after slice, going on after every kind of yield. */
  function Resumed(c: Chunk, h: Host, m: Vm, quanta: seq<nat>): (Vm, Option<VmResult>)
    decreases |quanta|
  {
    if quanta == [] then (m, None)
    else
      var (m', r) := Run(c, h, m, quanta[0]);
      if r.Yielded? then Resumed(c, h, m', quanta[1..]) else (m', Some(r))
  }

  /** The first slice is the beginning of the stream. */
  lemma {:induction false} RunIsOnward(c: Chunk, h: Host, m: Vm, budget: nat, more: nat)
    ensures var (m', r) := Run(c, h, m, budget);
            && m.executed <= m'.executed
            && Onward(c, h, m, m'.executed - m.executed + more)
               == if r.Yielded? then Onward(c, h, m', more) else (m', Some(r))
    decreases budget
  {
    hide Step;
    if budget > 0 {
      StepCounts(c, h, m);
      match Step(c, h, m) {
        case Continue(m') => RunIsOnward(c, h, m', budget - 1, more);
        case Stop(_, _) =>
      }
    }
  }

  /**
   However a flow is cut into slices, and wherever it yields of its own accord, it walks the
   one stream of instructions that its code determines, and every slice is paid for exactly.
   */
  lemma {:induction false} YieldsAreInvisible(c: Chunk, h: Host, m: Vm, quanta: seq<nat>)
    ensures var (m', r) := Resumed(c, h, m, quanta);
            && m.executed <= m'.executed <= m.executed + Sum(quanta)
            && Onward(c, h, m, m'.executed - m.executed) == (m', r)
    decreases |quanta|
  {
    hide Run, Onward;
    if quanta == [] {
      OnwardNothing(c, h, m);
    } else {
      var (m1, r1) := Run(c, h, m, quanta[0]);
      RunCounts(c, h, m, quanta[0]);
      RunIsOnward(c, h, m, quanta[0], 0);
      if r1.Yielded? {
        YieldsAreInvisible(c, h, m1, quanta[1..]);
        RunIsOnward(c, h, m, quanta[0], Resumed(c, h, m1, quanta[1..]).0.executed - m1.executed);
      }
    }
  }

  lemma OnwardNothing(c: Chunk, h: Host, m: Vm)
    ensures Onward(c, h, m, 0) == (m, None)
  {
  }
}
