/**
 Instructions, chunks and the static verifier
 (crates/byteflow/src/bytecode/{opcode,instruction,chunk,verify}.rs).
 */
module Bytecode {
  import opened Wrappers
  import opened Values

  datatype Opcode =
    | Halt | LoadConst | Move | LoadImm
    | Add | Sub | Mul | Div | Mod | Neg
    | Eq | Lt | Le
    | Jump | Branch
    | Call | Return | CallNative
    | Spawn | Yield | Sleep | Exit | SelfPid
    | Send | Receive | ReceiveTimeout | ReceiveMatch | ReceiveMatchImm
    | Ask | Monitor | Demonitor | Link | Unlink | AskTimeout | Delegate
    | FreshRequestId | ReceiveMatchCorr | ReceiveMatchCorrImm
    | RegisterName | Whereis | Trap | Nop

  datatype Instruction = Instruction(op: Opcode, a: u8, b: u8, c: u8, imm: i32)

  datatype FunctionDef = FunctionDef(name: seq<u8>, entry: u32, arity: u8, numRegisters: u8)

  datatype Chunk = Chunk(
    name: seq<u8>,
    constants: seq<Value>,
    code: seq<Instruction>,
    functions: seq<FunctionDef>)

  /** The cast `as u32` of an immediate operand. */
  function AsU32(imm: i32): u32 {
    if imm < 0 then imm + 0x1_0000_0000 else imm
  }

  // ----- opcode bytes -----

  function AsByte(op: Opcode): u8 {
    match op
    case Halt => 0x00 case LoadConst => 0x01 case Move => 0x02 case LoadImm => 0x03
    case Add => 0x10 case Sub => 0x11 case Mul => 0x12 case Div => 0x13 case Mod => 0x14 case Neg => 0x15
    case Eq => 0x18 case Lt => 0x19 case Le => 0x1A
    case Jump => 0x20 case Branch => 0x21
    case Call => 0x30 case Return => 0x31 case CallNative => 0x32
    case Spawn => 0x40 case Yield => 0x41 case Sleep => 0x42 case Exit => 0x43 case SelfPid => 0x44
    case Send => 0x50 case Receive => 0x51 case ReceiveTimeout => 0x52
    case ReceiveMatch => 0x53 case ReceiveMatchImm => 0x54
    case Ask => 0x55 case Monitor => 0x56 case Demonitor => 0x57 case Link => 0x58 case Unlink => 0x59
    case AskTimeout => 0x5A case Delegate => 0x5B case FreshRequestId => 0x5C
    case ReceiveMatchCorr => 0x5D case ReceiveMatchCorrImm => 0x5E
    case Trap => 0x60 case Nop => 0x61 case RegisterName => 0x62 case Whereis => 0x63
  }

  function FromByte(byte: u8): Option<Opcode> {
    match byte
    case 0x00 => Some(Halt) case 0x01 => Some(LoadConst) case 0x02 => Some(Move) case 0x03 => Some(LoadImm)
    case 0x10 => Some(Add) case 0x11 => Some(Sub) case 0x12 => Some(Mul) case 0x13 => Some(Div)
    case 0x14 => Some(Mod) case 0x15 => Some(Neg)
    case 0x18 => Some(Eq) case 0x19 => Some(Lt) case 0x1A => Some(Le)
    case 0x20 => Some(Jump) case 0x21 => Some(Branch)
    case 0x30 => Some(Call) case 0x31 => Some(Return) case 0x32 => Some(CallNative)
    case 0x40 => Some(Spawn) case 0x41 => Some(Yield) case 0x42 => Some(Sleep) case 0x43 => Some(Exit)
    case 0x44 => Some(SelfPid)
    case 0x50 => Some(Send) case 0x51 => Some(Receive) case 0x52 => Some(ReceiveTimeout)
    case 0x53 => Some(ReceiveMatch) case 0x54 => Some(ReceiveMatchImm) case 0x55 => Some(Ask)
    case 0x56 => Some(Monitor) case 0x57 => Some(Demonitor) case 0x58 => Some(Link) case 0x59 => Some(Unlink)
    case 0x5A => Some(AskTimeout) case 0x5B => Some(Delegate) case 0x5C => Some(FreshRequestId)
    case 0x5D => Some(ReceiveMatchCorr) case 0x5E => Some(ReceiveMatchCorrImm)
    case 0x60 => Some(Trap) case 0x61 => Some(Nop) case 0x62 => Some(RegisterName) case 0x63 => Some(Whereis)
    case _ => None
  }

  lemma OpcodeThenByte(op: Opcode)
    ensures FromByte(AsByte(op)) == Some(op)
  {
  }

  lemma ByteThenOpcode(byte: u8)
    ensures FromByte(byte).Some? ==> AsByte(FromByte(byte).value) == byte
  {
  }

  /** Decoding a byte gives an opcode exactly when the byte encodes that opcode. */
  lemma OpcodeBytesInvert(op: Opcode, byte: u8)
    ensures FromByte(byte) == Some(op) <==> AsByte(op) == byte
  {
    OpcodeThenByte(op);
    ByteThenOpcode(byte);
    hide *;
  }

  /** An index survives the trip through the signed immediate. */
  lemma IndexSurvives(i: nat)
    requires i < 0x1_0000_0000
    ensures AsU32(Wrap32(i)) == i
  {
  }

  // ----- the verifier -----

  datatype Trust = Trusted | Untrusted
  datatype ConstantKind = Capability | ProcessId | EnvelopeKind

  datatype VerifyError =
    | ConstOutOfRange(at: nat, index: u32, len: nat)
    | FunctionOutOfRange(at: nat, index: u32, len: nat)
    | JumpOutOfRange(at: nat, target: int, len: nat)
    | EmptyFunctionTable
    | EntryOutOfRange(fn: nat, entry: u32, len: nat)
    | ArityExceedsRegisters(fn: nat, arity: u8, numRegisters: u8)
    | ForbiddenConstant(slot: nat, kind: ConstantKind)

  /** The authority a constant would smuggle into an untrusted module. */
  function Forbidden(v: Value, trust: Trust): Option<ConstantKind> {
    if trust.Trusted? then None
    else
      match v
      case Cap(_) => Some(Capability)
      case Pid(_) => Some(ProcessId)
      case Hop(_) => Some(EnvelopeKind)
      case _ => None
  }

  /** The capability tokens in a value, reply addresses and payloads of messages included. */
  function CapsIn(v: Value): set<u128> {
    match v
    case Cap(token) => {token}
    case Hop(m) => {m.replyCap} + CapsIn(m.payload)
    case _ => {}
  }

  /** The flow ids in a value, senders of messages included. */
  function PidsIn(v: Value): set<u64> {
    match v
    case Pid(pid) => {pid}
    case Hop(m) => {m.sender} + PidsIn(m.payload)
    case _ => {}
  }

  /** From an untrusted module no capability and no identity gets into the constants. */
  ghost predicate Harmless(v: Value, trust: Trust) {
    trust.Trusted? || (CapsIn(v) == {} && PidsIn(v) == {})
  }

  ghost predicate Names(kind: ConstantKind, v: Value) {
    match kind
    case Capability => v.Cap?
    case ProcessId => v.Pid?
    case EnvelopeKind => v.Hop?
  }

  /** A constant is refused exactly when it is untrusted and holds either, and named by its kind. */
  lemma ForbiddenMeans(v: Value, trust: Trust)
    ensures Forbidden(v, trust).None? <==> Harmless(v, trust)
    ensures Forbidden(v, trust).Some? ==> Names(Forbidden(v, trust).value, v)
  {
    match v {
      case Cap(token) => assert token in CapsIn(v);
      case Pid(pid) => assert pid in PidsIn(v);
      case Hop(m) => assert m.sender in PidsIn(v);
      case _ =>
    }
  }

  function CheckConstants(c: Chunk, trust: Trust, i: nat): Result<(), VerifyError>
    requires i <= |c.constants|
    decreases |c.constants| - i
  {
    if i == |c.constants| then Ok(())
    else if Forbidden(c.constants[i], trust).Some? then
      Err(ForbiddenConstant(i, Forbidden(c.constants[i], trust).value))
    else CheckConstants(c, trust, i + 1)
  }

  function CheckFunctions(c: Chunk, i: nat): Result<(), VerifyError>
    requires i <= |c.functions|
    decreases |c.functions| - i
  {
    if i == |c.functions| then Ok(())
    else
      var def := c.functions[i];
      if def.entry >= |c.code| then Err(EntryOutOfRange(i, def.entry, |c.code|))
      else if def.arity > def.numRegisters then Err(ArityExceedsRegisters(i, def.arity, def.numRegisters))
      else CheckFunctions(c, i + 1)
  }

  function CheckInstruction(c: Chunk, at: nat, instr: Instruction): Result<(), VerifyError> {
    match instr.op
    case LoadConst =>
      if AsU32(instr.imm) >= |c.constants| then Err(ConstOutOfRange(at, AsU32(instr.imm), |c.constants|)) else Ok(())
    case Spawn =>
      if AsU32(instr.imm) >= |c.functions| then Err(FunctionOutOfRange(at, AsU32(instr.imm), |c.functions|)) else Ok(())
    case Call =>
      if AsU32(instr.imm) >= |c.functions| then Err(FunctionOutOfRange(at, AsU32(instr.imm), |c.functions|)) else Ok(())
    case Jump =>
      if !(0 <= at + 1 + instr.imm <= |c.code|) then Err(JumpOutOfRange(at, at + 1 + instr.imm, |c.code|)) else Ok(())
    case Branch =>
      if !(0 <= at + 1 + instr.imm <= |c.code|) then Err(JumpOutOfRange(at, at + 1 + instr.imm, |c.code|)) else Ok(())
    case _ => Ok(())
  }

  function CheckCode(c: Chunk, at: nat): Result<(), VerifyError>
    requires at <= |c.code|
    decreases |c.code| - at
  {
    if at == |c.code| then Ok(())
    else
      var _ :- CheckInstruction(c, at, c.code[at]);
      CheckCode(c, at + 1)
  }

  function VerifyWith(c: Chunk, trust: Trust): Result<(), VerifyError> {
    if c.functions == [] then Err(EmptyFunctionTable)
    else
      var _ :- CheckConstants(c, trust, 0);
      var _ :- CheckFunctions(c, 0);
      CheckCode(c, 0)
  }

  /** What the interpreter may rely on, instruction by instruction. */
  ghost predicate InstructionOk(c: Chunk, at: nat) {
    at < |c.code| ==>
      var instr := c.code[at];
      && (instr.op.LoadConst? ==> AsU32(instr.imm) < |c.constants|)
      && (instr.op.Spawn? || instr.op.Call? ==> AsU32(instr.imm) < |c.functions|)
      && (instr.op.Jump? || instr.op.Branch? ==> 0 <= at + 1 + instr.imm <= |c.code|)
  }

  ghost predicate FunctionOk(c: Chunk, i: nat) {
    i < |c.functions| ==> c.functions[i].entry < |c.code| && c.functions[i].arity <= c.functions[i].numRegisters
  }

  ghost predicate Verified(c: Chunk, trust: Trust) {
    && c.functions != []
    && (forall i :: 0 <= i < |c.constants| ==> Harmless(c.constants[i], trust))
    && (forall i: nat :: FunctionOk(c, i))
    && (forall at: nat :: InstructionOk(c, at))
  }

  lemma {:induction false} CheckConstantsSound(c: Chunk, trust: Trust, i: nat)
    requires i <= |c.constants|
    ensures CheckConstants(c, trust, i).Ok?
            <==> forall j :: i <= j < |c.constants| ==> Harmless(c.constants[j], trust)
    decreases |c.constants| - i
  {
    hide Harmless;
    if i < |c.constants| {
      ForbiddenMeans(c.constants[i], trust);
      CheckConstantsSound(c, trust, i + 1);
    }
  }

  lemma {:induction false} CheckFunctionsSound(c: Chunk, i: nat)
    requires i <= |c.functions|
    ensures CheckFunctions(c, i).Ok? <==> forall j: nat :: i <= j ==> FunctionOk(c, j)
    decreases |c.functions| - i
  {
    if i < |c.functions| {
      CheckFunctionsSound(c, i + 1);
      assert CheckFunctions(c, i).Ok? <==> FunctionOk(c, i) && CheckFunctions(c, i + 1).Ok?;
    }
  }

  lemma {:induction false} CheckCodeSound(c: Chunk, at: nat)
    requires at <= |c.code|
    ensures CheckCode(c, at).Ok? <==> forall j: nat :: at <= j ==> InstructionOk(c, j)
    decreases |c.code| - at
  {
    if at < |c.code| {
      CheckCodeSound(c, at + 1);
      assert CheckInstruction(c, at, c.code[at]).Ok? <==> InstructionOk(c, at);
    }
  }

  /** The scan accepts exactly the chunks on which every fact the interpreter relies on holds. */
  lemma VerifyIsExact(c: Chunk, trust: Trust)
    ensures VerifyWith(c, trust).Ok? <==> Verified(c, trust)
  {
    CheckConstantsSound(c, trust, 0);
    CheckFunctionsSound(c, 0);
    CheckCodeSound(c, 0);
  }

  ghost predicate ConstantsOk(c: Chunk, trust: Trust, n: nat) {
    forall i :: 0 <= i < n && i < |c.constants| ==> Harmless(c.constants[i], trust)
  }

  ghost predicate FunctionsOk(c: Chunk, n: nat) {
    forall i: nat :: i < n ==> FunctionOk(c, i)
  }

  ghost predicate CodeOk(c: Chunk, n: nat) {
    forall at: nat :: at < n ==> InstructionOk(c, at)
  }

  /** The error names the first fact that fails, in the order of the scan, and where it fails. */
  ghost predicate FirstFailure(c: Chunk, trust: Trust, e: VerifyError) {
    match e
    case EmptyFunctionTable => c.functions == []
    case ForbiddenConstant(slot, kind) =>
      && c.functions != [] && slot < |c.constants| && !Harmless(c.constants[slot], trust)
      && Names(kind, c.constants[slot])
      && ConstantsOk(c, trust, slot)
    case EntryOutOfRange(fn, entry, len) =>
      && ConstantsOk(c, trust, |c.constants|) && fn < |c.functions| && FunctionsOk(c, fn)
      && entry == c.functions[fn].entry && len == |c.code| && entry >= len
    case ArityExceedsRegisters(fn, arity, registers) =>
      && ConstantsOk(c, trust, |c.constants|) && fn < |c.functions| && FunctionsOk(c, fn)
      && c.functions[fn].entry < |c.code| && arity == c.functions[fn].arity && registers == c.functions[fn].numRegisters
      && arity > registers
    case ConstOutOfRange(at, index, len) =>
      && c.functions != [] && ConstantsOk(c, trust, |c.constants|) && FunctionsOk(c, |c.functions|) && at < |c.code|
         && CodeOk(c, at)
      && c.code[at].op.LoadConst? && index == AsU32(c.code[at].imm) && len == |c.constants| && index >= len
    case FunctionOutOfRange(at, index, len) =>
      && c.functions != [] && ConstantsOk(c, trust, |c.constants|) && FunctionsOk(c, |c.functions|) && at < |c.code|
         && CodeOk(c, at)
      && (c.code[at].op.Spawn? || c.code[at].op.Call?) && index == AsU32(c.code[at].imm) && len == |c.functions|
         && index >= len
    case JumpOutOfRange(at, target, len) =>
      && c.functions != [] && ConstantsOk(c, trust, |c.constants|) && FunctionsOk(c, |c.functions|) && at < |c.code|
         && CodeOk(c, at)
      && (c.code[at].op.Jump? || c.code[at].op.Branch?) && target == at + 1 + c.code[at].imm && len == |c.code|
      && !(0 <= target <= len)
  }

  lemma {:induction false} ConstantsReport(c: Chunk, trust: Trust, i: nat)
    requires c.functions != [] && i <= |c.constants| && ConstantsOk(c, trust, i)
    ensures match CheckConstants(c, trust, i)
            case Ok(_) => ConstantsOk(c, trust, |c.constants|)
            case Err(e) => FirstFailure(c, trust, e)
    decreases |c.constants| - i
  {
    hide Forbidden, Harmless;
    if i < |c.constants| {
      ForbiddenMeans(c.constants[i], trust);
    }
    if i < |c.constants| && Forbidden(c.constants[i], trust).None? {
      ConstantsReport(c, trust, i + 1);
    }
  }

  lemma {:induction false} FunctionsReport(c: Chunk, trust: Trust, i: nat)
    requires i <= |c.functions| && ConstantsOk(c, trust, |c.constants|) && FunctionsOk(c, i)
    ensures match CheckFunctions(c, i)
            case Ok(_) => FunctionsOk(c, |c.functions|)
            case Err(e) => FirstFailure(c, trust, e)
    decreases |c.functions| - i
  {
    hide ConstantsOk, CodeOk;
    if i < |c.functions| && c.functions[i].entry < |c.code| && c.functions[i].arity <= c.functions[i].numRegisters {
      assert FunctionOk(c, i);
      FunctionsReport(c, trust, i + 1);
    }
  }

  lemma {:induction false} CodeReport(c: Chunk, trust: Trust, at: nat)
    requires c.functions != [] && at <= |c.code| && CodeOk(c, at)
    requires ConstantsOk(c, trust, |c.constants|) && FunctionsOk(c, |c.functions|)
    ensures CheckCode(c, at).Err? ==> FirstFailure(c, trust, CheckCode(c, at).error)
    decreases |c.code| - at
  {
    hide ConstantsOk, FunctionsOk;
    if at < |c.code| && CheckInstruction(c, at, c.code[at]).Ok? {
      assert InstructionOk(c, at);
      CodeReport(c, trust, at + 1);
    }
  }

  /** A rejection names the first failing fact and its index. */
  lemma VerifyReportsTheFirst(c: Chunk, trust: Trust)
    ensures VerifyWith(c, trust).Err? ==> FirstFailure(c, trust, VerifyWith(c, trust).error)
  {
    hide FirstFailure, CheckConstants, CheckFunctions, CheckCode;
    if c.functions == [] {
      NoFunctions(c, trust);
    } else {
      ConstantsReport(c, trust, 0);
      if CheckConstants(c, trust, 0).Ok? {
        FunctionsReport(c, trust, 0);
        if CheckFunctions(c, 0).Ok? {
          CodeReport(c, trust, 0);
        }
      }
    }
  }

  lemma NoFunctions(c: Chunk, trust: Trust)
    requires c.functions == []
    ensures FirstFailure(c, trust, EmptyFunctionTable)
  {
  }
}
