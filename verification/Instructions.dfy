/**
 Calls, returns, natives and effects of the VM (crates/byteflow/src/vm/machine.rs), said on the
 registers of the frames: what is passed and returned, and what each effect asks of the scheduler.
 */
module Instructions {
  import opened Wrappers
  import opened Values
  import opened Bytecode
  import opened Machine
  import opened Operators
  import opened Lowering
  import opened Simulation
  import opened Programs

  // ----- arguments -----

  /** Consecutive registers are read if all of them exist. */
  lemma {:induction false} GatherMeans(k: Context, pc: nat, regs: seq<Value>, executed: nat, base: u8, offset: nat,
                                       count: nat)
    requires |regs| <= 0x100
    ensures var r := GatherArgs(Active(k, pc, regs, executed), base, offset, count);
            && (r.Ok? <==> count == 0 || base + offset + count <= |regs|)
            && (r.Ok? && count > 0 ==> r.value == regs[base + offset..base + offset + count])
            && (r.Ok? && count == 0 ==> r.value == [])
    decreases count
  {
    hide Active;
    if count > 0 && base + offset < 0x100 {
      ActiveRegisters(k, pc, regs, executed, base + offset);
      GatherMeans(k, pc, regs, executed, base, offset + 1, count - 1);
      if base + offset + count <= |regs| {
        var first := base + offset;
        assert regs[first..first + count] == [regs[first]] + regs[first + 1..first + count];
      }
    }
  }

  // ----- effects -----

  ghost predicate Holds(regs: seq<Value>, r: int, v: Value) {
    0 <= r < |regs| && regs[r] == v
  }

  /** The number of milliseconds a value stands for; anything else than a count stands for none. */
  function Millis(v: Value): nat {
    match v
    case Int(i) => if i < 0 then 0 else i
    case Bool(b) => if b then 1 else 0
    case _ => 0
  }

  /** A tag or request id given in a register or, for a tag, in the instruction itself. */
  ghost predicate IsTag(regs: seq<Value>, i: Instruction, tag: u16) {
    if i.op.ReceiveMatchImm? || i.op.ReceiveMatchCorrImm? then tag == i.imm
    else Holds(regs, i.b, Int(tag)) || (tag <= 1 && Holds(regs, i.b, Bool(tag == 1)))
  }

  ghost predicate IsRequest(regs: seq<Value>, r: u8, id: u64) {
    (id < 0x8000_0000_0000_0000 && Holds(regs, r, Int(id))) || (id <= 1 && Holds(regs, r, Bool(id == 1)))
  }

  ghost predicate ReceivesOn(i: Instruction, regs: seq<Value>, timeout: Option<nat>, tag: Option<u16>,
                             rid: Option<u64>)
  {
    match i.op
    case Receive => timeout.None? && tag.None? && rid.None?
    case ReceiveTimeout => i.b < |regs| && timeout == Some(Millis(regs[i.b])) && tag.None? && rid.None?
    case ReceiveMatch => timeout.None? && tag.Some? && IsTag(regs, i, tag.value) && rid.None?
    case ReceiveMatchImm => timeout.None? && tag.Some? && IsTag(regs, i, tag.value) && rid.None?
    case ReceiveMatchCorr =>
      timeout.None? && tag.Some? && IsTag(regs, i, tag.value) && rid.Some? && IsRequest(regs, i.c, rid.value)
    case ReceiveMatchCorrImm =>
      timeout.None? && tag.Some? && IsTag(regs, i, tag.value) && rid.Some? && IsRequest(regs, i.b, rid.value)
    case _ => false
  }

  /** What instruction `i` asks of the scheduler when the registers are `regs`. */
  ghost predicate AsksFor(i: Instruction, regs: seq<Value>, e: VmResult) {
    match e
    case Yielded => i.op.Yield?
    case SleepFor(ms) =>
      i.op.Sleep? && (Holds(regs, i.a, Bool(true)) || Holds(regs, i.a, Bool(false))
                      || (i.a < |regs| && regs[i.a].Int? && regs[i.a].i >= 0))
      && ms == Millis(regs[i.a])
    case SpawnFlow(function_, args, dest, rights) =>
      && i.op.Spawn? && function_ == AsU32(i.imm) && dest == i.a && rights == i.c
      && (i.b == 0 || i.a + 1 + i.b <= |regs|) && args == if i.b == 0 then [] else regs[i.a + 1..i.a + 1 + i.b]
    case SelfCap(dest) => i.op.SelfPid? && dest == i.a
    case SendHop(cap, message) => i.op.Send? && Holds(regs, i.a, Cap(cap)) && Holds(regs, i.b, message) && message.Hop?
    case ReceiveHop(dest, timeout, tag, rid) => dest == i.a && ReceivesOn(i, regs, timeout, tag, rid)
    case AskFlow(dest, cap, request, timeout) =>
      && dest == i.a && Holds(regs, i.b, Cap(cap)) && Holds(regs, i.c, request) && request.Hop?
      && if i.op.AskTimeout? then 0 <= i.imm < |regs| && timeout == Some(Millis(regs[i.imm]))
         else i.op.Ask? && timeout.None?
    case MonitorFlow(dest, cap) => i.op.Monitor? && dest == i.a && Holds(regs, i.b, Cap(cap))
    case LinkFlow(dest, cap) => i.op.Link? && dest == i.a && Holds(regs, i.b, Cap(cap))
    case DemonitorRef(reg) => i.op.Demonitor? && reg == i.a
    case UnlinkId(reg) => i.op.Unlink? && reg == i.a
    case PublishName(name) => i.op.RegisterName? && Holds(regs, i.a, Str(name))
    case LookupName(dest, name) => i.op.Whereis? && dest == i.a && Holds(regs, i.b, Str(name))
    case DelegateCap(dest, cap, want, native) =>
      && i.op.Delegate? && dest == i.a && want == AsU32(i.imm) && Holds(regs, i.b, Cap(cap))
      && if i.c == 0xFF then native.None? else native.Some? && Holds(regs, i.c, Cap(native.value))
    case Complete(_) => false
    case Trapped(_) => false
  }

  /** The registers an effect may read. */
  lemma Reads(k: Context, pc: nat, regs: seq<Value>, executed: nat, i: Instruction)
    ensures var m := Active(k, pc, regs, executed);
            && GetReg(m, i.a) == (if i.a < |regs| then Ok(regs[i.a]) else Err(RegisterOutOfRange(i.a, |regs|)))
            && GetReg(m, i.b) == (if i.b < |regs| then Ok(regs[i.b]) else Err(RegisterOutOfRange(i.b, |regs|)))
            && GetReg(m, i.c) == (if i.c < |regs| then Ok(regs[i.c]) else Err(RegisterOutOfRange(i.c, |regs|)))
            && (0 <= i.imm < 0x100 ==>
                  GetReg(m, i.imm)
                  == (if i.imm < |regs| then Ok(regs[i.imm]) else Err(RegisterOutOfRange(i.imm, |regs|))))
  {
    ActiveRegisters(k, pc, regs, executed, i.a);
    ActiveRegisters(k, pc, regs, executed, i.b);
    ActiveRegisters(k, pc, regs, executed, i.c);
    if 0 <= i.imm < 0x100 {
      ActiveRegisters(k, pc, regs, executed, i.imm);
    }
  }

  lemma ReceiveMeans(k: Context, pc: nat, regs: seq<Value>, executed: nat, i: Instruction, e: VmResult)
    requires i.op.Receive? || i.op.ReceiveTimeout? || i.op.ReceiveMatch? || i.op.ReceiveMatchImm?
             || i.op.ReceiveMatchCorr? || i.op.ReceiveMatchCorrImm?
    ensures ExecReceive(Active(k, pc, regs, executed), i) == Ok(e) <==> AsksFor(i, regs, e)
  {
    hide Active, GetReg;
    Reads(k, pc, regs, executed, i);
  }

  lemma AddressedMeans(k: Context, pc: nat, regs: seq<Value>, executed: nat, i: Instruction, e: VmResult)
    requires |regs| <= 0x100
    requires i.op.Send? || i.op.Ask? || i.op.AskTimeout? || i.op.Monitor? || i.op.Link? || i.op.Delegate?
    ensures ExecAddressed(Active(k, pc, regs, executed), i) == Ok(e) <==> AsksFor(i, regs, e)
  {
    hide Active, GetReg;
    Reads(k, pc, regs, executed, i);
  }

  predicate IsEffect(op: Opcode) {
    match op
    case Halt => false case Nop => false case LoadConst => false case LoadImm => false case Move => false
    case Neg => false case Jump => false case Branch => false case Call => false case CallNative => false
    case Return => false case Exit => false case FreshRequestId => false case Trap => false
    case _ => !IsArithmetic(op)
  }

  lemma SpawnMeans(k: Context, pc: nat, regs: seq<Value>, executed: nat, i: Instruction, e: VmResult)
    requires |regs| <= 0x100 && i.op.Spawn?
    ensures ExecEffect(Active(k, pc, regs, executed), i) == Ok(e) <==> AsksFor(i, regs, e)
  {
    hide Active, GetReg, ExecReceive, ExecAddressed, GatherArgs;
    GatherMeans(k, pc, regs, executed, i.a, 1, i.b);
  }

  lemma PlainMeans(k: Context, pc: nat, regs: seq<Value>, executed: nat, i: Instruction, e: VmResult)
    requires i.op.Yield? || i.op.Sleep? || i.op.SelfPid? || i.op.Demonitor? || i.op.Unlink? || i.op.RegisterName?
             || i.op.Whereis?
    ensures ExecEffect(Active(k, pc, regs, executed), i) == Ok(e) <==> AsksFor(i, regs, e)
  {
    hide Active, GetReg, ExecReceive, ExecAddressed, GatherArgs;
    Reads(k, pc, regs, executed, i);
  }

  predicate Receives(op: Opcode) {
    op.Receive? || op.ReceiveTimeout? || op.ReceiveMatch? || op.ReceiveMatchImm? || op.ReceiveMatchCorr?
    || op.ReceiveMatchCorrImm?
  }

  predicate Addresses(op: Opcode) {
    op.Send? || op.Ask? || op.AskTimeout? || op.Monitor? || op.Link? || op.Delegate?
  }

  lemma EffectDispatch(m: Vm, i: Instruction)
    ensures Receives(i.op) ==> ExecEffect(m, i) == match ExecReceive(m, i) case Ok(e) => Ok(e) case Err(f) => Err(f)
    ensures Addresses(i.op) ==> ExecEffect(m, i) == ExecAddressed(m, i)
  {
    hide ExecReceive, ExecAddressed, GatherArgs, GetReg;
  }

  lemma EffectMeans(k: Context, pc: nat, regs: seq<Value>, executed: nat, i: Instruction, e: VmResult)
    requires |regs| <= 0x100 && IsEffect(i.op)
    ensures ExecEffect(Active(k, pc, regs, executed), i) == Ok(e) <==> AsksFor(i, regs, e)
  {
    hide Active, ExecEffect, ExecReceive, ExecAddressed, AsksFor;
    EffectDispatch(Active(k, pc, regs, executed), i);
    if Receives(i.op) {
      ReceiveMeans(k, pc, regs, executed, i, e);
    } else if Addresses(i.op) {
      AddressedMeans(k, pc, regs, executed, i, e);
    } else if i.op.Spawn? {
      SpawnMeans(k, pc, regs, executed, i, e);
    } else {
      PlainMeans(k, pc, regs, executed, i, e);
    }
  }

  lemma OthersAskNothing(i: Instruction, regs: seq<Value>, e: VmResult)
    requires !IsEffect(i.op)
    ensures !AsksFor(i, regs, e)
  {
  }

  /** Whatever is no effect goes on, completes or traps. */
  ghost predicate NoEffect(r: Result<Outcome, Fault>) {
    r.Ok? && r.value.Stop? ==> r.value.result.Complete? || r.value.result.Trapped?
  }

  lemma OthersExec(c: Chunk, h: Host, m: Vm, i: Instruction)
    requires m.frames != [] && !IsEffect(i.op)
    ensures NoEffect(Exec(c, h, m, i))
  {
    hide Machine.Store, SetReg, GetReg, GatherArgs, LoadArgs, Arithmetic, SetPc;
    StoreGoesOn(m, i);
  }

  lemma StoreGoesOn(m: Vm, i: Instruction)
    ensures forall r: u8, v :: NoEffect(Machine.Store(m, r, v))
  {
    hide SetReg;
  }

  lemma EffectExec(c: Chunk, h: Host, m: Vm, i: Instruction)
    requires m.frames != [] && IsEffect(i.op)
    ensures Exec(c, h, m, i)
            == match ExecEffect(m, i) case Ok(e) => Ok(Stop(m, e)) case Err(fault) => Err(fault)
  {
    hide Machine.Store, SetReg, GetReg, GatherArgs, LoadArgs, Arithmetic, SetPc, ExecEffect, ExecCall, ExecNative,
         PopFrame;
  }

  /**
   The machine stops for an effect exactly when the instruction asks for it over the registers,
   and then has done nothing but move past the instruction.
   */
  lemma StopsForEffects(c: Chunk, h: Host, k: Context, pc: nat, regs: seq<Value>, executed: nat, e: VmResult)
    requires pc < |c.code| && |regs| <= 0x100 && !e.Complete? && !e.Trapped?
    ensures var o := Step(c, h, Active(k, pc, regs, executed));
            && (o.Stop? && o.result == e <==> AsksFor(c.code[pc], regs, e))
            && (o.Stop? && o.result == e ==> o.m == Active(k, pc + 1, regs, executed + 1))
  {
    hide Step, Active, Exec, ExecEffect, AsksFor;
    var i := c.code[pc];
    var m := Active(k, pc + 1, regs, executed + 1);
    StepFetches(c, h, k, pc, regs, executed);
    ActiveRuns(k, pc + 1, regs, executed + 1);
    if IsEffect(i.op) {
      EffectExec(c, h, m, i);
      EffectMeans(k, pc + 1, regs, executed + 1, i, e);
    } else {
      OthersExec(c, h, m, i);
      OthersAskNothing(i, regs, e);
    }
  }

  lemma ActiveRuns(k: Context, pc: nat, regs: seq<Value>, executed: nat)
    ensures Active(k, pc, regs, executed).frames != []
  {
  }

  // ----- completion, natives, request ids -----

  /** `Exit` completes with a register, `Halt` with register 0. */
  lemma CompletesWith(c: Chunk, h: Host, k: Context, pc: nat, regs: seq<Value>, executed: nat)
    requires pc < |c.code| && (c.code[pc].op.Exit? || c.code[pc].op.Halt?)
    ensures var r, o := if c.code[pc].op.Exit? then c.code[pc].a else 0, Step(c, h, Active(k, pc, regs, executed));
            && o.Stop?
            && o.result == if r < |regs| then Complete(regs[r]) else Trapped(RegisterOutOfRange(r, |regs|))
  {
    hide Step, Active, GetReg;
    StepFetches(c, h, k, pc, regs, executed);
    ActiveRegisters(k, pc + 1, regs, executed + 1, if c.code[pc].op.Exit? then c.code[pc].a else 0);
  }

  /**
   A native that the gate admits is called on the registers named, and its result stored in the
   first of them; a refusal by the gate, or the native's own fault, is the trap.
   */
  lemma NativeMeans(c: Chunk, h: Host, k: Context, pc: nat, regs: seq<Value>, executed: nat)
    requires pc < |c.code| && c.code[pc].op.CallNative? && c.code[pc].a + c.code[pc].b <= |regs| <= 0x100
    requires c.code[pc].a < |regs|
    ensures var i, m := c.code[pc], Active(k, pc, regs, executed);
            match h.gate(AsU32(i.imm))
            case Some(reason) => Traps(c, h, m, NativeGate(reason))
            case None =>
              match h.native(AsU32(i.imm), regs[i.a..i.a + i.b])
              case Ok(v) => Step(c, h, m) == Continue(Active(k, pc + 1, regs[i.a := v], executed + 1))
              case Err(fault) => Traps(c, h, m, fault)
  {
    hide Step, Active, GatherArgs, SetReg;
    var i := c.code[pc];
    StepFetches(c, h, k, pc, regs, executed);
    GatherMeans(k, pc + 1, regs, executed + 1, i.a, 0, i.b);
    ActiveRegisters(k, pc + 1, regs, executed + 1, i.a);
    assert i.b == 0 ==> regs[i.a..i.a + i.b] == [];
  }

  /** `Neg` stores the negated integer, wrapped around, or the host's negated float; other values trap. */
  lemma NegMeans(c: Chunk, h: Host, k: Context, pc: nat, regs: seq<Value>, executed: nat)
    requires pc < |c.code| && c.code[pc].op.Neg? && c.code[pc].a < |regs| && c.code[pc].b < |regs|
    ensures var a, v, m := c.code[pc].a, regs[c.code[pc].b], Active(k, pc, regs, executed);
            if v.Int? then
              exists w ::
                && Wraps(-(v.i as int), w)
                && Step(c, h, m) == Continue(Active(k, pc + 1, regs[a := Int(w)], executed + 1))
            else if v.Float? then
              Step(c, h, m) == Continue(Active(k, pc + 1, regs[a := Float(h.floatNeg(v.bits))], executed + 1))
            else Traps(c, h, m, TypeMismatch("int or float", TypeName(v)))
  {
    hide Step, Active, GetReg, SetReg, Wrap64, Wraps;
    StepFetches(c, h, k, pc, regs, executed);
    ActiveRegisters(k, pc + 1, regs, executed + 1, c.code[pc].b);
    ActiveRegisters(k, pc + 1, regs, executed + 1, c.code[pc].a);
    var v := regs[c.code[pc].b];
    if v.Int? {
      Wrap64IsWord(-(v.i as int));
    }
  }

  /** Request ids count up from 1 and stay at the top. */
  lemma FreshIdsCountUp(c: Chunk, h: Host, k: Context, pc: nat, regs: seq<Value>, executed: nat)
    requires pc < |c.code| && c.code[pc].op.FreshRequestId? && c.code[pc].a < |regs|
    ensures var id: u64 := Max(k.nextRequestId, 1);
            Step(c, h, Active(k, pc, regs, executed))
            == Continue(Active(k.(nextRequestId := Min(id + 1, 0xFFFF_FFFF_FFFF_FFFF)), pc + 1,
                               regs[c.code[pc].a := Int(Wrap64(id))], executed + 1))
  {
    hide Step, SetReg, Wrap64;
    StepFetches(c, h, k, pc, regs, executed);
    var next := k.(nextRequestId := Min(Max(k.nextRequestId, 1) + 1, 0xFFFF_FFFF_FFFF_FFFF));
    ActiveRegisters(next, pc + 1, regs, executed + 1, c.code[pc].a);
  }

  // ----- calls and returns -----

  /** The registers a function starts with: the arguments it takes, then `Unit`. */
  function Passed(args: seq<Value>, def: FunctionDef): seq<Value> {
    seq(def.numRegisters, x requires 0 <= x < def.numRegisters => if x < |args| && x < def.arity then args[x] else Unit)
  }

  /** Inside the call: the caller's frame, past the call and otherwise as it was, is the last one below. */
  function InCall(k: Context, pc: nat, regs: seq<Value>, i: Instruction): Context {
    Context(k.below + [Frame(k.function_, pc + 1, regs, k.dest)], AsU32(i.imm), Some(i.a), k.nextRequestId)
  }

  /** A call passes the registers named and remembers where the result goes. */
  lemma CallMeans(c: Chunk, h: Host, k: Context, pc: nat, regs: seq<Value>, executed: nat)
    requires pc < |c.code| && c.code[pc].op.Call? && c.code[pc].a + c.code[pc].b <= |regs| <= 0x100
    requires forall f: nat :: FunctionOk(c, f)
    ensures var i, m := c.code[pc], Active(k, pc, regs, executed);
            if |k.below| + 1 >= MAX_CALL_DEPTH then Traps(c, h, m, CallStackOverflow(|k.below| + 1))
            else if AsU32(i.imm) >= |c.functions| then Traps(c, h, m, BadFunction(AsU32(i.imm), |c.functions|))
            else
              var def := c.functions[AsU32(i.imm)];
              Step(c, h, m)
              == Continue(Active(InCall(k, pc, regs, i), def.entry, Passed(regs[i.a..i.a + i.b], def), executed + 1))
  {
    hide Step, Active, GatherArgs, LoadArgs, AsU32;
    var i := c.code[pc];
    StepFetches(c, h, k, pc, regs, executed);
    GatherMeans(k, pc + 1, regs, executed + 1, i.a, 0, i.b);
    ActiveFrames(k, pc + 1, regs, executed + 1);
    assert i.b == 0 ==> regs[i.a..i.a + i.b] == [];
    if |k.below| + 1 < MAX_CALL_DEPTH && AsU32(i.imm) < |c.functions| {
      var def := c.functions[AsU32(i.imm)];
      assert FunctionOk(c, AsU32(i.imm));
      PassedIsLoaded(regs[i.a..i.a + i.b], def);
      CallPushes(k, pc + 1, regs, executed + 1, AsU32(i.imm), def.entry, Passed(regs[i.a..i.a + i.b], def), i.a);
    }
  }

  lemma PassedIsLoaded(args: seq<Value>, def: FunctionDef)
    requires def.arity <= def.numRegisters
    ensures LoadArgs(FreshRegisters(def.numRegisters), args, def.arity, 0) == Ok(Passed(args, def))
  {
    hide LoadArgs;
    LoadArgsAt(FreshRegisters(def.numRegisters), args, def.arity, 0);
    assert LoadArgs(FreshRegisters(def.numRegisters), args, def.arity, 0).value == Passed(args, def);
  }

  lemma ActiveFrames(k: Context, pc: nat, regs: seq<Value>, executed: nat)
    ensures |Active(k, pc, regs, executed).frames| == |k.below| + 1
  {
  }

  lemma CallPushes(k: Context, pc: nat, regs: seq<Value>, executed: nat, f: nat, entry: nat, passed: seq<Value>,
                   dest: u8)
    ensures var m := Active(k, pc, regs, executed);
            m.(frames := m.frames + [Frame(f, entry, passed, Some(dest))])
            == Active(Context(k.below + [Frame(k.function_, pc, regs, k.dest)], f, Some(dest), k.nextRequestId), entry,
                      passed, executed)
  {
  }

  /** What a return leaves of the frames below. */
  lemma ReturnMeans(c: Chunk, h: Host, k: Context, caller: Frame, pc: nat, regs: seq<Value>, executed: nat)
    requires pc < |c.code| && c.code[pc].op.Return? && c.code[pc].a < |regs|
    requires k.dest.Some? ==> k.below != [] && k.below[|k.below| - 1] == caller
    ensures var m, v := Active(k, pc, regs, executed), regs[c.code[pc].a];
            match k.dest
            case None => Step(c, h, m).Stop? && Step(c, h, m).result == Complete(v)
            case Some(d) =>
              if d < |caller.registers| then
                Step(c, h, m)
                == Continue(Vm(k.below[..|k.below| - 1] + [caller.(registers := caller.registers[d := v])],
                               executed + 1, k.nextRequestId))
              else Traps(c, h, m, RegisterOutOfRange(d, |caller.registers|))
  {
    hide Step, GetReg, SetReg;
    StepFetches(c, h, k, pc, regs, executed);
    ActiveRegisters(k, pc + 1, regs, executed + 1, c.code[pc].a);
    if k.dest.Some? {
      var below := k.below[..|k.below| - 1];
      var outer := Context(below, caller.function_, caller.dest, k.nextRequestId);
      assert k.below == below + [caller];
      assert (k.below + [Frame(k.function_, pc + 1, regs, k.dest)])[..|k.below|] == k.below;
      ActiveRegisters(outer, caller.pc, caller.registers, executed + 1, k.dest.value);
    }
  }

  /** Running off the end of the code returns `Unit`. */
  lemma EndMeans(c: Chunk, h: Host, k: Context, caller: Frame, pc: nat, regs: seq<Value>, executed: nat)
    requires pc >= |c.code|
    requires k.dest.Some? ==> k.below != [] && k.below[|k.below| - 1] == caller
    ensures var m := Active(k, pc, regs, executed);
            match k.dest
            case None => Step(c, h, m).Stop? && Step(c, h, m).result == Complete(Unit)
            case Some(d) =>
              if d < |caller.registers| then
                Step(c, h, m)
                == Continue(Vm(k.below[..|k.below| - 1] + [caller.(registers := caller.registers[d := Unit])],
                               executed + 1, k.nextRequestId))
              else Traps(c, h, m, RegisterOutOfRange(d, |caller.registers|))
  {
    hide GetReg, SetReg, Exec;
    if k.dest.Some? {
      var below := k.below[..|k.below| - 1];
      var outer := Context(below, caller.function_, caller.dest, k.nextRequestId);
      assert k.below == below + [caller];
      assert (k.below + [Frame(k.function_, pc, regs, k.dest)])[..|k.below|] == k.below;
      ActiveRegisters(outer, caller.pc, caller.registers, executed + 1, k.dest.value);
    }
  }

  // ----- calls of built functions -----

  /** The machine after `n` instructions, all of which go on. */
  function After(c: Chunk, h: Host, m: Vm, n: nat): Option<Vm>
    decreases n
  {
    if n == 0 then Some(m)
    else match Step(c, h, m) case Continue(m') => After(c, h, m', n - 1) case Stop(_, _) => None
  }

  lemma {:induction false} AfterWalk(c: Chunk, h: Host, k: Context, m: Vm, n: nat, lo: nat, hi: nat)
    requires Walk(c, h, k, m, n, lo, hi).Some?
    ensures After(c, h, m, n) == Walk(c, h, k, m, n, lo, hi)
    decreases n
  {
    hide Step;
    if n > 0 {
      AfterWalk(c, h, k, Step(c, h, m).m, n - 1, lo, hi);
    }
  }

  lemma {:induction false} AfterOneMore(c: Chunk, h: Host, m: Vm, n: nat)
    requires After(c, h, m, n).Some? && Step(c, h, After(c, h, m, n).value).Continue?
    ensures After(c, h, m, n + 1) == Some(Step(c, h, After(c, h, m, n).value).m)
    decreases n
  {
    hide Step;
    if n > 0 {
      AfterOneMore(c, h, Step(c, h, m).m, n - 1);
    }
  }

  lemma FirstThenAfter(c: Chunk, h: Host, m: Vm, n: nat)
    requires Step(c, h, m).Continue?
    ensures After(c, h, m, n + 1) == After(c, h, Step(c, h, m).m, n)
  {
    hide Step;
  }

  /**
   What a call of a function with meaning `meaning` does to its caller: it goes on behind the call
   with the handle's value in the register the call names, or traps on the function's fault, or is
   still at it after `fuel` instructions.
   */
  ghost predicate CallDoes(c: Chunk, h: Host, k: Context, pc: nat, regs: seq<Value>, executed: nat, meaning: Meaning,
                           x: Var, fuel: nat, n: nat)
    requires pc < |c.code|
  {
    var m := Active(k, pc, regs, executed);
    && After(c, h, m, n).Some?
    && match meaning
       case Done(store) =>
         x < |store| && c.code[pc].a < |regs|
         && After(c, h, m, n).value == Active(k, pc + 1, regs[c.code[pc].a := store[x]], executed + n)
       case Stuck(fault) => Traps(c, h, After(c, h, m, n).value, fault)
       case Busy => n > fuel
  }

  lemma CallEnters(c: Chunk, h: Host, k: Context, pc: nat, regs: seq<Value>, executed: nat, s: Stmt, pool: seq<Value>)
    requires pc < |c.code| && c.code[pc].op.Call? && c.code[pc].a + c.code[pc].b <= |regs| <= 0x100
    requires forall f: nat :: FunctionOk(c, f)
    requires |k.below| + 1 < MAX_CALL_DEPTH && Built(c, AsU32(c.code[pc].imm), s, pool)
    ensures var i := c.code[pc];
            var def, f := c.functions[AsU32(i.imm)], Final(c, AsU32(i.imm), s, pool);
            var args := regs[i.a..i.a + i.b];
            && Step(c, h, Active(k, pc, regs, executed))
               == Continue(Active(InCall(k, pc, regs, i), def.entry, Passed(args, def), executed + 1))
            && Sited(c, s, Opened(def.arity, pool), f, def.entry)
            && |f.vars| == HandleCount(s, def.arity) && |Passed(args, def)| == Saturated(f.next)
            && Carries(Passed(args, def), f.vars, EntryStore(args, def.arity, |f.vars|))
  {
    hide Step, Active, Carries, Sited, Compile, LoadArgs, CodeAt, AsU32;
    var i := c.code[pc];
    var def := c.functions[AsU32(i.imm)];
    var args := regs[i.a..i.a + i.b];
    CallMeans(c, h, k, pc, regs, executed);
    assert FunctionOk(c, AsU32(i.imm));
    PassedIsLoaded(args, def);
    EntryCarries(c, AsU32(i.imm), s, pool, args);
  }

  /** A call of a built function of at most 255 registers computes what its source means. */
  lemma CallsCompute(c: Chunk, h: Host, k: Context, pc: nat, regs: seq<Value>, executed: nat, s: Stmt,
                     pool: seq<Value>, x: Var, fuel: nat)
    returns (n: nat)
    requires pc < |c.code| && c.code[pc].op.Call? && c.code[pc].a + c.code[pc].b <= |regs| <= 0x100
    requires c.code[pc].a < |regs| && forall f: nat :: FunctionOk(c, f)
    requires |k.below| + 1 < MAX_CALL_DEPTH && Built(c, AsU32(c.code[pc].imm), s, pool)
    requires Fits(c, AsU32(c.code[pc].imm), s, pool) && Returning(c, AsU32(c.code[pc].imm), s, pool, x)
    ensures Scoped(s, Max(c.functions[AsU32(c.code[pc].imm)].arity, 4))
    ensures var i := c.code[pc];
            CallDoes(c, h, k, pc, regs, executed,
                     Meant(c, h, AsU32(i.imm), s, regs[i.a..i.a + i.b], fuel), x, fuel, n)
  {
    hide Step, Active, Walk, Carries, Sited, Compile, Eval, Confined, AsU32, After, Passed, Lets, CodeAt;
    var i := c.code[pc];
    var id := AsU32(i.imm);
    var def, f := c.functions[id], Final(c, id, s, pool);
    var args := regs[i.a..i.a + i.b];
    var inside, m := InCall(k, pc, regs, i), Active(k, pc, regs, executed);
    OpenedIsTidy(def.arity, pool);
    CallEnters(c, h, k, pc, regs, executed, s, pool);
    var pc', regs';
    n, pc', regs' := Simulates(c, h, inside, s, Opened(def.arity, pool), f, def.entry, Passed(args, def), executed + 1,
                               EntryStore(args, def.arity, |f.vars|), fuel);
    WithinOrTrapped(c, h, id, s, pool, args, fuel);
    var start := Active(inside, def.entry, Passed(args, def), executed + 1);
    var hi := def.entry + |Compile(s, Opened(def.arity, pool)).0|;
    AfterWalk(c, h, inside, start, n, def.entry, hi);
    FirstThenAfter(c, h, m, n);
    var meaning := Meant(c, h, id, s, args, fuel);
    n := n + 1;
    if meaning.Done? {
      SitedVars(c, s, Opened(def.arity, pool), f, def.entry);
      Delivers(regs', f, meaning.store, x);
      CallReturns(c, h, k, pc, regs, executed + n, i, hi, regs', f.vars[x]);
      AfterOneMore(c, h, m, n);
      n := n + 1;
    }
  }

  lemma CallReturns(c: Chunk, h: Host, k: Context, pc: nat, regs: seq<Value>, executed: nat, i: Instruction, at: nat,
                    regs': seq<Value>, r: u8)
    requires at < |c.code| && c.code[at] == ReturnOf(r) && r < |regs'| && i.a < |regs|
    ensures Step(c, h, Active(InCall(k, pc, regs, i), at, regs', executed))
            == Continue(Active(k, pc + 1, regs[i.a := regs'[r]], executed + 1))
  {
    hide Step;
    var inside := InCall(k, pc, regs, i);
    var caller := Frame(k.function_, pc + 1, regs, k.dest);
    ReturnMeans(c, h, inside, caller, at, regs', executed);
    assert inside.below[..|inside.below| - 1] == k.below;
  }
}
