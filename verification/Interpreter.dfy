/**
 The interpreter object (crates/byteflow/src/vm/machine.rs): frames, program counter and
 counters updated in place, one instruction at a time, proved to compute `Machine.Run`.
 */
module Interpreters {
  import opened Wrappers
  import opened Values
  import opened Bytecode
  import opened Machine

  /** Arguments gathered so far, followed by whatever gathering the rest gives. */
  function Prepend(args: seq<Value>, rest: Result<seq<Value>, Fault>): Result<seq<Value>, Fault> {
    match rest case Ok(more) => Ok(args + more) case Err(fault) => Err(fault)
  }

  class Interpreter {
    const chunk: Chunk
    const host: Host
    var frames: seq<Frame>
    var instructionsExecuted: nat
    var nextRequestId: u64

    ghost function State(): Vm
      reads this
    {
      Vm(frames, instructionsExecuted, nextRequestId)
    }

    constructor (chunk: Chunk, host: Host, initial: Vm)
      ensures this.chunk == chunk && this.host == host && State() == initial
    {
      this.chunk, this.host := chunk, host;
      frames, instructionsExecuted, nextRequestId := initial.frames, initial.executed, initial.nextRequestId;
    }

    method ReadRegister(r: u8) returns (v: Result<Value, Fault>)
      ensures v == GetReg(State(), r)
    {
      if frames == [] {
        return Err(EmptyFrameStack);
      }
      var registers := frames[|frames| - 1].registers;
      if r < |registers| {
        return Ok(registers[r]);
      }
      return Err(RegisterOutOfRange(r, |registers|));
    }

    method WriteRegister(r: u8, v: Value) returns (done: Result<(), Fault>)
      modifies `frames
      ensures match SetReg(old(State()), r, v)
              case Ok(m) => done.Ok? && State() == m
              case Err(fault) => done == Err(fault) && State() == old(State())
    {
      if frames == [] {
        return Err(EmptyFrameStack);
      }
      var top := frames[|frames| - 1];
      if r < |top.registers| {
        frames := frames[|frames| - 1 := top.(registers := top.registers[r := v])];
        return Ok(());
      }
      return Err(RegisterOutOfRange(r, |top.registers|));
    }

    /** The instruction under the program counter, which moves past it; `None` past the end. */
    method Fetch() returns (r: Result<Option<Instruction>, Fault>)
      modifies `frames
      ensures r.Err? <==> old(frames) == []
      ensures r.Err? ==> r.error == EmptyFrameStack
      ensures r == Ok(None) ==> State() == old(State()) && old(frames[|frames| - 1].pc) >= |chunk.code|
      ensures r.Ok? && r.value.Some? ==>
                var pc := old(frames[|frames| - 1].pc);
                pc < |chunk.code| && r.value.value == chunk.code[pc] && State() == SetPc(old(State()), pc + 1)
      ensures r.Err? ==> State() == old(State())
    {
      if frames == [] {
        return Err(EmptyFrameStack);
      }
      var top := frames[|frames| - 1];
      if top.pc >= |chunk.code| {
        return Ok(None);
      }
      frames := frames[|frames| - 1 := top.(pc := top.pc + 1)];
      return Ok(Some(chunk.code[top.pc]));
    }

    /** What the caller of an in-place step sees, against the step as a function. */
    ghost predicate Did(before: Vm, expected: Result<Outcome, Fault>, r: Result<Option<VmResult>, Fault>)
      reads this
    {
      match expected
      case Ok(Continue(m)) => r == Ok(None) && State() == m
      case Ok(Stop(m, result)) => r == Ok(Some(result)) && State() == m
      case Err(fault) => r == Err(fault) && State() == before
    }

    /** Deliver `value` to the caller's destination register, or finish the flow. */
    method PopTopFrame(value: Value) returns (r: Result<Option<VmResult>, Fault>)
      modifies `frames
      ensures Did(old(State()), PopFrame(old(State()), value), r)
    {
      if frames == [] {
        return Err(EmptyFrameStack);
      }
      var finished := frames[|frames| - 1];
      frames := frames[..|frames| - 1];
      if finished.dest.None? {
        return Ok(Some(Complete(value)));
      }
      var done := WriteRegister(finished.dest.value, value);
      if done.Err? {
        var size := if frames == [] then 0 else |frames[|frames| - 1].registers|;
        return Ok(Some(Trapped(RegisterOutOfRange(finished.dest.value, size))));
      }
      return Ok(None);
    }

    method CollectArgs(base: u8, count: u8) returns (r: Result<seq<Value>, Fault>)
      ensures r == GatherArgs(State(), base, 0, count)
    {
      var args, i := [], 0;
      assert Prepend([], GatherArgs(State(), base, 0, count)) == GatherArgs(State(), base, 0, count) by {
        if GatherArgs(State(), base, 0, count).Ok? {
          assert [] + GatherArgs(State(), base, 0, count).value == GatherArgs(State(), base, 0, count).value;
        }
      }
      while i < count
        invariant 0 <= i <= count
        invariant GatherArgs(State(), base, 0, count) == Prepend(args, GatherArgs(State(), base, i, count - i))
      {
        var index := RegAt(base, i);
        if index.Err? {
          return Err(index.error);
        }
        var v := ReadRegister(index.value);
        if v.Err? {
          return Err(v.error);
        }
        ghost var rest := GatherArgs(State(), base, i + 1, count - i - 1);
        if rest.Ok? {
          assert args + ([v.value] + rest.value) == (args + [v.value]) + rest.value;
        }
        args, i := args + [v.value], i + 1;
      }
      assert args + [] == args;
      return Ok(args);
    }

    method CallFunction(i: Instruction) returns (r: Result<Option<VmResult>, Fault>)
      modifies `frames
      ensures Did(old(State()), ExecCall(chunk, old(State()), i), r)
    {
      if |frames| >= MAX_CALL_DEPTH {
        return Err(CallStackOverflow(|frames|));
      }
      var index := AsU32(i.imm);
      if index >= |chunk.functions| {
        return Err(BadFunction(index, |chunk.functions|));
      }
      var def := chunk.functions[index];
      var args := CollectArgs(i.a, i.b);
      if args.Err? {
        return Err(args.error);
      }
      var registers, k := FreshRegisters(def.numRegisters), 0;
      while k < |args.value| && k < def.arity
        invariant 0 <= k
        invariant |registers| == def.numRegisters
        invariant LoadArgs(registers, args.value, def.arity, k)
                  == LoadArgs(FreshRegisters(def.numRegisters), args.value, def.arity, 0)
      {
        if k >= |registers| {
          return Err(RegisterOutOfRange(if k < 0x100 then k else 0xFF, |registers|));
        }
        registers := registers[k := args.value[k]];
        k := k + 1;
      }
      frames := frames + [Frame(index, def.entry, registers, Some(i.a))];
      return Ok(None);
    }

    method CallForeign(i: Instruction) returns (r: Result<Option<VmResult>, Fault>)
      modifies `frames
      ensures Did(old(State()), ExecNative(host, old(State()), i), r)
    {
      var denied := host.gate(AsU32(i.imm));
      if denied.Some? {
        return Err(NativeGate(denied.value));
      }
      var args := CollectArgs(i.a, i.b);
      if args.Err? {
        return Err(args.error);
      }
      var returned := host.native(AsU32(i.imm), args.value);
      if returned.Err? {
        return Err(returned.error);
      }
      r := StoreTo(i.a, returned.value);
    }

    method StoreTo(r: u8, v: Value) returns (done: Result<Option<VmResult>, Fault>)
      modifies `frames
      ensures Did(old(State()), Store(old(State()), r, v), done)
    {
      var written := WriteRegister(r, v);
      done := if written.Ok? then Ok(None) else Err(written.error);
    }

    method MoveBy(imm: i32)
      requires frames != []
      modifies `frames
      ensures State() == SetPc(old(State()), JumpTarget(old(frames[|frames| - 1].pc), imm))
    {
      var top := frames[|frames| - 1];
      frames := frames[|frames| - 1 := top.(pc := JumpTarget(top.pc, imm))];
    }

    /** Execute a fetched instruction. */
    method Execute(i: Instruction) returns (r: Result<Option<VmResult>, Fault>)
      requires frames != []
      modifies this
      ensures instructionsExecuted == old(instructionsExecuted)
      ensures Did(old(State()), Exec(chunk, host, old(State()), i), r)
    {
      hide Store, SetReg, GetReg, PopFrame, ExecCall, ExecNative, ExecEffect, Arithmetic;
      match i.op {
        case Halt => r := Finish(0);
        case Exit => r := Finish(i.a);
        case Nop => r := Ok(None);
        case Jump =>
          MoveBy(i.imm);
          r := Ok(None);
        case Branch =>
          var cond := ReadRegister(i.a);
          if cond.Err? {
            return Err(cond.error);
          }
          if !IsTruthy(cond.value) {
            MoveBy(i.imm);
          }
          r := Ok(None);
        case Call => r := CallFunction(i);
        case CallNative => r := CallForeign(i);
        case LoadConst => r := ExecuteLoad(i);
        case LoadImm => r := ExecuteLoad(i);
        case FreshRequestId => r := ExecuteLoad(i);
        case _ => r := ExecuteRest(i);
      }
    }

    /** The instructions that store a value the machine makes itself. */
    method ExecuteLoad(i: Instruction) returns (r: Result<Option<VmResult>, Fault>)
      requires frames != []
      requires i.op.LoadConst? || i.op.LoadImm? || i.op.FreshRequestId?
      modifies `frames, `nextRequestId
      ensures Did(old(State()), Exec(chunk, host, old(State()), i), r)
    {
      hide Store, SetReg, GetReg, PopFrame, ExecCall, ExecNative, ExecRest;
      if i.op.LoadImm? {
        r := StoreTo(i.a, Int(i.imm));
      } else if i.op.FreshRequestId? {
        var id: u64 := if nextRequestId == 0 then 1 else nextRequestId;
        nextRequestId := if id == 0xFFFF_FFFF_FFFF_FFFF then id else id + 1;
        var written := WriteRegister(i.a, Int(Wrap64(id)));
        r := if written.Ok? then Ok(None) else Ok(Some(Trapped(written.error)));
      } else if AsU32(i.imm) < |chunk.constants| {
        r := StoreTo(i.a, chunk.constants[AsU32(i.imm)]);
      } else {
        r := Err(BadConstant(AsU32(i.imm), |chunk.constants|));
      }
    }

    method Finish(reg: u8) returns (r: Result<Option<VmResult>, Fault>)
      ensures GetReg(State(), reg).Ok? ==> r == Ok(Some(Complete(GetReg(State(), reg).value)))
      ensures GetReg(State(), reg).Err? ==> r == Err(GetReg(State(), reg).error)
    {
      var v := ReadRegister(reg);
      r := if v.Ok? then Ok(Some(Complete(v.value))) else Err(v.error);
    }

    /** The instructions that read a register first, arithmetic, and every scheduler effect. */
    method ExecuteRest(i: Instruction) returns (r: Result<Option<VmResult>, Fault>)
      requires frames != []
      requires !(i.op.Halt? || i.op.Exit? || i.op.Nop? || i.op.LoadConst? || i.op.LoadImm? || i.op.Jump?
                 || i.op.Branch? || i.op.Call? || i.op.CallNative? || i.op.FreshRequestId?)
      modifies `frames
      ensures Did(old(State()), Exec(chunk, host, old(State()), i), r)
    {
      hide Store, SetReg, GetReg, PopFrame, ExecCall, ExecNative, ExecEffect, Arithmetic;
      if i.op.Move? || i.op.Neg? || i.op.Return? {
        var v := ReadRegister(if i.op.Return? then i.a else i.b);
        if v.Err? {
          return Err(v.error);
        }
        if i.op.Return? {
          r := PopTopFrame(v.value);
        } else if i.op.Move? {
          r := StoreTo(i.a, v.value);
        } else if v.value.Int? {
          r := StoreTo(i.a, Int(Wrap64(0 - v.value.i)));
        } else if v.value.Float? {
          r := StoreTo(i.a, Float(host.floatNeg(v.value.bits)));
        } else {
          r := Err(TypeMismatch("int or float", TypeName(v.value)));
        }
      } else if IsArithmetic(i.op) {
        var a := ReadRegister(i.b);
        if a.Err? {
          return Err(a.error);
        }
        var b := ReadRegister(i.c);
        if b.Err? {
          return Err(b.error);
        }
        var v := Arithmetic(host, i.op, a.value, b.value);
        if v.Err? {
          return Err(v.error);
        }
        r := StoreTo(i.a, v.value);
      } else {
        var effect := ExecEffect(Vm(frames, instructionsExecuted, nextRequestId), i);
        r := if effect.Ok? then Ok(Some(effect.value)) else Err(effect.error);
      }
    }

    /** Fetch and execute one instruction; `None` to go on. */
    method StepOnce() returns (r: Option<VmResult>)
      modifies this
      ensures Step(chunk, host, old(State()))
              == if r.None? then Continue(State()) else Stop(State(), r.value)
    {
      hide Exec, PopFrame;
      instructionsExecuted := instructionsExecuted + 1;
      var fetched := Fetch();
      if fetched.Err? {
        return Some(Trapped(fetched.error));
      }
      var done: Result<Option<VmResult>, Fault>;
      if fetched.value.Some? {
        done := Execute(fetched.value.value);
      } else {
        done := PopTopFrame(Unit);
      }
      match done {
        case Ok(outcome) => return outcome;
        case Err(fault) => return Some(Trapped(fault));
      }
    }

    /** At most `budget` instructions, or until something other than the next instruction is due. */
    method Run(budget: nat) returns (r: VmResult)
      modifies this
      ensures (State(), r) == Machine.Run(chunk, host, old(State()), budget)
    {
      hide Step;
      var left := budget;
      while left > 0
        invariant 0 <= left <= budget
        invariant Machine.Run(chunk, host, State(), left) == Machine.Run(chunk, host, old(State()), budget)
      {
        var result := StepOnce();
        if result.Some? {
          return result.value;
        }
        left := left - 1;
      }
      return Yielded;
    }
  }
}
