# Byteflow: verified model

Byteflow is an embeddable actor runtime: flows run register bytecode on a pool of workers, talk
through bounded mailboxes, hold capabilities, and are linked, monitored and supervised. This
project models its core in Dafny 4.11 and proves what the runtime relies on. `dafny verify
dfyconfig.toml` checks all of it.

| area | files | main results |
|---|---|---|
| values, opcodes, verifier | `Values`, `Bytecode` | the verifier is exact; opcode bytes are inverse |
| virtual machine, CPU budget | `Machine`, `Operators`, `Instructions`, `Interpreter`, `Quota` | verified chunks stay in bounds; arithmetic is that of the integers modulo 2^64; calls compute what the callee means; slices and yields are invisible; accounting is exact |
| loop lowering | `Lowering`, `Simulation`, `Programs`, `Builder` | assembled functions run, fault and diverge exactly as their source does; the 255-register bound is exact |
| wire format | `Format`, `Canonical`, `Codec` | which bytes decode to which module, exactly; round trip, injectivity, bounds of the reader |
| mailbox | `MailboxSpec`, `Inbox` | refinement of "deliver the oldest match"; bounds; epochs |
| capabilities | `Authority`, `Capability`, `Outgoing` | authority only narrows; reply addresses are stable; hops are authentic |
| supervision | `Intensity`, `Supervisor` | sliding window, exactly; no child is lost under the default strategy; when a cascade restores the start order, exactly |
| flow lifecycle | `Residence`, `Lifecycle`, `Exits`, `Fates`, `Finalization`, `Monitoring`, `Steps`, `Relations`, `Registers`, `Scheduler`, `Closure` | one place per flow, agreement of all indices, exactly who dies with a flow, how an ask ends |

Code that changes state in place is a class whose methods are proved against a function or a
relation on the state as a value; the laws are lemmas about those. The lifecycle is a state
machine: each method of `Scheduler.Shared` is one atomic step (a worker effect, a timer firing, a
host call, a finalization), keeps `Valid`, and says what the tables are afterwards; the
constructor establishes `Valid`, so what the lemmas about `SnapOk(s, {})` say holds in every
reachable state, under any schedule. Each step is also a `Moves` of `Monitoring` and an `AsksGoOn` of
`Registers`, whose laws are about whole runs.

Where the code differs from its own documentation or from what one might expect, the model follows
the code:

- `crates/byteflow/docs/mailbox.md:102` and `:188` say that a bytecode `Send` to a full inbox loses the
  hop; the worker parks the sender (`crates/byteflow/src/scheduler/worker.rs:450-458`): `Scheduler.Shared.ParkWaitingSend`.
- `DropOldest` with a hop larger than the whole byte budget empties the queue and then refuses, and
  only then: `MailboxSpec.RefusedIffBoundHit`, `MailboxSpec.EnqueueMeans`.
- A restart limit of 2^32-1 never refuses (`Intensity.LargestLimitNeverRefuses`), and a clock that has
  not yet passed the period forgets earlier restarts (`Intensity.EarlyClockForgets`);
  `Intensity.BoundedIffRipe` says exactly when the bound on windows holds.
- A sibling that has left the directory but not reported yet is not awaited by a cascade, stays in the
  table flagged, and is started once more by the next one: `Supervision.LeftoverIsStartedTwice`, with
  the exact conditions in `Supervision.CascadeRestoresOrder` and `Supervision.CascadeRestoresTheStanding`.
- A second unexpected exit overwrites a cascade that is still waiting, and the child that failed first
  is lost: `Supervision.OverwrittenSlotLosesAChild`, with the exact condition in `Supervision.SecondFailure`.
- A delegation that names a native capability as its operand is always refused:
  `Capabilities.NativeOperandAlwaysRefused`.
- A function that asks for more than 255 registers gets handles the machine refuses.
  `Programs.LoweringPreservesMeaning` covers such functions, `Programs.StraightLineEndsIffItFits` is the
  exact bound for straight-line code, and with loops the trap comes exactly when the missing register
  is reached: `Programs.FaultsIffSourceFaults`.
- A CPU top-up past 2^63 - 1 wraps to a negative budget, which reads as exhausted, and no other does:
  `Quota.TopUpIsExact`, `Quota.OverflowingTopUpStops`, and over runs `Quota.AccountingIsExact`.
- A native may return one of the machine's own structural faults, which then escapes from a verified
  chunk: `Machine.NativeFaultEscapes`, `Machine.StructuralTrapsAreNatives`.
- A program whose last function emits nothing is rejected by the verifier: `Builders.AssembledVerifies`.
- A kill need not reach everyone down a chain of links between parked flows: an asker is told of the death
  of the flow it asked before links are followed, runs on under a signal, and its own links carry only when
  that signal is seen. `Closure.ChainStops` is such a chain, `Closure.WhoDies` and `Closure.ChainsOfLinks`
  say exactly who dies.
- `Neg` wraps on the smallest integer and nowhere else (`Machine.NegWrapsOnlyAtTheBottom`); `Mod` on
  anything but integers is an invariant fault (`Machine.ModNeedsIntegers`).

Inputs of the model: native functions, native gates and float operations are functions of a `Host`
value; spawn and send rate limits are a yes or no; random tokens are a list of draws; UTF-8 validity
(section 4 of RFC 3629) is a predicate on bytes; clocks are numbers.

## Model

| member | source | states |
|---|---|---|
| `Bytecode.OpcodeBytesInvert` | crates/byteflow/src/bytecode/opcode.rs:184-236 | a byte decodes to an opcode if and only if it is that opcode's byte: the two tables are inverse and no byte means two opcodes |
| `Bytecode.VerifyIsExact` | crates/byteflow/src/bytecode/verify.rs:162-233 | the early-exit scan accepts exactly the chunks that meet the declarative list of facts (function table, entries and arities in range, register files, jump targets, constants allowed under the trust level) |
| `Bytecode.VerifyReportsTheFirst` | crates/byteflow/src/bytecode/verify.rs:162-233 | a rejection names the first fact that fails in the order constants, functions, code, with its index and the values compared; everything before it holds |
| `Bytecode.ForbiddenMeans` | crates/byteflow/src/bytecode/verify.rs:49-73 | a constant is refused exactly when the module is untrusted and a capability token or a flow id sits anywhere in it, reply addresses and senders of messages included; the error names the kind of the constant |
| `Machine.StartOk` | crates/byteflow/src/vm/machine.rs:54-86 | a machine starts for exactly the existing functions of a verified chunk, in a state that satisfies the frame invariant |
| `Machine.StepKeepsOk` | crates/byteflow/src/vm/machine.rs:320-826 | one instruction of a verified chunk keeps every frame in bounds (pc in 0..=code length, register file of the declared size, only the bottom frame without destination, depth 1..=4096), and a trap is a bad constant, a bad function or an empty stack only if a native that the gate admits returns that very fault |
| `Machine.RunKeepsOk` | crates/byteflow/src/vm/machine.rs:320-333 | the same for a run under any budget |
| `Machine.VerifiedChunksStayInBounds` | crates/byteflow/src/vm/machine.rs:54-86 | the same for a whole life: from the start of a chunk that `verify` accepts, over any sequence of budgets and of answers the scheduler stores between them |
| `Machine.NativeFaultEscapes` | crates/byteflow/src/vm/machine.rs:438-478 | whatever fault an admitted native returns for some arguments, an accepted chunk started with these arguments traps with it, a structural fault included |
| `Machine.StructuralTrapsAreNatives` | crates/byteflow/src/vm/machine.rs:438-478 | all lives of all accepted chunks are free of bad-constant, bad-function and empty-stack traps if and only if no admitted native returns such a fault |
| `Machine.NegWrapsOnlyAtTheBottom` | crates/byteflow/src/vm/machine.rs:375-388 | the wrapped negation is the negation except for the smallest integer, which it leaves as it is |
| `Machine.ModNeedsIntegers` | crates/byteflow/src/vm/machine.rs:293-308 | the remainder raises the invariant fault exactly when an operand is not an integer |
| `Operators.OnIntegersIsUnique` | crates/byteflow/src/vm/machine.rs:273-317 | the clauses that give the language its operators on mathematical integers (sums, differences and products modulo 2^64 within 64 bits; quotient and remainder with `x == q*y + r`, the remainder smaller than the divisor and of the dividend's sign; comparisons) leave exactly one result |
| `Operators.MachineOnIntegers` | crates/byteflow/src/vm/machine.rs:273-317 | what the machine computes on two integers meets those clauses, for every opcode |
| `Operators.MachineComputes` | crates/byteflow/src/vm/machine.rs:273-317 | on all values the machine's arithmetic is the language's operators: equality of everything but floats, numbers by the host's floats, the faults and the order in which operands are checked |
| `Simulation.BranchStep` | crates/byteflow/src/vm/machine.rs:394-400 | a branch jumps on exactly `Unit`, `false`, 0 and the empty string and bytes, and goes on to the next instruction on any other value |
| `Instructions.StopsForEffects` | crates/byteflow/src/vm/machine.rs:487-816 | the machine stops for an effect (spawn, sleep, send, the receives and asks, monitor, link, names, delegation and the rest) exactly when its instruction asks for it over the registers, with the operands these hold, and has then only moved past the instruction |
| `Instructions.CallMeans` | crates/byteflow/src/vm/machine.rs:401-437 | a call puts the callee on top of the caller, which is past the call and otherwise as it was: the arguments it takes are the caller's registers in order, the rest `Unit`; too deep a stack and an unknown function trap |
| `Instructions.ReturnMeans` | crates/byteflow/src/vm/machine.rs:479-486 | a return completes with the register's value, or stores it in the register the call named and takes the callee's frame away |
| `Instructions.EndMeans` | crates/byteflow/src/vm/machine.rs:323-334 | running off the end of the code does the same with `Unit` |
| `Instructions.NativeMeans` | crates/byteflow/src/vm/machine.rs:438-478 | an admitted native is called on the registers named and its result stored in the first of them; the gate's refusal or the native's fault is the trap |
| `Instructions.NegMeans` | crates/byteflow/src/vm/machine.rs:375-388 | `Neg` stores the negated integer modulo 2^64 or the host's negated float, and traps on anything else |
| `Instructions.CompletesWith` | crates/byteflow/src/vm/machine.rs:347-350 | `Halt` completes with register 0 and `Exit` with the register named |
| `Instructions.FreshIdsCountUp` | crates/byteflow/src/vm/machine.rs:103-111 | request ids count up by one from 1 and stay at the top |
| `Machine.RunCounts` | crates/byteflow/src/vm/machine.rs:320-333 | a run executes at most its budget, and exactly its budget when it is the budget that ends it |
| `Machine.RunSplits` | crates/byteflow/src/vm/machine.rs:320-333 | running `first + second` equals running `first` and, if that was ended by the budget, then `second` |
| `Machine.SlicingIsInvisible` | crates/byteflow/src/vm/machine.rs:320-333 | any sequence of quanta gives the state and result of one run with their sum |
| `Machine.YieldsAreInvisible` | crates/byteflow/src/scheduler/worker.rs:279-303 | slice after slice, resumed after the budget ends as well as after an explicit `Yield`, a flow walks the one stream of instructions its code determines, and the slices together executed exactly the length walked |
| `Interpreters.Interpreter.Fetch` | crates/byteflow/src/vm/machine.rs:264-271 | the fetching loop body reads the instruction at pc and advances, or reports the end of the code, as the step function says |
| `Interpreters.Interpreter.PopTopFrame` | crates/byteflow/src/vm/machine.rs:827-852 | popping completes the run on the bottom frame and otherwise stores into the caller's destination |
| `Interpreters.Interpreter.CollectArgs` | crates/byteflow/src/vm/machine.rs:865-878 | the argument loop gathers the consecutive registers, or fails at the first one past 255 or past the register file |
| `Interpreters.Interpreter.StepOnce` | crates/byteflow/src/vm/machine.rs:320-826 | one turn of the in-place interpreter loop equals the step function on the machine's value, for every opcode |
| `Interpreters.Interpreter.Run` | crates/byteflow/src/vm/machine.rs:320-333 | the in-place interpreter with a budget computes exactly `Machine.Run` |
| `Quota.FlowQuota.RemainingCpu` | crates/byteflow/src/scheduler/quota.rs:188-192 | what is left is never reported negative |
| `Quota.FlowQuota.ChargeCpu` | crates/byteflow/src/scheduler/quota.rs:194-201 | a charge is taken if and only if the wrapped difference is not negative; a refused charge changes nothing |
| `Quota.FlowQuota.TopUpCpu` | crates/byteflow/src/scheduler/quota.rs:255-257 | the top-up is added with 64-bit wrap-around |
| `Quota.FlowQuota.RunSlice` | crates/byteflow/src/scheduler/worker.rs:279-303 | a slice of `min(quantum, remaining)` runs iff budget is left, its charge is never refused, budget plus instructions executed is constant, and the budget does not go negative |
| `Quota.TopUpIsExact` | crates/byteflow/src/scheduler/quota.rs:255-257 | a top-up adds exactly its amount if and only if the sum stays below 2^63; beyond that the budget turns negative |
| `Quota.AccountingIsExact` | crates/byteflow/src/scheduler/worker.rs:279-303 | over any run of slices with nonnegative top-ups arriving during or between them and the scheduler's answers stored: remaining budget = initial + top-ups - instructions executed, not negative, no charge refused, and a flow stopped for lack of budget has executed exactly what it was granted, if and only if every top-up fits below 2^63 when it counts (after the charge of its slice, or when it lands between slices) |
| `Quota.BoundedCreditsFit` | crates/byteflow/src/scheduler/worker.rs:279-303 | budget and top-ups that sum to less than 2^63 always fit |
| `Quota.OverflowingTopUpStops` | crates/byteflow/src/scheduler/quota.rs:255-257 | a top-up that overflows makes the next slice report exhaustion |
| `Lowering.EvalIsSettled` | crates/byteflow/src/bytecode/program.rs:271-284 | the direct while-semantics gives one meaning: once a program has ended or is stuck, more fuel changes nothing |
| `Lowering.LoopEndsAtItsLimit` | crates/byteflow/src/bytecode/program.rs:271-284 | a loop that ends leaves its counter not below its limit, whatever its body does |
| `Lowering.LoopCountsUp` | crates/byteflow/src/bytecode/program.rs:271-284 | counting up by one ends with the counter at the larger of counter and limit, for all 64-bit integers |
| `Simulation.Simulates` | crates/byteflow/src/bytecode/program.rs:199-284 | the code of a statement, placed anywhere in a function of any number of registers, is walked to its end with the user registers equal to the values of the semantics within 255 registers, raises the same fault, or keeps walking inside the code as long as the source is busy |
| `Programs.LoweringPreservesMeaning` | crates/byteflow/src/bytecode/program.rs:199-284 | from the entry of a built function, however many registers it takes: the machine reaches the end of the body with the user variables of the semantics within 255 registers, raises its fault, or has taken at least `fuel` steps without leaving when the source has not ended within `fuel` |
| `Lowering.ConfinedOrTrapped` | crates/byteflow/src/bytecode/program.rs:151-157 | within 255 registers a program keeps its meaning or raises `RegisterOutOfRange(255, 255)`, nothing else |
| `Lowering.ConfinedIsMeaning` | crates/byteflow/src/bytecode/program.rs:151-157 | a program that takes at most 255 registers has its full meaning within them |
| `Programs.StraightLineEndsIffItFits` | crates/byteflow/src/bytecode/program.rs:151-157 | a straight-line function whose meaning is done gets to its end if and only if it takes at most 255 registers, and otherwise traps with `RegisterOutOfRange(255, 255)` |
| `Programs.HandleWorksIffRegisterLeft` | crates/byteflow/src/bytecode/program.rs:151-157 | the code that initialises one new handle works if and only if fewer than 255 registers were taken before; otherwise it traps on register 255 |
| `Programs.EndsIffSourceEnds` | crates/byteflow/src/bytecode/program.rs:271-284 | the machine ever reaches the end of the body if and only if the source, within 255 registers, ends |
| `Programs.ReachesIffMeant` | crates/byteflow/src/bytecode/program.rs:271-284 | a function of at most 255 registers ever reaches the end of its body with given user variables if and only if the while-semantics ends with exactly these |
| `Programs.FaultsIffSourceFaults` | crates/byteflow/src/bytecode/program.rs:271-284 | it ever raises a fault in the body if and only if the source, within 255 registers, raises that fault |
| `Programs.DivergesIffSourceDiverges` | crates/byteflow/src/bytecode/program.rs:271-284 | it never leaves the body if and only if the source, within 255 registers, is busy for every fuel |
| `Programs.FunctionsComputeTheirMeaning` | crates/byteflow/src/bytecode/program.rs:303-305 | started on any arguments, a function of at most 255 registers that returns a handle completes with a value, or traps with a fault, for some budget if and only if the full source meaning delivers that value or that fault |
| `Programs.FunctionsRunForeverTogether` | crates/byteflow/src/bytecode/program.rs:303-305 | such a function exhausts every budget if and only if its source never delivers anything |
| `Programs.CountingCompletes` | crates/byteflow/src/bytecode/program.rs:271-284 | on the machine, a function that counts its first argument up to its second and returns it completes with the larger of the two, for all 64-bit integers and every budget that is large enough, and yields under every smaller one |
| `Programs.DifferenceCompletes` | crates/byteflow/src/bytecode/program.rs:208-234 | a function that subtracts its second argument from its first completes with the difference modulo 2^64 |
| `Instructions.CallsCompute` | crates/byteflow/src/vm/machine.rs:401-486 | a call of a built function of at most 255 registers, at any depth of the stack, computes what its source means: the caller goes on behind the call with the meaning's value in the register named and everything else as it was, or traps with its fault, or is still at it after `fuel` instructions |
| `Builders.ChunkBuilder.Constant` | crates/byteflow/src/bytecode/builder.rs:43-51 | the pool returns the index of the first equal constant and grows only for a new one |
| `Builders.ChunkBuilder.EmitJumpTo` | crates/byteflow/src/bytecode/builder.rs:98-106 | a jump is emitted with a pending patch for its label |
| `Builders.ChunkBuilder.Finish` | crates/byteflow/src/bytecode/builder.rs:356-376 | the patching loop gives every pending jump the relative offset of its label, and changes nothing else |
| `Builders.LoopAppends` | crates/byteflow/src/bytecode/program.rs:271-284 | head label, exit branch, body and back jump of `while_lt`, once patched, are the loop code with its relative offsets, whatever is emitted around them later |
| `Builders.TruncationIsHarmless` | crates/byteflow/src/bytecode/builder.rs:356-376 | storing a target as 32 bits before the subtraction does not change the wrapped 32-bit offset |
| `Builders.FnBuilder.TakeLocal` | crates/byteflow/src/bytecode/program.rs:151-157 | a new local is the register the layout says, saturating at 255, and the declared register count follows |
| `Builders.FnBuilder.TakeTemp` | crates/byteflow/src/bytecode/program.rs:613-625 | the scratch register is allocated once and then reused |
| `Builders.FnBuilder.EmitStmt` | crates/byteflow/src/bytecode/program.rs:199-284 | emitting any nested statement appends exactly the compiled code of that statement, once patched, and leaves the layout the compilation says |
| `Builders.EmitFunction` | crates/byteflow/src/bytecode/program.rs:82-92 | a whole function appends the compilation of its body and, if it has a result, the return of that handle, and declares the registers it ended up using |
| `Builders.CompileIsClosed` | crates/byteflow/src/bytecode/program.rs:199-284 | compiled code has no call or spawn, loads only pooled constants and never jumps out of itself, so it verifies wherever it is placed |
| `Builders.AssembledVerifies` | crates/byteflow/src/bytecode/verify.rs:162-233 | an assembled chunk passes verification exactly when its function table is not empty and its last function has code: an empty last function has its entry past the end |
| `Builders.Assemble` | crates/byteflow/src/bytecode/program.rs:73-119 | in the chunk of a whole program of any number of functions, below 2^31 instructions, every function is its source for the lowering theorems, return included, and `verify` accepts the chunk under either trust level if and only if there is a function and the last one emitted code |
| `Format.WireRoundTrip` | crates/byteflow/src/bytecode/format.rs:55-135 | decoding `encode(c)` followed by any bytes gives back `c` if and only if `c` is within the name, item, blob and nesting limits and, for an untrusted decode, no capability token and no flow id sits anywhere in its constants |
| `Format.DecodesEncoded` | crates/byteflow/src/bytecode/format.rs:90-135 | decoding what was encoded reads exactly the encoded bytes, or names the first forbidden constant |
| `Format.DecodedIsWithinLimits` | crates/byteflow/src/bytecode/format.rs:249-326 | whatever bytes come in, a chunk that comes out is within all limits and has no forbidden constant |
| `Format.FirstForbiddenMeans` | crates/byteflow/src/bytecode/format.rs:269-313 | the constant a decode complains about is the first one with a capability token or a flow id anywhere in it, named by its kind; with none there is no complaint |
| `Canonical.DecodesIffSpelt` | crates/byteflow/src/bytecode/format.rs:90-326 | of any bytes the decoder makes a chunk, reading `n` of them, if and only if they begin with a spelling of it, `n` long, within all limits and, untrusted, without authority; a spelling is the encoding with any byte but zero for `true`, so nothing else is ever accepted |
| `Canonical.ValueBytes` | crates/byteflow/src/bytecode/format.rs:143-190 | a value of each kind, byte for byte |
| `Canonical.MessageBytes` | crates/byteflow/src/bytecode/format.rs:162-170 | a message, byte for byte, in the order sender, reply address, request id, tag, payload |
| `Canonical.ModuleBytes` | crates/byteflow/src/bytecode/format.rs:55-82 | a small module, byte for byte, magic and version included |
| `Format.EncodingIsInjective` | crates/byteflow/src/bytecode/format.rs:55-82 | no encoding is a prefix of another and different chunks have different encodings |
| `Format.CutModuleIsTruncated` | crates/byteflow/src/bytecode/format.rs:201-208 | an encoded module cut anywhere before its end decodes to the truncation error |
| `Codec.EncodeChunk` | crates/byteflow/src/bytecode/format.rs:55-82 | the pushing loops of the encoder produce exactly the specified bytes |
| `Codec.DecodeChunk` | crates/byteflow/src/bytecode/format.rs:90-135 | the cursor-driven decoder computes exactly the specified result on every input, error cases included, and its cursor never passes the end |
| `MailboxSpec.EnqueueKeepsExact` | crates/byteflow/src/scheduler/mailbox/queue.rs:98-147 | under every policy the byte counter stays the sum of the sizes of the queued hops |
| `MailboxSpec.RemoveKeepsExact` | crates/byteflow/src/scheduler/mailbox/queue.rs:78-90 | removing the hop at any position refunds exactly its charge |
| `MailboxSpec.EnqueueRespectsBounds` | crates/byteflow/src/scheduler/mailbox/queue.rs:98-147 | an accepted hop leaves the queue within both bounds, whatever it was before; a hop not accepted never grows it |
| `MailboxSpec.RefusedIffBoundHit` | crates/byteflow/src/scheduler/mailbox/queue.rs:98-147 | `Reject` refuses exactly when a bound is really hit and names the hop bound first; `DropOldest` refuses exactly hops larger than the whole byte budget, with the queue emptied; `DropNewest` never refuses |
| `MailboxSpec.EnqueueMeans` | crates/byteflow/src/scheduler/mailbox/queue.rs:98-147 | on the hops themselves, under every policy: a hop both bounds have room for joins the end and nothing is dropped; otherwise `Reject` names the bound hit and `DropNewest` discards, both with the queue unchanged, and `DropOldest` drops the fewest oldest hops that make room and says so, or all of them in vain for a hop larger than the whole budget |
| `MailboxSpec.AdmitMeans` | crates/byteflow/src/scheduler/mailbox/mod.rs:512-527 | a waiting sender is admitted exactly when the inbox is open and has room for the oldest one's hop, which joins the end; the others keep their turn |
| `MailboxSpec.MatchesMeans` | crates/byteflow/src/scheduler/mailbox/mod.rs:79-108 | a filter matches exactly the messages with the tag, request id and sender it asks for; only the open filter matches anything else; a filter of tag and request id is both filters at once |
| `MailboxSpec.FilterForMeans` | crates/byteflow/src/scheduler/worker.rs:127-139 | a receive gets exactly the messages with the tag and the request id it names, from anybody |
| `MailboxSpec.TryPopMeans` | crates/byteflow/src/scheduler/mailbox/mod.rs:371-383 | a pop takes the oldest match and leaves the others in their order, or nothing exactly if nothing matches |
| `MailboxSpec.ParkMeans` | crates/byteflow/src/scheduler/mailbox/mod.rs:412-432 | parking installs the flow as it is exactly if nothing queued matches, and otherwise hands it the oldest match |
| `MailboxSpec.ChargeMeans` | crates/byteflow/src/bytecode/value.rs:220-236 | a value is charged for every level of nesting and every byte at the bottom |
| `MailboxSpec.EvictsShortestPrefix` | crates/byteflow/src/scheduler/mailbox/queue.rs:122-135 | every longer suffix than the one kept would not have made room for the new hop |
| `MailboxSpec.RunRefines` | crates/byteflow/src/scheduler/mailbox/mod.rs:337-540 | over any run of mailbox operations the queue is the pending part of an ideal log of accepted hops, the counter is exact, the epoch counts parks, and no queued hop matches the parked filter |
| `MailboxSpec.EveryDeliveryIsOldestMatch` | crates/byteflow/src/scheduler/mailbox/mod.rs:337-431 | in every reachable mailbox every delivery (pop, pop at the park race, handoff, system handoff) is the oldest pending hop that matches the filter in force, the order of the others is kept, and eviction takes the oldest |
| `MailboxSpec.HopsAreConserved` | crates/byteflow/src/scheduler/mailbox/mod.rs:337-540 | every accepted hop is queued, delivered or evicted, and only one of these |
| `MailboxSpec.FlowsAreConserved` | crates/byteflow/src/scheduler/mailbox/mod.rs:337-540 | over any run every flow that parked or waited to send is still in the mailbox or was given back, as often as it came |
| `MailboxSpec.SendersKeepTheirTurn` | crates/byteflow/src/scheduler/mailbox/mod.rs:487-540 | over any run whoever waits to send stands in the order of arrival |
| `MailboxSpec.ClosedForGood` | crates/byteflow/src/scheduler/mailbox/mod.rs:487-540 | after an inbox is closed nobody waits to send to it, and nobody is let in, ever |
| `MailboxSpec.OpenUntilClosed` | crates/byteflow/src/scheduler/mailbox/mod.rs:487-509 | only closing closes; it gives all waiting senders back in order, and until then every sender that asks is let in behind the others |
| `MailboxSpec.DeadlineTakesOnlyItsOwnPark` | crates/byteflow/src/scheduler/mailbox/mod.rs:445-458 | with fewer than 2^64 parks since it was armed, a deadline takes a flow if and only if that very park is still current; the flow is then the one that armed it, under the filter it parked with, and otherwise nothing changes |
| `MailboxSpec.StaleEpochRepeats` | crates/byteflow/src/scheduler/mailbox/mod.rs:412-432 | an enabled run of 2^64 wake-ups and parks after which an old deadline takes another park's flow, so the bound is needed |
| `Inboxes.Inbox.PushHop` | crates/byteflow/src/scheduler/mailbox/mod.rs:337-358 | the in-place operation (push of a user hop) computes the step of the specification and its result, and keeps the refinement of the ideal log and the counters |
| `Inboxes.Inbox.PushSystemHop` | crates/byteflow/src/scheduler/mailbox/mod.rs:467-481 | the in-place operation (push of a system hop) computes the step of the specification and its result, and keeps the refinement of the ideal log and the counters |
| `Inboxes.Inbox.TryPopFilter` | crates/byteflow/src/scheduler/mailbox/mod.rs:371-383 | the in-place operation (selective pop) computes the step of the specification and its result, and keeps the refinement of the ideal log and the counters |
| `Inboxes.Inbox.ParkFilter` | crates/byteflow/src/scheduler/mailbox/mod.rs:412-432 | the in-place operation (parking with the queue re-checked first) computes the step of the specification and its result, and keeps the refinement of the ideal log and the counters |
| `Inboxes.Inbox.TakeIfCurrent` | crates/byteflow/src/scheduler/mailbox/mod.rs:445-458 | the in-place operation (a deadline's attempt) computes the step of the specification and its result, and keeps the refinement of the ideal log and the counters |
| `Inboxes.Inbox.TakeParkedFlow` | crates/byteflow/src/scheduler/mailbox/mod.rs:460-464 | the in-place operation (taking the parked flow for a kill) computes the step of the specification and its result, and keeps the refinement of the ideal log and the counters |
| `Inboxes.Inbox.CloseInbox` | crates/byteflow/src/scheduler/mailbox/mod.rs:487-491 | the in-place operation (closing) computes the step of the specification and its result, and keeps the refinement of the ideal log and the counters |
| `Inboxes.Inbox.ParkWaitingSender` | crates/byteflow/src/scheduler/mailbox/mod.rs:497-509 | the in-place operation (parking a refused sender) computes the step of the specification and its result, and keeps the refinement of the ideal log and the counters |
| `Inboxes.Inbox.AdmitWaitingSender` | crates/byteflow/src/scheduler/mailbox/mod.rs:512-527 | the in-place operation (admitting one waiting sender) computes the step of the specification and its result, and keeps the refinement of the ideal log and the counters |
| `Inboxes.Inbox.TakeWaitingSender` | crates/byteflow/src/scheduler/mailbox/mod.rs:530-540 | the in-place operation (pulling one waiting sender out) computes the step of the specification and its result, and keeps the refinement of the ideal log and the counters |
| `Inboxes.MailboxQueue.TryEnqueue` | crates/byteflow/src/scheduler/mailbox/queue.rs:98-147 | the deque with its eviction loop computes the specified queue and verdict; capacity reservation never refuses a hop that fits |
| `Inboxes.MailboxQueue.ReserveForPush` | crates/byteflow/src/scheduler/mailbox/queue.rs:159-175 | reserving declines exactly when both the current capacity and the bound are in use, and otherwise leaves room for one more hop |
| `Inboxes.MailboxQueue.Take` | crates/byteflow/src/scheduler/mailbox/queue.rs:78-90 | the scan takes the first match and keeps the order of the rest |
| `Authority.MeetIsGreatest` | crates/byteflow/src/bytecode/cap.rs:156-168 | intersecting rights gives the greatest set within both |
| `Authority.GrantsExclude` | crates/byteflow/src/bytecode/cap.rs:80-145 | addressing and root grants never contain administration, and addressing contains neither native calls nor spawning |
| `Authority.MaskFromIndices` | crates/byteflow/src/bytecode/cap.rs:218-228 | the word array built from a list of indices allows exactly the listed indices below the table size |
| `Authority.FullMask` | crates/byteflow/src/bytecode/cap.rs:204-216 | the full mask allows exactly the indices below the table size, the last partial word included |
| `Authority.Intersect` | crates/byteflow/src/bytecode/cap.rs:245-261 | the word-wise loop refines set intersection |
| `Authority.AttenuateIsMeet` | crates/byteflow/src/bytecode/cap.rs:349-362 | attenuation keeps the target and is the greatest capability within both the source and the request, in rights and in native mask |
| `Authority.SpawnMeans` | crates/byteflow/src/scheduler/spawn.rs:34-58 | a spawn succeeds exactly for a parent that is not revoked, has the right to spawn and is within its rate, and names the first of these that fails; the child is addressed by its own id, has a right exactly when parent and request have it, and may call exactly the natives both name |
| `Authority.SpawnsUntilRevoked` | crates/byteflow/src/scheduler/spawn.rs:34-58 | after any run a flow within its rate starts a child under a new id exactly if it has the right to spawn and was not revoked since it was born |
| `Authority.LineageNarrows` | crates/byteflow/src/scheduler/spawn.rs:34-58 | along any line of bytecode spawns a flow's authority is no wider than that of every ancestor |
| `Authority.AuthorityOnlyNarrows` | crates/byteflow/src/scheduler/spawn.rs:34-58 | over whole runs of host and bytecode spawns and revocations, the authority of every flow is within its ancestors', within ROOT without administration, its mask within the native table, and whoever has started another has the right to spawn |
| `Capabilities.RunSane` | crates/byteflow/src/scheduler/capability.rs:168-359 | in every reachable table every entry is live, flow targets stay within the addressing rights, administration sits on scheduler targets only, and every cached reply address names a live entry of its pair with the right to send |
| `Capabilities.LateEntryIsDeadIffTargetExited` | crates/byteflow/src/scheduler/capability.rs:284-359 | a capability made before a flow exits and inserted only afterwards, between the lock sections of mint, attenuate or reissue, is live if and only if it does not target that flow; a dead one resolves to nothing |
| `Capabilities.ReplyResolves` | crates/byteflow/src/scheduler/capability.rs:187-234 | a reply address resolves for its holder with the rights asked for and addresses the flow it answers, whatever was cached |
| `Capabilities.CachedReplyIsReused` | crates/byteflow/src/scheduler/capability.rs:187-234 | asking again for a reply address returns the same token and changes nothing |
| `Capabilities.ReplyAddressIsStable` | crates/byteflow/src/scheduler/capability.rs:187-234 | this stays so after any run in which neither flow of the pair exits |
| `Capabilities.GrowsOncePerPair` | crates/byteflow/src/scheduler/capability.rs:187-234 | however many hops a pair exchanges, its reply addresses add at most one entry |
| `Capabilities.DerivedNarrows` | crates/byteflow/src/scheduler/capability.rs:284-322 | a derivation succeeds only for the holder of a live entry, keeps its target, and its rights are within the source and the request |
| `Capabilities.ResolveMeans` | crates/byteflow/src/scheduler/capability.rs:251-280 | a token resolves exactly when it is known, held by the asker, allows the required rights and its target's counter still reads its epoch, and the first of these that fails, in the order of the code, is the error |
| `Capabilities.DerivedMeans` | crates/byteflow/src/scheduler/capability.rs:284-322 | a derivation succeeds exactly for a token that resolves, addresses a flow and, if natives are asked for, has the native right; the new token has what source and request both have; the first failing check is the error |
| `Capabilities.RevokeIsExact` | crates/byteflow/src/scheduler/capability.rs:346-359 | revocation removes exactly the entries held by or targeting the flow, every other token resolves as before, and no cell or cached address mentions the flow |
| `Capabilities.NativeOperandAlwaysRefused` | crates/byteflow/src/scheduler/worker.rs:783-795 | no entry of any reachable table carries the native right, so a delegation that names a native capability is always refused |
| `Capabilities.CapTable.BindFlow` | crates/byteflow/src/scheduler/capability.rs:124-130 | binding keeps an existing counter; the invariant of the table is kept |
| `Capabilities.CapTable.InsertFresh` | crates/byteflow/src/scheduler/capability.rs:140-166 | the first drawn token that is neither 0 nor taken is used; without one nothing changes; the invariant of the table is kept |
| `Capabilities.CapTable.MintToken` | crates/byteflow/src/scheduler/capability.rs:168-185 | a minted entry is fresh and live; the invariant of the table is kept |
| `Capabilities.CapTable.MintReply` | crates/byteflow/src/scheduler/capability.rs:187-234 | the cached token if there is one, a new cached one otherwise; the invariant of the table is kept |
| `Capabilities.CapTable.ResolveToken` | crates/byteflow/src/scheduler/capability.rs:251-280 | the checks in their order: unknown, not holder, rights, revoked; the invariant of the table is kept |
| `Capabilities.CapTable.AttenuateToken` | crates/byteflow/src/scheduler/capability.rs:284-322 | derivation, or the error of the first failing check with nothing changed; the invariant of the table is kept |
| `Capabilities.CapTable.ReissueFor` | crates/byteflow/src/scheduler/capability.rs:338-343 | reissue without a holder check; the invariant of the table is kept |
| `Capabilities.CapTable.RevokeTokens` | crates/byteflow/src/scheduler/capability.rs:346-359 | the table without the flow, and the number of entries removed; the invariant of the table is kept |
| `Outgoing.OutgoingHopIsAuthentic` | crates/byteflow/src/scheduler/worker.rs:41-57 | a hop leaves its sender exactly when it carries no capability or one the sender holds on a flow; it then bears the sender's own identity whatever was written into it, a reply address the recipient can send to, and the given tag and request id; the table only grows |
| `Outgoing.CarriedCapabilityIsTheRecipients` | crates/byteflow/src/scheduler/worker.rs:105-124 | the capability in the payload is replaced by a new token of the recipient with the same target and rights, and the sender keeps its own |
| `Outgoing.ReissueReplacesTheCapability` | crates/byteflow/src/scheduler/worker.rs:105-124 | however deep the payload nests, the walk delegates exactly the one capability at its end and rebuilds the value around the new token |
| `Intensity.RestartGate.IntensityHit` | crates/byteflow/src/scheduler/supervisor.rs:341-369 | push, prune and count compute the specified verdict and remembered times, including the narrowing of the count to 32 bits |
| `Intensity.WindowsAreBounded` | crates/byteflow/src/scheduler/supervisor.rs:341-369 | with a monotone clock already past the period and a limit below 2^32-1, every closed window of the period's length holds at most the allowed number of restarts let through |
| `Intensity.BoundedIffRipe` | crates/byteflow/src/scheduler/supervisor.rs:341-369 | every run of a clock standing at `from` keeps all windows bounded if and only if no restart is allowed at all, or the limit is below 2^32-1 and the clock has reached the last tick of the first period |
| `Intensity.RefusalIsFinal` | crates/byteflow/src/scheduler/supervisor.rs:436-441 | after the first refusal nothing is ever let through again |
| `Intensity.LetsThroughTheLongestPrefix` | crates/byteflow/src/scheduler/supervisor.rs:341-369 | of the requests of a clock that has passed the period exactly the longest beginning is let through with at most the allowed number in every closed window: a restart is refused only when it is one too many |
| `Intensity.LargestLimitNeverRefuses` | crates/byteflow/src/scheduler/supervisor.rs:341-369 | with the limit 2^32-1 every request is let through: the narrowed count is never larger |
| `Intensity.EarlyClockForgets` | crates/byteflow/src/scheduler/supervisor.rs:341-369 | while the clock has not passed the period every strictly later request is let through: the window then starts at the present |
| `Supervision.Supervisor.OnExit` | crates/byteflow/src/scheduler/supervisor.rs:409-451 | the in-place handling of an exit (policy, gate, cascade start or progress) computes the specified state |
| `Supervision.Supervisor.Start` | crates/byteflow/src/scheduler/supervisor.rs:453-523 | flagging siblings, killing the parked ones and filling or finishing the cascade slot computes the specified state |
| `Supervision.Supervisor.OnCascadeProgress` | crates/byteflow/src/scheduler/supervisor.rs:525-542 | a flagged exit leaves the pending set, and the last one finishes the cascade |
| `Supervision.RestartsAre` | crates/byteflow/src/scheduler/supervisor.rs:333-339 | `Always` brings a child back after any exit, `OnFailure` after a failure only, `Never` after none |
| `Supervision.OneForOneReplaces` | crates/byteflow/src/scheduler/supervisor.rs:409-451 | under the default strategy an unexpected exit takes the child out of the table; if it is to come back and the gate agrees, one new live incarnation of its spec joins the end of the order; its siblings keep their incarnations and their order, and the gate is asked only for a child that is to come back |
| `Supervision.OneForOneKeepsChildren` | crates/byteflow/src/scheduler/supervisor.rs:409-451 | over every run under the default strategy the specs in the table, those of unhandled exits included, are those before but for children that are not to come back or were refused |
| `Supervision.OtherExitsOnlyRemove` | crates/byteflow/src/scheduler/supervisor.rs:409-451 | under every strategy the exit of a stranger changes nothing, and that of a child that is not to come back or is refused takes the child out and no more |
| `Supervision.RefusalStartsNothing` | crates/byteflow/src/scheduler/supervisor.rs:436-441 | after the first refusal no child is ever started again, by a restart or by a cascade |
| `Supervision.CascadeRestoresOrder` | crates/byteflow/src/scheduler/supervisor.rs:409-561 | for `OneForAll` and `RestForOne`: from any failure the gate allows, whatever is in the slot, over any run in which no other unexpected exit is handled, once pending exits have drained the ordered child specs equal those before the failure if and only if no child older than the failed one was flagged, which under `OneForAll` is always so; the slot is then free, and under `RestForOne` the unflagged earlier incarnations are untouched |
| `Supervision.CascadeRestoresTheStanding` | crates/byteflow/src/scheduler/supervisor.rs:453-523 | measured by the children that nobody was tearing down, the specs come back if and only if none of those torn down was flagged before; a flagged one is started once more |
| `Supervision.CascadeLeaves` | crates/byteflow/src/scheduler/supervisor.rs:409-561 | what such a run leaves is the unflagged spared siblings, the same incarnations, followed by everything on the list; nothing of what was in the slot before plays a part |
| `Supervision.SecondFailure` | crates/byteflow/src/scheduler/supervisor.rs:492-496 | a second unexpected exit before the first cascade is over: the drained specs equal those before the first failure if and only if the slot was free when it was handled and nobody it tears down was flagged; if the slot was taken it is overwritten, and what comes back is the list of those still in the table at that moment, which the first failed child has left |
| `Supervision.RunRestores` | crates/byteflow/src/scheduler/supervisor.rs:409-561 | at every point of such a run the table consists of older siblings as they were, less flagged ones that have gone, flagged siblings on their way out and new incarnations, with the rest still to be started |
| `Supervision.RespawnCompletes` | crates/byteflow/src/scheduler/supervisor.rs:453-523 | untouched specs followed by the list to be started are exactly the old list, in order |
| `Supervision.LeftoverIsStartedTwice` | crates/byteflow/src/scheduler/supervisor.rs:453-523 | a run of a fresh supervisor with two children `a`, `b` under `OneForAll` that drains to `a`, `a`, `b`: a sibling that has left the directory but not reported yet is not awaited, and its spec goes on the list of the next cascade beside that of its successor |
| `Supervision.OverwrittenSlotLosesAChild` | crates/byteflow/src/scheduler/supervisor.rs:492-496 | a run of a fresh supervisor with three children `a`, `b`, `c` under `RestForOne` that drains to `a`, `c`: `b` fails, and `a` fails while its restart is waiting |
| `Scheduler.Shared.RemoveAsker` | crates/byteflow/src/scheduler/finalize.rs:121-134 | the asker leaves the three maps of the ask index and an empty waiter set leaves with it |
| `Scheduler.Shared.StrandSenders` | crates/byteflow/src/scheduler/finalize.rs:191-208 | the inbox closes, and its waiting senders leave the waiting index and join the work list, once each, to exit with a fault |
| `Scheduler.Shared.WakeOrphans` | crates/byteflow/src/scheduler/finalize.rs:300-336 | everyone parked for an answer of the flow becomes runnable with the exit hop in its register, nobody stays in the index for it, and everything else is as before |
| `Scheduler.Shared.UnregisterFlow` | crates/byteflow/src/scheduler/registry.rs:102-108 | exactly the names of the flow go |
| `Scheduler.Shared.DeliverDown` | crates/byteflow/src/scheduler/finalize.rs:268-298 | the DOWN hop is in the parked owner's register or at the end of its queue, whatever the bounds; no ask ends by it and the ask index is untouched |
| `Scheduler.Shared.NotifyTargetExit` | crates/byteflow/src/scheduler/monitor.rs:163-183 | every monitor on the flow leaves the table and fires once, in order of reference |
| `Scheduler.Shared.ExtractForKill` | crates/byteflow/src/scheduler/finalize.rs:341-394 | a live flow gets the signal, and is taken out exactly if it is parked or waits to send |
| `Scheduler.Shared.CollectLinkExits` | crates/byteflow/src/scheduler/finalize.rs:244-256 | of the peers exactly the live ones are signalled, and those that can be taken out join the work list with the link reason |
| `Scheduler.Shared.FinalizeOne` | crates/byteflow/src/scheduler/finalize.rs:172-266 | one exit: what it does to every table, index, signal, monitor, link and place, and why each new entry of the work list is there |
| `Scheduler.Shared.FinalizeFlow` | crates/byteflow/src/scheduler/finalize.rs:156-170 | the work-list loop ends, all invariants hold with no flow in hand, and the result stands in the relation `Progress` to the state before, from which the lemmas below follow |
| `Exits.UnindexedOk` | crates/byteflow/src/scheduler/finalize.rs:183-191 | leaving the signal and ask indices keeps every invariant and takes nobody else out |
| `Exits.SweptOk` | crates/byteflow/src/scheduler/finalize.rs:214-230 | forgetting the flow in directory, quotas, capabilities, names and owned monitors keeps every invariant |
| `Exits.KillTakenOk` | crates/byteflow/src/scheduler/finalize.rs:341-394 | taking a flow out for a kill keeps every invariant and never touches a flow that some step already holds |
| `Exits.ExitInParts` | crates/byteflow/src/scheduler/finalize.rs:172-266 | the three parts of an exit together are the exit relation used by the work-list proof |
| `Finalization.ProgressOne` | crates/byteflow/src/scheduler/finalize.rs:163-169 | each turn of the loop preserves the account of who is dead, why, in which order, and who was told |
| `Finalization.NothingMentionsTheDead` | crates/byteflow/src/scheduler/finalize.rs:156-266 | when the call returns no table, index, queue or mailbox mentions any flow it finalized |
| `Closure.WhoDies` | crates/byteflow/src/scheduler/finalize.rs:156-266 | exactly who dies in a call: the first flow, and every flow that some death found parked or waiting to send and takes along (it waited to send to the dead, or was linked to it and the death was for any reason but `Normal`) before or without an earlier death having made it runnable; where everybody else is afterwards |
| `Closure.LinkClosure` | crates/byteflow/src/scheduler/finalize.rs:244-256 | every flow linked to one that died for any reason but `Normal` is dead too, or is live, able to run and under a signal to die for its link; other signals are those from before |
| `Closure.ChainsOfLinks` | crates/byteflow/src/scheduler/finalize.rs:244-256 | a chain of links from such a death through parked or waiting flows carries to its end, or stops at the first flow that an earlier death or the one before it in the chain has made runnable; everyone before that flow is dead, and it is live under a signal |
| `Closure.ChainCarries` | crates/byteflow/src/scheduler/finalize.rs:244-256 | everyone along such a chain is dead if no death makes any of them runnable |
| `Closure.ChainDiesIffAllFell` | crates/byteflow/src/scheduler/finalize.rs:244-256 | the whole chain is dead if and only if every flow after the first was found idle by a death that takes it along |
| `Closure.ChainStops` | crates/byteflow/src/scheduler/finalize.rs:300-336 | three parked flows, linked in a row, the second waiting for an answer of the first: whatever a kill of the first leaves, the second is told and signalled, and the third stays parked without a signal |
| `Closure.KillTheFirst` | crates/byteflow/src/scheduler/finalize.rs:398-407 | the scheduler's own kill of the first of them does that |
| `Finalization.StrandedSendersDie` | crates/byteflow/src/scheduler/finalize.rs:197-208 | every sender that was waiting in the inbox of a flow that died has died as well |
| `Finalization.OnlyWaitingFlowsAreDragged` | crates/byteflow/src/scheduler/finalize.rs:338-394 | running, runnable and sleeping flows are never finalized for another's sake and keep their registers |
| `Finalization.OrphansAreTold` | crates/byteflow/src/scheduler/finalize.rs:300-336 | whoever was parked for an answer of a dead flow is dead too or runnable with exactly one new register value, the hop telling of that exit; the index keeps exactly the live askers of live flows |
| `Finalization.MonitorsFireOnce` | crates/byteflow/src/scheduler/monitor.rs:158-183 | a monitor sends a DOWN hop in the call if and only if its owner lived to see its target die; no reference ever fires twice, and none stays in the table |
| `Monitoring.MonitorsFireOnceEver` | crates/byteflow/src/scheduler/monitor.rs:136-183 | over any run of scheduler steps a created monitor yields a DOWN hop if and only if its target is finalized at a later step while the entry stands and the owner is there to see it; no two hops ever bear the same reference |
| `Monitoring.HopTells` | crates/byteflow/src/scheduler/monitor.rs:158-183 | that hop names the reference, owner and target as created and the reason the target died for |
| `Finalization.DraggedFromTheFirst` | crates/byteflow/src/scheduler/finalize.rs:156-266 | every finalized flow is reached from the first one in finitely many steps, each a stranded sender or a link to an exit for another reason than `Normal` that came before |
| `Finalization.NormalExitSparesPeers` | crates/byteflow/src/scheduler/finalize.rs:244-256 | a normal exit of a flow nobody waits to send to finalizes only that flow and signals nobody |
| `Scheduler.Shared.Drive` | crates/byteflow/src/scheduler/worker.rs:241-274 | a worker runs a runnable flow unless it is under a kill signal, which finalizes it for that reason; the lost-race hop is written first |
| `Scheduler.Shared.Complete` | crates/byteflow/src/scheduler/worker.rs:1037-1048 | the end of a running flow finalizes it and what follows from it |
| `Scheduler.Shared.Deliver` | crates/byteflow/src/scheduler/worker.rs:872-929 | delivery hands the hop to a matching parked flow, which leaves the ask index, or queues, drops or refuses it under the policy; all invariants stay |
| `Scheduler.Shared.Receive` | crates/byteflow/src/scheduler/worker.rs:461-487 | a receive takes the first match into the register named, or only records the register |
| `Scheduler.Shared.AdmitWaitingOn` | crates/byteflow/src/scheduler/worker.rs:831-870 | after a receive the oldest waiting sender whose hop fits is admitted and goes on, or parks for its answer |
| `Scheduler.Shared.ParkAsk` | crates/byteflow/src/scheduler/worker.rs:931-1003 | parking for an answer never finds a duplicate; the flow ends parked and indexed, resumed by a reply that was there, or told that its target is gone |
| `Scheduler.Shared.ParkOnMailbox` | crates/byteflow/src/scheduler/worker.rs:1005-1035 | parking installs the filter and arms the deadline of this very park, or resumes with a hop that has come in |
| `Scheduler.Shared.ParkWaitingSend` | crates/byteflow/src/scheduler/worker.rs:1050-1103 | a refused sender waits in the live target's queue and in the index, or exits with a fault if the target is gone |
| `Scheduler.Shared.Fire` | crates/byteflow/src/scheduler/timer.rs:216-256 | a deadline resumes its flow with `Unit` in the register it was armed for iff the epoch is current, and is otherwise inert |
| `Scheduler.Shared.Spawn` | crates/byteflow/src/scheduler/runtime.rs:763-840 | a birth is refused exactly at the flow limit; otherwise a new id is listed, runnable and bound, with an empty inbox |
| `Scheduler.Shared.RequestKill` | crates/byteflow/src/scheduler/finalize.rs:398-407 | parked and waiting flows exit at once, others only get the signal |
| `Scheduler.Shared.CreateMonitor` | crates/byteflow/src/scheduler/monitor.rs:136-144 | a monitor gets a reference that was never used |
| `Scheduler.Shared.RemoveMonitor` | crates/byteflow/src/scheduler/monitor.rs:146-156 | only the owner can drop it; the two errors are told apart |
| `Scheduler.Shared.CreateLink` | crates/byteflow/src/scheduler/link.rs:58-72 | a link is refused to itself and for a pair linked already in either direction |
| `Scheduler.Shared.RemoveLink` | crates/byteflow/src/scheduler/link.rs:74-84 | only an end of the link can drop it; the two errors are told apart |
| `Scheduler.Shared.RegisterName` | crates/byteflow/src/scheduler/registry.rs:57-75 | empty and taken names are refused; otherwise both directions of the table are updated |
| `Scheduler.Shared.UnregisterName` | crates/byteflow/src/scheduler/registry.rs:85-100 | the name leaves both directions, and the owner's list when it was the last |
| `Steps.EveryFlowIsInOnePlace` | crates/byteflow/src/scheduler/finalize.rs:60-147 | between steps every unfinished flow is in exactly one place (run queue, worker, timer, own slot, one waiting queue) and a finished one in none |
| `Steps.WaitingIndexAgrees` | crates/byteflow/src/scheduler/finalize.rs:60-75 | the waiting index names a target for a sender if and only if the sender is in that target's queue, and both are live |
| `Steps.AskIndexAgrees` | crates/byteflow/src/scheduler/finalize.rs:105-147 | a flow is in the ask index if and only if it is parked under the filter of an `Ask`; the three maps agree with each other and with that filter, and the flow asked is live |
| `Steps.NoLostWakeUp` | crates/byteflow/src/scheduler/mailbox/mod.rs:412-432 | no flow sleeps on a hop it waits for |
| `Steps.OnlyTheAnswerEndsAnAsk` | crates/byteflow/src/scheduler/worker.rs:502-613 | a hop that ends the wait of an asker carries its request id, comes from the flow that was asked, and that flow is live |
| `Registers.AsksEndOnce` | crates/byteflow/src/scheduler/worker.rs:502-613 | over any run of scheduler steps a flow that asks waits for the same answer with the registers it had until its wait ends, once, by exactly one new value: a hop with its request id from the flow asked or the news that this flow is gone, in the register it named, or `Unit` by a deadline of its own park (or of one 2^64 parks earlier); or until it dies |
| `Registers.DeliveredMeans` | crates/byteflow/src/scheduler/worker.rs:872-929 | a delivered hop is the one new value, in the register named, of a flow parked under a filter that it matches, no older queued hop matching; otherwise it joins the end of the inbox if there is room, and is refused only for lack of it; nobody else notices |
| `Registers.ReceivedMeans` | crates/byteflow/src/scheduler/worker.rs:461-487 | a receive puts the oldest match into the register named, as its one new value, and takes just that hop from the inbox; without a match it only records the register |
| `Registers.ParkedPlainMeans` | crates/byteflow/src/scheduler/worker.rs:1005-1035 | a flow about to park finds the oldest match in its register, or is parked as it is |
| `Registers.ParkedAskingMeans` | crates/byteflow/src/scheduler/worker.rs:931-1003 | a flow that asks finds the answer that was there first in its register, or the news of a fault if the flow asked is gone, or is parked as it is and indexed |
| `Registers.PlainTimeoutIsArmed` | crates/byteflow/src/scheduler/worker.rs:1005-1035 | a receive with a timeout that parks arms one deadline, for its own park and register; otherwise the timer is as it was, and no older deadline is of this park |
| `Registers.AskTimeoutIsArmed` | crates/byteflow/src/scheduler/worker.rs:931-1003 | the same for an ask, unless the answer was there first or the flow asked is gone |
| `Registers.TimedOutMeans` | crates/byteflow/src/scheduler/timer.rs:216-256 | a deadline that fires under the epoch of the park writes `Unit` into its register and nothing else, which is the register waited for if the park is its own |
| `Registers.RefreshedMeans` | crates/byteflow/src/scheduler/worker.rs:241-274 | a hop left from a lost race is in the register waited for before the flow runs |
| `Registers.OrphansRead` | crates/byteflow/src/scheduler/finalize.rs:300-336 | whoever was parked for an answer of a flow that died, and lives, has exactly one new value, in the register it named: the hop that tells of that exit and its reason |
| `Registers.OwnersRead` | crates/byteflow/src/scheduler/finalize.rs:268-298 | a DOWN hop is the one new value in the register its parked owner named, or is at the end of the owner's inbox |
| `Lifecycle.DownAnswersNoAsk` | crates/byteflow/src/scheduler/finalize.rs:268-298 | a DOWN hop about a flow that is gone never ends an `Ask`, although it may carry the request id |
| `Lifecycle.ReasonCodesInvert` | crates/byteflow/src/scheduler/monitor.rs:65-82 | the two tables of exit reasons are inverse |
| `Lifecycle.SystemHopsTell` | crates/byteflow/src/bytecode/value.rs:65-77 | a DOWN hop and an exit hop name the flow that is gone and, decoded, the reason; a receive for a monitor's reference gets the DOWN hop of that monitor and of no other |
| `Relations.SpawnedMeans` | crates/byteflow/src/scheduler/runtime.rs:763-840 | a new flow has an id that was never used; it is listed, runnable, addressable and its inbox open and empty; no other flow or inbox changes |
| `Relations.DemonitoredMeans` | crates/byteflow/src/scheduler/monitor.rs:146-156 | a monitor is taken out exactly when its owner asks; an unknown reference and another flow's are told apart and change nothing |
| `Relations.LinkedMeans` | crates/byteflow/src/scheduler/link.rs:58-72 | two different flows that are not linked yet get one new link that joins them both ways; the two refusals change nothing |
| `Relations.UnlinkedMeans` | crates/byteflow/src/scheduler/link.rs:74-84 | either end takes the link out and leaves all others; an unknown link and a stranger's request change nothing |
| `Relations.NamedMeans` | crates/byteflow/src/scheduler/registry.rs:57-75 | a name that is not empty and not taken leads to its capability and flow from both sides; the two refusals change nothing |
| `Relations.UnnamedMeans` | crates/byteflow/src/scheduler/registry.rs:85-100 | a name taken back leads nowhere from either side, and every other leads where it did |
| `Steps.OnlyTheCurrentParkTimesOut` | crates/byteflow/src/scheduler/timer.rs:227-249 | with fewer than 2^64 parks in a mailbox a deadline resumes its flow exactly if the park that armed it is current, and then writes the register that park waits in; a stale one changes nothing but the timer |
| `Steps.ParkedAskingOk` | crates/byteflow/src/scheduler/worker.rs:931-1003 | each of the three outcomes of parking for an answer keeps every invariant |
| `Steps.AskingMeans` | crates/byteflow/src/scheduler/worker.rs:931-1003 | when a reply was there first or the target is gone, the ask index is as it was before |
| `Steps.AdmitOneOk` | crates/byteflow/src/scheduler/mailbox/mod.rs:512-527 | admitting a sender takes exactly the first one out of queue and index, open and in no other index |
| `Steps.DeliveredOk` | crates/byteflow/src/scheduler/worker.rs:872-929 | delivery keeps every invariant, whoever is parked in the target's slot |
| `Steps.UnlinkedOk` | crates/byteflow/src/scheduler/link.rs:74-84 | after unlinking the two flows are not linked any more, since no pair is linked twice |
| `Residence.CloseBoxOk` | crates/byteflow/src/scheduler/finalize.rs:197-208 | closing an inbox and taking its senders in hand keeps queues, slots, waiting index and ask index consistent |
| `Residence.RetireOk` | crates/byteflow/src/scheduler/finalize.rs:214-230 | once the inbox is closed and the index has let go, removing the flow leaves nobody waiting in it or for it |
| `Residence.AskInsertOk` | crates/byteflow/src/scheduler/finalize.rs:105-119 | inserting an asker that is in hand keeps the three maps consistent |
| `Residence.HoldWaitingOk` | crates/byteflow/src/scheduler/mailbox/mod.rs:530-540 | taking a waiting sender out keeps queue and index in agreement |

## Left out

- Scheduler.Shared.Spawn: does not model arguments, authority or a child whose start fails half way, because authority is in `Authority` and reissue in `Capability`; a failed start only leaves an unused revocation counter.
- Scheduler.Shared.Deliver: takes the hop as already stamped; stamping and reissue are in `Outgoing`.
- Scheduler.Shared.Receive: does not check the receive right, which is a test of the flow's own authority before the step.
- Scheduler.Shared.CreateMonitor: takes the target as resolved; in the code the target may die between the capability check and the table insert, which the worker does not check again.
- Scheduler.Shared: critical sections of different locks inside one worker effect are one step, except refusal and parking of a sender, receive, admission and parking, which are separate steps.
- Finalization.MonitorsFireOnce: speaks of one call; `Monitoring.MonitorsFireOnceEver` is the law over runs.
- Capabilities.RunSane: takes mint, attenuate and reissue as one step each; the code takes the lock several times, and an exit in between can leave a dead entry, as `Capabilities.LateEntryIsDeadIffTargetExited` says.
- Capabilities.CapTable.MintToken: binding and insertion are one step, with the same consequence.
- Capabilities.CapTable.AttenuateToken: resolving, looking up the counter and insertion are one step, with the same consequence.
- Flow, monitor and link ids and the park counters stay below 2^64 - 1; the host's own id 0 is never a flow, so the refusal to finalize it is not reached.
- Intensity.WindowsAreBounded: asks for a limit below 2^32-1 and a clock past the period; `Intensity.BoundedIffRipe` says that nothing less will do.
- Builders.Assemble: programs of 2^31 or more instructions, or more than 2^32 constants or functions, are left open, as their offsets and indices wrap.
- Supervision.CascadeRestoresOrder: assumes that spawning a child succeeds, as a failing spawn drops the child and reports a fault, and that the host starts no child in the meantime.
- Machine.StepKeepsOk: does not model the heap quota that may be attached to a machine, whose refusal turns a register write of a string or of bytes into one more, non-structural trap; the charge depends on which buffers are shared, and values here have no identity.
- Machine.RunKeepsOk: leaves out the same heap-quota trap.
- Machine.VerifiedChunksStayInBounds: leaves out the same heap-quota trap; the machine is the one before a quota is attached.
- Programs.FunctionsComputeTheirMeaning: speaks of machines without a heap quota, for the same reason.
- Heap charges of hops: they over-count on purpose and are not balanced on the parked-send path.
- `TokenBucket` refill: rate arithmetic in floating point.
- Cranelift code generation (`jit/`), OS threads, work stealing, condition variables, lock poisoning, shutdown.
- Native functions, printing, logging, metrics, disassembler, command line, samples, `Display` impls.
- `oneshot`, `handle`, directory sharding, `link_admin`, native table builder, error types: wrappers that would add only easy members.
- Strings and names are byte sequences; order of iteration over hash maps is left open.
