/**
 Whole functions (crates/byteflow/src/bytecode/program.rs): started on any arguments they
 end, fault and run on exactly as their source does.
 */
module Programs {
  import opened Wrappers
  import opened Values
  import opened Bytecode
  import opened Machine
  import opened Operators
  import opened Lowering
  import opened Simulation

  // ----- whole functions -----

  /** `Fn::open`: the first `max(arity, 4)` registers are handles from the start. */
  function Opened(arity: u8, pool: seq<Value>): Layout {
    var n := Max(arity, 4);
    Layout(seq(n, i requires 0 <= i < n => i), n, None, pool)
  }

  /** The layout at the end of a function. */
  function Final(c: Chunk, id: u32, s: Stmt, pool: seq<Value>): Layout
    requires id < |c.functions|
  {
    Compile(s, Opened(c.functions[id].arity, pool)).1
  }

  /** Function `id` of the chunk is what the builder makes of `s`. */
  ghost predicate Built(c: Chunk, id: u32, s: Stmt, pool: seq<Value>) {
    && id < |c.functions|
    && var def := c.functions[id];
       var (code, f) := Compile(s, Opened(def.arity, pool));
       && Scoped(s, |Opened(def.arity, pool).vars|)
       && def.numRegisters == Saturated(f.next)
       && CodeAt(c, def.entry, code)
       && f.pool <= c.constants && |c.constants| <= 0x1_0000_0000
       && |c.code| < 0x8000_0000
  }

  /** The function takes at most 255 registers. */
  predicate Fits(c: Chunk, id: u32, s: Stmt, pool: seq<Value>)
    requires id < |c.functions|
  {
    Final(c, id, s, pool).next <= MAX_REGISTERS
  }

  /** Parameters hold the arguments, every other handle starts as `Unit`. */
  function EntryStore(args: seq<Value>, arity: nat, n: nat): Store {
    seq(n, x requires 0 <= x < n => if x < |args| && x < arity then args[x] else Unit)
  }

  lemma {:induction false} LoadArgsAt(regs: seq<Value>, args: seq<Value>, count: nat, i: nat)
    requires count <= |regs|
    ensures var r := LoadArgs(regs, args, count, i);
            && r.Ok?
            && (forall x :: 0 <= x < |regs| ==>
                  r.value[x] == if i <= x < |args| && x < count then args[x] else regs[x])
    decreases |args| - i
  {
    if i < |args| && i < count {
      LoadArgsAt(regs[i := args[i]], args, count, i + 1);
    }
  }

  lemma OpenedIsTidy(arity: u8, pool: seq<Value>)
    ensures Tidy(Opened(arity, pool)) && Opened(arity, pool).next <= MAX_REGISTERS
    ensures |Opened(arity, pool).vars| == Max(arity, 4)
  {
  }

  function HandleCount(s: Stmt, arity: u8): nat {
    Max(arity, 4) + Lets(s)
  }

  /** On entry the handles' registers hold the entry store. */
  lemma EntryCarries(c: Chunk, id: u32, s: Stmt, pool: seq<Value>, args: seq<Value>)
    requires Built(c, id, s, pool)
    ensures var def := c.functions[id];
            var f := Final(c, id, s, pool);
            && Sited(c, s, Opened(def.arity, pool), f, def.entry)
            && |f.vars| == HandleCount(s, def.arity)
            && Start(c, id, args).Ok?
            && var m := Start(c, id, args).value;
               && m == Active(Context([], id, None, 1), def.entry, m.frames[0].registers, 0)
               && |m.frames[0].registers| == Saturated(f.next)
               && Carries(m.frames[0].registers, f.vars, EntryStore(args, def.arity, |f.vars|))
  {
    hide Compile, LoadArgs, CodeAt;
    var def := c.functions[id];
    var l := Opened(def.arity, pool);
    var f := Compile(s, l).1;
    OpenedIsTidy(def.arity, pool);
    CompileGrows(s, l);
    CompileExtends(s, l);
    ExtendsItself(f);
    LoadArgsAt(FreshRegisters(def.numRegisters), args, def.arity, 0);
    var regs := LoadArgs(FreshRegisters(def.numRegisters), args, def.arity, 0).value;
    forall x | 0 <= x < |f.vars| && f.vars[x] < |regs|
      ensures regs[f.vars[x]] == EntryStore(args, def.arity, |f.vars|)[x]
    {
      if x < |l.vars| {
        assert f.vars[x] == l.vars[x] == x;
      } else {
        assert f.vars[x] >= Saturated(l.next) == l.next >= def.arity;
      }
    }
  }

  /** Where the machine starts and which part of the code is the function's body. */
  ghost predicate Entered(c: Chunk, id: u32, s: Stmt, pool: seq<Value>, args: seq<Value>, k: Context, m: Vm,
                          lo: nat, hi: nat)
  {
    && Built(c, id, s, pool)
    && Start(c, id, args) == Ok(m)
    && k == Context([], id, None, 1)
    && lo == c.functions[id].entry && hi == lo + |Compile(s, Opened(c.functions[id].arity, pool)).0|
  }

  /** The meaning of the function's body on its arguments. */
  function Meant(c: Chunk, h: Host, id: u32, s: Stmt, args: seq<Value>, fuel: nat): Meaning
    requires id < |c.functions| && Scoped(s, Max(c.functions[id].arity, 4))
  {
    var arity := c.functions[id].arity;
    Eval(h, s, Max(arity, 4), EntryStore(args, arity, HandleCount(s, arity)), fuel)
  }

  /** Its meaning within 255 registers. */
  function MeantWithin(c: Chunk, h: Host, id: u32, s: Stmt, pool: seq<Value>, args: seq<Value>, fuel: nat): Meaning
    requires id < |c.functions| && Scoped(s, Max(c.functions[id].arity, 4))
  {
    var arity := c.functions[id].arity;
    Confined(h, s, Opened(arity, pool), EntryStore(args, arity, HandleCount(s, arity)), fuel)
  }

  /** After `n` instructions of the body the machine has left it through its end. */
  ghost predicate Exits(c: Chunk, h: Host, k: Context, m: Vm, lo: nat, hi: nat, n: nat) {
    && Walk(c, h, k, m, n, lo, hi).Some?
    && var m' := Walk(c, h, k, m, n, lo, hi).value;
       |m'.frames| == |k.below| + 1 && m'.frames[|k.below|].pc == hi
  }

  /** It has, and the handles' registers hold `store`. */
  ghost predicate Reaches(c: Chunk, h: Host, k: Context, m: Vm, lo: nat, hi: nat, vars: seq<u8>, store: Store, n: nat) {
    && Exits(c, h, k, m, lo, hi, n)
    && Carries(Walk(c, h, k, m, n, lo, hi).value.frames[|k.below|].registers, vars, store)
  }

  /** After `n` instructions of the body the next one, still in the body, raises `fault`. */
  ghost predicate Raises(c: Chunk, h: Host, k: Context, m: Vm, lo: nat, hi: nat, fault: Fault, n: nat) {
    && Walk(c, h, k, m, n, lo, hi).Some?
    && !Exits(c, h, k, m, lo, hi, n)
    && Traps(c, h, Walk(c, h, k, m, n, lo, hi).value, fault)
  }

  /** After `n` instructions of the body the machine is still inside it. */
  ghost predicate Inside(c: Chunk, h: Host, k: Context, m: Vm, lo: nat, hi: nat, n: nat) {
    Walk(c, h, k, m, n, lo, hi).Some? && !Exits(c, h, k, m, lo, hi, n)
  }

  lemma EntrySimulates(c: Chunk, h: Host, id: u32, s: Stmt, pool: seq<Value>, args: seq<Value>,
                       k: Context, m: Vm, lo: nat, hi: nat, fuel: nat)
    returns (n: nat, pc: nat, regs': seq<Value>)
    requires Entered(c, id, s, pool, args, k, m, lo, hi)
    ensures Scoped(s, Max(c.functions[id].arity, 4))
    ensures m.frames != [] && m == Active(k, lo, m.frames[0].registers, 0)
    ensures Simulated(c, h, k, Final(c, id, s, pool), lo, hi, m.frames[0].registers, 0,
                      MeantWithin(c, h, id, s, pool, args, fuel), fuel, n, pc, regs')
  {
    hide Simulated, Confined, Walk, Step, Compile, Carries, Sited, Lets, Start;
    EntryCarries(c, id, s, pool, args);
    var def := c.functions[id];
    var l := Opened(def.arity, pool);
    var f := Compile(s, l).1;
    n, pc, regs' := Simulates(c, h, k, s, l, f, lo, m.frames[0].registers, 0,
                              EntryStore(args, def.arity, |f.vars|), fuel);
  }

  /** The machine does what the meaning says: it ends, faults, or runs on for at least `fuel` instructions. */
  ghost predicate Follows(c: Chunk, h: Host, k: Context, m: Vm, lo: nat, hi: nat, vars: seq<u8>,
                          meaning: Meaning, fuel: nat, n: nat)
  {
    match meaning
    case Done(store) => Reaches(c, h, k, m, lo, hi, vars, store, n)
    case Stuck(fault) => Raises(c, h, k, m, lo, hi, fault, n)
    case Busy => n >= fuel && Inside(c, h, k, m, lo, hi, n)
  }

  /**
   From the entry of a built function the machine does what the source means within 255
   registers, whatever that is and however many registers the function takes.
   */
  lemma LoweringPreservesMeaning(c: Chunk, h: Host, id: u32, s: Stmt, pool: seq<Value>, args: seq<Value>,
                                 k: Context, m: Vm, lo: nat, hi: nat, fuel: nat)
    returns (n: nat)
    requires Entered(c, id, s, pool, args, k, m, lo, hi)
    ensures Scoped(s, Max(c.functions[id].arity, 4))
    ensures Follows(c, h, k, m, lo, hi, Final(c, id, s, pool).vars,
                    MeantWithin(c, h, id, s, pool, args, fuel), fuel, n)
  {
    hide Confined, Walk, Step, Compile, Entered, Start, MeantWithin, Carries;
    var pc, regs';
    n, pc, regs' := EntrySimulates(c, h, id, s, pool, args, k, m, lo, hi, fuel);
  }

  /** A function of at most 255 registers means the same within them; any other means that or traps. */
  lemma WithinOrTrapped(c: Chunk, h: Host, id: u32, s: Stmt, pool: seq<Value>, args: seq<Value>, fuel: nat)
    requires Built(c, id, s, pool) && Scoped(s, Max(c.functions[id].arity, 4))
    ensures var within := MeantWithin(c, h, id, s, pool, args, fuel);
            && (Fits(c, id, s, pool) ==> within == Meant(c, h, id, s, args, fuel))
            && (within == Meant(c, h, id, s, args, fuel) || within == Stuck(NO_REGISTER))
  {
    hide Confined, Compile, Eval, Lets, Scoped;
    var arity := c.functions[id].arity;
    OpenedIsTidy(arity, pool);
    var store := EntryStore(args, arity, HandleCount(s, arity));
    ConfinedOrTrapped(h, s, Opened(arity, pool), store, fuel);
    if Fits(c, id, s, pool) {
      ConfinedIsMeaning(h, s, Opened(arity, pool), store, fuel);
    }
  }

  // ----- the machine and the meaning determine each other -----

  /** A walk that has left the code, or cannot take another step, has no continuation. */
  lemma WalkEnds(c: Chunk, h: Host, k: Context, m: Vm, n1: nat, n2: nat, lo: nat, hi: nat)
    requires Walk(c, h, k, m, n1, lo, hi).Some? && n1 < n2
    requires Exits(c, h, k, m, lo, hi, n1) || Step(c, h, Walk(c, h, k, m, n1, lo, hi).value).Stop?
    ensures Walk(c, h, k, m, n2, lo, hi).None?
  {
    hide Step;
    WalkThenWalk(c, h, k, m, n1, n2 - n1, lo, hi);
  }

  /** Nothing about the end of the body is left open once the machine has ended there or faulted. */
  lemma EndsOnce(c: Chunk, h: Host, k: Context, m: Vm, lo: nat, hi: nat, n1: nat, n2: nat)
    requires Walk(c, h, k, m, n1, lo, hi).Some? && Walk(c, h, k, m, n2, lo, hi).Some?
    requires Exits(c, h, k, m, lo, hi, n1) || Step(c, h, Walk(c, h, k, m, n1, lo, hi).value).Stop?
    ensures n2 <= n1
    ensures n2 < n1 ==> !Exits(c, h, k, m, lo, hi, n2) && Step(c, h, Walk(c, h, k, m, n2, lo, hi).value).Continue?
  {
    hide Walk, Step, Exits;
    if n1 < n2 {
      WalkEnds(c, h, k, m, n1, n2, lo, hi);
    }
    if n2 < n1 && (Exits(c, h, k, m, lo, hi, n2) || Step(c, h, Walk(c, h, k, m, n2, lo, hi).value).Stop?) {
      WalkEnds(c, h, k, m, n2, n1, lo, hi);
    }
  }

  lemma CarriesUnique(regs: seq<Value>, vars: seq<u8>, a: Store, b: Store)
    requires Carries(regs, vars, a) && Carries(regs, vars, b)
    requires forall x :: 0 <= x < |vars| ==> vars[x] < |regs|
    ensures a == b
  {
  }

  /** A machine that has ended after `n0` instructions ended because a meaning of more fuel says so. */
  lemma EndIsMeant(c: Chunk, h: Host, k: Context, m: Vm, lo: nat, hi: nat, vars: seq<u8>, meaning: Meaning, n0: nat,
                   n: nat)
    requires Exits(c, h, k, m, lo, hi, n0) && Follows(c, h, k, m, lo, hi, vars, meaning, n0 + 1, n)
    ensures meaning.Done? && n == n0
  {
    hide Walk, Step, Carries;
    EndsOnce(c, h, k, m, lo, hi, n0, n);
  }

  /** So did a machine that has faulted. */
  lemma FaultIsMeant(c: Chunk, h: Host, k: Context, m: Vm, lo: nat, hi: nat, vars: seq<u8>, meaning: Meaning,
                     fault: Fault, n0: nat, n: nat)
    requires Raises(c, h, k, m, lo, hi, fault, n0) && Follows(c, h, k, m, lo, hi, vars, meaning, n0 + 1, n)
    ensures meaning == Stuck(fault)
  {
    hide Walk, Step, Carries;
    EndsOnce(c, h, k, m, lo, hi, n0, n);
  }

  /** And one that never leaves follows no meaning but `Busy`. */
  lemma InsideIsBusy(c: Chunk, h: Host, k: Context, m: Vm, lo: nat, hi: nat, vars: seq<u8>, meaning: Meaning,
                     fuel: nat, n: nat)
    requires Follows(c, h, k, m, lo, hi, vars, meaning, fuel, n)
    requires Inside(c, h, k, m, lo, hi, n) && Inside(c, h, k, m, lo, hi, n + 1)
    ensures meaning.Busy?
  {
    hide Walk, Step, Exits, Carries;
    if meaning.Stuck? {
      WalkEnds(c, h, k, m, n, n + 1, lo, hi);
    }
  }

  lemma BusyIsInside(c: Chunk, h: Host, k: Context, m: Vm, lo: nat, hi: nat, n: nat, later: nat)
    requires n <= later && Inside(c, h, k, m, lo, hi, later)
    ensures Inside(c, h, k, m, lo, hi, n)
  {
    hide Walk, Step, Exits;
    WalkPrefix(c, h, k, m, n, later, lo, hi);
    if n < later && Exits(c, h, k, m, lo, hi, n) {
      WalkEnds(c, h, k, m, n, later, lo, hi);
    }
  }

  /** The machine gets to the end of the body exactly when the program, within 255 registers, ends. */
  lemma EndsIffSourceEnds(c: Chunk, h: Host, id: u32, s: Stmt, pool: seq<Value>, args: seq<Value>,
                          k: Context, m: Vm, lo: nat, hi: nat)
    requires Entered(c, id, s, pool, args, k, m, lo, hi)
    ensures Scoped(s, Max(c.functions[id].arity, 4))
    ensures (exists n :: Exits(c, h, k, m, lo, hi, n))
            <==> (exists fuel :: MeantWithin(c, h, id, s, pool, args, fuel).Done?)
  {
    hide Walk, Step, Compile, Start, MeantWithin, Carries, Exits, Confined;
    var vars := Final(c, id, s, pool).vars;
    var _ := LoweringPreservesMeaning(c, h, id, s, pool, args, k, m, lo, hi, 0);
    if fuel :| MeantWithin(c, h, id, s, pool, args, fuel).Done? {
      var n := LoweringPreservesMeaning(c, h, id, s, pool, args, k, m, lo, hi, fuel);
      assert Exits(c, h, k, m, lo, hi, n);
    }
    if n0: nat :| Exits(c, h, k, m, lo, hi, n0) {
      var n := LoweringPreservesMeaning(c, h, id, s, pool, args, k, m, lo, hi, n0 + 1);
      EndIsMeant(c, h, k, m, lo, hi, vars, MeantWithin(c, h, id, s, pool, args, n0 + 1), n0, n);
    }
  }

  /** A function of at most 255 registers ends with given variables exactly when its source does. */
  lemma ReachesIffMeant(c: Chunk, h: Host, id: u32, s: Stmt, pool: seq<Value>, args: seq<Value>,
                        k: Context, m: Vm, lo: nat, hi: nat, store: Store)
    requires Entered(c, id, s, pool, args, k, m, lo, hi) && Fits(c, id, s, pool)
    ensures Scoped(s, Max(c.functions[id].arity, 4))
    ensures (exists n: nat :: Reaches(c, h, k, m, lo, hi, Final(c, id, s, pool).vars, store, n))
            <==> (exists fuel: nat :: Meant(c, h, id, s, args, fuel) == Done(store))
  {
    hide Walk, Step, Compile, Start, Meant, MeantWithin, Carries, Exits, Reaches, Eval, Confined;
    EnteredFunction(c, id, s, pool, args, k, m, lo, hi);
    if fuel: nat :| Meant(c, h, id, s, args, fuel) == Done(store) {
      WithinOrTrapped(c, h, id, s, pool, args, fuel);
      var n := LoweringPreservesMeaning(c, h, id, s, pool, args, k, m, lo, hi, fuel);
      assert Reaches(c, h, k, m, lo, hi, Final(c, id, s, pool).vars, store, n);
    }
    if n0: nat :| Reaches(c, h, k, m, lo, hi, Final(c, id, s, pool).vars, store, n0) {
      ReachedIsMeant(c, h, id, s, pool, args, k, m, lo, hi, store, n0);
    }
  }

  lemma ReachedIsMeant(c: Chunk, h: Host, id: u32, s: Stmt, pool: seq<Value>, args: seq<Value>,
                       k: Context, m: Vm, lo: nat, hi: nat, store: Store, n0: nat)
    requires Entered(c, id, s, pool, args, k, m, lo, hi) && Fits(c, id, s, pool)
    requires Scoped(s, Max(c.functions[id].arity, 4))
    requires Reaches(c, h, k, m, lo, hi, Final(c, id, s, pool).vars, store, n0)
    ensures Meant(c, h, id, s, args, n0 + 1) == Done(store)
  {
    hide Walk, Step, Compile, Start, Meant, MeantWithin, Carries, Eval, Confined, Tidy, Extends;
    WithinOrTrapped(c, h, id, s, pool, args, n0 + 1);
    EntryCarries(c, id, s, pool, args);
    var f := Final(c, id, s, pool);
    var n, pc, regs' := EntrySimulates(c, h, id, s, pool, args, k, m, lo, hi, n0 + 1);
    var meaning := MeantWithin(c, h, id, s, pool, args, n0 + 1);
    EndIsMeant(c, h, k, m, lo, hi, f.vars, meaning, n0, n);
    SitedVars(c, s, Opened(c.functions[id].arity, pool), f, lo);
    AllPlaced(f, regs');
    CarriesUnique(regs', f.vars, store, meaning.store);
  }

  lemma AllPlaced(f: Layout, regs: seq<Value>)
    requires Tidy(f) && |regs| == f.next
    ensures forall x :: 0 <= x < |f.vars| ==> f.vars[x] < |regs|
  {
  }

  /** It raises a fault exactly when the program does, and the same fault. */
  lemma FaultsIffSourceFaults(c: Chunk, h: Host, id: u32, s: Stmt, pool: seq<Value>, args: seq<Value>,
                              k: Context, m: Vm, lo: nat, hi: nat, fault: Fault)
    requires Entered(c, id, s, pool, args, k, m, lo, hi)
    ensures Scoped(s, Max(c.functions[id].arity, 4))
    ensures (exists n :: Raises(c, h, k, m, lo, hi, fault, n))
            <==> (exists fuel :: MeantWithin(c, h, id, s, pool, args, fuel) == Stuck(fault))
  {
    hide Walk, Step, Compile, Start, MeantWithin, Carries, Exits, Raises, Confined;
    var vars := Final(c, id, s, pool).vars;
    var _ := LoweringPreservesMeaning(c, h, id, s, pool, args, k, m, lo, hi, 0);
    if fuel :| MeantWithin(c, h, id, s, pool, args, fuel) == Stuck(fault) {
      var n := LoweringPreservesMeaning(c, h, id, s, pool, args, k, m, lo, hi, fuel);
      assert Raises(c, h, k, m, lo, hi, fault, n);
    }
    if n0: nat :| Raises(c, h, k, m, lo, hi, fault, n0) {
      var n := LoweringPreservesMeaning(c, h, id, s, pool, args, k, m, lo, hi, n0 + 1);
      FaultIsMeant(c, h, k, m, lo, hi, vars, MeantWithin(c, h, id, s, pool, args, n0 + 1), fault, n0, n);
    }
  }

  /** It never leaves the body exactly when the program is busy for ever. */
  lemma DivergesIffSourceDiverges(c: Chunk, h: Host, id: u32, s: Stmt, pool: seq<Value>, args: seq<Value>,
                                  k: Context, m: Vm, lo: nat, hi: nat)
    requires Entered(c, id, s, pool, args, k, m, lo, hi)
    ensures Scoped(s, Max(c.functions[id].arity, 4))
    ensures (forall n :: Inside(c, h, k, m, lo, hi, n))
            <==> (forall fuel :: MeantWithin(c, h, id, s, pool, args, fuel).Busy?)
  {
    hide Walk, Step, Compile, Start, MeantWithin, Carries, Inside, Confined;
    var vars := Final(c, id, s, pool).vars;
    var _ := LoweringPreservesMeaning(c, h, id, s, pool, args, k, m, lo, hi, 0);
    if forall n :: Inside(c, h, k, m, lo, hi, n) {
      forall fuel ensures MeantWithin(c, h, id, s, pool, args, fuel).Busy? {
        var n := LoweringPreservesMeaning(c, h, id, s, pool, args, k, m, lo, hi, fuel);
        assert Inside(c, h, k, m, lo, hi, n) && Inside(c, h, k, m, lo, hi, n + 1);
        InsideIsBusy(c, h, k, m, lo, hi, vars, MeantWithin(c, h, id, s, pool, args, fuel), fuel, n);
      }
    }
    if forall fuel :: MeantWithin(c, h, id, s, pool, args, fuel).Busy? {
      forall n ensures Inside(c, h, k, m, lo, hi, n) {
        var later := LoweringPreservesMeaning(c, h, id, s, pool, args, k, m, lo, hi, n);
        assert MeantWithin(c, h, id, s, pool, args, n).Busy?;
        BusyIsInside(c, h, k, m, lo, hi, n, later);
      }
    }
  }

  /** Straight-line functions: exactly those of at most 255 registers get to their end. */
  lemma StraightLineEndsIffItFits(c: Chunk, h: Host, id: u32, s: Stmt, pool: seq<Value>, args: seq<Value>,
                                  k: Context, m: Vm, lo: nat, hi: nat, fuel: nat)
    requires Entered(c, id, s, pool, args, k, m, lo, hi) && LoopFree(s)
    requires Scoped(s, Max(c.functions[id].arity, 4)) && Meant(c, h, id, s, args, fuel).Done?
    ensures (exists n :: Exits(c, h, k, m, lo, hi, n)) <==> Fits(c, id, s, pool)
    ensures !Fits(c, id, s, pool) ==> exists n :: Raises(c, h, k, m, lo, hi, RegisterOutOfRange(255, 255), n)
  {
    hide Walk, Step, Compile, Start, Carries, Eval, Confined, Lets;
    WithinOrTrapped(c, h, id, s, pool, args, fuel);
    var n := LoweringPreservesMeaning(c, h, id, s, pool, args, k, m, lo, hi, fuel);
    if !Fits(c, id, s, pool) {
      var arity := c.functions[id].arity;
      OpenedIsTidy(arity, pool);
      OverflowTraps(h, s, Opened(arity, pool), EntryStore(args, arity, HandleCount(s, arity)), fuel);
      assert Raises(c, h, k, m, lo, hi, NO_REGISTER, n);
      if n0: nat :| Exits(c, h, k, m, lo, hi, n0) {
        EndsOnce(c, h, k, m, lo, hi, n0, n);
      }
    }
  }

  // ----- running the function -----

  /** After the body the function returns handle `x`. */
  ghost predicate Returning(c: Chunk, id: u32, s: Stmt, pool: seq<Value>, x: Var)
    requires id < |c.functions|
  {
    var (code, f) := Compile(s, Opened(c.functions[id].arity, pool));
    var at := c.functions[id].entry + |code|;
    at < |c.code| && x < |f.vars| && c.code[at] == ReturnOf(f.vars[x])
  }

  function ReturnOf(r: u8): Instruction {
    Instruction(Return, r, 0, 0, 0)
  }

  lemma {:induction false} WalkIsRun(c: Chunk, h: Host, k: Context, m: Vm, n: nat, lo: nat, hi: nat, more: nat)
    requires Walk(c, h, k, m, n, lo, hi).Some?
    ensures Run(c, h, m, n + more) == Run(c, h, Walk(c, h, k, m, n, lo, hi).value, more)
    decreases n
  {
    hide Step;
    if n > 0 {
      WalkIsRun(c, h, k, Step(c, h, m).m, n - 1, lo, hi, more);
    }
  }

  lemma WalkYields(c: Chunk, h: Host, k: Context, m: Vm, budget: nat, n: nat, lo: nat, hi: nat)
    requires budget <= n && Walk(c, h, k, m, n, lo, hi).Some?
    ensures Run(c, h, m, budget).1 == Yielded
  {
    hide Step, Walk;
    WalkPrefix(c, h, k, m, budget, n, lo, hi);
    WalkIsRun(c, h, k, m, budget, lo, hi, 0);
  }

  /** What every budget gives when the machine walks `n` instructions and stops with `r` at the next. */
  lemma WalkThenStop(c: Chunk, h: Host, k: Context, m: Vm, n: nat, lo: nat, hi: nat, r: VmResult, budget: nat)
    requires Walk(c, h, k, m, n, lo, hi).Some?
    requires var o := Step(c, h, Walk(c, h, k, m, n, lo, hi).value); o.Stop? && o.result == r
    ensures Run(c, h, m, budget).1 == if budget <= n then Yielded else r
  {
    hide Step, Walk;
    if budget <= n {
      WalkYields(c, h, k, m, budget, n, lo, hi);
    } else {
      WalkIsRun(c, h, k, m, n, lo, hi, budget - n);
    }
  }

  lemma ReturnStep(c: Chunk, h: Host, k: Context, pc: nat, regs: seq<Value>, executed: nat, r: u8)
    requires pc < |c.code| && c.code[pc] == ReturnOf(r) && r < |regs| && k.dest.None?
    ensures var o := Step(c, h, Active(k, pc, regs, executed)); o.Stop? && o.result == Complete(regs[r])
  {
    StepFetches(c, h, k, pc, regs, executed);
    ActiveRegisters(k, pc + 1, regs, executed + 1, r);
    hide Step, GetReg;
  }

  /** What the function delivers, for one meaning of its body. */
  function Delivered(meaning: Meaning, x: Var): Option<VmResult> {
    match meaning
    case Done(store) => if x < |store| then Some(Complete(store[x])) else None
    case Stuck(fault) => Some(Trapped(fault))
    case Busy => None
  }

  lemma EnteredFunction(c: Chunk, id: u32, s: Stmt, pool: seq<Value>, args: seq<Value>, k: Context, m: Vm,
                        lo: nat, hi: nat)
    requires Entered(c, id, s, pool, args, k, m, lo, hi)
    ensures id < |c.functions| && Scoped(s, Max(c.functions[id].arity, 4))
  {
    hide Compile, Start, CodeAt, Scoped;
  }

  /** One budget after another: still running for the first `n`, then the meaning's result. */
  lemma RunDelivers(c: Chunk, h: Host, id: u32, s: Stmt, pool: seq<Value>, args: seq<Value>, x: Var,
                    k: Context, m: Vm, lo: nat, hi: nat, fuel: nat)
    returns (n: nat)
    requires Entered(c, id, s, pool, args, k, m, lo, hi) && Fits(c, id, s, pool) && Returning(c, id, s, pool, x)
    ensures Scoped(s, Max(c.functions[id].arity, 4))
    ensures forall budget :: 0 <= budget <= n ==> Run(c, h, m, budget).1 == Yielded
    ensures var r := Delivered(Meant(c, h, id, s, args, fuel), x);
            if r.Some? then forall budget :: budget > n ==> Run(c, h, m, budget).1 == r.value
            else n >= fuel
  {
    hide Eval, Confined, Walk, Step, Compile, Start, Carries, Run, Lets;
    var pc, regs';
    n, pc, regs' := EntrySimulates(c, h, id, s, pool, args, k, m, lo, hi, fuel);
    WithinOrTrapped(c, h, id, s, pool, args, fuel);
    forall budget: nat | budget <= n ensures Run(c, h, m, budget).1 == Yielded {
      WalkYields(c, h, k, m, budget, n, lo, hi);
    }
    var meaning := Meant(c, h, id, s, args, fuel);
    var r := Delivered(meaning, x);
    if meaning.Done? {
      var f := Final(c, id, s, pool);
      EntryCarries(c, id, s, pool, args);
      SitedVars(c, s, Opened(c.functions[id].arity, pool), f, lo);
      Delivers(regs', f, meaning.store, x);
      ReturnStep(c, h, k, pc, regs', n, f.vars[x]);
    }
    if r.Some? {
      forall budget: nat | budget > n ensures Run(c, h, m, budget).1 == r.value {
        WalkThenStop(c, h, k, m, n, lo, hi, r.value, budget);
      }
    }
  }

  lemma Delivers(regs: seq<Value>, f: Layout, store: Store, x: Var)
    requires Tidy(f) && |regs| == f.next && Carries(regs, f.vars, store) && x < |f.vars|
    ensures x < |store| && f.vars[x] < |regs| && regs[f.vars[x]] == store[x]
  {
  }

  /** The quantum that stops the function, if `fuel` settles its meaning. */
  lemma SettledRunStops(c: Chunk, h: Host, id: u32, s: Stmt, pool: seq<Value>, args: seq<Value>, x: Var,
                        k: Context, m: Vm, lo: nat, hi: nat, fuel: nat, r: VmResult)
    returns (budget: nat)
    requires Entered(c, id, s, pool, args, k, m, lo, hi) && Fits(c, id, s, pool) && Returning(c, id, s, pool, x)
    requires Scoped(s, Max(c.functions[id].arity, 4)) && Delivered(Meant(c, h, id, s, args, fuel), x) == Some(r)
    ensures Run(c, h, m, budget).1 == r && !r.Yielded?
  {
    EnteredFunction(c, id, s, pool, args, k, m, lo, hi);
    hide Entered, Fits, Returning, Meant, Run, Scoped;
    var n := RunDelivers(c, h, id, s, pool, args, x, k, m, lo, hi, fuel);
    budget := n + 1;
  }

  /** A quantum that stops the function settles its meaning. */
  lemma StoppedRunIsMeant(c: Chunk, h: Host, id: u32, s: Stmt, pool: seq<Value>, args: seq<Value>, x: Var,
                          k: Context, m: Vm, lo: nat, hi: nat, budget: nat)
    requires Entered(c, id, s, pool, args, k, m, lo, hi) && Fits(c, id, s, pool) && Returning(c, id, s, pool, x)
    requires Scoped(s, Max(c.functions[id].arity, 4)) && !Run(c, h, m, budget).1.Yielded?
    ensures Delivered(Meant(c, h, id, s, args, budget), x) == Some(Run(c, h, m, budget).1)
  {
    EnteredFunction(c, id, s, pool, args, k, m, lo, hi);
    hide Entered, Fits, Returning, Meant, Run, Scoped;
    var _ := RunDelivers(c, h, id, s, pool, args, x, k, m, lo, hi, budget);
  }

  /**
   A function of at most 255 registers that returns a handle computes what its source means:
   it completes with a value or traps on a fault exactly when the source delivers that value or
   that fault.
   */
  lemma FunctionsComputeTheirMeaning(c: Chunk, h: Host, id: u32, s: Stmt, pool: seq<Value>, args: seq<Value>, x: Var,
                                     k: Context, m: Vm, lo: nat, hi: nat, r: VmResult)
    requires Entered(c, id, s, pool, args, k, m, lo, hi) && Fits(c, id, s, pool) && Returning(c, id, s, pool, x)
    ensures Scoped(s, Max(c.functions[id].arity, 4))
    ensures (exists budget: nat :: Run(c, h, m, budget).1 == r && !r.Yielded?)
            <==> (exists fuel: nat :: Delivered(Meant(c, h, id, s, args, fuel), x) == Some(r))
  {
    EnteredFunction(c, id, s, pool, args, k, m, lo, hi);
    hide Entered, Fits, Returning, Meant, Run, Scoped, Delivered;
    var _ := RunDelivers(c, h, id, s, pool, args, x, k, m, lo, hi, 0);
    if budget: nat :| Run(c, h, m, budget).1 == r && !r.Yielded? {
      StoppedRunIsMeant(c, h, id, s, pool, args, x, k, m, lo, hi, budget);
    }
    if fuel: nat :| Delivered(Meant(c, h, id, s, args, fuel), x) == Some(r) {
      var budget := SettledRunStops(c, h, id, s, pool, args, x, k, m, lo, hi, fuel, r);
    }
  }

  /**
   A function whose body counts its first argument up to its second completes with the larger
   of the two: every budget of at most `n` instructions yields, every larger one completes.
   */
  lemma CountingCompletes(c: Chunk, h: Host, id: u32, pool: seq<Value>, args: seq<Value>,
                          k: Context, m: Vm, lo: nat, hi: nat, i: i64, j: i64)
    returns (n: nat)
    requires Entered(c, id, WhileLt(0, 1, AddImm(0, 1)), pool, args, k, m, lo, hi)
    requires Fits(c, id, WhileLt(0, 1, AddImm(0, 1)), pool)
    requires Returning(c, id, WhileLt(0, 1, AddImm(0, 1)), pool, 0)
    requires c.functions[id].arity == 2 && args == [Int(i), Int(j)]
    ensures forall budget: nat ::
              Run(c, h, m, budget).1 == if budget <= n then Yielded else Complete(Int(Max(i, j)))
  {
    var s := WhileLt(0, 1, AddImm(0, 1));
    var fuel := Max(1, j - i + 1);
    var store := EntryStore(args, 2, HandleCount(s, 2));
    LoopCountsUp(h, 0, 1, 4, store, fuel);
    hide Entered, Fits, Returning, Run, Scoped, Eval;
    EnteredFunction(c, id, s, pool, args, k, m, lo, hi);
    n := RunDelivers(c, h, id, s, pool, args, 0, k, m, lo, hi, fuel);
  }

  /** A function that subtracts its second argument from its first completes with the difference modulo 2^64. */
  lemma DifferenceCompletes(c: Chunk, h: Host, id: u32, pool: seq<Value>, args: seq<Value>, k: Context, m: Vm,
                            lo: nat, hi: nat, i: i64, j: i64)
    returns (n: nat)
    requires Entered(c, id, LetBinop(4, Sub, 0, 1), pool, args, k, m, lo, hi)
    requires Fits(c, id, LetBinop(4, Sub, 0, 1), pool)
    requires Returning(c, id, LetBinop(4, Sub, 0, 1), pool, 4)
    requires c.functions[id].arity == 2 && args == [Int(i), Int(j)]
    ensures forall budget: nat ::
              Run(c, h, m, budget).1 == if budget <= n then Yielded else Complete(Int(Word(i - j)))
  {
    var s := LetBinop(4, Sub, 0, 1);
    hide Entered, Fits, Returning, Run, Scoped;
    EnteredFunction(c, id, s, pool, args, k, m, lo, hi);
    n := RunDelivers(c, h, id, s, pool, args, 4, k, m, lo, hi, 0);
  }

  /** It never stops exactly when the source delivers nothing, however long it is given. */
  lemma FunctionsRunForeverTogether(c: Chunk, h: Host, id: u32, s: Stmt, pool: seq<Value>, args: seq<Value>, x: Var,
                                    k: Context, m: Vm, lo: nat, hi: nat)
    requires Entered(c, id, s, pool, args, k, m, lo, hi) && Fits(c, id, s, pool) && Returning(c, id, s, pool, x)
    ensures Scoped(s, Max(c.functions[id].arity, 4))
    ensures (forall budget: nat :: Run(c, h, m, budget).1.Yielded?)
            <==> (forall fuel: nat :: Delivered(Meant(c, h, id, s, args, fuel), x).None?)
  {
    EnteredFunction(c, id, s, pool, args, k, m, lo, hi);
    hide Entered, Fits, Returning, Meant, Run, Scoped, Delivered;
    var _ := RunDelivers(c, h, id, s, pool, args, x, k, m, lo, hi, 0);
    if budget: nat :| !Run(c, h, m, budget).1.Yielded? {
      StoppedRunIsMeant(c, h, id, s, pool, args, x, k, m, lo, hi, budget);
    }
    if fuel: nat :| Delivered(Meant(c, h, id, s, args, fuel), x).Some? {
      var r := Delivered(Meant(c, h, id, s, args, fuel), x).value;
      var budget := SettledRunStops(c, h, id, s, pool, args, x, k, m, lo, hi, fuel, r);
    }
  }

  /**
   The bound on registers handle by handle: the code that initialises a new handle works
   precisely when fewer than 255 registers were taken before it. The function then declares
   255 registers and the saturated handle names register 255.
   */
  lemma HandleWorksIffRegisterLeft(c: Chunk, h: Host, k: Context, l: Layout, pc: nat, regs: seq<Value>,
                                   executed: nat, imm: i32, taken: nat)
    requires l.next < taken && |regs| == Saturated(taken)
    requires CodeAt(c, pc, Compile(LetImm(|l.vars|, imm), l).0)
    ensures Step(c, h, Active(k, pc, regs, executed)).Continue? <==> l.next < MAX_REGISTERS
    ensures l.next >= MAX_REGISTERS ==> Traps(c, h, Active(k, pc, regs, executed), RegisterOutOfRange(255, 255))
  {
    hide Step, Active, Compile, CodeAt;
    HandleCode(c, l, pc, imm);
    SimpleStep(c, h, k, pc, regs, executed);
  }

  lemma HandleCode(c: Chunk, l: Layout, pc: nat, imm: i32)
    requires CodeAt(c, pc, Compile(LetImm(|l.vars|, imm), l).0)
    ensures pc < |c.code| && c.code[pc] == LoadImmTo(Saturated(l.next), imm)
  {
    hide CodeAt, Compile;
    LetImmCode(l, imm);
    CodeAtFirst(c, pc, Compile(LetImm(|l.vars|, imm), l).0);
  }

  lemma LetImmCode(l: Layout, imm: i32)
    ensures Compile(LetImm(|l.vars|, imm), l).0 == [LoadImmTo(Saturated(l.next), imm)]
  {
  }

  lemma CodeAtFirst(c: Chunk, at: nat, code: seq<Instruction>)
    requires CodeAt(c, at, code) && code != []
    ensures at < |c.code| && c.code[at] == code[0]
  {
    assert c.code[at..at + |code|][0] == c.code[at];
  }
}
