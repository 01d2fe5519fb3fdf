/**
 The runtime's capability table (crates/byteflow/src/scheduler/capability.rs): tokens,
 holders, revocation counters and the cache of reply addresses.
 */
module Capabilities {
  import opened Wrappers
  import opened Values
  import opened Authority

  type CapId = u128

  /** `holder` may use the token; the token is the key, not a field. */
  datatype Entry = Entry(holder: FlowId, cap: Cap)

  datatype CapError = Unknown | NotHolder | InsufficientRights | WrongTarget

  datatype CapState = CapState(
    entries: map<CapId, Entry>,
    cells: map<FlowId, nat>,
    replies: map<(FlowId, FlowId), CapId>,
    nativeEpoch: nat,
    schedulerEpoch: nat)

  const EMPTY: CapState := CapState(map[], map[], map[], 0, 0)

  // ----- the operations as functions -----

  /** A token the generator may hand out: not 0 and not in use. */
  predicate Fresh(s: CapState, id: CapId) {
    id != 0 && id !in s.entries
  }

  function Bind(s: CapState, flow: FlowId): CapState {
    if flow in s.cells then s else s.(cells := s.cells[flow := 0])
  }

  /** Epoch of the issuer of `t`, if it still issues. */
  function IssuerEpoch(s: CapState, t: Target): Option<nat> {
    match t
    case ToFlow(f) => if f in s.cells then Some(s.cells[f]) else None
    case ToNativeTable => Some(s.nativeEpoch)
    case ToScheduler => Some(s.schedulerEpoch)
  }

  predicate Live(s: CapState, c: Cap) {
    IssuerEpoch(s, c.target) == Some(c.epoch)
  }

  function Insert(s: CapState, id: CapId, holder: FlowId, cap: Cap): CapState {
    s.(entries := s.entries[id := Entry(holder, cap)])
  }

  /** The root grant for a flow target, whose counter exists by then. */
  function FlowCap(s: CapState, target: FlowId, rights: Rights): Cap
    requires target in s.cells
  {
    Cap.Cap(ToFlow(target), rights, None, s.cells[target])
  }

  function Mint(s: CapState, id: CapId, holder: FlowId, target: FlowId, rights: Rights): CapState {
    var b := Bind(s, target);
    Insert(b, id, holder, FlowCap(b, target, rights))
  }

  /** The cached reply token is usable: still in the table, for this pair, with the rights, unrevoked. */
  predicate ReplyIsLive(s: CapState, id: CapId, holder: FlowId, target: FlowId, rights: Rights) {
    && id in s.entries
    && s.entries[id].holder == holder
    && s.entries[id].cap.target == ToFlow(target)
    && Has(s.entries[id].cap.rights, rights)
    && target in s.cells && s.entries[id].cap.epoch == s.cells[target]
  }

  function MintOrReuse(s: CapState, id: CapId, holder: FlowId, target: FlowId, rights: Rights): (CapState, CapId) {
    var pair := (holder, target);
    if pair in s.replies && ReplyIsLive(s, s.replies[pair], holder, target, rights) then (s, s.replies[pair])
    else
      var minted := Mint(s, id, holder, target, rights);
      (minted.(replies := minted.replies[pair := id]), id)
  }

  function Resolve(s: CapState, id: CapId, holder: FlowId, required: Rights): Result<Entry, CapError> {
    if id == 0 || id !in s.entries then Err(Unknown)
    else
      var e := s.entries[id];
      if e.holder != holder then Err(NotHolder)
      else if !Has(e.cap.rights, required) then Err(InsufficientRights)
      else if !Live(s, e.cap) then Err(Unknown)
      else Ok(e)
  }

  /**
   A token resolves exactly for its holder, with every right required, while its issuer still stands
   at the epoch it was issued under; the error names the first of these that fails.
   */
  lemma ResolveMeans(s: CapState, id: CapId, holder: FlowId, required: Rights)
    ensures var known := id != 0 && id in s.entries;
            var mine := known && s.entries[id].holder == holder;
            var allowed := mine && Within(required, s.entries[id].cap.rights);
            match Resolve(s, id, holder, required)
            case Ok(e) => allowed && e == s.entries[id] && Stands(s, e.cap)
            case Err(NotHolder) => known && !mine
            case Err(InsufficientRights) => mine && !allowed
            case Err(Unknown) => !known || (allowed && !Stands(s, s.entries[id].cap))
            case Err(WrongTarget) => false
  {
    hide Has, Within;
    if id in s.entries {
      HasIsWithin(s.entries[id].cap.rights, required);
    }
  }

  /** The counter of the flow it addresses, of the native table or of the scheduler, reads its epoch. */
  ghost predicate Stands(s: CapState, c: Cap) {
    match c.target
    case ToFlow(f) => f in s.cells && s.cells[f] == c.epoch
    case ToNativeTable => s.nativeEpoch == c.epoch
    case ToScheduler => s.schedulerEpoch == c.epoch
  }

  /** What `attenuate` would insert. */
  function Derived(s: CapState, src: CapId, fromHolder: FlowId, want: Rights,
                   wantMask: Option<NativeMask>): Result<Cap, CapError>
  {
    var e :- Resolve(s, src, fromHolder, NONE);
    if !e.cap.target.ToFlow? then Err(WrongTarget)
    else
      match ExecDelegate(e.cap, s.cells[e.cap.target.flow], want, wantMask)
      case Err(SourceRevoked) => Err(Unknown)
      case Err(SourceLacksNative) => Err(InsufficientRights)
      case Ok(cap) => Ok(cap)
  }

  function Derive(s: CapState, src: CapId, fromHolder: FlowId, toHolder: FlowId, want: Rights,
                  wantMask: Option<NativeMask>, id: CapId)
    : (CapState, Result<CapId, CapError>)
  {
    match Derived(s, src, fromHolder, want, wantMask)
    case Err(e) => (s, Err(e))
    case Ok(cap) => (Insert(s, id, toHolder, cap), Ok(id))
  }

  function Delegate(s: CapState, src: CapId, fromHolder: FlowId, toHolder: FlowId, id: CapId)
    : (CapState, Result<CapId, CapError>)
  {
    match Resolve(s, src, fromHolder, NONE)
    case Err(e) => (s, Err(e))
    case Ok(e) => Derive(s, src, fromHolder, toHolder, e.cap.rights, e.cap.mask, id)
  }

  /** Host spawn and host send: no holder check. */
  function Reissue(s: CapState, src: CapId, newHolder: FlowId, id: CapId): (CapState, Result<CapId, CapError>) {
    if src == 0 || src !in s.entries then (s, Err(Unknown))
    else
      var c := s.entries[src].cap;
      (Insert(s, id, newHolder, Attenuate(c, c.rights, c.mask)), Ok(id))
  }

  predicate Concerns(e: Entry, flow: FlowId) {
    e.holder == flow || e.cap.target == ToFlow(flow)
  }

  function Without(cells: map<FlowId, nat>, flow: FlowId): map<FlowId, nat> {
    cells - {flow}
  }

  function Kept(entries: map<CapId, Entry>, flow: FlowId): map<CapId, Entry> {
    map id | id in entries && !Concerns(entries[id], flow) :: entries[id]
  }

  function KeptReplies(replies: map<(FlowId, FlowId), CapId>, flow: FlowId): map<(FlowId, FlowId), CapId> {
    map pair | pair in replies && pair.0 != flow && pair.1 != flow :: replies[pair]
  }

  function RevokeFlow(s: CapState, flow: FlowId): CapState {
    s.(cells := Without(s.cells, flow), entries := Kept(s.entries, flow), replies := KeptReplies(s.replies, flow))
  }

  /**
   An entry whose capability was made before `flow` exited and is inserted only afterwards, as can
   happen between the lock sections of a mint, a derivation or a reissue, is live if and only
   if it does not target that flow; a dead one resolves to nothing.
   */
  lemma LateEntryIsDeadIffTargetExited(s: CapState, flow: FlowId, id: CapId, holder: FlowId, cap: Cap)
    requires Live(s, cap) && id != 0
    ensures var t := Insert(RevokeFlow(s, flow), id, holder, cap);
            && (Live(t, cap) <==> cap.target != ToFlow(flow))
            && (cap.target == ToFlow(flow) ==> forall required :: Resolve(t, id, holder, required).Err?)
  {
  }

  // ----- what holds in every reachable table -----

  /** Where the rights of an entry stop. */
  ghost predicate EntryOk(s: CapState, e: Entry) {
    && Live(s, e.cap) && e.cap.mask.None?
    && match e.cap.target
       case ToFlow(_) => Within(e.cap.rights, ADDRESSING)
       case ToScheduler => Within(e.cap.rights, ADMIN)
       case ToNativeTable => false
  }

  ghost predicate Sane(s: CapState) {
    && 0 !in s.entries
    && (forall id :: id in s.entries ==> EntryOk(s, s.entries[id]))
    && (forall pair :: pair in s.replies ==> ReplyIsLive(s, s.replies[pair], pair.0, pair.1, SEND))
  }

  datatype Op =
    | DoBind(flow: FlowId)
    | DoMint(id: CapId, holder: FlowId, target: FlowId)
    | DoReply(id: CapId, holder: FlowId, target: FlowId)
    | DoDerive(src: CapId, fromHolder: FlowId, toHolder: FlowId, want: Rights, wantMask: Option<NativeMask>, id: CapId)
    | DoDelegate(src: CapId, fromHolder: FlowId, toHolder: FlowId, id: CapId)
    | DoReissue(src: CapId, newHolder: FlowId, id: CapId)
    | DoGrantAdmin(id: CapId, holder: FlowId)
    | DoRevoke(flow: FlowId)

  predicate Enabled(s: CapState, op: Op) {
    op.DoBind? || op.DoRevoke? || Fresh(s, op.id)
  }

  /** The calls the runtime makes: addressing grants, reply addresses, derivations, the host's admin grant, exits. */
  function Apply(s: CapState, op: Op): CapState {
    match op
    case DoBind(f) => Bind(s, f)
    case DoMint(id, h, t) => Mint(s, id, h, t, ADDRESSING)
    case DoReply(id, h, t) => MintOrReuse(s, id, h, t, SEND).0
    case DoDerive(src, from, to, want, mask, id) => Derive(s, src, from, to, want, mask, id).0
    case DoDelegate(src, from, to, id) => Delegate(s, src, from, to, id).0
    case DoReissue(src, to, id) => Reissue(s, src, to, id).0
    case DoGrantAdmin(id, h) => Insert(s, id, h, Cap.Cap(ToScheduler, ADMIN, None, s.schedulerEpoch))
    case DoRevoke(f) => RevokeFlow(s, f)
  }

  function Run(s: CapState, ops: seq<Op>): CapState
    decreases |ops|
  {
    if ops == [] then s else Run(Apply(s, ops[0]), ops[1..])
  }

  ghost predicate RunEnabled(s: CapState, ops: seq<Op>)
    decreases |ops|
  {
    ops == [] || (Enabled(s, ops[0]) && RunEnabled(Apply(s, ops[0]), ops[1..]))
  }

  lemma RightsBasics()
    ensures Within(ADDRESSING, ADDRESSING) && Within(SEND, ADDRESSING) && Within(ADMIN, ADMIN)
    ensures Has(SEND, SEND)
  {
  }

  lemma BindSane(s: CapState, flow: FlowId)
    requires Sane(s)
    ensures Sane(Bind(s, flow)) && flow in Bind(s, flow).cells
    ensures Bind(s, flow).entries == s.entries && Bind(s, flow).replies == s.replies
  {
    hide Within, Has;
    var b := Bind(s, flow);
    forall id | id in s.entries ensures EntryOk(b, s.entries[id]) {
      assert EntryOk(s, s.entries[id]);
    }
  }

  lemma InsertSane(s: CapState, id: CapId, holder: FlowId, cap: Cap)
    requires Sane(s) && Fresh(s, id) && EntryOk(s, Entry(holder, cap))
    ensures Sane(Insert(s, id, holder, cap))
  {
    hide Within, Has;
    var t := Insert(s, id, holder, cap);
    forall i | i in t.entries ensures EntryOk(t, t.entries[i]) {
      if i != id {
        assert EntryOk(s, s.entries[i]);
      }
    }
  }

  lemma MintSane(s: CapState, id: CapId, holder: FlowId, target: FlowId, rights: Rights)
    requires Sane(s) && Fresh(s, id) && Within(rights, ADDRESSING)
    ensures Sane(Mint(s, id, holder, target, rights))
    ensures ReplyIsLive(Mint(s, id, holder, target, rights), id, holder, target, rights)
  {
    HasIsWithin(rights, rights);
    WithinItself(rights);
    hide Within, Has;
    BindSane(s, target);
    var b := Bind(s, target);
    InsertSane(b, id, holder, FlowCap(b, target, rights));
  }

  /** The cached token is always usable: the fallback for stale cache entries is never taken. */
  lemma CachedReplyIsReused(s: CapState, id: CapId, holder: FlowId, target: FlowId)
    requires Sane(s)
    ensures (holder, target) in s.replies ==>
              MintOrReuse(s, id, holder, target, SEND) == (s, s.replies[(holder, target)])
  {
    hide Within, Has, EntryOk;
  }

  lemma ReplySane(s: CapState, id: CapId, holder: FlowId, target: FlowId)
    requires Sane(s) && Fresh(s, id)
    ensures Sane(MintOrReuse(s, id, holder, target, SEND).0)
  {
    RightsBasics();
    hide Within, Has;
    CachedReplyIsReused(s, id, holder, target);
    if (holder, target) !in s.replies {
      MintSane(s, id, holder, target, SEND);
      hide EntryOk;
    }
  }

  /**
   A derived record keeps its source's target with a subset of its rights, and the
   derivation succeeds only for the source's holder.
   */
  lemma DerivedNarrows(s: CapState, src: CapId, from: FlowId, want: Rights, wantMask: Option<NativeMask>)
    requires Derived(s, src, from, want, wantMask).Ok?
    ensures src in s.entries && s.entries[src].holder == from && Live(s, s.entries[src].cap)
    ensures var cap := Derived(s, src, from, want, wantMask).value;
            && cap.target == s.entries[src].cap.target && cap.target.ToFlow? && cap.epoch == s.entries[src].cap.epoch
            && NoWider(cap, s.entries[src].cap) && Within(cap.rights, want)
            && (s.entries[src].cap.mask.None? ==> cap.mask.None?)
  {
    AttenuateIsMeet(s.entries[src].cap, want, wantMask, 0, 0);
    hide Within, Has, Meet, Allows;
  }

  /**
   A derivation succeeds exactly for a token that resolves, addresses a flow and, if natives are
   asked for, has the native right; it names the first of these that fails. The new token has a
   right when source and request both have it, and allows the natives the source allows and the
   request names.
   */
  lemma DerivedMeans(s: CapState, src: CapId, from: FlowId, want: Rights, wantMask: Option<NativeMask>, x: Rights,
                     i: nat)
    ensures var known := Resolve(s, src, from, NONE);
            var native := known.Ok? && Within(NATIVE, known.value.cap.rights);
            match Derived(s, src, from, want, wantMask)
            case Ok(cap) =>
              && known.Ok? && known.value.cap.target.ToFlow? && (wantMask.Some? ==> native)
              && cap.target == known.value.cap.target && cap.epoch == known.value.cap.epoch
              && (Has(cap.rights, x) <==> Has(known.value.cap.rights, x) && Has(want, x))
              && (cap.mask.Some? <==> known.value.cap.mask.Some?)
              && (cap.mask.Some? ==>
                    (Allows(cap.mask.value, i)
                     <==> Allows(known.value.cap.mask.value, i) && (wantMask.Some? ==> Allows(wantMask.value, i))))
            case Err(e) =>
              if known.Err? then e == known.error
              else if !known.value.cap.target.ToFlow? then e == WrongTarget
              else wantMask.Some? && !native && e == InsufficientRights
  {
    hide Within, Has, Meet, Allows, Shared;
    ResolveMeans(s, src, from, NONE);
    if Resolve(s, src, from, NONE).Ok? {
      var cap := s.entries[src].cap;
      HasIsWithin(cap.rights, NATIVE);
      MeetHasBoth(cap.rights, want, x);
      AttenuateIsMeet(cap, want, wantMask, NONE, i);
    }
  }

  /** A reply address can be used by its holder with the rights asked for, whatever was cached. */
  lemma ReplyResolves(s: CapState, id: CapId, holder: FlowId, target: FlowId, rights: Rights)
    requires Fresh(s, id) && 0 !in s.entries
    ensures var (t, a) := MintOrReuse(s, id, holder, target, rights);
            var e := Resolve(t, a, holder, rights);
            e.Ok? && e.value.cap.target == ToFlow(target)
  {
    HasIsWithin(rights, rights);
    WithinItself(rights);
    hide Within, Has;
  }

  lemma DeriveSane(s: CapState, src: CapId, from: FlowId, to: FlowId, want: Rights, wantMask: Option<NativeMask>,
                   id: CapId)
    requires Sane(s) && Fresh(s, id)
    ensures Sane(Derive(s, src, from, to, want, wantMask, id).0)
  {
    hide Within, Has, Meet, Allows;
    if Derived(s, src, from, want, wantMask).Ok? {
      DerivedNarrows(s, src, from, want, wantMask);
      var cap := Derived(s, src, from, want, wantMask).value;
      assert EntryOk(s, s.entries[src]);
      WithinTransitive(cap.rights, s.entries[src].cap.rights, ADDRESSING);
      InsertSane(s, id, to, cap);
    }
  }

  lemma ReissueSane(s: CapState, src: CapId, to: FlowId, id: CapId)
    requires Sane(s) && Fresh(s, id)
    ensures Sane(Reissue(s, src, to, id).0)
    ensures src in s.entries ==> Reissue(s, src, to, id).0 == Insert(s, id, to, s.entries[src].cap)
  {
    hide Within, Has, Meet, Allows;
    if src in s.entries {
      assert EntryOk(s, s.entries[src]);
      AttenuateWithItself(s.entries[src].cap);
      InsertSane(s, id, to, s.entries[src].cap);
    }
  }

  /**
   Revocation removes exactly the entries held by or targeting the flow; every other
   token resolves as before, and no cell or cached reply address mentions the flow.
   */
  lemma RevokeIsExact(s: CapState, flow: FlowId, id: CapId, holder: FlowId, required: Rights)
    ensures var r := RevokeFlow(s, flow);
            var gone := id in s.entries && (s.entries[id].holder == flow || s.entries[id].cap.target == ToFlow(flow));
            && (id in r.entries <==> id in s.entries && !gone)
            && (gone ==> Resolve(r, id, holder, required) == Err(Unknown))
            && (!gone ==> Resolve(r, id, holder, required) == Resolve(s, id, holder, required))
            && flow !in r.cells
            && (forall pair :: pair in r.replies ==> pair.0 != flow && pair.1 != flow)
            && (forall pair :: pair in s.replies && pair.0 != flow && pair.1 != flow ==>
                  pair in r.replies && r.replies[pair] == s.replies[pair])
  {
    hide Has;
  }

  lemma RevokeSane(s: CapState, flow: FlowId)
    requires Sane(s)
    ensures Sane(RevokeFlow(s, flow))
  {
    hide Within, Has;
    var r := RevokeFlow(s, flow);
    forall id | id in r.entries ensures EntryOk(r, r.entries[id]) {
      assert EntryOk(s, s.entries[id]);
    }
  }

  lemma AdminSane(s: CapState, id: CapId, holder: FlowId)
    requires Sane(s) && Fresh(s, id)
    ensures Sane(Insert(s, id, holder, Cap.Cap(ToScheduler, ADMIN, None, s.schedulerEpoch)))
  {
    RightsBasics();
    InsertSane(s, id, holder, Cap.Cap(ToScheduler, ADMIN, None, s.schedulerEpoch));
  }

  lemma ApplySane(s: CapState, op: Op)
    requires Sane(s) && Enabled(s, op)
    ensures Sane(Apply(s, op))
  {
    RightsBasics();
    hide Sane, Within, Has, Mint, MintOrReuse, Derive, Reissue, RevokeFlow, Insert, Resolve, Bind;
    match op {
      case DoBind(f) => BindSane(s, f);
      case DoMint(id, h, t) => MintSane(s, id, h, t, ADDRESSING);
      case DoReply(id, h, t) => ReplySane(s, id, h, t);
      case DoDerive(src, from, to, want, mask, id) => DeriveSane(s, src, from, to, want, mask, id);
      case DoDelegate(src, from, to, id) =>
        if Resolve(s, src, from, NONE).Ok? {
          var e := Resolve(s, src, from, NONE).value;
          DeriveSane(s, src, from, to, e.cap.rights, e.cap.mask, id);
        }
      case DoReissue(src, to, id) => ReissueSane(s, src, to, id);
      case DoGrantAdmin(id, h) => AdminSane(s, id, h);
      case DoRevoke(f) => RevokeSane(s, f);
    }
  }

  /**
   In every reachable table every entry is live, flow targets stay within the addressing
   rights, administration sits on scheduler targets only, and every cached reply address
   names a live entry of that pair with the right to send.
   */
  lemma {:induction false} RunSane(s: CapState, ops: seq<Op>)
    requires Sane(s) && RunEnabled(s, ops)
    ensures Sane(Run(s, ops))
    decreases |ops|
  {
    hide Sane, Apply, Enabled;
    if ops != [] {
      ApplySane(s, ops[0]);
      RunSane(Apply(s, ops[0]), ops[1..]);
    }
  }

  /** No table entry ever carries `NATIVE`, so a `Delegate` naming a native capability is always refused. */
  lemma NativeOperandAlwaysRefused(ops: seq<Op>, id: CapId, holder: FlowId)
    requires RunEnabled(EMPTY, ops)
    ensures Resolve(Run(EMPTY, ops), id, holder, NATIVE).Err?
  {
    RunSane(EMPTY, ops);
    var s := Run(EMPTY, ops);
    hide Run, RunEnabled;
    if id in s.entries {
      assert EntryOk(s, s.entries[id]);
      GrantsExclude();
      AdminLacksNative();
      hide Within, Has;
    }
  }

  lemma AdminLacksNative()
    ensures forall r: Rights :: Within(r, ADMIN) ==> !Has(r, NATIVE)
  {
  }

  // ----- reply addresses over runs -----

  /** An operation that does not end either flow of the pair. */
  predicate Spares(op: Op, holder: FlowId, target: FlowId) {
    op.DoRevoke? ==> op.flow != holder && op.flow != target
  }

  lemma ReplyStays(s: CapState, op: Op, holder: FlowId, target: FlowId)
    requires Sane(s) && Enabled(s, op) && Spares(op, holder, target) && (holder, target) in s.replies
    ensures (holder, target) in Apply(s, op).replies
    ensures Apply(s, op).replies[(holder, target)] == s.replies[(holder, target)]
  {
    hide Within, Has, EntryOk, Derived, Resolve, Meet;
    match op {
      case DoReply(id, h, t) => CachedReplyIsReused(s, id, h, t);
      case _ =>
    }
  }

  /**
   Once minted, the reply address of a pair is the same token after any run in which
   neither flow exits, and asking for it again adds nothing to the table.
   */
  lemma {:induction false} ReplyAddressIsStable(s: CapState, ops: seq<Op>, holder: FlowId, target: FlowId, id: CapId)
    requires Sane(s) && RunEnabled(s, ops) && (holder, target) in s.replies
    requires forall i :: 0 <= i < |ops| ==> Spares(ops[i], holder, target)
    ensures MintOrReuse(Run(s, ops), id, holder, target, SEND) == (Run(s, ops), s.replies[(holder, target)])
    decreases |ops|
  {
    hide Sane, Apply, Enabled, MintOrReuse;
    if ops == [] {
      CachedReplyIsReused(s, id, holder, target);
    } else {
      ApplySane(s, ops[0]);
      ReplyStays(s, ops[0], holder, target);
      ReplyAddressIsStable(Apply(s, ops[0]), ops[1..], holder, target, id);
    }
  }

  /** How many entries the reply-address calls for one pair added along a run. */
  function Added(s: CapState, ops: seq<Op>, holder: FlowId, target: FlowId): nat
    decreases |ops|
  {
    if ops == [] then 0
    else
      (if ops[0].DoReply? && ops[0].holder == holder && ops[0].target == target
          && |Apply(s, ops[0]).entries| > |s.entries| then 1 else 0)
      + Added(Apply(s, ops[0]), ops[1..], holder, target)
  }

  /** The table grows at most once per pair of flows, however many hops they exchange. */
  lemma {:induction false} GrowsOncePerPair(s: CapState, ops: seq<Op>, holder: FlowId, target: FlowId)
    requires Sane(s) && RunEnabled(s, ops)
    requires forall i :: 0 <= i < |ops| ==> Spares(ops[i], holder, target)
    ensures Added(s, ops, holder, target) <= if (holder, target) in s.replies then 0 else 1
    decreases |ops|
  {
    hide Sane, Enabled, MintOrReuse;
    if ops != [] {
      ApplySane(s, ops[0]);
      if (holder, target) in s.replies {
        ReplyStays(s, ops[0], holder, target);
        CachedReplyIsReused(s, if ops[0].DoReply? then ops[0].id else 0, holder, target);
      } else if ops[0].DoReply? && ops[0].holder == holder && ops[0].target == target {
        ReplyIsCached(s, ops[0].id, holder, target);
      }
      hide Apply;
      GrowsOncePerPair(Apply(s, ops[0]), ops[1..], holder, target);
    }
  }

  lemma ReplyIsCached(s: CapState, id: CapId, holder: FlowId, target: FlowId)
    ensures (holder, target) in MintOrReuse(s, id, holder, target, SEND).0.replies
  {
    hide Has;
  }

  // ----- the table object -----

  const MINT_ATTEMPTS: nat := 32

  /**
   The table as the code keeps it. `draws` stands for the random ids a call would draw;
   `None` is running out of attempts.
   */
  class CapTable {
    var entries: map<CapId, Entry>
    var flowCells: map<FlowId, nat>
    var replyIndex: map<(FlowId, FlowId), CapId>
    const nativeCell: nat
    const schedulerCell: nat

    ghost function State(): CapState
      reads this
    {
      CapState(entries, flowCells, replyIndex, nativeCell, schedulerCell)
    }

    ghost predicate Valid()
      reads this
    {
      Sane(State())
    }

    constructor ()
      ensures Valid() && State() == EMPTY
    {
      entries, flowCells, replyIndex := map[], map[], map[];
      nativeCell, schedulerCell := 0, 0;
    }

    method BindFlow(flow: FlowId) returns (epoch: nat)
      requires Valid()
      modifies `flowCells
      ensures Valid() && State() == Bind(old(State()), flow) && epoch == flowCells[flow]
    {
      BindSane(State(), flow);
      if flow !in flowCells {
        flowCells := flowCells[flow := 0];
      }
      epoch := flowCells[flow];
    }

    /** The first drawn id that is neither 0 nor taken. */
    method InsertFresh(entry: Entry, draws: seq<CapId>) returns (id: Option<CapId>)
      requires |draws| == MINT_ATTEMPTS
      modifies `entries
      ensures id.Some? ==>
                Fresh(old(State()), id.value) && State() == Insert(old(State()), id.value, entry.holder, entry.cap)
      ensures id.None? ==> State() == old(State()) && forall k :: 0 <= k < |draws| ==> !Fresh(State(), draws[k])
    {
      var attempt := 0;
      while attempt < MINT_ATTEMPTS
        invariant 0 <= attempt <= MINT_ATTEMPTS && State() == old(State())
        invariant forall k :: 0 <= k < attempt ==> !Fresh(State(), draws[k])
      {
        var drawn := draws[attempt];
        if drawn != 0 && drawn !in entries {
          entries := entries[drawn := entry];
          return Some(drawn);
        }
        attempt := attempt + 1;
      }
      return None;
    }

    method MintToken(holder: FlowId, target: FlowId, rights: Rights, draws: seq<CapId>) returns (id: Option<CapId>)
      requires Valid() && Within(rights, ADDRESSING) && |draws| == MINT_ATTEMPTS
      modifies this
      ensures Valid()
      ensures id.Some? ==>
                Fresh(old(State()), id.value) && State() == Mint(old(State()), id.value, holder, target, rights)
      ensures id.None? ==> State() == Bind(old(State()), target)
    {
      ghost var before := State();
      var epoch := BindFlow(target);
      id := InsertFresh(Entry(holder, Cap.Cap(ToFlow(target), rights, None, epoch)), draws);
      if id.Some? {
        MintSane(before, id.value, holder, target, rights);
      }
    }

    /** The stable reply address of the pair: the cached token, or a new one that is then cached. */
    method MintReply(holder: FlowId, target: FlowId, draws: seq<CapId>) returns (id: Option<CapId>)
      requires Valid() && |draws| == MINT_ATTEMPTS
      modifies this
      ensures Valid()
      ensures id.Some? ==>
                && (State(), id.value) == MintOrReuse(old(State()), id.value, holder, target, SEND)
                && Resolve(State(), id.value, holder, SEND).Ok?
      ensures id.None? ==> (holder, target) !in old(replyIndex) && State() == Bind(old(State()), target)
    {
      ghost var before := State();
      if (holder, target) in replyIndex {
        var cached := replyIndex[(holder, target)];
        CachedReplyIsReused(State(), cached, holder, target);
        if cached in entries && entries[cached].holder == holder && entries[cached].cap.target == ToFlow(target)
           && Has(entries[cached].cap.rights, SEND)
           && target in flowCells && entries[cached].cap.epoch == flowCells[target] {
          return Some(cached);
        }
        // A stale cache entry would be dropped here; a valid table has none.
        assert false;
      }
      RightsBasics();
      id := MintToken(holder, target, SEND, draws);
      if id.Some? {
        ReplySane(before, id.value, holder, target);
        replyIndex := replyIndex[(holder, target) := id.value];
      }
    }

    method ResolveToken(id: CapId, holder: FlowId, required: Rights) returns (r: Result<Entry, CapError>)
      ensures r == Resolve(State(), id, holder, required)
    {
      if id == 0 || id !in entries {
        return Err(Unknown);
      }
      var entry := entries[id];
      if entry.holder != holder {
        return Err(NotHolder);
      }
      if !Has(entry.cap.rights, required) {
        return Err(InsufficientRights);
      }
      var valid := match entry.cap.target
        case ToFlow(f) => f in flowCells && flowCells[f] == entry.cap.epoch
        case ToNativeTable => entry.cap.epoch == nativeCell
        case ToScheduler => entry.cap.epoch == schedulerCell;
      return if valid then Ok(entry) else Err(Unknown);
    }

    /** `None` is a failed draw; nothing changes unless a token is returned. */
    method AttenuateToken(src: CapId, fromHolder: FlowId, toHolder: FlowId, want: Rights, wantMask: Option<NativeMask>,
                          draws: seq<CapId>) returns (r: Option<Result<CapId, CapError>>)
      requires Valid() && |draws| == MINT_ATTEMPTS
      modifies `entries
      ensures Valid()
      ensures r.Some? ==> (State(), r.value)
                          == Derive(old(State()), src, fromHolder, toHolder, want, wantMask,
                                    if r.value.Ok? then r.value.value else 0)
      ensures r.Some? && r.value.Ok? ==> Fresh(old(State()), r.value.value)
      ensures r.None? ==> State() == old(State())
    {
      ghost var before := State();
      var resolved := ResolveToken(src, fromHolder, NONE);
      if resolved.Err? {
        return Some(Err(resolved.error));
      }
      var cap := resolved.value.cap;
      if !cap.target.ToFlow? {
        return Some(Err(WrongTarget));
      }
      var narrowed := ExecDelegate(cap, flowCells[cap.target.flow], want, wantMask);
      if narrowed.Err? {
        return Some(Err(if narrowed.error.SourceRevoked? then Unknown else InsufficientRights));
      }
      var id := InsertFresh(Entry(toHolder, narrowed.value), draws);
      if id.None? {
        return None;
      }
      DeriveSane(before, src, fromHolder, toHolder, want, wantMask, id.value);
      return Some(Ok(id.value));
    }

    method ReissueFor(src: CapId, newHolder: FlowId, draws: seq<CapId>) returns (r: Option<Result<CapId, CapError>>)
      requires Valid() && |draws| == MINT_ATTEMPTS
      modifies `entries
      ensures Valid()
      ensures r.Some? ==>
                (State(), r.value) == Reissue(old(State()), src, newHolder, if r.value.Ok? then r.value.value else 0)
      ensures r.Some? && r.value.Ok? ==> Fresh(old(State()), r.value.value)
      ensures r.None? ==> State() == old(State())
    {
      ghost var before := State();
      if src == 0 || src !in entries {
        return Some(Err(Unknown));
      }
      var cap := entries[src].cap;
      var id := InsertFresh(Entry(newHolder, Attenuate(cap, cap.rights, cap.mask)), draws);
      if id.None? {
        return None;
      }
      ReissueSane(before, src, newHolder, id.value);
      return Some(Ok(id.value));
    }

    /** The flow exited: its counter moves on, then cell, entries and cached addresses go. */
    method RevokeTokens(flow: FlowId) returns (removed: nat)
      requires Valid()
      modifies this
      ensures Valid() && State() == RevokeFlow(old(State()), flow)
      ensures removed == |Concerned(old(entries), flow)|
    {
      hide Sane, Has, Within, Concerns, Kept, KeptReplies, Concerned, Without;
      RevokeSane(State(), flow);
      RevokedCells(flowCells, flow);
      if flow in flowCells {
        flowCells := flowCells[flow := flowCells[flow] + 1];
      }
      flowCells := Without(flowCells, flow);
      var before := |entries|;
      Partition(entries, flow);
      entries := Kept(entries, flow);
      replyIndex := KeptReplies(replyIndex, flow);
      removed := before - |entries|;
    }
  }

  /** The tokens a revocation of `flow` takes away. */
  function Concerned(m: map<CapId, Entry>, flow: FlowId): set<CapId> {
    set id | id in m && Concerns(m[id], flow)
  }

  lemma RevokedCells(cells: map<FlowId, nat>, flow: FlowId)
    ensures flow in cells ==> Without(cells[flow := cells[flow] + 1], flow) == Without(cells, flow)
  {
  }

  lemma Partition(m: map<CapId, Entry>, flow: FlowId)
    ensures |m| == |Kept(m, flow)| + |Concerned(m, flow)|
  {
    hide Concerns;
    var kept := Kept(m, flow);
    assert m.Keys == kept.Keys + Concerned(m, flow);
    assert kept.Keys !! Concerned(m, flow);
    assert |m| == |m.Keys| && |kept| == |kept.Keys|;
  }
}
