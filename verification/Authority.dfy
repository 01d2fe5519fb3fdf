/**
 Rights, native masks and capability records (crates/byteflow/src/bytecode/cap.rs), and
 the authority a spawned flow is born with (crates/byteflow/src/scheduler/{delegate,spawn}.rs).
 Authority only ever narrows, down to the bits of the mask words.
 */
module Authority {
  import opened Wrappers

  type FlowId = nat

  // ----- rights -----

  type Rights = bv32

  const NONE: Rights := 0
  const SEND: Rights := 1
  const ASK: Rights := 2
  const RECV: Rights := 4
  const SPAWN: Rights := 8
  const LINK: Rights := 16
  const MONITOR: Rights := 32
  const ADMIN: Rights := 64
  const NATIVE: Rights := 128
  const ADDRESSING: Rights := SEND | ASK | LINK | MONITOR
  const FLOW: Rights := SEND | ASK | RECV | SPAWN | LINK | MONITOR | NATIVE
  const ROOT: Rights := FLOW

  predicate Has(r: Rights, required: Rights) {
    r & required == required
  }

  predicate Within(r: Rights, s: Rights) {
    r & !s == 0
  }

  function Meet(r: Rights, s: Rights): Rights {
    r & s
  }

  lemma MeetOfBoth(r: Rights, s: Rights, x: Rights)
    requires Within(x, r) && Within(x, s)
    ensures Within(x, Meet(r, s))
  {
  }

  lemma BothOfMeet(r: Rights, s: Rights, x: Rights)
    requires Within(x, Meet(r, s))
    ensures Within(x, r) && Within(x, s)
  {
  }

  /** `intersect` is the greatest set of rights within both. */
  lemma MeetIsGreatest(r: Rights, s: Rights, x: Rights)
    ensures Within(x, Meet(r, s)) <==> Within(x, r) && Within(x, s)
  {
    hide Within, Meet;
    if Within(x, r) && Within(x, s) {
      MeetOfBoth(r, s, x);
    }
    if Within(x, Meet(r, s)) {
      BothOfMeet(r, s, x);
    }
  }

  lemma HasThenWithin(r: Rights, required: Rights)
    requires Has(r, required)
    ensures Within(required, r)
  {
  }

  lemma WithinThenHas(r: Rights, required: Rights)
    requires Within(required, r)
    ensures Has(r, required)
  {
  }

  /** `contains` and `is_subset_of` are the same relation. */
  lemma HasIsWithin(r: Rights, required: Rights)
    ensures Has(r, required) ==> Within(required, r)
    ensures Within(required, r) ==> Has(r, required)
  {
    hide Has, Within;
    if Has(r, required) {
      HasThenWithin(r, required);
    }
    if Within(required, r) {
      WithinThenHas(r, required);
    }
  }

  lemma WithinTransitive(r: Rights, s: Rights, t: Rights)
    requires Within(r, s) && Within(s, t)
    ensures Within(r, t)
  {
  }

  /** The default grants: no addressing token and no root authority can administer or, for a token, spawn. */
  lemma GrantsExclude()
    ensures Within(ADDRESSING, ROOT) && !Has(ROOT, ADMIN)
    ensures forall r: Rights :: Within(r, ADDRESSING) ==> !Has(r, NATIVE) && !Has(r, SPAWN) && !Has(r, ADMIN)
    ensures forall r: Rights :: Within(r, ROOT) ==> !Has(r, ADMIN)
  {
  }

  // ----- words of bits -----

  function Bit(b: bv6): bv64 {
    (1 as bv64) << b
  }

  function Position(i: nat): bv6
    requires i < 64
  {
    i as bv6
  }

  predicate Meets(w: bv64, p: bv64) {
    w & p != 0
  }

  function And(x: bv64, y: bv64): bv64 {
    x & y
  }

  function Or(x: bv64, y: bv64): bv64 {
    x | y
  }

  ghost predicate OneBit(p: bv64) {
    p != 0 && p & (p - 1) == 0
  }

  lemma BitIsOneBit(b: bv6)
    ensures OneBit(Bit(b))
  {
  }

  lemma BitsDisjoint(a: bv6, b: bv6)
    requires a != b
    ensures !Meets(Bit(a), Bit(b))
  {
  }

  lemma WholeBit(x: bv64, p: bv64)
    requires OneBit(p) && x & p != 0
    ensures x & p == p
  {
  }

  lemma AndDistributes(x: bv64, y: bv64, p: bv64)
    ensures (x & y) & p == (x & p) & (y & p)
  {
  }

  lemma AndWithZero(x: bv64)
    ensures 0 & x == 0 && x & 0 == 0 && x & x == x
  {
  }

  lemma AndMeets(x: bv64, y: bv64, p: bv64)
    requires OneBit(p)
    ensures Meets(And(x, y), p) <==> Meets(x, p) && Meets(y, p)
  {
    AndDistributes(x, y, p);
    if x & p != 0 && y & p != 0 {
      WholeBit(x, p);
      WholeBit(y, p);
    }
    AndWithZero(x & p);
    AndWithZero(y & p);
    AndWithZero(p);
  }

  lemma OrDistributes(x: bv64, p: bv64, q: bv64)
    ensures (x | p) & q == (x & q) | (p & q)
  {
  }

  lemma OrWithZero(x: bv64)
    ensures x | 0 == x
  {
  }

  lemma OrMeets(x: bv64, p: bv64, q: bv64)
    requires !Meets(p, q)
    ensures Meets(Or(x, p), q) == Meets(x, q)
  {
    OrDistributes(x, p, q);
    OrWithZero(x & q);
  }

  lemma OrMeetsSelf(x: bv64, p: bv64)
    requires OneBit(p)
    ensures Meets(Or(x, p), p)
  {
  }

  lemma OrBit(x: bv64, a: bv6, b: bv6)
    ensures Meets(Or(x, Bit(a)), Bit(b)) <==> a == b || Meets(x, Bit(b))
  {
    hide Bit, OneBit, Or, Meets;
    if a == b {
      BitIsOneBit(a);
      OrMeetsSelf(x, Bit(a));
    } else {
      BitsDisjoint(a, b);
      OrMeets(x, Bit(a), Bit(b));
    }
  }

  /** All bits below `n`. */
  function LowBits(n: bv6): bv64 {
    Bit(n) - 1
  }

  lemma LowBitsMeet(n: bv6, b: bv6)
    ensures Meets(LowBits(n), Bit(b)) <==> b < n
  {
  }

  const ALL_BITS: bv64 := 0xFFFF_FFFF_FFFF_FFFF

  lemma AllBitsMeet(b: bv6)
    ensures Meets(ALL_BITS, Bit(b)) && !Meets(0, Bit(b))
  {
  }

  lemma PositionBack(i: nat)
    requires i < 64
    ensures Position(i) as nat == i
  {
  }

  lemma OrderOfPositions(x: bv6, y: bv6)
    ensures x < y <==> (x as nat) < (y as nat)
  {
  }

  /** Positions keep the order of indices. */
  lemma PositionOrder(i: nat, j: nat)
    requires i < 64 && j < 64
    ensures Position(i) < Position(j) <==> i < j
    ensures Position(i) == Position(j) <==> i == j
  {
    PositionBack(i);
    PositionBack(j);
    OrderOfPositions(Position(i), Position(j));
    hide Position;
  }

  // ----- native masks -----

  datatype NativeMask = NativeMask(words: seq<bv64>)

  /** `allows`: bit `i % 64` of word `i / 64`, absent words counting as zero. */
  predicate Allows(m: NativeMask, i: nat) {
    i / 64 < |m.words| && Meets(m.words[i / 64], Bit(Position(i % 64)))
  }

  function WordCount(natives: nat): nat {
    (natives + 63) / 64
  }

  function Shared(a: NativeMask, b: NativeMask): NativeMask {
    var n := Min(|a.words|, |b.words|);
    NativeMask(seq(n, i requires 0 <= i < n => And(a.words[i], b.words[i])))
  }

  /** The word-wise intersection is the intersection of the index sets. */
  lemma SharedAllows(a: NativeMask, b: NativeMask, i: nat)
    ensures Allows(Shared(a, b), i) <==> Allows(a, i) && Allows(b, i)
  {
    hide Bit, Meets, And, OneBit, Position;
    var w := i / 64;
    if w < |a.words| && w < |b.words| {
      BitIsOneBit(Position(i % 64));
      AndMeets(a.words[w], b.words[w], Bit(Position(i % 64)));
    }
  }

  lemma SharedWithItself(a: NativeMask)
    ensures Shared(a, a) == a
  {
    forall i | 0 <= i < |a.words| ensures And(a.words[i], a.words[i]) == a.words[i] {
    }
  }

  method EmptyMask(natives: nat) returns (m: NativeMask)
    ensures forall i :: !Allows(m, i)
  {
    var words := seq(WordCount(natives), _ => 0);
    m := NativeMask(words);
    forall i: nat ensures !Allows(m, i) {
      AllBitsMeet(Position(i % 64));
    }
  }

  /** All indices of the table, with the bits above it cleared. */
  method FullMask(natives: nat) returns (m: NativeMask)
    ensures m == Full(natives)
  {
    var words := seq(WordCount(natives), _ => ALL_BITS);
    var rem := natives % 64;
    if rem != 0 {
      var last := |words| - 1;
      words := words[last := And(words[last], LowBits(Position(rem)))];
    }
    m := NativeMask(words);
    assert m == Full(natives);
  }

  function Full(natives: nat): NativeMask {
    var words := seq(WordCount(natives), _ => ALL_BITS);
    NativeMask(if natives % 64 == 0 then words
               else words[|words| - 1 := And(ALL_BITS, LowBits(Position(natives % 64)))])
  }

  /** The full mask allows the table's own indices and nothing above. */
  lemma FullAllows(natives: nat, i: nat)
    ensures Allows(Full(natives), i) <==> i < natives
  {
    hide Bit, Meets, And, OneBit, Position, LowBits;
    var w, b := i / 64, Position(i % 64);
    var words := Full(natives).words;
    AllBitsMeet(b);
    if natives % 64 != 0 && w == |words| - 1 {
      var n := Position(natives % 64);
      BitIsOneBit(b);
      AndMeets(ALL_BITS, LowBits(n), Bit(b));
      LowBitsMeet(n, b);
      PositionOrder(i % 64, natives % 64);
    }
  }

  method MaskFromIndices(natives: nat, indices: seq<nat>) returns (m: NativeMask)
    ensures forall i: nat :: Allows(m, i) <==> i in indices && i < natives
  {
    hide Bit, Meets, Or, OneBit, Position;
    var words := seq(WordCount(natives), _ => 0);
    forall i: nat ensures !Allows(NativeMask(words), i) {
      AllBitsMeet(Position(i % 64));
    }
    assert indices[..0] == [];
    var k := 0;
    while k < |indices|
      invariant 0 <= k <= |indices| && |words| == WordCount(natives)
      invariant forall i: nat :: Allows(NativeMask(words), i) <==> i in indices[..k] && i < natives
    {
      var n := indices[k];
      if n / 64 < |words| && n < natives {
        ghost var before := words;
        words := words[n / 64 := Or(words[n / 64], Bit(Position(n % 64)))];
        forall i: nat ensures Allows(NativeMask(words), i) <==> i == n || Allows(NativeMask(before), i) {
          SetsOneIndex(before, n, i);
        }
      }
      assert indices[..k + 1] == indices[..k] + [n];
      k := k + 1;
    }
    assert indices[..k] == indices;
    m := NativeMask(words);
  }

  lemma SetsOneIndex(words: seq<bv64>, n: nat, i: nat)
    requires n / 64 < |words|
    ensures Allows(NativeMask(words[n / 64 := Or(words[n / 64], Bit(Position(n % 64)))]), i)
            <==> i == n || Allows(NativeMask(words), i)
  {
    hide Bit, Meets, Or, OneBit, Position;
    if i / 64 == n / 64 {
      OrBit(words[n / 64], Position(n % 64), Position(i % 64));
      PositionOrder(n % 64, i % 64);
    }
  }

  method Intersect(a: NativeMask, b: NativeMask) returns (m: NativeMask)
    ensures m == Shared(a, b)
    ensures forall i :: Allows(m, i) <==> Allows(a, i) && Allows(b, i)
  {
    var n := Min(|a.words|, |b.words|);
    var words := seq(n, _ => 0);
    var k := 0;
    while k < n
      invariant 0 <= k <= n == |words|
      invariant forall j :: 0 <= j < k ==> words[j] == And(a.words[j], b.words[j])
    {
      words := words[k := And(a.words[k], b.words[k])];
      k := k + 1;
    }
    m := NativeMask(words);
    forall i: nat ensures Allows(Shared(a, b), i) <==> Allows(a, i) && Allows(b, i) {
      SharedAllows(a, b, i);
    }
  }

  // ----- capability records -----

  datatype Target = ToFlow(flow: FlowId) | ToNativeTable | ToScheduler

  /** Valid as long as the issuer's revocation counter still reads `epoch`. */
  datatype Cap = Cap(target: Target, rights: Rights, mask: Option<NativeMask>, epoch: nat)

  function Attenuate(c: Cap, want: Rights, wantMask: Option<NativeMask>): Cap {
    Cap(c.target, Meet(c.rights, want),
        match c.mask
        case None => None
        case Some(m) => Some(if wantMask.Some? then Shared(m, wantMask.value) else m),
        c.epoch)
  }

  /** Nothing `c` permits is denied by `d`. */
  ghost predicate MaskWithin(c: Option<NativeMask>, d: Option<NativeMask>) {
    c.Some? ==> d.Some? && forall i: nat :: Allows(c.value, i) ==> Allows(d.value, i)
  }

  ghost predicate NoWider(c: Cap, d: Cap) {
    Within(c.rights, d.rights) && MaskWithin(c.mask, d.mask)
  }

  lemma NoWiderTransitive(a: Cap, b: Cap, c: Cap)
    requires NoWider(a, b) && NoWider(b, c)
    ensures NoWider(a, c)
  {
    WithinTransitive(a.rights, b.rights, c.rights);
    hide Within, Allows;
  }

  lemma WithinItself(r: Rights)
    ensures Within(r, r)
  {
  }

  /**
   Attenuation keeps target and epoch and yields exactly what source and request have in
   common: nothing else is within it, and nothing in common is lost.
   */
  lemma AttenuateIsMeet(c: Cap, want: Rights, wantMask: Option<NativeMask>, x: Rights, i: nat)
    ensures var a := Attenuate(c, want, wantMask);
            && a.target == c.target && a.epoch == c.epoch
            && NoWider(a, c) && Within(a.rights, want)
            && (Within(x, c.rights) && Within(x, want) ==> Within(x, a.rights))
            && (c.mask.Some? <==> a.mask.Some?)
            && (c.mask.Some? ==>
                  (Allows(a.mask.value, i)
                   <==> Allows(c.mask.value, i) && (wantMask.Some? ==> Allows(wantMask.value, i))))
  {
    hide Within, Meet, Allows, Shared;
    var a := Attenuate(c, want, wantMask);
    MeetIsGreatest(c.rights, want, x);
    MeetIsGreatest(c.rights, want, a.rights);
    WithinItself(a.rights);
    if c.mask.Some? && wantMask.Some? {
      forall j: nat ensures Allows(a.mask.value, j) <==> Allows(c.mask.value, j) && Allows(wantMask.value, j) {
        SharedAllows(c.mask.value, wantMask.value, j);
      }
    }
  }

  lemma MeetWithItself(r: Rights)
    ensures Meet(r, r) == r
  {
  }

  /** Asking for all a record has returns the record: re-issuing never loses anything. */
  lemma AttenuateWithItself(c: Cap)
    ensures Attenuate(c, c.rights, c.mask) == c
  {
    MeetWithItself(c.rights);
    if c.mask.Some? {
      SharedWithItself(c.mask.value);
    }
  }

  // ----- delegation and spawning -----

  datatype DelegateError = SourceRevoked | SourceLacksNative

  function ExecDelegate(src: Cap, cell: nat, want: Rights, wantMask: Option<NativeMask>): Result<Cap, DelegateError> {
    if src.epoch != cell then Err(SourceRevoked)
    else if wantMask.Some? && !Has(src.rights, NATIVE) then Err(SourceLacksNative)
    else Ok(Attenuate(src, want, wantMask))
  }

  datatype SpawnError = SourceCapRevoked | MissingSpawnRight | RateLimited

  /** The authority of a child started by bytecode; `allowed` is the verdict of the spawn rate limit. */
  function ExecSpawnAuthority(parent: Cap, cell: nat, allowed: bool, child: FlowId, want: Rights,
                              wantMask: Option<NativeMask>, childCell: nat): Result<Cap, SpawnError>
  {
    if parent.epoch != cell then Err(SourceCapRevoked)
    else if !Has(parent.rights, SPAWN) then Err(MissingSpawnRight)
    else if !allowed then Err(RateLimited)
    else
      var a := Attenuate(parent, want, wantMask);
      Ok(Cap(ToFlow(child), a.rights, a.mask, childCell))
  }

  lemma MeetHasBoth(r: Rights, s: Rights, x: Rights)
    ensures Has(Meet(r, s), x) <==> Has(r, x) && Has(s, x)
  {
    hide Has, Within, Meet;
    HasIsWithin(Meet(r, s), x);
    HasIsWithin(r, x);
    HasIsWithin(s, x);
    MeetIsGreatest(r, s, x);
  }

  /**
   A spawn succeeds exactly for a parent that is not revoked, has the right to spawn and is
   within its rate, and names the first of these that fails. The child is addressed by its own
   id, has a right when parent and request both have it, and may call the natives the parent
   may call and the request names.
   */
  lemma SpawnMeans(parent: Cap, cell: nat, allowed: bool, child: FlowId, want: Rights, wantMask: Option<NativeMask>,
                   childCell: nat, x: Rights, i: nat)
    ensures match ExecSpawnAuthority(parent, cell, allowed, child, want, wantMask, childCell)
            case Ok(cap) =>
              && parent.epoch == cell && Within(SPAWN, parent.rights) && allowed
              && cap.target == ToFlow(child) && cap.epoch == childCell
              && (Has(cap.rights, x) <==> Has(parent.rights, x) && Has(want, x))
              && (cap.mask.Some? <==> parent.mask.Some?)
              && (cap.mask.Some? ==>
                    (Allows(cap.mask.value, i)
                     <==> Allows(parent.mask.value, i) && (wantMask.Some? ==> Allows(wantMask.value, i))))
            case Err(SourceCapRevoked) => parent.epoch != cell
            case Err(MissingSpawnRight) => parent.epoch == cell && !Within(SPAWN, parent.rights)
            case Err(RateLimited) => parent.epoch == cell && Within(SPAWN, parent.rights) && !allowed
  {
    hide Has, Within, Meet, Allows, Shared;
    HasIsWithin(parent.rights, SPAWN);
    MeetHasBoth(parent.rights, want, x);
    AttenuateIsMeet(parent, want, wantMask, NONE, i);
  }

  // ----- the authority of every flow, over whole runs -----

  /** Authority and spawner of every flow ever started, and the revocation counters of the issuers. */
  datatype Realm = Realm(natives: nat, authority: map<FlowId, Cap>, parent: map<FlowId, FlowId>,
                         cells: map<FlowId, nat>)

  datatype Event =
    | HostSpawn(child: FlowId)
    | BytecodeSpawn(spawner: FlowId, child: FlowId, want: Rights, allowed: bool)
    | Revoke(flow: FlowId)

  /** A child gets a new id and a new revocation counter; a refused spawn changes nothing. */
  function Happen(r: Realm, e: Event): Realm {
    match e
    case HostSpawn(child) =>
      if child in r.authority then r
      else r.(authority := r.authority[child := Cap(ToFlow(child), ROOT, Some(Full(r.natives)), 0)],
              cells := r.cells[child := 0])
    case BytecodeSpawn(spawner, child, want, allowed) =>
      if child in r.authority || spawner !in r.authority || spawner !in r.cells then r
      else
        (match ExecSpawnAuthority(r.authority[spawner], r.cells[spawner], allowed, child, want, None, 0)
         case Err(_) => r
         case Ok(cap) =>
           r.(authority := r.authority[child := cap], parent := r.parent[child := spawner],
              cells := r.cells[child := 0]))
    case Revoke(flow) =>
      if flow in r.cells then r.(cells := r.cells[flow := r.cells[flow] + 1]) else r
  }

  function Unfold(r: Realm, es: seq<Event>): Realm
    decreases |es|
  {
    if es == [] then r else Unfold(Happen(r, es[0]), es[1..])
  }

  /** The widest authority there is. */
  function RootCap(natives: nat): Cap {
    Cap(ToScheduler, ROOT, Some(Full(natives)), 0)
  }

  ghost predicate Confined(r: Realm) {
    && (forall f :: f in r.authority ==> NoWider(r.authority[f], RootCap(r.natives)))
    && (forall f :: f in r.parent ==> f in r.authority && r.parent[f] in r.authority
                                      && NoWider(r.authority[f], r.authority[r.parent[f]])
                                      && Within(SPAWN, r.authority[r.parent[f]].rights))
  }

  lemma RootIsNoWider(natives: nat, child: FlowId)
    ensures NoWider(Cap(ToFlow(child), ROOT, Some(Full(natives)), 0), RootCap(natives))
  {
    WithinItself(ROOT);
  }

  lemma SpawnIsNoWider(parent: Cap, cell: nat, allowed: bool, child: FlowId, want: Rights, natives: nat)
    requires ExecSpawnAuthority(parent, cell, allowed, child, want, None, 0).Ok? && NoWider(parent, RootCap(natives))
    ensures var cap := ExecSpawnAuthority(parent, cell, allowed, child, want, None, 0).value;
            NoWider(cap, parent) && NoWider(cap, RootCap(natives)) && Within(SPAWN, parent.rights)
  {
    AttenuateIsMeet(parent, want, None, 0, 0);
    HasIsWithin(parent.rights, SPAWN);
    hide Within, Allows, Meet, Has;
    NoWiderTransitive(Attenuate(parent, want, None), parent, RootCap(natives));
  }

  lemma HappenConfines(r: Realm, e: Event)
    requires Confined(r)
    ensures Confined(Happen(r, e)) && Happen(r, e).natives == r.natives
  {
    hide NoWider, Within;
    match e {
      case HostSpawn(child) => RootIsNoWider(r.natives, child);
      case BytecodeSpawn(spawner, child, want, allowed) =>
        if child !in r.authority && spawner in r.authority && spawner in r.cells
           && ExecSpawnAuthority(r.authority[spawner], r.cells[spawner], allowed, child, want, None, 0).Ok? {
          SpawnIsNoWider(r.authority[spawner], r.cells[spawner], allowed, child, want, r.natives);
        }
      case Revoke(_) =>
    }
  }

  lemma {:induction false} UnfoldConfines(r: Realm, es: seq<Event>)
    requires Confined(r)
    ensures Confined(Unfold(r, es)) && Unfold(r, es).natives == r.natives
    decreases |es|
  {
    hide Confined, Happen;
    if es != [] {
      HappenConfines(r, es[0]);
      UnfoldConfines(Happen(r, es[0]), es[1..]);
    }
  }

  /** `chain` goes from a flow up to one of its ancestors. */
  ghost predicate Lineage(r: Realm, chain: seq<FlowId>)
    decreases |chain|
  {
    && chain != [] && chain[0] in r.authority
    && (|chain| > 1 ==> chain[0] in r.parent && r.parent[chain[0]] == chain[1] && Lineage(r, chain[1..]))
  }

  function Ancestor(chain: seq<FlowId>): FlowId
    requires chain != []
  {
    chain[|chain| - 1]
  }

  lemma {:induction false} LineageEndsKnown(r: Realm, chain: seq<FlowId>)
    requires Lineage(r, chain)
    ensures Ancestor(chain) in r.authority
    decreases |chain|
  {
    if |chain| > 1 {
      LineageEndsKnown(r, chain[1..]);
    }
  }

  lemma {:induction false} LineageNarrows(r: Realm, chain: seq<FlowId>)
    requires Confined(r) && Lineage(r, chain)
    ensures Ancestor(chain) in r.authority
    ensures NoWider(r.authority[chain[0]], r.authority[Ancestor(chain)])
    decreases |chain|
  {
    hide NoWider;
    LineageEndsKnown(r, chain);
    if |chain| == 1 {
      NoWiderItself(r.authority[chain[0]]);
    } else {
      LineageNarrows(r, chain[1..]);
      NoWiderTransitive(r.authority[chain[0]], r.authority[chain[1]], r.authority[Ancestor(chain)]);
    }
  }

  lemma NoWiderItself(c: Cap)
    ensures NoWider(c, c)
  {
    WithinItself(c.rights);
  }

  /**
   After any run of spawns and revocations: no flow has a right or a native index that
   any of its ancestors lacks, none exceeds the root grant or the native table,
   none can administer the scheduler, and whoever has started another may spawn.
   */
  lemma AuthorityOnlyNarrows(natives: nat, es: seq<Event>, chain: seq<FlowId>, i: nat)
    requires Lineage(Unfold(Realm(natives, map[], map[], map[]), es), chain)
    ensures var r := Unfold(Realm(natives, map[], map[], map[]), es);
            var cap := r.authority[chain[0]];
            && Ancestor(chain) in r.authority && NoWider(cap, r.authority[Ancestor(chain)])
            && Within(cap.rights, ROOT) && !Has(cap.rights, ADMIN)
            && (cap.mask.Some? && Allows(cap.mask.value, i) ==> i < natives)
            && (|chain| > 1 ==> chain[1] in r.authority && Within(SPAWN, r.authority[chain[1]].rights))
  {
    hide Happen, Allows;
    var r := Unfold(Realm(natives, map[], map[], map[]), es);
    UnfoldConfines(Realm(natives, map[], map[], map[]), es);
    LineageNarrows(r, chain);
    FullAllows(natives, i);
    GrantsExclude();
  }

  /** Whether the run revokes a flow that exists by then. */
  predicate Revoked(r: Realm, es: seq<Event>, f: FlowId)
    decreases |es|
  {
    es != [] && ((es[0] == Revoke(f) && f in r.authority) || Revoked(Happen(r, es[0]), es[1..], f))
  }

  /** Every flow has a counter, and its authority is the one it was born with. */
  ghost predicate Counted(r: Realm) {
    r.cells.Keys == r.authority.Keys && forall f :: f in r.authority ==> r.authority[f].epoch == 0
  }

  /** A flow that may still use its authority. */
  predicate Standing(r: Realm, f: FlowId) {
    f in r.authority && f in r.cells && r.cells[f] == 0
  }

  lemma HappenCounts(r: Realm, e: Event, f: FlowId)
    requires Counted(r)
    ensures var t := Happen(r, e);
            && Counted(t) && (f in r.authority ==> f in t.authority && t.authority[f] == r.authority[f])
            && (f in t.authority ==>
                  (Standing(t, f) <==> (f !in r.authority || Standing(r, f)) && !(e == Revoke(f) && f in r.authority)))
  {
    hide Attenuate, Has;
  }

  lemma {:induction false} StandsUnlessRevoked(r: Realm, es: seq<Event>, f: FlowId)
    requires Counted(r)
    ensures var t := Unfold(r, es);
            && Counted(t) && (f in r.authority ==> f in t.authority && t.authority[f] == r.authority[f])
            && (f in t.authority ==>
                  (Standing(t, f) <==> (f !in r.authority || Standing(r, f)) && !Revoked(r, es, f)))
            && (Revoked(r, es, f) ==> f in t.authority)
    decreases |es|
  {
    hide Happen, Counted, Standing;
    if es != [] {
      HappenCounts(r, es[0], f);
      StandsUnlessRevoked(Happen(r, es[0]), es[1..], f);
    }
  }

  /**
   After any run, a flow within its rate starts a child under a new id exactly if it has the right to
   spawn and was not revoked since it was born.
   */
  lemma SpawnsUntilRevoked(natives: nat, es: seq<Event>, f: FlowId, child: FlowId, want: Rights, allowed: bool)
    requires f in Unfold(Realm(natives, map[], map[], map[]), es).authority
    requires child !in Unfold(Realm(natives, map[], map[], map[]), es).authority
    ensures var none := Realm(natives, map[], map[], map[]);
            var r := Unfold(none, es);
            child in Happen(r, BytecodeSpawn(f, child, want, allowed)).authority
            <==> allowed && Within(SPAWN, r.authority[f].rights) && !Revoked(none, es, f)
  {
    hide Unfold, Revoked, Within, Has;
    var none := Realm(natives, map[], map[], map[]);
    StandsUnlessRevoked(none, es, f);
    HasIsWithin(Unfold(none, es).authority[f].rights, SPAWN);
  }
}
