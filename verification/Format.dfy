/**
 The BFV0 module format (crates/byteflow/src/bytecode/format.rs) on values: what the
 encoder writes, what the decoder reads, and how the two fit together.
 */
module Format {
  import opened Wrappers
  import opened Values
  import opened Bytecode

  const MAGIC: seq<u8> := [0x42, 0x46, 0x56, 0x30]
  const ABI_VERSION: u32 := 5
  const MAX_NAME: nat := 0x1_0000
  const MAX_ITEMS: nat := 1_000_000
  const MAX_BLOB: nat := 1_048_576
  const MAX_VALUE_DEPTH: nat := 16

  datatype FormatError =
    | BadMagic(found: seq<u8>)
    | UnsupportedAbi(abi: u32)
    | Truncated
    | LimitExceeded(what: string, got: u32)
    | BadUtf8
    | UnknownValueTag(tag: u8)
    | UnknownOpcode(at: nat, byte: u8)
    | ForbiddenInModule(kind: ConstantKind)
    | ValueTooNested

  // ----- little-endian numbers -----

  function Pow256(n: nat): nat {
    if n == 0 then 1 else 256 * Pow256(n - 1)
  }

  /** The low `n` bytes of `x`; casting a length to 32 bits is `LittleEndian(length, 4)`. */
  function LittleEndian(x: nat, n: nat): (bytes: seq<u8>)
    ensures |bytes| == n
    decreases n
  {
    if n == 0 then [] else [x % 256] + LittleEndian(x / 256, n - 1)
  }

  function FromLittleEndian(bytes: seq<u8>): nat {
    if bytes == [] then 0 else bytes[0] + 256 * FromLittleEndian(bytes[1..])
  }

  lemma {:induction false} FromLittleEndianBound(bytes: seq<u8>)
    ensures FromLittleEndian(bytes) < Pow256(|bytes|)
  {
    if bytes != [] {
      FromLittleEndianBound(bytes[1..]);
    }
  }

  lemma {:induction false} LittleEndianRoundTrip(x: nat, n: nat)
    requires x < Pow256(n)
    ensures FromLittleEndian(LittleEndian(x, n)) == x
    decreases n
  {
    if n > 0 {
      LittleEndianRoundTrip(x / 256, n - 1);
      assert LittleEndian(x, n)[1..] == LittleEndian(x / 256, n - 1);
    }
  }

  lemma Widths()
    ensures Pow256(1) == 0x100 && Pow256(2) == 0x1_0000 && Pow256(4) == 0x1_0000_0000
    ensures Pow256(8) == 0x1_0000_0000_0000_0000
    ensures Pow256(16) == 0x1_0000_0000_0000_0000_0000_0000_0000_0000
  {
    assert Pow256(4) == 256 * (256 * (256 * (256 * Pow256(0))));
    assert Pow256(8) == 256 * (256 * (256 * (256 * Pow256(4))));
    assert Pow256(12) == 256 * (256 * (256 * (256 * Pow256(8))));
    assert Pow256(16) == 256 * (256 * (256 * (256 * Pow256(12))));
  }

  /** Two's complement bit patterns. */
  function Unsigned32(x: i32): u32 {
    AsU32(x)
  }

  function Unsigned64(x: i64): u64 {
    if x < 0 then x + 0x1_0000_0000_0000_0000 else x
  }

  lemma SignedRoundTrip(x: i32, y: i64)
    ensures Wrap32(Unsigned32(x)) == x && Wrap64(Unsigned64(y)) == y
  {
  }

  // ----- encoding -----

  function EncodeBlob(b: seq<u8>): seq<u8> {
    LittleEndian(|b|, 4) + b
  }

  function EncodeValue(v: Value): seq<u8> {
    match v
    case Unit => [0]
    case Bool(b) => [1, if b then 1 else 0]
    case Int(i) => [2] + LittleEndian(Unsigned64(i), 8)
    case Float(x) => [3] + LittleEndian(x, 8)
    case Pid(p) => [4] + LittleEndian(p, 8)
    case Hop(m) => [5]
      + (LittleEndian(m.sender, 8)
         + (LittleEndian(m.replyCap, 16)
            + (LittleEndian(m.requestId, 8) + (LittleEndian(m.tag, 2) + EncodeValue(m.payload)))))
    case Cap(c) => [6] + LittleEndian(c, 16)
    case Str(s) => [7] + EncodeBlob(s)
    case Bytes(d) => [8] + EncodeBlob(d)
  }

  function EncodeFunction(f: FunctionDef): seq<u8> {
    EncodeBlob(f.name) + (LittleEndian(f.entry, 4) + [f.arity, f.numRegisters])
  }

  function EncodeInstruction(i: Instruction): seq<u8> {
    [AsByte(i.op), i.a, i.b, i.c] + LittleEndian(Unsigned32(i.imm), 4)
  }

  function EncodeValues(vs: seq<Value>): seq<u8> {
    if vs == [] then [] else EncodeValue(vs[0]) + EncodeValues(vs[1..])
  }

  function EncodeFunctions(fs: seq<FunctionDef>): seq<u8> {
    if fs == [] then [] else EncodeFunction(fs[0]) + EncodeFunctions(fs[1..])
  }

  function EncodeCode(code: seq<Instruction>): seq<u8> {
    if code == [] then [] else EncodeInstruction(code[0]) + EncodeCode(code[1..])
  }

  function Encode(c: Chunk): seq<u8> {
    MAGIC + (LittleEndian(ABI_VERSION, 4) + (EncodeBlob(c.name)
    + ((LittleEndian(|c.constants|, 4) + EncodeValues(c.constants))
    + ((LittleEndian(|c.functions|, 4) + EncodeFunctions(c.functions))
    + (LittleEndian(|c.code|, 4) + EncodeCode(c.code))))))
  }

  // ----- decoding -----

  /** A value and the position after it, or the first error. */
  type Parsed<T> = Result<(T, nat), FormatError>

  function Take(data: seq<u8>, pos: nat, n: nat): (r: Parsed<seq<u8>>)
    ensures r.Ok? ==> pos + n <= |data| && |r.value.0| == n && r.value.1 == pos + n
  {
    if SatSub(|data|, pos) < n || pos > |data| then Err(Truncated) else Ok((data[pos..pos + n], pos + n))
  }

  function ReadUint(data: seq<u8>, pos: nat, n: nat): (r: Parsed<nat>)
    ensures r.Ok? ==> r.value.1 == pos + n <= |data| && r.value.0 < Pow256(n)
  {
    var (bytes, pos') :- Take(data, pos, n);
    FromLittleEndianBound(bytes);
    Ok((FromLittleEndian(bytes), pos'))
  }

  function ReadU8(data: seq<u8>, pos: nat): (r: Parsed<u8>)
    ensures r.Ok? ==> r.value.1 == pos + 1 <= |data|
  {
    Widths();
    var (x, pos') :- ReadUint(data, pos, 1);
    Ok((x, pos'))
  }

  function ReadU32(data: seq<u8>, pos: nat): (r: Parsed<u32>)
    ensures r.Ok? ==> r.value.1 == pos + 4 <= |data|
  {
    Widths();
    var (x, pos') :- ReadUint(data, pos, 4);
    Ok((x, pos'))
  }

  function ReadU64(data: seq<u8>, pos: nat): (r: Parsed<u64>)
    ensures r.Ok? ==> r.value.1 == pos + 8 <= |data|
  {
    Widths();
    var (x, pos') :- ReadUint(data, pos, 8);
    Ok((x, pos'))
  }

  function ReadU128(data: seq<u8>, pos: nat): (r: Parsed<u128>)
    ensures r.Ok? ==> r.value.1 == pos + 16 <= |data|
  {
    Widths();
    var (x, pos') :- ReadUint(data, pos, 16);
    Ok((x, pos'))
  }

  function ReadU16(data: seq<u8>, pos: nat): (r: Parsed<u16>)
    ensures r.Ok? ==> r.value.1 == pos + 2 <= |data|
  {
    Widths();
    var (x, pos') :- ReadUint(data, pos, 2);
    Ok((x, pos'))
  }

  function ReadCount(data: seq<u8>, pos: nat, what: string): (r: Parsed<u32>)
    ensures r.Ok? ==> r.value.1 == pos + 4 <= |data| && r.value.0 <= MAX_ITEMS
  {
    var (n, pos') :- ReadU32(data, pos);
    if n > MAX_ITEMS then Err(LimitExceeded(what, n)) else Ok((n, pos'))
  }

  /** A length-prefixed byte string of at most `limit` bytes. */
  function ReadBlob(data: seq<u8>, pos: nat, what: string, limit: nat): (r: Parsed<seq<u8>>)
    ensures r.Ok? ==> pos < r.value.1 <= |data| && |r.value.0| <= limit
  {
    var (n, pos') :- ReadU32(data, pos);
    if n > limit then Err(LimitExceeded(what, n)) else Take(data, pos', n)
  }

  /** The same, which must also be UTF-8. */
  function ReadText(utf8: seq<u8> -> bool, data: seq<u8>, pos: nat, what: string, limit: nat): (r: Parsed<seq<u8>>)
    ensures r.Ok? ==> pos < r.value.1 <= |data| && |r.value.0| <= limit && utf8(r.value.0)
  {
    var (s, pos') :- ReadBlob(data, pos, what, limit);
    if !utf8(s) then Err(BadUtf8) else Ok((s, pos'))
  }

  function Gate(trust: Trust, kind: ConstantKind): Result<(), FormatError> {
    if trust.Untrusted? then Err(ForbiddenInModule(kind)) else Ok(())
  }

  function ReadValue(utf8: seq<u8> -> bool, data: seq<u8>, pos: nat, trust: Trust, depth: nat): (r: Parsed<Value>)
    ensures r.Ok? ==> pos < r.value.1 <= |data|
    decreases |data| - pos, 1
  {
    if depth > MAX_VALUE_DEPTH then Err(ValueTooNested)
    else
      var (tag, p) :- ReadU8(data, pos);
      ReadTagged(utf8, data, p, trust, depth, tag)
  }

  function ReadTagged(utf8: seq<u8> -> bool, data: seq<u8>, p: nat, trust: Trust, depth: nat,
                      tag: u8): (r: Parsed<Value>)
    ensures r.Ok? ==> p <= r.value.1 && (p <= |data| ==> r.value.1 <= |data|)
    decreases |data| - p, 2
  {
    match tag
    case 0 => Ok((Unit, p))
    case 1 =>
      var (b, p1) :- ReadU8(data, p);
      Ok((Bool(b != 0), p1))
    case 2 =>
      var (x, p1) :- ReadU64(data, p);
      Ok((Int(Wrap64(x)), p1))
    case 3 =>
      var (x, p1) :- ReadU64(data, p);
      Ok((Float(x), p1))
    case 4 =>
      var _ :- Gate(trust, ProcessId);
      var (x, p1) :- ReadU64(data, p);
      Ok((Pid(x), p1))
    case 5 =>
      var _ :- Gate(trust, EnvelopeKind);
      ReadHop(utf8, data, p, trust, depth)
    case 6 =>
      var _ :- Gate(trust, Capability);
      var (x, p1) :- ReadU128(data, p);
      Ok((Cap(x), p1))
    case 7 =>
      var (s, p1) :- ReadText(utf8, data, p, "str", MAX_BLOB);
      Ok((Str(s), p1))
    case 8 =>
      var (d, p1) :- ReadBlob(data, p, "bytes", MAX_BLOB);
      Ok((Bytes(d), p1))
    case _ => Err(UnknownValueTag(tag))
  }

  function ReadHop(utf8: seq<u8> -> bool, data: seq<u8>, pos: nat, trust: Trust, depth: nat): (r: Parsed<Value>)
    ensures r.Ok? ==> pos < r.value.1 <= |data|
    decreases |data| - pos, 0
  {
    var (sender, p1) :- ReadU64(data, pos);
    var (replyCap, p2) :- ReadU128(data, p1);
    var (requestId, p3) :- ReadU64(data, p2);
    var (tag, p4) :- ReadU16(data, p3);
    var (payload, p5) :- ReadValue(utf8, data, p4, trust, depth + 1);
    Ok((Hop(Message(sender, replyCap, requestId, tag, payload)), p5))
  }

  function ReadFunction(utf8: seq<u8> -> bool, data: seq<u8>, pos: nat): (r: Parsed<FunctionDef>)
    ensures r.Ok? ==> pos < r.value.1 <= |data|
  {
    var (name, p1) :- ReadText(utf8, data, pos, "name", MAX_NAME);
    var (entry, p2) :- ReadU32(data, p1);
    var (arity, p3) :- ReadU8(data, p2);
    var (numRegisters, p4) :- ReadU8(data, p3);
    Ok((FunctionDef(name, entry, arity, numRegisters), p4))
  }

  function ReadInstruction(data: seq<u8>, pos: nat, at: nat): (r: Parsed<Instruction>)
    ensures r.Ok? ==> pos < r.value.1 <= |data|
  {
    var (byte, p1) :- ReadU8(data, pos);
    if FromByte(byte).None? then Err(UnknownOpcode(at, byte))
    else
      var (a, p2) :- ReadU8(data, p1);
      var (b, p3) :- ReadU8(data, p2);
      var (c, p4) :- ReadU8(data, p3);
      var (imm, p5) :- ReadU32(data, p4);
      Ok((Instruction(FromByte(byte).value, a, b, c, Wrap32(imm)), p5))
  }

  function ReadValues(utf8: seq<u8> -> bool, data: seq<u8>, pos: nat, trust: Trust, n: nat): (r: Parsed<seq<Value>>)
    ensures r.Ok? ==> |r.value.0| == n && pos <= r.value.1 && (n > 0 ==> r.value.1 <= |data|)
    decreases n
  {
    if n == 0 then Ok(([], pos))
    else
      var (v, p1) :- ReadValue(utf8, data, pos, trust, 0);
      var (rest, p2) :- ReadValues(utf8, data, p1, trust, n - 1);
      Ok(([v] + rest, p2))
  }

  function ReadFunctions(utf8: seq<u8> -> bool, data: seq<u8>, pos: nat, n: nat): (r: Parsed<seq<FunctionDef>>)
    ensures r.Ok? ==> |r.value.0| == n && pos <= r.value.1 && (n > 0 ==> r.value.1 <= |data|)
    decreases n
  {
    if n == 0 then Ok(([], pos))
    else
      var (f, p1) :- ReadFunction(utf8, data, pos);
      var (rest, p2) :- ReadFunctions(utf8, data, p1, n - 1);
      Ok(([f] + rest, p2))
  }

  function ReadCode(data: seq<u8>, pos: nat, at: nat, n: nat): (r: Parsed<seq<Instruction>>)
    ensures r.Ok? ==> |r.value.0| == n && pos <= r.value.1 && (n > 0 ==> r.value.1 <= |data|)
    decreases n
  {
    if n == 0 then Ok(([], pos))
    else
      var (i, p1) :- ReadInstruction(data, pos, at);
      var (rest, p2) :- ReadCode(data, p1, at + 1, n - 1);
      Ok(([i] + rest, p2))
  }

  function ReadHeader(data: seq<u8>): (r: Parsed<()>)
    ensures r.Ok? ==> r.value.1 == 8 <= |data|
  {
    var (magic, p1) :- Take(data, 0, 4);
    if magic != MAGIC then Err(BadMagic(magic))
    else
      var (abi, p2) :- ReadU32(data, p1);
      if abi != ABI_VERSION then Err(UnsupportedAbi(abi)) else Ok(((), p2))
  }

  /** The part after the constants. */
  function ReadTables(utf8: seq<u8> -> bool, data: seq<u8>, pos: nat): (r: Parsed<(seq<FunctionDef>, seq<Instruction>)>)
    ensures r.Ok? ==> pos < r.value.1 <= |data|
  {
    var (nf, p4) :- ReadCount(data, pos, "functions");
    var (functions, p5) :- ReadFunctions(utf8, data, p4, nf);
    var (ni, p6) :- ReadCount(data, p5, "code");
    var (code, p7) :- ReadCode(data, p6, 0, ni);
    Ok(((functions, code), p7))
  }

  function DecodeAt(utf8: seq<u8> -> bool, data: seq<u8>, trust: Trust): (r: Parsed<Chunk>)
    ensures r.Ok? ==> r.value.1 <= |data|
  {
    var (_, p0) :- ReadHeader(data);
    var (name, p1) :- ReadText(utf8, data, p0, "name", MAX_NAME);
    var (nc, p2) :- ReadCount(data, p1, "constants");
    var (constants, p3) :- ReadValues(utf8, data, p2, trust, nc);
    var (tables, p7) :- ReadTables(utf8, data, p3);
    Ok((Chunk(name, constants, tables.1, tables.0), p7))
  }

  function DecodeWith(utf8: seq<u8> -> bool, data: seq<u8>, trust: Trust): Result<Chunk, FormatError> {
    var (c, _) :- DecodeAt(utf8, data, trust);
    Ok(c)
  }

  // ----- limits -----

  /** Nesting, blob lengths and UTF-8, as the decoder insists on them at nesting `depth`. */
  ghost predicate ValueFits(utf8: seq<u8> -> bool, v: Value, depth: nat) {
    && depth <= MAX_VALUE_DEPTH
    && match v
       case Hop(m) => ValueFits(utf8, m.payload, depth + 1)
       case Str(s) => |s| <= MAX_BLOB && utf8(s)
       case Bytes(d) => |d| <= MAX_BLOB
       case _ => true
  }

  ghost predicate NameFits(utf8: seq<u8> -> bool, name: seq<u8>) {
    |name| <= MAX_NAME && utf8(name)
  }

  ghost predicate WithinLimits(utf8: seq<u8> -> bool, c: Chunk) {
    && NameFits(utf8, c.name)
    && |c.constants| <= MAX_ITEMS && |c.functions| <= MAX_ITEMS && |c.code| <= MAX_ITEMS
    && (forall i :: 0 <= i < |c.constants| ==> ValueFits(utf8, c.constants[i], 0))
    && (forall i :: 0 <= i < |c.functions| ==> NameFits(utf8, c.functions[i].name))
  }

  /** What an untrusted module may not embed, first offender first. */
  function FirstForbidden(vs: seq<Value>, trust: Trust): (r: Option<ConstantKind>)
    ensures r.None? <==> forall i :: 0 <= i < |vs| ==> Forbidden(vs[i], trust).None?
  {
    if vs == [] then None
    else if Forbidden(vs[0], trust).Some? then Forbidden(vs[0], trust)
    else FirstForbidden(vs[1..], trust)
  }

  /** The kind named is that of the first constant with a capability or an identity in it. */
  lemma {:induction false} FirstForbiddenMeans(vs: seq<Value>, trust: Trust)
    returns (i: nat)
    ensures i <= |vs| && forall j :: 0 <= j < i ==> Harmless(vs[j], trust)
    ensures if i == |vs| then FirstForbidden(vs, trust).None?
            else
              && !Harmless(vs[i], trust)
              && FirstForbidden(vs, trust).Some? && Names(FirstForbidden(vs, trust).value, vs[i])
  {
    hide Harmless, Names, Forbidden;
    i := 0;
    if vs != [] {
      ForbiddenMeans(vs[0], trust);
      if Forbidden(vs[0], trust).None? {
        i := FirstForbiddenMeans(vs[1..], trust);
        assert forall j :: 0 <= j < i ==> vs[1..][j] == vs[j + 1];
        i := i + 1;
      }
    }
  }

  // ----- decoding what was encoded -----

  ghost predicate At(data: seq<u8>, pos: nat, bytes: seq<u8>) {
    pos + |bytes| <= |data| && data[pos..pos + |bytes|] == bytes
  }

  lemma AtParts(data: seq<u8>, pos: nat, a: seq<u8>, b: seq<u8>)
    requires At(data, pos, a + b)
    ensures At(data, pos, a) && At(data, pos + |a|, b)
  {
    var whole := data[pos..pos + |a + b|];
    assert data[pos..pos + |a|] == whole[..|a|] == a;
    assert data[pos + |a|..pos + |a| + |b|] == whole[|a|..] == b;
  }

  lemma UintAt(data: seq<u8>, pos: nat, x: nat, n: nat)
    requires x < Pow256(n) && At(data, pos, LittleEndian(x, n))
    ensures ReadUint(data, pos, n) == Ok((x, pos + n))
  {
    LittleEndianRoundTrip(x, n);
  }

  lemma U8At(data: seq<u8>, pos: nat, x: u8)
    requires At(data, pos, [x])
    ensures ReadU8(data, pos) == Ok((x, pos + 1))
  {
    Widths();
    assert LittleEndian(x, 1) == [x];
    UintAt(data, pos, x, 1);
  }

  lemma U16At(data: seq<u8>, pos: nat, x: u16)
    requires At(data, pos, LittleEndian(x, 2))
    ensures ReadU16(data, pos) == Ok((x, pos + 2))
  {
    Widths();
    UintAt(data, pos, x, 2);
  }

  lemma U32At(data: seq<u8>, pos: nat, x: u32)
    requires At(data, pos, LittleEndian(x, 4))
    ensures ReadU32(data, pos) == Ok((x, pos + 4))
  {
    Widths();
    UintAt(data, pos, x, 4);
  }

  lemma U64At(data: seq<u8>, pos: nat, x: u64)
    requires At(data, pos, LittleEndian(x, 8))
    ensures ReadU64(data, pos) == Ok((x, pos + 8))
  {
    Widths();
    UintAt(data, pos, x, 8);
  }

  lemma U128At(data: seq<u8>, pos: nat, x: u128)
    requires At(data, pos, LittleEndian(x, 16))
    ensures ReadU128(data, pos) == Ok((x, pos + 16))
  {
    Widths();
    UintAt(data, pos, x, 16);
  }

  lemma CountAt(data: seq<u8>, pos: nat, n: nat, what: string)
    requires n <= MAX_ITEMS && At(data, pos, LittleEndian(n, 4))
    ensures ReadCount(data, pos, what) == Ok((n, pos + 4))
  {
    U32At(data, pos, n);
  }

  lemma BlobAt(data: seq<u8>, pos: nat, b: seq<u8>, what: string, limit: nat)
    requires |b| <= limit < 0x1_0000_0000 && At(data, pos, EncodeBlob(b))
    ensures ReadBlob(data, pos, what, limit) == Ok((b, pos + |EncodeBlob(b)|))
  {
    hide LittleEndian, ReadU32;
    AtParts(data, pos, LittleEndian(|b|, 4), b);
    U32At(data, pos, |b|);
  }

  lemma HopAt(utf8: seq<u8> -> bool, data: seq<u8>, pos: nat, m: Message, trust: Trust, depth: nat)
    requires At(data, pos, EncodeValue(Hop(m))[1..])
    ensures var at := pos + 34;
            && At(data, at, EncodeValue(m.payload))
            && var r := ReadValue(utf8, data, at, trust, depth + 1);
               ReadHop(utf8, data, pos, trust, depth)
               == if r.Ok? then Ok((Hop(Message(m.sender, m.replyCap, m.requestId, m.tag, r.value.0)), r.value.1))
                  else Err(r.error)
  {
    hide LittleEndian, ReadU64, ReadU128, ReadU16, ReadValue;
    var e := EncodeValue(m.payload);
    var d1 := LittleEndian(m.tag, 2) + e;
    var d2 := LittleEndian(m.requestId, 8) + d1;
    var d3 := LittleEndian(m.replyCap, 16) + d2;
    assert EncodeValue(Hop(m))[1..] == LittleEndian(m.sender, 8) + d3;
    AtParts(data, pos, LittleEndian(m.sender, 8), d3);
    AtParts(data, pos + 8, LittleEndian(m.replyCap, 16), d2);
    AtParts(data, pos + 24, LittleEndian(m.requestId, 8), d1);
    AtParts(data, pos + 32, LittleEndian(m.tag, 2), e);
    U64At(data, pos, m.sender);
    U128At(data, pos + 8, m.replyCap);
    U64At(data, pos + 24, m.requestId);
    U16At(data, pos + 32, m.tag);
  }

  /** A value comes back, unless the module is untrusted and the value carries authority. */
  lemma {:induction false} ValueAt(utf8: seq<u8> -> bool, data: seq<u8>, pos: nat, v: Value, trust: Trust, depth: nat)
    requires At(data, pos, EncodeValue(v)) && ValueFits(utf8, v, depth)
    ensures ReadValue(utf8, data, pos, trust, depth)
            == match Forbidden(v, trust)
               case Some(kind) => Err(ForbiddenInModule(kind))
               case None => Ok((v, pos + |EncodeValue(v)|))
    decreases v
  {
    hide LittleEndian, EncodeBlob, ReadBlob, ReadU8, ReadU64, ReadU128, ReadHop, Wrap64;
    var e := EncodeValue(v);
    assert e == [e[0]] + e[1..];
    AtParts(data, pos, [e[0]], e[1..]);
    U8At(data, pos, e[0]);
    match v {
      case Unit =>
      case Bool(b) => U8At(data, pos + 1, if b then 1 else 0);
      case Int(i) =>
        U64At(data, pos + 1, Unsigned64(i));
        SignedRoundTrip(0, i);
      case Float(x) => U64At(data, pos + 1, x);
      case Pid(p) => U64At(data, pos + 1, p);
      case Hop(m) =>
        HopAt(utf8, data, pos + 1, m, trust, depth);
        ValueAt(utf8, data, pos + 35, m.payload, Trusted, depth + 1);
      case Cap(c) => U128At(data, pos + 1, c);
      case Str(s) => BlobAt(data, pos + 1, s, "str", MAX_BLOB);
      case Bytes(d) => BlobAt(data, pos + 1, d, "bytes", MAX_BLOB);
    }
  }

  lemma {:induction false} ValuesAt(utf8: seq<u8> -> bool, data: seq<u8>, pos: nat, vs: seq<Value>, trust: Trust)
    requires At(data, pos, EncodeValues(vs))
    requires forall i :: 0 <= i < |vs| ==> ValueFits(utf8, vs[i], 0)
    ensures ReadValues(utf8, data, pos, trust, |vs|)
            == match FirstForbidden(vs, trust)
               case Some(kind) => Err(ForbiddenInModule(kind))
               case None => Ok((vs, pos + |EncodeValues(vs)|))
    decreases |vs|
  {
    hide ReadValue, EncodeValue;
    if vs != [] {
      var e := EncodeValue(vs[0]);
      AtParts(data, pos, e, EncodeValues(vs[1..]));
      ValueAt(utf8, data, pos, vs[0], trust, 0);
      if Forbidden(vs[0], trust).None? {
        ValuesAt(utf8, data, pos + |e|, vs[1..], trust);
      }
      assert [vs[0]] + vs[1..] == vs;
    }
  }

  lemma FunctionAt(utf8: seq<u8> -> bool, data: seq<u8>, pos: nat, f: FunctionDef)
    requires At(data, pos, EncodeFunction(f)) && NameFits(utf8, f.name)
    ensures ReadFunction(utf8, data, pos) == Ok((f, pos + |EncodeFunction(f)|))
  {
    hide LittleEndian, EncodeBlob, ReadBlob, ReadU8, ReadU32;
    var p1 := pos + |EncodeBlob(f.name)|;
    AtParts(data, pos, EncodeBlob(f.name), LittleEndian(f.entry, 4) + [f.arity, f.numRegisters]);
    AtParts(data, p1, LittleEndian(f.entry, 4), [f.arity, f.numRegisters]);
    assert [f.arity, f.numRegisters] == [f.arity] + [f.numRegisters];
    AtParts(data, p1 + 4, [f.arity], [f.numRegisters]);
    BlobAt(data, pos, f.name, "name", MAX_NAME);
    U32At(data, p1, f.entry);
    U8At(data, p1 + 4, f.arity);
    U8At(data, p1 + 5, f.numRegisters);
  }

  lemma {:induction false} FunctionsAt(utf8: seq<u8> -> bool, data: seq<u8>, pos: nat, fs: seq<FunctionDef>)
    requires At(data, pos, EncodeFunctions(fs))
    requires forall i :: 0 <= i < |fs| ==> NameFits(utf8, fs[i].name)
    ensures ReadFunctions(utf8, data, pos, |fs|) == Ok((fs, pos + |EncodeFunctions(fs)|))
    decreases |fs|
  {
    hide ReadFunction, EncodeFunction;
    if fs != [] {
      var e := EncodeFunction(fs[0]);
      AtParts(data, pos, e, EncodeFunctions(fs[1..]));
      FunctionAt(utf8, data, pos, fs[0]);
      FunctionsAt(utf8, data, pos + |e|, fs[1..]);
      assert [fs[0]] + fs[1..] == fs;
    }
  }

  lemma InstructionAt(data: seq<u8>, pos: nat, i: Instruction, at: nat)
    requires At(data, pos, EncodeInstruction(i))
    ensures ReadInstruction(data, pos, at) == Ok((i, pos + 8))
  {
    hide LittleEndian, ReadU8, ReadU32, AsByte, FromByte, Wrap32;
    var imm := LittleEndian(Unsigned32(i.imm), 4);
    AtParts(data, pos, [AsByte(i.op), i.a, i.b, i.c], imm);
    assert [AsByte(i.op), i.a, i.b, i.c] == [AsByte(i.op)] + ([i.a] + ([i.b] + [i.c]));
    AtParts(data, pos, [AsByte(i.op)], [i.a] + ([i.b] + [i.c]));
    AtParts(data, pos + 1, [i.a], [i.b] + [i.c]);
    AtParts(data, pos + 2, [i.b], [i.c]);
    U8At(data, pos, AsByte(i.op));
    U8At(data, pos + 1, i.a);
    U8At(data, pos + 2, i.b);
    U8At(data, pos + 3, i.c);
    U32At(data, pos + 4, Unsigned32(i.imm));
    OpcodeBytesInvert(i.op, AsByte(i.op));
    SignedRoundTrip(i.imm, 0);
  }

  lemma {:induction false} CodeRoundTrip(data: seq<u8>, pos: nat, code: seq<Instruction>, at: nat)
    requires At(data, pos, EncodeCode(code))
    ensures ReadCode(data, pos, at, |code|) == Ok((code, pos + |EncodeCode(code)|))
    decreases |code|
  {
    hide ReadInstruction, AsByte;
    if code != [] {
      AtParts(data, pos, EncodeInstruction(code[0]), EncodeCode(code[1..]));
      InstructionAt(data, pos, code[0], at);
      CodeRoundTrip(data, pos + 8, code[1..], at + 1);
      assert [code[0]] + code[1..] == code;
    }
  }

  /** Where the parts of an encoded module lie. */
  lemma EncodedParts(data: seq<u8>, c: Chunk)
    requires At(data, 0, Encode(c))
    ensures At(data, 0, MAGIC) && At(data, 4, LittleEndian(ABI_VERSION, 4)) && At(data, 8, EncodeBlob(c.name))
    ensures var p1 := 8 + |EncodeBlob(c.name)|;
            var p3 := p1 + 4 + |EncodeValues(c.constants)|;
            var p5 := p3 + 4 + |EncodeFunctions(c.functions)|;
            && At(data, p1, LittleEndian(|c.constants|, 4)) && At(data, p1 + 4, EncodeValues(c.constants))
            && At(data, p3, LittleEndian(|c.functions|, 4)) && At(data, p3 + 4, EncodeFunctions(c.functions))
            && At(data, p5, LittleEndian(|c.code|, 4)) && At(data, p5 + 4, EncodeCode(c.code))
            && p5 + 4 + |EncodeCode(c.code)| == |Encode(c)|
  {
    hide LittleEndian, EncodeBlob, EncodeValues, EncodeFunctions, EncodeCode, At;
    var vs := LittleEndian(|c.constants|, 4) + EncodeValues(c.constants);
    var fs := LittleEndian(|c.functions|, 4) + EncodeFunctions(c.functions);
    var is_ := LittleEndian(|c.code|, 4) + EncodeCode(c.code);
    var p1 := 8 + |EncodeBlob(c.name)|;
    AtParts(data, 0, MAGIC, LittleEndian(ABI_VERSION, 4) + (EncodeBlob(c.name) + (vs + (fs + is_))));
    AtParts(data, 4, LittleEndian(ABI_VERSION, 4), EncodeBlob(c.name) + (vs + (fs + is_)));
    AtParts(data, 8, EncodeBlob(c.name), vs + (fs + is_));
    AtParts(data, p1, vs, fs + is_);
    AtParts(data, p1, LittleEndian(|c.constants|, 4), EncodeValues(c.constants));
    AtParts(data, p1 + |vs|, fs, is_);
    AtParts(data, p1 + |vs|, LittleEndian(|c.functions|, 4), EncodeFunctions(c.functions));
    AtParts(data, p1 + |vs| + |fs|, LittleEndian(|c.code|, 4), EncodeCode(c.code));
  }

  lemma HeaderAt(data: seq<u8>)
    requires At(data, 0, MAGIC) && At(data, 4, LittleEndian(ABI_VERSION, 4))
    ensures ReadHeader(data) == Ok(((), 8))
  {
    hide LittleEndian, ReadU32;
    U32At(data, 4, ABI_VERSION);
  }

  lemma NameAt(utf8: seq<u8> -> bool, data: seq<u8>, pos: nat, name: seq<u8>)
    requires At(data, pos, EncodeBlob(name)) && NameFits(utf8, name)
    ensures ReadText(utf8, data, pos, "name", MAX_NAME) == Ok((name, pos + |EncodeBlob(name)|))
  {
    hide EncodeBlob, ReadBlob;
    BlobAt(data, pos, name, "name", MAX_NAME);
  }

  /** Decoding an encoded module, with anything after it. */
  lemma DecodesEncoded(utf8: seq<u8> -> bool, data: seq<u8>, c: Chunk, trust: Trust)
    requires At(data, 0, Encode(c)) && WithinLimits(utf8, c)
    ensures DecodeAt(utf8, data, trust)
            == match FirstForbidden(c.constants, trust)
               case Some(kind) => Err(ForbiddenInModule(kind))
               case None => Ok((c, |Encode(c)|))
  {
    hide At, LittleEndian, Encode, EncodeBlob, EncodeValues, EncodeFunctions, EncodeCode, ValueFits, Forbidden,
         FirstForbidden;
    hide ReadHeader, ReadText, ReadCount, ReadValues, ReadFunctions, ReadCode;
    EncodedParts(data, c);
    HeaderAt(data);
    NameAt(utf8, data, 8, c.name);
    var p1 := 8 + |EncodeBlob(c.name)|;
    CountAt(data, p1, |c.constants|, "constants");
    ValuesAt(utf8, data, p1 + 4, c.constants, trust);
    var p3 := p1 + 4 + |EncodeValues(c.constants)|;
    CountAt(data, p3, |c.functions|, "functions");
    FunctionsAt(utf8, data, p3 + 4, c.functions);
    var p5 := p3 + 4 + |EncodeFunctions(c.functions)|;
    CountAt(data, p5, |c.code|, "code");
    CodeRoundTrip(data, p5 + 4, c.code, 0);
  }

  // ----- whatever decodes is within the limits -----

  lemma {:induction false} ReadValueFits(utf8: seq<u8> -> bool, data: seq<u8>, pos: nat, trust: Trust, depth: nat)
    requires ReadValue(utf8, data, pos, trust, depth).Ok?
    ensures var v := ReadValue(utf8, data, pos, trust, depth).value.0;
            ValueFits(utf8, v, depth) && Forbidden(v, trust).None?
    decreases |data| - pos
  {
    hide ReadU8, ReadU64, ReadU128, ReadBlob, ReadHop;
    var (tag, p) := ReadU8(data, pos).value;
    assert ReadTagged(utf8, data, p, trust, depth, tag).Ok?;
    if tag == 5 {
      HopPayload(utf8, data, p, trust, depth);
      ReadValueFits(utf8, data, p + 34, trust, depth + 1);
    }
  }

  lemma HopPayload(utf8: seq<u8> -> bool, data: seq<u8>, pos: nat, trust: Trust, depth: nat)
    requires ReadHop(utf8, data, pos, trust, depth).Ok?
    ensures var v := ReadHop(utf8, data, pos, trust, depth).value.0;
            && v.Hop?
            && ReadValue(utf8, data, pos + 34, trust, depth + 1).Ok?
            && v.msg.payload == ReadValue(utf8, data, pos + 34, trust, depth + 1).value.0
  {
    hide ReadU64, ReadU128, ReadU16, ReadValue;
  }

  lemma {:induction false} ReadValuesFit(utf8: seq<u8> -> bool, data: seq<u8>, pos: nat, trust: Trust, n: nat)
    requires ReadValues(utf8, data, pos, trust, n).Ok?
    ensures forall i :: 0 <= i < n ==>
              var v := ReadValues(utf8, data, pos, trust, n).value.0[i];
              ValueFits(utf8, v, 0) && Forbidden(v, trust).None?
    decreases n
  {
    hide ReadValue;
    if n > 0 {
      ReadValueFits(utf8, data, pos, trust, 0);
      ReadValuesFit(utf8, data, ReadValue(utf8, data, pos, trust, 0).value.1, trust, n - 1);
    }
  }

  lemma {:induction false} ReadFunctionsFit(utf8: seq<u8> -> bool, data: seq<u8>, pos: nat, n: nat)
    requires ReadFunctions(utf8, data, pos, n).Ok?
    ensures forall i :: 0 <= i < n ==> NameFits(utf8, ReadFunctions(utf8, data, pos, n).value.0[i].name)
    decreases n
  {
    hide ReadText, ReadU32, ReadU8;
    if n > 0 {
      ReadFunctionsFit(utf8, data, ReadFunction(utf8, data, pos).value.1, n - 1);
    }
  }

  lemma DecodedIsWithinLimits(utf8: seq<u8> -> bool, data: seq<u8>, trust: Trust)
    requires DecodeAt(utf8, data, trust).Ok?
    ensures var c := DecodeAt(utf8, data, trust).value.0;
            WithinLimits(utf8, c) && FirstForbidden(c.constants, trust).None?
  {
    hide ReadHeader, ReadText, ReadCount, ReadValues, ReadFunctions, ReadCode, ValueFits, Forbidden;
    var p1 := ReadText(utf8, data, 8, "name", MAX_NAME).value.1;
    var (nc, p2) := ReadCount(data, p1, "constants").value;
    ReadValuesFit(utf8, data, p2, trust, nc);
    var p3 := ReadValues(utf8, data, p2, trust, nc).value.1;
    var (nf, p4) := ReadCount(data, p3, "functions").value;
    ReadFunctionsFit(utf8, data, p4, nf);
  }

  /**
   The wire round trip, exactly: an encoded module followed by any bytes decodes to
   itself if and only if it is within the limits and, for an untrusted decode, no constant
   carries authority.
   */
  lemma WireRoundTrip(utf8: seq<u8> -> bool, c: Chunk, tail: seq<u8>, trust: Trust)
    ensures DecodeWith(utf8, Encode(c) + tail, trust) == Ok(c)
            <==> WithinLimits(utf8, c) && forall i :: 0 <= i < |c.constants| ==> Harmless(c.constants[i], trust)
  {
    hide Encode, DecodeAt, WithinLimits, Forbidden, Harmless;
    forall i | 0 <= i < |c.constants|
      ensures Forbidden(c.constants[i], trust).None? <==> Harmless(c.constants[i], trust)
    {
      ForbiddenMeans(c.constants[i], trust);
    }
    var data := Encode(c) + tail;
    assert data[0..|Encode(c)|] == Encode(c);
    if WithinLimits(utf8, c) {
      DecodesEncoded(utf8, data, c, trust);
    }
    if DecodeAt(utf8, data, trust).Ok? {
      DecodedIsWithinLimits(utf8, data, trust);
    }
  }

  /** No module is a prefix of another: within the limits, the encoding determines the module. */
  lemma EncodingIsInjective(utf8: seq<u8> -> bool, c: Chunk, d: Chunk, tail: seq<u8>)
    requires WithinLimits(utf8, c) && WithinLimits(utf8, d) && Encode(c) + tail == Encode(d)
    ensures c == d && tail == []
  {
    hide Encode, DecodeAt, WithinLimits;
    var data := Encode(d);
    assert data[0..|Encode(c)|] == Encode(c);
    DecodesEncoded(utf8, data, c, Trusted);
    DecodesEncoded(utf8, data, d, Trusted);
    NothingForbidden(c.constants);
    NothingForbidden(d.constants);
  }

  lemma NothingForbidden(vs: seq<Value>)
    ensures FirstForbidden(vs, Trusted).None?
  {
  }

  // ----- modules cut short -----

  /** What a reader makes of the first `k` bytes: the same, or `Truncated` if it needs more. */
  ghost predicate Cuts<T(!new)>(full: Parsed<T>, short: Parsed<T>, k: nat) {
    full.Ok? ==> short == if full.value.1 <= k then full else Err(Truncated)
  }

  lemma TakeCuts(data: seq<u8>, k: nat, pos: nat, n: nat)
    requires pos <= k <= |data|
    ensures Cuts(Take(data, pos, n), Take(data[..k], pos, n), k)
  {
    if pos + n <= k {
      assert data[..k][pos..pos + n] == data[pos..pos + n];
    }
  }

  lemma UintCuts(data: seq<u8>, k: nat, pos: nat)
    requires pos <= k <= |data|
    ensures Cuts(ReadU8(data, pos), ReadU8(data[..k], pos), k)
    ensures Cuts(ReadU16(data, pos), ReadU16(data[..k], pos), k)
    ensures Cuts(ReadU32(data, pos), ReadU32(data[..k], pos), k)
    ensures Cuts(ReadU64(data, pos), ReadU64(data[..k], pos), k)
    ensures Cuts(ReadU128(data, pos), ReadU128(data[..k], pos), k)
  {
    hide Take;
    TakeCuts(data, k, pos, 1);
    TakeCuts(data, k, pos, 2);
    TakeCuts(data, k, pos, 4);
    TakeCuts(data, k, pos, 8);
    TakeCuts(data, k, pos, 16);
  }

  lemma BlobCuts(utf8: seq<u8> -> bool, data: seq<u8>, k: nat, pos: nat, what: string, limit: nat)
    requires pos <= k <= |data|
    ensures Cuts(ReadCount(data, pos, what), ReadCount(data[..k], pos, what), k)
    ensures Cuts(ReadBlob(data, pos, what, limit), ReadBlob(data[..k], pos, what, limit), k)
    ensures Cuts(ReadText(utf8, data, pos, what, limit), ReadText(utf8, data[..k], pos, what, limit), k)
  {
    hide Take, ReadU32;
    UintCuts(data, k, pos);
    if ReadU32(data, pos).Ok? {
      var (n, p) := ReadU32(data, pos).value;
      if p <= k {
        TakeCuts(data, k, p, n);
      }
    }
  }

  lemma {:induction false} ValueCuts(utf8: seq<u8> -> bool, data: seq<u8>, k: nat, pos: nat, trust: Trust, depth: nat)
    requires pos <= k <= |data|
    ensures Cuts(ReadValue(utf8, data, pos, trust, depth), ReadValue(utf8, data[..k], pos, trust, depth), k)
    decreases |data| - pos, 1
  {
    hide ReadU8, ReadTagged;
    UintCuts(data, k, pos);
    if depth <= MAX_VALUE_DEPTH && ReadU8(data, pos).Ok? && pos < k {
      TaggedCuts(utf8, data, k, pos + 1, trust, depth, ReadU8(data, pos).value.0);
    }
  }

  lemma {:induction false} TaggedCuts(utf8: seq<u8> -> bool, data: seq<u8>, k: nat, p: nat, trust: Trust, depth: nat,
                                      tag: u8)
    requires p <= k <= |data|
    ensures Cuts(ReadTagged(utf8, data, p, trust, depth, tag), ReadTagged(utf8, data[..k], p, trust, depth, tag), k)
    decreases |data| - p, 2
  {
    hide ReadU8, ReadU64, ReadU128, ReadBlob, ReadText, ReadHop;
    UintCuts(data, k, p);
    match tag {
      case 5 => HopCuts(utf8, data, k, p, trust, depth);
      case 7 => BlobCuts(utf8, data, k, p, "str", MAX_BLOB);
      case 8 => BlobCuts(utf8, data, k, p, "bytes", MAX_BLOB);
      case _ =>
    }
  }

  lemma {:induction false} HopCuts(utf8: seq<u8> -> bool, data: seq<u8>, k: nat, pos: nat, trust: Trust, depth: nat)
    requires pos <= k <= |data|
    ensures Cuts(ReadHop(utf8, data, pos, trust, depth), ReadHop(utf8, data[..k], pos, trust, depth), k)
    decreases |data| - pos, 0
  {
    hide ReadU64, ReadU128, ReadU16, ReadValue;
    UintCuts(data, k, pos);
    if pos + 34 <= k {
      UintCuts(data, k, pos + 8);
      UintCuts(data, k, pos + 24);
      UintCuts(data, k, pos + 32);
      ValueCuts(utf8, data, k, pos + 34, trust, depth + 1);
    } else if pos + 8 <= k {
      UintCuts(data, k, pos + 8);
      if pos + 24 <= k {
        UintCuts(data, k, pos + 24);
        if pos + 32 <= k {
          UintCuts(data, k, pos + 32);
        }
      }
    }
  }

  lemma FunctionCuts(utf8: seq<u8> -> bool, data: seq<u8>, k: nat, pos: nat)
    requires pos <= k <= |data|
    ensures Cuts(ReadFunction(utf8, data, pos), ReadFunction(utf8, data[..k], pos), k)
  {
    hide ReadText, ReadU32, ReadU8;
    BlobCuts(utf8, data, k, pos, "name", MAX_NAME);
    var name := ReadText(utf8, data, pos, "name", MAX_NAME);
    if name.Ok? && name.value.1 <= k {
      var p := name.value.1;
      UintCuts(data, k, p);
      if p + 4 <= k {
        UintCuts(data, k, p + 4);
        if p + 5 <= k {
          UintCuts(data, k, p + 5);
        }
      }
    }
  }

  lemma InstructionCuts(data: seq<u8>, k: nat, pos: nat, at: nat)
    requires pos <= k <= |data|
    ensures Cuts(ReadInstruction(data, pos, at), ReadInstruction(data[..k], pos, at), k)
  {
    hide ReadU32, ReadU8, FromByte;
    UintCuts(data, k, pos);
    if pos + 1 <= k {
      UintCuts(data, k, pos + 1);
    }
    if pos + 2 <= k {
      UintCuts(data, k, pos + 2);
    }
    if pos + 3 <= k {
      UintCuts(data, k, pos + 3);
    }
    if pos + 4 <= k {
      UintCuts(data, k, pos + 4);
    }
  }

  lemma {:induction false} ValuesCut(utf8: seq<u8> -> bool, data: seq<u8>, k: nat, pos: nat, trust: Trust, n: nat)
    requires pos <= k <= |data|
    ensures Cuts(ReadValues(utf8, data, pos, trust, n), ReadValues(utf8, data[..k], pos, trust, n), k)
    decreases n
  {
    hide ReadValue;
    if n > 0 {
      ValueCuts(utf8, data, k, pos, trust, 0);
      var r := ReadValue(utf8, data, pos, trust, 0);
      if r.Ok? && r.value.1 <= k {
        ValuesCut(utf8, data, k, r.value.1, trust, n - 1);
      }
    }
  }

  lemma {:induction false} FunctionsCut(utf8: seq<u8> -> bool, data: seq<u8>, k: nat, pos: nat, n: nat)
    requires pos <= k <= |data|
    ensures Cuts(ReadFunctions(utf8, data, pos, n), ReadFunctions(utf8, data[..k], pos, n), k)
    decreases n
  {
    hide ReadFunction;
    if n > 0 {
      FunctionCuts(utf8, data, k, pos);
      var r := ReadFunction(utf8, data, pos);
      if r.Ok? && r.value.1 <= k {
        FunctionsCut(utf8, data, k, r.value.1, n - 1);
      }
    }
  }

  lemma {:induction false} CodeCut(data: seq<u8>, k: nat, pos: nat, at: nat, n: nat)
    requires pos <= k <= |data|
    ensures Cuts(ReadCode(data, pos, at, n), ReadCode(data[..k], pos, at, n), k)
    decreases n
  {
    hide ReadInstruction;
    if n > 0 {
      InstructionCuts(data, k, pos, at);
      var r := ReadInstruction(data, pos, at);
      if r.Ok? && r.value.1 <= k {
        CodeCut(data, k, r.value.1, at + 1, n - 1);
      }
    }
  }

  lemma HeaderCuts(data: seq<u8>, k: nat)
    requires k <= |data|
    ensures Cuts(ReadHeader(data), ReadHeader(data[..k]), k)
  {
    hide ReadU32;
    TakeCuts(data, k, 0, 4);
    if k >= 4 {
      UintCuts(data, k, 4);
    }
  }

  /** Decoding looks at nothing but the bytes it consumes, and misses every byte it lacks. */
  lemma ModuleCuts(utf8: seq<u8> -> bool, data: seq<u8>, k: nat, trust: Trust)
    requires k <= |data|
    ensures Cuts(DecodeAt(utf8, data, trust), DecodeAt(utf8, data[..k], trust), k)
  {
    hide ReadHeader, ReadText, ReadCount, ReadValues, ReadTables;
    HeaderCuts(data, k);
    if DecodeAt(utf8, data, trust).Ok? && 8 <= k {
      BlobCuts(utf8, data, k, 8, "name", MAX_NAME);
      var p1 := ReadText(utf8, data, 8, "name", MAX_NAME).value.1;
      if p1 <= k {
        BlobCuts(utf8, data, k, p1, "constants", 0);
        var (nc, p2) := ReadCount(data, p1, "constants").value;
        if p2 <= k {
          ValuesCut(utf8, data, k, p2, trust, nc);
          var p3 := ReadValues(utf8, data, p2, trust, nc).value.1;
          if p3 <= k {
            TablesCut(utf8, data, k, p3);
          }
        }
      }
    }
  }

  lemma TablesCut(utf8: seq<u8> -> bool, data: seq<u8>, k: nat, pos: nat)
    requires pos <= k <= |data|
    ensures Cuts(ReadTables(utf8, data, pos), ReadTables(utf8, data[..k], pos), k)
  {
    hide ReadCount, ReadFunctions, ReadCode;
    BlobCuts(utf8, data, k, pos, "functions", 0);
    var nf := ReadCount(data, pos, "functions");
    if nf.Ok? && nf.value.1 <= k {
      FunctionsCut(utf8, data, k, nf.value.1, nf.value.0);
      var fs := ReadFunctions(utf8, data, nf.value.1, nf.value.0);
      if fs.Ok? && fs.value.1 <= k {
        BlobCuts(utf8, data, k, fs.value.1, "code", 0);
        var ni := ReadCount(data, fs.value.1, "code");
        if ni.Ok? && ni.value.1 <= k {
          CodeCut(data, k, ni.value.1, 0, ni.value.0);
        }
      }
    }
  }

  /** A module cut short anywhere is reported as truncated, never decoded to something else. */
  lemma CutModuleIsTruncated(utf8: seq<u8> -> bool, c: Chunk, k: nat, trust: Trust)
    requires WithinLimits(utf8, c) && FirstForbidden(c.constants, trust).None? && k < |Encode(c)|
    ensures DecodeWith(utf8, Encode(c)[..k], trust) == Err(Truncated)
  {
    hide Encode, DecodeAt, WithinLimits;
    var data := Encode(c);
    assert data[0..|data|] == data;
    DecodesEncoded(utf8, data, c, trust);
    ModuleCuts(utf8, data, k, trust);
  }
}
