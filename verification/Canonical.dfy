/**
 Exactly which byte strings the module decoder accepts (crates/byteflow/src/bytecode/format.rs), and what
 it makes of them: the encodings of modules, except that any byte but zero stands for `true`.
 */
module Canonical {
  import opened Wrappers
  import opened Values
  import opened Bytecode
  import opened Format

  /** The bytes of a message before its payload, tag byte included. */
  function HopHead(m: Message): (bytes: seq<u8>)
    ensures |bytes| == 35
  {
    [5] + (LittleEndian(m.sender, 8)
    + (LittleEndian(m.replyCap, 16) + (LittleEndian(m.requestId, 8) + LittleEndian(m.tag, 2))))
  }

  /** The bytes at `pos` are the encoding of `v`, with any byte but zero for `true`. */
  ghost predicate Spelt(data: seq<u8>, pos: nat, v: Value)
    decreases v
  {
    match v
    case Bool(b) => pos + 2 <= |data| && data[pos] == 1 && (data[pos + 1] != 0 <==> b)
    case Hop(m) => At(data, pos, HopHead(m)) && Spelt(data, pos + 35, m.payload)
    case _ => At(data, pos, EncodeValue(v))
  }

  ghost predicate AllSpelt(data: seq<u8>, pos: nat, vs: seq<Value>)
    decreases |vs|
  {
    vs == [] || (Spelt(data, pos, vs[0]) && AllSpelt(data, pos + |EncodeValue(vs[0])|, vs[1..]))
  }

  /** The same for a module: magic, version, name, constants, functions and code, each list after its length. */
  ghost predicate ModuleSpelt(data: seq<u8>, c: Chunk) {
    var p1 := 8 + |EncodeBlob(c.name)|;
    var p3 := p1 + 4 + |EncodeValues(c.constants)|;
    var p5 := p3 + 4 + |EncodeFunctions(c.functions)|;
    && At(data, 0, MAGIC) && At(data, 4, LittleEndian(ABI_VERSION, 4)) && At(data, 8, EncodeBlob(c.name))
    && At(data, p1, LittleEndian(|c.constants|, 4)) && AllSpelt(data, p1 + 4, c.constants)
    && At(data, p3, LittleEndian(|c.functions|, 4)) && At(data, p3 + 4, EncodeFunctions(c.functions))
    && At(data, p5, LittleEndian(|c.code|, 4)) && At(data, p5 + 4, EncodeCode(c.code))
  }

  // ----- what was read is what stands there -----

  lemma {:induction false} LittleEndianInverts(bytes: seq<u8>)
    ensures LittleEndian(FromLittleEndian(bytes), |bytes|) == bytes
  {
    if bytes != [] {
      LittleEndianInverts(bytes[1..]);
      var rest := FromLittleEndian(bytes[1..]);
      assert (bytes[0] + 256 * rest) % 256 == bytes[0] && (bytes[0] + 256 * rest) / 256 == rest;
    }
  }

  lemma UintRead(data: seq<u8>, pos: nat, n: nat)
    requires ReadUint(data, pos, n).Ok?
    ensures At(data, pos, LittleEndian(ReadUint(data, pos, n).value.0, n))
  {
    LittleEndianInverts(data[pos..pos + n]);
  }

  lemma U8Read(data: seq<u8>, pos: nat)
    requires ReadU8(data, pos).Ok?
    ensures At(data, pos, [ReadU8(data, pos).value.0])
  {
    UintRead(data, pos, 1);
    assert LittleEndian(ReadU8(data, pos).value.0, 1) == [ReadU8(data, pos).value.0];
  }

  lemma Joined(data: seq<u8>, pos: nat, a: seq<u8>, b: seq<u8>)
    requires At(data, pos, a) && At(data, pos + |a|, b)
    ensures At(data, pos, a + b)
  {
    assert data[pos..pos + |a + b|] == data[pos..pos + |a|] + data[pos + |a|..pos + |a| + |b|];
  }

  lemma BlobRead(data: seq<u8>, pos: nat, what: string, limit: nat)
    requires ReadBlob(data, pos, what, limit).Ok?
    ensures var (b, p) := ReadBlob(data, pos, what, limit).value;
            At(data, pos, EncodeBlob(b)) && p == pos + |EncodeBlob(b)|
  {
    hide LittleEndian, ReadUint;
    UintRead(data, pos, 4);
    var b := ReadBlob(data, pos, what, limit).value.0;
    Joined(data, pos, LittleEndian(|b|, 4), b);
  }

  lemma SignedInverts(x: u32, y: u64)
    ensures Unsigned32(Wrap32(x)) == x && Unsigned64(Wrap64(y)) == y
  {
  }

  lemma HopRead(utf8: seq<u8> -> bool, data: seq<u8>, pos: nat, trust: Trust, depth: nat)
    requires pos > 0 && At(data, pos - 1, [5]) && ReadHop(utf8, data, pos, trust, depth).Ok?
    ensures var (v, p) := ReadHop(utf8, data, pos, trust, depth).value;
            && v.Hop? && At(data, pos - 1, HopHead(v.msg))
            && ReadValue(utf8, data, pos + 34, trust, depth + 1) == Ok((v.msg.payload, p))
  {
    hide LittleEndian, ReadUint, ReadValue, At;
    var m := ReadHop(utf8, data, pos, trust, depth).value.0.msg;
    UintRead(data, pos, 8);
    UintRead(data, pos + 8, 16);
    UintRead(data, pos + 24, 8);
    UintRead(data, pos + 32, 2);
    Joined(data, pos + 24, LittleEndian(m.requestId, 8), LittleEndian(m.tag, 2));
    var d := LittleEndian(m.requestId, 8) + LittleEndian(m.tag, 2);
    Joined(data, pos + 8, LittleEndian(m.replyCap, 16), d);
    Joined(data, pos, LittleEndian(m.sender, 8), LittleEndian(m.replyCap, 16) + d);
    Joined(data, pos - 1, [5], LittleEndian(m.sender, 8) + (LittleEndian(m.replyCap, 16) + d));
  }

  lemma NumberRead(utf8: seq<u8> -> bool, data: seq<u8>, pos: nat, trust: Trust, depth: nat, tag: u8)
    requires At(data, pos, [tag]) && tag in {2, 3, 4, 6} && ReadTagged(utf8, data, pos + 1, trust, depth, tag).Ok?
    ensures var (v, p) := ReadTagged(utf8, data, pos + 1, trust, depth, tag).value;
            Spelt(data, pos, v) && p == pos + |EncodeValue(v)|
  {
    hide LittleEndian, ReadUint, Wrap64, At, ReadHop;
    var v := ReadTagged(utf8, data, pos + 1, trust, depth, tag).value.0;
    UintRead(data, pos + 1, if tag == 6 then 16 else 8);
    if tag == 2 {
      SignedInverts(0, ReadU64(data, pos + 1).value.0);
    }
    Joined(data, pos, [tag], EncodeValue(v)[1..]);
    assert [tag] + EncodeValue(v)[1..] == EncodeValue(v);
  }

  lemma TextRead(utf8: seq<u8> -> bool, data: seq<u8>, pos: nat, trust: Trust, depth: nat, tag: u8)
    requires At(data, pos, [tag]) && tag in {7, 8} && ReadTagged(utf8, data, pos + 1, trust, depth, tag).Ok?
    ensures var (v, p) := ReadTagged(utf8, data, pos + 1, trust, depth, tag).value;
            Spelt(data, pos, v) && p == pos + |EncodeValue(v)|
  {
    hide EncodeBlob, ReadBlob, At, ReadHop;
    var v := ReadTagged(utf8, data, pos + 1, trust, depth, tag).value.0;
    BlobRead(data, pos + 1, if tag == 7 then "str" else "bytes", MAX_BLOB);
    Joined(data, pos, [tag], EncodeBlob(if tag == 7 then v.utf8 else v.data));
  }

  lemma BoolRead(utf8: seq<u8> -> bool, data: seq<u8>, pos: nat, trust: Trust, depth: nat)
    requires At(data, pos, [1]) && ReadTagged(utf8, data, pos + 1, trust, depth, 1).Ok?
    ensures var (v, p) := ReadTagged(utf8, data, pos + 1, trust, depth, 1).value;
            Spelt(data, pos, v) && p == pos + |EncodeValue(v)|
  {
    hide ReadU8;
    U8Read(data, pos + 1);
  }

  lemma {:induction false} ValueRead(utf8: seq<u8> -> bool, data: seq<u8>, pos: nat, trust: Trust, depth: nat)
    requires ReadValue(utf8, data, pos, trust, depth).Ok?
    ensures var (v, p) := ReadValue(utf8, data, pos, trust, depth).value;
            Spelt(data, pos, v) && p == pos + |EncodeValue(v)|
    decreases |data| - pos
  {
    hide LittleEndian, EncodeBlob, ReadU8, ReadU64, ReadU128, ReadBlob, ReadHop, Wrap64;
    U8Read(data, pos);
    var tag := ReadU8(data, pos).value.0;
    assert ReadValue(utf8, data, pos, trust, depth) == ReadTagged(utf8, data, pos + 1, trust, depth, tag);
    if tag == 1 {
      BoolRead(utf8, data, pos, trust, depth);
    } else if tag in {2, 3, 4, 6} {
      NumberRead(utf8, data, pos, trust, depth, tag);
    } else if tag in {7, 8} {
      TextRead(utf8, data, pos, trust, depth, tag);
    } else if tag == 5 {
      HopRead(utf8, data, pos + 1, trust, depth);
      ValueRead(utf8, data, pos + 35, trust, depth + 1);
    }
  }

  lemma {:induction false} ValuesRead(utf8: seq<u8> -> bool, data: seq<u8>, pos: nat, trust: Trust, n: nat)
    requires ReadValues(utf8, data, pos, trust, n).Ok?
    ensures var (vs, p) := ReadValues(utf8, data, pos, trust, n).value;
            AllSpelt(data, pos, vs) && p == pos + |EncodeValues(vs)|
    decreases n
  {
    hide ReadValue, EncodeValue, Spelt;
    if n > 0 {
      ValueRead(utf8, data, pos, trust, 0);
      ValuesRead(utf8, data, ReadValue(utf8, data, pos, trust, 0).value.1, trust, n - 1);
      var vs := ReadValues(utf8, data, pos, trust, n).value.0;
      assert vs[1..] == ReadValues(utf8, data, ReadValue(utf8, data, pos, trust, 0).value.1, trust, n - 1).value.0;
    }
  }

  lemma FunctionRead(utf8: seq<u8> -> bool, data: seq<u8>, pos: nat)
    requires ReadFunction(utf8, data, pos).Ok?
    ensures var (f, p) := ReadFunction(utf8, data, pos).value;
            At(data, pos, EncodeFunction(f)) && p == pos + |EncodeFunction(f)|
  {
    hide LittleEndian, EncodeBlob, ReadUint, ReadBlob, At;
    var f := ReadFunction(utf8, data, pos).value.0;
    BlobRead(data, pos, "name", MAX_NAME);
    var p1 := pos + |EncodeBlob(f.name)|;
    UintRead(data, p1, 4);
    U8Read(data, p1 + 4);
    U8Read(data, p1 + 5);
    Joined(data, p1 + 4, [f.arity], [f.numRegisters]);
    assert [f.arity] + [f.numRegisters] == [f.arity, f.numRegisters];
    Joined(data, p1, LittleEndian(f.entry, 4), [f.arity, f.numRegisters]);
    Joined(data, pos, EncodeBlob(f.name), LittleEndian(f.entry, 4) + [f.arity, f.numRegisters]);
  }

  lemma NothingAt(data: seq<u8>, pos: nat)
    requires pos <= |data|
    ensures At(data, pos, [])
  {
  }

  lemma {:induction false} FunctionsRead(utf8: seq<u8> -> bool, data: seq<u8>, pos: nat, n: nat)
    requires pos <= |data| && ReadFunctions(utf8, data, pos, n).Ok?
    ensures var (fs, p) := ReadFunctions(utf8, data, pos, n).value;
            At(data, pos, EncodeFunctions(fs)) && p == pos + |EncodeFunctions(fs)|
    decreases n
  {
    hide ReadFunction, EncodeFunction, At;
    if n == 0 {
      NothingAt(data, pos);
    } else {
      FunctionRead(utf8, data, pos);
      var (f, p1) := ReadFunction(utf8, data, pos).value;
      FunctionsRead(utf8, data, p1, n - 1);
      var rest := ReadFunctions(utf8, data, p1, n - 1).value.0;
      assert ([f] + rest)[1..] == rest;
      Joined(data, pos, EncodeFunction(f), EncodeFunctions(rest));
    }
  }

  lemma InstructionRead(data: seq<u8>, pos: nat, at: nat)
    requires ReadInstruction(data, pos, at).Ok?
    ensures var (i, p) := ReadInstruction(data, pos, at).value;
            At(data, pos, EncodeInstruction(i)) && p == pos + 8
  {
    hide LittleEndian, ReadUint, At, AsByte, FromByte, Wrap32;
    var i := ReadInstruction(data, pos, at).value.0;
    U8Read(data, pos);
    U8Read(data, pos + 1);
    U8Read(data, pos + 2);
    U8Read(data, pos + 3);
    UintRead(data, pos + 4, 4);
    SignedInverts(ReadU32(data, pos + 4).value.0, 0);
    OpcodeBytesInvert(i.op, ReadU8(data, pos).value.0);
    var op := [AsByte(i.op)];
    Joined(data, pos + 2, [i.b], [i.c]);
    Joined(data, pos + 1, [i.a], [i.b] + [i.c]);
    Joined(data, pos, op, [i.a] + ([i.b] + [i.c]));
    assert op + ([i.a] + ([i.b] + [i.c])) == [AsByte(i.op), i.a, i.b, i.c];
    Joined(data, pos, [AsByte(i.op), i.a, i.b, i.c], LittleEndian(Unsigned32(i.imm), 4));
  }

  lemma {:induction false} CodeRead(data: seq<u8>, pos: nat, at: nat, n: nat)
    requires pos <= |data| && ReadCode(data, pos, at, n).Ok?
    ensures var (code, p) := ReadCode(data, pos, at, n).value;
            At(data, pos, EncodeCode(code)) && p == pos + |EncodeCode(code)|
    decreases n
  {
    hide ReadInstruction, AsByte, At;
    if n == 0 {
      NothingAt(data, pos);
    } else {
      InstructionRead(data, pos, at);
      var i := ReadInstruction(data, pos, at).value.0;
      CodeRead(data, pos + 8, at + 1, n - 1);
      var rest := ReadCode(data, pos + 8, at + 1, n - 1).value.0;
      assert ([i] + rest)[1..] == rest;
      Joined(data, pos, EncodeInstruction(i), EncodeCode(rest));
    }
  }

  lemma CountRead(data: seq<u8>, pos: nat, what: string)
    requires ReadCount(data, pos, what).Ok?
    ensures At(data, pos, LittleEndian(ReadCount(data, pos, what).value.0, 4))
  {
    hide LittleEndian, ReadUint;
    UintRead(data, pos, 4);
  }

  lemma HeaderRead(data: seq<u8>)
    requires ReadHeader(data).Ok?
    ensures At(data, 0, MAGIC) && At(data, 4, LittleEndian(ABI_VERSION, 4))
  {
    hide LittleEndian, ReadUint;
    UintRead(data, 4, 4);
  }

  lemma ModuleRead(utf8: seq<u8> -> bool, data: seq<u8>, trust: Trust)
    requires DecodeAt(utf8, data, trust).Ok?
    ensures var (c, n) := DecodeAt(utf8, data, trust).value; ModuleSpelt(data, c) && n == |Encode(c)|
  {
    hide At, LittleEndian, EncodeBlob, EncodeValues, EncodeFunctions, EncodeCode, AllSpelt;
    hide ReadHeader, ReadBlob, ReadCount, ReadValues, ReadFunctions, ReadCode;
    var c := DecodeAt(utf8, data, trust).value.0;
    HeaderRead(data);
    BlobRead(data, 8, "name", MAX_NAME);
    var p1 := 8 + |EncodeBlob(c.name)|;
    CountRead(data, p1, "constants");
    ValuesRead(utf8, data, p1 + 4, trust, |c.constants|);
    var p3 := p1 + 4 + |EncodeValues(c.constants)|;
    CountRead(data, p3, "functions");
    FunctionsRead(utf8, data, p3 + 4, |c.functions|);
    var p5 := p3 + 4 + |EncodeFunctions(c.functions)|;
    CountRead(data, p5, "code");
    CodeRead(data, p5 + 4, 0, |c.code|);
  }

  // ----- what stands there is read -----

  lemma {:induction false} SpeltReads(utf8: seq<u8> -> bool, data: seq<u8>, pos: nat, v: Value, trust: Trust,
                                      depth: nat)
    requires Spelt(data, pos, v) && ValueFits(utf8, v, depth) && Forbidden(v, trust).None?
    ensures ReadValue(utf8, data, pos, trust, depth) == Ok((v, pos + |EncodeValue(v)|))
    decreases v
  {
    hide ReadValue, EncodeValue, At;
    if v.Bool? {
      BoolReads(utf8, data, pos, v, trust, depth);
    } else if v.Hop? {
      SpeltReads(utf8, data, pos + 35, v.msg.payload, trust, depth + 1);
      HopReads(utf8, data, pos, v.msg, trust, depth);
    } else {
      ValueAt(utf8, data, pos, v, trust, depth);
    }
  }

  lemma BoolReads(utf8: seq<u8> -> bool, data: seq<u8>, pos: nat, v: Value, trust: Trust, depth: nat)
    requires v.Bool? && Spelt(data, pos, v) && ValueFits(utf8, v, depth)
    ensures ReadValue(utf8, data, pos, trust, depth) == Ok((v, pos + |EncodeValue(v)|))
  {
    hide ReadU8;
    U8At(data, pos, 1);
    U8At(data, pos + 1, data[pos + 1]);
  }

  lemma HopReads(utf8: seq<u8> -> bool, data: seq<u8>, pos: nat, m: Message, trust: Trust, depth: nat)
    requires At(data, pos, HopHead(m)) && depth <= MAX_VALUE_DEPTH && Forbidden(Hop(m), trust).None?
    requires ReadValue(utf8, data, pos + 35, trust, depth + 1) == Ok((m.payload, pos + 35 + |EncodeValue(m.payload)|))
    ensures ReadValue(utf8, data, pos, trust, depth) == Ok((Hop(m), pos + |EncodeValue(Hop(m))|))
  {
    hide LittleEndian, ReadU8, ReadU64, ReadU128, ReadU16;
    var d1 := LittleEndian(m.requestId, 8) + LittleEndian(m.tag, 2);
    var d2 := LittleEndian(m.replyCap, 16) + d1;
    AtParts(data, pos, [5], LittleEndian(m.sender, 8) + d2);
    AtParts(data, pos + 1, LittleEndian(m.sender, 8), d2);
    AtParts(data, pos + 9, LittleEndian(m.replyCap, 16), d1);
    AtParts(data, pos + 25, LittleEndian(m.requestId, 8), LittleEndian(m.tag, 2));
    U8At(data, pos, 5);
    U64At(data, pos + 1, m.sender);
    U128At(data, pos + 9, m.replyCap);
    U64At(data, pos + 25, m.requestId);
    U16At(data, pos + 33, m.tag);
    assert ReadHop(utf8, data, pos + 1, trust, depth) == Ok((Hop(m), pos + 35 + |EncodeValue(m.payload)|));
  }

  lemma {:induction false} AllSpeltRead(utf8: seq<u8> -> bool, data: seq<u8>, pos: nat, vs: seq<Value>, trust: Trust)
    requires AllSpelt(data, pos, vs) && FirstForbidden(vs, trust).None?
    requires forall i :: 0 <= i < |vs| ==> ValueFits(utf8, vs[i], 0)
    ensures ReadValues(utf8, data, pos, trust, |vs|) == Ok((vs, pos + |EncodeValues(vs)|))
    decreases |vs|
  {
    hide ReadValue, EncodeValue, Spelt, Forbidden;
    if vs != [] {
      SpeltReads(utf8, data, pos, vs[0], trust, 0);
      AllSpeltRead(utf8, data, pos + |EncodeValue(vs[0])|, vs[1..], trust);
      assert [vs[0]] + vs[1..] == vs;
    }
  }

  lemma ModuleReads(utf8: seq<u8> -> bool, data: seq<u8>, c: Chunk, trust: Trust)
    requires ModuleSpelt(data, c) && WithinLimits(utf8, c) && FirstForbidden(c.constants, trust).None?
    ensures DecodeAt(utf8, data, trust) == Ok((c, |Encode(c)|))
  {
    hide At, LittleEndian, EncodeBlob, EncodeValues, EncodeFunctions, EncodeCode, ValueFits, Forbidden, AllSpelt,
         FirstForbidden;
    hide ReadHeader, ReadText, ReadCount, ReadValues, ReadFunctions, ReadCode;
    HeaderAt(data);
    NameAt(utf8, data, 8, c.name);
    var p1 := 8 + |EncodeBlob(c.name)|;
    CountAt(data, p1, |c.constants|, "constants");
    AllSpeltRead(utf8, data, p1 + 4, c.constants, trust);
    var p3 := p1 + 4 + |EncodeValues(c.constants)|;
    CountAt(data, p3, |c.functions|, "functions");
    FunctionsAt(utf8, data, p3 + 4, c.functions);
    var p5 := p3 + 4 + |EncodeFunctions(c.functions)|;
    CountAt(data, p5, |c.code|, "code");
    CodeRoundTrip(data, p5 + 4, c.code, 0);
  }

  /**
   The decoder, exactly: of any bytes it makes `c` and stops after `n` of them if and only if they begin
   with a spelling of `c`, `n` bytes long, that is within the limits and, for an untrusted decode, holds
   no authority.
   */
  lemma DecodesIffSpelt(utf8: seq<u8> -> bool, data: seq<u8>, c: Chunk, n: nat, trust: Trust)
    ensures DecodeAt(utf8, data, trust) == Ok((c, n))
            <==> && ModuleSpelt(data, c) && n == |Encode(c)| && WithinLimits(utf8, c)
                 && forall i :: 0 <= i < |c.constants| ==> Harmless(c.constants[i], trust)
  {
    hide ModuleSpelt, DecodeAt, Encode, WithinLimits, Forbidden, Harmless;
    forall i | 0 <= i < |c.constants|
      ensures Forbidden(c.constants[i], trust).None? <==> Harmless(c.constants[i], trust)
    {
      ForbiddenMeans(c.constants[i], trust);
    }
    if DecodeAt(utf8, data, trust) == Ok((c, n)) {
      ModuleRead(utf8, data, trust);
      DecodedIsWithinLimits(utf8, data, trust);
    } else if ModuleSpelt(data, c) && WithinLimits(utf8, c) && FirstForbidden(c.constants, trust).None? {
      ModuleReads(utf8, data, c, trust);
    }
  }

  // ----- byte for byte -----

  function Repeat(byte: u8, n: nat): (bytes: seq<u8>)
    ensures |bytes| == n
  {
    if n == 0 then [] else [byte] + Repeat(byte, n - 1)
  }

  lemma {:induction false} LowestFirst(x: u8, n: nat)
    ensures LittleEndian(x, n + 1) == [x] + Repeat(0, n)
  {
    if n > 0 {
      LowestFirst(0, n - 1);
    }
  }

  lemma {:induction false} AllOnes(n: nat)
    ensures Pow256(n) > 0 && LittleEndian(Pow256(n) - 1, n) == Repeat(255, n)
  {
    if n > 0 {
      AllOnes(n - 1);
      assert (Pow256(n) - 1) % 256 == 255 && (Pow256(n) - 1) / 256 == Pow256(n - 1) - 1;
    }
  }

  lemma MinusTwo()
    ensures LittleEndian(Unsigned64(-2), 8) == [254] + Repeat(255, 7)
    ensures LittleEndian(Unsigned32(-2), 4) == [254] + Repeat(255, 3)
  {
    AllOnes(7);
    AllOnes(3);
    Widths();
    assert Pow256(8) == 256 * Pow256(7) && Pow256(4) == 256 * Pow256(3);
  }

  /** A value of each kind. */
  lemma ValueBytes()
    ensures EncodeValue(Unit) == [0] && EncodeValue(Bool(true)) == [1, 1] && EncodeValue(Bool(false)) == [1, 0]
    ensures EncodeValue(Int(-2)) == [2, 254] + Repeat(255, 7)
    ensures EncodeValue(Float(3)) == [3, 3] + Repeat(0, 7) && EncodeValue(Pid(4)) == [4, 4] + Repeat(0, 7)
    ensures EncodeValue(Cap(6)) == [6, 6] + Repeat(0, 15)
    ensures EncodeValue(Str([65, 66])) == [7, 2] + Repeat(0, 3) + [65, 66]
    ensures EncodeValue(Bytes([9])) == [8, 1] + Repeat(0, 3) + [9]
  {
    hide LittleEndian, Repeat;
    MinusTwo();
    LowestFirst(3, 7);
    LowestFirst(4, 7);
    LowestFirst(6, 15);
    LowestFirst(2, 3);
    LowestFirst(1, 3);
  }

  /** A message: sender, reply address, request id, tag, payload. */
  lemma MessageBytes()
    ensures EncodeValue(Hop(Message(1, 2, 3, 4, Unit)))
            == [5] + ([1] + Repeat(0, 7)) + ([2] + Repeat(0, 15)) + ([3] + Repeat(0, 7)) + ([4] + Repeat(0, 1)) + [0]
  {
    hide LittleEndian, Repeat;
    LowestFirst(1, 7);
    LowestFirst(2, 15);
    LowestFirst(3, 7);
    LowestFirst(4, 1);
    assert EncodeValue(Unit) == [0];
  }

  /** A module: magic, version, name, a constant, a function, an instruction. */
  lemma ModuleBytes()
    ensures Encode(Chunk([77], [Unit], [Instruction(Jump, 1, 2, 3, -2)], [FunctionDef([70], 0, 4, 5)]))
            == [66, 70, 86, 48] + (([5] + Repeat(0, 3)) + (([1] + Repeat(0, 3) + [77])
               + (([1] + Repeat(0, 3) + [0])
               + (([1] + Repeat(0, 3) + ([1] + Repeat(0, 3) + [70] + ([0] + Repeat(0, 3) + [4, 5])))
               + ([1] + Repeat(0, 3) + ([32, 1, 2, 3] + ([254] + Repeat(255, 3))))))))
  {
    hide LittleEndian, Repeat;
    MinusTwo();
    LowestFirst(0, 3);
    LowestFirst(1, 3);
    LowestFirst(5, 3);
    var f := FunctionDef([70], 0, 4, 5);
    var i := Instruction(Jump, 1, 2, 3, -2);
    assert EncodeValues([Unit]) == [0];
    assert EncodeFunctions([f]) == EncodeFunction(f);
    assert EncodeCode([i]) == EncodeInstruction(i);
  }
}
