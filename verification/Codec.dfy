/**
 The encoder and decoder as the code has them (crates/byteflow/src/bytecode/format.rs):
 a buffer that bytes are pushed onto, a reader that advances a position, and loops that
 fill vectors; each is proved to compute the format of module `Format`.
 */
module Codec {
  import opened Wrappers
  import opened Values
  import opened Bytecode
  import opened Format

  class Writer {
    var out: seq<u8>

    constructor ()
      ensures out == []
    {
      out := [];
    }

    method PutBytes(bytes: seq<u8>)
      modifies this
      ensures out == old(out) + bytes
    {
      out := out + bytes;
    }

    method PutBlob(bytes: seq<u8>)
      modifies this
      ensures out == old(out) + EncodeBlob(bytes)
    {
      PutBytes(LittleEndian(|bytes|, 4));
      PutBytes(bytes);
    }

    method PutEnvelope(m: Message)
      modifies this
      ensures forall payload :: out + payload
                == old(out) + (LittleEndian(m.sender, 8) + (LittleEndian(m.replyCap, 16)
                              + (LittleEndian(m.requestId, 8) + (LittleEndian(m.tag, 2) + payload))))
    {
      hide LittleEndian;
      PutBytes(LittleEndian(m.sender, 8));
      PutBytes(LittleEndian(m.replyCap, 16));
      PutBytes(LittleEndian(m.requestId, 8));
      PutBytes(LittleEndian(m.tag, 2));
    }

    method PutTagged(tag: u8, bytes: seq<u8>)
      modifies this
      ensures out == old(out) + ([tag] + bytes)
    {
      PutBytes([tag]);
      PutBytes(bytes);
    }

    method PutLong(tag: u8, bytes: seq<u8>)
      modifies this
      ensures out == old(out) + ([tag] + EncodeBlob(bytes))
    {
      hide EncodeBlob;
      PutBytes([tag]);
      PutBlob(bytes);
    }

    method PutValue(v: Value)
      modifies this
      ensures out == old(out) + EncodeValue(v)
      decreases v
    {
      hide LittleEndian, EncodeBlob;
      match v {
        case Unit => PutBytes([0]);
        case Bool(b) => PutBytes([1, if b then 1 else 0]);
        case Int(i) => PutTagged(2, LittleEndian(Unsigned64(i), 8));
        case Float(x) => PutTagged(3, LittleEndian(x, 8));
        case Pid(p) => PutTagged(4, LittleEndian(p, 8));
        case Hop(m) =>
          PutBytes([5]);
          PutEnvelope(m);
          PutValue(m.payload);
        case Cap(c) => PutTagged(6, LittleEndian(c, 16));
        case Str(s) => PutLong(7, s);
        case Bytes(d) => PutLong(8, d);
      }
    }

    method PutConstants(vs: seq<Value>)
      modifies this
      ensures out == old(out) + (LittleEndian(|vs|, 4) + EncodeValues(vs))
    {
      hide EncodeValue, LittleEndian;
      PutBytes(LittleEndian(|vs|, 4));
      var i := 0;
      while i < |vs|
        invariant 0 <= i <= |vs|
        invariant out + EncodeValues(vs[i..]) == old(out) + (LittleEndian(|vs|, 4) + EncodeValues(vs))
      {
        PutValue(vs[i]);
        assert vs[i..][1..] == vs[i + 1..];
        i := i + 1;
      }
    }

    method PutFunctions(fs: seq<FunctionDef>)
      modifies this
      ensures out == old(out) + (LittleEndian(|fs|, 4) + EncodeFunctions(fs))
    {
      hide EncodeBlob, LittleEndian;
      PutBytes(LittleEndian(|fs|, 4));
      var i := 0;
      while i < |fs|
        invariant 0 <= i <= |fs|
        invariant out + EncodeFunctions(fs[i..]) == old(out) + (LittleEndian(|fs|, 4) + EncodeFunctions(fs))
      {
        ghost var before := out;
        PutBlob(fs[i].name);
        PutBytes(LittleEndian(fs[i].entry, 4));
        PutBytes([fs[i].arity]);
        PutBytes([fs[i].numRegisters]);
        assert out == before + EncodeFunction(fs[i]);
        assert fs[i..][1..] == fs[i + 1..];
        i := i + 1;
      }
    }

    method PutCode(code: seq<Instruction>)
      modifies this
      ensures out == old(out) + (LittleEndian(|code|, 4) + EncodeCode(code))
    {
      hide AsByte, LittleEndian;
      PutBytes(LittleEndian(|code|, 4));
      var i := 0;
      while i < |code|
        invariant 0 <= i <= |code|
        invariant out + EncodeCode(code[i..]) == old(out) + (LittleEndian(|code|, 4) + EncodeCode(code))
      {
        ghost var before := out;
        PutBytes([AsByte(code[i].op), code[i].a, code[i].b, code[i].c]);
        PutBytes(LittleEndian(Unsigned32(code[i].imm), 4));
        assert out == before + EncodeInstruction(code[i]);
        assert code[i..][1..] == code[i + 1..];
        i := i + 1;
      }
    }
  }

  /** `encode`. */
  method EncodeChunk(c: Chunk) returns (bytes: seq<u8>)
    ensures bytes == Encode(c)
  {
    hide LittleEndian, EncodeBlob, EncodeValues, EncodeFunctions, EncodeCode;
    var w := new Writer();
    w.PutBytes(MAGIC);
    w.PutBytes(LittleEndian(ABI_VERSION, 4));
    w.PutBlob(c.name);
    w.PutConstants(c.constants);
    w.PutFunctions(c.functions);
    w.PutCode(c.code);
    bytes := w.out;
  }

  /** Items read so far, followed by what reading the rest gives. */
  ghost function Joined<T>(items: seq<T>, rest: Parsed<seq<T>>): Parsed<seq<T>> {
    match rest case Ok(p) => Ok((items + p.0, p.1)) case Err(e) => Err(e)
  }

  class Reader {
    const data: seq<u8>
    const utf8: seq<u8> -> bool
    var pos: nat

    /** The reader is never past the end of its input. */
    ghost predicate Valid()
      reads this
    {
      pos <= |data|
    }

    /** The reader returned what parsing returns, and stands where parsing stops. */
    ghost predicate Got<T(!new)>(r: Result<T, FormatError>, spec: Parsed<T>)
      reads this
    {
      && Valid()
      && match spec case Ok(p) => r == Ok(p.0) && pos == p.1 case Err(e) => r == Err(e)
    }

    constructor (data: seq<u8>, utf8: seq<u8> -> bool)
      ensures Valid() && this.data == data && this.utf8 == utf8 && pos == 0
    {
      this.data, this.utf8, pos := data, utf8, 0;
    }

    method TakeBytes(n: nat) returns (r: Result<seq<u8>, FormatError>)
      requires Valid()
      modifies this
      ensures Got(r, Take(data, old(pos), n))
    {
      if |data| - pos < n {
        return Err(Truncated);
      }
      r := Ok(data[pos..pos + n]);
      pos := pos + n;
    }

    method Byte() returns (r: Result<u8, FormatError>)
      requires Valid()
      modifies this
      ensures Got(r, ReadU8(data, old(pos)))
    {
      var b :- TakeBytes(1);
      Widths();
      FromLittleEndianBound(b);
      return Ok(FromLittleEndian(b));
    }

    method Word16() returns (r: Result<u16, FormatError>)
      requires Valid()
      modifies this
      ensures Got(r, ReadU16(data, old(pos)))
    {
      var b :- TakeBytes(2);
      Widths();
      FromLittleEndianBound(b);
      return Ok(FromLittleEndian(b));
    }

    method Word32() returns (r: Result<u32, FormatError>)
      requires Valid()
      modifies this
      ensures Got(r, ReadU32(data, old(pos)))
    {
      var b :- TakeBytes(4);
      Widths();
      FromLittleEndianBound(b);
      return Ok(FromLittleEndian(b));
    }

    method Word64() returns (r: Result<u64, FormatError>)
      requires Valid()
      modifies this
      ensures Got(r, ReadU64(data, old(pos)))
    {
      var b :- TakeBytes(8);
      Widths();
      FromLittleEndianBound(b);
      return Ok(FromLittleEndian(b));
    }

    method Word128() returns (r: Result<u128, FormatError>)
      requires Valid()
      modifies this
      ensures Got(r, ReadU128(data, old(pos)))
    {
      var b :- TakeBytes(16);
      Widths();
      FromLittleEndianBound(b);
      return Ok(FromLittleEndian(b));
    }

    method Count(what: string) returns (r: Result<u32, FormatError>)
      requires Valid()
      modifies this
      ensures Got(r, ReadCount(data, old(pos), what))
    {
      hide ReadU32;
      var n :- Word32();
      if n > MAX_ITEMS {
        return Err(LimitExceeded(what, n));
      }
      return Ok(n);
    }

    method Blob(what: string, limit: nat) returns (r: Result<seq<u8>, FormatError>)
      requires Valid()
      modifies this
      ensures Got(r, ReadBlob(data, old(pos), what, limit))
    {
      hide ReadU32, Take;
      var n :- Word32();
      if n > limit {
        return Err(LimitExceeded(what, n));
      }
      r := TakeBytes(n);
    }

    method Text(what: string, limit: nat) returns (r: Result<seq<u8>, FormatError>)
      requires Valid()
      modifies this
      ensures Got(r, ReadText(utf8, data, old(pos), what, limit))
    {
      hide ReadBlob;
      var s :- Blob(what, limit);
      if !utf8(s) {
        return Err(BadUtf8);
      }
      return Ok(s);
    }

    method ValueAtDepth(trust: Trust, depth: nat) returns (r: Result<Value, FormatError>)
      requires Valid()
      modifies this
      ensures Got(r, ReadValue(utf8, data, old(pos), trust, depth))
      decreases |data| - pos, 1
    {
      hide ReadU8, ReadTagged;
      if depth > MAX_VALUE_DEPTH {
        return Err(ValueTooNested);
      }
      var tag :- Byte();
      r := Tagged(trust, depth, tag);
    }

    method Tagged(trust: Trust, depth: nat, tag: u8) returns (r: Result<Value, FormatError>)
      requires Valid()
      modifies this
      ensures Got(r, ReadTagged(utf8, data, old(pos), trust, depth, tag))
      decreases |data| - pos, 2
    {
      hide ReadU8, ReadU64, ReadU128, ReadBlob, ReadText, ReadHop;
      match tag {
        case 0 => return Ok(Unit);
        case 1 =>
          var b :- Byte();
          return Ok(Bool(b != 0));
        case 2 =>
          var x :- Word64();
          return Ok(Int(Wrap64(x)));
        case 3 =>
          var x :- Word64();
          return Ok(Float(x));
        case 4 =>
          var _ :- Gate(trust, ProcessId);
          var x :- Word64();
          return Ok(Pid(x));
        case 5 =>
          var _ :- Gate(trust, EnvelopeKind);
          r := Envelope(trust, depth);
        case 6 =>
          var _ :- Gate(trust, Capability);
          var x :- Word128();
          return Ok(Cap(x));
        case 7 =>
          var s :- Text("str", MAX_BLOB);
          return Ok(Str(s));
        case 8 =>
          var d :- Blob("bytes", MAX_BLOB);
          return Ok(Bytes(d));
        case _ => return Err(UnknownValueTag(tag));
      }
    }

    method Envelope(trust: Trust, depth: nat) returns (r: Result<Value, FormatError>)
      requires Valid()
      modifies this
      ensures Got(r, ReadHop(utf8, data, old(pos), trust, depth))
      decreases |data| - pos, 0
    {
      hide ReadU64, ReadU128, ReadU16, ReadValue;
      var sender :- Word64();
      var replyCap :- Word128();
      var requestId :- Word64();
      var tag :- Word16();
      var payload :- ValueAtDepth(trust, depth + 1);
      return Ok(Hop(Message(sender, replyCap, requestId, tag, payload)));
    }

    method Constants(trust: Trust, n: nat) returns (r: Result<seq<Value>, FormatError>)
      requires Valid()
      modifies this
      ensures Got(r, ReadValues(utf8, data, old(pos), trust, n))
    {
      hide ReadValue;
      var items, i := [], 0;
      ghost var spec := ReadValues(utf8, data, pos, trust, n);
      NothingJoined(spec);
      while i < n
        invariant 0 <= i <= n && Valid()
        invariant spec == Joined(items, ReadValues(utf8, data, pos, trust, n - i))
      {
        var v :- ValueAtDepth(trust, 0);
        JoinedOne(items, v, ReadValues(utf8, data, pos, trust, n - i - 1));
        items, i := items + [v], i + 1;
      }
      assert items + [] == items;
      return Ok(items);
    }

    method FunctionEntry() returns (r: Result<FunctionDef, FormatError>)
      requires Valid()
      modifies this
      ensures Got(r, ReadFunction(utf8, data, old(pos)))
    {
      hide ReadText, ReadU32, ReadU8;
      var name :- Text("name", MAX_NAME);
      var entry :- Word32();
      var arity :- Byte();
      var numRegisters :- Byte();
      return Ok(FunctionDef(name, entry, arity, numRegisters));
    }

    method Functions(n: nat) returns (r: Result<seq<FunctionDef>, FormatError>)
      requires Valid()
      modifies this
      ensures Got(r, ReadFunctions(utf8, data, old(pos), n))
    {
      hide ReadFunction;
      var items, i := [], 0;
      ghost var spec := ReadFunctions(utf8, data, pos, n);
      NothingJoined(spec);
      while i < n
        invariant 0 <= i <= n && Valid()
        invariant spec == Joined(items, ReadFunctions(utf8, data, pos, n - i))
      {
        var f :- FunctionEntry();
        JoinedOne(items, f, ReadFunctions(utf8, data, pos, n - i - 1));
        items, i := items + [f], i + 1;
      }
      assert items + [] == items;
      return Ok(items);
    }

    method OneInstruction(at: nat) returns (r: Result<Instruction, FormatError>)
      requires Valid()
      modifies this
      ensures Got(r, ReadInstruction(data, old(pos), at))
    {
      hide ReadU32, ReadU8, FromByte;
      var byte :- Byte();
      var op := FromByte(byte);
      if op.None? {
        return Err(UnknownOpcode(at, byte));
      }
      var a :- Byte();
      var b :- Byte();
      var c :- Byte();
      var imm :- Word32();
      return Ok(Instruction(op.value, a, b, c, Wrap32(imm)));
    }

    method Code(n: nat) returns (r: Result<seq<Instruction>, FormatError>)
      requires Valid()
      modifies this
      ensures Got(r, ReadCode(data, old(pos), 0, n))
    {
      hide ReadInstruction;
      var items, at := [], 0;
      ghost var spec := ReadCode(data, pos, 0, n);
      NothingJoined(spec);
      while at < n
        invariant 0 <= at <= n && Valid()
        invariant spec == Joined(items, ReadCode(data, pos, at, n - at))
      {
        var i :- OneInstruction(at);
        JoinedOne(items, i, ReadCode(data, pos, at + 1, n - at - 1));
        items, at := items + [i], at + 1;
      }
      assert items + [] == items;
      return Ok(items);
    }

    method Header() returns (r: Result<(), FormatError>)
      requires Valid() && pos == 0
      modifies this
      ensures Got(r, ReadHeader(data))
    {
      hide ReadU32;
      var magic :- TakeBytes(4);
      if magic != MAGIC {
        return Err(BadMagic(magic));
      }
      var abi :- Word32();
      if abi != ABI_VERSION {
        return Err(UnsupportedAbi(abi));
      }
      return Ok(());
    }

    method Module(trust: Trust) returns (r: Result<Chunk, FormatError>)
      requires Valid() && pos == 0
      modifies this
      ensures Got(r, DecodeAt(utf8, data, trust))
    {
      hide ReadHeader, ReadText, ReadCount, ReadValues, ReadFunctions, ReadCode;
      var _ :- Header();
      var name :- Text("name", MAX_NAME);
      var nc :- Count("constants");
      var constants :- Constants(trust, nc);
      var nf :- Count("functions");
      var functions :- Functions(nf);
      var ni :- Count("code");
      var code :- Code(ni);
      return Ok(Chunk(name, constants, code, functions));
    }
  }

  lemma NothingJoined<T>(spec: Parsed<seq<T>>)
    ensures Joined([], spec) == spec
  {
    if spec.Ok? {
      assert [] + spec.value.0 == spec.value.0;
    }
  }

  lemma JoinedOne<T>(items: seq<T>, item: T, rest: Parsed<seq<T>>)
    ensures Joined(items, Joined([item], rest)) == Joined(items + [item], rest)
  {
    if rest.Ok? {
      assert items + ([item] + rest.value.0) == (items + [item]) + rest.value.0;
    }
  }

  /** `decode_with`. */
  method DecodeChunk(utf8: seq<u8> -> bool, data: seq<u8>, trust: Trust) returns (r: Result<Chunk, FormatError>)
    ensures r == DecodeWith(utf8, data, trust)
  {
    hide DecodeAt;
    var reader := new Reader(data, utf8);
    r := reader.Module(trust);
  }
}
