/**
 The operators of the source language, on mathematical integers, and the proof that the
 machine's `numeric_binop` (crates/byteflow/src/vm/machine.rs) computes them.
 */
module Operators {
  import opened Wrappers
  import opened Values
  import opened Bytecode
  import opened Machine

  const WORD: nat := 0x1_0000_0000_0000_0000

  /** `w` is `n` wrapped around to 64 bits. */
  ghost predicate Wraps(n: int, w: i64) {
    exists laps: int :: w == n + laps * WORD
  }

  lemma WrapIsUnique(n: int, v: i64, w: i64)
    requires Wraps(n, v) && Wraps(n, w)
    ensures v == w
  {
    var a: int :| v == n + a * WORD;
    var b: int :| w == n + b * WORD;
    assert v - w == (a - b) * WORD;
  }

  function Word(n: int): (w: i64)
    ensures Wraps(n, w)
  {
    var laps := (n + 0x8000_0000_0000_0000) / WORD;
    assert n - laps * WORD == n + -laps * WORD;
    n - laps * WORD
  }

  /** Division rounds towards zero: the remainder is smaller than the divisor and has the sign of the dividend. */
  ghost predicate Division(x: int, y: int, q: int, r: int) {
    && x == q * y + r
    && (if r < 0 then -r else r) < (if y < 0 then -y else y)
    && (r == 0 || (r < 0 <==> x < 0))
  }

  lemma DivisionIsUnique(x: int, y: int, q: int, r: int, q': int, r': int)
    requires Division(x, y, q, r) && Division(x, y, q', r')
    ensures q == q' && r == r'
  {
    assert (q - q') * y == r' - r && (q' - q) * y == r - r';
    if q > q' {
      MultipleIsLarge(q - q', y);
    } else if q < q' {
      MultipleIsLarge(q' - q, y);
    }
  }

  lemma MultipleIsLarge(k: int, y: int)
    requires k >= 1
    ensures if y >= 0 then k * y >= y else k * y <= y
  {
    var less := k - 1;
    assert k * y == y + less * y;
    if y >= 0 {
      assert less * y >= 0;
    } else {
      assert less * y <= 0;
    }
  }

  function Quotient(x: int, y: int): (q: int)
    requires y != 0
    ensures Division(x, y, q, x - q * y)
  {
    if x >= 0 then x / y else -(-x / y)
  }

  /** What an operator of the language makes of two integers. */
  ghost predicate OnIntegers(op: Opcode, x: i64, y: i64, r: Result<Value, Fault>) {
    match op
    case Add => r.Ok? && r.value.Int? && Wraps(x + y, r.value.i)
    case Sub => r.Ok? && r.value.Int? && Wraps(x - y, r.value.i)
    case Mul => r.Ok? && r.value.Int? && Wraps(x * y, r.value.i)
    case Div =>
      if y == 0 then r == Err(DivideByZero)
      else r.Ok? && r.value.Int? && exists q, rem :: Division(x, y, q, rem) && Wraps(q, r.value.i)
    case Mod =>
      if y == 0 then r == Err(DivideByZero)
      else r.Ok? && r.value.Int? && exists q :: Division(x, y, q, r.value.i)
    case Eq => r == Ok(Bool(x == y))
    case Lt => r == Ok(Bool(x < y))
    case Le => r == Ok(Bool(x <= y))
    case _ => r == Err(NonArithmeticOpcode)
  }

  lemma OnIntegersIsUnique(op: Opcode, x: i64, y: i64, r: Result<Value, Fault>, r': Result<Value, Fault>)
    requires OnIntegers(op, x, y, r) && OnIntegers(op, x, y, r')
    ensures r == r'
  {
    hide Wraps, Division;
    if op.Add? {
      WrapIsUnique(x + y, r.value.i, r'.value.i);
    } else if op.Sub? {
      WrapIsUnique(x - y, r.value.i, r'.value.i);
    } else if op.Mul? {
      WrapIsUnique(x * y, r.value.i, r'.value.i);
    } else if op.Div? && y != 0 {
      var q, rem :| Division(x, y, q, rem) && Wraps(q, r.value.i);
      var q', rem' :| Division(x, y, q', rem') && Wraps(q', r'.value.i);
      DivisionIsUnique(x, y, q, rem, q', rem');
      WrapIsUnique(q, r.value.i, r'.value.i);
    } else if op.Mod? && y != 0 {
      var q :| Division(x, y, q, r.value.i);
      var q' :| Division(x, y, q', r'.value.i);
      DivisionIsUnique(x, y, q, r.value.i, q', r'.value.i);
    }
  }

  function Integers(op: Opcode, x: i64, y: i64): (r: Result<Value, Fault>)
    ensures OnIntegers(op, x, y, r)
  {
    match op
    case Add => Ok(Int(Word(x + y)))
    case Sub => Ok(Int(Word(x - y)))
    case Mul => Ok(Int(Word(x * y)))
    case Div => if y == 0 then Err(DivideByZero) else Ok(Int(Word(Quotient(x, y))))
    case Mod => if y == 0 then Err(DivideByZero) else Ok(Int(x - Quotient(x, y) * y))
    case Eq => Ok(Bool(x == y))
    case Lt => Ok(Bool(x < y))
    case Le => Ok(Bool(x <= y))
    case _ => Err(NonArithmeticOpcode)
  }

  /** The value with the float in it, at the end of a chain of payloads, blotted out. */
  function Bare(v: Value): Value {
    match v
    case Float(_) => Float(0)
    case Hop(m) => Hop(m.(payload := Bare(m.payload)))
    case _ => v
  }

  function FloatIn(v: Value): Option<u64> {
    match v
    case Float(bits) => Some(bits)
    case Hop(m) => FloatIn(m.payload)
    case _ => None
  }

  /** Equality of values is equality of all of them but their floats, which the host compares. */
  predicate SameValue(h: Host, a: Value, b: Value) {
    && Bare(a) == Bare(b)
    && (FloatIn(a).Some? && FloatIn(b).Some? ==> h.floatEq(FloatIn(a).value, FloatIn(b).value))
  }

  predicate IsNumber(v: Value) {
    v.Int? || v.Float?
  }

  /** An operator applied to two values: integers as above, other numbers by the host's floats. */
  function Operate(h: Host, op: Opcode, a: Value, b: Value): (r: Result<Value, Fault>)
    ensures a.Int? && b.Int? ==> OnIntegers(op, a.i, b.i, r)
  {
    if a.Int? && b.Int? then Integers(op, a.i, b.i)
    else if op.Eq? then Ok(Bool(SameValue(h, a, b)))
    else if op.Mod? || !IsArithmetic(op) then Err(NonArithmeticOpcode)
    else
      var (first, second) := if op.Div? then (b, a) else (a, b);
      if !IsNumber(first) then Err(TypeMismatch("int or float", TypeName(first)))
      else if !IsNumber(second) then Err(TypeMismatch("int or float", TypeName(second)))
      else if op.Lt? || op.Le? then Ok(Bool(h.floatTest(op, a, b)))
      else Ok(Float(h.float(op, a, b)))
  }

  /** Whether a loop goes on: two integers are compared as integers. */
  function GoesOn(h: Host, counter: Value, limit: Value): (r: Result<bool, Fault>)
    ensures counter.Int? && limit.Int? ==> r == Ok(counter.i < limit.i)
  {
    if counter.Int? && limit.Int? then Ok(counter.i < limit.i)
    else if !IsNumber(counter) then Err(TypeMismatch("int or float", TypeName(counter)))
    else if !IsNumber(limit) then Err(TypeMismatch("int or float", TypeName(limit)))
    else Ok(h.floatTest(Lt, counter, limit))
  }

  // ----- the machine computes them -----

  lemma Wrap64IsWord(n: int)
    ensures Wraps(n, Wrap64(n))
  {
    var laps := n / WORD;
    assert n == laps * WORD + n % WORD;
    assert Wrap64(n) == n + -laps * WORD || Wrap64(n) == n + (-laps - 1) * WORD;
  }

  lemma TruncatedDivides(x: int, y: int)
    requires y != 0
    ensures Division(x, y, Truncated(x, y), x - Truncated(x, y) * y)
  {
    var m, n := if x < 0 then -x else x, if y < 0 then -y else y;
    var q := m / n;
    assert 0 <= m - q * n < n;
    SignedProduct(q, n);
    assert Truncated(x, y) * y == if x < 0 then -(q * n) else q * n;
  }

  lemma SignedProduct(q: int, n: int)
    ensures q * -n == -(q * n) && -q * n == -(q * n) && -q * -n == q * n
  {
  }

  /** On integers the machine's arithmetic is the operator: sums, differences and products modulo 2^64. */
  lemma MachineOnIntegers(h: Host, op: Opcode, x: i64, y: i64)
    ensures OnIntegers(op, x, y, Arithmetic(h, op, Int(x), Int(y)))
  {
    hide Division, Wraps, Wrap64, Truncated;
    match op {
      case Add => Wrap64IsWord(x + y);
      case Sub => Wrap64IsWord(x - y);
      case Mul => Wrap64IsWord(x * y);
      case Div =>
        if y != 0 {
          TruncatedDivides(x, y);
          Wrap64IsWord(Truncated(x, y));
        }
      case Mod =>
        if y != 0 {
          TruncatedDivides(x, y);
          RemainderFits(x, y, Truncated(x, y));
        }
      case _ =>
    }
  }

  lemma RemainderFits(x: i64, y: i64, q: int)
    requires y != 0 && Division(x, y, q, x - q * y)
    ensures Wrap64(x - q * y) == x - q * y
  {
    var r := x - q * y;
    assert -0x8000_0000_0000_0000 <= r < 0x8000_0000_0000_0000;
    Wrap64Fits(r);
  }

  lemma {:induction false} MachineEquality(h: Host, a: Value, b: Value)
    ensures ValueEq(h, a, b) <==> SameValue(h, a, b)
  {
    if a.Hop? && b.Hop? {
      MachineEquality(h, a.msg.payload, b.msg.payload);
      assert Bare(a) == Bare(b) <==>
             a.msg.(payload := Unit) == b.msg.(payload := Unit) && Bare(a.msg.payload) == Bare(b.msg.payload) by {
        BareHops(a.msg, b.msg, Bare(a.msg.payload), Bare(b.msg.payload));
      }
    }
  }

  lemma BareHops(a: Message, b: Message, p: Value, q: Value)
    ensures a.(payload := p) == b.(payload := q) <==> a.(payload := Unit) == b.(payload := Unit) && p == q
  {
  }

  /** The machine's arithmetic is the language's operators, faults and their order included. */
  lemma MachineComputes(h: Host, op: Opcode, a: Value, b: Value)
    ensures Arithmetic(h, op, a, b) == Operate(h, op, a, b)
  {
    if a.Int? && b.Int? {
      MachineOnIntegers(h, op, a.i, b.i);
      hide Arithmetic, Operate;
      OnIntegersIsUnique(op, a.i, b.i, Arithmetic(h, op, a, b), Operate(h, op, a, b));
    } else {
      MachineEquality(h, a, b);
      hide ValueEq, SameValue, Integers;
    }
  }

  /** The verdict on a loop is the comparison operator's result. */
  lemma GoesOnIsLess(h: Host, counter: Value, limit: Value)
    ensures Operate(h, Lt, counter, limit)
            == match GoesOn(h, counter, limit) case Ok(more) => Ok(Bool(more)) case Err(fault) => Err(fault)
  {
  }
}
