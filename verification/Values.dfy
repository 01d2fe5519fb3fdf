/** Runtime values and Atomic Hop envelopes (crates/byteflow/src/bytecode/value.rs). */
module Values {
  import opened Wrappers

  type u8 = x: int | 0 <= x < 0x100
  type u16 = x: int | 0 <= x < 0x1_0000
  type u32 = x: int | 0 <= x < 0x1_0000_0000
  type u64 = x: int | 0 <= x < 0x1_0000_0000_0000_0000
  type u128 = x: int | 0 <= x < 0x1_0000_0000_0000_0000_0000_0000_0000_0000
  type i32 = x: int | -0x8000_0000 <= x < 0x8000_0000
  type i64 = x: int | -0x8000_0000_0000_0000 <= x < 0x8000_0000_0000_0000

  /** Largest `usize` of a 64-bit host. */
  const USIZE_MAX: nat := 0xFFFF_FFFF_FFFF_FFFF

  /** `size_of::<Value>()`. No proof depends on more than its being positive and small. */
  const VALUE_SIZE: nat := 64

  const TAG_SYS_DOWN: u16 := 0xFF01
  const TAG_SYS_EXIT: u16 := 0xFF02

  /** Strings are their UTF-8 bytes and floats their 64-bit pattern. */
  datatype Value =
    | Unit
    | Bool(b: bool)
    | Int(i: i64)
    | Float(bits: u64)
    | Pid(pid: u64)
    | Hop(msg: Message)
    | Cap(cap: u128)
    | Str(utf8: seq<u8>)
    | Bytes(data: seq<u8>)

  datatype Message = Message(
    sender: u64,
    replyCap: u128,
    requestId: u64,
    tag: u16,
    payload: Value)

  function HeapSize(v: Value): nat
    decreases v, 0
  {
    match v
    case Str(s) => |s|
    case Bytes(d) => |d|
    case Hop(m) => MemorySize(m.payload)
    case _ => 0
  }

  function MemorySize(v: Value): nat
    decreases v, 1
  {
    VALUE_SIZE + HeapSize(v)
  }

  predicate IsTruthy(v: Value) {
    match v
    case Unit => false
    case Bool(b) => b
    case Int(i) => i != 0
    case Str(s) => s != []
    case Bytes(d) => d != []
    case _ => true
  }

  /** `Value::as_int`: booleans count as 0 and 1. */
  function AsInt(v: Value): Option<i64> {
    match v
    case Int(i) => Some(i)
    case Bool(b) => Some(if b then 1 else 0)
    case _ => None
  }

  /** Two's-complement wrap-around of `i64` arithmetic. */
  function Wrap64(x: int): i64 {
    var m := x % 0x1_0000_0000_0000_0000;
    if m < 0x8000_0000_0000_0000 then m else m - 0x1_0000_0000_0000_0000
  }

  lemma Wrap64Fits(x: int)
    ensures -0x8000_0000_0000_0000 <= x < 0x8000_0000_0000_0000 ==> Wrap64(x) == x
  {
  }

  /** The narrowing cast `as i32`. */
  function Wrap32(x: int): i32 {
    var m := x % 0x1_0000_0000;
    if m < 0x8000_0000 then m else m - 0x1_0000_0000
  }

  function SatAdd(a: nat, b: nat): nat {
    if a + b > USIZE_MAX then USIZE_MAX else a + b
  }

  function SatSub(a: nat, b: nat): nat {
    if a < b then 0 else a - b
  }

  /** `Message::down`: the hop a monitor owner receives. */
  function DownHop(monitor: u64, target: u64, reason: u64): Value {
    Hop(Message(target, 0, monitor, TAG_SYS_DOWN, Int(Wrap64(reason))))
  }

  /** `Message::linked_exit`: the hop an asker receives when its target exits. */
  function ExitHop(target: u64, reason: u64): Value {
    Hop(Message(target, 0, 0, TAG_SYS_EXIT, Int(Wrap64(reason))))
  }
}
