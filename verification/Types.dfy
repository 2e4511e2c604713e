/**
 Shared vocabulary of the bridge firmware: machine integers, big-endian byte
 packing, and the wire error codes.
 */
module Types {

  const U16_LIMIT := 0x1_0000
  const U32_LIMIT := 0x1_0000_0000
  const U64_LIMIT := 0x1_0000_0000_0000_0000

  type Byte = n: int | 0 <= n < 256
  type U16 = n: int | 0 <= n < U16_LIMIT
  type U32 = n: int | 0 <= n < U32_LIMIT
  type U64 = n: int | 0 <= n < U64_LIMIT
  type I8 = n: int | -128 <= n < 128
  type I16 = n: int | -32768 <= n < 32768

  datatype Option<+T> = None | Some(value: T)

  datatype Result<+T, +E> = Ok(value: T) | Err(error: E)

  /** Wire error identifiers (src/error.rs). */
  datatype ErrorCode =
    | BadFrame
    | BadCommand
    | UnsupportedAscii
    | HidWrite
    | Transport
    | FrameTooLong
    | UnsupportedVersion
    | UnsupportedFlags
    | InvalidSequence
    | SequenceConflict
    | BatchState
    | BatchCapacity
    | TooManyKeys
    | WaitTooLong
    | KeyboardBusy
    | Cancelled

  function ErrorByte(error: ErrorCode): Byte {
    match error
    case BadFrame => 1
    case BadCommand => 2
    case UnsupportedAscii => 3
    case HidWrite => 4
    case Transport => 5
    case FrameTooLong => 6
    case UnsupportedVersion => 7
    case UnsupportedFlags => 8
    case InvalidSequence => 9
    case SequenceConflict => 10
    case BatchState => 11
    case BatchCapacity => 12
    case TooManyKeys => 13
    case WaitTooLong => 14
    case KeyboardBusy => 15
    case Cancelled => 16
  }

  predicate IsErrorByte(b: Byte) {
    1 <= b <= 16
  }

  /** Errors after which the executor must try to release all HID state. */
  predicate RequiresRelease(error: ErrorCode) {
    error == HidWrite || error == Cancelled
  }

  // ---- Bits of a byte ----

  function Bits(n: Byte): bv8 {
    n as bv8
  }

  function FromBits(b: bv8): Byte {
    b as int
  }

  lemma BitsOfBits(b: bv8)
    ensures Bits(FromBits(b)) == b
  {
  }

  lemma Below(b: bv8)
    requires FromBits(b) < 255
    ensures b != 255
  {
  }

  lemma Successor(b: bv8)
    requires b != 255
    ensures FromBits(b + 1) == FromBits(b) + 1
  {
  }

  /** Counting up to n keeps the conversion within arithmetic the solver does cheaply. */
  lemma {:induction false} SomeBits(n: Byte) returns (b: bv8)
    ensures FromBits(b) == n
  {
    if n == 0 {
      b := 0;
    } else {
      b := SomeBits(n - 1);
      Below(b);
      Successor(b);
      b := b + 1;
    }
  }

  lemma FromBitsOfBits(n: Byte)
    ensures FromBits(Bits(n)) == n
  {
    var b := SomeBits(n);
    BitsOfBits(b);
  }

  lemma BitsInjective(a: Byte, b: Byte)
    requires Bits(a) == Bits(b)
    ensures a == b
  {
    FromBitsOfBits(a);
    FromBitsOfBits(b);
  }

  function Or(a: Byte, b: Byte): Byte {
    FromBits(Bits(a) | Bits(b))
  }

  function And(a: Byte, b: Byte): Byte {
    FromBits(Bits(a) & Bits(b))
  }

  function AndNot(a: Byte, b: Byte): Byte {
    FromBits(Bits(a) & !Bits(b))
  }

  function Xor(a: Byte, b: Byte): Byte {
    FromBits(Bits(a) ^ Bits(b))
  }

  lemma MaskLaws(m: bv8, s: bv8)
    ensures (m & !s) & s == 0
    ensures (m & !s) | s == m | s
    ensures m & !0 == m && m | 0 == m
    ensures m & s == 0 ==> m & !s == m
  {
  }

  lemma BitsAndNot(a: Byte, b: Byte)
    ensures Bits(AndNot(a, b)) == Bits(a) & !Bits(b)
  {
    BitsOfBits(Bits(a) & !Bits(b));
  }

  lemma AndAfterAndNot(m: Byte, s: Byte, x: bv8, y: bv8)
    requires x == Bits(m) & !Bits(s) && y == Bits(s) && Bits(AndNot(m, s)) == x
    requires x & y == 0
    ensures And(AndNot(m, s), s) == 0
  {
  }

  lemma OrAfterAndNot(m: Byte, s: Byte, x: bv8, y: bv8)
    requires x == Bits(AndNot(m, s)) && y == Bits(s)
    requires x | y == Bits(m) | y
    ensures Or(AndNot(m, s), s) == Or(m, s)
  {
  }

  /** Clearing bits leaves none of them set, and setting them afterwards is setting them at once. */
  lemma ClearThenSet(m: Byte, s: Byte)
    ensures And(AndNot(m, s), s) == 0
    ensures Or(AndNot(m, s), s) == Or(m, s)
  {
    MaskLaws(Bits(m), Bits(s));
    BitsAndNot(m, s);
    AndAfterAndNot(m, s, Bits(AndNot(m, s)), Bits(s));
    OrAfterAndNot(m, s, Bits(AndNot(m, s)), Bits(s));
  }

  lemma BitsOr(a: Byte, b: Byte)
    ensures Bits(Or(a, b)) == Bits(a) | Bits(b)
  {
    BitsOfBits(Bits(a) | Bits(b));
  }

  lemma OrTests(x: Byte, s: Byte, y: bv8, z: bv8)
    requires Bits(x) == y | z && Bits(s) == z
    ensures And(x, s) == s
  {
    assert (y | z) & z == z;
    FromBitsOfBits(s);
  }

  lemma AndNotIs(x: Byte, m: Byte, s: Byte, y: bv8, z: bv8)
    requires Bits(x) == y && Bits(s) == z && y & !z == Bits(m) & !z
    ensures AndNot(x, s) == AndNot(m, s)
  {
  }

  lemma OrKeepsOthers(x: Byte, m: Byte, s: Byte, y: bv8, z: bv8)
    requires Bits(x) == y | z && Bits(s) == z && Bits(m) == y
    ensures AndNot(x, s) == AndNot(m, s)
  {
    assert (y | z) & !z == y & !z;
    AndNotIs(x, m, s, y | z, z);
  }

  /** Setting bits sets all of them and leaves the others alone. */
  lemma SetThenTest(m: Byte, s: Byte)
    ensures And(Or(m, s), s) == s
    ensures AndNot(Or(m, s), s) == AndNot(m, s)
  {
    BitsOr(m, s);
    hide Or, And, AndNot, Bits;
    OrTests(Or(m, s), s, Bits(m), Bits(s));
    OrKeepsOthers(Or(m, s), m, s, Bits(m), Bits(s));
  }

  lemma ClearedTwice(m: bv8, s: bv8)
    ensures (m & !s) & !s == m & !s
  {
  }

  /** Clearing bits clears all of them and leaves the others alone. */
  lemma ClearThenTest(m: Byte, s: Byte)
    ensures And(AndNot(m, s), s) == 0
    ensures AndNot(AndNot(m, s), s) == AndNot(m, s)
  {
    ClearThenSet(m, s);
    BitsAndNot(m, s);
    ClearedTwice(Bits(m), Bits(s));
    AndNotIs(AndNot(m, s), m, s, Bits(AndNot(m, s)), Bits(s));
  }

  lemma OneBit(b: bv8)
    ensures b & 1 == 0 || b & 1 == 1
    ensures b & 2 == 0 || b & 2 == 2
    ensures b & 4 == 0 || b & 4 == 4
  {
  }

  /** One bit is set or not. */
  lemma SingleBit(m: Byte, s: Byte)
    requires s in {1, 2, 4}
    ensures And(m, s) == 0 || And(m, s) == s
  {
    OneBit(Bits(m));
  }

  lemma ClearNothing(m: Byte)
    ensures AndNot(m, 0) == m && Or(m, 0) == m
  {
    MaskLaws(Bits(m), Bits(m));
    FromBitsOfBits(m);
  }

  function Be16(n: U16): (bytes: seq<Byte>)
    ensures |bytes| == 2
  {
    [n / 256, n % 256]
  }

  function FromBe16(hi: Byte, lo: Byte): U16 {
    hi * 256 + lo
  }

  function Be32(n: U32): (bytes: seq<Byte>)
    ensures |bytes| == 4
  {
    Be16(n / U16_LIMIT) + Be16(n % U16_LIMIT)
  }

  function FromBe32(b: seq<Byte>): U32
    requires |b| == 4
  {
    FromBe16(b[0], b[1]) * U16_LIMIT + FromBe16(b[2], b[3])
  }

  lemma Be16RoundTrip(n: U16)
    ensures FromBe16(Be16(n)[0], Be16(n)[1]) == n
  {
  }

  lemma FromBe16Injective(hi: Byte, lo: Byte, hi': Byte, lo': Byte)
    requires FromBe16(hi, lo) == FromBe16(hi', lo')
    ensures hi == hi' && lo == lo'
  {
  }

  lemma Be32RoundTrip(n: U32)
    ensures FromBe32(Be32(n)) == n
  {
    Be16RoundTrip(n / U16_LIMIT);
    Be16RoundTrip(n % U16_LIMIT);
  }

  /** Two's-complement views of signed machine integers. */
  function I16Bits(n: I16): U16 {
    if n < 0 then n + U16_LIMIT else n
  }

  function BitsI16(n: U16): I16 {
    if n < 0x8000 then n else n - U16_LIMIT
  }

  function I8Bits(n: I8): Byte {
    if n < 0 then n + 256 else n
  }

  function BitsI8(b: Byte): I8 {
    if b < 128 then b else b - 256
  }
}
