/**
 CRC-16/CCITT-FALSE as computed by src/protocol.rs: register preset to ones,
 generator polynomial x^16 + x^12 + x^5 + 1 (section 2 of ITU-T V.41), most
 significant bit first, no final inversion.
 */
module Crc {
  import opened Types

  /** One register shift; the polynomial is folded in when a one falls out. */
  function Shift(crc: bv16): bv16 {
    if crc & 0x8000 != 0 then (crc << 1) ^ 0x1021 else crc << 1
  }

  function Iterate<R>(f: R -> R, x: R, count: nat): R {
    if count == 0 then x else f(Iterate(f, x, count - 1))
  }

  function Shifts(crc: bv16, count: nat): bv16 {
    Iterate(Shift, crc, count)
  }

  function HighByte(b: bv8): bv16 {
    (b as bv16) << 8
  }

  function Absorb(crc: bv16, b: bv8): bv16 {
    Shifts(crc ^ HighByte(b), 8)
  }

  function AbsorbByte(crc: bv16, n: Byte): bv16 {
    Absorb(crc, Bits(n))
  }

  function Fold<R, B>(step: (R, B) -> R, initial: R, data: seq<B>): R {
    if data == [] then initial
    else step(Fold(step, initial, data[..|data| - 1]), data[|data| - 1])
  }

  function Checksum(data: seq<Byte>): bv16 {
    Fold(AbsorbByte, 0xFFFF, data)
  }

  function Word(hi: bv8, lo: bv8): bv16 {
    HighByte(hi) | (lo as bv16)
  }

  lemma ShiftsStep(crc: bv16, count: nat)
    ensures Shifts(crc, 0) == crc
    ensures Shifts(crc, count + 1) == Shift(Shifts(crc, count))
  {
  }

  lemma FoldStep<R, B>(step: (R, B) -> R, initial: R, data: seq<B>, x: B)
    ensures Fold(step, initial, data + [x]) == step(Fold(step, initial, data), x)
  {
    assert (data + [x])[..|data|] == data;
  }

  /** crc16_ccitt_false: the outer loop over bytes and the inner loop over their bits. */
  method ComputeChecksum(data: seq<Byte>) returns (crc: bv16)
    ensures crc == Checksum(data)
  {
    hide AbsorbByte;
    crc := 0xFFFF;
    for i := 0 to |data|
      invariant crc == Checksum(data[..i])
    {
      FoldStep(AbsorbByte, 0xFFFF, data[..i], data[i]);
      assert data[..i] + [data[i]] == data[..i + 1];
      crc := AbsorbBits(crc, data[i]);
    }
    assert data[..|data|] == data;
  }

  method AbsorbBits(crc: bv16, n: Byte) returns (mixed: bv16)
    ensures mixed == AbsorbByte(crc, n)
  {
    hide Shift, Iterate;
    mixed := crc ^ HighByte(Bits(n));
    ghost var start := mixed;
    ShiftsStep(start, 0);
    for bit := 0 to 8
      invariant mixed == Shifts(start, bit)
    {
      ShiftsStep(start, bit);
      mixed := BitStep(mixed);
    }
  }

  method BitStep(crc: bv16) returns (next: bv16)
    ensures next == Shift(crc)
  {
    if crc & 0x8000 != 0 {
      next := (crc << 1) ^ 0x1021;
    } else {
      next := crc << 1;
    }
  }

  // ---- Linearity over GF(2) ----

  predicate Top(crc: bv16) {
    crc & 0x8000 != 0
  }

  lemma ShiftTop(a: bv16)
    requires Top(a)
    ensures Shift(a) == (a << 1) ^ 0x1021
  {
  }

  lemma ShiftPlain(a: bv16)
    requires !Top(a)
    ensures Shift(a) == a << 1
  {
  }

  lemma XorCommutes(a: bv16, b: bv16)
    ensures a ^ b == b ^ a
  {
  }

  lemma TopBit(a: bv16)
    ensures a & 0x8000 == 0 || a & 0x8000 == 0x8000
  {
  }

  lemma MaskDistributes(a: bv16, b: bv16)
    ensures (a ^ b) & 0x8000 == (a & 0x8000) ^ (b & 0x8000)
  {
  }

  lemma TopXor(a: bv16, b: bv16)
    ensures Top(a ^ b) <==> Top(a) != Top(b)
  {
    MaskDistributes(a, b);
    TopBit(a);
    TopBit(b);
  }

  lemma XorOfShifts(a: bv16, b: bv16)
    ensures (a << 1) ^ (b << 1) == (a ^ b) << 1
    ensures ((a << 1) ^ 0x1021) ^ (b << 1) == ((a ^ b) << 1) ^ 0x1021
    ensures (a << 1) ^ ((b << 1) ^ 0x1021) == ((a ^ b) << 1) ^ 0x1021
    ensures ((a << 1) ^ 0x1021) ^ ((b << 1) ^ 0x1021) == (a ^ b) << 1
  {
  }

  lemma ShiftLinearTopTop(a: bv16, b: bv16)
    requires Top(a) && Top(b)
    ensures Shift(a) ^ Shift(b) == Shift(a ^ b)
  {
    TopXor(a, b);
    ShiftTop(a);
    ShiftTop(b);
    ShiftPlain(a ^ b);
    XorOfShifts(a, b);
  }

  lemma ShiftLinearTopPlain(a: bv16, b: bv16)
    requires Top(a) && !Top(b)
    ensures Shift(a) ^ Shift(b) == Shift(a ^ b)
    ensures Shift(b) ^ Shift(a) == Shift(b ^ a)
  {
    TopXor(a, b);
    ShiftTop(a);
    ShiftPlain(b);
    ShiftTop(a ^ b);
    XorOfShifts(a, b);
    XorCommutes(a, b);
    XorCommutes(Shift(a), Shift(b));
  }

  lemma ShiftLinearPlainPlain(a: bv16, b: bv16)
    requires !Top(a) && !Top(b)
    ensures Shift(a) ^ Shift(b) == Shift(a ^ b)
  {
    TopXor(a, b);
    ShiftPlain(a);
    ShiftPlain(b);
    ShiftPlain(a ^ b);
    XorOfShifts(a, b);
  }

  lemma ShiftLinear(a: bv16, b: bv16)
    ensures Shift(a) ^ Shift(b) == Shift(a ^ b)
  {
    if Top(a) {
      if Top(b) {
        ShiftLinearTopTop(a, b);
      } else {
        ShiftLinearTopPlain(a, b);
      }
    } else {
      if Top(b) {
        ShiftLinearTopPlain(b, a);
      } else {
        ShiftLinearPlainPlain(a, b);
      }
    }
  }

  lemma {:induction false} IterateHomomorphic<R(!new)>(f: R -> R, plus: (R, R) -> R, a: R, b: R, count: nat)
    requires forall x, y :: plus(f(x), f(y)) == f(plus(x, y))
    ensures plus(Iterate(f, a, count), Iterate(f, b, count)) == Iterate(f, plus(a, b), count)
  {
    if count > 0 {
      IterateHomomorphic(f, plus, a, b, count - 1);
    }
  }

  function Xor(a: bv16, b: bv16): bv16 {
    a ^ b
  }

  lemma ShiftsLinear(a: bv16, b: bv16, count: nat)
    ensures Shifts(a, count) ^ Shifts(b, count) == Shifts(a ^ b, count)
  {
    forall x, y
      ensures Xor(Shift(x), Shift(y)) == Shift(Xor(x, y))
    {
      ShiftLinear(x, y);
    }
    IterateHomomorphic(Shift, Xor, a, b, count);
  }

  lemma ShiftKernel(a: bv16)
    requires Shift(a) == 0
    ensures a == 0
  {
  }

  lemma {:induction false} ShiftsKernel(a: bv16, count: nat)
    requires Shifts(a, count) == 0
    ensures a == 0
  {
    if count > 0 {
      ShiftsStep(a, count - 1);
      ShiftKernel(Shifts(a, count - 1));
      ShiftsKernel(a, count - 1);
    }
  }

  lemma XorZero(a: bv16, b: bv16)
    ensures a ^ b == 0 <==> a == b
  {
  }

  lemma ShiftsInjective(u: bv16, v: bv16)
    requires Shifts(u, 8) == Shifts(v, 8)
    ensures u == v
  {
    ShiftsLinear(u, v, 8);
    XorZero(Shifts(u, 8), Shifts(v, 8));
    ShiftsKernel(u ^ v, 8);
    XorZero(u, v);
  }

  /** The register after mixing byte x into a equals that after mixing y into b. */
  predicate Mixed(a: bv16, x: bv8, b: bv16, y: bv8) {
    a ^ HighByte(x) == b ^ HighByte(y)
  }

  lemma AbsorbSame(a: bv16, b: bv16, x: bv8, y: bv8)
    requires Absorb(a, x) == Absorb(b, y)
    ensures Mixed(a, x, b, y)
  {
    ShiftsInjective(a ^ HighByte(x), b ^ HighByte(y));
  }

  lemma MixCancels(a: bv16, b: bv16, x: bv8)
    requires Mixed(a, x, b, x)
    ensures a == b
  {
  }

  /** Absorbing one byte loses nothing of the register. */
  lemma AbsorbInjective(a: bv16, b: bv16, x: bv8)
    requires Absorb(a, x) == Absorb(b, x)
    ensures a == b
  {
    AbsorbSame(a, b, x, x);
    MixCancels(a, b, x);
  }

  lemma EightShifts(h: bv16)
    ensures Shifts(h, 8) == Shift(Shift(Shift(Shift(Shift(Shift(Shift(Shift(h))))))))
  {
    ShiftsStep(h, 0);
    ShiftsStep(h, 1);
    ShiftsStep(h, 2);
    ShiftsStep(h, 3);
    ShiftsStep(h, 4);
    ShiftsStep(h, 5);
    ShiftsStep(h, 6);
    ShiftsStep(h, 7);
  }

  lemma LowByteKernelUnrolled(e: bv8)
    requires Shift(Shift(Shift(Shift(Shift(Shift(Shift(Shift(HighByte(e))))))))) & 0xFF == 0
    ensures e == 0
  {
  }

  predicate LowClear(u: bv16) {
    u & 0xFF == 0
  }

  lemma MixedLowByte(a: bv16, b: bv16, x: bv8, y: bv8)
    requires Mixed(a, x, b, y)
    ensures LowClear(a ^ b)
  {
  }

  /** A nonzero byte always disturbs the low half of the register. */
  lemma LowByteKernel(e: bv8)
    requires LowClear(Shifts(HighByte(e), 8))
    ensures e == 0
  {
    EightShifts(HighByte(e));
    LowByteKernelUnrolled(e);
  }

  lemma HighByteXor(a: bv16, x: bv8, y: bv8)
    ensures (a ^ HighByte(x)) ^ (a ^ HighByte(y)) == HighByte(x ^ y)
  {
  }

  lemma ByteXorZero(x: bv8, y: bv8)
    ensures x ^ y == 0 <==> x == y
  {
  }

  lemma MixedByte(a: bv16, x: bv8, y: bv8)
    requires Mixed(a, x, a, y)
    ensures x == y
  {
  }

  lemma LowClearDifference(u: bv16, v: bv16, e: bv8)
    requires u ^ v == HighByte(e) && LowClear(Shifts(u, 8) ^ Shifts(v, 8))
    ensures e == 0
  {
    ShiftsLinear(u, v, 8);
    LowByteKernel(e);
  }

  lemma FirstOfPair(crc: bv16, x: bv8, x': bv8)
    requires LowClear(Absorb(crc, x) ^ Absorb(crc, x'))
    ensures x == x'
  {
    HighByteXor(crc, x, x');
    LowClearDifference(crc ^ HighByte(x), crc ^ HighByte(x'), x ^ x');
    ByteXorZero(x, x');
  }

  /** Two adjacent bytes can only leave the same register behind if they are equal. */
  lemma AbsorbPair(crc: bv16, x: bv8, y: bv8, x': bv8, y': bv8)
    requires Absorb(Absorb(crc, x), y) == Absorb(Absorb(crc, x'), y')
    ensures x == x' && y == y'
  {
    AbsorbSame(Absorb(crc, x), Absorb(crc, x'), y, y');
    MixedLowByte(Absorb(crc, x), Absorb(crc, x'), y, y');
    FirstOfPair(crc, x, x');
    MixedByte(Absorb(crc, x), y, y');
  }

  /** A register that absorbs its own big-endian image becomes zero, and nothing else does. */
  lemma Residue(crc: bv16, hi: bv8, lo: bv8)
    ensures Absorb(Absorb(crc, hi), lo) == 0 <==> crc == Word(hi, lo)
  {
    var h, l := ((crc >> 8) as bv8), (crc & 0xFF) as bv8;
    SelfAbsorb(crc, h, l);
    if Absorb(Absorb(crc, hi), lo) == 0 {
      AbsorbPair(crc, hi, lo, h, l);
      WordOfBytes(crc, h, l);
    }
    if crc == Word(hi, lo) {
      BytesOfWord(crc, hi, lo);
    }
  }

  lemma WordOfBytes(crc: bv16, hi: bv8, lo: bv8)
    requires hi == (crc >> 8) as bv8 && lo == (crc & 0xFF) as bv8
    ensures Word(hi, lo) == crc
  {
  }

  lemma BytesOfWord(crc: bv16, hi: bv8, lo: bv8)
    requires crc == Word(hi, lo)
    ensures hi == (crc >> 8) as bv8 && lo == (crc & 0xFF) as bv8
  {
  }

  lemma ShiftsZero(count: nat)
    ensures Shifts(0, count) == 0
  {
    if count > 0 {
      ShiftsZero(count - 1);
    }
  }

  lemma SelfAbsorb(crc: bv16, hi: bv8, lo: bv8)
    requires hi == (crc >> 8) as bv8 && lo == (crc & 0xFF) as bv8
    ensures Absorb(Absorb(crc, hi), lo) == 0
  {
    var rest := crc ^ HighByte(hi);
    RestIsLow(crc, hi, lo);
    LowPassesUp(lo);
    XorZero(HighByte(lo), HighByte(lo));
    ShiftsZero(8);
  }

  lemma RestIsLow(crc: bv16, hi: bv8, lo: bv8)
    requires hi == (crc >> 8) as bv8 && lo == (crc & 0xFF) as bv8
    ensures crc ^ HighByte(hi) == lo as bv16
  {
  }

  lemma LowPassesUpUnrolled(lo: bv8)
    ensures Shift(Shift(Shift(Shift(Shift(Shift(Shift(Shift(lo as bv16)))))))) == HighByte(lo)
  {
  }

  lemma LowPassesUp(lo: bv8)
    ensures Shifts(lo as bv16, 8) == HighByte(lo)
  {
    EightShifts(lo as bv16);
    LowPassesUpUnrolled(lo);
  }

  lemma LastDiffers<R(!new), B(!new)>(step: (R, B) -> R, c: R, x: B, y: B)
    requires forall c, x, y, x', y' :: step(step(c, x), y) == step(step(c, x'), y') ==> x == x' && y == y'
    requires x != y
    ensures step(c, x) != step(c, y)
  {
    assert step(step(c, x), x) != step(step(c, y), x);
  }

  /**
   A fold whose step is injective in the register, and whose double step is injective in a
   pair of inputs, separates any two inputs that differ only inside one window of two.
   */
  lemma {:induction false} FoldBurst<R(!new), B(!new)>(step: (R, B) -> R, initial: R, a: seq<B>, b: seq<B>, k: nat)
    requires forall c, d, x :: step(c, x) == step(d, x) ==> c == d
    requires forall c, x, y, x', y' :: step(step(c, x), y) == step(step(c, x'), y') ==> x == x' && y == y'
    requires |a| == |b| && a != b
    requires forall i :: 0 <= i < |a| && i != k && i != k + 1 ==> a[i] == b[i]
    ensures Fold(step, initial, a) != Fold(step, initial, b)
  {
    var n := |a| - 1;
    var p, q := a[..n], b[..n];
    assert a == p + [a[n]] && b == q + [b[n]];
    if k < n - 1 {
      FoldBurst(step, initial, p, q, k);
    } else if n == 0 || k >= n {
      assert p == q;
      LastDiffers(step, Fold(step, initial, p), a[n], b[n]);
    } else {
      var r := a[..n - 1];
      assert p[..n - 1] == r && q[..n - 1] == r;
      assert Fold(step, initial, p) == step(Fold(step, initial, r), a[n - 1]);
      assert Fold(step, initial, q) == step(Fold(step, initial, r), b[n - 1]);
    }
  }

  lemma AbsorbByteInjective(c: bv16, d: bv16, x: Byte)
    requires AbsorbByte(c, x) == AbsorbByte(d, x)
    ensures c == d
  {
    AbsorbInjective(c, d, Bits(x));
  }

  lemma AbsorbBytePair(c: bv16, x: Byte, y: Byte, x': Byte, y': Byte)
    requires AbsorbByte(AbsorbByte(c, x), y) == AbsorbByte(AbsorbByte(c, x'), y')
    ensures x == x' && y == y'
  {
    AbsorbPair(c, Bits(x), Bits(y), Bits(x'), Bits(y'));
    BitsInjective(x, x');
    BitsInjective(y, y');
  }

  /** Equal-length data that differs only inside two adjacent bytes never shares a checksum. */
  lemma ChecksumBurst(a: seq<Byte>, b: seq<Byte>, k: nat)
    requires |a| == |b| && a != b
    requires forall i :: 0 <= i < |a| && i != k && i != k + 1 ==> a[i] == b[i]
    ensures Checksum(a) != Checksum(b)
  {
    hide AbsorbByte;
    var step := AbsorbByte;
    forall c, d, x | step(c, x) == step(d, x)
      ensures c == d
    {
      AbsorbByteInjective(c, d, x);
    }
    forall c, x, y, x', y' | step(step(c, x), y) == step(step(c, x'), y')
      ensures x == x' && y == y'
    {
      AbsorbBytePair(c, x, y, x', y');
    }
    FoldBurst(step, 0xFFFF, a, b, k);
  }

  // ---- The two trailing bytes ----

  /** The checksum a big-endian byte pair stands for, and the pair that stands for a checksum. */
  function FromCrcBytes(hi: Byte, lo: Byte): bv16 {
    Word(Bits(hi), Bits(lo))
  }

  function CrcBytes(crc: bv16): (bytes: seq<Byte>)
    ensures |bytes| == 2
  {
    [FromBits((crc >> 8) as bv8), FromBits((crc & 0xFF) as bv8)]
  }

  lemma CrcBytesRoundTrip(crc: bv16)
    ensures FromCrcBytes(CrcBytes(crc)[0], CrcBytes(crc)[1]) == crc
  {
    var h, l := (crc >> 8) as bv8, (crc & 0xFF) as bv8;
    BitsOfBits(h);
    BitsOfBits(l);
    WordOfBytes(crc, h, l);
  }

  lemma FromCrcBytesRoundTrip(hi: Byte, lo: Byte)
    ensures CrcBytes(FromCrcBytes(hi, lo)) == [hi, lo]
  {
    FromBitsOfBits(hi);
    FromBitsOfBits(lo);
    BytesOfWord(FromCrcBytes(hi, lo), Bits(hi), Bits(lo));
  }

  /** Data followed by two bytes leaves a zero remainder exactly when they are its checksum. */
  lemma SealedChecksum(p: seq<Byte>, hi: Byte, lo: Byte)
    ensures Checksum(p + [hi, lo]) == 0 <==> Checksum(p) == FromCrcBytes(hi, lo)
  {
    assert p + [hi, lo] == (p + [hi]) + [lo];
    FoldStep(AbsorbByte, 0xFFFF, p, hi);
    FoldStep(AbsorbByte, 0xFFFF, p + [hi], lo);
    Residue(Checksum(p), Bits(hi), Bits(lo));
  }
}
