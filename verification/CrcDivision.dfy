/**
 What the checksum is, as arithmetic on polynomials over GF(2): the remainder of long
 division by x^16 + x^12 + x^5 + 1 (section 2 of ITU-T V.41), the first sixteen bits
 inverted beforehand. A polynomial is the sequence of its coefficients, highest first.
 */
module CrcDivision {
  import opened Types
  import opened Crc

  /** The generator x^16 + x^12 + x^5 + 1 without its leading term. */
  const GENERATOR: seq<bool> :=
    [false, false, false, true, false, false, false, false, false, false, true, false, false, false, false, true]

  /** Adds q to the leading coefficients of p. */
  function AddFront(p: seq<bool>, q: seq<bool>): (sum: seq<bool>)
    requires |q| <= |p|
    ensures |sum| == |p|
  {
    seq(|p|, i requires 0 <= i < |p| => if i < |q| then p[i] != q[i] else p[i])
  }

  /** Long division: a leading one is cancelled by the generator, then the leading place is dropped. */
  function Remainder(p: seq<bool>): (r: seq<bool>)
    ensures |p| >= 16 ==> |r| == 16
    decreases |p|
  {
    if |p| <= 16 then p
    else if p[0] then Remainder(AddFront(p[1..], GENERATOR))
    else Remainder(p[1..])
  }

  function Repeat(bit: bool, n: nat): (s: seq<bool>)
    ensures |s| == n
  {
    seq(n, _ => bit)
  }

  function Doubled(w: bv16): bv16 {
    w << 1
  }

  function DoubledByte(b: bv8): bv8 {
    b << 1
  }

  predicate TopOfByte(b: bv8) {
    b & 0x80 != 0
  }

  /** The leading n bits of a byte, most significant first. */
  function BytePlaces(b: bv8, n: nat): (s: seq<bool>)
    ensures |s| == n
    decreases n
  {
    if n == 0 then [] else [TopOfByte(b)] + BytePlaces(DoubledByte(b), n - 1)
  }

  function MessageBits(data: seq<Byte>): (s: seq<bool>)
    ensures |s| == 8 * |data|
  {
    if data == [] then [] else BytePlaces(Bits(data[0]), 8) + MessageBits(data[1..])
  }

  /** The leading n bits of a register, most significant first. */
  function Places(w: bv16, n: nat): (s: seq<bool>)
    ensures |s| == n
    decreases n
  {
    if n == 0 then [] else [Top(w)] + Places(Doubled(w), n - 1)
  }

  function WordBits(w: bv16): (s: seq<bool>)
    ensures |s| == 16
  {
    Places(w, 16)
  }

  // ---- Sixteen coefficients at a time ----

  lemma DoubledXor(a: bv16, b: bv16)
    ensures Doubled(Crc.Xor(a, b)) == Crc.Xor(Doubled(a), Doubled(b))
    ensures Top(Crc.Xor(a, b)) <==> Top(a) != Top(b)
  {
    TopXor(a, b);
    XorOfShifts(a, b);
  }

  lemma {:induction false} PlacesAdd(a: bv16, b: bv16, n: nat)
    ensures Places(Crc.Xor(a, b), n) == AddFront(Places(a, n), Places(b, n))
    decreases n
  {
    hide Top, Doubled, Crc.Xor;
    if n > 0 {
      DoubledXor(a, b);
      PlacesAdd(Doubled(a), Doubled(b), n - 1);
    }
  }

  lemma {:induction false} PlacesAppend(w: bv16, n: nat)
    ensures Places(w, n + 1) == Places(w, n) + [Top(Iterate(Doubled, w, n))]
    decreases n
  {
    hide Top, Doubled;
    if n > 0 {
      PlacesAppend(Doubled(w), n - 1);
      IterateFront(Doubled, w, n - 1);
    }
  }

  lemma {:induction false} IterateFront<R>(f: R -> R, x: R, n: nat)
    ensures Iterate(f, x, n + 1) == Iterate(f, f(x), n)
  {
    if n > 0 {
      IterateFront(f, x, n - 1);
    }
  }

  lemma SixteenDoublings(w: bv16)
    ensures Iterate(Doubled, w, 16) == 0
  {
    IterateSteps(Doubled, w);
    DoubledAway(w);
  }

  lemma IterateSteps<R>(f: R -> R, x: R)
    ensures Iterate(f, x, 16) == f(f(f(f(f(f(f(f(f(f(f(f(f(f(f(f(x))))))))))))))))
  {
    assert Iterate(f, x, 4) == f(f(f(f(x))));
    assert Iterate(f, x, 8) == f(f(f(f(Iterate(f, x, 4)))));
    assert Iterate(f, x, 12) == f(f(f(f(Iterate(f, x, 8)))));
    assert Iterate(f, x, 16) == f(f(f(f(Iterate(f, x, 12)))));
  }

  lemma DoubledAway(w: bv16)
    ensures Doubled(Doubled(Doubled(Doubled(Doubled(Doubled(Doubled(Doubled(Doubled(Doubled(Doubled(Doubled(Doubled(Doubled(Doubled(Doubled(w)))))))))))))))) == 0
  {
  }

  lemma PlacesDoubled(w: bv16)
    ensures WordBits(Doubled(w)) == WordBits(w)[1..] + [false]
  {
    hide Top, Doubled, Iterate;
    PlacesAppend(w, 16);
    SixteenDoublings(w);
    assert !Top(0) by {
      ZeroTop();
    }
    assert Places(w, 17) == WordBits(w) + [false];
    assert Places(w, 17) == [Top(w)] + WordBits(Doubled(w));
    assert WordBits(Doubled(w)) == (WordBits(w) + [false])[1..];
  }

  lemma ZeroTop()
    ensures !Top(0) && Doubled(0) == 0
  {
  }

  lemma {:induction false} HighBytePlaces(b: bv8, n: nat)
    ensures Places(HighByte(b), n) == BytePlaces(b, n)
    decreases n
  {
    hide Top, TopOfByte, Doubled, DoubledByte, HighByte;
    if n > 0 {
      HighByteDoubled(b);
      HighBytePlaces(DoubledByte(b), n - 1);
    }
  }

  lemma HighByteDoubled(b: bv8)
    ensures Doubled(HighByte(b)) == HighByte(DoubledByte(b)) && (Top(HighByte(b)) <==> TopOfByte(b))
  {
  }

  lemma {:induction false} BytePlacesEnd(b: bv8, n: nat, m: nat)
    requires Iterate(DoubledByte, b, n) == 0
    ensures BytePlaces(b, n + m) == BytePlaces(b, n) + Repeat(false, m)
    decreases n, m
  {
    hide TopOfByte, DoubledByte;
    if n > 0 {
      IterateFront(DoubledByte, b, n - 1);
      BytePlacesEnd(DoubledByte(b), n - 1, m);
    } else if m > 0 {
      ZeroByte();
      BytePlacesEnd(DoubledByte(b), 0, m - 1);
      assert [false] + Repeat(false, m - 1) == Repeat(false, m);
    }
  }

  lemma ZeroByte()
    ensures !TopOfByte(0) && DoubledByte(0) == 0
  {
  }

  lemma ByteDoubledAway(b: bv8)
    ensures DoubledByte(DoubledByte(DoubledByte(DoubledByte(DoubledByte(DoubledByte(DoubledByte(DoubledByte(b)))))))) == 0
  {
  }

  lemma EightDoublings(b: bv8)
    ensures Iterate(DoubledByte, b, 8) == 0
  {
    ByteDoubledAway(b);
    hide DoubledByte;
    assert Iterate(DoubledByte, b, 4) == DoubledByte(DoubledByte(DoubledByte(DoubledByte(b))));
  }

  lemma HighByteBits(b: bv8)
    ensures WordBits(HighByte(b)) == BytePlaces(b, 8) + Repeat(false, 8)
  {
    hide HighByte, BytePlaces, Places;
    HighBytePlaces(b, 16);
    EightDoublings(b);
    BytePlacesEnd(b, 8, 8);
  }

  lemma OneMore(w: bv16, n: nat, rest: seq<bool>)
    requires Places(Doubled(w), n) == rest
    ensures Places(w, n + 1) == [Top(w)] + rest
  {
    hide Top, Doubled;
  }

  predicate Nibble(w: bv16, a: bool, b: bool, c: bool, d: bool, next: bv16) {
    && Top(w) == a && Top(Doubled(w)) == b && Top(Doubled(Doubled(w))) == c && Top(Doubled(Doubled(Doubled(w)))) == d
    && Doubled(Doubled(Doubled(Doubled(w)))) == next
  }

  lemma OneByOne<T>(a: T, b: T, c: T, d: T, rest: seq<T>)
    ensures [a] + ([b] + ([c] + ([d] + rest))) == [a, b, c, d] + rest
  {
  }

  lemma FourMore(w: bv16, a: bool, b: bool, c: bool, d: bool, next: bv16, n: nat)
    requires Nibble(w, a, b, c, d, next)
    ensures Places(w, n + 4) == [a, b, c, d] + Places(next, n)
  {
    hide Top, Doubled, Places;
    var rest := Places(next, n);
    var x := Doubled(w);
    var y := Doubled(x);
    OneMore(Doubled(y), n, rest);
    OneMore(y, n + 1, [d] + rest);
    OneMore(x, n + 2, [c] + ([d] + rest));
    OneMore(w, n + 3, [b] + ([c] + ([d] + rest)));
    OneByOne(a, b, c, d, rest);
  }

  lemma DoublingsOf1021()
    ensures Nibble(0x1021, false, false, false, true, 0x0210) && Nibble(0x0210, false, false, false, false, 0x2100)
    ensures Nibble(0x2100, false, false, true, false, 0x1000) && Nibble(0x1000, false, false, false, true, 0)
  {
  }

  lemma GeneratorIs1021()
    ensures WordBits(0x1021) == GENERATOR
  {
    DoublingsOf1021();
    hide Nibble, Places;
    FourMore(0x1021, false, false, false, true, 0x0210, 12);
    FourMore(0x0210, false, false, false, false, 0x2100, 8);
    FourMore(0x2100, false, false, true, false, 0x1000, 4);
    FourMore(0x1000, false, false, false, true, 0, 0);
  }

  lemma DoublingsOfOnes()
    ensures Nibble(0xFFFF, true, true, true, true, 0xFFF0) && Nibble(0xFFF0, true, true, true, true, 0xFF00)
    ensures Nibble(0xFF00, true, true, true, true, 0xF000) && Nibble(0xF000, true, true, true, true, 0)
  {
  }

  lemma OnesPreset()
    ensures WordBits(0xFFFF) == Repeat(true, 16)
  {
    DoublingsOfOnes();
    hide Nibble, Places;
    FourMore(0xFFFF, true, true, true, true, 0xFFF0, 12);
    FourMore(0xFFF0, true, true, true, true, 0xFF00, 8);
    FourMore(0xFF00, true, true, true, true, 0xF000, 4);
    FourMore(0xF000, true, true, true, true, 0, 0);
  }

  lemma AddShort(p: seq<bool>, q: seq<bool>, n: nat)
    requires |q| + n == |p|
    ensures AddFront(p, q + Repeat(false, n)) == AddFront(p, q)
  {
  }

  lemma MixedWord(w: bv16, b: bv8)
    ensures WordBits(w ^ HighByte(b)) == AddFront(WordBits(w), BytePlaces(b, 8))
  {
    hide HighByte, Places, BytePlaces, AddFront;
    var h, q := HighByte(b), BytePlaces(b, 8) + Repeat(false, 8);
    assert Crc.Xor(w, h) == w ^ h;
    PlacesAdd(w, h, 16);
    assert WordBits(w ^ h) == AddFront(WordBits(w), WordBits(h));
    HighByteBits(b);
    assert WordBits(h) == q;
    AddShort(WordBits(w), BytePlaces(b, 8), 8);
  }

  lemma ShiftedRegister(w: bv16)
    ensures Shift(w) == if Top(w) then Crc.Xor(Doubled(w), 0x1021) else Doubled(w)
  {
  }

  /** One register shift is one step of the division. */
  lemma ShiftDivides(w: bv16)
    ensures WordBits(Shift(w)) == if WordBits(w)[0] then AddFront(WordBits(w)[1..] + [false], GENERATOR) else WordBits(w)[1..] + [false]
  {
    ShiftedRegister(w);
    PlacesDoubled(w);
    PlacesAdd(Doubled(w), 0x1021, 16);
    GeneratorIs1021();
    assert WordBits(w)[0] == Top(w);
    hide Top, Doubled, Shift, Places, Crc.Xor, AddFront;
  }

  // ---- Division with a register in front ----

  /** The polynomial still to be divided: the register added to the front of what has not been absorbed. */
  function Pending(w: bv16, rest: seq<bool>): seq<bool>
    requires |rest| >= 16
  {
    AddFront(rest, WordBits(w))
  }

  lemma AddShift(p: seq<bool>, w: seq<bool>)
    requires |p| >= 16 && |w| == 16
    ensures AddFront([false] + p, w)[0] == w[0] && AddFront([false] + p, w)[1..] == AddFront(p, w[1..] + [false])
  {
  }

  lemma AddTwice(p: seq<bool>, a: seq<bool>, b: seq<bool>)
    requires |a| <= |p| && |b| <= |a|
    ensures AddFront(AddFront(p, a), b) == AddFront(p, AddFront(a, b))
  {
  }

  lemma DividePlace(w: bv16, rest: seq<bool>)
    requires |rest| >= 16
    ensures Remainder(Pending(w, [false] + rest)) == Remainder(Pending(Shift(w), rest))
  {
    ShiftDivides(w);
    AddShift(rest, WordBits(w));
    AddTwice(rest, WordBits(w)[1..] + [false], GENERATOR);
    hide WordBits, AddFront, Shift;
  }

  lemma {:induction false} DividePlaces(w: bv16, rest: seq<bool>, n: nat)
    requires |rest| >= 16
    ensures Remainder(Pending(w, Repeat(false, n) + rest)) == Remainder(Pending(Shifts(w, n), rest))
    decreases n
  {
    if n == 0 {
      assert Repeat(false, 0) + rest == rest;
      ShiftsStep(w, 0);
    } else {
      assert Repeat(false, n) + rest == Repeat(false, n - 1) + ([false] + rest);
      DividePlaces(w, [false] + rest, n - 1);
      DividePlace(Shifts(w, n - 1), rest);
      ShiftsStep(w, n - 1);
      hide Remainder, Pending, Shifts, Shift;
    }
  }

  lemma MixFront(w: seq<bool>, b: seq<bool>, rest: seq<bool>)
    requires |w| == 16 && |b| == 8 && |rest| >= 16
    ensures AddFront(b + rest, w) == AddFront(Repeat(false, 8) + rest, AddFront(w, b))
  {
  }

  lemma DivideByte(w: bv16, b: bv8, rest: seq<bool>)
    requires |rest| >= 16
    ensures Remainder(Pending(w, BytePlaces(b, 8) + rest)) == Remainder(Pending(Absorb(w, b), rest))
  {
    MixedWord(w, b);
    MixFront(WordBits(w), BytePlaces(b, 8), rest);
    DividePlaces(w ^ HighByte(b), rest, 8);
    hide Remainder, WordBits, BytePlaces, AddFront, Repeat, Shifts;
  }

  /** Absorbing the rest of the data into the register divides what is pending. */
  lemma {:induction false} DivideData(w: bv16, data: seq<Byte>)
    ensures Remainder(Pending(w, MessageBits(data) + Repeat(false, 16))) == WordBits(Fold(AbsorbByte, w, data))
    decreases |data|
  {
    var zeros := Repeat(false, 16);
    if data == [] {
      assert MessageBits(data) + zeros == zeros;
      assert AddFront(zeros, WordBits(w)) == WordBits(w) by {
        hide WordBits;
      }
    } else {
      var rest := MessageBits(data[1..]) + zeros;
      assert MessageBits(data) + zeros == BytePlaces(Bits(data[0]), 8) + rest;
      DivideByte(w, Bits(data[0]), rest);
      DivideData(AbsorbByte(w, data[0]), data[1..]);
      FoldFront(AbsorbByte, w, data);
      hide Remainder, Pending, BytePlaces, WordBits, Absorb;
    }
  }

  lemma {:induction false} FoldFront<R, B>(step: (R, B) -> R, initial: R, data: seq<B>)
    requires data != []
    ensures Fold(step, initial, data) == Fold(step, step(initial, data[0]), data[1..])
  {
    var n := |data| - 1;
    if n > 0 {
      FoldFront(step, initial, data[..n]);
      assert data[..n][1..] == data[1..][..n - 1];
    }
  }

  /** CRC-16/CCITT-FALSE: the data, sixteen zeros behind it and its first sixteen places inverted, divided by the generator. */
  lemma ChecksumIsRemainder(data: seq<Byte>)
    ensures WordBits(Checksum(data)) == Remainder(AddFront(MessageBits(data) + Repeat(false, 16), Repeat(true, 16)))
  {
    OnesPreset();
    DivideData(0xFFFF, data);
  }

  // ---- The register as two bytes ----

  lemma LowByteDoublings(b: bv8)
    ensures Nibble(b as bv16, false, false, false, false, (b as bv16) << 4)
    ensures Nibble((b as bv16) << 4, false, false, false, false, HighByte(b))
  {
  }

  lemma LowBytePlaces(b: bv8)
    ensures WordBits(b as bv16) == Repeat(false, 8) + BytePlaces(b, 8)
  {
    LowByteDoublings(b);
    HighBytePlaces(b, 8);
    hide Nibble, Places, BytePlaces, HighByte;
    FourMore(b as bv16, false, false, false, false, (b as bv16) << 4, 12);
    FourMore((b as bv16) << 4, false, false, false, false, HighByte(b), 8);
  }

  lemma WordIsXor(hi: bv8, lo: bv8)
    ensures Word(hi, lo) == Crc.Xor(HighByte(hi), lo as bv16)
  {
  }

  lemma AddHalves(a: seq<bool>, b: seq<bool>)
    requires |a| == 8 && |b| == 8
    ensures AddFront(a + Repeat(false, 8), Repeat(false, 8) + b) == a + b
  {
  }

  lemma WordOfTwo(hi: bv8, lo: bv8)
    ensures WordBits(Word(hi, lo)) == BytePlaces(hi, 8) + BytePlaces(lo, 8)
  {
    hide Word, HighByte, Places, BytePlaces, AddFront;
    WordIsXor(hi, lo);
    PlacesAdd(HighByte(hi), lo as bv16, 16);
    HighByteBits(hi);
    LowBytePlaces(lo);
    assert WordBits(Word(hi, lo)) == AddFront(WordBits(HighByte(hi)), WordBits(lo as bv16));
    AddHalves(BytePlaces(hi, 8), BytePlaces(lo, 8));
  }

  /** A register all of whose places are empty is zero, so different registers have different bits. */
  lemma {:induction false} ZeroPlaces(w: bv16, n: nat)
    requires Places(w, n) == Repeat(false, n)
    ensures Iterate(Doubled, w, n) == 0 ==> w == 0
    decreases n
  {
    if n > 0 {
      assert Places(w, n)[1..] == Repeat(false, n)[1..] == Repeat(false, n - 1);
      assert Places(w, n)[0] == Top(w) && Repeat(false, n)[0] == false;
      ZeroPlaces(Doubled(w), n - 1);
      IterateFront(Doubled, w, n - 1);
      HalfOfZero(w);
      hide Top, Doubled;
    }
  }

  lemma HalfOfZero(w: bv16)
    ensures !Top(w) && Doubled(w) == 0 ==> w == 0
  {
  }

  lemma AddSelf(p: seq<bool>)
    ensures AddFront(p, p) == Repeat(false, |p|)
  {
  }

  lemma WordBitsInjective(a: bv16, b: bv16)
    requires WordBits(a) == WordBits(b)
    ensures a == b
  {
    hide Places, AddFront, Doubled, Iterate;
    var d := Crc.Xor(a, b);
    PlacesAdd(a, b, 16);
    AddSelf(WordBits(a));
    assert Places(d, 16) == Repeat(false, 16);
    ZeroPlaces(d, 16);
    SixteenDoublings(d);
    XorZero(a, b);
  }

  // ---- The check value ----

  function EightTimes(w: bv16): bv16 {
    Shift(Shift(Shift(Shift(Shift(Shift(Shift(Shift(w))))))))
  }

  /** The register mixed with a byte, and what eight shifts make of it. */
  predicate Takes(w: bv16, n: Byte, mixed: bv16, next: bv16) {
    w ^ HighByte(Bits(n)) == mixed && EightTimes(mixed) == next
  }

  lemma TakesByte(w: bv16, n: Byte, mixed: bv16, next: bv16, data: seq<Byte>) returns (longer: seq<Byte>)
    requires Takes(w, n, mixed, next) && Checksum(data) == w
    ensures longer == data + [n] && Checksum(longer) == next
  {
    EightShifts(w ^ HighByte(Bits(n)));
    FoldStep(AbsorbByte, 0xFFFF, data, n);
    hide Shift, HighByte, Shifts;
    longer := data + [n];
  }

  lemma CheckValueSteps()
    ensures Takes(0xFFFF, 49, 0xCEFF, 0xC782)
    ensures Takes(0xC782, 50, 0xF582, 0x3DBA)
    ensures Takes(0x3DBA, 51, 0x0EBA, 0x5BCE)
    ensures Takes(0x5BCE, 52, 0x6FCE, 0x5349)
    ensures Takes(0x5349, 53, 0x6649, 0x4560)
    ensures Takes(0x4560, 54, 0x7360, 0x2EF4)
    ensures Takes(0x2EF4, 55, 0x19F4, 0x7718)
    ensures Takes(0x7718, 56, 0x4F18, 0xA12B)
    ensures Takes(0xA12B, 57, 0x982B, 0x29B1)
  {
  }

  /** The digits 1 to 9 in ASCII give the check value of CRC-16/CCITT-FALSE. */
  lemma CheckValue()
    ensures Checksum([49, 50, 51, 52, 53, 54, 55, 56, 57]) == 0x29B1
  {
    CheckValueSteps();
    var data := [];
    assert Checksum(data) == 0xFFFF;
    hide Takes, Checksum;
    data := TakesByte(0xFFFF, 49, 0xCEFF, 0xC782, data);
    data := TakesByte(0xC782, 50, 0xF582, 0x3DBA, data);
    data := TakesByte(0x3DBA, 51, 0x0EBA, 0x5BCE, data);
    data := TakesByte(0x5BCE, 52, 0x6FCE, 0x5349, data);
    data := TakesByte(0x5349, 53, 0x6649, 0x4560, data);
    data := TakesByte(0x4560, 54, 0x7360, 0x2EF4, data);
    data := TakesByte(0x2EF4, 55, 0x19F4, 0x7718, data);
    data := TakesByte(0x7718, 56, 0x4F18, 0xA12B, data);
    data := TakesByte(0xA12B, 57, 0x982B, 0x29B1, data);
    assert data == [49, 50, 51, 52, 53, 54, 55, 56, 57];
  }
}
