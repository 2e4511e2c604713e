/**
 The request fingerprint is FNV-1a over 64 bits. Each step is injective in the hash
 and in the byte, so changing one byte of a request always changes its fingerprint.
 */
module Fingerprint {
  import opened Types
  import opened Protocol
  import opened Coordinator
  import opened CoordinatorHistory
  import opened Replay

  /** The prime's inverse modulo 2^64. */
  const FNV_INVERSE := 0xce96_5057_aff6_957b

  lemma PrimeCancels(x: U64, y: U64)
    requires x * FNV_PRIME % U64_LIMIT == y * FNV_PRIME % U64_LIMIT
    ensures x == y
  {
    assert FNV_PRIME * FNV_INVERSE == 1 + 887_285_111_055 * U64_LIMIT;
    var k := x * FNV_PRIME / U64_LIMIT - y * FNV_PRIME / U64_LIMIT;
    assert (x - y) * FNV_PRIME == k * U64_LIMIT;
    assert x - y == U64_LIMIT * (k * FNV_INVERSE - 887_285_111_055 * (x - y));
  }

  lemma XorUndone(a: bv8, b: bv8)
    ensures (a ^ b) ^ a == b && (a ^ b) ^ b == a
  {
  }

  lemma SameBits(z: bv8, w: bv8)
    requires FromBits(z) == FromBits(w)
    ensures z == w
  {
    BitsOfBits(z);
    BitsOfBits(w);
  }

  lemma XorBits(a: bv8, b: bv8, x: bv8, y: bv8)
    requires a ^ b == x ^ y
    ensures a == x ==> b == y
    ensures b == y ==> a == x
  {
    XorUndone(a, b);
    XorUndone(x, y);
  }

  lemma XorCancels(a: Byte, b: Byte, x: Byte, y: Byte)
    requires Xor(a, b) == Xor(x, y)
    ensures a == x ==> b == y
    ensures b == y ==> a == x
  {
    SameBits(Bits(a) ^ Bits(b), Bits(x) ^ Bits(y));
    XorBits(Bits(a), Bits(b), Bits(x), Bits(y));
    if b == y {
      BitsInjective(a, x);
    }
    if a == x {
      BitsInjective(b, y);
    }
  }

  lemma LowByte(x: U64, y: U64, a: Byte, b: Byte)
    requires x / 256 * 256 + a == y / 256 * 256 + b
    ensures x / 256 == y / 256 && a == b
  {
  }

  function FnvMixed(hash: nat, b: Byte): nat {
    hash / 256 * 256 + Xor(hash % 256, b)
  }

  lemma FnvStepIsMixed(hash: nat, b: Byte)
    ensures FnvStep(hash, b) == FnvMixed(hash, b) * FNV_PRIME % U64_LIMIT
    ensures FnvStep(hash, b) < U64_LIMIT
    ensures hash < U64_LIMIT ==> FnvMixed(hash, b) < U64_LIMIT
  {
    hide Xor;
  }

  /** One step loses nothing: with the byte known the hash is determined, and the other way round. */
  lemma FnvStepInjective(x: U64, y: U64, a: Byte, b: Byte)
    requires FnvStep(x, a) == FnvStep(y, b)
    ensures a == b ==> x == y
    ensures x == y ==> a == b
  {
    FnvStepIsMixed(x, a);
    FnvStepIsMixed(y, b);
    hide FnvStep, Xor;
    PrimeCancels(FnvMixed(x, a), FnvMixed(y, b));
    LowByte(x, y, Xor(x % 256, a), Xor(y % 256, b));
    XorCancels(x % 256, a, y % 256, b);
  }

  lemma FoldInRange(hash: U64, data: seq<Byte>)
    ensures FnvFold(hash, data) < U64_LIMIT
  {
    hide FnvStep;
    if data != [] {
      FnvStepIsMixed(FnvFold(hash, data[..|data| - 1]), data[|data| - 1]);
    }
  }

  predicate DifferOnlyAt(p: seq<Byte>, q: seq<Byte>, at: nat) {
    && |p| == |q| && at < |p| && p[at] != q[at]
    && forall i :: 0 <= i < |p| && i != at ==> p[i] == q[i]
  }

  lemma {:induction false} OneByteChangesFold(hash: U64, p: seq<Byte>, q: seq<Byte>, at: nat)
    requires DifferOnlyAt(p, q, at)
    ensures FnvFold(hash, p) != FnvFold(hash, q)
    decreases |p|
  {
    hide FnvStep;
    var last := |p| - 1;
    FoldInRange(hash, p[..last]);
    FoldInRange(hash, q[..last]);
    if at == last {
      assert p[..last] == q[..last];
    } else {
      OneByteChangesFold(hash, p[..last], q[..last], at);
    }
    if FnvFold(hash, p) == FnvFold(hash, q) {
      FnvStepInjective(FnvFold(hash, p[..last]), FnvFold(hash, q[..last]), p[last], q[last]);
    }
  }

  /** Version, flags, type or one payload byte: a change to any one of them is a different fingerprint. */
  lemma OneByteChangesFingerprint(f: Frame, g: Frame, at: nat)
    requires |f.payload| < U16_LIMIT && |g.payload| < U16_LIMIT
    requires DifferOnlyAt(FingerprintInput(f), FingerprintInput(g), at)
    ensures Fingerprint(f) != Fingerprint(g)
  {
    hide FnvFold;
    OneByteChangesFold(FNV_OFFSET, FingerprintInput(f), FingerprintInput(g), at);
  }

  /**
   A retry that is not the same request is refused: with one byte of its version, flags, type or payload
   changed, a request reusing a cached sequence gets a conflict, whatever state the entry is in.
   */
  lemma ChangedRetryConflicts(s: CoordState, token: CompletionToken, state: CacheState, f: Frame, g: Frame, at: nat, externalBusy: bool)
    requires Inv(s) && Remembers(s, token, state)
    requires FromFrame(f).Ok? && FromFrame(g).Ok? && FromFrame(g).value.kind == ResponseExpected
    requires token.sequence == f.sequence == g.sequence && token.fingerprint == FromFrame(f).value.fingerprint
    requires |f.payload| < U16_LIMIT && |g.payload| < U16_LIMIT
    requires DifferOnlyAt(FingerprintInput(f), FingerprintInput(g), at)
    ensures Admit(s, FromFrame(g).value, externalBusy) == Admitted(s, Reject(SequenceConflict))
  {
    hide FnvFold, Inv, Admit, AsByte;
    OneByteChangesFingerprint(f, g, at);
    hide Fingerprint;
    CachedAnswer(s, token, state, FromFrame(g).value, externalBusy);
  }

  /** The fold as the source computes it. */
  method ComputeFingerprint(frame: Frame) returns (hash: U64)
    requires |frame.payload| < U16_LIMIT
    ensures hash == Fingerprint(frame)
  {
    hide FnvStep;
    var input := FingerprintInput(frame);
    hash := FNV_OFFSET;
    for i := 0 to |input|
      invariant hash == FnvFold(FNV_OFFSET, input[..i])
    {
      assert input[..i + 1][..i] == input[..i];
      FnvStepIsMixed(hash, input[i]);
      hash := FnvStep(hash, input[i]);
    }
    assert input[..|input|] == input;
  }

  // ---- What is hashed, and how ----

  /** The hash covers exactly what the frame's checksum covers, except the sequence. */
  lemma CoversAllButSequence(frame: Frame)
    requires |frame.payload| <= MAX_PAYLOAD_SIZE
    ensures FingerprintInput(frame) == Covered(frame)[..2] + Covered(frame)[4..]
  {
    hide AsByte, Be16;
  }

  /** Frames with the same fingerprint input differ at most in their sequence. */
  lemma InputTellsFrames(a: Frame, b: Frame)
    requires |a.payload| <= MAX_PAYLOAD_SIZE && |b.payload| <= MAX_PAYLOAD_SIZE
    requires Canonical(a.commandType) && Canonical(b.commandType) && FingerprintInput(a) == FingerprintInput(b)
    ensures a == b.(sequence := a.sequence)
  {
    var x, y := FingerprintInput(a), FingerprintInput(b);
    assert x[0] == a.version && x[1] == a.flags && x[2] == AsByte(a.commandType) && x[5..] == a.payload;
    assert y[0] == b.version && y[1] == b.flags && y[2] == AsByte(b.commandType) && y[5..] == b.payload;
    FromByteAsByte(a.commandType);
    FromByteAsByte(b.commandType);
    hide AsByte, FromByte, Be16, Canonical, FingerprintInput;
  }

  lemma XorOfTestBytes()
    ensures Xor(0x25, 0x61) == 0x44
  {
    BitsOfBits(0x44);
  }

  /** The published check value: the letter a hashes to af63dc4c8601ec8c. */
  lemma HashOfLetterA()
    ensures FnvFold(FNV_OFFSET, [0x61]) == 0xaf63_dc4c_8601_ec8c
  {
    XorOfTestBytes();
    hide Xor;
    assert FnvFold(FNV_OFFSET, []) == FNV_OFFSET;
    assert FnvFold(FNV_OFFSET, [0x61]) == FnvStep(FNV_OFFSET, 0x61);
    assert FNV_OFFSET / 256 * 256 + 0x44 == 0xcbf2_9ce4_8422_2344;
  }
}
