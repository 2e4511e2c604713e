/**
 The framed wire protocol of src/protocol.rs: eleven bytes of overhead around at
 most 240 payload bytes, big-endian fields, CRC over everything after the magic.
 */
module Protocol {
  import opened Types
  import opened Crc

  const MAGIC_0: Byte := 0xA5
  const MAGIC_1: Byte := 0x5A
  const LEGACY_PROTOCOL_VERSION: Byte := 1
  const PROTOCOL_VERSION: Byte := 2
  const FLAG_NO_RESPONSE: Byte := 1
  const MAX_WAIT_MS := 60_000
  const MAX_PAYLOAD_SIZE := 240
  const FRAME_OVERHEAD := 11
  const MAX_FRAME_SIZE := 251

  datatype CommandType =
    | Ping | GetInfo | GetCaps | Heartbeat
    | KeyDown | KeyUp | KeyTap | TypeAscii
    | MouseMoveRel | MouseButtonDown | MouseButtonUp | MouseClick | MouseWheel
    | WaitMs | BatchBegin | BatchEnd | StopAll
    | Ack | Nack | Status | Busy
    | Unknown(code: Byte)

  function FromByte(b: Byte): CommandType {
    if b == 0x01 then Ping
    else if b == 0x02 then GetInfo
    else if b == 0x03 then GetCaps
    else if b == 0x04 then Heartbeat
    else if b == 0x10 then KeyDown
    else if b == 0x11 then KeyUp
    else if b == 0x12 then KeyTap
    else if b == 0x13 then TypeAscii
    else if b == 0x20 then MouseMoveRel
    else if b == 0x21 then MouseButtonDown
    else if b == 0x22 then MouseButtonUp
    else if b == 0x23 then MouseClick
    else if b == 0x24 then MouseWheel
    else if b == 0x30 then WaitMs
    else if b == 0x40 then BatchBegin
    else if b == 0x41 then BatchEnd
    else if b == 0x7F then StopAll
    else if b == 0x80 then Ack
    else if b == 0x81 then Nack
    else if b == 0x82 then Status
    else if b == 0x83 then Busy
    else Unknown(b)
  }

  function AsByte(t: CommandType): Byte {
    match t
    case Ping => 0x01
    case GetInfo => 0x02
    case GetCaps => 0x03
    case Heartbeat => 0x04
    case KeyDown => 0x10
    case KeyUp => 0x11
    case KeyTap => 0x12
    case TypeAscii => 0x13
    case MouseMoveRel => 0x20
    case MouseButtonDown => 0x21
    case MouseButtonUp => 0x22
    case MouseClick => 0x23
    case MouseWheel => 0x24
    case WaitMs => 0x30
    case BatchBegin => 0x40
    case BatchEnd => 0x41
    case StopAll => 0x7F
    case Ack => 0x80
    case Nack => 0x81
    case Status => 0x82
    case Busy => 0x83
    case Unknown(code) => code
  }

  /** A command type the decoder can produce: Unknown never hides an assigned code. */
  predicate Canonical(t: CommandType) {
    t.Unknown? ==> FromByte(t.code).Unknown?
  }

  lemma AsByteFromByte(b: Byte)
    ensures AsByte(FromByte(b)) == b
    ensures Canonical(FromByte(b))
  {
  }

  lemma FromByteAsByte(t: CommandType)
    ensures FromByte(AsByte(t)) == t <==> Canonical(t)
  {
  }

  datatype Frame = Frame(version: Byte, flags: Byte, sequence: U16, commandType: CommandType, payload: seq<Byte>)

  datatype RequestKind = ResponseExpected | NoResponseHeartbeat

  datatype RequestError = UnsupportedVersion | UnsupportedFlags | InvalidSequence

  datatype DecodeError = TooShort | BadMagic | LengthMismatch | PayloadTooLong | BadCrc

  datatype EncodeError = PayloadTooLong | BufferTooSmall

  function ValidateRequest(frame: Frame): Result<RequestKind, RequestError> {
    if frame.version == LEGACY_PROTOCOL_VERSION then
      if frame.flags != 0 then Err(RequestError.UnsupportedFlags)
      else if frame.sequence == 0 then Err(RequestError.InvalidSequence)
      else Ok(ResponseExpected)
    else if frame.version == PROTOCOL_VERSION then
      if frame.commandType == Heartbeat && frame.flags == FLAG_NO_RESPONSE && frame.sequence == 0 then
        Ok(NoResponseHeartbeat)
      else if frame.flags != 0 then Err(RequestError.UnsupportedFlags)
      else if frame.sequence == 0 then Err(RequestError.InvalidSequence)
      else Ok(ResponseExpected)
    else Err(RequestError.UnsupportedVersion)
  }

  predicate HasMagic(input: seq<Byte>) {
    |input| >= 2 && input[0] == MAGIC_0 && input[1] == MAGIC_1
  }

  /** The payload length declared at offsets 7 and 8. */
  function DeclaredLength(input: seq<Byte>): nat
    requires |input| >= 9
  {
    FromBe16(input[7], input[8])
  }

  function DecodeFrame(input: seq<Byte>): Result<Frame, DecodeError> {
    if |input| < FRAME_OVERHEAD then Err(TooShort)
    else if !HasMagic(input) then Err(BadMagic)
    else
      var payloadLen := DeclaredLength(input);
      if payloadLen > MAX_PAYLOAD_SIZE then Err(DecodeError.PayloadTooLong)
      else if |input| != FRAME_OVERHEAD + payloadLen then Err(LengthMismatch)
      else
        var crcOffset := 9 + payloadLen;
        if FromCrcBytes(input[crcOffset], input[crcOffset + 1]) != Checksum(input[2..crcOffset]) then Err(BadCrc)
        else Ok(Frame(input[2], input[3], FromBe16(input[4], input[5]), FromByte(input[6]), input[9..crcOffset]))
  }

  /** Everything between the magic and the CRC. */
  function Covered(frame: Frame): seq<Byte>
    requires |frame.payload| <= MAX_PAYLOAD_SIZE
  {
    [frame.version, frame.flags] + Be16(frame.sequence) + [AsByte(frame.commandType)]
    + Be16(|frame.payload|) + frame.payload
  }

  function EncodeFrame(frame: Frame): seq<Byte>
    requires |frame.payload| <= MAX_PAYLOAD_SIZE
  {
    [MAGIC_0, MAGIC_1] + Covered(frame) + CrcBytes(Checksum(Covered(frame)))
  }

  /** copy_from_slice: overwrites one window of the buffer. */
  method CopyFromSlice(out: array<Byte>, at: nat, data: seq<Byte>) returns (end: nat)
    requires at + |data| <= out.Length
    modifies out
    ensures end == at + |data|
    ensures out[..end] == old(out[..at]) + data
    ensures forall i :: end <= i < out.Length ==> out[i] == old(out[i])
  {
    for i := 0 to |data|
      invariant out[..at + i] == old(out[..at]) + data[..i]
      invariant forall j :: at + i <= j < out.Length ==> out[j] == old(out[j])
    {
      ghost var before := out[..at + i];
      out[at + i] := data[i];
      assert out[..at + i + 1] == before + [data[i]];
      assert data[..i + 1] == data[..i] + [data[i]];
    }
    assert data[..|data|] == data;
    end := at + |data|;
  }

  method PutHeader(frame: Frame, out: array<Byte>) returns (end: nat)
    requires |frame.payload| <= MAX_PAYLOAD_SIZE && FRAME_OVERHEAD <= out.Length
    modifies out
    ensures end == 9 && forall i :: 9 <= i < out.Length ==> out[i] == old(out[i])
    ensures out[..9] == [MAGIC_0, MAGIC_1] + ([frame.version, frame.flags] + Be16(frame.sequence)
                        + [AsByte(frame.commandType)] + Be16(|frame.payload|))
  {
    hide AsByte, Be16;
    end := CopyFromSlice(out, 0, [MAGIC_0, MAGIC_1, frame.version, frame.flags]);
    end := CopyFromSlice(out, end, Be16(frame.sequence));
    end := CopyFromSlice(out, end, [AsByte(frame.commandType)]);
    end := CopyFromSlice(out, end, Be16(|frame.payload|));
  }

  /** encode_frame_with_flags: fills the front of a caller's buffer and touches nothing on failure. */
  method EncodeFrameWithFlags(frame: Frame, out: array<Byte>) returns (r: Result<nat, EncodeError>)
    modifies out
    ensures r == if |frame.payload| > MAX_PAYLOAD_SIZE then Err(EncodeError.PayloadTooLong)
                 else if out.Length < FRAME_OVERHEAD + |frame.payload| then Err(BufferTooSmall)
                 else Ok(FRAME_OVERHEAD + |frame.payload|)
    ensures r.Ok? ==> out[..r.value] == EncodeFrame(frame) && out[r.value..] == old(out[r.value..])
    ensures r.Err? ==> out[..] == old(out[..])
  {
    if |frame.payload| > MAX_PAYLOAD_SIZE {
      return Err(EncodeError.PayloadTooLong);
    }
    var totalLen := FRAME_OVERHEAD + |frame.payload|;
    if out.Length < totalLen {
      return Err(BufferTooSmall);
    }
    hide Checksum, AsByte, Be16;
    var end := PutHeader(frame, out);
    end := CopyFromSlice(out, end, frame.payload);
    assert out[..end] == [MAGIC_0, MAGIC_1] + Covered(frame);
    var crc := ComputeChecksum(out[2..end]);
    assert out[2..end] == Covered(frame);
    end := CopyFromSlice(out, end, CrcBytes(crc));
    assert out[..totalLen] == EncodeFrame(frame);
    assert forall i :: totalLen <= i < out.Length ==> out[i] == old(out[i]);
    r := Ok(totalLen);
  }

  // ---- Round trips ----

  lemma EncodedLayout(frame: Frame, x: seq<Byte>)
    requires |frame.payload| <= MAX_PAYLOAD_SIZE && x == EncodeFrame(frame)
    ensures |x| == FRAME_OVERHEAD + |frame.payload| && HasMagic(x)
    ensures x[2] == frame.version && x[3] == frame.flags && x[6] == AsByte(frame.commandType)
    ensures x[4..6] == Be16(frame.sequence) && x[7..9] == Be16(|frame.payload|)
    ensures x[9..|x| - 2] == frame.payload && x[2..|x| - 2] == Covered(frame)
    ensures x[|x| - 2..] == CrcBytes(Checksum(Covered(frame)))
  {
    hide Checksum, AsByte, Be16, CrcBytes;
    var c := Covered(frame);
    assert |c| == 7 + |frame.payload|;
    assert x[2..|x| - 2] == c;
    assert x[4] == c[2] && x[5] == c[3] && x[7] == c[5] && x[8] == c[6];
    assert c[7..] == frame.payload;
    assert x[9..|x| - 2] == c[7..];
  }

  /** Decoding an encoded frame returns it, up to the one field that cannot survive. */
  lemma DecodeEncoded(frame: Frame)
    requires |frame.payload| <= MAX_PAYLOAD_SIZE
    ensures DecodeFrame(EncodeFrame(frame))
         == Ok(frame.(commandType := FromByte(AsByte(frame.commandType))))
    ensures DecodeFrame(EncodeFrame(frame)) == Ok(frame) <==> Canonical(frame.commandType)
  {
    var x := EncodeFrame(frame);
    EncodedLayout(frame, x);
    Be16RoundTrip(frame.sequence);
    Be16RoundTrip(|frame.payload|);
    assert x[4] == x[4..6][0] && x[5] == x[4..6][1] && x[7] == x[7..9][0] && x[8] == x[7..9][1];
    var crcOffset := |x| - 2;
    assert x[crcOffset] == x[crcOffset..][0] && x[crcOffset + 1] == x[crcOffset..][1];
    CrcBytesRoundTrip(Checksum(Covered(frame)));
    FromByteAsByte(frame.commandType);
  }

  lemma Be16Unpack(hi: Byte, lo: Byte)
    ensures Be16(FromBe16(hi, lo)) == [hi, lo]
  {
    var b := Be16(FromBe16(hi, lo));
    Be16RoundTrip(FromBe16(hi, lo));
    FromBe16Injective(b[0], b[1], hi, lo);
  }

  /** Whatever the decoder accepts is exactly the encoding of what it returns. */
  lemma EncodeDecoded(x: seq<Byte>)
    requires DecodeFrame(x).Ok?
    ensures |DecodeFrame(x).value.payload| <= MAX_PAYLOAD_SIZE
    ensures EncodeFrame(DecodeFrame(x).value) == x
  {
    hide Checksum, AsByte, FromByte, Be16, FromBe16, FromCrcBytes, CrcBytes;
    var frame := DecodeFrame(x).value;
    var n := |frame.payload|;
    Be16Unpack(x[4], x[5]);
    Be16Unpack(x[7], x[8]);
    AsByteFromByte(x[6]);
    assert Covered(frame) == x[2..9 + n] by {
      assert x[2..9 + n] == x[2..9] + x[9..9 + n];
    }
    FromCrcBytesRoundTrip(x[9 + n], x[10 + n]);
    assert x == x[..2] + x[2..9 + n] + x[9 + n..];
  }

  // ---- Burst rejection ----

  /** An accepted frame is one whose body, CRC included, leaves a zero remainder. */
  lemma AcceptedFrames(x: seq<Byte>)
    ensures DecodeFrame(x).Ok? <==>
              && |x| >= FRAME_OVERHEAD && HasMagic(x) && DeclaredLength(x) <= MAX_PAYLOAD_SIZE
              && |x| == FRAME_OVERHEAD + DeclaredLength(x) && Checksum(x[2..]) == 0
  {
    hide Checksum, FromCrcBytes, FromBe16, FromByte;
    if |x| >= FRAME_OVERHEAD && |x| == FRAME_OVERHEAD + DeclaredLength(x) {
      var n := |x| - 2;
      SealedChecksum(x[2..n], x[n], x[n + 1]);
      assert x[2..] == x[2..n] + [x[n], x[n + 1]];
    }
  }

  /** A same-length string that differs from a valid frame only in two adjacent bytes is refused. */
  lemma BurstRejected(x: seq<Byte>, y: seq<Byte>, k: nat)
    requires DecodeFrame(x).Ok? && |y| == |x| && y != x
    requires forall i :: 0 <= i < |x| && i != k && i != k + 1 ==> x[i] == y[i]
    ensures DecodeFrame(y).Err?
  {
    hide DecodeFrame, FromBe16, Checksum;
    AcceptedFrames(x);
    AcceptedFrames(y);
    if DecodeFrame(y).Ok? {
      FromBe16Injective(x[7], x[8], y[7], y[8]);
      var a, b := x[2..], y[2..];
      assert x[..2] == y[..2];
      assert x == x[..2] + a && y == y[..2] + b;
      if k >= 2 {
        ChecksumBurst(a, b, k - 2);
      } else {
        assert forall i :: 0 <= i < |a| && i != 0 && i != 1 ==> a[i] == b[i];
        ChecksumBurst(a, b, 0);
      }
    }
  }
}
