/**
 What is on the wire, byte by byte and in numbers: the frame with its trailing remainder,
 which strings are frames, what each payload asks for, and the error codes.
 */
module Wire {
  import opened Types
  import opened Crc
  import opened CrcDivision
  import opened Protocol
  import opened Commands

  // ---- Frames ----

  /** The last two bytes are the remainder of everything behind the magic, preset included. */
  ghost predicate Sealed(x: seq<Byte>)
    requires |x| >= 4
  {
    MessageBits(x[|x| - 2..]) == Remainder(AddFront(MessageBits(x[2..|x| - 2]) + Repeat(false, 16), Repeat(true, 16)))
  }

  lemma TwoBytes(hi: Byte, lo: Byte)
    ensures MessageBits([hi, lo]) == WordBits(FromCrcBytes(hi, lo))
  {
    WordOfTwo(Bits(hi), Bits(lo));
    hide BytePlaces, WordBits, Word;
    assert [hi, lo][1..] == [lo] && [lo][1..] == [];
    assert BytePlaces(Bits(lo), 8) + [] == BytePlaces(Bits(lo), 8);
  }

  lemma SealedByChecksum(x: seq<Byte>)
    requires |x| >= 4
    ensures Sealed(x) <==> FromCrcBytes(x[|x| - 2], x[|x| - 1]) == Checksum(x[2..|x| - 2])
  {
    var n := |x| - 2;
    TwoBytes(x[n], x[n + 1]);
    assert x[n..] == [x[n], x[n + 1]];
    ChecksumIsRemainder(x[2..n]);
    hide Checksum, WordBits, FromCrcBytes, Remainder, MessageBits, AddFront;
    if Sealed(x) {
      WordBitsInjective(FromCrcBytes(x[n], x[n + 1]), Checksum(x[2..n]));
    }
  }

  /** A number sent big end first. */
  function BigEndian(hi: Byte, lo: Byte): nat {
    256 * hi + lo
  }

  ghost predicate IsFrame(x: seq<Byte>) {
    && |x| >= 11 && x[0] == 0xA5 && x[1] == 0x5A && BigEndian(x[7], x[8]) <= 240
    && |x| == 11 + BigEndian(x[7], x[8]) && Sealed(x)
  }

  /** A string is accepted exactly if it starts with the magic, has the length it declares, at most 240, and is sealed. */
  lemma FramesOnTheWire(x: seq<Byte>)
    ensures DecodeFrame(x).Ok? <==> IsFrame(x)
    ensures DecodeFrame(x).Ok? ==>
              var frame := DecodeFrame(x).value;
              && frame.version == x[2] && frame.flags == x[3] && frame.sequence == BigEndian(x[4], x[5])
              && AsByte(frame.commandType) == x[6] && frame.payload == x[9..|x| - 2]
  {
    hide Checksum, FromCrcBytes, Sealed, AsByte, FromByte;
    if |x| >= 11 {
      SealedByChecksum(x);
      AsByteFromByte(x[6]);
    }
  }

  /** A frame is written field by field, big end first, and sealed. */
  lemma WrittenOnTheWire(frame: Frame)
    requires |frame.payload| <= 240
    ensures var x, n := EncodeFrame(frame), |frame.payload|;
            && |x| == 11 + n && Sealed(x) && x[9..9 + n] == frame.payload
            && x[..9] == [0xA5, 0x5A, frame.version, frame.flags, frame.sequence / 256, frame.sequence % 256,
                          AsByte(frame.commandType), 0, n]
  {
    hide EncodeFrame, DecodeFrame, Covered, Sealed, AsByte, FromByte, Checksum, CrcBytes, Be16, HasMagic;
    var x := EncodeFrame(frame);
    DecodeEncoded(frame);
    FramesOnTheWire(x);
    EncodedLayout(frame, x);
    FirstNine(x, frame.sequence, |frame.payload|);
  }

  lemma FirstNine(x: seq<Byte>, sequence: U16, n: Byte)
    requires |x| >= 9 && HasMagic(x) && x[4..6] == Be16(sequence) && x[7..9] == Be16(n)
    ensures x[..9] == [0xA5, 0x5A, x[2], x[3], sequence / 256, sequence % 256, x[6], 0, n]
  {
    assert x[4] == x[4..6][0] && x[5] == x[4..6][1] && x[7] == x[7..9][0] && x[8] == x[7..9][1];
  }

  // ---- Requests ----

  function ButtonNumber(button: MouseButton): Byte {
    match button
    case Left => 1
    case Right => 2
    case Middle => 4
  }

  function BigEndian32(b: seq<Byte>): nat
    requires |b| == 4
  {
    BigEndian(b[0], b[1]) * 0x1_0000 + BigEndian(b[2], b[3])
  }

  /** The type byte and payload that ask for a command: numbers big end first, negative ones in two's complement. */
  predicate AsksFor(code: Byte, payload: seq<Byte>, command: Command) {
    match command
    case DoPing => code == 0x01 && payload == []
    case DoGetInfo => code == 0x02 && payload == []
    case DoGetCaps => code == 0x03 && payload == []
    case DoHeartbeat => code == 0x04 && payload == []
    case DoKeyDown(stroke) => code == 0x10 && payload == [stroke.modifier, stroke.keycode]
    case DoKeyUp(stroke) => code == 0x11 && payload == [stroke.modifier, stroke.keycode]
    case DoKeyTap(stroke) => code == 0x12 && payload == [stroke.modifier, stroke.keycode]
    case DoTypeAscii(bytes) => code == 0x13 && payload == bytes
    case DoMouseMoveRel(dx, dy) =>
      && code == 0x20 && |payload| == 4
      && BigEndian(payload[0], payload[1]) == (dx + 0x1_0000) % 0x1_0000
      && BigEndian(payload[2], payload[3]) == (dy + 0x1_0000) % 0x1_0000
    case DoMouseButtonDown(button) => code == 0x21 && payload == [ButtonNumber(button)]
    case DoMouseButtonUp(button) => code == 0x22 && payload == [ButtonNumber(button)]
    case DoMouseClick(button) => code == 0x23 && payload == [ButtonNumber(button)]
    case DoMouseWheel(wheel) => code == 0x24 && |payload| == 1 && payload[0] as int == (wheel + 0x100) % 0x100
    case DoWaitMs(milliseconds) => code == 0x30 && |payload| == 4 && BigEndian32(payload) == milliseconds <= 60_000
    case DoBatchBegin => code == 0x40 && payload == []
    case DoBatchEnd => code == 0x41 && payload == []
    case DoStopAll => code == 0x7F && payload == []
  }

  lemma MovesOnTheWire(hi: Byte, lo: Byte, d: I16)
    ensures BitsI16(FromBe16(hi, lo)) == d <==> BigEndian(hi, lo) == (d + 0x1_0000) % 0x1_0000
  {
  }

  lemma WheelOnTheWire(b: Byte, wheel: I8)
    ensures BitsI8(b) == wheel <==> b as int == (wheel + 0x100) % 0x100
  {
  }

  lemma WaitOnTheWire(b: seq<Byte>)
    requires |b| == 4
    ensures FromBe32(b) == BigEndian32(b)
  {
  }

  predicate HasNumbers(command: Command) {
    command.DoMouseMoveRel? || command.DoMouseWheel? || command.DoWaitMs?
  }

  lemma NumbersOnTheWire(code: Byte, payload: seq<Byte>, command: Command)
    requires HasNumbers(command)
    ensures DecodeCommand(FromByte(code), payload) == Ok(command) <==> AsksFor(code, payload, command)
  {
    if |payload| == 4 {
      WaitOnTheWire(payload);
    }
    hide FromBe16, FromBe32, BitsI16, BitsI8, BigEndian, BigEndian32;
    match command
    case DoMouseMoveRel(dx, dy) =>
      if |payload| == 4 {
        MovesOnTheWire(payload[0], payload[1], dx);
        MovesOnTheWire(payload[2], payload[3], dy);
      }
    case DoMouseWheel(wheel) =>
      if |payload| == 1 {
        WheelOnTheWire(payload[0], wheel);
      }
    case _ =>
  }

  lemma BytesOnTheWire(code: Byte, payload: seq<Byte>, command: Command)
    requires !HasNumbers(command)
    ensures DecodeCommand(FromByte(code), payload) == Ok(command) <==> AsksFor(code, payload, command)
  {
    hide FromBe16, FromBe32, BitsI16, BitsI8, BigEndian, BigEndian32;
  }

  /** A frame asks for a command exactly if it has that command's type byte and payload. */
  lemma CommandsOnTheWire(code: Byte, payload: seq<Byte>, command: Command)
    ensures DecodeCommand(FromByte(code), payload) == Ok(command) <==> AsksFor(code, payload, command)
  {
    hide DecodeCommand, AsksFor;
    if HasNumbers(command) {
      NumbersOnTheWire(code, payload, command);
    } else {
      BytesOnTheWire(code, payload, command);
    }
  }

  /** The only request with an error of its own is a wait of the right length that asks for more than a minute. */
  lemma LongWaitsOnTheWire(code: Byte, payload: seq<Byte>)
    ensures DecodeCommand(FromByte(code), payload) == Err(CommandError.WaitTooLong)
            <==> code == 0x30 && |payload| == 4 && BigEndian32(payload) > 60_000
  {
    if |payload| == 4 {
      WaitOnTheWire(payload);
    }
    hide FromBe16, FromBe32, BitsI16, BitsI8, BigEndian32;
  }

  // ---- Error codes ----

  /** ErrorCode::from_byte */
  function ErrorFromByte(b: Byte): Option<ErrorCode> {
    if b == 1 then Some(BadFrame)
    else if b == 2 then Some(BadCommand)
    else if b == 3 then Some(UnsupportedAscii)
    else if b == 4 then Some(HidWrite)
    else if b == 5 then Some(Transport)
    else if b == 6 then Some(FrameTooLong)
    else if b == 7 then Some(ErrorCode.UnsupportedVersion)
    else if b == 8 then Some(ErrorCode.UnsupportedFlags)
    else if b == 9 then Some(ErrorCode.InvalidSequence)
    else if b == 10 then Some(SequenceConflict)
    else if b == 11 then Some(BatchState)
    else if b == 12 then Some(BatchCapacity)
    else if b == 13 then Some(TooManyKeys)
    else if b == 14 then Some(ErrorCode.WaitTooLong)
    else if b == 15 then Some(KeyboardBusy)
    else if b == 16 then Some(Cancelled)
    else None
  }

  /** Every error has its own byte, and exactly those bytes make a NACK final. */
  lemma ErrorsOnTheWire(error: ErrorCode, b: Byte)
    ensures ErrorFromByte(b) == Some(error) <==> ErrorByte(error) == b
    ensures IsErrorByte(b) <==> ErrorFromByte(b).Some?
  {
  }
}
