/**
 Typed commands (src/commands.rs), their allocation-free owned form
 (src/owned_command.rs) and the payload writer the executor uses before decoding
 them again (src/runtime.rs).
 */
module Commands {
  import opened Types
  import opened Protocol

  const MOD_LEFT_SHIFT: Byte := 0x02

  datatype KeyStroke = KeyStroke(modifier: Byte, keycode: Byte)

  datatype MouseButton = Left | Right | Middle

  function ButtonFromMask(mask: Byte): Option<MouseButton> {
    if mask == 1 then Some(Left)
    else if mask == 2 then Some(Right)
    else if mask == 4 then Some(Middle)
    else None
  }

  function Mask(button: MouseButton): Byte {
    match button
    case Left => 1
    case Right => 2
    case Middle => 4
  }

  datatype Command =
    | DoPing | DoGetInfo | DoGetCaps | DoHeartbeat
    | DoKeyDown(stroke: KeyStroke)
    | DoKeyUp(stroke: KeyStroke)
    | DoKeyTap(stroke: KeyStroke)
    | DoTypeAscii(bytes: seq<Byte>)
    | DoMouseMoveRel(dx: I16, dy: I16)
    | DoMouseButtonDown(button: MouseButton)
    | DoMouseButtonUp(button: MouseButton)
    | DoMouseClick(button: MouseButton)
    | DoMouseWheel(wheel: I8)
    | DoWaitMs(milliseconds: U32)
    | DoBatchBegin | DoBatchEnd | DoStopAll

  datatype CommandError = InvalidPayloadLength | InvalidMouseButton | UnsupportedCommand | WaitTooLong

  function CommandErrorCode(error: CommandError): ErrorCode {
    if error == CommandError.WaitTooLong then ErrorCode.WaitTooLong else BadCommand
  }

  function ExpectEmpty(payload: seq<Byte>, command: Command): Result<Command, CommandError> {
    if payload == [] then Ok(command) else Err(InvalidPayloadLength)
  }

  function DecodeKeystroke(payload: seq<Byte>): Result<KeyStroke, CommandError> {
    if |payload| != 2 then Err(InvalidPayloadLength) else Ok(KeyStroke(payload[0], payload[1]))
  }

  function DecodeMouseButton(payload: seq<Byte>): Result<MouseButton, CommandError> {
    if |payload| != 1 then Err(InvalidPayloadLength)
    else match ButtonFromMask(payload[0])
      case Some(button) => Ok(button)
      case None => Err(InvalidMouseButton)
  }

  function DecodeWaitMs(payload: seq<Byte>): Result<Command, CommandError> {
    if |payload| != 4 then Err(InvalidPayloadLength)
    else if FromBe32(payload) > MAX_WAIT_MS then Err(CommandError.WaitTooLong)
    else Ok(DoWaitMs(FromBe32(payload)))
  }

  function MapOk<T, U>(r: Result<T, CommandError>, f: T -> U): Result<U, CommandError> {
    match r
    case Ok(value) => Ok(f(value))
    case Err(error) => Err(error)
  }

  function DecodeCommand(commandType: CommandType, payload: seq<Byte>): Result<Command, CommandError> {
    match commandType
    case Ping => ExpectEmpty(payload, DoPing)
    case GetInfo => ExpectEmpty(payload, DoGetInfo)
    case GetCaps => ExpectEmpty(payload, DoGetCaps)
    case Heartbeat => ExpectEmpty(payload, DoHeartbeat)
    case KeyDown => MapOk(DecodeKeystroke(payload), s => DoKeyDown(s))
    case KeyUp => MapOk(DecodeKeystroke(payload), s => DoKeyUp(s))
    case KeyTap => MapOk(DecodeKeystroke(payload), s => DoKeyTap(s))
    case TypeAscii => Ok(DoTypeAscii(payload))
    case MouseMoveRel =>
      if |payload| != 4 then Err(InvalidPayloadLength)
      else Ok(DoMouseMoveRel(BitsI16(FromBe16(payload[0], payload[1])), BitsI16(FromBe16(payload[2], payload[3]))))
    case MouseButtonDown => MapOk(DecodeMouseButton(payload), b => DoMouseButtonDown(b))
    case MouseButtonUp => MapOk(DecodeMouseButton(payload), b => DoMouseButtonUp(b))
    case MouseClick => MapOk(DecodeMouseButton(payload), b => DoMouseClick(b))
    case MouseWheel =>
      if |payload| != 1 then Err(InvalidPayloadLength) else Ok(DoMouseWheel(BitsI8(payload[0])))
    case WaitMs => DecodeWaitMs(payload)
    case BatchBegin => ExpectEmpty(payload, DoBatchBegin)
    case BatchEnd => ExpectEmpty(payload, DoBatchEnd)
    case StopAll => ExpectEmpty(payload, DoStopAll)
    case _ => Err(UnsupportedCommand)
  }

  /** Commands that can be owned: no batch marker, and text within one payload. */
  type OwnedCommand = c: Command |
    !c.DoBatchBegin? && !c.DoBatchEnd? && (c.DoTypeAscii? ==> |c.bytes| <= MAX_PAYLOAD_SIZE)
    witness DoPing

  function OwnedFromFrame(commandType: CommandType, payload: seq<Byte>): Result<OwnedCommand, CommandError> {
    match DecodeCommand(commandType, payload)
    case Err(error) => Err(error)
    case Ok(command) =>
      if command.DoBatchBegin? || command.DoBatchEnd? then Err(UnsupportedCommand)
      else if command.DoTypeAscii? && |command.bytes| > MAX_PAYLOAD_SIZE then Err(InvalidPayloadLength)
      else Ok(command)
  }

  function PayloadLen(command: OwnedCommand): nat {
    match command
    case DoKeyDown(_) => 2
    case DoKeyUp(_) => 2
    case DoKeyTap(_) => 2
    case DoTypeAscii(bytes) => |bytes|
    case DoMouseMoveRel(_, _) => 4
    case DoWaitMs(_) => 4
    case DoMouseButtonDown(_) => 1
    case DoMouseButtonUp(_) => 1
    case DoMouseClick(_) => 1
    case DoMouseWheel(_) => 1
    case _ => 0
  }

  datatype Encoded = Encoded(commandType: CommandType, payload: seq<Byte>)

  function EncodeOwnedCommand(command: OwnedCommand): Encoded {
    match command
    case DoPing => Encoded(Ping, [])
    case DoGetInfo => Encoded(GetInfo, [])
    case DoGetCaps => Encoded(GetCaps, [])
    case DoHeartbeat => Encoded(Heartbeat, [])
    case DoKeyDown(s) => Encoded(KeyDown, [s.modifier, s.keycode])
    case DoKeyUp(s) => Encoded(KeyUp, [s.modifier, s.keycode])
    case DoKeyTap(s) => Encoded(KeyTap, [s.modifier, s.keycode])
    case DoTypeAscii(bytes) => Encoded(TypeAscii, bytes)
    case DoMouseMoveRel(dx, dy) => Encoded(MouseMoveRel, Be16(I16Bits(dx)) + Be16(I16Bits(dy)))
    case DoMouseButtonDown(b) => Encoded(MouseButtonDown, [Mask(b)])
    case DoMouseButtonUp(b) => Encoded(MouseButtonUp, [Mask(b)])
    case DoMouseClick(b) => Encoded(MouseClick, [Mask(b)])
    case DoMouseWheel(w) => Encoded(MouseWheel, [I8Bits(w)])
    case DoWaitMs(ms) => Encoded(WaitMs, Be32(ms))
    case DoStopAll => Encoded(StopAll, [])
  }

  /** The commands the admission path can store: whatever some frame decodes to. */
  ghost predicate Storable(command: OwnedCommand) {
    exists t, p :: OwnedFromFrame(t, p) == Ok(command)
  }

  lemma BitsI16RoundTrip(n: I16)
    ensures BitsI16(I16Bits(n)) == n
  {
  }

  predicate WithinWaitLimit(command: Command) {
    command.DoWaitMs? ==> command.milliseconds <= MAX_WAIT_MS
  }

  lemma ScalarsSurvive(command: OwnedCommand)
    requires command.DoMouseMoveRel? || command.DoMouseWheel? || command.DoWaitMs?
    ensures var e := EncodeOwnedCommand(command);
            DecodeCommand(e.commandType, e.payload) == Ok(command) <==> WithinWaitLimit(command)
  {
    hide Be16, Be32, FromBe16, FromBe32, I16Bits, BitsI16;
    match command
    case DoMouseMoveRel(dx, dy) =>
      Be16RoundTrip(I16Bits(dx));
      Be16RoundTrip(I16Bits(dy));
      BitsI16RoundTrip(dx);
      BitsI16RoundTrip(dy);
    case DoMouseWheel(w) =>
    case DoWaitMs(ms) =>
      Be32RoundTrip(ms);
  }

  lemma ByteFieldsSurvive(command: OwnedCommand)
    requires !command.DoMouseMoveRel? && !command.DoMouseWheel? && !command.DoWaitMs?
    ensures var e := EncodeOwnedCommand(command);
            DecodeCommand(e.commandType, e.payload) == Ok(command)
  {
    hide Be16, Be32, FromBe16, FromBe32, I16Bits, BitsI16, I8Bits, BitsI8;
  }

  /**
   Writing an owned command out and decoding it again is lossless, except that an over-long wait
   is refused.
   */
  lemma EncodedCommandSurvives(command: OwnedCommand)
    ensures var e := EncodeOwnedCommand(command);
            DecodeCommand(e.commandType, e.payload) == Ok(command) <==> WithinWaitLimit(command)
    ensures |EncodeOwnedCommand(command).payload| == PayloadLen(command) <= MAX_PAYLOAD_SIZE
  {
    hide Be16, Be32, FromBe16, FromBe32, I16Bits, BitsI16, I8Bits, BitsI8, DecodeCommand;
    if command.DoMouseMoveRel? || command.DoMouseWheel? || command.DoWaitMs? {
      ScalarsSurvive(command);
    } else {
      ByteFieldsSurvive(command);
    }
  }

  lemma DecodedWaitIsShort(commandType: CommandType, payload: seq<Byte>)
    requires DecodeCommand(commandType, payload).Ok?
    ensures WithinWaitLimit(DecodeCommand(commandType, payload).value)
  {
    hide FromBe16, FromBe32, BitsI16, BitsI8, ButtonFromMask;
  }

  /** Exactly the commands that survive the second decoding can be stored by the first. */
  lemma StorableCommands(command: OwnedCommand)
    ensures Storable(command) <==> WithinWaitLimit(command)
  {
    hide DecodeCommand, EncodeOwnedCommand;
    var e := EncodeOwnedCommand(command);
    EncodedCommandSurvives(command);
    if WithinWaitLimit(command) {
      assert OwnedFromFrame(e.commandType, e.payload) == Ok(command);
    } else {
      forall t, p
        ensures OwnedFromFrame(t, p) != Ok(command)
      {
        if DecodeCommand(t, p).Ok? {
          DecodedWaitIsShort(t, p);
        }
      }
    }
  }

  /** encode_owned_command: writes the payload over the front of a full-size buffer. */
  method EncodeInto(command: OwnedCommand, payload: array<Byte>) returns (commandType: CommandType, len: nat)
    requires payload.Length == MAX_PAYLOAD_SIZE
    modifies payload
    ensures len <= payload.Length && Encoded(commandType, payload[..len]) == EncodeOwnedCommand(command)
    ensures payload[len..] == old(payload[len..])
  {
    hide Be16, Be32, I16Bits, I8Bits, Mask;
    len := 0;
    match command {
      case DoPing => commandType := Ping;
      case DoGetInfo => commandType := GetInfo;
      case DoGetCaps => commandType := GetCaps;
      case DoHeartbeat => commandType := Heartbeat;
      case DoStopAll => commandType := StopAll;
      case DoKeyDown(stroke) =>
        commandType := KeyDown;
        len := CopyFromSlice(payload, 0, [stroke.modifier, stroke.keycode]);
      case DoKeyUp(stroke) =>
        commandType := KeyUp;
        len := CopyFromSlice(payload, 0, [stroke.modifier, stroke.keycode]);
      case DoKeyTap(stroke) =>
        commandType := KeyTap;
        len := CopyFromSlice(payload, 0, [stroke.modifier, stroke.keycode]);
      case DoTypeAscii(bytes) =>
        commandType := TypeAscii;
        len := CopyFromSlice(payload, 0, bytes);
      case DoMouseMoveRel(dx, dy) =>
        commandType := MouseMoveRel;
        len := CopyFromSlice(payload, 0, Be16(I16Bits(dx)));
        len := CopyFromSlice(payload, len, Be16(I16Bits(dy)));
      case DoMouseButtonDown(button) =>
        commandType := MouseButtonDown;
        len := CopyFromSlice(payload, 0, [Mask(button)]);
      case DoMouseButtonUp(button) =>
        commandType := MouseButtonUp;
        len := CopyFromSlice(payload, 0, [Mask(button)]);
      case DoMouseClick(button) =>
        commandType := MouseClick;
        len := CopyFromSlice(payload, 0, [Mask(button)]);
      case DoMouseWheel(wheel) =>
        commandType := MouseWheel;
        len := CopyFromSlice(payload, 0, [I8Bits(wheel)]);
      case DoWaitMs(milliseconds) =>
        commandType := WaitMs;
        len := CopyFromSlice(payload, 0, Be32(milliseconds));
    }
  }
}
