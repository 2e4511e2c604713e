/**
 The host client's side of one command (tools/hidctl/src/client.rs): sequence numbers,
 the retry loop, and reading replies out of a byte buffer.
 */
module Client {
  import opened Types
  import opened Protocol
  import opened Commands
  import opened FrameStream
  import opened Movement

  // ---- Sequence numbers ----

  /** wrapping_add(1).max(1) */
  function NextSequence(sequence: U16): U16 {
    var next := (sequence + 1) % U16_LIMIT;
    if next < 1 then 1 else next
  }

  /** The sequence number of the n-th command, counting from zero. */
  function SequenceOf(n: nat): U16 {
    n % 65535 + 1
  }

  lemma SequencesCount(n: nat)
    ensures SequenceOf(0) == 1 && NextSequence(SequenceOf(n)) == SequenceOf(n + 1) && SequenceOf(n) != 0
    ensures n < 65535 ==> SequenceOf(n) == n + 1
  {
  }

  // ---- One attempt ----

  function ExpectedType(commandType: CommandType): CommandType {
    if commandType == GetInfo || commandType == GetCaps then Status else Ack
  }

  datatype Reply = TimedOut | Broken | Got(commandType: CommandType, payload: seq<Byte>)

  datatype ClientError = MalformedBusy | StillBusy | NackReceived(code: Byte) | UnexpectedType | NoAnswer | LinkBroken

  datatype Verdict = Again | Succeeded(payload: seq<Byte>) | Failed(error: ClientError)

  /** What one reply means on a given attempt. */
  function Judge(reply: Reply, expected: CommandType, attempt: nat, retries: nat): Verdict {
    match reply
    case TimedOut => if attempt < retries then Again else Failed(NoAnswer)
    case Broken => Failed(LinkBroken)
    case Got(commandType, payload) =>
      if commandType == Busy then
        if BusyDelay(payload).None? then Failed(MalformedBusy)
        else if attempt >= retries then Failed(StillBusy)
        else Again
      else if commandType == Nack then Failed(NackReceived(if payload == [] then 0 else payload[0]))
      else if commandType == expected then Succeeded(payload)
      else Failed(UnexpectedType)
  }

  /** busy_retry_delay: what a BUSY asks the client to wait, if it is well formed. */
  function BusyDelay(payload: seq<Byte>): Option<nat> {
    if |payload| != 3 then None else Some(FromBe16(payload[1], payload[2]))
  }

  /** The whole loop over the replies each attempt would get: its verdict and how many frames it wrote. */
  function Attempts(replies: nat -> Reply, expected: CommandType, attempt: nat, retries: nat): (Verdict, nat)
    requires attempt <= retries
    decreases retries - attempt
  {
    var verdict := Judge(replies(attempt), expected, attempt, retries);
    if verdict == Again then
      if attempt == retries then (verdict, attempt + 1) else Attempts(replies, expected, attempt + 1, retries)
    else (verdict, attempt + 1)
  }

  /** On the last attempt no verdict asks for another. */
  lemma LastAttemptDecides(reply: Reply, expected: CommandType, retries: nat)
    ensures Judge(reply, expected, retries, retries) != Again
  {
  }

  /** What the last reply the loop reads makes of the command. */
  predicate Concludes(reply: Reply, expected: CommandType, verdict: Verdict) {
    match reply
    case TimedOut => verdict == Failed(NoAnswer)
    case Broken => verdict == Failed(LinkBroken)
    case Got(commandType, payload) =>
      if commandType == Busy then verdict == Failed(if |payload| == 3 then StillBusy else MalformedBusy)
      else if commandType == Nack then verdict == Failed(NackReceived(if payload == [] then 0 else payload[0]))
      else verdict == if commandType == expected then Succeeded(payload) else Failed(UnexpectedType)
  }

  /** A timeout or a well-formed BUSY: worth another attempt. */
  predicate Inconclusive(reply: Reply) {
    reply == TimedOut || (reply.Got? && reply.commandType == Busy && |reply.payload| == 3)
  }

  /**
   The loop always decides, by the first reply that is not a timeout or a well-formed BUSY, or by the last
   attempt's; it never gives up on one of those earlier, and what it reports is what that reply says.
   */
  lemma {:induction false} AttemptsDecide(replies: nat -> Reply, expected: CommandType, attempt: nat, retries: nat)
    requires attempt <= retries && expected != Busy && expected != Nack
    ensures var (verdict, frames) := Attempts(replies, expected, attempt, retries);
            && verdict != Again && attempt < frames <= retries + 1
            && (forall k :: attempt <= k < frames - 1 ==> Inconclusive(replies(k)))
            && (Inconclusive(replies(frames - 1)) ==> frames == retries + 1)
            && Concludes(replies(frames - 1), expected, verdict)
    decreases retries - attempt
  {
    LastAttemptDecides(replies(retries), expected, retries);
    if Judge(replies(attempt), expected, attempt, retries) == Again && attempt < retries {
      AttemptsDecide(replies, expected, attempt + 1, retries);
    }
  }

  // ---- Reading replies ----

  datatype Response = Response(commandType: CommandType, payload: seq<Byte>)

  datatype ReadError = ResponseTooLong | CrcFailed | InvalidFrame(error: DecodeError)

  /** Bytes left in the buffer, and the reply found, if any. */
  datatype Reading = Reading(rest: seq<Byte>, found: Result<Option<Response>, ReadError>)

  function DecodeFailure(error: DecodeError): ReadError {
    if error == BadCrc then CrcFailed else InvalidFrame(error)
  }

  /** try_decode_response: skips noise and replies to other sequences. */
  function TryDecode(data: seq<Byte>, expected: U16): Reading
    decreases |data|
  {
    if |data| < 2 then Reading(data, Ok(None))
    else if !HasMagic(data) then TryDecode(data[FirstMagic(data)..], expected)
    else if |data| < 9 then Reading(data, Ok(None))
    else
      var frameLen := FRAME_OVERHEAD + DeclaredLength(data);
      if frameLen > MAX_FRAME_SIZE then Reading(data, Err(ResponseTooLong))
      else if |data| < frameLen then Reading(data, Ok(None))
      else
        match DecodeFrame(data[..frameLen])
        case Err(error) => Reading(data[frameLen..], Err(DecodeFailure(error)))
        case Ok(frame) =>
          if frame.sequence != expected then TryDecode(data[frameLen..], expected)
          else Reading(data[frameLen..], Ok(Some(Response(frame.commandType, frame.payload))))
  }

  /** known_command_duration_ms for the commands whose payload fixes their length. */
  function KnownDuration(commandType: CommandType, payload: seq<Byte>): Option<nat> {
    match commandType
    case WaitMs => if |payload| == 4 then Some(FromBe32(payload)) else None
    case TypeAscii => Some(|payload| * 8)
    case MouseMoveRel =>
      if |payload| == 4 then
        Some(EstimatedSteps(BitsI16(FromBe16(payload[0], payload[1])), BitsI16(FromBe16(payload[2], payload[3]))))
      else None
    case KeyTap => Some(8)
    case MouseClick => Some(20)
    case _ => None
  }

  /** For a movement the estimate is the number of steps the device will send. */
  lemma MovementEstimateIsExact(command: OwnedCommand)
    requires command.DoMouseMoveRel?
    ensures var e := EncodeOwnedCommand(command);
            KnownDuration(e.commandType, e.payload) == Some(|Steps(command.dx, command.dy)|)
  {
    hide Be16, FromBe16, BitsI16, I16Bits, EstimatedSteps, Steps;
    Be16RoundTrip(I16Bits(command.dx));
    Be16RoundTrip(I16Bits(command.dy));
    BitsI16RoundTrip(command.dx);
    BitsI16RoundTrip(command.dy);
    StepsConserve(command.dx, command.dy);
  }

  class HidClient {
    var sequence: U16
    var receiveBuffer: seq<Byte>
    const retries: Byte

    constructor (retries: Byte)
      ensures sequence == SequenceOf(0) && receiveBuffer == [] && this.retries == retries
    {
      sequence := 1;
      receiveBuffer := [];
      this.retries := retries;
    }

    method TakeSequence() returns (taken: U16)
      modifies this`sequence
      ensures taken == old(sequence) && sequence == NextSequence(old(sequence))
    {
      taken := sequence;
      var next := (sequence + 1) % U16_LIMIT;
      sequence := if next < 1 then 1 else next;
    }

    /** The retry loop; replies(k) is what the k-th attempt reads. */
    method SendWithRetries(replies: nat -> Reply, commandType: CommandType) returns (verdict: Verdict, frames: nat)
      ensures (verdict, frames) == Attempts(replies, ExpectedType(commandType), 0, retries)
    {
      var expected := ExpectedType(commandType);
      for attempt := 0 to (retries as int) + 1
        invariant Attempts(replies, expected, 0, retries)
               == if attempt <= retries as int then Attempts(replies, expected, attempt, retries) else (Again, attempt)
      {
        verdict := Judge(replies(attempt), expected, attempt, retries);
        if verdict != Again {
          return verdict, attempt + 1;
        }
      }
      AttemptsDecide(replies, expected, 0, retries);
      assert false;
    }

    /** Works through the receive buffer in place. */
    method TryDecodeResponse(expected: U16) returns (found: Result<Option<Response>, ReadError>)
      modifies this`receiveBuffer
      ensures Reading(receiveBuffer, found) == TryDecode(old(receiveBuffer), expected)
    {
      hide DecodeFrame, FirstMagic;
      while true
        invariant TryDecode(receiveBuffer, expected) == TryDecode(old(receiveBuffer), expected)
        decreases |receiveBuffer|
      {
        if |receiveBuffer| < 2 {
          return Ok(None);
        }
        if !HasMagic(receiveBuffer) {
          receiveBuffer := receiveBuffer[FirstMagic(receiveBuffer)..];
          continue;
        }
        if |receiveBuffer| < 9 {
          return Ok(None);
        }
        var frameLen := FRAME_OVERHEAD + DeclaredLength(receiveBuffer);
        if frameLen > MAX_FRAME_SIZE {
          return Err(ResponseTooLong);
        }
        if |receiveBuffer| < frameLen {
          return Ok(None);
        }
        var decoded := DecodeFrame(receiveBuffer[..frameLen]);
        receiveBuffer := receiveBuffer[frameLen..];
        if decoded.Err? {
          return Err(DecodeFailure(decoded.error));
        }
        if decoded.value.sequence == expected {
          return Ok(Some(Response(decoded.value.commandType, decoded.value.payload)));
        }
      }
    }
  }

  // ---- Stale replies are skipped ----

  lemma OneFrame(frame: Frame, rest: seq<Byte>, expected: U16)
    requires |frame.payload| <= MAX_PAYLOAD_SIZE && Canonical(frame.commandType)
    ensures TryDecode(EncodeFrame(frame) + rest, expected)
         == if frame.sequence != expected then TryDecode(rest, expected)
            else Reading(rest, Ok(Some(Response(frame.commandType, frame.payload))))
  {
    hide EncodeFrame, DecodeFrame, FromBe16, FirstMagic;
    var x := EncodeFrame(frame);
    var d := x + rest;
    EncodedHeader(frame, x);
    DecodeEncoded(frame);
    assert d[0] == x[0] && d[1] == x[1] && d[7] == x[7] && d[8] == x[8];
    assert d[..|x|] == x && d[|x|..] == rest;
  }

  /** Bytes in front of which no magic pair starts are skipped. */
  lemma NoiseSkipped(noise: seq<Byte>, data: seq<Byte>, expected: U16)
    requires data != [] && forall i :: 0 <= i < |noise| ==> !MagicAt(noise + data, i)
    ensures TryDecode(noise + data, expected) == TryDecode(data, expected)
  {
    var all, k := noise + data, |noise|;
    assert all[k..] == data;
    if k > 0 {
      NoMagicInFront(all);
      FirstMagicBeyond(all, k);
      var p := FirstMagic(all);
      DropDrop(all, k, p);
      if p != k {
        NoMagicInFront(data);
      }
      hide MagicAt, FirstMagic, DecodeFrame;
    } else {
      assert all == data;
    }
  }

  lemma OneNoisyFrame(s: NoisyFrame, rest: seq<Byte>, expected: U16)
    requires Canonical(s.frame.commandType)
    ensures TryDecode(s.noise + EncodeFrame(s.frame) + rest, expected)
         == if s.frame.sequence != expected then TryDecode(rest, expected)
            else Reading(rest, Ok(Some(Response(s.frame.commandType, s.frame.payload))))
  {
    hide EncodeFrame, TryDecode, Canonical, MagicAt;
    var x := EncodeFrame(s.frame);
    EncodedHeader(s.frame, x);
    NoMagicInNoise(s, rest);
    assert s.noise + x + rest == s.noise + (x + rest);
    NoiseSkipped(s.noise, x + rest, expected);
    OneFrame(s.frame, rest, expected);
  }

  /** Replies to other commands, as a device can send them. */
  predicate Stale(sent: seq<NoisyFrame>, expected: U16) {
    forall i :: 0 <= i < |sent| ==> Canonical(sent[i].frame.commandType) && sent[i].frame.sequence != expected
  }

  lemma {:induction false} StaleSkipped(stale: seq<NoisyFrame>, data: seq<Byte>, expected: U16)
    requires Stale(stale, expected)
    ensures TryDecode(Transmit(stale) + data, expected) == TryDecode(data, expected)
    decreases |stale|
  {
    hide EncodeFrame, TryDecode, Canonical;
    if stale == [] {
      assert Transmit(stale) + data == data;
    } else {
      var others := Transmit(stale[1..]) + data;
      assert Transmit(stale) + data == stale[0].noise + EncodeFrame(stale[0].frame) + others;
      OneNoisyFrame(stale[0], others, expected);
      StaleSkipped(stale[1..], data, expected);
    }
  }

  /**
   Any number of replies to other commands, however stale, and noise without a magic pair anywhere between
   them are discarded, the awaited reply is returned as sent, and what follows it stays in the buffer.
   */
  lemma StaleRepliesSkipped(stale: seq<NoisyFrame>, awaited: NoisyFrame, rest: seq<Byte>)
    requires Stale(stale, awaited.frame.sequence) && Canonical(awaited.frame.commandType)
    ensures TryDecode(Transmit(stale) + (awaited.noise + EncodeFrame(awaited.frame) + rest), awaited.frame.sequence)
         == Reading(rest, Ok(Some(Response(awaited.frame.commandType, awaited.frame.payload))))
  {
    hide EncodeFrame, TryDecode, Canonical;
    StaleSkipped(stale, awaited.noise + EncodeFrame(awaited.frame) + rest, awaited.frame.sequence);
    OneNoisyFrame(awaited, rest, awaited.frame.sequence);
  }

  /** As many bytes as a header declares. */
  predicate WholeReply(x: seq<Byte>) {
    |x| >= FRAME_OVERHEAD && HasMagic(x) && DeclaredLength(x) <= MAX_PAYLOAD_SIZE && |x| == FRAME_OVERHEAD + DeclaredLength(x)
  }

  lemma OnlyTheCrcCanFail(x: seq<Byte>)
    requires WholeReply(x) && DecodeFrame(x).Err?
    ensures DecodeFrame(x).error == BadCrc
  {
    hide FromBe16;
  }

  /** A whole reply whose checksum is wrong, to whatever command, fails the read and is removed; it is never skipped. */
  lemma DamagedReplyFails(stale: seq<NoisyFrame>, damaged: seq<Byte>, rest: seq<Byte>, expected: U16)
    requires Stale(stale, expected) && WholeReply(damaged) && DecodeFrame(damaged).Err?
    ensures TryDecode(Transmit(stale) + (damaged + rest), expected) == Reading(rest, Err(CrcFailed))
  {
    StaleSkipped(stale, damaged + rest, expected);
    OnlyTheCrcCanFail(damaged);
    hide DecodeFrame, Canonical, Transmit, FromBe16;
    var d := damaged + rest;
    assert d[0] == damaged[0] && d[1] == damaged[1] && d[7] == damaged[7] && d[8] == damaged[8];
    assert d[..|damaged|] == damaged && d[|damaged|..] == rest;
  }

  // ---- A reply that declares too much ----

  lemma {:induction false} ReadingShrinks(data: seq<Byte>, expected: U16)
    ensures |TryDecode(data, expected).rest| <= |data|
    decreases |data|
  {
    hide DecodeFrame, FirstMagic;
    if |data| >= 2 {
      if !HasMagic(data) {
        NoMagicAdvances(data);
        ReadingShrinks(data[FirstMagic(data)..], expected);
      } else if |data| >= 9 && FRAME_OVERHEAD + DeclaredLength(data) <= |data| {
        ReadingShrinks(data[FRAME_OVERHEAD + DeclaredLength(data)..], expected);
      }
    }
  }

  /** Failing on an oversized reply with nothing removed from the buffer means the buffer starts with one. */
  lemma StuckStartsOversized(data: seq<Byte>, expected: U16)
    requires TryDecode(data, expected) == Reading(data, Err(ResponseTooLong))
    ensures Oversized(data)
  {
    hide DecodeFrame, FirstMagic;
    if !HasMagic(data) {
      NoMagicAdvances(data);
      ReadingShrinks(data[FirstMagic(data)..], expected);
    } else {
      var frameLen := FRAME_OVERHEAD + DeclaredLength(data);
      if frameLen <= |data| {
        ReadingShrinks(data[frameLen..], expected);
      }
    }
  }

  /** Every read, for any command, fails on the front of the buffer and removes nothing. */
  ghost predicate Stuck(data: seq<Byte>) {
    forall later :: TryDecode(data, later) == Reading(data, Err(ResponseTooLong))
  }

  /** The reader is stuck, whatever command it waits for, exactly when its buffer starts with an oversized header. */
  lemma StuckExactlyWhenOversized(data: seq<Byte>)
    ensures Stuck(data) <==> Oversized(data)
  {
    if Oversized(data) {
      forall later
        ensures TryDecode(data, later) == Reading(data, Err(ResponseTooLong))
      {
      }
    }
    if Stuck(data) {
      assert TryDecode(data, 0) == Reading(data, Err(ResponseTooLong));
      StuckStartsOversized(data, 0);
    }
  }

  /**
   Behind any stale replies, a header makes this read fail and stay in the buffer, so that every later read
   for any command fails on it too, if and only if it declares more than 240 payload bytes.
   */
  lemma OversizedReplySticks(stale: seq<NoisyFrame>, header: seq<Byte>, rest: seq<Byte>, expected: U16)
    requires Stale(stale, expected)
    requires |header| == 9 && HasMagic(header)
    ensures (&& TryDecode(Transmit(stale) + (header + rest), expected) == Reading(header + rest, Err(ResponseTooLong))
             && Stuck(header + rest))
            <==> DeclaredLength(header) > MAX_PAYLOAD_SIZE
  {
    var data := header + rest;
    assert Oversized(data) <==> DeclaredLength(header) > MAX_PAYLOAD_SIZE by {
      assert data[7] == header[7] && data[8] == header[8] && data[0] == header[0] && data[1] == header[1];
    }
    hide TryDecode, Oversized, DeclaredLength, HasMagic, Canonical;
    StaleSkipped(stale, data, expected);
    StuckExactlyWhenOversized(data);
  }

  /** A reply header that declares 241 payload bytes. */
  const OVERSIZED_HEADER: seq<Byte> := [MAGIC_0, MAGIC_1, 2, 0, 0, 1, 0x80, 0, 241]

  /** One such header is enough to fail its own read and every later one. */
  lemma OneHeaderSticks(rest: seq<Byte>, later: U16)
    ensures TryDecode(OVERSIZED_HEADER + rest, later) == Reading(OVERSIZED_HEADER + rest, Err(ResponseTooLong))
  {
    assert DeclaredLength(OVERSIZED_HEADER) == 241;
    assert HasMagic(OVERSIZED_HEADER);
    assert Transmit([]) + (OVERSIZED_HEADER + rest) == OVERSIZED_HEADER + rest;
    hide TryDecode, DeclaredLength;
    OversizedReplySticks([], OVERSIZED_HEADER, rest, later);
  }
}
