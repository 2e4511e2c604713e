/**
 From packets to requests: what the receiver makes of every frame, which requests it
 accepts, and that everything the host sends arrives as the request it sent.
 */
module Receiver {
  import opened Types
  import opened Protocol
  import opened Commands
  import opened FrameStream
  import opened Coordinator
  import opened Client
  import opened Wire

  datatype Arrival = Request(request: OwnedRequest) | Refusal(response: CachedResponse)

  /** What drain_frames does with one action: a request for the dispatcher, or a NACK at once. */
  function Handle(event: StreamEvent): Arrival {
    match event
    case Refused(version, sequence) => Refusal(NackResponse(version, sequence, BadFrame))
    case Candidate(bytes) =>
      match DecodeFrame(bytes)
      case Err(_) => Refusal(NackResponse(ResponseVersion(bytes), SequenceFromPartial(bytes), BadFrame))
      case Ok(frame) =>
        match FromFrame(frame)
        case Ok(request) => Request(request)
        case Err(error) => Refusal(NackResponse(frame.version, frame.sequence, error))
  }

  function HandleAll(events: seq<StreamEvent>): seq<Arrival> {
    if events == [] then [] else [Handle(events[0])] + HandleAll(events[1..])
  }

  lemma {:induction false} HandledEach(events: seq<StreamEvent>)
    ensures |HandleAll(events)| == |events| && forall i :: 0 <= i < |events| ==> HandleAll(events)[i] == Handle(events[i])
  {
    hide Handle;
    if events != [] {
      HandledEach(events[1..]);
    }
  }

  // ---- Which requests are accepted ----

  predicate Versioned(frame: Frame) {
    frame.version == 1 || frame.version == 2
  }

  /** The one frame that may go without a sequence: the version 2 heartbeat that wants no answer. */
  predicate IsSilentBeat(frame: Frame) {
    frame.version == 2 && frame.commandType == Heartbeat && frame.flags == 1 && frame.sequence == 0
  }

  /** The request a frame carries, unanswered as yet. */
  predicate CarriesFrame(r: OwnedRequest, frame: Frame) {
    && r.version == frame.version && r.flags == frame.flags && r.sequence == frame.sequence
    && r.commandType == frame.commandType && r.body == Raw(frame.payload) && r.token.None?
  }

  /**
   Every frame that can be sent: accepted with a reply exactly if its version is known, its flags are clear and
   its sequence is not zero; accepted without one exactly if it is the silent heartbeat; otherwise refused
   with the first of version, flags and sequence that is wrong, under the sender's own version and sequence.
   */
  lemma AcceptedExactly(frame: Frame)
    requires |frame.payload| <= MAX_PAYLOAD_SIZE && Canonical(frame.commandType)
    ensures var arrival := Handle(Candidate(EncodeFrame(frame)));
            && (arrival.Request? && arrival.request.kind == ResponseExpected
                <==> Versioned(frame) && frame.flags == 0 && frame.sequence != 0)
            && (arrival.Request? && arrival.request.kind == NoResponseHeartbeat <==> IsSilentBeat(frame))
            && (arrival.Request? ==> CarriesFrame(arrival.request, frame))
            && (arrival.Refusal? ==>
                  arrival.response == NackResponse(frame.version, frame.sequence,
                    if !Versioned(frame) then ErrorCode.UnsupportedVersion
                    else if frame.flags != 0 then ErrorCode.UnsupportedFlags
                    else ErrorCode.InvalidSequence))
  {
    DecodeEncoded(frame);
    hide DecodeFrame, EncodeFrame, Canonical, Fingerprint, ErrorByte;
  }

  /** What is not a frame is refused as such, with what can be read of its version and sequence. */
  lemma BrokenFramesRefused(bytes: seq<Byte>)
    requires DecodeFrame(bytes).Err? && |bytes| >= FRAME_OVERHEAD
    ensures Handle(Candidate(bytes)) ==
              Refusal(NackResponse(if bytes[2] == 1 then 1 else 2, BigEndian(bytes[4], bytes[5]), BadFrame))
  {
    hide DecodeFrame, ErrorByte;
  }

  /**
   A header at the front that declares more than 240 is refused as BAD_FRAME under the version and sequence it
   shows, and takes what is buffered of its first eleven bytes with it; draining goes on behind them.
   */
  lemma OversizedRefused(data: seq<Byte>)
    requires |data| >= 9 && data[0] == 0xA5 && data[1] == 0x5A && BigEndian(data[7], data[8]) > 240
    ensures var left := Drain(data[if |data| < 11 then |data| else 11..]);
            && Drain(data).rest == left.rest
            && HandleAll(Drain(data).events) ==
                 [Refusal(NackResponse(if data[2] == 1 then 1 else 2, BigEndian(data[4], data[5]), BadFrame))] + HandleAll(left.events)
  {
    hide Drain, ErrorByte, DecodeFrame, FromFrame, Handle;
    var gone := if |data| < 11 then |data| else 11;
    var refused := Refused(ResponseVersion(data), SequenceFromPartial(data));
    DrainTakes(data, data[gone..], FrameAction.Reject(gone, SequenceFromPartial(data)), [refused]);
    HandledFirst(refused, Drain(data[gone..]).events);
    HandledAsBroken(refused.version, refused.sequence);
  }

  lemma HandledFirst(event: StreamEvent, events: seq<StreamEvent>)
    ensures HandleAll([event] + events) == [Handle(event)] + HandleAll(events)
  {
    hide Handle;
    assert ([event] + events)[1..] == events;
  }

  lemma HandledAsBroken(version: Byte, sequence: U16)
    ensures Handle(Refused(version, sequence)) == Refusal(NackResponse(version, sequence, BadFrame))
  {
  }

  // ---- Everything the host sends ----

  /** encode_frame in send_command_with_timeout: version 2, no flags, the n-th sequence. */
  function CommandFrame(n: nat, commandType: CommandType, payload: seq<Byte>): Frame {
    Frame(PROTOCOL_VERSION, 0, SequenceOf(n), commandType, payload)
  }

  /** What start_heartbeat writes. */
  const BEAT_FRAME := Frame(PROTOCOL_VERSION, FLAG_NO_RESPONSE, 0, Heartbeat, [])

  /** A frame the client or its heartbeat thread writes. */
  ghost predicate HostFrame(frame: Frame) {
    || frame == BEAT_FRAME
    || (exists n: nat :: frame == CommandFrame(n, frame.commandType, frame.payload)
                      && |frame.payload| <= MAX_PAYLOAD_SIZE && Canonical(frame.commandType))
  }

  lemma HostFrameAccepted(frame: Frame)
    requires HostFrame(frame)
    ensures var arrival := Handle(Candidate(EncodeFrame(frame)));
            && arrival.Request? && WellFormed(arrival.request) && CarriesFrame(arrival.request, frame)
            && (arrival.request.kind == NoResponseHeartbeat <==> frame == BEAT_FRAME)
  {
    if frame != BEAT_FRAME {
      var n: nat :| frame == CommandFrame(n, frame.commandType, frame.payload);
      SequencesCount(n);
    }
    assert Canonical(BEAT_FRAME.commandType);
    AcceptedExactly(frame);
    hide Handle, EncodeFrame, SequenceOf, Canonical;
  }

  /**
   Whatever the client and its heartbeat thread write, with noise in front of any frame and cut into packets in
   any way, arrives as exactly those requests, in order, none refused.
   */
  lemma HostFramesArrive(sent: seq<NoisyFrame>, packets: seq<seq<Byte>>)
    requires Flatten(packets) == Transmit(sent) && forall i :: 0 <= i < |sent| ==> HostFrame(sent[i].frame)
    ensures var arrivals := HandleAll(ReceiveAll([], packets).events);
            && |arrivals| == |sent|
            && forall i :: 0 <= i < |sent| ==>
                 arrivals[i].Request? && WellFormed(arrivals[i].request) && CarriesFrame(arrivals[i].request, sent[i].frame)
  {
    StreamRoundTrip(sent, packets);
    var events := ReceiveAll([], packets).events;
    HandledEach(events);
    hide ReceiveAll, Transmit, Flatten, HandleAll, HostFrame, Handle, EncodeFrame, WellFormed, DecodeFrame;
    forall i | 0 <= i < |sent|
      ensures Handle(events[i]).Request? && WellFormed(Handle(events[i]).request) && CarriesFrame(Handle(events[i]).request, sent[i].frame)
    {
      HostFrameAccepted(sent[i].frame);
    }
  }
}
