/**
 From a CDC byte stream to frames (src/frame_stream.rs and the drain loop of
 src/runtime.rs): resynchronisation on the magic pair, a fixed 251-byte buffer,
 and packets cut at arbitrary places.
 */
module FrameStream {
  import opened Types
  import opened Protocol

  datatype FrameAction =
    | NeedMore
    | DropPrefix(count: nat)
    | Reject(len: nat, sequence: U16)
    | Process(len: nat)

  function SequenceFromPartial(data: seq<Byte>): U16 {
    if |data| >= 6 then FromBe16(data[4], data[5]) else 0
  }

  function ResponseVersion(data: seq<Byte>): Byte {
    if |data| > 2 && data[2] == LEGACY_PROTOCOL_VERSION then LEGACY_PROTOCOL_VERSION else PROTOCOL_VERSION
  }

  predicate MagicAt(data: seq<Byte>, i: int) {
    0 <= i < |data| - 1 && data[i] == MAGIC_0 && data[i + 1] == MAGIC_1
  }

  /** Offset of the first magic pair, or of the last byte when there is none. */
  function FirstMagic(data: seq<Byte>): (p: nat)
    requires |data| >= 1
    ensures p < |data|
    ensures forall i :: 0 <= i < p ==> !MagicAt(data, i)
    ensures p < |data| - 1 ==> MagicAt(data, p)
  {
    if |data| == 1 || MagicAt(data, 0) then 0
    else
      var p := FirstMagic(data[1..]) + 1;
      assert forall i :: 1 <= i < |data| ==> (MagicAt(data, i) <==> MagicAt(data[1..], i - 1));
      p
  }

  /** A complete header that declares more than a frame may carry. */
  predicate Oversized(data: seq<Byte>) {
    |data| >= 9 && HasMagic(data) && DeclaredLength(data) > MAX_PAYLOAD_SIZE
  }

  function NextFrameAction(data: seq<Byte>): Option<FrameAction> {
    if data == [] then None
    else if |data| < 2 then Some(NeedMore)
    else if !HasMagic(data) then Some(DropPrefix(FirstMagic(data)))
    else if |data| < 9 then Some(NeedMore)
    else
      var payloadLen := DeclaredLength(data);
      if payloadLen > MAX_PAYLOAD_SIZE then
        Some(Reject(if |data| < FRAME_OVERHEAD then |data| else FRAME_OVERHEAD, SequenceFromPartial(data)))
      else if |data| < FRAME_OVERHEAD + payloadLen then Some(NeedMore)
      else Some(Process(FRAME_OVERHEAD + payloadLen))
  }

  /** What the drain loop hands on: a candidate frame, or a refusal of an oversized header. */
  datatype StreamEvent =
    | Candidate(bytes: seq<Byte>)
    | Refused(version: Byte, sequence: U16)

  datatype Drained = Drained(events: seq<StreamEvent>, rest: seq<Byte>) {
    function After(earlier: seq<StreamEvent>): Drained {
      Drained(earlier + events, rest)
    }
  }

  predicate Stops(action: Option<FrameAction>) {
    action == None || action == Some(NeedMore)
  }

  /** How many bytes an action takes off the front, and what it hands on. */
  function Taken(action: FrameAction): nat {
    match action
    case NeedMore => 0
    case DropPrefix(count) => count
    case Reject(len, _) => len
    case Process(len) => len
  }

  function Emitted(data: seq<Byte>, action: FrameAction): seq<StreamEvent>
    requires Taken(action) <= |data|
  {
    match action
    case NeedMore => []
    case DropPrefix(_) => []
    case Reject(_, sequence) => [Refused(ResponseVersion(data), sequence)]
    case Process(len) => [Candidate(data[..len])]
  }

  lemma ActionsAdvance(data: seq<Byte>)
    requires !Stops(NextFrameAction(data))
    ensures 0 < Taken(NextFrameAction(data).value) <= |data|
  {
    if !HasMagic(data) {
      assert !MagicAt(data, 0);
    }
  }

  function Drain(data: seq<Byte>): Drained
    decreases |data|
  {
    var action := NextFrameAction(data);
    if Stops(action) then Drained([], data)
    else
      ActionsAdvance(data);
      Drain(data[Taken(action.value)..]).After(Emitted(data, action.value))
  }

  predicate NoRefusal(events: seq<StreamEvent>) {
    forall e :: e in events ==> e.Candidate?
  }

  /** One packet, appended as far as the buffer has room and drained after every piece. */
  function Receive(data: seq<Byte>, packet: seq<Byte>): Drained
    requires |data| < MAX_FRAME_SIZE
    decreases |packet|
  {
    if packet == [] then Drained([], data)
    else
      var room := MAX_FRAME_SIZE - |data|;
      var copied := if room < |packet| then room else |packet|;
      var now := Drain(data + packet[..copied]);
      DrainLeavesRoom(data + packet[..copied]);
      var later := Receive(now.rest, packet[copied..]);
      later.After(now.events)
  }

  function ReceiveAll(data: seq<Byte>, packets: seq<seq<Byte>>): Drained
    requires |data| < MAX_FRAME_SIZE
    decreases |packets|
  {
    if packets == [] then Drained([], data)
    else
      var now := Receive(data, packets[0]);
      ReceiveLeavesRoom(data, packets[0]);
      var later := ReceiveAll(now.rest, packets[1..]);
      later.After(now.events)
  }

  function Flatten(packets: seq<seq<Byte>>): seq<Byte> {
    if packets == [] then [] else packets[0] + Flatten(packets[1..])
  }

  // ---- Progress ----

  /** The drain loop never leaves a full buffer, so the next append always copies something. */
  lemma {:induction false} DrainLeavesRoom(data: seq<Byte>)
    ensures |Drain(data).rest| < MAX_FRAME_SIZE
    ensures Drain(Drain(data).rest) == Drained([], Drain(data).rest)
    decreases |data|
  {
    var action := NextFrameAction(data);
    if !Stops(action) {
      ActionsAdvance(data);
      DrainLeavesRoom(data[Taken(action.value)..]);
    }
  }

  lemma {:induction false} ReceiveLeavesRoom(data: seq<Byte>, packet: seq<Byte>)
    requires |data| < MAX_FRAME_SIZE
    ensures |Receive(data, packet).rest| < MAX_FRAME_SIZE
    decreases |packet|
  {
    if packet != [] {
      var room := MAX_FRAME_SIZE - |data|;
      var copied := if room < |packet| then room else |packet|;
      DrainLeavesRoom(data + packet[..copied]);
      ReceiveLeavesRoom(Drain(data + packet[..copied]).rest, packet[copied..]);
    }
  }

  // ---- Independence of packet boundaries ----

  lemma FirstMagicUnique(data: seq<Byte>, p: nat)
    requires p < |data|
    requires forall i :: 0 <= i < p ==> !MagicAt(data, i)
    requires p < |data| - 1 ==> MagicAt(data, p)
    ensures FirstMagic(data) == p
  {
  }

  lemma FirstMagicBeyond(data: seq<Byte>, k: nat)
    requires k < |data|
    requires forall i :: 0 <= i < k ==> !MagicAt(data, i)
    ensures k <= FirstMagic(data)
    ensures FirstMagic(data[k..]) == FirstMagic(data) - k
  {
    var tail, p := data[k..], FirstMagic(data);
    assert forall i :: 0 <= i < |tail| ==> (MagicAt(tail, i) <==> MagicAt(data, i + k));
    FirstMagicUnique(tail, p - k);
  }

  lemma DrainDrops(data: seq<Byte>)
    requires |data| >= 2 && !HasMagic(data)
    ensures Drain(data) == Drain(data[FirstMagic(data)..])
  {
    ActionsAdvance(data);
    var count := FirstMagic(data);
    assert NextFrameAction(data) == Some(DropPrefix(count));
    hide NextFrameAction, FirstMagic, HasMagic, MagicAt;
    assert Drain(data) == Drain(data[count..]).After([]);
  }

  lemma DropDrop<T>(s: seq<T>, k: nat, p: nat)
    requires k <= p <= |s|
    ensures s[p..] == s[k..][p - k..] && s[k..][0..] == s[k..]
  {
  }

  lemma DropAppend<T>(a: seq<T>, b: seq<T>, n: nat)
    requires n <= |a|
    ensures (a + b)[n..] == a[n..] + b
  {
  }

  lemma NoMagicInFront(data: seq<Byte>)
    requires |data| >= 1 && (!MagicAt(data, 0) || 0 < FirstMagic(data))
    ensures !HasMagic(data) && (0 < FirstMagic(data) ==> |data| >= 2)
  {
  }

  /** Bytes in front of which no magic pair starts can be dropped early or late. */
  lemma DropNoise(data: seq<Byte>, k: nat)
    requires k < |data|
    requires forall i :: 0 <= i < k ==> !MagicAt(data, i)
    ensures Drain(data) == Drain(data[k..])
  {
    if k > 0 {
      hide Drain, FirstMagic;
      NoMagicInFront(data);
      FirstMagicBeyond(data, k);
      DrainDrops(data);
      var tail, p := data[k..], FirstMagic(data);
      DropDrop(data, k, p);
      hide MagicAt;
      if p != k {
        NoMagicInFront(tail);
        DrainDrops(tail);
      }
    }
  }

  /** More bytes behind a refused or complete frame do not change what happens to it. */
  lemma ActionExtends(a: seq<Byte>, b: seq<Byte>)
    requires !Stops(NextFrameAction(a)) && !NextFrameAction(a).value.DropPrefix?
    ensures !Stops(NextFrameAction(a + b))
    ensures NextFrameAction(a).value.Reject? ==> NextFrameAction(a + b).value.Reject?
    ensures NextFrameAction(a).value.Process? ==> NextFrameAction(a + b) == NextFrameAction(a)
  {
  }

  lemma RefusalShows(data: seq<Byte>)
    requires NextFrameAction(data).Some? && NextFrameAction(data).value.Reject?
    ensures !NoRefusal(Drain(data).events)
  {
    ActionsAdvance(data);
    var events := Drain(data).events;
    assert events[0].Refused? && events[0] in events;
  }

  lemma DrainProcesses(data: seq<Byte>, len: nat)
    requires NextFrameAction(data) == Some(Process(len))
    ensures 0 < len <= |data|
    ensures Drain(data) == Drain(data[len..]).After([Candidate(data[..len])])
  {
    ActionsAdvance(data);
  }

  lemma NoRefusalAfter(d: Drained, earlier: seq<StreamEvent>)
    requires NoRefusal(d.After(earlier).events)
    ensures NoRefusal(d.events)
  {
    forall e | e in d.events
      ensures e.Candidate?
    {
      assert e in d.After(earlier).events;
    }
  }

  lemma AfterAfter(d: Drained, e: seq<StreamEvent>, f: seq<StreamEvent>)
    ensures d.After(f).After(e) == d.After(e + f)
    ensures d.After([]) == d
  {
    assert e + (f + d.events) == e + f + d.events;
    assert [] + d.events == d.events;
  }

  lemma ProcessExtends(a: seq<Byte>, b: seq<Byte>, len: nat)
    requires NextFrameAction(a) == Some(Process(len))
    ensures 0 < len <= |a|
    ensures Drain(a) == Drain(a[len..]).After([Candidate(a[..len])])
    ensures Drain(a + b) == Drain(a[len..] + b).After([Candidate(a[..len])])
  {
    ActionExtends(a, b);
    hide NextFrameAction, Drain;
    DrainProcesses(a, len);
    DrainProcesses(a + b, len);
    assert (a + b)[..len] == a[..len] && (a + b)[len..] == a[len..] + b;
  }

  /** Draining early and then continuing gives what draining everything at once gives. */
  lemma {:induction false} DrainInPieces(a: seq<Byte>, b: seq<Byte>)
    requires NoRefusal(Drain(a + b).events)
    ensures Drain(a + b) == Drain(Drain(a).rest + b).After(Drain(a).events)
    ensures NoRefusal(Drain(Drain(a).rest + b).events)
    decreases |a|
  {
    var action := NextFrameAction(a);
    if Stops(action) {
      assert Drain(a) == Drained([], a);
      AfterAfter(Drain(a + b), [], []);
    } else {
      hide NextFrameAction, NoRefusal, Drain;
      match action.value
      case DropPrefix(count) =>
        DropExtends(a, b, count);
        DrainInPieces(a[count..], b);
      case Reject(_, _) =>
        ActionExtends(a, b);
        RefusalShows(a + b);
      case Process(len) =>
        ProcessExtends(a, b, len);
        var tail, one := a[len..], [Candidate(a[..len])];
        NoRefusalAfter(Drain(tail + b), one);
        DrainInPieces(tail, b);
        AfterAfter(Drain(Drain(tail).rest + b), one, Drain(tail).events);
    }
  }

  lemma DropExtends(a: seq<Byte>, b: seq<Byte>, count: nat)
    requires NextFrameAction(a) == Some(DropPrefix(count))
    ensures 0 < count < |a|
    ensures Drain(a) == Drain(a[count..]) && Drain(a + b) == Drain(a[count..] + b)
  {
    DropIsFirstMagic(a, count);
    hide *;
    StillNoMagic(a, b, count);
    DropNoise(a, count);
    DropNoise(a + b, count);
    DropAppend(a, b, count);
  }

  lemma DropIsFirstMagic(a: seq<Byte>, count: nat)
    requires NextFrameAction(a) == Some(DropPrefix(count))
    ensures 0 < count < |a| && count == FirstMagic(a)
  {
    hide FirstMagic;
    assert !MagicAt(a, 0);
  }

  lemma StillNoMagic(a: seq<Byte>, b: seq<Byte>, count: nat)
    requires count < |a| && forall i :: 0 <= i < count ==> !MagicAt(a, i)
    ensures forall i :: 0 <= i < count ==> !MagicAt(a + b, i)
  {
    forall i | 0 <= i < count
      ensures !MagicAt(a + b, i)
    {
      assert !MagicAt(a, i) && (a + b)[i] == a[i] && (a + b)[i + 1] == a[i + 1];
    }
  }

  lemma NoRefusalPrefix(a: seq<Byte>, b: seq<Byte>)
    requires NoRefusal(Drain(a + b).events)
    ensures NoRefusal(Drain(a).events)
  {
    DrainInPieces(a, b);
    forall e | e in Drain(a).events
      ensures e.Candidate?
    {
      assert e in Drain(a + b).events;
    }
  }

  lemma {:induction false} ReceiveIsDrain(data: seq<Byte>, packet: seq<Byte>)
    requires |data| < MAX_FRAME_SIZE && Drain(data) == Drained([], data)
    requires NoRefusal(Drain(data + packet).events)
    ensures Receive(data, packet) == Drain(data + packet)
    decreases |packet|
  {
    if packet == [] {
      assert data + packet == data;
    } else {
      var room := MAX_FRAME_SIZE - |data|;
      var copied := if room < |packet| then room else |packet|;
      var a, b := data + packet[..copied], packet[copied..];
      assert a + b == data + packet;
      DrainInPieces(a, b);
      DrainLeavesRoom(a);
      hide Drain;
      ReceiveIsDrain(Drain(a).rest, b);
    }
  }

  /**
   However a stream without oversized headers is cut into packets, the candidates handed on and the
   bytes left waiting are those of the uncut stream.
   */
  lemma {:induction false} PacketsDoNotMatter(data: seq<Byte>, packets: seq<seq<Byte>>)
    requires |data| < MAX_FRAME_SIZE && Drain(data) == Drained([], data)
    requires NoRefusal(Drain(data + Flatten(packets)).events)
    ensures ReceiveAll(data, packets) == Drain(data + Flatten(packets))
    decreases |packets|
  {
    if packets == [] {
      assert data + Flatten(packets) == data;
    } else {
      var first, others := packets[0], Flatten(packets[1..]);
      assert data + Flatten(packets) == (data + first) + others;
      DrainInPieces(data + first, others);
      NoRefusalPrefix(data + first, others);
      ReceiveIsDrain(data, first);
      DrainLeavesRoom(data + first);
      hide Drain;
      PacketsDoNotMatter(Drain(data + first).rest, packets[1..]);
    }
  }

  lemma DrainRefuses(data: seq<Byte>)
    requires HasMagic(data) && 9 <= |data| <= FRAME_OVERHEAD && DeclaredLength(data) > MAX_PAYLOAD_SIZE
    ensures Drain(data) == Drained([Refused(ResponseVersion(data), SequenceFromPartial(data))], [])
  {
    assert data[|data|..] == [];
    assert Drain([]) == Drained([], []);
  }

  lemma ReceiveAllStep(data: seq<Byte>, packet: seq<Byte>, others: seq<seq<Byte>>, rest: seq<Byte>, events: seq<StreamEvent>)
    requires |data| < MAX_FRAME_SIZE && Receive(data, packet) == Drained(events, rest)
    ensures |rest| < MAX_FRAME_SIZE
    ensures ReceiveAll(data, [packet] + others) == ReceiveAll(rest, others).After(events)
  {
    hide Receive;
    ReceiveLeavesRoom(data, packet);
    assert ([packet] + others)[1..] == others;
  }

  lemma MagicWaits(more: seq<Byte>)
    requires HasMagic(more) && |more| == 2
    ensures Drain(more) == Drained([], more)
  {
  }

  // ---- Exactly when cutting matters ----

  lemma NoMagicAdvances(data: seq<Byte>)
    requires |data| >= 2 && !HasMagic(data)
    ensures 0 < FirstMagic(data) < |data|
  {
    assert !MagicAt(data, 0);
  }

  /** From one frame boundary to the next, every complete header declares at most 240 bytes. */
  predicate NoOversized(data: seq<Byte>)
    decreases |data|
  {
    if |data| < 2 then true
    else if !HasMagic(data) then
      NoMagicAdvances(data);
      NoOversized(data[FirstMagic(data)..])
    else if |data| < 9 then true
    else
      var frameLen := FRAME_OVERHEAD + DeclaredLength(data);
      if frameLen > MAX_FRAME_SIZE then false
      else if |data| < frameLen then true
      else NoOversized(data[frameLen..])
  }

  lemma AfterRefuses(d: Drained, earlier: seq<StreamEvent>)
    requires NoRefusal(earlier)
    ensures NoRefusal(d.After(earlier).events) <==> NoRefusal(d.events)
  {
    var all := d.After(earlier).events;
    if NoRefusal(all) {
      assert forall e :: e in d.events ==> e in all;
    }
  }

  /** Walking the boundaries decides whether the drain loop ever refuses anything. */
  lemma {:induction false} RefusedExactlyWhenOversized(data: seq<Byte>)
    ensures NoOversized(data) <==> NoRefusal(Drain(data).events)
    decreases |data|
  {
    var action := NextFrameAction(data);
    if !Stops(action) {
      ActionsAdvance(data);
      hide NextFrameAction, FirstMagic, NoRefusal;
      match action.value
      case DropPrefix(count) =>
        DropIsFirstMagic(data, count);
        DropExtends(data, [], count);
        RefusedExactlyWhenOversized(data[count..]);
        WalkDrops(data, count);
      case Reject(_, _) =>
        RefusalShows(data);
        WalkRefuses(data);
      case Process(len) =>
        DrainProcesses(data, len);
        RefusedExactlyWhenOversized(data[len..]);
        AfterRefuses(Drain(data[len..]), [Candidate(data[..len])]) by {
          OneCandidate(data[..len]);
        }
        WalkProcesses(data, len);
    } else {
      WalkStops(data);
    }
  }

  lemma OneCandidate(bytes: seq<Byte>)
    ensures NoRefusal([Candidate(bytes)])
  {
  }

  lemma WalkDrops(data: seq<Byte>, count: nat)
    requires NextFrameAction(data) == Some(DropPrefix(count))
    ensures count <= |data| && (NoOversized(data) <==> NoOversized(data[count..]))
  {
    DropIsFirstMagic(data, count);
    hide FirstMagic;
  }

  lemma WalkRefuses(data: seq<Byte>)
    requires NextFrameAction(data).Some? && NextFrameAction(data).value.Reject?
    ensures !NoOversized(data)
  {
    hide FirstMagic;
  }

  lemma WalkProcesses(data: seq<Byte>, len: nat)
    requires NextFrameAction(data) == Some(Process(len))
    ensures len <= |data| && (NoOversized(data) <==> NoOversized(data[len..]))
  {
    hide FirstMagic;
  }

  lemma WalkStops(data: seq<Byte>)
    requires Stops(NextFrameAction(data))
    ensures NoOversized(data) && NoRefusal(Drain(data).events)
  {
    hide FirstMagic;
  }

  /** After a stretch that drains completely, what follows is drained as if it came first. */
  lemma {:induction false} DrainAfterWhole(a: seq<Byte>, b: seq<Byte>)
    requires NoRefusal(Drain(a).events) && Drain(a).rest == []
    ensures Drain(a + b) == Drain(b).After(Drain(a).events)
    decreases |a|
  {
    var action := NextFrameAction(a);
    if Stops(action) {
      assert a == [] && Drain(a) == Drained([], a);
      assert a + b == b;
      AfterNothing(Drain(b));
    } else {
      hide NextFrameAction, Drain, FirstMagic, NoRefusal;
      match action.value
      case DropPrefix(count) =>
        DropExtends(a, b, count);
        DrainAfterWhole(a[count..], b);
      case Reject(_, _) =>
        RefusalShows(a);
        assert false;
      case Process(len) =>
        ProcessExtends(a, b, len);
        var tail, one := a[len..], [Candidate(a[..len])];
        NoRefusalAfter(Drain(tail), one);
        DrainAfterWhole(tail, b);
        AfterAfter(Drain(b), one, Drain(tail).events);
    }
  }

  lemma AfterNothing(d: Drained)
    ensures d.After([]) == d
  {
    assert [] + d.events == d.events;
  }

  /** Every two ways of cutting this stream hand on the same events and leave the same bytes. */
  ghost predicate CutsAgree(stream: seq<Byte>) {
    forall p, q :: Flatten(p) == stream && Flatten(q) == stream ==> ReceiveAll([], p) == ReceiveAll([], q)
  }

  lemma SoundStreamsAgree(stream: seq<Byte>)
    requires NoOversized(stream)
    ensures CutsAgree(stream)
  {
    RefusedExactlyWhenOversized(stream);
    assert Drain([]) == Drained([], []);
    hide Drain, NoRefusal, NoOversized;
    forall p, q | Flatten(p) == stream && Flatten(q) == stream
      ensures ReceiveAll([], p) == ReceiveAll([], q)
    {
      assert [] + Flatten(p) == stream && [] + Flatten(q) == stream;
      PacketsDoNotMatter([], p);
      PacketsDoNotMatter([], q);
    }
  }

  /** Behind this header no further oversized one is reached, however many of the next two bytes it swallows. */
  predicate NoFurther(header: seq<Byte>, more: seq<Byte>)
    requires |header| == 9
  {
    if DeclaredLength(header) <= MAX_PAYLOAD_SIZE then NoOversized(header + more)
    else forall k :: 0 <= k <= 2 && k <= |more| ==> NoOversized(more[k..])
  }

  lemma WholePacket(a: seq<Byte>)
    requires NoOversized(a) && Drain(a).rest == []
    ensures Receive([], a) == Drain(a)
  {
    RefusedExactlyWhenOversized(a);
    assert Drain([]) == Drained([], []);
    hide Drain, NoRefusal;
    assert [] + a == a;
    ReceiveIsDrain([], a);
  }

  lemma SameRefusal(header: seq<Byte>, more: seq<Byte>)
    requires |header| == 9
    ensures ResponseVersion(header + more) == ResponseVersion(header)
    ensures SequenceFromPartial(header + more) == SequenceFromPartial(header)
    ensures DeclaredLength(header + more) == DeclaredLength(header) && (HasMagic(header + more) <==> HasMagic(header))
  {
  }

  lemma LastPacket(data: seq<Byte>, packet: seq<Byte>, rest: seq<Byte>, events: seq<StreamEvent>)
    requires |data| < MAX_FRAME_SIZE && Receive(data, packet) == Drained(events, rest)
    ensures ReceiveAll(data, [packet]) == Drained(events, rest)
  {
    hide Receive, ReceiveAll;
    assert [packet] == [packet] + [];
    ReceiveAllStep(data, packet, [], rest, events);
    NothingReceived(rest);
    assert events + [] == events;
  }

  lemma SoloPacket(packet: seq<Byte>)
    requires packet != [] && |packet| < MAX_FRAME_SIZE
    ensures Receive([], packet) == Drain(packet)
  {
    ReceiveOne([], packet);
    assert [] + packet == packet;
  }

  /** In one packet the header takes the two bytes behind it along. */
  lemma SwallowedTogether(before: seq<Byte>, both: seq<Byte>, earlier: seq<StreamEvent>, refused: seq<StreamEvent>)
    requires Receive([], before) == Drained(earlier, []) && both != [] && |both| < MAX_FRAME_SIZE
    requires Drain(both) == Drained(refused, [])
    ensures ReceiveAll([], [before, both]) == Drained(earlier + refused, [])
  {
    hide Drain, Receive, ReceiveAll;
    SoloPacket(both);
    assert [before, both] == [before] + [both];
    ReceiveAllStep([], before, [both], [], earlier);
    LastPacket([], both, [], refused);
  }

  /** In two packets they are left waiting. */
  lemma LeftWaiting(before: seq<Byte>, header: seq<Byte>, more: seq<Byte>, earlier: seq<StreamEvent>, refused: seq<StreamEvent>)
    requires Receive([], before) == Drained(earlier, [])
    requires header != [] && |header| < MAX_FRAME_SIZE && Drain(header) == Drained(refused, [])
    requires more != [] && |more| < MAX_FRAME_SIZE && Drain(more) == Drained([], more)
    ensures ReceiveAll([], [before, header, more]) == Drained(earlier + refused, more)
  {
    hide Drain, Receive, ReceiveAll;
    SoloPacket(header);
    SoloPacket(more);
    assert [before, header, more] == [before] + [header, more] && [header, more] == [header] + [more];
    ReceiveAllStep([], before, [header, more], [], earlier);
    ReceiveAllStep([], header, [more], [], refused);
    LastPacket([], more, more, []);
    assert refused + [] == refused;
  }

  /**
   With an oversized header the cut does matter. Behind anything that drains completely, the header and a
   magic pair give the same refusal either way, but in one packet the pair is swallowed with it and in two
   it is left waiting as the start of the next frame.
   */
  lemma OversizedHeadersDependOnPackets(before: seq<Byte>, header: seq<Byte>, more: seq<Byte>)
    requires NoOversized(before) && Drain(before).rest == []
    requires HasMagic(header) && |header| == 9 && DeclaredLength(header) > MAX_PAYLOAD_SIZE
    requires HasMagic(more) && |more| == 2
    ensures var events := Drain(before).events + [Refused(ResponseVersion(header), SequenceFromPartial(header))];
            && ReceiveAll([], [before, header + more]) == Drained(events, [])
            && ReceiveAll([], [before, header, more]) == Drained(events, more)
  {
    SameRefusal(header, more);
    DrainRefuses(header + more);
    DrainRefuses(header);
    MagicWaits(more);
    WholePacket(before);
    hide Drain, Receive, ReceiveAll, ResponseVersion, SequenceFromPartial, DeclaredLength, HasMagic, NoOversized;
    var refused := [Refused(ResponseVersion(header), SequenceFromPartial(header))];
    SwallowedTogether(before, header + more, Drain(before).events, refused);
    LeftWaiting(before, header, more, Drain(before).events, refused);
  }

  lemma MagicPairIsSound(header: seq<Byte>)
    requires |header| == 9 && DeclaredLength(header) > MAX_PAYLOAD_SIZE
    ensures NoFurther(header, [MAGIC_0, MAGIC_1])
  {
  }

  lemma CutsDisagree(before: seq<Byte>, header: seq<Byte>)
    requires NoOversized(before) && Drain(before).rest == []
    requires HasMagic(header) && |header| == 9 && DeclaredLength(header) > MAX_PAYLOAD_SIZE
    ensures NoFurther(header, [MAGIC_0, MAGIC_1]) && !CutsAgree(before + header + [MAGIC_0, MAGIC_1])
  {
    var more := [MAGIC_0, MAGIC_1];
    assert HasMagic(more);
    MagicPairIsSound(header);
    hide Drain, NoOversized, ReceiveAll, DeclaredLength, HasMagic, ResponseVersion, SequenceFromPartial, NoFurther, Flatten;
    OversizedHeadersDependOnPackets(before, header, more);
    FlattenTwo(before, header + more);
    FlattenThree(before, header, more);
    assert before + (header + more) == before + header + more;
    DifferentCuts(before + header + more, [before, header + more], [before, header, more]);
  }

  lemma DifferentCuts(stream: seq<Byte>, p: seq<seq<Byte>>, q: seq<seq<Byte>>)
    requires Flatten(p) == stream && Flatten(q) == stream && ReceiveAll([], p) != ReceiveAll([], q)
    ensures !CutsAgree(stream)
  {
    hide Flatten, ReceiveAll;
  }

  lemma FlattenTwo(a: seq<Byte>, b: seq<Byte>)
    ensures Flatten([a, b]) == a + b
  {
    assert [a, b][1..] == [b] && [b][1..] == [];
    assert Flatten([b]) == b + [];
  }

  lemma FlattenThree(a: seq<Byte>, b: seq<Byte>, c: seq<Byte>)
    ensures Flatten([a, b, c]) == a + b + c
  {
    assert [a, b, c][1..] == [b, c];
    FlattenTwo(b, c);
    assert a + (b + c) == a + b + c;
  }

  lemma SoundPrefix(before: seq<Byte>, more: seq<Byte>)
    requires NoOversized(before) && Drain(before).rest == [] && NoOversized(more)
    ensures NoOversized(before + more)
  {
    RefusedExactlyWhenOversized(before);
    RefusedExactlyWhenOversized(more);
    RefusedExactlyWhenOversized(before + more);
    DrainAfterWhole(before, more);
    AfterRefuses(Drain(more), Drain(before).events);
    hide Drain, NoOversized, NoRefusal;
  }

  /**
   Exactly when cutting matters. Behind anything that drains completely, and whatever follows without another
   oversized header, the way a stream through this header is cut into packets makes no difference to events or
   leftover bytes if and only if the header declares at most 240 payload bytes.
   */
  lemma CuttingMattersExactly(before: seq<Byte>, header: seq<Byte>)
    requires NoOversized(before) && Drain(before).rest == []
    requires HasMagic(header) && |header| == 9
    ensures (forall more :: NoFurther(header, more) ==> CutsAgree(before + header + more))
            <==> DeclaredLength(header) <= MAX_PAYLOAD_SIZE
  {
    hide Drain, NoOversized, DeclaredLength, CutsAgree, HasMagic;
    if DeclaredLength(header) <= MAX_PAYLOAD_SIZE {
      forall more | NoFurther(header, more)
        ensures CutsAgree(before + header + more)
      {
        SoundPrefix(before, header + more);
        assert before + (header + more) == before + header + more;
        SoundStreamsAgree(before + header + more);
      }
    } else {
      CutsDisagree(before, header);
    }
  }

  lemma NothingReceived(data: seq<Byte>)
    requires |data| < MAX_FRAME_SIZE
    ensures ReceiveAll(data, []) == Drained([], data)
  {
  }

  lemma ReceiveOne(data: seq<Byte>, packet: seq<Byte>)
    requires packet != [] && |data| + |packet| < MAX_FRAME_SIZE
    ensures Receive(data, packet) == Drain(data + packet)
  {
    assert packet[..|packet|] == packet;
    assert packet[|packet|..] == [];
    DrainLeavesRoom(data + packet);
    var now := Drain(data + packet);
    hide Drain;
    assert Receive(now.rest, []) == Drained([], now.rest);
    assert now.events + [] == now.events;
  }

  // ---- Stream round trip ----

  datatype Sent = Sent(noise: seq<Byte>, frame: Frame)

  /** A frame within the payload limit behind noise that holds no magic pair. */
  type NoisyFrame = s: Sent |
    |s.frame.payload| <= MAX_PAYLOAD_SIZE && forall i :: 0 <= i < |s.noise| ==> !MagicAt(s.noise, i)
    witness Sent([], Frame(PROTOCOL_VERSION, 0, 1, Ping, []))

  function Transmit(sent: seq<NoisyFrame>): seq<Byte> {
    if sent == [] then [] else sent[0].noise + EncodeFrame(sent[0].frame) + Transmit(sent[1..])
  }

  /** The event carries the frame's bytes, and they decode to the frame. */
  predicate Delivers(event: StreamEvent, frame: Frame) {
    && |frame.payload| <= MAX_PAYLOAD_SIZE
    && event == Candidate(EncodeFrame(frame))
    && (Canonical(frame.commandType) ==> DecodeFrame(event.bytes) == Ok(frame))
  }

  lemma EncodedHeader(frame: Frame, x: seq<Byte>)
    requires |frame.payload| <= MAX_PAYLOAD_SIZE && x == EncodeFrame(frame)
    ensures |x| == FRAME_OVERHEAD + |frame.payload| && HasMagic(x) && DeclaredLength(x) == |frame.payload|
  {
    hide Covered, EncodeFrame, Be16;
    EncodedLayout(frame, x);
    Be16RoundTrip(|frame.payload|);
    assert x[7] == x[7..9][0] && x[8] == x[7..9][1];
  }

  lemma EncodedFrameIsProcessed(frame: Frame, rest: seq<Byte>)
    requires |frame.payload| <= MAX_PAYLOAD_SIZE
    ensures NextFrameAction(EncodeFrame(frame) + rest) == Some(Process(|EncodeFrame(frame)|))
  {
    hide EncodeFrame, FromBe16;
    var x := EncodeFrame(frame);
    EncodedHeader(frame, x);
    var d := x + rest;
    assert d[0] == x[0] && d[1] == x[1] && d[7] == x[7] && d[8] == x[8];
  }

  lemma NoMagicInNoise(s: NoisyFrame, rest: seq<Byte>)
    ensures forall i :: 0 <= i < |s.noise| ==> !MagicAt(s.noise + EncodeFrame(s.frame) + rest, i)
  {
    hide EncodeFrame;
    var x := EncodeFrame(s.frame);
    EncodedHeader(s.frame, x);
    var d := s.noise + x + rest;
    forall i | 0 <= i < |s.noise|
      ensures !MagicAt(d, i)
    {
      assert d[i] == s.noise[i];
      if i < |s.noise| - 1 {
        assert d[i + 1] == s.noise[i + 1];
        assert !MagicAt(s.noise, i);
      } else {
        assert d[i + 1] == x[0];
      }
    }
  }

  lemma EncodedFrameDelivers(frame: Frame)
    requires |frame.payload| <= MAX_PAYLOAD_SIZE
    ensures Delivers(Candidate(EncodeFrame(frame)), frame)
  {
    hide EncodeFrame, DecodeFrame;
    DecodeEncoded(frame);
  }

  lemma DrainNoisyFrame(s: NoisyFrame, rest: seq<Byte>)
    ensures Drain(s.noise + EncodeFrame(s.frame) + rest) == Drain(rest).After([Candidate(EncodeFrame(s.frame))])
  {
    hide EncodeFrame, Drain, NextFrameAction;
    var x := EncodeFrame(s.frame);
    EncodedHeader(s.frame, x);
    NoMagicInNoise(s, rest);
    var d := s.noise + x + rest;
    DropNoise(d, |s.noise|);
    assert d[|s.noise|..] == x + rest;
    EncodedFrameIsProcessed(s.frame, rest);
    DrainProcesses(x + rest, |x|);
    assert (x + rest)[..|x|] == x && (x + rest)[|x|..] == rest;
  }

  ghost predicate DeliversAll(d: Drained, sent: seq<NoisyFrame>) {
    && d.rest == []
    && |d.events| == |sent|
    && forall i :: 0 <= i < |sent| ==> Delivers(d.events[i], sent[i].frame)
  }

  lemma DeliversOneMore(d: Drained, sent: seq<NoisyFrame>, event: StreamEvent)
    requires sent != [] && DeliversAll(d, sent[1..]) && Delivers(event, sent[0].frame)
    ensures DeliversAll(d.After([event]), sent)
  {
    hide Delivers;
    var all := d.After([event]);
    forall i | 0 <= i < |sent|
      ensures Delivers(all.events[i], sent[i].frame)
    {
      if i > 0 {
        assert all.events[i] == d.events[i - 1] && sent[i] == sent[1..][i - 1];
      }
    }
  }

  lemma {:induction false} DrainTransmitted(sent: seq<NoisyFrame>)
    ensures DeliversAll(Drain(Transmit(sent)), sent)
  {
    if sent != [] {
      hide EncodeFrame, Drain, DeliversAll, Delivers;
      DrainTransmitted(sent[1..]);
      DrainNoisyFrame(sent[0], Transmit(sent[1..]));
      EncodedFrameDelivers(sent[0].frame);
      DeliversOneMore(Drain(Transmit(sent[1..])), sent, Candidate(EncodeFrame(sent[0].frame)));
    }
  }

  lemma DeliveredWithoutRefusal(d: Drained, sent: seq<NoisyFrame>)
    requires DeliversAll(d, sent)
    ensures NoRefusal(d.events)
  {
    hide EncodeFrame;
    assert forall i :: 0 <= i < |sent| ==> Delivers(d.events[i], sent[i].frame);
  }

  /**
   Frames sent with arbitrary magic-free noise in front of each, cut into packets in any way, come out
   complete and in order, each decodes to what was sent, and the buffer ends empty.
   */
  lemma StreamRoundTrip(sent: seq<NoisyFrame>, packets: seq<seq<Byte>>)
    requires Flatten(packets) == Transmit(sent)
    ensures DeliversAll(ReceiveAll([], packets), sent)
  {
    assert Drain([]) == Drained([], []);
    hide *;
    DrainTransmitted(sent);
    DeliveredWithoutRefusal(Drain(Transmit(sent)), sent);
    assert [] + Flatten(packets) == Transmit(sent);
    PacketsDoNotMatter([], packets);
  }

  // ---- The buffer itself ----

  class FrameBuffer {
    const buf: array<Byte>
    var len: nat

    ghost predicate Valid()
      reads this
    {
      buf.Length == MAX_FRAME_SIZE && len <= MAX_FRAME_SIZE
    }

    ghost function Data(): seq<Byte>
      requires Valid()
      reads this, buf
    {
      buf[..len]
    }

    constructor ()
      ensures Valid() && Data() == [] && fresh(buf)
    {
      buf := new Byte[MAX_FRAME_SIZE];
      len := 0;
    }

    method ShiftLeft(count: nat)
      requires Valid()
      modifies this, buf
      ensures Valid()
      ensures Data() == if count >= |old(Data())| then [] else old(Data())[count..]
    {
      if count >= len {
        len := 0;
        return;
      }
      var remaining := len - count;
      for i := 0 to remaining
        invariant len == old(len)
        invariant forall j :: 0 <= j < i ==> buf[j] == old(buf[j + count])
        invariant forall j :: i <= j < len ==> buf[j] == old(buf[j])
      {
        buf[i] := buf[i + count];
      }
      len := remaining;
    }

    method AppendPacketChunk(packet: seq<Byte>, offset: nat) returns (copied: nat)
      requires Valid() && offset <= |packet|
      modifies this, buf
      ensures Valid() && offset + copied <= |packet|
      ensures Data() == old(Data()) + packet[offset..offset + copied]
      ensures copied == if MAX_FRAME_SIZE - old(len) < |packet| - offset then MAX_FRAME_SIZE - old(len) else |packet| - offset
    {
      if len >= buf.Length || offset >= |packet| {
        return 0;
      }
      copied := if buf.Length - len < |packet| - offset then buf.Length - len else |packet| - offset;
      for i := 0 to copied
        invariant len == old(len)
        invariant buf[..len] == old(buf[..len])
        invariant forall j :: len <= j < len + i ==> buf[j] == packet[offset + (j - len)]
      {
        buf[len + i] := packet[offset + i];
      }
      assert buf[len..len + copied] == packet[offset..offset + copied];
      len := len + copied;
    }

    /** One turn of the drain loop. */
    method TakeAction(action: FrameAction) returns (emitted: seq<StreamEvent>)
      requires Valid() && NextFrameAction(Data()) == Some(action) && !Stops(Some(action))
      modifies this, buf
      ensures Valid() && len < old(len)
      ensures Drain(old(Data())) == Drain(Data()).After(emitted)
    {
      hide Drain, FirstMagic;
      ghost var data := Data();
      ActionsAdvance(data);
      match action {
        case DropPrefix(count) =>
          emitted := [];
          ShiftLeft(count);
        case Reject(size, sequence) =>
          emitted := [Refused(ResponseVersion(buf[..len]), sequence)];
          ShiftLeft(size);
        case Process(size) =>
          emitted := [Candidate(buf[..size])];
          assert buf[..size] == data[..size];
          ShiftLeft(size);
      }
      DrainTakes(data, Data(), action, emitted);
    }

    method DrainFrames() returns (events: seq<StreamEvent>)
      requires Valid()
      modifies this, buf
      ensures Valid() && len < MAX_FRAME_SIZE
      ensures Drain(old(Data())) == Drained(events, Data())
    {
      hide Drain, NextFrameAction;
      events := [];
      DrainLeavesRoom(Data());
      AfterAfter(Drain(Data()), [], []);
      var action := NextFrameAction(buf[..len]);
      while !Stops(action)
        invariant Valid()
        invariant action == NextFrameAction(Data())
        invariant Drain(old(Data())) == Drain(Data()).After(events)
        decreases len
      {
        var emitted := TakeAction(action.value);
        AfterAfter(Drain(Data()), events, emitted);
        events := events + emitted;
        action := NextFrameAction(buf[..len]);
      }
      DrainStops(Data(), events);
    }

    /** One turn of the packet loop: append what fits, then drain. */
    method ReceiveChunk(packet: seq<Byte>, offset: nat) returns (copied: nat, drained: seq<StreamEvent>)
      requires Valid() && len < MAX_FRAME_SIZE && offset < |packet|
      modifies this, buf
      ensures Valid() && len < MAX_FRAME_SIZE && 0 < copied <= |packet| - offset
      ensures Receive(old(Data()), packet[offset..]) == Receive(Data(), packet[offset + copied..]).After(drained)
    {
      hide Receive, Drain;
      ghost var data, left := Data(), packet[offset..];
      copied := AppendPacketChunk(packet, offset);
      assert left[..copied] == packet[offset..offset + copied];
      assert left[copied..] == packet[offset + copied..];
      drained := DrainFrames();
      ReceiveStep(data, left, copied, Data(), drained);
    }

    /** The packet loop of the receive task. */
    method ReceivePacket(packet: seq<Byte>) returns (events: seq<StreamEvent>)
      requires Valid() && len < MAX_FRAME_SIZE
      modifies this, buf
      ensures Valid() && len < MAX_FRAME_SIZE
      ensures Receive(old(Data()), packet) == Drained(events, Data())
    {
      hide Receive;
      events := [];
      var offset := 0;
      assert packet[0..] == packet;
      AfterAfter(Receive(Data(), packet), [], []);
      while offset < |packet|
        invariant Valid() && len < MAX_FRAME_SIZE && offset <= |packet|
        invariant Receive(old(Data()), packet) == Receive(Data(), packet[offset..]).After(events)
      {
        var copied, drained := ReceiveChunk(packet, offset);
        offset := offset + copied;
        AfterAfter(Receive(Data(), packet[offset..]), events, drained);
        events := events + drained;
      }
      assert packet[offset..] == [];
      ReceiveNothing(Data(), events);
    }
  }

  lemma ReceiveNothing(data: seq<Byte>, events: seq<StreamEvent>)
    requires |data| < MAX_FRAME_SIZE
    ensures Receive(data, []).After(events) == Drained(events, data)
  {
    assert events + [] == events;
  }

  lemma DrainStops(data: seq<Byte>, events: seq<StreamEvent>)
    requires Stops(NextFrameAction(data))
    ensures Drain(data).After(events) == Drained(events, data)
  {
    assert events + [] == events;
  }

  lemma DrainTakes(data: seq<Byte>, left: seq<Byte>, action: FrameAction, emitted: seq<StreamEvent>)
    requires NextFrameAction(data) == Some(action) && !Stops(Some(action))
    requires Taken(action) <= |data| && left == data[Taken(action)..] && emitted == Emitted(data, action)
    ensures Drain(data) == Drain(left).After(emitted)
  {
  }

  lemma ReceiveStep(data: seq<Byte>, packet: seq<Byte>, copied: nat, rest: seq<Byte>, events: seq<StreamEvent>)
    requires |data| < MAX_FRAME_SIZE && packet != []
    requires copied == if MAX_FRAME_SIZE - |data| < |packet| then MAX_FRAME_SIZE - |data| else |packet|
    requires Drain(data + packet[..copied]) == Drained(events, rest)
    ensures |rest| < MAX_FRAME_SIZE
    ensures Receive(data, packet) == Receive(rest, packet[copied..]).After(events)
  {
    DrainLeavesRoom(data + packet[..copied]);
  }
}
