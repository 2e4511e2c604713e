/**
 One host client talking to one coordinator over a link that may lose whole frames in
 either direction but keeps their order: what the retry loop and the response cache
 achieve together within one session, whatever completes the accepted requests.
 */
module Link {
  import opened Types
  import opened Protocol
  import opened Commands
  import opened Coordinator
  import opened CoordinatorHistory
  import opened Replay
  import opened Retention
  import opened Client

  /** The command being sent: the same frame on every attempt. */
  datatype Sending = Sending(request: OwnedRequest, attempt: nat)

  datatype Report = Report(sequence: U16, success: bool)

  /**
   started counts commands; admitted lists, in order, the sequence of every request the device accepted for
   execution; finished holds those completed with something other than a refusal.
   */
  datatype State = State(
    retries: Byte,
    started: nat,
    next: U16,
    sending: Option<Sending>,
    reports: seq<Report>,
    up: seq<OwnedRequest>,
    down: seq<CachedResponse>,
    device: CoordState,
    admitted: seq<U16>,
    finished: set<U16>)

  function Fresh(retries: Byte): State {
    State(retries, 0, SequenceOf(0), None, [], [], [], INITIAL, [], {})
  }

  datatype LinkStep =
    | StartCommand(request: OwnedRequest, delivered: bool)
    | WriteFails(request: OwnedRequest, delivered: bool)
    | RewriteFails(delivered: bool)
    | TakeReply
    | NoReply
    | LinkBreaks
    | Beat(heartbeat: OwnedRequest)
    | LoseFrame(i: nat)
    | LoseReply(i: nat)
    | DeviceTakes(externalBusy: bool)
    | DeviceCompletes(token: CompletionToken, response: CachedResponse, queued: bool)
    | DeviceAborts
    | DeviceRefuses(response: CachedResponse)

  predicate IsBeat(r: OwnedRequest) {
    r.kind == NoResponseHeartbeat
  }

  predicate Startable(s: State, r: OwnedRequest) {
    s.sending.None? && s.started < 65535 && WellFormed(r) && !IsBeat(r) && r.sequence == s.next
  }

  predicate LinkEnabled(s: State, step: LinkStep) {
    match step
    case StartCommand(r, _) => Startable(s, r)
    case WriteFails(r, _) => Startable(s, r)
    case RewriteFails(_) => s.sending.Some?
    case TakeReply => s.sending.Some? && s.down != []
    case NoReply => s.sending.Some?
    case LinkBreaks => s.sending.Some?
    case Beat(r) => WellFormed(r) && IsBeat(r)
    case LoseFrame(i) => i < |s.up|
    case LoseReply(i) => i < |s.down|
    case DeviceTakes(_) => s.up != []
    case DeviceCompletes(token, response, _) => Complete(s.device, token, response).Ok?
    case DeviceAborts => true
    case DeviceRefuses(response) => response.commandType == Nack
  }

  function Without<T>(items: seq<T>, i: nat): seq<T>
    requires i < |items|
  {
    items[..i] + items[i + 1..]
  }

  function Write(s: State, r: OwnedRequest, delivered: bool): State {
    if delivered then s.(up := s.up + [r]) else s
  }

  function Begin(s: State, r: OwnedRequest): State {
    s.(started := s.started + 1, next := NextSequence(s.next), sending := Some(Sending(r, 0)))
  }

  function End(s: State, success: bool): State
    requires s.sending.Some?
  {
    s.(sending := None, reports := s.reports + [Report(s.sending.value.request.sequence, success)])
  }

  /** The next attempt, or the end of the loop. */
  function React(s: State, reply: Reply): State
    requires s.sending.Some?
  {
    var current := s.sending.value;
    match Judge(reply, ExpectedType(current.request.commandType), current.attempt, s.retries)
    case Again => Write(s.(sending := Some(current.(attempt := current.attempt + 1))), current.request, true)
    case Succeeded(_) => End(s, true)
    case Failed(_) => End(s, false)
  }

  const RETRY_MS := 10

  /** What the device answers at once. */
  function Replies(r: OwnedRequest, a: Admission): seq<CachedResponse> {
    match a
    case Replay(response) => [response]
    case Immediate(response) => [response]
    case BusyNow(reason) => [BusyResponse(r.version, r.sequence, reason, RETRY_MS)]
    case Reject(error) => [NackResponse(r.version, r.sequence, error)]
    case _ => []
  }

  function Take(s: State, externalBusy: bool): State
    requires s.up != []
  {
    var r := s.up[0];
    var a := Admit(s.device, r, externalBusy);
    s.(up := s.up[1..], down := s.down + Replies(r, a.admission), device := a.state,
       admitted := if a.state.nextId != s.device.nextId then s.admitted + [r.sequence] else s.admitted,
       finished := if a.admission.Immediate? then s.finished + {r.sequence} else s.finished)
  }

  function LinkNext(s: State, step: LinkStep): State
    requires LinkEnabled(s, step)
  {
    match step
    case StartCommand(r, delivered) => Write(Begin(s, r), r, delivered)
    case WriteFails(r, delivered) => End(Write(Begin(s, r), r, delivered), false)
    case RewriteFails(delivered) => End(Write(s, s.sending.value.request, delivered), false)
    case TakeReply =>
      var rest := s.(down := s.down[1..]);
      if s.down[0].sequence != s.sending.value.request.sequence then rest
      else React(rest, Got(s.down[0].commandType, s.down[0].payload))
    case NoReply => React(s, TimedOut)
    case LinkBreaks => End(s, false)
    case Beat(r) => s.(up := s.up + [r])
    case LoseFrame(i) => s.(up := Without(s.up, i))
    case LoseReply(i) => s.(down := Without(s.down, i))
    case DeviceTakes(externalBusy) => Take(s, externalBusy)
    case DeviceCompletes(token, response, queued) =>
      s.(device := Complete(s.device, token, response).value,
         down := if queued then s.down + [response] else s.down,
         finished := if response.commandType == Nack then s.finished else s.finished + {token.sequence})
    case DeviceAborts => s.(device := AbortBatch(s.device))
    case DeviceRefuses(response) => s.(down := s.down + [response])
  }

  ghost predicate LinkRun(s: State, steps: seq<LinkStep>, end: State)
    decreases |steps|
  {
    if steps == [] then end == s
    else LinkEnabled(s, steps[0]) && LinkRun(LinkNext(s, steps[0]), steps[1..], end)
  }

  // ---- Invariant ----

  predicate Good(commandType: CommandType) {
    commandType == Ack || commandType == Status
  }

  ghost predicate Caches(device: CoordState, sequence: U16) {
    exists i :: 0 <= i < |device.cache| && device.cache[i].sequence == sequence
  }

  /** Frames under way are in order, never ahead of the client and never behind what the device last accepted. */
  ghost predicate UpOk(s: State) {
    && (forall i :: 0 <= i < |s.up| ==> WellFormed(s.up[i]))
    && (forall i :: 0 <= i < |s.up| && !IsBeat(s.up[i]) ==>
          s.up[i].sequence <= s.started && (s.admitted != [] ==> s.admitted[|s.admitted| - 1] <= s.up[i].sequence))
    && (forall i, j :: 0 <= i < j < |s.up| && !IsBeat(s.up[i]) && !IsBeat(s.up[j]) ==> s.up[i].sequence <= s.up[j].sequence)
  }

  ghost predicate Increasing(sequences: seq<U16>) {
    forall i, j :: 0 <= i < j < |sequences| ==> sequences[i] < sequences[j]
  }

  /** The newest accepted request is still in the cache, and everything in the cache was accepted. */
  ghost predicate DeviceOk(s: State) {
    && Inv(s.device) && Increasing(s.admitted)
    && (s.admitted != [] ==> s.admitted[|s.admitted| - 1] <= s.started && Caches(s.device, s.admitted[|s.admitted| - 1]))
    && (forall i :: 0 <= i < |s.device.cache| ==> s.device.cache[i].sequence in s.admitted)
    && (forall i :: 0 <= i < |s.device.cache| && s.device.cache[i].state.Completed? && s.device.cache[i].state.response.commandType != Nack ==>
          s.device.cache[i].sequence in s.finished)
    && (forall n :: n in s.finished ==> n in s.admitted)
  }

  ghost predicate DownOk(s: State) {
    forall i :: 0 <= i < |s.down| && Good(s.down[i].commandType) ==> s.down[i].sequence in s.finished
  }

  ghost predicate ClientOk(s: State) {
    && s.started <= 65535 && s.next == SequenceOf(s.started)
    && (s.sending.Some? ==>
          && s.sending.value.request.sequence == s.started
          && WellFormed(s.sending.value.request) && !IsBeat(s.sending.value.request))
    && |s.reports| == s.started - (if s.sending.Some? then 1 else 0)
    && (forall i :: 0 <= i < |s.reports| ==> s.reports[i].sequence == i + 1)
    && (forall i :: 0 <= i < |s.reports| && s.reports[i].success ==> s.reports[i].sequence in s.finished)
  }

  ghost predicate LinkInv(s: State) {
    UpOk(s) && DeviceOk(s) && DownOk(s) && ClientOk(s)
  }

  lemma FreshInv(retries: Byte)
    ensures LinkInv(Fresh(retries))
  {
    InitialInv();
    SequencesCount(0);
  }

  // ---- The client's steps ----

  lemma WriteKeeps(s: State, r: OwnedRequest, delivered: bool)
    requires LinkInv(s) && WellFormed(r) && !IsBeat(r) && r.sequence == s.started
    ensures LinkInv(Write(s, r, delivered))
  {
    hide Inv, WellFormed, Caches, Increasing, ClientOk, DownOk;
    var next := Write(s, r, delivered);
    assert UpOk(next);
    assert DeviceOk(next);
    SameClient(s, next);
  }

  lemma SameClient(s: State, next: State)
    requires ClientOk(s) && next == s.(up := next.up)
    ensures ClientOk(next) && (DownOk(s) ==> DownOk(next))
  {
  }

  lemma BeginKeeps(s: State, r: OwnedRequest)
    requires LinkInv(s) && Startable(s, r)
    ensures LinkInv(Begin(s, r)) && r.sequence == Begin(s, r).started
  {
    SequencesCount(s.started);
    hide Inv, WellFormed, Caches, Increasing, SequenceOf, NextSequence;
  }

  lemma EndKeeps(s: State, success: bool)
    requires LinkInv(s) && s.sending.Some? && (success ==> s.sending.value.request.sequence in s.finished)
    ensures LinkInv(End(s, success))
  {
    hide Inv, WellFormed, Caches, Increasing, SequenceOf;
  }

  lemma ReactKeeps(s: State, reply: Reply)
    requires LinkInv(s) && s.sending.Some?
    requires reply.Got? && Good(reply.commandType) ==> s.sending.value.request.sequence in s.finished
    ensures LinkInv(React(s, reply))
  {
    var current := s.sending.value;
    match Judge(reply, ExpectedType(current.request.commandType), current.attempt, s.retries)
    case Again =>
      var again := s.(sending := Some(current.(attempt := current.attempt + 1)));
      hide LinkInv, WellFormed;
      AgainKeeps(s, again);
      WriteKeeps(again, current.request, true);
    case Succeeded(_) =>
      hide LinkInv;
      EndKeeps(s, true);
    case Failed(_) =>
      hide LinkInv;
      EndKeeps(s, false);
  }

  lemma AgainKeeps(s: State, again: State)
    requires LinkInv(s) && s.sending.Some? && again == s.(sending := Some(s.sending.value.(attempt := s.sending.value.attempt + 1)))
    ensures LinkInv(again)
    ensures var r := s.sending.value.request; WellFormed(r) && !IsBeat(r) && r.sequence == again.started
  {
    hide Inv, WellFormed, Caches, Increasing, SequenceOf;
  }

  lemma ClientPart(s: State)
    requires LinkInv(s)
    ensures ClientOk(s) && DownOk(s)
  {
    hide UpOk, DeviceOk;
  }

  lemma DropReply(s: State, i: nat)
    requires LinkInv(s) && i < |s.down|
    ensures LinkInv(s.(down := Without(s.down, i))) && LinkInv(s.(down := s.down[1..]))
  {
    hide UpOk, Inv, Increasing, Caches, WellFormed;
    assert UpOk(s.(down := Without(s.down, i))) by {
      SameUp(s, s.(down := Without(s.down, i)));
    }
    assert UpOk(s.(down := s.down[1..])) by {
      SameUp(s, s.(down := s.down[1..]));
    }
  }

  lemma SameUp(s: State, next: State)
    requires UpOk(s) && next == s.(down := next.down, device := next.device, finished := next.finished)
    ensures UpOk(next)
  {
  }

  lemma DropFrame(s: State, i: nat)
    requires LinkInv(s) && i < |s.up|
    ensures LinkInv(s.(up := Without(s.up, i)))
  {
    hide Inv, Increasing, Caches, WellFormed;
    var next := s.(up := Without(s.up, i));
    assert forall k :: 0 <= k < |next.up| ==> next.up[k] == s.up[if k < i then k else k + 1];
    assert UpOk(next);
    SameClient(s, next);
    hide UpOk, DownOk, ClientOk;
  }

  lemma BeatKeeps(s: State, r: OwnedRequest)
    requires LinkInv(s) && WellFormed(r) && IsBeat(r)
    ensures LinkInv(s.(up := s.up + [r]))
  {
    hide Inv, Increasing, Caches, WellFormed;
    var next := s.(up := s.up + [r]);
    assert UpOk(next);
    SameClient(s, next);
    hide UpOk, DownOk, ClientOk;
  }

  lemma TakeReplyKeeps(s: State)
    requires LinkInv(s) && LinkEnabled(s, TakeReply)
    ensures LinkInv(LinkNext(s, TakeReply))
  {
    DropReply(s, 0);
    ClientPart(s);
    hide LinkInv, ClientOk, React;
    if s.down[0].sequence == s.sending.value.request.sequence {
      ReactKeeps(s.(down := s.down[1..]), Got(s.down[0].commandType, s.down[0].payload));
    }
  }

  // ---- The device's steps ----

  /** A completion changes states only, so it neither adds nor removes sequences. */
  lemma CompleteCaches(device: CoordState, token: CompletionToken, response: CachedResponse)
    requires Inv(device) && Complete(device, token, response).Ok?
    ensures var next := Complete(device, token, response).value;
            && Inv(next) && |next.cache| == |device.cache|
            && (forall i :: 0 <= i < |device.cache| ==> next.cache[i].sequence == device.cache[i].sequence)
            && (forall i :: 0 <= i < |device.cache| ==>
                  next.cache[i].state == device.cache[i].state
                  || (next.cache[i].sequence == token.sequence && next.cache[i].state == Completed(response)))
            && exists i :: 0 <= i < |device.cache| && device.cache[i].sequence == token.sequence
  {
    CompleteKeepsInv(device, token, response);
    var at := CompleteEffect(device, token, response);
    assert EntryOk(device.cache[at], device.session, device.nextId);
    hide Inv, Complete;
  }

  lemma CompletedDevice(s: State, next: State, token: CompletionToken, response: CachedResponse)
    requires DeviceOk(s) && Complete(s.device, token, response).Ok?
    requires next == s.(device := Complete(s.device, token, response).value, down := next.down,
                        finished := if response.commandType == Nack then s.finished else s.finished + {token.sequence})
    ensures DeviceOk(next) && token.sequence in s.admitted
  {
    CompleteCaches(s.device, token, response);
    hide Inv, Complete, Increasing;
    if s.admitted != [] {
      var i :| 0 <= i < |s.device.cache| && s.device.cache[i].sequence == s.admitted[|s.admitted| - 1];
      assert next.device.cache[i].sequence == s.admitted[|s.admitted| - 1];
    }
  }

  lemma MoreFinished(s: State, next: State)
    requires ClientOk(s) && next == s.(device := next.device, down := next.down, finished := next.finished) && s.finished <= next.finished
    ensures ClientOk(next)
  {
    hide WellFormed, SequenceOf;
  }

  lemma CompletesKeeps(s: State, token: CompletionToken, response: CachedResponse, queued: bool)
    requires LinkInv(s) && LinkEnabled(s, DeviceCompletes(token, response, queued))
    ensures LinkInv(LinkNext(s, DeviceCompletes(token, response, queued)))
  {
    var next := LinkNext(s, DeviceCompletes(token, response, queued));
    CompleteSucceeds(s.device, token, response);
    hide Complete, UpOk, DeviceOk, ClientOk, IsFinal;
    CompletedDevice(s, next, token, response);
    MoreFinished(s, next);
    SameUp(s, next);
  }

  lemma AbortKeeps(s: State)
    requires LinkInv(s)
    ensures LinkInv(LinkNext(s, DeviceAborts))
  {
    var next := LinkNext(s, DeviceAborts);
    assert Inv(next.device);
    SameUp(s, next);
    hide Inv, UpOk, Increasing, SequenceOf, WellFormed;
  }

  lemma BeatChangesNothing(device: CoordState, r: OwnedRequest, externalBusy: bool)
    requires Inv(device) && WellFormed(r) && IsBeat(r)
    ensures var a := Admit(device, r, externalBusy);
            a.state == device && (a.admission.NoResponse? || a.admission.Reject?)
  {
    HeartbeatIsBypass(r);
    hide Inv, Decoded, Classify;
  }

  lemma BeginCaches(device: CoordState, r: OwnedRequest)
    requires Inv(device) && Insertable(device, r) && AdmitBatchBegin(device, r).state.nextId != device.nextId
    ensures Caches(AdmitBatchBegin(device, r).state, r.sequence)
  {
    hide InsertActive, Complete;
    InsertMeaning(device, r, false);
    InsertKeepsInv(device, r, false);
    var inserted := InsertActive(device, r, false).state;
    var collecting := inserted.(batch := Collecting);
    assert Caches(collecting, r.sequence) by {
      ActiveCaches(inserted, NewToken(device, r));
    }
    hide NewToken;
    var response := AckResponse(r.version, r.sequence);
    if Complete(collecting, NewToken(device, r), response).Ok? {
      assert Inv(collecting);
      hide Inv;
      CompleteCaches(collecting, NewToken(device, r), response);
      var i :| 0 <= i < |collecting.cache| && collecting.cache[i].sequence == r.sequence;
      assert Complete(collecting, NewToken(device, r), response).value.cache[i].sequence == r.sequence;
    }
  }

  lemma ActiveCaches(device: CoordState, token: CompletionToken)
    requires Inv(device) && IsActive(device.cache, token)
    ensures Caches(device, token.sequence)
  {
    var i :| IsActiveAt(device.cache, i, token);
    assert EntryOk(device.cache[i], device.session, device.nextId);
    hide Inv;
  }

  lemma ImmediateCaches(device: CoordState, r: OwnedRequest, externalBusy: bool)
    requires Inv(device) && WellFormed(r) && !IsBeat(r) && Admit(device, r, externalBusy).admission.Immediate?
    ensures Caches(Admit(device, r, externalBusy).state, r.sequence)
  {
    AdmitMeaning(device, r, externalBusy);
    hide Decoded, Classify, Inv, SameActive, Extends, Caches;
    var request := r.(body := Decoded(r).value);
    ImmediateIsBegin(device, request, Classify(request.body));
    hide AdmitClass, AdmitBatchBegin;
    BeginCaches(device, request);
  }

  lemma ImmediateIsBegin(device: CoordState, r: OwnedRequest, requestClass: RequestClass)
    requires AdmitClass(device, r, requestClass).admission.Immediate?
    ensures AdmitClass(device, r, requestClass) == AdmitBatchBegin(device, r)
  {
    hide InsertActive, Complete;
  }

  /** A new identifier means a new cache entry for this sequence, completed only if it was answered at once. */
  lemma AdmissionCaches(device: CoordState, r: OwnedRequest, externalBusy: bool)
    requires Inv(device) && WellFormed(r) && !IsBeat(r) && Admit(device, r, externalBusy).state.nextId != device.nextId
    ensures !Caches(device, r.sequence) && Caches(Admit(device, r, externalBusy).state, r.sequence)
    ensures !Admit(device, r, externalBusy).admission.Immediate? ==>
              IsActive(Admit(device, r, externalBusy).state.cache, NewToken(device, r))
  {
    AdmitMeaning(device, r, externalBusy);
    AdmitKeepsInv(device, r, externalBusy);
    var a := Admit(device, r, externalBusy);
    if a.admission.Immediate? {
      hide AdmitFresh, Inv, SameActive, Extends;
      ImmediateCaches(device, r, externalBusy);
    } else {
      hide AdmitFresh, Inv, Extends, NewToken;
      assert GainsActive(device, a.state, NewToken(device, r));
      ActiveCaches(a.state, NewToken(device, r));
      NewTokenSequence(device, r);
    }
  }

  lemma NewTokenSequence(device: CoordState, r: OwnedRequest)
    ensures NewToken(device, r).sequence == r.sequence && NewToken(device, r).admissionId == device.nextId
  {
  }

  lemma AdmissionExtends(device: CoordState, r: OwnedRequest, externalBusy: bool)
    requires Inv(device) && WellFormed(r) && Admit(device, r, externalBusy).state.nextId != device.nextId
    ensures var next := Admit(device, r, externalBusy).state; Extends(device, next) && next.nextId == device.nextId + 1
  {
    AdmitMeaning(device, r, externalBusy);
    hide Admit, Inv, GainsActive, SameActive, NewToken, Extends;
  }

  /** All new entries carry the one new identifier, so there is one. */
  lemma OneNewEntry(device: CoordState, next: CoordState, i: nat, j: nat)
    requires CacheOk(next) && Extends(device, next) && next.nextId == device.nextId + 1
    requires i < |next.cache| && !(i < |device.cache| && next.cache[i] == device.cache[i])
    requires j < |next.cache| && (next.cache[j].token.admissionId == device.nextId || !(j < |device.cache| && next.cache[j] == device.cache[j]))
    ensures i == j
  {
    IdsBelow(next);
    assert next.cache[i].token.admissionId == next.cache[j].token.admissionId == device.nextId;
  }

  lemma NewActiveEntry(device: CoordState, next: CoordState, token: CompletionToken, i: nat)
    requires CacheOk(next) && Extends(device, next) && next.nextId == device.nextId + 1
    requires i < |next.cache| && !(i < |device.cache| && next.cache[i] == device.cache[i])
    requires token.admissionId == device.nextId && IsActive(next.cache, token)
    ensures next.cache[i].state == Active
  {
    var k :| IsActiveAt(next.cache, k, token);
    hide CacheOk;
    OneNewEntry(device, next, i, k);
  }

  lemma NewCachedEntry(device: CoordState, next: CoordState, sequence: U16, i: nat)
    requires CacheOk(next) && Extends(device, next) && next.nextId == device.nextId + 1
    requires i < |next.cache| && !(i < |device.cache| && next.cache[i] == device.cache[i])
    requires !Caches(device, sequence) && Caches(next, sequence)
    ensures next.cache[i].sequence == sequence
  {
    var w :| 0 <= w < |next.cache| && next.cache[w].sequence == sequence;
    hide CacheOk;
    OneNewEntry(device, next, i, w);
  }

  /** The one entry a successful admission adds. */
  lemma NewEntry(device: CoordState, r: OwnedRequest, externalBusy: bool, i: nat)
    requires Inv(device) && WellFormed(r) && !IsBeat(r) && Admit(device, r, externalBusy).state.nextId != device.nextId
    requires var next := Admit(device, r, externalBusy).state;
             i < |next.cache| && !(i < |device.cache| && next.cache[i] == device.cache[i])
    ensures var a := Admit(device, r, externalBusy);
            a.state.cache[i].sequence == r.sequence && (a.state.cache[i].state.Completed? ==> a.admission.Immediate?)
  {
    hide Admit, Extends, IsActive, Caches, CacheOk, NewToken, WellFormed;
    AdmissionCaches(device, r, externalBusy);
    AdmissionExtends(device, r, externalBusy);
    AdmitKeepsInv(device, r, externalBusy);
    NewTokenSequence(device, r);
    var a := Admit(device, r, externalBusy);
    NewCachedEntry(device, a.state, r.sequence, i);
    if !a.admission.Immediate? {
      NewActiveEntry(device, a.state, NewToken(device, r), i);
    }
  }

  lemma StaysIncreasing(sequences: seq<U16>, n: U16)
    requires Increasing(sequences) && (sequences != [] ==> sequences[|sequences| - 1] < n)
    ensures Increasing(sequences + [n])
  {
  }

  lemma InsertedDevice(s: State, next: State, n: U16)
    requires DeviceOk(s) && n <= s.started && (s.admitted != [] ==> s.admitted[|s.admitted| - 1] <= n)
    requires !Caches(s.device, n) && Caches(next.device, n) && Inv(next.device)
    requires next.admitted == s.admitted + [n] && next.started == s.started
    requires s.finished <= next.finished <= s.finished + {n}
    requires forall i: nat :: i < |next.device.cache| && !(i < |s.device.cache| && next.device.cache[i] == s.device.cache[i]) ==>
               next.device.cache[i].sequence == n && (next.device.cache[i].state.Completed? ==> n in next.finished)
    ensures DeviceOk(next)
  {
    StaysIncreasing(s.admitted, n);
    hide Inv, Increasing;
  }

  lemma TakenDevice(s: State, externalBusy: bool)
    requires LinkInv(s) && s.up != [] && !IsBeat(s.up[0])
    ensures DeviceOk(Take(s, externalBusy))
  {
    var r := s.up[0];
    var next := Take(s, externalBusy);
    AdmitKeepsInv(s.device, r, externalBusy);
    AdmitPlaces(s.device, r, externalBusy);
    hide Admit, Inv, FirstCompleted, ActiveCount, Caches, Increasing, DownOk, ClientOk;
    if next.device.nextId == s.device.nextId {
      QuietDevice(s, next, externalBusy);
    } else {
      AdmissionCaches(s.device, r, externalBusy);
      forall i: nat | i < |next.device.cache| && !(i < |s.device.cache| && next.device.cache[i] == s.device.cache[i])
        ensures next.device.cache[i].sequence == r.sequence && (next.device.cache[i].state.Completed? ==> r.sequence in next.finished)
      {
        NewEntry(s.device, r, externalBusy, i);
      }
      InsertedDevice(s, next, r.sequence);
    }
  }

  lemma QuietDevice(s: State, next: State, externalBusy: bool)
    requires LinkInv(s) && s.up != [] && !IsBeat(s.up[0]) && next == Take(s, externalBusy)
    requires next.device.nextId == s.device.nextId && next.device.cache == s.device.cache && Inv(next.device)
    ensures DeviceOk(next)
  {
    AdmitMeaning(s.device, s.up[0], externalBusy);
    hide Admit, Inv, Increasing, Extends, UpOk, DownOk, ClientOk, SameActive;
  }

  lemma TakenUp(s: State, externalBusy: bool)
    requires UpOk(s) && s.up != [] && !IsBeat(s.up[0])
    ensures UpOk(Take(s, externalBusy))
  {
    hide Admit, WellFormed, Replies;
  }

  lemma GoodReply(s: State, externalBusy: bool, i: nat)
    requires LinkInv(s) && s.up != [] && WellFormed(s.up[0])
    requires var a := Admit(s.device, s.up[0], externalBusy).admission;
             i < |Replies(s.up[0], a)| && Good(Replies(s.up[0], a)[i].commandType)
    ensures Replies(s.up[0], Admit(s.device, s.up[0], externalBusy).admission)[i].sequence in Take(s, externalBusy).finished
  {
    var r := s.up[0];
    var a := Admit(s.device, r, externalBusy);
    AdmitMeaning(s.device, r, externalBusy);
    ReplayComesFromCache(s.device, r, externalBusy);
    hide Admit, Inv, Extends, SameActive, UpOk, ClientOk;
  }

  lemma ReplayComesFromCache(device: CoordState, r: OwnedRequest, externalBusy: bool)
    requires Inv(device)
    ensures var a := Admit(device, r, externalBusy).admission;
            a.Replay? ==> exists i :: 0 <= i < |device.cache| && device.cache[i].state == Completed(a.response)
                                      && device.cache[i].sequence == a.response.sequence
  {
    var found := FindSequence(device.cache, r.sequence, 0);
    if r.kind == ResponseExpected && found.Some? {
      assert EntryOk(device.cache[found.value], device.session, device.nextId);
    } else {
      FreshNeverReplays(device, r, externalBusy);
    }
  }

  lemma FreshNeverReplays(device: CoordState, r: OwnedRequest, externalBusy: bool)
    ensures !AdmitFresh(device, r, externalBusy).admission.Replay?
  {
    hide InsertActive, Complete, Decoded;
  }

  lemma TakeKeeps(s: State, externalBusy: bool)
    requires LinkInv(s) && s.up != []
    ensures LinkInv(Take(s, externalBusy))
  {
    var next := Take(s, externalBusy);
    assert WellFormed(s.up[0]);
    if IsBeat(s.up[0]) {
      BeatChangesNothing(s.device, s.up[0], externalBusy);
      BeatTaken(s, externalBusy);
    } else {
      TakenUp(s, externalBusy);
      TakenDevice(s, externalBusy);
      assert DownOk(next) by {
        forall i | |s.down| <= i < |next.down| && Good(next.down[i].commandType)
          ensures next.down[i].sequence in next.finished
        {
          GoodReply(s, externalBusy, i - |s.down|);
        }
        hide Admit, UpOk, DeviceOk, ClientOk;
      }
      hide Admit, UpOk, DeviceOk, DownOk, Replies;
    }
  }

  lemma BeatTaken(s: State, externalBusy: bool)
    requires LinkInv(s) && s.up != [] && IsBeat(s.up[0])
    requires var a := Admit(s.device, s.up[0], externalBusy);
             a.state == s.device && (a.admission.NoResponse? || a.admission.Reject?)
    ensures LinkInv(Take(s, externalBusy))
  {
    hide Admit, Inv, Increasing, Caches, WellFormed;
  }

  // ---- Whole runs ----

  lemma StartKeeps(s: State, r: OwnedRequest, delivered: bool)
    requires LinkInv(s) && Startable(s, r)
    ensures LinkInv(Write(Begin(s, r), r, delivered)) && LinkInv(End(Write(Begin(s, r), r, delivered), false))
  {
    BeginKeeps(s, r);
    hide LinkInv, WellFormed;
    WriteKeeps(Begin(s, r), r, delivered);
    EndKeeps(Write(Begin(s, r), r, delivered), false);
  }

  lemma RefuseKeeps(s: State, response: CachedResponse)
    requires LinkInv(s) && response.commandType == Nack
    ensures LinkInv(s.(down := s.down + [response]))
  {
    SameUp(s, s.(down := s.down + [response]));
    hide UpOk, Inv, Increasing, Caches, WellFormed;
  }

  lemma LinkStepKeeps(s: State, step: LinkStep)
    requires LinkInv(s) && LinkEnabled(s, step)
    ensures LinkInv(LinkNext(s, step))
  {
    hide LinkInv, Write, Begin, End, React, Take, Complete, WellFormed;
    match step
    case StartCommand(r, delivered) => StartKeeps(s, r, delivered);
    case WriteFails(r, delivered) => StartKeeps(s, r, delivered);
    case RewriteFails(delivered) => RewriteKeeps(s, delivered);
    case TakeReply => TakeReplyKeeps(s);
    case NoReply => ReactKeeps(s, TimedOut);
    case LinkBreaks => EndKeeps(s, false);
    case Beat(r) => BeatKeeps(s, r);
    case LoseFrame(i) => DropFrame(s, i);
    case LoseReply(i) => DropReply(s, i);
    case DeviceTakes(externalBusy) => TakeKeeps(s, externalBusy);
    case DeviceCompletes(token, response, queued) => CompletesKeeps(s, token, response, queued);
    case DeviceAborts => AbortKeeps(s);
    case DeviceRefuses(response) => RefuseKeeps(s, response);
  }

  lemma RewriteKeeps(s: State, delivered: bool)
    requires LinkInv(s) && s.sending.Some?
    ensures LinkInv(End(Write(s, s.sending.value.request, delivered), false))
  {
    ClientPart(s);
    hide LinkInv, WellFormed;
    WriteKeeps(s, s.sending.value.request, delivered);
    EndKeeps(Write(s, s.sending.value.request, delivered), false);
  }

  lemma {:induction false} LinkRunsKeep(s: State, steps: seq<LinkStep>, end: State)
    requires LinkInv(s) && LinkRun(s, steps, end)
    ensures LinkInv(end)
    decreases |steps|
  {
    hide LinkInv, LinkEnabled, LinkNext;
    if steps != [] {
      LinkStepKeeps(s, steps[0]);
      LinkRunsKeep(LinkNext(s, steps[0]), steps[1..], end);
    }
  }

  function Times(sequences: seq<U16>, n: U16): nat {
    if sequences == [] then 0 else Times(sequences[..|sequences| - 1], n) + if sequences[|sequences| - 1] == n then 1 else 0
  }

  lemma {:induction false} TimesWhenIncreasing(sequences: seq<U16>, n: U16)
    requires Increasing(sequences)
    ensures Times(sequences, n) == if n in sequences then 1 else 0
  {
    if sequences != [] {
      var rest := sequences[..|sequences| - 1];
      TimesWhenIncreasing(rest, n);
      assert sequences == rest + [sequences[|sequences| - 1]];
    }
  }

  /**
   Whatever the device completes and when: a command reported successful was accepted exactly once and
   completed; any command, reported failed or still being sent, was accepted at most once. The i-th report is
   about the i-th command. EndToEnd puts the real device behind the link and says what was executed.
   */
  lemma AcceptedAtMostOnce(retries: Byte, steps: seq<LinkStep>, end: State)
    requires LinkRun(Fresh(retries), steps, end)
    ensures forall n :: Times(end.admitted, n) <= 1
    ensures forall i :: 0 <= i < |end.reports| && end.reports[i].success ==>
              Times(end.admitted, end.reports[i].sequence) == 1 && end.reports[i].sequence in end.finished
    ensures forall i :: 0 <= i < |end.reports| ==> end.reports[i].sequence == i + 1
    ensures |end.reports| <= end.started <= |end.reports| + 1
  {
    FreshInv(retries);
    LinkRunsKeep(Fresh(retries), steps, end);
    assert Increasing(end.admitted) && (forall n :: n in end.finished ==> n in end.admitted) by {
      hide Inv, UpOk, DownOk, ClientOk, Increasing;
    }
    ClientPart(end);
    hide LinkInv, Increasing;
    forall n
      ensures Times(end.admitted, n) == if n in end.admitted then 1 else 0
    {
      TimesWhenIncreasing(end.admitted, n);
    }
  }

  /**
   Why a session ends with its 65535th command: the next one reuses the first sequence, and if it is the same
   command and the first is still cached, which it is when nothing in between reached the device, it gets the
   first one's answer and is not executed.
   */
  lemma ReusedSequenceReplays(device: CoordState, token: CompletionToken, response: CachedResponse, n: nat, again: OwnedRequest, externalBusy: bool)
    requires Inv(device) && Remembers(device, token, Completed(response)) && token.sequence == SequenceOf(n)
    requires again.kind == ResponseExpected && again.sequence == SequenceOf(n + 65535) && again.fingerprint == token.fingerprint
    ensures Admit(device, again, externalBusy) == Admitted(device, Replay(response))
  {
    CachedAnswer(device, token, Completed(response), again, externalBusy);
    hide Admit, Inv, Remembers;
  }
}
