/**
 Admission, deduplication, replay and execution lifecycle (src/coordinator.rs).
 */
module Coordinator {
  import opened Types
  import opened Protocol
  import opened Commands

  const RESPONSE_CACHE_SIZE := 64

  datatype BusyReason = ActiveDuplicate | BatchExecuting | ExecutorOccupied

  datatype CachedResponse = CachedResponse(version: Byte, sequence: U16, commandType: CommandType, payload: seq<Byte>)

  function AckResponse(version: Byte, sequence: U16): CachedResponse {
    CachedResponse(version, sequence, Ack, [])
  }

  function NackResponse(version: Byte, sequence: U16, error: ErrorCode): CachedResponse {
    CachedResponse(version, sequence, Nack, [ErrorByte(error)])
  }

  function BusyByte(reason: BusyReason): Byte {
    match reason
    case ActiveDuplicate => 1
    case BatchExecuting => 2
    case ExecutorOccupied => 3
  }

  function BusyResponse(version: Byte, sequence: U16, reason: BusyReason, retryMs: U16): CachedResponse {
    CachedResponse(version, sequence, Busy, [BusyByte(reason)] + Be16(retryMs))
  }

  datatype ExpectedFinalResponse = ExpectAck | ExpectStatus

  /** Identity of one accepted request. */
  datatype CompletionToken = CompletionToken(
    sessionGeneration: U64,
    admissionId: U64,
    version: Byte,
    sequence: U16,
    fingerprint: nat,
    expected: ExpectedFinalResponse)

  datatype RequestBody =
    | Raw(payload: seq<Byte>)
    | Typed(command: OwnedCommand)
    | BatchBeginMark
    | BatchEndMark

  /** stamp is the receiver's runtime session, used to reject stale queue entries. */
  datatype OwnedRequest = OwnedRequest(
    version: Byte,
    flags: Byte,
    sequence: U16,
    commandType: CommandType,
    fingerprint: nat,
    kind: RequestKind,
    token: Option<CompletionToken>,
    body: RequestBody,
    stamp: U32)

  datatype Admission =
    | ExecuteRequest(request: OwnedRequest)
    | Collect(request: OwnedRequest)
    | Bypass(request: OwnedRequest)
    | NoResponse(request: OwnedRequest)
    | Stop(request: OwnedRequest)
    | Replay(response: CachedResponse)
    | BusyNow(reason: BusyReason)
    | Immediate(response: CachedResponse)
    | Reject(error: ErrorCode)

  datatype CompletionError = StaleCompletion | ResponseSequenceMismatch | ResponseVersionMismatch | NonFinalResponse

  datatype BatchLifecycle = Idle | Collecting | Executing(owner: CompletionToken)

  datatype RequestClass = ClassBatchBegin | ClassBatchEnd | ClassStopAll | ClassBypass | ClassMutating

  datatype CacheState = Active | Completed(response: CachedResponse)

  datatype CacheEntry = CacheEntry(sequence: U16, fingerprint: nat, token: CompletionToken, state: CacheState)

  datatype CoordState = CoordState(
    cache: seq<CacheEntry>,
    nextEvict: nat,
    session: U64,
    nextId: U64,
    owner: Option<CompletionToken>,
    batch: BatchLifecycle)

  const INITIAL := CoordState([], 0, 0, 1, None, Idle)

  // ---- Requests ----

  const FNV_OFFSET := 0xcbf2_9ce4_8422_2325
  const FNV_PRIME := 0x0000_0100_0000_01b3

  /** XOR with a zero-extended byte touches only the low eight bits. */
  function FnvStep(hash: nat, b: Byte): nat {
    (hash / 256 * 256 + Xor(hash % 256, b)) * FNV_PRIME % U64_LIMIT
  }

  function FnvFold(hash: nat, data: seq<Byte>): nat {
    if data == [] then hash else FnvStep(FnvFold(hash, data[..|data| - 1]), data[|data| - 1])
  }

  function FingerprintInput(frame: Frame): seq<Byte>
    requires |frame.payload| < U16_LIMIT
  {
    [frame.version, frame.flags, AsByte(frame.commandType)] + Be16(|frame.payload|) + frame.payload
  }

  function Fingerprint(frame: Frame): nat
    requires |frame.payload| < U16_LIMIT
  {
    FnvFold(FNV_OFFSET, FingerprintInput(frame))
  }

  function RequestErrorCode(error: RequestError): ErrorCode {
    match error
    case UnsupportedVersion => ErrorCode.UnsupportedVersion
    case UnsupportedFlags => ErrorCode.UnsupportedFlags
    case InvalidSequence => ErrorCode.InvalidSequence
  }

  function FromFrame(frame: Frame): Result<OwnedRequest, ErrorCode> {
    match ValidateRequest(frame)
    case Err(error) => Err(RequestErrorCode(error))
    case Ok(kind) =>
      if |frame.payload| > MAX_PAYLOAD_SIZE then Err(FrameTooLong)
      else Ok(OwnedRequest(frame.version, frame.flags, frame.sequence, frame.commandType, Fingerprint(frame), kind, None,
                           Raw(frame.payload), 0))
  }

  /** What FromFrame guarantees and every later step relies on. */
  predicate WellFormed(r: OwnedRequest) {
    && r.body.Raw? && r.token.None?
    && (r.kind == ResponseExpected ==> r.sequence != 0)
    && (r.kind == NoResponseHeartbeat ==> r.sequence == 0 && r.commandType == Heartbeat)
  }

  lemma FromFrameWellFormed(frame: Frame)
    ensures FromFrame(frame).Ok? ==> WellFormed(FromFrame(frame).value)
  {
    hide Fingerprint;
  }

  function OwnBody(commandType: CommandType, payload: seq<Byte>): (r: Result<RequestBody, CommandError>)
    ensures r.Ok? ==> !r.value.Raw?
  {
    match commandType
    case BatchBegin => MapOk(DecodeCommand(commandType, payload), _ => BatchBeginMark)
    case BatchEnd => MapOk(DecodeCommand(commandType, payload), _ => BatchEndMark)
    case _ => MapOk(OwnedFromFrame(commandType, payload), c => Typed(c))
  }

  function Decoded(r: OwnedRequest): (body: Result<RequestBody, CommandError>)
    ensures body.Ok? ==> !body.value.Raw?
  {
    match r.body
    case Raw(payload) => OwnBody(r.commandType, payload)
    case body => Ok(body)
  }

  function Classify(body: RequestBody): RequestClass
    requires !body.Raw?
  {
    match body
    case BatchBeginMark => ClassBatchBegin
    case BatchEndMark => ClassBatchEnd
    case Typed(command) =>
      if command.DoStopAll? then ClassStopAll
      else if command.DoPing? || command.DoGetInfo? || command.DoGetCaps? || command.DoHeartbeat? then ClassBypass
      else ClassMutating
  }

  function ExpectedFor(commandType: CommandType): ExpectedFinalResponse {
    if commandType == GetInfo || commandType == GetCaps then ExpectStatus else ExpectAck
  }

  predicate IsFinal(response: CachedResponse, expected: ExpectedFinalResponse) {
    match response.commandType
    case Ack => expected == ExpectAck && response.payload == []
    case Nack => |response.payload| == 1 && IsErrorByte(response.payload[0])
    case Status => expected == ExpectStatus
    case _ => false
  }

  // ---- The cache ----

  /** First entry with this sequence. */
  function FindSequence(cache: seq<CacheEntry>, sequence: U16, from: nat): (i: Option<nat>)
    requires from <= |cache|
    ensures i.Some? ==> from <= i.value < |cache| && cache[i.value].sequence == sequence
    ensures i.Some? ==> forall j :: from <= j < i.value ==> cache[j].sequence != sequence
    ensures i.None? ==> forall j :: from <= j < |cache| ==> cache[j].sequence != sequence
    decreases |cache| - from
  {
    if from == |cache| then None
    else if cache[from].sequence == sequence then Some(from)
    else FindSequence(cache, sequence, from + 1)
  }

  predicate IsActiveAt(cache: seq<CacheEntry>, i: int, token: CompletionToken) {
    0 <= i < |cache| && cache[i].token == token && cache[i].state == Active
  }

  /** First active entry with this token. */
  function FindActive(cache: seq<CacheEntry>, token: CompletionToken, from: nat): (i: Option<nat>)
    requires from <= |cache|
    ensures i.Some? ==> from <= i.value && IsActiveAt(cache, i.value, token)
    ensures i.Some? ==> forall j :: from <= j < i.value ==> !IsActiveAt(cache, j, token)
    ensures i.None? ==> forall j :: from <= j < |cache| ==> !IsActiveAt(cache, j, token)
    decreases |cache| - from
  {
    if from == |cache| then None
    else if IsActiveAt(cache, from, token) then Some(from)
    else FindActive(cache, token, from + 1)
  }

  function ActiveCount(cache: seq<CacheEntry>): nat {
    if cache == [] then 0
    else ActiveCount(cache[..|cache| - 1]) + if cache[|cache| - 1].state == Active then 1 else 0
  }

  function RingIndex(start: nat, offset: nat): (i: nat)
    ensures i < RESPONSE_CACHE_SIZE
  {
    (start + offset) % RESPONSE_CACHE_SIZE
  }

  /** The ring scan: offset of the first completed slot at or after the eviction pointer. */
  function FirstCompleted(cache: seq<CacheEntry>, start: nat, offset: nat): (r: Option<nat>)
    requires |cache| == RESPONSE_CACHE_SIZE && offset <= RESPONSE_CACHE_SIZE
    ensures r.Some? ==> offset <= r.value < RESPONSE_CACHE_SIZE && cache[RingIndex(start, r.value)].state.Completed?
    ensures r.Some? ==> forall k :: offset <= k < r.value ==> cache[RingIndex(start, k)].state == Active
    ensures r.None? ==> forall k :: offset <= k < RESPONSE_CACHE_SIZE ==> cache[RingIndex(start, k)].state == Active
    decreases RESPONSE_CACHE_SIZE - offset
  {
    if offset == RESPONSE_CACHE_SIZE then None
    else if cache[RingIndex(start, offset)].state.Completed? then Some(offset)
    else FirstCompleted(cache, start, offset + 1)
  }

  datatype Slot = NoSlot | Append | Replace(index: nat)

  /** Where an accepted request goes, if anywhere. */
  function ChooseSlot(s: CoordState, urgent: bool): (slot: Slot)
    ensures slot.Replace? ==> slot.index < RESPONSE_CACHE_SIZE
    ensures slot == Append ==> |s.cache| < RESPONSE_CACHE_SIZE
    ensures slot.Replace? ==> |s.cache| == RESPONSE_CACHE_SIZE && s.cache[slot.index].state.Completed?
  {
    if !urgent && ActiveCount(s.cache) >= RESPONSE_CACHE_SIZE - 1 then NoSlot
    else if |s.cache| < RESPONSE_CACHE_SIZE then Append
    else if |s.cache| > RESPONSE_CACHE_SIZE then NoSlot
    else
      match FirstCompleted(s.cache, s.nextEvict, 0)
      case None => NoSlot
      case Some(offset) => Replace(RingIndex(s.nextEvict, offset))
  }

  function NewToken(s: CoordState, r: OwnedRequest): CompletionToken {
    CompletionToken(s.session, s.nextId, r.version, r.sequence, r.fingerprint, ExpectedFor(r.commandType))
  }

  datatype Inserted = NotInserted | Inserted(state: CoordState, token: CompletionToken)

  function InsertActive(s: CoordState, r: OwnedRequest, urgent: bool): Inserted {
    var slot := ChooseSlot(s, urgent);
    if slot == NoSlot || s.nextId + 1 >= U64_LIMIT then NotInserted
    else
      var token := NewToken(s, r);
      var entry := CacheEntry(r.sequence, r.fingerprint, token, Active);
      var next := if slot == Append then s.(cache := s.cache + [entry])
                  else s.(cache := s.cache[slot.index := entry], nextEvict := (slot.index + 1) % RESPONSE_CACHE_SIZE);
      Inserted.Inserted(next.(nextId := s.nextId + 1), token)
  }

  // ---- Operations ----

  datatype Admitted = Admitted(state: CoordState, admission: Admission)

  function Complete(s: CoordState, token: CompletionToken, response: CachedResponse): Result<CoordState, CompletionError> {
    if response.sequence != token.sequence then Err(ResponseSequenceMismatch)
    else if response.version != token.version then Err(ResponseVersionMismatch)
    else if !IsFinal(response, token.expected) then Err(NonFinalResponse)
    else
      match FindActive(s.cache, token, 0)
      case None => Err(StaleCompletion)
      case Some(i) =>
        Ok(s.(cache := s.cache[i := s.cache[i].(state := Completed(response))],
              owner := if s.owner == Some(token) then None else s.owner,
              batch := if s.batch == Executing(token) then Idle else s.batch))
  }

  function AdmitBatchBegin(s: CoordState, r: OwnedRequest): Admitted {
    if s.batch != Idle then Admitted(s, Reject(BatchState))
    else if s.owner.Some? then Admitted(s, BusyNow(ExecutorOccupied))
    else
      match InsertActive(s, r, false)
      case NotInserted => Admitted(s, BusyNow(ExecutorOccupied))
      case Inserted(next, token) =>
        var response := AckResponse(token.version, token.sequence);
        var collecting := next.(batch := Collecting);
        var done := Complete(collecting, token, response);
        Admitted(if done.Ok? then done.value else collecting, Immediate(response))
  }

  function AdmitBatchEnd(s: CoordState, r: OwnedRequest): Admitted {
    if s.batch != Collecting then Admitted(s, Reject(BatchState))
    else
      match InsertActive(s, r, false)
      case NotInserted => Admitted(s, BusyNow(ExecutorOccupied))
      case Inserted(next, token) =>
        Admitted(next.(batch := Executing(token)), ExecuteRequest(r.(token := Some(token))))
  }

  function AdmitBypass(s: CoordState, r: OwnedRequest): Admitted {
    if r.kind == NoResponseHeartbeat then Admitted(s, NoResponse(r))
    else
      match InsertActive(s, r, false)
      case NotInserted => Admitted(s, BusyNow(ExecutorOccupied))
      case Inserted(next, token) => Admitted(next, Bypass(r.(token := Some(token))))
  }

  function AdmitStop(s: CoordState, r: OwnedRequest): Admitted {
    match InsertActive(s, r, true)
    case NotInserted => Admitted(s, BusyNow(ExecutorOccupied))
    case Inserted(next, token) =>
      Admitted(if next.batch == Collecting then next.(batch := Idle) else next, Stop(r.(token := Some(token))))
  }

  function AdmitMutating(s: CoordState, r: OwnedRequest): Admitted {
    if s.batch.Executing? then Admitted(s, BusyNow(BatchExecuting))
    else if s.batch == Idle && s.owner.Some? then Admitted(s, BusyNow(ExecutorOccupied))
    else
      match InsertActive(s, r, false)
      case NotInserted => Admitted(s, BusyNow(ExecutorOccupied))
      case Inserted(next, token) =>
        var accepted := r.(token := Some(token));
        if s.batch == Collecting then Admitted(next, Collect(accepted))
        else Admitted(next.(owner := Some(token)), ExecuteRequest(accepted))
  }

  function AdmitClass(s: CoordState, r: OwnedRequest, requestClass: RequestClass): Admitted {
    match requestClass
    case ClassBatchBegin => AdmitBatchBegin(s, r)
    case ClassBatchEnd => AdmitBatchEnd(s, r)
    case ClassStopAll => AdmitStop(s, r)
    case ClassBypass => AdmitBypass(s, r)
    case ClassMutating => AdmitMutating(s, r)
  }

  /** Admission of a request whose sequence is not in the cache. */
  function AdmitFresh(s: CoordState, r: OwnedRequest, externalBusy: bool): Admitted {
    match Decoded(r)
    case Err(error) => Admitted(s, Reject(CommandErrorCode(error)))
    case Ok(body) =>
      var requestClass := Classify(body);
      var request := r.(body := body);
      if externalBusy && (requestClass == ClassBatchBegin || requestClass == ClassBatchEnd || requestClass == ClassMutating) then
        Admitted(s, BusyNow(ExecutorOccupied))
      else AdmitClass(s, request, requestClass)
  }

  /** admit_prepared_with_external_busy: duplicates are answered from the cache before anything else. */
  function Admit(s: CoordState, r: OwnedRequest, externalBusy: bool): Admitted {
    var known := FindSequence(s.cache, r.sequence, 0);
    if r.kind == ResponseExpected && known.Some? then
      var entry := s.cache[known.value];
      if entry.fingerprint != r.fingerprint then Admitted(s, Reject(SequenceConflict))
      else if entry.state == Active then Admitted(s, BusyNow(ActiveDuplicate))
      else Admitted(s, Replay(entry.state.response))
    else AdmitFresh(s, r, externalBusy)
  }

  function AbortBatch(s: CoordState): CoordState {
    if s.batch == Collecting then s.(batch := Idle) else s
  }

  function ClearSession(s: CoordState): CoordState
    requires s.session + 1 < U64_LIMIT
  {
    CoordState([], 0, s.session + 1, s.nextId, None, Idle)
  }

  predicate Occupied(s: CoordState) {
    s.owner.Some? || s.batch.Executing?
  }

  // ---- The coordinator itself ----

  class Coordinator {
    var cache: seq<CacheEntry>
    var nextEvict: nat
    var session: U64
    var nextId: U64
    var owner: Option<CompletionToken>
    var batch: BatchLifecycle

    ghost function View(): CoordState
      reads this
    {
      CoordState(cache, nextEvict, session, nextId, owner, batch)
    }

    constructor ()
      ensures View() == INITIAL
    {
      cache, nextEvict, session, nextId, owner, batch := [], 0, 0, 1, None, Idle;
    }

    method Find(sequence: U16) returns (index: Option<nat>)
      ensures index == FindSequence(cache, sequence, 0)
    {
      var i := 0;
      while i < |cache|
        invariant i <= |cache|
        invariant FindSequence(cache, sequence, 0) == FindSequence(cache, sequence, i)
      {
        if cache[i].sequence == sequence {
          return Some(i);
        }
        i := i + 1;
      }
      index := None;
    }

    method CountActive() returns (count: nat)
      ensures count == ActiveCount(cache)
    {
      count := 0;
      for i := 0 to |cache|
        invariant count == ActiveCount(cache[..i])
      {
        assert cache[..i + 1][..i] == cache[..i];
        if cache[i].state == Active {
          count := count + 1;
        }
      }
      assert cache[..|cache|] == cache;
    }

    /** The scan for a slot to replace. */
    method ScanRing() returns (index: Option<nat>)
      requires |cache| == RESPONSE_CACHE_SIZE
      ensures index == match FirstCompleted(cache, nextEvict, 0)
                       case None => None
                       case Some(offset) => Some(RingIndex(nextEvict, offset))
    {
      index := None;
      for offset := 0 to RESPONSE_CACHE_SIZE
        invariant index == None
        invariant FirstCompleted(cache, nextEvict, 0) == FirstCompleted(cache, nextEvict, offset)
      {
        var candidate := RingIndex(nextEvict, offset);
        if cache[candidate].state.Completed? {
          return Some(candidate);
        }
      }
    }

    method Insert(r: OwnedRequest, urgent: bool) returns (token: Option<CompletionToken>)
      requires |cache| <= RESPONSE_CACHE_SIZE
      modifies this
      ensures match InsertActive(old(View()), r, urgent)
              case NotInserted => token == None && View() == old(View())
              case Inserted(next, t) => token == Some(t) && View() == next
    {
      var activeEntries := CountActive();
      if !urgent && activeEntries >= RESPONSE_CACHE_SIZE - 1 {
        return None;
      }
      var replacement: Option<nat> := None;
      if |cache| == RESPONSE_CACHE_SIZE {
        replacement := ScanRing();
        if replacement.None? {
          return None;
        }
      }
      if nextId + 1 >= U64_LIMIT {
        return None;
      }
      var issued := CompletionToken(session, nextId, r.version, r.sequence, r.fingerprint, ExpectedFor(r.commandType));
      nextId := nextId + 1;
      var entry := CacheEntry(r.sequence, r.fingerprint, issued, Active);
      if replacement.Some? {
        cache := cache[replacement.value := entry];
        nextEvict := (replacement.value + 1) % RESPONSE_CACHE_SIZE;
      } else {
        cache := cache + [entry];
      }
      token := Some(issued);
    }

    method CompleteRequest(token: CompletionToken, response: CachedResponse) returns (error: Option<CompletionError>)
      modifies this
      ensures match Complete(old(View()), token, response)
              case Ok(next) => error == None && View() == next
              case Err(e) => error == Some(e) && View() == old(View())
    {
      if response.sequence != token.sequence {
        return Some(ResponseSequenceMismatch);
      }
      if response.version != token.version {
        return Some(ResponseVersionMismatch);
      }
      if !IsFinal(response, token.expected) {
        return Some(NonFinalResponse);
      }
      var i := 0;
      while i < |cache| && !(cache[i].token == token && cache[i].state == Active)
        invariant i <= |cache|
        invariant FindActive(cache, token, 0) == FindActive(cache, token, i)
      {
        i := i + 1;
      }
      if i == |cache| {
        return Some(StaleCompletion);
      }
      cache := cache[i := cache[i].(state := Completed(response))];
      if owner == Some(token) {
        owner := None;
      }
      if batch == Executing(token) {
        batch := Idle;
      }
      error := None;
    }

    method AdmitPrepared(r: OwnedRequest, externalBusy: bool) returns (admission: Admission)
      requires |cache| <= RESPONSE_CACHE_SIZE
      modifies this
      ensures Admitted(View(), admission) == Admit(old(View()), r, externalBusy)
    {
      if r.kind == ResponseExpected {
        var known := Find(r.sequence);
        if known.Some? {
          var entry := cache[known.value];
          if entry.fingerprint != r.fingerprint {
            return Reject(SequenceConflict);
          }
          return if entry.state == Active then BusyNow(ActiveDuplicate) else Replay(entry.state.response);
        }
      }
      var body := Decoded(r);
      if body.Err? {
        return Reject(CommandErrorCode(body.error));
      }
      var requestClass, request := Classify(body.value), r.(body := body.value);
      if externalBusy && (requestClass == ClassBatchBegin || requestClass == ClassBatchEnd || requestClass == ClassMutating) {
        return BusyNow(ExecutorOccupied);
      }
      match requestClass {
        case ClassBatchBegin => admission := BeginBatch(request);
        case ClassBatchEnd => admission := EndBatch(request);
        case ClassStopAll => admission := StopNow(request);
        case ClassBypass => admission := PassBy(request);
        case ClassMutating => admission := Mutate(request);
      }
    }

    method BeginBatch(r: OwnedRequest) returns (admission: Admission)
      requires |cache| <= RESPONSE_CACHE_SIZE
      modifies this
      ensures Admitted(View(), admission) == AdmitBatchBegin(old(View()), r)
    {
      if batch != Idle {
        return Reject(BatchState);
      }
      if owner.Some? {
        return BusyNow(ExecutorOccupied);
      }
      var token := Insert(r, false);
      if token.None? {
        return BusyNow(ExecutorOccupied);
      }
      batch := Collecting;
      var response := AckResponse(token.value.version, token.value.sequence);
      var _ := CompleteRequest(token.value, response);
      admission := Immediate(response);
    }

    method EndBatch(r: OwnedRequest) returns (admission: Admission)
      requires |cache| <= RESPONSE_CACHE_SIZE
      modifies this
      ensures Admitted(View(), admission) == AdmitBatchEnd(old(View()), r)
    {
      if batch != Collecting {
        return Reject(BatchState);
      }
      var token := Insert(r, false);
      if token.None? {
        return BusyNow(ExecutorOccupied);
      }
      batch := Executing(token.value);
      admission := ExecuteRequest(r.(token := token));
    }

    method PassBy(r: OwnedRequest) returns (admission: Admission)
      requires |cache| <= RESPONSE_CACHE_SIZE
      modifies this
      ensures Admitted(View(), admission) == AdmitBypass(old(View()), r)
    {
      if r.kind == NoResponseHeartbeat {
        return NoResponse(r);
      }
      var token := Insert(r, false);
      admission := if token.None? then BusyNow(ExecutorOccupied) else Bypass(r.(token := token));
    }

    method StopNow(r: OwnedRequest) returns (admission: Admission)
      requires |cache| <= RESPONSE_CACHE_SIZE
      modifies this
      ensures Admitted(View(), admission) == AdmitStop(old(View()), r)
    {
      var token := Insert(r, true);
      if token.None? {
        return BusyNow(ExecutorOccupied);
      }
      if batch == Collecting {
        batch := Idle;
      }
      admission := Stop(r.(token := token));
    }

    method Mutate(r: OwnedRequest) returns (admission: Admission)
      requires |cache| <= RESPONSE_CACHE_SIZE
      modifies this
      ensures Admitted(View(), admission) == AdmitMutating(old(View()), r)
    {
      if batch.Executing? {
        return BusyNow(BatchExecuting);
      }
      if batch == Idle && owner.Some? {
        return BusyNow(ExecutorOccupied);
      }
      var token := Insert(r, false);
      if token.None? {
        return BusyNow(ExecutorOccupied);
      }
      if batch == Collecting {
        return Collect(r.(token := token));
      }
      owner := token;
      admission := ExecuteRequest(r.(token := token));
    }

    method Abort()
      modifies this
      ensures View() == AbortBatch(old(View()))
    {
      if batch == Collecting {
        batch := Idle;
      }
    }

    /** The generation counter is checked, so exhausting it would stop the firmware. */
    method Clear()
      requires session + 1 < U64_LIMIT
      modifies this
      ensures View() == ClearSession(old(View()))
    {
      session := session + 1;
      cache, nextEvict, owner, batch := [], 0, None, Idle;
    }
  }
}
