/**
 What holds over every history of coordinator calls: the cache and ownership
 invariant, and what each call and each admission decision does to it.
 */
module CoordinatorHistory {
  import opened Types
  import opened Protocol
  import opened Commands
  import opened Coordinator

  // ---- Invariant ----

  predicate EntryOk(e: CacheEntry, session: nat, nextId: nat) {
    && e.sequence != 0
    && e.token.sequence == e.sequence && e.token.fingerprint == e.fingerprint
    && e.token.sessionGeneration == session && e.token.admissionId < nextId
    && (e.state.Completed? ==>
          && e.state.response.sequence == e.sequence && e.state.response.version == e.token.version
          && IsFinal(e.state.response, e.token.expected))
  }

  ghost predicate Distinct(cache: seq<CacheEntry>) {
    forall i, j :: 0 <= i < j < |cache| ==>
      cache[i].sequence != cache[j].sequence && cache[i].token.admissionId != cache[j].token.admissionId
  }

  ghost predicate CacheOk(s: CoordState) {
    && |s.cache| <= RESPONSE_CACHE_SIZE && s.nextEvict < RESPONSE_CACHE_SIZE
    && (|s.cache| < RESPONSE_CACHE_SIZE ==> s.nextEvict == 0)
    && (forall i :: 0 <= i < |s.cache| ==> EntryOk(s.cache[i], s.session, s.nextId))
    && Distinct(s.cache)
  }

  ghost predicate IsActive(cache: seq<CacheEntry>, token: CompletionToken) {
    exists i :: IsActiveAt(cache, i, token)
  }

  /** Ownership always names a live request, and a single job excludes any batch. */
  ghost predicate OwnersOk(s: CoordState) {
    && (s.owner.Some? ==> s.batch == Idle && IsActive(s.cache, s.owner.value))
    && (s.batch.Executing? ==> IsActive(s.cache, s.batch.owner))
  }

  ghost predicate Inv(s: CoordState) {
    CacheOk(s) && OwnersOk(s)
  }

  // ---- Effect of one insertion ----

  ghost predicate Absent(cache: seq<CacheEntry>, sequence: U16) {
    forall i :: 0 <= i < |cache| ==> cache[i].sequence != sequence
  }

  /** The new entry sits at index at; everything else is untouched, and only a completed entry made way. */
  ghost predicate InsertedAt(s: CoordState, next: CoordState, entry: CacheEntry, at: nat) {
    && at < |next.cache| && next.cache[at] == entry
    && (at == |s.cache| || (at < |s.cache| && s.cache[at].state.Completed?))
    && |next.cache| == (if at == |s.cache| then |s.cache| + 1 else |s.cache|)
    && (forall i :: 0 <= i < |s.cache| && i != at ==> next.cache[i] == s.cache[i])
  }

  lemma InsertEffect(s: CoordState, r: OwnedRequest, urgent: bool) returns (at: nat)
    requires CacheOk(s) && InsertActive(s, r, urgent).Inserted?
    ensures var next, token := InsertActive(s, r, urgent).state, NewToken(s, r);
            && InsertActive(s, r, urgent).token == token
            && InsertedAt(s, next, CacheEntry(r.sequence, r.fingerprint, token, Active), at)
            && next.nextId == s.nextId + 1 && next.session == s.session
            && next.owner == s.owner && next.batch == s.batch
    ensures r.sequence != 0 && Absent(s.cache, r.sequence) ==> CacheOk(InsertActive(s, r, urgent).state)
  {
    var slot := ChooseSlot(s, urgent);
    at := if slot == Append then |s.cache| else slot.index;
    var next := InsertActive(s, r, urgent).state;
    forall i | 0 <= i < |next.cache| && r.sequence != 0
      ensures EntryOk(next.cache[i], next.session, next.nextId)
    {
      if i != at {
        assert EntryOk(s.cache[i], s.session, s.nextId);
      }
    }
  }

  lemma InsertKeepsActive(s: CoordState, r: OwnedRequest, urgent: bool, token: CompletionToken)
    requires CacheOk(s) && InsertActive(s, r, urgent).Inserted?
    ensures IsActive(s.cache, token) ==> IsActive(InsertActive(s, r, urgent).state.cache, token)
    ensures IsActive(InsertActive(s, r, urgent).state.cache, token) ==> IsActive(s.cache, token) || token == NewToken(s, r)
    ensures IsActive(InsertActive(s, r, urgent).state.cache, NewToken(s, r))
  {
    var at := InsertEffect(s, r, urgent);
    hide InsertActive;
    var next := InsertActive(s, r, urgent).state;
    assert IsActiveAt(next.cache, at, NewToken(s, r));
    if IsActive(s.cache, token) {
      var i :| IsActiveAt(s.cache, i, token);
      assert IsActiveAt(next.cache, i, token);
    }
    if IsActive(next.cache, token) {
      var i :| IsActiveAt(next.cache, i, token);
      if i != at {
        assert IsActiveAt(s.cache, i, token);
      }
    }
  }

  // ---- Effect of one completion ----

  lemma CompleteEffect(s: CoordState, token: CompletionToken, response: CachedResponse) returns (at: nat)
    requires CacheOk(s) && Complete(s, token, response).Ok?
    ensures var next := Complete(s, token, response).value;
            && IsActiveAt(s.cache, at, token)
            && next.cache == s.cache[at := s.cache[at].(state := Completed(response))]
            && next.session == s.session && next.nextId == s.nextId
            && CacheOk(next)
            && !IsActive(next.cache, token)
            && (forall t :: t != token ==> (IsActive(next.cache, t) <==> IsActive(s.cache, t)))
  {
    at := FindActive(s.cache, token, 0).value;
    var next := Complete(s, token, response).value;
    assert EntryOk(s.cache[at], s.session, s.nextId);
    forall i | 0 <= i < |next.cache|
      ensures EntryOk(next.cache[i], next.session, next.nextId)
    {
      assert EntryOk(s.cache[i], s.session, s.nextId);
    }
    forall t | t != token && IsActive(s.cache, t)
      ensures IsActive(next.cache, t)
    {
      var i :| IsActiveAt(s.cache, i, t);
      assert IsActiveAt(next.cache, i, t);
    }
    forall t | IsActive(next.cache, t)
      ensures t != token && IsActive(s.cache, t)
    {
      var i :| IsActiveAt(next.cache, i, t);
      assert IsActiveAt(s.cache, i, t);
    }
  }

  /** Completion succeeds exactly for an active token and a final response bound to it. */
  lemma CompleteSucceeds(s: CoordState, token: CompletionToken, response: CachedResponse)
    ensures Complete(s, token, response).Ok? <==>
              && IsActive(s.cache, token)
              && response.sequence == token.sequence && response.version == token.version
              && IsFinal(response, token.expected)
  {
    if IsActive(s.cache, token) {
      var i :| IsActiveAt(s.cache, i, token);
    }
  }

  // ---- Calls ----

  datatype Call =
    | CallAdmit(request: OwnedRequest, externalBusy: bool)
    | CallComplete(token: CompletionToken, response: CachedResponse)
    | CallAbort
    | CallClear

  predicate Legal(call: Call) {
    call.CallAdmit? ==> WellFormed(call.request)
  }

  /** A clear with an exhausted generation counter halts the firmware, so nothing follows it. */
  function Apply(s: CoordState, call: Call): CoordState {
    match call
    case CallAdmit(request, externalBusy) => Admit(s, request, externalBusy).state
    case CallComplete(token, response) =>
      var done := Complete(s, token, response);
      if done.Ok? then done.value else s
    case CallAbort => AbortBatch(s)
    case CallClear => if s.session + 1 < U64_LIMIT then ClearSession(s) else s
  }

  function ApplyAll(s: CoordState, calls: seq<Call>): CoordState
    decreases |calls|
  {
    if calls == [] then s else ApplyAll(Apply(s, calls[0]), calls[1..])
  }

  /** A fresh well-formed request that an insertion is attempted for carries a nonzero sequence not in the cache. */
  predicate Insertable(s: CoordState, r: OwnedRequest) {
    && r.kind == ResponseExpected && r.sequence != 0
    && FindSequence(s.cache, r.sequence, 0).None?
  }

  lemma InsertKeepsInv(s: CoordState, r: OwnedRequest, urgent: bool)
    requires Inv(s) && Insertable(s, r) && InsertActive(s, r, urgent).Inserted?
    ensures Inv(InsertActive(s, r, urgent).state)
    ensures IsActive(InsertActive(s, r, urgent).state.cache, NewToken(s, r))
  {
    var at := InsertEffect(s, r, urgent);
    InsertKeepsActive(s, r, urgent, NewToken(s, r));
    if s.owner.Some? {
      InsertKeepsActive(s, r, urgent, s.owner.value);
    }
    if s.batch.Executing? {
      InsertKeepsActive(s, r, urgent, s.batch.owner);
    }
  }

  lemma CompleteKeepsInv(s: CoordState, token: CompletionToken, response: CachedResponse)
    requires Inv(s) && Complete(s, token, response).Ok?
    ensures Inv(Complete(s, token, response).value)
  {
    var at := CompleteEffect(s, token, response);
  }

  lemma BeginKeepsInv(s: CoordState, r: OwnedRequest)
    requires Inv(s) && Insertable(s, r)
    ensures Inv(AdmitBatchBegin(s, r).state)
  {
    hide InsertActive;
    if InsertActive(s, r, false).Inserted? && s.batch == Idle && s.owner.None? {
      var at := InsertEffect(s, r, false);
      InsertKeepsInv(s, r, false);
      var collecting := InsertActive(s, r, false).state.(batch := Collecting);
      var response := AckResponse(r.version, r.sequence);
      assert Inv(collecting);
      if Complete(collecting, NewToken(s, r), response).Ok? {
        CompleteKeepsInv(collecting, NewToken(s, r), response);
      }
    }
  }

  lemma OthersKeepInv(s: CoordState, r: OwnedRequest)
    requires Inv(s) && Insertable(s, r)
    ensures Inv(AdmitBatchEnd(s, r).state) && Inv(AdmitBypass(s, r).state)
    ensures Inv(AdmitStop(s, r).state) && Inv(AdmitMutating(s, r).state)
  {
    hide InsertActive;
    if InsertActive(s, r, false).Inserted? {
      var at := InsertEffect(s, r, false);
      InsertKeepsInv(s, r, false);
    }
    if InsertActive(s, r, true).Inserted? {
      var at := InsertEffect(s, r, true);
      InsertKeepsInv(s, r, true);
    }
  }

  lemma HeartbeatIsBypass(r: OwnedRequest)
    requires WellFormed(r) && r.kind == NoResponseHeartbeat
    ensures Decoded(r).Ok? ==> Classify(Decoded(r).value) == ClassBypass
  {
  }

  lemma ClassKeepsInv(s: CoordState, r: OwnedRequest, requestClass: RequestClass)
    requires Inv(s) && Insertable(s, r)
    ensures Inv(AdmitClass(s, r, requestClass).state)
  {
    BeginKeepsInv(s, r);
    OthersKeepInv(s, r);
    hide AdmitBatchBegin, AdmitBatchEnd, AdmitBypass, AdmitStop, AdmitMutating, Inv;
  }

  lemma FreshKeepsInv(s: CoordState, r: OwnedRequest, externalBusy: bool)
    requires Inv(s) && Insertable(s, r)
    ensures Inv(AdmitFresh(s, r, externalBusy).state)
  {
    hide AdmitClass, Inv, Decoded, Classify;
    if Decoded(r).Ok? {
      var request := r.(body := Decoded(r).value);
      ClassKeepsInv(s, request, Classify(request.body));
    }
  }

  lemma AdmitKeepsInv(s: CoordState, r: OwnedRequest, externalBusy: bool)
    requires Inv(s) && WellFormed(r)
    ensures Inv(Admit(s, r, externalBusy).state)
  {
    if r.kind == NoResponseHeartbeat {
      HeartbeatIsBypass(r);
      hide Inv, Decoded, Classify;
    } else {
      hide AdmitFresh, Inv;
      if FindSequence(s.cache, r.sequence, 0).None? {
        FreshKeepsInv(s, r, externalBusy);
      }
    }
  }

  lemma ApplyKeepsInv(s: CoordState, call: Call)
    requires Inv(s) && Legal(call)
    ensures Inv(Apply(s, call))
  {
    match call
    case CallAdmit(request, externalBusy) => AdmitKeepsInv(s, request, externalBusy);
    case CallComplete(token, response) =>
      if Complete(s, token, response).Ok? {
        CompleteKeepsInv(s, token, response);
      }
    case CallAbort =>
    case CallClear =>
  }

  /** Every history of calls keeps the cache and ownership invariant. */
  lemma {:induction false} HistoriesKeepInv(s: CoordState, calls: seq<Call>)
    requires Inv(s) && forall c :: c in calls ==> Legal(c)
    ensures Inv(ApplyAll(s, calls))
    decreases |calls|
  {
    if calls != [] {
      ApplyKeepsInv(s, calls[0]);
      HistoriesKeepInv(Apply(s, calls[0]), calls[1..]);
    }
  }

  lemma InitialInv()
    ensures Inv(INITIAL)
  {
  }

  // ---- What each admission decision means ----

  ghost predicate GainsActive(s: CoordState, next: CoordState, token: CompletionToken) {
    forall t :: IsActive(next.cache, t) <==> IsActive(s.cache, t) || t == token
  }

  ghost predicate SameActive(s: CoordState, next: CoordState) {
    forall t :: IsActive(next.cache, t) <==> IsActive(s.cache, t)
  }

  /** Entries survive unchanged unless a completed one made way for a new admission. */
  ghost predicate Extends(s: CoordState, next: CoordState) {
    && next.session == s.session && s.nextId <= next.nextId && |s.cache| <= |next.cache|
    && forall i :: 0 <= i < |next.cache| ==>
         || (i < |s.cache| && next.cache[i] == s.cache[i])
         || (next.cache[i].token.admissionId >= s.nextId && (i < |s.cache| ==> s.cache[i].state.Completed?))
  }

  /** The request was given a token of its own, now active, made from its own fields. */
  ghost predicate Accepted(s: CoordState, r: OwnedRequest, next: CoordState, q: OwnedRequest) {
    && q == r.(body := q.body, token := Some(NewToken(s, r)))
    && next.nextId == s.nextId + 1
    && GainsActive(s, next, NewToken(s, r))
  }

  /** What the dispatcher may rely on for each decision. */
  ghost predicate Meaning(s: CoordState, r: OwnedRequest, next: CoordState, admission: Admission) {
    match admission
    case ExecuteRequest(q) =>
      && Accepted(s, r, next, q) && s.owner.None?
      && if q.body == BatchEndMark
         then s.batch == Collecting && next.owner.None? && next.batch == Executing(NewToken(s, r))
         else q.body.Typed? && s.batch == Idle && next.batch == Idle && next.owner == Some(NewToken(s, r))
    case Collect(q) => Accepted(s, r, next, q) && q.body.Typed? && s.batch == Collecting && next.batch == Collecting && next.owner == s.owner
    case Bypass(q) => Accepted(s, r, next, q) && q.body.Typed? && next.batch == s.batch && next.owner == s.owner
    case Stop(q) =>
      && Accepted(s, r, next, q) && q.body == Typed(DoStopAll) && next.owner == s.owner
      && next.batch == if s.batch == Collecting then Idle else s.batch
    case Immediate(response) =>
      && s.batch == Idle && s.owner.None? && next.batch == Collecting && next.owner.None?
      && next.nextId == s.nextId + 1
      && SameActive(s, next) && response == AckResponse(r.version, r.sequence)
    case _ => next == s
  }

  lemma InsertMeaning(s: CoordState, r: OwnedRequest, urgent: bool)
    requires CacheOk(s) && InsertActive(s, r, urgent).Inserted?
    ensures var next := InsertActive(s, r, urgent).state;
            && InsertActive(s, r, urgent).token == NewToken(s, r)
            && next.nextId == s.nextId + 1 && next.owner == s.owner && next.batch == s.batch
            && GainsActive(s, next, NewToken(s, r)) && Extends(s, next)
  {
    var at := InsertEffect(s, r, urgent);
    hide InsertActive;
    var next := InsertActive(s, r, urgent).state;
    forall t
      ensures IsActive(next.cache, t) <==> IsActive(s.cache, t) || t == NewToken(s, r)
    {
      InsertKeepsActive(s, r, urgent, t);
    }
  }

  lemma CompletedAtOnce(s: CoordState, collecting: CoordState, token: CompletionToken, response: CachedResponse)
    requires CacheOk(collecting) && GainsActive(s, collecting, token) && !IsActive(s.cache, token)
    requires Extends(s, collecting) && token.admissionId == s.nextId && Complete(collecting, token, response).Ok?
    ensures SameActive(s, Complete(collecting, token, response).value)
    ensures Extends(s, Complete(collecting, token, response).value)
  {
    var at := CompleteEffect(collecting, token, response);
    assert !IsActiveAt(s.cache, at, token);
  }

  lemma NewTokenIsNew(s: CoordState, r: OwnedRequest)
    requires CacheOk(s)
    ensures !IsActive(s.cache, NewToken(s, r))
  {
    forall i | 0 <= i < |s.cache|
      ensures s.cache[i].token.admissionId < s.nextId
    {
      assert EntryOk(s.cache[i], s.session, s.nextId);
    }
  }

  lemma BeginMeaning(s: CoordState, r: OwnedRequest)
    requires Inv(s) && Insertable(s, r) && r.body == BatchBeginMark && r.commandType == CommandType.BatchBegin
    ensures var a := AdmitBatchBegin(s, r);
            Meaning(s, r, a.state, a.admission) && Extends(s, a.state)
  {
    hide InsertActive;
    if InsertActive(s, r, false).Inserted? && s.batch == Idle && s.owner.None? {
      InsertMeaning(s, r, false);
      InsertKeepsInv(s, r, false);
      NewTokenIsNew(s, r);
      var token := NewToken(s, r);
      var collecting := InsertActive(s, r, false).state.(batch := Collecting);
      var response := AckResponse(r.version, r.sequence);
      assert IsActive(collecting.cache, token);
      CompleteSucceeds(collecting, token, response);
      CompletedAtOnce(s, collecting, token, response);
    }
  }

  lemma AcceptMeaning(s: CoordState, r: OwnedRequest, urgent: bool)
    requires Inv(s) && Insertable(s, r) && InsertActive(s, r, urgent).Inserted?
    ensures var next := InsertActive(s, r, urgent).state;
            && Accepted(s, r, next, r.(token := Some(InsertActive(s, r, urgent).token)))
            && next.owner == s.owner && next.batch == s.batch && Extends(s, next)
  {
    InsertMeaning(s, r, urgent);
    hide InsertActive, NewToken;
  }

  lemma EndMeaning(s: CoordState, r: OwnedRequest)
    requires Inv(s) && Insertable(s, r) && r.body == BatchEndMark
    ensures var a := AdmitBatchEnd(s, r);
            Meaning(s, r, a.state, a.admission) && Extends(s, a.state)
  {
    hide InsertActive, NewToken;
    if InsertActive(s, r, false).Inserted? {
      AcceptMeaning(s, r, false);
    }
  }

  lemma BypassMeaning(s: CoordState, r: OwnedRequest)
    requires Inv(s) && Insertable(s, r) && r.body.Typed?
    ensures var a := AdmitBypass(s, r);
            Meaning(s, r, a.state, a.admission) && Extends(s, a.state)
  {
    hide InsertActive, NewToken;
    if InsertActive(s, r, false).Inserted? {
      AcceptMeaning(s, r, false);
    }
  }

  lemma StopMeaning(s: CoordState, r: OwnedRequest)
    requires Inv(s) && Insertable(s, r) && r.body == Typed(DoStopAll)
    ensures var a := AdmitStop(s, r);
            Meaning(s, r, a.state, a.admission) && Extends(s, a.state)
  {
    hide InsertActive, NewToken;
    if InsertActive(s, r, true).Inserted? {
      AcceptMeaning(s, r, true);
    }
  }

  lemma MutatingMeaning(s: CoordState, r: OwnedRequest)
    requires Inv(s) && Insertable(s, r) && r.body.Typed?
    ensures var a := AdmitMutating(s, r);
            Meaning(s, r, a.state, a.admission) && Extends(s, a.state)
  {
    hide InsertActive, NewToken;
    if InsertActive(s, r, false).Inserted? {
      AcceptMeaning(s, r, false);
    }
  }

  lemma ClassMeaning(s: CoordState, r: OwnedRequest)
    requires Inv(s) && Insertable(s, r) && !r.body.Raw?
    requires r.body == BatchBeginMark ==> r.commandType == CommandType.BatchBegin
    ensures var a := AdmitClass(s, r, Classify(r.body));
            Meaning(s, r, a.state, a.admission) && Extends(s, a.state)
  {
    hide AdmitBatchBegin, AdmitBatchEnd, AdmitBypass, AdmitStop, AdmitMutating, Meaning, Extends, Inv;
    match Classify(r.body)
    case ClassBatchBegin => BeginMeaning(s, r);
    case ClassBatchEnd => EndMeaning(s, r);
    case ClassStopAll => StopMeaning(s, r);
    case ClassBypass => BypassMeaning(s, r);
    case ClassMutating => MutatingMeaning(s, r);
  }

  /** The decoded body follows from the command type. */
  lemma BodyMatchesType(r: OwnedRequest)
    requires r.body.Raw? && Decoded(r).Ok?
    ensures Decoded(r).value == BatchBeginMark <==> r.commandType == CommandType.BatchBegin
    ensures Decoded(r).value == BatchEndMark <==> r.commandType == CommandType.BatchEnd
  {
    hide DecodeCommand, OwnedFromFrame;
  }

  lemma FreshMeaning(s: CoordState, r: OwnedRequest, externalBusy: bool)
    requires Inv(s) && Insertable(s, r) && WellFormed(r)
    ensures var a := AdmitFresh(s, r, externalBusy);
            Meaning(s, r, a.state, a.admission) && Extends(s, a.state)
    ensures externalBusy ==> var a := AdmitFresh(s, r, externalBusy).admission; !a.ExecuteRequest? && !a.Collect? && !a.Immediate?
  {
    if Decoded(r).Ok? {
      BodyMatchesType(r);
      hide Decoded;
      var request := r.(body := Decoded(r).value);
      ClassMeaning(s, request);
      MeaningOfDecoded(s, r, request, AdmitClass(s, request, Classify(request.body)));
      ClassDecides(s, request, Classify(request.body));
      hide AdmitClass, Meaning, Extends, Inv, Classify;
    } else {
      SelfExtends(s);
    }
  }

  lemma SelfExtends(s: CoordState)
    ensures Extends(s, s)
  {
  }

  /** Only batch markers and mutations are executed, collected or answered at once. */
  lemma ClassDecides(s: CoordState, r: OwnedRequest, requestClass: RequestClass)
    ensures requestClass == ClassStopAll || requestClass == ClassBypass ==>
              var a := AdmitClass(s, r, requestClass).admission; !a.ExecuteRequest? && !a.Collect? && !a.Immediate?
  {
    hide InsertActive;
  }

  /** A decision about the decoded request is one about the raw request. */
  lemma MeaningOfDecoded(s: CoordState, r: OwnedRequest, request: OwnedRequest, a: Admitted)
    requires request == r.(body := request.body) && Meaning(s, request, a.state, a.admission)
    ensures Meaning(s, r, a.state, a.admission)
  {
    assert NewToken(s, r) == NewToken(s, request);
    hide NewToken, GainsActive, SameActive;
  }

  /**
   Every admission decision, for every well-formed request: which token it hands out, what happens to
   the owners, and that a refusal, a replay or a heartbeat changes nothing.
   */
  lemma AdmitMeaning(s: CoordState, r: OwnedRequest, externalBusy: bool)
    requires Inv(s) && WellFormed(r)
    ensures var a := Admit(s, r, externalBusy);
            Meaning(s, r, a.state, a.admission) && Extends(s, a.state)
    ensures externalBusy ==> var a := Admit(s, r, externalBusy).admission; !a.ExecuteRequest? && !a.Collect? && !a.Immediate?
  {
    SelfExtends(s);
    if r.kind == NoResponseHeartbeat {
      HeartbeatIsBypass(r);
      hide Inv, Decoded, Classify, Extends;
    } else {
      hide AdmitFresh, Inv, Extends;
      if FindSequence(s.cache, r.sequence, 0).None? {
        FreshMeaning(s, r, externalBusy);
      }
    }
  }

  // ---- What was asked for ----

  predicate BodyFits(r: OwnedRequest, q: OwnedRequest, requestClass: RequestClass) {
    Decoded(r) == Ok(q.body) && !q.body.Raw? && Classify(q.body) == requestClass
  }

  lemma ClassBodies(s: CoordState, r: OwnedRequest, requestClass: RequestClass)
    ensures match AdmitClass(s, r, requestClass).admission
            case ExecuteRequest(q) => q.body == r.body && (requestClass == ClassMutating || requestClass == ClassBatchEnd)
            case Collect(q) => q.body == r.body && requestClass == ClassMutating
            case Bypass(q) => q.body == r.body && requestClass == ClassBypass
            case Stop(q) => q.body == r.body && requestClass == ClassStopAll
            case Immediate(_) => requestClass == ClassBatchBegin
            case _ => true
  {
    hide InsertActive, Complete;
  }

  /** An accepted request carries the body its bytes decode to, and the decision fits the body's class. */
  lemma AdmitBodies(s: CoordState, r: OwnedRequest, externalBusy: bool)
    ensures match Admit(s, r, externalBusy).admission
            case ExecuteRequest(q) => BodyFits(r, q, ClassMutating) || BodyFits(r, q, ClassBatchEnd)
            case Collect(q) => BodyFits(r, q, ClassMutating)
            case Bypass(q) => BodyFits(r, q, ClassBypass)
            case Stop(q) => BodyFits(r, q, ClassStopAll)
            case Immediate(_) => Decoded(r).Ok? && Classify(Decoded(r).value) == ClassBatchBegin
            case _ => true
  {
    hide Decoded;
    if Decoded(r).Ok? {
      var body := Decoded(r).value;
      ClassBodies(s, r.(body := body), Classify(body));
      hide AdmitClass, Classify;
    }
  }

  /** Requests that are not queries expect an ACK, and an accepted wait is within the limit. */
  lemma AckExpected(r: OwnedRequest, body: RequestBody)
    requires WellFormed(r) && Decoded(r) == Ok(body) && Classify(body) != ClassBypass
    ensures ExpectedFor(r.commandType) == ExpectAck
    ensures body.Typed? ==> WithinWaitLimit(body.command)
  {
    if body.Typed? {
      DecodedWaitIsShort(r.commandType, r.body.payload);
    }
  }

  /** Aborting closes an open collection and touches nothing else: no entry, no owner, no executing batch. */
  lemma AbortOnlyClosesCollection(s: CoordState)
    ensures var next := AbortBatch(s);
            && next.batch != Collecting && (s.batch != Collecting ==> next == s)
            && next == s.(batch := next.batch) && Occupied(next) == Occupied(s)
  {
  }
}
