/**
 The dispatcher's side of the pipeline: every admission decision and every safety
 event keeps the pipeline invariant.
 */
module Dispatcher {
  import opened Types
  import opened Protocol
  import opened Commands
  import opened InputState
  import opened ExecutionCore
  import opened Batch
  import opened Coordinator
  import opened CoordinatorHistory
  import opened Cancellation
  import opened Runtime
  import opened Pipeline

  lemma FreeMeansEmpty(f: Flow)
    requires FlowInv(f) && !f.stop.inFlight && CurrentOwner(f.coord).None?
    ensures Pipe(f) == [] && f.done == [] && f.queue == [] && f.shadow == f.held
  {
    PipeEmpty(f);
    hide Pipe, Inv, JobsOk, ActiveInStep, EndsReleased;
  }

  // ---- Decisions that leave the pipeline alone ----

  ghost predicate QuietChange(s: CoordState, next: CoordState) {
    && Inv(next) && SameActive(s, next) && CurrentOwner(next) == CurrentOwner(s) && s.nextId <= next.nextId
  }

  lemma QuietKeeps(f: Flow, g: Flow)
    requires FlowInv(f) && QuietChange(f.coord, g.coord)
    requires g == f.(coord := g.coord, batch := g.batch)
    requires BatchInStep(g)
    ensures FlowInv(g)
  {
    assert Pipe(g) == Pipe(f);
    hide Pipe, Inv, JobOk, ResultOk, EndsReleased, IsActive, CurrentOwner, BatchInStep;
    assert OwnerInFlight(g);
    assert ActiveInStep(g);
  }

  /** A request admitted and completed in the same step leaves no live entry behind. */
  lemma PassingThrough(s: CoordState, mid: CoordState, token: CompletionToken, response: CachedResponse)
    requires Inv(s) && Inv(mid) && GainsActive(s, mid, token) && !IsActive(s.cache, token)
    requires CurrentOwner(mid) == CurrentOwner(s) && s.nextId <= mid.nextId && FinalFor(token, response)
    ensures Complete(mid, token, response).Ok?
    ensures QuietChange(s, CompleteOr(mid, token, response))
    ensures CompleteOr(mid, token, response).batch == Collecting <==> mid.batch == Collecting
  {
    assert CurrentOwner(s) != Some(token);
    CompleteOwner(mid, token, response);
    hide Complete, Inv;
  }

  /** The shape every decision has under the invariant; in particular no token is ever missing. */
  lemma AdmitFacts(c: Core, r: OwnedRequest)
    requires Inv(c.coord) && WellFormed(r)
    ensures var a := AdmitRequest(c, r);
            && Meaning(c.coord, r, a.state, a.admission) && Inv(a.state) && HasToken(a.admission)
            && c.coord.nextId <= a.state.nextId
            && (c.stop.inFlight ==> !a.admission.ExecuteRequest? && !a.admission.Collect? && !a.admission.Immediate?)
            && !IsActive(c.coord.cache, NewToken(c.coord, r))
  {
    AdmitMeaning(c.coord, r, c.stop.inFlight);
    AdmitKeepsInv(c.coord, r, c.stop.inFlight);
    NewTokenIsNew(c.coord, r);
    hide Admit, Inv, GainsActive, SameActive, NewToken;
  }

  lemma BypassIsFinal(r: OwnedRequest, q: OwnedRequest, token: CompletionToken)
    requires q.commandType == r.commandType && token.expected == ExpectedFor(r.commandType)
    ensures FinalFor(token, BypassResponse(q, token))
  {
  }

  lemma BypassKeeps(c: Core, r: OwnedRequest)
    requires FlowInv(FlowOf(c)) && c.pc == AtSelect && WellFormed(r) && AdmitRequest(c, r).admission.Bypass?
    requires HasToken(AdmitRequest(c, r).admission)
    ensures FlowInv(FlowOf(HandleAdmitted(c, r, AdmitRequest(c, r)).core))
  {
    AdmitFacts(c, r);
    var a := AdmitRequest(c, r);
    var q := a.admission.request;
    var token := NewToken(c.coord, r);
    BypassIsFinal(r, q, token);
    hide Admit, Inv, Complete, BypassResponse, FinalFor, FlowInv;
    PassingThrough(c.coord, a.state, token, BypassResponse(q, token)) by {
      OwnersUnchanged(c.coord, a.state);
      RevealInv(FlowOf(c));
    }
    var f, g := FlowOf(c), FlowOf(HandleAdmitted(c, r, a).core);
    RevealInv(f);
    BatchStays(f, g);
    QuietKeeps(f, g);
  }

  lemma OwnersUnchanged(s: CoordState, next: CoordState)
    requires next.owner == s.owner && next.batch == s.batch
    ensures CurrentOwner(next) == CurrentOwner(s)
  {
  }

  lemma RevealInv(f: Flow)
    requires FlowInv(f)
    ensures Inv(f.coord) && BatchInStep(f)
  {
  }

  lemma BatchStays(f: Flow, g: Flow)
    requires BatchInStep(f) && Pipe(g) == Pipe(f) && g.batch == f.batch && g.shadow == f.shadow
    requires g.coord.batch == Collecting <==> f.coord.batch == Collecting
    ensures BatchInStep(g)
  {
    hide Pipe, Collected;
  }

  lemma BeginsCollected(initial: Held)
    ensures Collected(initial, Begin(initial))
  {
  }

  /** BATCH_BEGIN: nothing is in flight, so the collector starts from the executor's real state. */
  lemma BeginKeeps(c: Core, r: OwnedRequest)
    requires FlowInv(FlowOf(c)) && c.pc == AtSelect && WellFormed(r) && AdmitRequest(c, r).admission.Immediate?
    ensures FlowInv(FlowOf(HandleAdmitted(c, r, AdmitRequest(c, r)).core))
    ensures c.shadow == c.held && Queue(c) == [] && Done(c) == []
  {
    RevealInv(FlowOf(c));
    AdmitFacts(c, r);
    BeginsCollected(c.shadow);
    var a := AdmitRequest(c, r);
    var f, g := FlowOf(c), FlowOf(HandleAdmitted(c, r, a).core);
    assert CurrentOwner(f.coord).None? && CurrentOwner(g.coord).None?;
    FreeMeansEmpty(f);
    PipeEmpty(g);
    hide Admit, Inv, FlowInv, Collected, Pipe, SameActive;
    QuietKeeps(f, g);
  }

  // ---- Collecting ----

  lemma CollectFacts(c: Core, r: OwnedRequest, response: CachedResponse, abort: bool)
    requires FlowInv(FlowOf(c)) && WellFormed(r) && AdmitRequest(c, r).admission.Collect?
    requires FinalFor(NewToken(c.coord, r), response)
    ensures var a := AdmitRequest(c, r);
            var mid := if abort then AbortBatch(a.state) else a.state;
            && a.admission.request.token == Some(NewToken(c.coord, r)) && a.admission.request.body.Typed?
            && QuietChange(c.coord, CompleteOr(mid, NewToken(c.coord, r), response))
            && (CompleteOr(mid, NewToken(c.coord, r), response).batch == Collecting <==> !abort)
            && c.batch.Some? && !c.stop.inFlight && Queue(c) == [] && Done(c) == []
  {
    RevealInv(FlowOf(c));
    AdmitFacts(c, r);
    var a := AdmitRequest(c, r);
    var token := NewToken(c.coord, r);
    var mid := if abort then AbortBatch(a.state) else a.state;
    assert c.coord.owner.None?;
    assert CurrentOwner(c.coord).None?;
    assert Inv(mid) && CurrentOwner(mid).None?;
    assert GainsActive(c.coord, mid, token);
    FreeMeansEmpty(FlowOf(c));
    hide Admit, Inv, FlowInv, FinalFor, GainsActive, Complete, NewToken, IsActive, QuietChange, Pipe;
    PassingThrough(c.coord, mid, token, response);
  }

  lemma AckIsFinal(r: OwnedRequest, body: RequestBody, s: CoordState, error: ErrorCode)
    requires WellFormed(r) && Decoded(r) == Ok(body) && Classify(body) != ClassBypass
    ensures NewToken(s, r).expected == ExpectAck
    ensures FinalFor(NewToken(s, r), TokenAck(NewToken(s, r))) && FinalFor(NewToken(s, r), TokenNack(NewToken(s, r), error))
  {
    AckExpected(r, body);
    hide Decoded, Classify, ExpectedFor;
  }

  lemma StillCollecting(f: Flow, g: Flow, next: Collector)
    requires FlowInv(f) && f.done == [] && f.queue == [] && QuietChange(f.coord, g.coord) && g.coord.batch == Collecting
    requires g == f.(coord := g.coord, batch := Some(next)) && Collected(f.shadow, next)
    ensures FlowInv(g)
  {
    PipeEmpty(g);
    hide Inv, FlowInv, Collected, Pipe, QuietChange;
    QuietKeeps(f, g);
  }

  lemma CollectStep(c: Core, r: OwnedRequest)
    requires AdmitRequest(c, r).admission.Collect? && HasToken(AdmitRequest(c, r).admission)
    requires Pushed(c, AdmitRequest(c, r).admission.request).Ok? && c.pc == AtSelect
    ensures var a := AdmitRequest(c, r);
            var token := a.admission.request.token.value;
            FlowOf(HandleAdmitted(c, r, a).core)
            == FlowOf(c).(coord := CompleteOr(a.state, token, TokenAck(token)), batch := Some(Pushed(c, a.admission.request).value))
  {
    hide Admit, Complete, Push;
  }

  lemma CollectOkKeeps(c: Core, r: OwnedRequest)
    requires FlowInv(FlowOf(c)) && c.pc == AtSelect && WellFormed(r) && AdmitRequest(c, r).admission.Collect?
    requires Pushed(c, AdmitRequest(c, r).admission.request).Ok? && HasToken(AdmitRequest(c, r).admission)
    ensures FlowInv(FlowOf(HandleAdmitted(c, r, AdmitRequest(c, r)).core))
  {
    var a := AdmitRequest(c, r);
    var q := a.admission.request;
    var token := NewToken(c.coord, r);
    AdmitBodies(c.coord, r, c.stop.inFlight);
    AckIsFinal(r, q.body, c.coord, BatchCapacity);
    hide Admit, Decoded, Classify, WellFormed, Complete, Push, FlowInv, QuietChange, NewToken, FinalFor;
    CollectFacts(c, r, TokenAck(token), false);
    RevealInv(FlowOf(c));
    hide Inv, Pipe, Collected;
    PushKeepsPromise(c.shadow, c.batch.value, q.body.command);
    CollectStep(c, r);
    hide HandleAdmitted;
    StillCollecting(FlowOf(c), FlowOf(HandleAdmitted(c, r, a).core), Pushed(c, q).value);
  }

  // ---- Emergencies ----

  function OneMore(f: Flow): seq<Job> {
    f.queue + if f.stop.inFlight then [] else [EmergencyJob]
  }

  lemma EmergencyShape(f: Flow, g: Flow)
    requires FlowInv(f) && g.done == f.done && g.queue == OneMore(f) && g.stop.inFlight
    ensures Shape(Pipe(g), true) && Pipe(g) != []
    ensures Pipe(g)[0] == if Pipe(f) == [] then Emg else Pipe(f)[0]
  {
    if f.stop.inFlight {
      assert Pipe(g) == Pipe(f);
    } else {
      PipeAppend(f, g, EmergencyJob);
    }
    hide Pipe;
  }

  lemma EmergencyJobs(f: Flow, g: Flow)
    requires FlowInv(f) && g.done == f.done && g.queue == OneMore(f) && g.held == f.held
    ensures JobsOk(g)
  {
    hide JobOk;
    assert JobOk(EmergencyJob, f.held) by {
      EmergencyJobOk(f.held);
    }
  }

  lemma EmergencyJobOk(held: Held)
    ensures JobOk(EmergencyJob, held)
  {
  }

  /** Tokens handed out before and no longer live stay that way, and ownership is kept or everything is dropped. */
  ghost predicate Onward(s: CoordState, next: CoordState) {
    && Inv(next) && s.nextId <= next.nextId && next.batch != Collecting
    && (forall t: CompletionToken :: t.admissionId < s.nextId && !IsActive(s.cache, t) ==> !IsActive(next.cache, t))
    && (CurrentOwner(next) == CurrentOwner(s) || (CurrentOwner(next).None? && forall t :: !IsActive(next.cache, t)))
  }

  lemma EmergencyKeeps(f: Flow, g: Flow)
    requires FlowInv(f) && Onward(f.coord, g.coord) && ActiveInStep(g)
    requires g == f.(coord := g.coord, batch := None, stop := g.stop, queue := OneMore(f)) && g.stop.inFlight
    ensures FlowInv(g)
  {
    EmergencyShape(f, g);
    EmergencyJobs(f, g);
    hide Pipe, Inv, JobsOk, EndsReleased, IsActive, CurrentOwner, ActiveInStep, OneMore;
    assert BatchInStep(g);
    assert StateInStep(g);
    assert OwnerInFlight(g);
  }

  lemma EmergencyFlow(c: Core, scheduled: (StopState, EmergencyAction))
    requires c.pc == AtSelect && scheduled.1.enqueue == !c.stop.inFlight
    ensures FlowOf(Emergency(c, scheduled)) == FlowOf(c).(stop := scheduled.0, queue := OneMore(FlowOf(c)))
  {
  }

  lemma CollectErrKeeps(c: Core, r: OwnedRequest)
    requires FlowInv(FlowOf(c)) && c.pc == AtSelect && WellFormed(r) && AdmitRequest(c, r).admission.Collect?
    requires Pushed(c, AdmitRequest(c, r).admission.request).Err? && HasToken(AdmitRequest(c, r).admission)
    ensures FlowInv(FlowOf(HandleAdmitted(c, r, AdmitRequest(c, r)).core))
  {
    var a := AdmitRequest(c, r);
    var q := a.admission.request;
    var token := NewToken(c.coord, r);
    var response := TokenNack(token, BatchErrorCode(Pushed(c, q).error));
    AdmitBodies(c.coord, r, c.stop.inFlight);
    AckIsFinal(r, q.body, c.coord, BatchErrorCode(Pushed(c, q).error));
    CollectFacts(c, r, response, true);
    var aborted := c.(coord := CompleteOr(AbortBatch(a.state), token, response), batch := None);
    var f, g := FlowOf(c), FlowOf(aborted);
    PipeEmpty(f);
    PipeEmpty(g);
    assert BatchInStep(g) by {
      hide Complete, QuietChange, FlowInv, Admit, Collected, Pipe;
    }
    hide Admit, Inv, Pipe, QuietChange, Complete, Push, Decoded, Classify, NewToken, WellFormed, FlowInv, ErrorByte, BatchErrorCode;
    QuietKeeps(f, g);
    EmergencyFlow(aborted, ScheduleEmergency(c.stop));
    RescheduleKeeps(g, g.(stop := ScheduleEmergency(c.stop).0, queue := OneMore(g)));
  }

  /** An emergency with no new STOP_ALL behind it. */
  lemma RescheduleKeeps(f: Flow, g: Flow)
    requires FlowInv(f) && f.batch.None?
    requires g == f.(stop := ScheduleEmergency(f.stop).0, queue := OneMore(f))
    ensures FlowInv(g)
  {
    assert Onward(f.coord, g.coord) by {
      hide Pipe, Inv, JobsOk;
    }
    assert ActiveInStep(g);
    hide FlowInv, OneMore;
    EmergencyKeeps(f, g);
  }

  // ---- STOP_ALL ----

  lemma {:induction false} DistinctFit(tokens: seq<CompletionToken>, cache: seq<CacheEntry>)
    requires NoDuplicates(tokens) && forall t :: t in tokens ==> IsActive(cache, t)
    ensures |tokens| <= |cache|
    decreases |tokens|
  {
    if tokens != [] {
      assert tokens[0] in tokens;
      var i :| IsActiveAt(cache, i, tokens[0]);
      var others := cache[..i] + cache[i + 1..];
      forall t | t in tokens[1..]
        ensures IsActive(others, t)
      {
        assert t in tokens && t != tokens[0];
        var j :| IsActiveAt(cache, j, t);
        assert IsActiveAt(others, if j < i then j else j - 1, t);
      }
      DistinctFit(tokens[1..], others);
    }
  }

  /** There is always room for one more pending STOP_ALL: each one holds a cache slot. */
  lemma PendingHasRoom(f: Flow, next: CoordState, token: CompletionToken)
    requires ActiveInStep(f) && GainsActive(f.coord, next, token) && !IsActive(f.coord.cache, token)
    requires |next.cache| <= RESPONSE_CACHE_SIZE
    ensures |f.stop.pending| < RESPONSE_CACHE_SIZE && NoDuplicates(f.stop.pending + [token])
  {
    hide IsActive, CurrentOwner;
    DistinctFit(f.stop.pending + [token], next.cache);
  }

  lemma StopOnward(s: CoordState, next: CoordState, token: CompletionToken)
    requires Inv(s) && Inv(next) && GainsActive(s, next, token) && token.admissionId == s.nextId && s.nextId <= next.nextId
    requires next.owner == s.owner && next.batch == if s.batch == Collecting then Idle else s.batch
    ensures Onward(s, next) && CurrentOwner(next) == CurrentOwner(s)
  {
    hide IsActive, CacheOk;
  }

  lemma StopAddsPending(f: Flow, g: Flow, token: CompletionToken)
    requires FlowInv(f) && !IsActive(f.coord.cache, token) && GainsActive(f.coord, g.coord, token)
    requires CurrentOwner(g.coord) == CurrentOwner(f.coord) && |g.coord.cache| <= RESPONSE_CACHE_SIZE
    requires token.expected == ExpectAck && g.stop == HandleStop(f.stop, token).0
    ensures ActiveInStep(g) && g.stop.pending == f.stop.pending + [token]
  {
    PendingHasRoom(f, g.coord, token);
    hide Inv, Pipe, JobsOk, IsActive, CurrentOwner, OwnerInFlight, BatchInStep, StateInStep;
  }

  lemma StopFlow(c: Core, r: OwnedRequest)
    requires AdmitRequest(c, r).admission.Stop? && HasToken(AdmitRequest(c, r).admission) && c.pc == AtSelect
    ensures var a := AdmitRequest(c, r);
            FlowOf(HandleAdmitted(c, r, a).core)
            == FlowOf(c).(coord := a.state, batch := None, stop := HandleStop(c.stop, a.admission.request.token.value).0,
                          queue := OneMore(FlowOf(c)))
  {
    hide Admit;
  }

  /** STOP_ALL joins the pending list, which always has room, and starts or joins an emergency. */
  lemma StopKeeps(c: Core, r: OwnedRequest)
    requires FlowInv(FlowOf(c)) && c.pc == AtSelect && WellFormed(r) && AdmitRequest(c, r).admission.Stop?
    requires HasToken(AdmitRequest(c, r).admission)
    ensures var next := HandleAdmitted(c, r, AdmitRequest(c, r)).core;
            FlowInv(FlowOf(next)) && next.stop.pending == c.stop.pending + [NewToken(c.coord, r)]
  {
    RevealInv(FlowOf(c));
    AdmitFacts(c, r);
    AdmitBodies(c.coord, r, c.stop.inFlight);
    var a := AdmitRequest(c, r);
    AckIsFinal(r, a.admission.request.body, c.coord, BatchCapacity);
    var token := NewToken(c.coord, r);
    assert |a.state.cache| <= RESPONSE_CACHE_SIZE;
    hide Admit, Inv, FlowInv, Decoded, Classify, WellFormed, GainsActive, FinalFor;
    StopFlow(c, r);
    hide HandleAdmitted;
    var f, g := FlowOf(c), FlowOf(HandleAdmitted(c, r, a).core);
    StopOnward(f.coord, g.coord, token);
    StopAddsPending(f, g, token);
    EmergencyKeeps(f, g);
  }

  // ---- Safety events ----

  lemma SafetyFlow(c: Core)
    requires c.pc == AtSelect && c.coord.session + 1 < U64_LIMIT
    ensures FlowOf(HandleSafetyEvent(c))
         == FlowOf(c).(coord := ClearSession(c.coord), batch := None, queue := OneMore(FlowOf(c)),
                       stop := ScheduleEmergency(c.stop.(pending := [])).0)
  {
  }

  lemma ClearedOnward(s: CoordState)
    requires Inv(s) && s.session + 1 < U64_LIMIT
    ensures Onward(s, ClearSession(s)) && forall t :: !IsActive(ClearSession(s).cache, t)
  {
  }

  lemma SafetyEventDrops(c: Core)
    requires c.pc == AtSelect && c.coord.session + 1 < U64_LIMIT
    ensures var next := HandleSafetyEvent(c);
            && next.batch.None? && next.stop.pending == [] && next.stop.inFlight
            && next.coord == ClearSession(c.coord) && next.coord.cache == [] && CurrentOwner(next.coord).None?
            && next.pc == (if c.stop.inFlight then AtSelect else SendingJob(EmergencyJob))
            && next.cancel == Some(NextGeneration(c.stop.generation))
  {
  }

  lemma SafetyEventKeeps(c: Core)
    requires FlowInv(FlowOf(c)) && c.pc == AtSelect && c.coord.session + 1 < U64_LIMIT
    ensures FlowInv(FlowOf(HandleSafetyEvent(c)))
    ensures var next := HandleSafetyEvent(c);
            && next.batch.None? && next.stop.pending == [] && next.stop.inFlight
            && next.coord == ClearSession(c.coord) && next.coord.cache == [] && CurrentOwner(next.coord).None?
            && next.pc == (if c.stop.inFlight then AtSelect else SendingJob(EmergencyJob))
            && next.cancel == Some(NextGeneration(c.stop.generation))
  {
    SafetyEventDrops(c);
    RevealInv(FlowOf(c));
    SafetyFlow(c);
    ClearedOnward(c.coord);
    var f, g := FlowOf(c), FlowOf(HandleSafetyEvent(c));
    assert ActiveInStep(g) by {
      hide IsActive, HandleSafetyEvent, FlowInv;
    }
    hide FlowInv, HandleSafetyEvent, ActiveInStep, Onward, FlowOf;
    EmergencyKeeps(f, g);
  }

  // ---- Dispatching a command ----

  lemma ExecuteFlow(c: Core, r: OwnedRequest)
    requires AdmitRequest(c, r).admission.ExecuteRequest? && HasToken(AdmitRequest(c, r).admission) && c.pc == AtSelect
    requires r.commandType == CommandType.BatchEnd ==> c.batch.Some?
    requires AdmitRequest(c, r).admission.request.commandType == r.commandType
    ensures var a := AdmitRequest(c, r);
            var batch := if r.commandType == CommandType.BatchEnd then c.batch else None;
            var job := CommandJob(a.admission.request, batch, c.stop.generation, c.cancels);
            FlowOf(HandleAdmitted(c, r, a).core)
            == FlowOf(c).(coord := a.state, batch := (if batch.Some? then None else c.batch), queue := FlowOf(c).queue + [job])
  {
    hide Admit;
  }

  /** A dispatched command finds nothing in flight and becomes the one thing in flight. */
  lemma DispatchKeeps(f: Flow, g: Flow, job: Job, token: CompletionToken)
    requires FlowInv(f) && !f.stop.inFlight && CurrentOwner(f.coord).None?
    requires g == f.(coord := g.coord, batch := None, queue := f.queue + [job])
    requires job.CommandJob? && job.request.token == Some(token) && JobOk(job, f.held)
    requires Inv(g.coord) && GainsActive(f.coord, g.coord, token) && CurrentOwner(g.coord) == Some(token)
    requires g.coord.batch != Collecting && token.admissionId < g.coord.nextId && !IsActive(f.coord.cache, token)
    ensures FlowInv(g)
  {
    FreeMeansEmpty(f);
    PipeAppend(f, g, job);
    hide Pipe, Inv, JobOk, IsActive, EndsReleased, CurrentOwner;
    assert ActiveInStep(g);
    assert OwnerInFlight(g);
  }

  lemma MutatingIsBatchable(body: RequestBody)
    requires !body.Raw? && Classify(body) == ClassMutating
    ensures body.Typed? && Batchable(body.command)
  {
  }

  /** What an executed request asks for: the end of the batch, or one batchable command the second decoding accepts. */
  lemma ExecuteBodies(c: Core, r: OwnedRequest)
    requires WellFormed(r) && AdmitRequest(c, r).admission.ExecuteRequest?
    ensures var q := AdmitRequest(c, r).admission.request;
            && NewToken(c.coord, r).expected == ExpectAck
            && (q.body == BatchEndMark <==> r.commandType == CommandType.BatchEnd)
            && (q.body != BatchEndMark ==> q.body.Typed? && Batchable(q.body.command) && WithinWaitLimit(q.body.command))
  {
    AdmitBodies(c.coord, r, c.stop.inFlight);
    var q := AdmitRequest(c, r).admission.request;
    BodyMatchesType(r);
    AckExpected(r, q.body);
    if Classify(q.body) == ClassMutating {
      MutatingIsBatchable(q.body);
    }
    hide Admit, Decoded, Batchable, WithinWaitLimit, WellFormed;
  }

  /** What BATCH_END finds: the source's branch for a missing collector is never taken. */
  lemma ExecuteFacts(c: Core, r: OwnedRequest)
    requires FlowInv(FlowOf(c)) && WellFormed(r) && AdmitRequest(c, r).admission.ExecuteRequest?
    ensures var a := AdmitRequest(c, r);
            var q, token := a.admission.request, NewToken(c.coord, r);
            && q.token == Some(token) && q.commandType == r.commandType && token.expected == ExpectAck
            && token.admissionId < a.state.nextId && a.state.batch != Collecting
            && (r.commandType == CommandType.BatchEnd ==> c.batch.Some?)
            && (r.commandType != CommandType.BatchEnd ==>
                  c.batch.None? && q.body.Typed? && Batchable(q.body.command) && WithinWaitLimit(q.body.command))
            && CurrentOwner(c.coord).None? && CurrentOwner(a.state) == Some(token) && !c.stop.inFlight
            && GainsActive(c.coord, a.state, token)
  {
    hide Admit, Inv, FlowInv, GainsActive, WithinWaitLimit, Batchable, Pipe, Collected, WellFormed, ExpectedFor;
    RevealInv(FlowOf(c));
    AdmitFacts(c, r);
    ExecuteBodies(c, r);
  }

  lemma ExecuteKeeps(c: Core, r: OwnedRequest)
    requires FlowInv(FlowOf(c)) && c.pc == AtSelect && WellFormed(r) && AdmitRequest(c, r).admission.ExecuteRequest?
    requires HasToken(AdmitRequest(c, r).admission)
    ensures FlowInv(FlowOf(HandleAdmitted(c, r, AdmitRequest(c, r)).core))
  {
    var a := AdmitRequest(c, r);
    var f := FlowOf(c);
    var token := NewToken(c.coord, r);
    RevealInv(f);
    AdmitFacts(c, r);
    ExecuteFacts(c, r);
    FreeMeansEmpty(f);
    hide Admit, Inv, FlowInv, WellFormed, GainsActive, Collected, NewToken, Meaning, Pipe, CurrentOwner;
    ExecuteFlow(c, r);
    hide HandleAdmitted;
    var batch := if r.commandType == CommandType.BatchEnd then c.batch else None;
    var job := CommandJob(a.admission.request, batch, c.stop.generation, c.cancels);
    DispatchKeeps(f, FlowOf(HandleAdmitted(c, r, a).core), job, token);
  }

  // ---- Every step ----

  predicate ChangesNothing(a: Admission) {
    a.NoResponse? || a.Replay? || a.BusyNow? || a.Reject?
  }

  lemma RefusalKeeps(c: Core, r: OwnedRequest)
    requires FlowInv(FlowOf(c)) && WellFormed(r) && ChangesNothing(AdmitRequest(c, r).admission)
    ensures HandleAdmitted(c, r, AdmitRequest(c, r)).core == c
  {
    RevealInv(FlowOf(c));
    AdmitFacts(c, r);
    hide Admit, Inv, FlowInv;
  }

  lemma TakeRequestKeeps(c: Core, r: OwnedRequest)
    requires FlowInv(FlowOf(c)) && c.pc == AtSelect && WellFormed(r) && HasToken(AdmitRequest(c, r).admission)
    ensures FlowInv(FlowOf(HandleAdmitted(c, r, AdmitRequest(c, r)).core))
  {
    hide *;
    match AdmitRequest(c, r).admission
    case ExecuteRequest(q) => ExecuteKeeps(c, r);
    case Collect(q) =>
      if Pushed(c, q).Ok? {
        CollectOkKeeps(c, r);
      } else {
        CollectErrKeeps(c, r);
      }
    case Bypass(_) => BypassKeeps(c, r);
    case Stop(_) => StopKeeps(c, r);
    case Immediate(_) => BeginKeeps(c, r);
    case _ => Refused(c, r);
  }

  lemma Refused(c: Core, r: OwnedRequest)
    requires FlowInv(FlowOf(c)) && WellFormed(r) && HasToken(AdmitRequest(c, r).admission)
    requires var a := AdmitRequest(c, r).admission; !a.ExecuteRequest? && !a.Collect? && !a.Bypass? && !a.Stop? && !a.Immediate?
    ensures FlowInv(FlowOf(HandleAdmitted(c, r, AdmitRequest(c, r)).core))
  {
    RefusalKeeps(c, r);
    hide *;
  }

  /** Every step of either task keeps the pipeline invariant. */
  lemma StepKeeps(c: Core, step: CoreStep)
    requires FlowInv(FlowOf(c)) && Enabled(c, step)
    ensures FlowInv(FlowOf(Step(c, step).core))
  {
    hide FlowInv, FlowOf, HandleAdmitted, HandleSafetyEvent, HandleResult, AdmitRequest, JobOutcome, ResetInputs, SawExactly, WellFormed;
    match step
    case TakeRequest(r) => TakeRequestKeeps(c, r);
    case TakeResult => TakeResultKeeps(c, step);
    case TakeSafetyEvent => SafetyEventKeeps(c);
    case FinishCommand(_, _) => FinishCommandKeeps(c, step);
    case FinishEmergency(_) => FinishEmergencyKeeps(c, step);
    case _ => Handovers(c, step);
  }

  lemma InitialFlow()
    ensures FlowInv(FlowOf(INITIAL_CORE))
  {
    InitialInv();
  }

  lemma {:induction false} RunsKeep(c: Core, steps: seq<CoreStep>, end: Core)
    requires FlowInv(FlowOf(c)) && RunsTo(c, steps, end)
    ensures FlowInv(FlowOf(end))
    decreases |steps|
  {
    hide FlowInv, FlowOf, Enabled, Step;
    if steps != [] {
      StepKeeps(c, steps[0]);
      RunsKeep(Step(c, steps[0]).core, steps[1..], end);
    }
  }

  /** The pipeline invariant holds in every reachable state of dispatcher and executor. */
  lemma ReachableFlow(c: Core)
    requires Reachable(c)
    ensures FlowInv(FlowOf(c))
  {
    InitialFlow();
    hide FlowInv, FlowOf, RunsTo;
    var steps :| RunsTo(INITIAL_CORE, steps, c);
    RunsKeep(INITIAL_CORE, steps, c);
  }

  // ---- Putting runs together ----

  lemma {:induction false} RunsJoin(c: Core, p: seq<CoreStep>, mid: Core, q: seq<CoreStep>, end: Core)
    requires RunsTo(c, p, mid) && RunsTo(mid, q, end)
    ensures RunsTo(c, p + q, end)
    decreases |p|
  {
    hide Enabled, Step;
    if p == [] {
      assert p + q == q;
    } else {
      assert (p + q)[1..] == p[1..] + q;
      RunsJoin(Step(c, p[0]).core, p[1..], mid, q, end);
    }
  }

  lemma OneStep(c: Core, step: CoreStep)
    requires Enabled(c, step)
    ensures RunsTo(c, [step], Step(c, step).core)
  {
    hide Enabled, Step;
    assert RunsTo(Step(c, step).core, [step][1..], Step(c, step).core);
  }

  lemma RunsExtend(c: Core, steps: seq<CoreStep>, mid: Core, step: CoreStep)
    requires RunsTo(c, steps, mid) && Enabled(mid, step)
    ensures RunsTo(c, steps + [step], Step(mid, step).core)
  {
    OneStep(mid, step);
    hide RunsTo, Enabled, Step;
    RunsJoin(c, steps, mid, [step], Step(mid, step).core);
  }
}
