/**
 Sessions around the dispatcher: the receiver's stamps, the reset paths, the safety
 event queue and the response queue (src/runtime.rs, src/static_resources.rs).
 */
module Session {
  import opened Types
  import opened Protocol
  import opened Commands
  import opened ExecutionCore
  import opened Batch
  import opened Coordinator
  import opened CoordinatorHistory
  import opened Cancellation
  import opened Runtime
  import opened Pipeline
  import opened Dispatcher
  import opened Guarantees

  const REQUESTS_CAPACITY := 8
  const RESPONSES_CAPACITY := 8
  const SAFETY_EVENTS_CAPACITY := 4

  /** What the receiver captured before reading a packet; bumps is how many resets there had been. */
  datatype Capture = Capture(session: U32, bumps: nat)

  datatype Incoming = Incoming(request: OwnedRequest, captured: nat)

  /** since is how many resets there had been when the session of the stamp began. */
  datatype Outgoing = Outgoing(response: CachedResponse, stamp: U32, since: nat)

  /**
   session and applied are the two atomics. bumps and appliedBumps count what they have been through and
   answers remembers the stamp each admission identifier was admitted under; nothing reads those.
   senders counts tasks waiting to send a safety event.
   */
  datatype Net = Net(
    session: U32,
    applied: U32,
    bumps: nat,
    appliedBumps: nat,
    events: nat,
    senders: nat,
    rx: Option<Capture>,
    requests: seq<Incoming>,
    responses: seq<Outgoing>,
    answers: map<nat, U32>)

  datatype System = System(core: Core, net: Net)

  const INITIAL_NET := Net(1, 1, 0, 0, 0, 0, None, [], [], map[])

  const INITIAL_SYSTEM := System(INITIAL_CORE, INITIAL_NET)

  /** try_send: a full queue drops the response. */
  function Queued(responses: seq<Outgoing>, response: CachedResponse, stamp: U32, since: nat): seq<Outgoing> {
    if |responses| < RESPONSES_CAPACITY then responses + [Outgoing(response, stamp, since)] else responses
  }

  function QueueAll(responses: seq<Outgoing>, more: seq<CachedResponse>, stamp: U32, since: nat): seq<Outgoing>
    decreases |more|
  {
    if more == [] then responses else QueueAll(Queued(responses, more[0], stamp, since), more[1..], stamp, since)
  }

  datatype SystemStep =
    | CaptureSession
    | Arrive(frame: Frame)
    | ReceiverNack(response: CachedResponse)
    | ReceiveRequest
    | ReceiveResult
    | ReceiveEvent
    | Internal(step: CoreStep)
    | ResetThenSend
    | UsbDisabled
    | SendWithoutReset
    | DeliverEvent
    | TakeResponse

  predicate IsInternal(step: CoreStep) {
    !step.TakeRequest? && !step.TakeResult? && !step.TakeSafetyEvent?
  }

  ghost predicate SystemEnabled(s: System, step: SystemStep) {
    match step
    case CaptureSession => s.net.applied == s.net.session
    case Arrive(frame) => s.net.rx.Some? && FromFrame(frame).Ok? && |s.net.requests| < REQUESTS_CAPACITY
    case ReceiverNack(response) => s.net.rx.Some? && response.commandType == Nack
    case ReceiveRequest =>
      && s.core.pc == AtSelect && s.net.requests != []
      && (s.net.requests[0].request.stamp == s.net.session ==> Enabled(s.core, TakeRequest(s.net.requests[0].request)))
    case ReceiveResult => Enabled(s.core, TakeResult)
    case ReceiveEvent => Enabled(s.core, TakeSafetyEvent) && s.net.events > 0
    case Internal(step) => IsInternal(step) && Enabled(s.core, step)
    case ResetThenSend => true
    case UsbDisabled => true
    case SendWithoutReset => true
    case DeliverEvent => s.net.senders > 0 && s.net.events < SAFETY_EVENTS_CAPACITY
    case TakeResponse => s.net.responses != []
  }

  function Bump(net: Net): Net {
    net.(session := NextGeneration(net.session), bumps := net.bumps + 1)
  }

  predicate Admits(s: System) {
    s.net.requests != [] && s.net.requests[0].request.stamp == s.net.session
  }

  function AfterRequest(s: System): System
    requires s.net.requests != []
    requires Admits(s) ==> HasToken(AdmitRequest(s.core, s.net.requests[0].request).admission)
  {
    var net := s.net.(requests := s.net.requests[1..]);
    if !Admits(s) then s.(net := net)
    else
      var request := s.net.requests[0].request;
      var handled := HandleAdmitted(s.core, request, AdmitRequest(s.core, request));
      System(handled.core, net.(responses := QueueAll(net.responses, handled.responses, net.applied, net.appliedBumps),
                                answers := net.answers[s.core.coord.nextId := request.stamp]))
  }

  function SystemNext(s: System, step: SystemStep): System
    requires SystemEnabled(s, step)
  {
    var net := s.net;
    match step
    case CaptureSession => s.(net := net.(rx := Some(Capture(net.session, net.bumps))))
    case Arrive(frame) =>
      var request := FromFrame(frame).value.(stamp := net.rx.value.session);
      s.(net := net.(requests := net.requests + [Incoming(request, net.rx.value.bumps)]))
    case ReceiverNack(response) => s.(net := net.(responses := Queued(net.responses, response, net.rx.value.session, net.rx.value.bumps)))
    case ReceiveRequest => AfterRequest(s)
    case ReceiveResult =>
      var handled := Step(s.core, TakeResult);
      System(handled.core, net.(responses := QueueAll(net.responses, handled.responses, net.applied, net.appliedBumps)))
    case ReceiveEvent =>
      System(Step(s.core, TakeSafetyEvent).core,
             net.(events := net.events - 1, requests := [], responses := [], applied := net.session, appliedBumps := net.bumps))
    case Internal(step) => s.(core := Step(s.core, step).core)
    case ResetThenSend => s.(net := Bump(net).(senders := net.senders + 1))
    case UsbDisabled => s.(net := Bump(net).(events := if net.events < SAFETY_EVENTS_CAPACITY then net.events + 1 else net.events))
    case SendWithoutReset => s.(net := net.(senders := net.senders + 1))
    case DeliverEvent => s.(net := net.(events := net.events + 1, senders := net.senders - 1))
    case TakeResponse => s.(net := net.(responses := net.responses[1..]))
  }

  /** The response task starts writing the front response only under its own session. */
  predicate Writes(s: System) {
    s.net.responses != [] && s.net.responses[0].stamp == s.net.session
  }

  ghost predicate SystemRun(s: System, steps: seq<SystemStep>, end: System)
    decreases |steps|
  {
    if steps == [] then end == s
    else SystemEnabled(s, steps[0]) && SystemRun(SystemNext(s, steps[0]), steps[1..], end)
  }

  ghost predicate SystemReachable(s: System) {
    exists steps :: SystemRun(INITIAL_SYSTEM, steps, s)
  }

  // ---- Invariant ----

  /** The atomics are generations of their counts, and they differ only while a safety event is on its way. */
  predicate CountersOk(n: Net) {
    && n.session == Generation(n.bumps) && n.applied == Generation(n.appliedBumps) && n.appliedBumps <= n.bumps
    && (n.appliedBumps == n.bumps || n.events > 0 || n.senders > 0)
  }

  predicate CaptureOk(n: Net, stamp: U32, captured: nat) {
    captured <= n.bumps && stamp == Generation(captured) && (captured == n.bumps ==> n.applied == n.session)
  }

  predicate StampOk(o: Outgoing, bumps: nat) {
    o.stamp == Generation(o.since) && o.since <= bumps
  }

  /** Every queued response bears the generation of the session it was queued for. */
  predicate StampsOk(responses: seq<Outgoing>, bumps: nat) {
    forall i :: 0 <= i < |responses| ==> StampOk(responses[i], bumps)
  }

  ghost predicate CapturesOk(n: Net) {
    && StampsOk(n.responses, n.bumps)
    && (n.rx.Some? ==> CaptureOk(n, n.rx.value.session, n.rx.value.bumps))
    && forall i :: 0 <= i < |n.requests| ==>
         WellFormed(n.requests[i].request) && CaptureOk(n, n.requests[i].request.stamp, n.requests[i].captured)
  }

  /** Every live entry was admitted under the stamp its answer will carry. */
  ghost predicate Tracked(s: System, t: CompletionToken) {
    t.admissionId in s.net.answers && s.net.answers[t.admissionId] == s.net.applied
  }

  ghost predicate Tracks(s: System) {
    forall t :: IsActive(s.core.coord.cache, t) ==> Tracked(s, t)
  }

  ghost predicate SystemInv(s: System) {
    && FlowInv(FlowOf(s.core)) && CountersOk(s.net) && CapturesOk(s.net)
    && (s.net.bumps < GENERATIONS ==> Tracks(s))
  }

  lemma NothingTracked(s: System)
    requires s.core.coord.cache == []
    ensures Tracks(s)
  {
  }

  lemma {:induction false} QueueAllStamps(responses: seq<Outgoing>, more: seq<CachedResponse>, stamp: U32, since: nat, bumps: nat)
    requires StampsOk(responses, bumps) && stamp == Generation(since) && since <= bumps
    ensures StampsOk(QueueAll(responses, more, stamp, since), bumps)
    decreases |more|
  {
    if more != [] {
      var next := Queued(responses, more[0], stamp, since);
      assert StampsOk(next, bumps);
      hide StampsOk, Generation, Queued;
      QueueAllStamps(next, more[1..], stamp, since, bumps);
    }
  }

  lemma InitialNet()
    ensures CountersOk(INITIAL_NET) && CapturesOk(INITIAL_NET)
  {
    GenerationAdvances(0);
    hide Generation;
  }

  lemma InitialSystem()
    ensures SystemInv(INITIAL_SYSTEM)
  {
    hide FlowInv, FlowOf, CountersOk, CapturesOk, Tracks;
    InitialFlow();
    InitialNet();
    NothingTracked(INITIAL_SYSTEM);
  }

  // ---- The environment ----

  predicate EnvStep(step: SystemStep) {
    !step.ReceiveRequest? && !step.ReceiveResult? && !step.ReceiveEvent? && !step.Internal?
  }

  lemma EnvCounters(s: System, step: SystemStep)
    requires SystemEnabled(s, step) && EnvStep(step) && CountersOk(s.net)
    ensures CountersOk(SystemNext(s, step).net)
    ensures SystemNext(s, step).core == s.core && SystemNext(s, step).net.answers == s.net.answers
    ensures SystemNext(s, step).net.applied == s.net.applied && s.net.bumps <= SystemNext(s, step).net.bumps
  {
    GenerationAdvances(s.net.bumps);
    hide Generation, NextGeneration, FromFrame;
  }

  lemma EnvCaptures(s: System, step: SystemStep)
    requires SystemEnabled(s, step) && EnvStep(step) && CountersOk(s.net) && CapturesOk(s.net)
    ensures CapturesOk(SystemNext(s, step).net)
  {
    if step.Arrive? {
      FromFrameWellFormed(step.frame);
      StampKeepsForm(FromFrame(step.frame).value, s.net.rx.value.session);
    }
    hide Generation, NextGeneration, FromFrame, WellFormed;
  }

  lemma StampKeepsForm(r: OwnedRequest, stamp: U32)
    requires WellFormed(r)
    ensures WellFormed(r.(stamp := stamp))
  {
  }

  lemma EnvKeeps(s: System, step: SystemStep)
    requires SystemInv(s) && SystemEnabled(s, step) && EnvStep(step)
    ensures SystemInv(SystemNext(s, step))
  {
    EnvCounters(s, step);
    EnvCaptures(s, step);
    hide FlowInv, CountersOk, CapturesOk, SystemNext, IsActive;
  }

  // ---- The dispatcher ----

  lemma CompletingShrinks(s: CoordState, token: CompletionToken, response: CachedResponse, t: CompletionToken)
    requires IsActive(CompleteOr(s, token, response).cache, t)
    ensures IsActive(s.cache, t)
  {
    var next := CompleteOr(s, token, response);
    var i :| IsActiveAt(next.cache, i, t);
    assert IsActiveAt(s.cache, i, t);
  }

  lemma AdmissionGrows(c: Core, r: OwnedRequest, t: CompletionToken)
    requires Inv(c.coord) && WellFormed(r)
    ensures IsActive(AdmitRequest(c, r).state.cache, t) ==> IsActive(c.coord.cache, t) || t == NewToken(c.coord, r)
  {
    AdmitFacts(c, r);
    hide Admit, Inv, NewToken, IsActive;
  }

  /** Handling a request makes at most its own new token live. */
  lemma HandlingGrows(c: Core, r: OwnedRequest, t: CompletionToken)
    requires Inv(c.coord) && WellFormed(r) && HasToken(AdmitRequest(c, r).admission)
    requires IsActive(HandleAdmitted(c, r, AdmitRequest(c, r)).core.coord.cache, t)
    ensures IsActive(c.coord.cache, t) || t.admissionId == c.coord.nextId
  {
    var a := AdmitRequest(c, r);
    AdmissionGrows(c, r, t);
    assert IsActive(a.state.cache, t) by {
      hide Admit, Inv, WellFormed, IsActive, Push, BypassResponse, CompleteOr;
      match a.admission
      case Bypass(q) => CompletingShrinks(a.state, q.token.value, BypassResponse(q, q.token.value), t);
      case Collect(q) => CollectingShrinks(c, a.state, q, t);
      case ExecuteRequest(q) => ExecutingShrinks(c, a.state, q, t);
      case _ =>
    }
  }

  lemma CollectingShrinks(c: Core, coord: CoordState, q: OwnedRequest, t: CompletionToken)
    requires q.token.Some? && IsActive(HandleCollect(c, coord, q).core.coord.cache, t)
    ensures IsActive(coord.cache, t)
  {
    hide IsActive, CompleteOr, Push;
    var token := q.token.value;
    match Pushed(c, q)
    case Ok(_) => CompletingShrinks(coord, token, TokenAck(token), t);
    case Err(error) => CompletingShrinks(AbortBatch(coord), token, TokenNack(token, BatchErrorCode(error)), t);
  }

  lemma ExecutingShrinks(c: Core, coord: CoordState, q: OwnedRequest, t: CompletionToken)
    requires q.token.Some? && IsActive(HandleExecute(c, coord, q).core.coord.cache, t)
    ensures IsActive(coord.cache, t)
  {
    hide IsActive, CompleteOr;
    if q.commandType == CommandType.BatchEnd && c.batch.None? {
      CompletingShrinks(coord, q.token.value, TokenNack(q.token.value, ErrorCode.BatchState), t);
    }
  }

  /** A stamp that is current was captured in this very session, and then no reset is outstanding unless the count wrapped. */
  lemma StampIsCurrent(n: Net, i: nat)
    requires CountersOk(n) && CapturesOk(n) && i < |n.requests| && n.requests[i].request.stamp == n.session
    requires n.bumps < n.requests[i].captured + GENERATIONS
    ensures n.applied == n.session
    ensures n.bumps < n.appliedBumps + GENERATIONS ==> n.appliedBumps == n.bumps
  {
    GenerationsDistinct(n.requests[i].captured, n.bumps);
    if n.bumps < n.appliedBumps + GENERATIONS {
      GenerationsDistinct(n.appliedBumps, n.bumps);
    }
    hide Generation, WellFormed;
  }

  lemma ActiveIdsBelow(s: CoordState, t: CompletionToken)
    requires Inv(s) && IsActive(s.cache, t)
    ensures t.admissionId < s.nextId
  {
    var i :| IsActiveAt(s.cache, i, t);
    assert EntryOk(s.cache[i], s.session, s.nextId);
  }

  lemma RequestTracks(s: System)
    requires FlowInv(FlowOf(s.core)) && CountersOk(s.net) && CapturesOk(s.net) && Tracks(s) && s.net.bumps < GENERATIONS
    requires Admits(s) && HasToken(AdmitRequest(s.core, s.net.requests[0].request).admission)
    ensures Tracks(AfterRequest(s))
  {
    var request := s.net.requests[0].request;
    var next := AfterRequest(s);
    assert WellFormed(request);
    hide FlowInv, Inv, WellFormed, HandleAdmitted, AdmitRequest, IsActive, QueueAll, CountersOk, CapturesOk;
    StampIsCurrent(s.net, 0);
    RevealInv(FlowOf(s.core));
    forall t | IsActive(next.core.coord.cache, t)
      ensures Tracked(next, t)
    {
      HandlingGrows(s.core, request, t);
      if IsActive(s.core.coord.cache, t) {
        ActiveIdsBelow(s.core.coord, t);
      }
    }
  }

  ghost predicate Receivable(s: System) {
    && s.core.pc == AtSelect && s.net.requests != []
    && (Admits(s) ==> HasToken(AdmitRequest(s.core, s.net.requests[0].request).admission))
  }

  lemma RequestNet(s: System)
    requires CountersOk(s.net) && CapturesOk(s.net) && Receivable(s)
    ensures CountersOk(AfterRequest(s).net) && CapturesOk(AfterRequest(s).net) && AfterRequest(s).net.bumps == s.net.bumps
  {
    if Admits(s) {
      var handled := HandleAdmitted(s.core, s.net.requests[0].request, AdmitRequest(s.core, s.net.requests[0].request));
      QueueAllStamps(s.net.responses, handled.responses, s.net.applied, s.net.appliedBumps, s.net.bumps);
    }
    hide StampsOk, QueueAll, HandleAdmitted, AdmitRequest, Generation, WellFormed;
  }

  lemma RequestFlow(s: System)
    requires FlowInv(FlowOf(s.core)) && CapturesOk(s.net) && Receivable(s)
    ensures FlowInv(FlowOf(AfterRequest(s).core))
  {
    hide QueueAll, HandleAdmitted, AdmitRequest, FlowInv, FlowOf, WellFormed;
    if Admits(s) {
      TakeRequestKeeps(s.core, s.net.requests[0].request);
    }
  }

  lemma RequestKeeps(s: System)
    requires SystemInv(s) && Receivable(s)
    ensures SystemInv(AfterRequest(s))
  {
    hide FlowInv, FlowOf, CountersOk, CapturesOk;
    if s.net.bumps < GENERATIONS {
      if Admits(s) {
        RequestTracks(s);
      } else {
        SameTracks(s, AfterRequest(s));
      }
    }
    hide Tracks, AfterRequest;
    RequestNet(s);
    RequestFlow(s);
  }

  lemma SameTracks(s: System, next: System)
    requires Tracks(s) && next.core.coord == s.core.coord && next.net.answers == s.net.answers && next.net.applied == s.net.applied
    ensures Tracks(next)
  {
    assert forall t :: IsActive(s.core.coord.cache, t) ==> Tracked(s, t) && Tracked(next, t);
  }

  // ---- Results and safety events ----

  lemma {:induction false} AckAllShrinks(s: CoordState, tokens: seq<CompletionToken>, t: CompletionToken)
    requires IsActive(AckAll(s, tokens).0.cache, t)
    ensures IsActive(s.cache, t)
    decreases |tokens|
  {
    hide IsActive, Complete;
    if tokens != [] {
      AckAllShrinks(CompleteOr(s, tokens[0], TokenAck(tokens[0])), tokens[1..], t);
      CompletingShrinks(s, tokens[0], TokenAck(tokens[0]), t);
    }
  }

  lemma ResultShrinks(c: Core, result: JobResult, t: CompletionToken)
    requires IsActive(HandleResult(c, result).core.coord.cache, t)
    ensures IsActive(c.coord.cache, t)
  {
    hide IsActive, Complete, AckAll;
    match result
    case CommandDone(token, response, _) => CompletingShrinks(c.coord, token, response, t);
    case EmergencyDone(_) => AckAllShrinks(c.coord, c.stop.pending, t);
  }

  lemma ResultNet(s: System)
    requires SystemEnabled(s, ReceiveResult) && CountersOk(s.net) && CapturesOk(s.net)
    ensures CountersOk(SystemNext(s, ReceiveResult).net) && CapturesOk(SystemNext(s, ReceiveResult).net)
  {
    QueueAllStamps(s.net.responses, Step(s.core, TakeResult).responses, s.net.applied, s.net.appliedBumps, s.net.bumps);
    hide StampsOk, QueueAll, HandleResult, Generation, WellFormed;
  }

  lemma ResultKeeps(s: System)
    requires SystemInv(s) && SystemEnabled(s, ReceiveResult)
    ensures SystemInv(SystemNext(s, ReceiveResult))
  {
    var next := SystemNext(s, ReceiveResult);
    hide FlowInv, FlowOf, QueueAll, HandleResult, IsActive, CountersOk, CapturesOk;
    TakeResultKeeps(s.core, TakeResult);
    ResultNet(s);
    forall t | IsActive(next.core.coord.cache, t)
      ensures IsActive(s.core.coord.cache, t)
    {
      ResultShrinks(s.core.(results := s.core.results[1..]), s.core.results[0], t);
    }
  }

  lemma EventNet(s: System)
    requires SystemEnabled(s, ReceiveEvent) && CountersOk(s.net) && CapturesOk(s.net)
    ensures CountersOk(SystemNext(s, ReceiveEvent).net) && CapturesOk(SystemNext(s, ReceiveEvent).net)
    ensures SystemNext(s, ReceiveEvent).core == HandleSafetyEvent(s.core)
  {
    hide HandleSafetyEvent, Generation, WellFormed;
  }

  lemma EventKeeps(s: System)
    requires SystemInv(s) && SystemEnabled(s, ReceiveEvent)
    ensures SystemInv(SystemNext(s, ReceiveEvent))
  {
    hide FlowInv, FlowOf, CountersOk, CapturesOk, Tracks;
    SafetyEventKeeps(s.core);
    EventNet(s);
    var next := SystemNext(s, ReceiveEvent);
    hide SystemNext;
    assert next.core.coord.cache == [];
    NothingTracked(next);
  }

  lemma InternalKeepsCoordinator(c: Core, step: CoreStep)
    requires IsInternal(step) && Enabled(c, step)
    ensures Step(c, step).core.coord == c.coord
  {
    hide JobOutcome, ResetInputs, SawExactly;
  }

  lemma InternalKeeps(s: System, step: SystemStep)
    requires SystemInv(s) && SystemEnabled(s, step) && step.Internal?
    ensures SystemInv(SystemNext(s, step))
  {
    StepKeeps(s.core, step.step);
    InternalKeepsCoordinator(s.core, step.step);
    hide FlowInv, FlowOf, Step, Enabled, CountersOk, CapturesOk, Tracks;
    if s.net.bumps < GENERATIONS {
      SameTracks(s, SystemNext(s, step));
    }
  }

  lemma SystemStepKeeps(s: System, step: SystemStep)
    requires SystemInv(s) && SystemEnabled(s, step)
    ensures SystemInv(SystemNext(s, step))
  {
    hide SystemInv, SystemEnabled, SystemNext;
    if EnvStep(step) {
      EnvKeeps(s, step);
    } else {
      match step
      case ReceiveRequest => AfterReceiving(s);
      case ReceiveResult => ResultKeeps(s);
      case ReceiveEvent => EventKeeps(s);
      case Internal(_) => InternalKeeps(s, step);
    }
  }

  lemma AfterReceiving(s: System)
    requires SystemInv(s) && SystemEnabled(s, ReceiveRequest)
    ensures SystemInv(SystemNext(s, ReceiveRequest))
  {
    hide SystemInv, AfterRequest;
    RequestKeeps(s);
  }

  lemma {:induction false} SystemRunsKeep(s: System, steps: seq<SystemStep>, end: System)
    requires SystemInv(s) && SystemRun(s, steps, end)
    ensures SystemInv(end)
    decreases |steps|
  {
    hide SystemInv, SystemEnabled, SystemNext;
    if steps != [] {
      SystemStepKeeps(s, steps[0]);
      SystemRunsKeep(SystemNext(s, steps[0]), steps[1..], end);
    }
  }

  lemma ReachableSystem(s: System)
    requires SystemReachable(s)
    ensures SystemInv(s)
  {
    hide SystemInv, SystemRun;
    InitialSystem();
    var steps :| SystemRun(INITIAL_SYSTEM, steps, s);
    SystemRunsKeep(INITIAL_SYSTEM, steps, s);
  }

  // ---- What it means ----

  lemma StepReaches(c: Core, step: CoreStep)
    requires Reachable(c) && Enabled(c, step)
    ensures Reachable(Step(c, step).core)
  {
    hide Enabled, Step, RunsTo;
    var steps :| RunsTo(INITIAL_CORE, steps, c);
    RunsExtend(INITIAL_CORE, steps, c, step);
  }

  lemma SystemStepReaches(s: System, step: SystemStep)
    requires Reachable(s.core) && SystemEnabled(s, step)
    ensures Reachable(SystemNext(s, step).core)
  {
    hide Reachable, Enabled, QueueAll, HandleResult, HandleSafetyEvent, HandleAdmitted;
    match step
    case ReceiveRequest =>
      if Admits(s) {
        StepReaches(s.core, TakeRequest(s.net.requests[0].request));
      }
    case ReceiveResult => StepReaches(s.core, TakeResult);
    case ReceiveEvent => StepReaches(s.core, TakeSafetyEvent);
    case Internal(inner) => StepReaches(s.core, inner);
    case _ =>
  }

  lemma {:induction false} SystemRunsReach(s: System, steps: seq<SystemStep>, end: System)
    requires Reachable(s.core) && SystemRun(s, steps, end)
    ensures Reachable(end.core)
    decreases |steps|
  {
    hide Reachable, SystemEnabled, SystemNext;
    if steps != [] {
      SystemStepReaches(s, steps[0]);
      SystemRunsReach(SystemNext(s, steps[0]), steps[1..], end);
    }
  }

  /** Everything proved of the reachable states of dispatcher and executor holds inside the whole system. */
  lemma CoreOfSystem(s: System)
    requires SystemReachable(s)
    ensures Reachable(s.core)
  {
    hide SystemRun;
    assert RunsTo(INITIAL_CORE, [], INITIAL_CORE);
    var steps :| SystemRun(INITIAL_SYSTEM, steps, s);
    SystemRunsReach(INITIAL_SYSTEM, steps, s);
  }

  lemma SystemFacts(s: System)
    requires SystemReachable(s)
    ensures FlowInv(FlowOf(s.core)) && CountersOk(s.net) && CapturesOk(s.net)
    ensures s.net.bumps < GENERATIONS ==> Tracks(s)
  {
    ReachableSystem(s);
    hide SystemReachable, FlowInv, CapturesOk, CountersOk, Tracks;
  }

  /** The two session numbers differ only while a safety event is queued or being sent. */
  lemma ResetIsAlwaysFollowedUp(s: System)
    requires SystemReachable(s) && s.net.applied != s.net.session
    ensures s.net.events > 0 || s.net.senders > 0
  {
    hide SystemReachable, FlowInv, CapturesOk, Generation, Tracks;
    SystemFacts(s);
  }

  /**
   Session isolation: a request is admitted only under the session it was read in, with the coordinator
   cleared since that session began; and whatever is queued in reply carries its stamp.
   */
  lemma AdmittedUnderItsSession(s: System)
    requires SystemReachable(s) && SystemEnabled(s, ReceiveRequest) && Admits(s)
    requires s.net.bumps < s.net.requests[0].captured + GENERATIONS
    ensures var stamp := s.net.requests[0].request.stamp;
            && stamp == s.net.session == s.net.applied
            && (s.net.bumps < s.net.appliedBumps + GENERATIONS ==> s.net.appliedBumps == s.net.bumps)
            && SystemNext(s, ReceiveRequest).core == Step(s.core, TakeRequest(s.net.requests[0].request)).core
            && SystemNext(s, ReceiveRequest).net.responses
               == QueueAll(s.net.responses, Step(s.core, TakeRequest(s.net.requests[0].request)).responses, stamp, s.net.appliedBumps)
  {
    hide SystemReachable, FlowInv, FlowOf, Tracks, Generation, QueueAll, HandleAdmitted, AdmitRequest, CountersOk, CapturesOk, WellFormed;
    SystemFacts(s);
    StampIsCurrent(s.net, 0);
  }

  /** A request captured under another session is dropped unseen: the dispatcher, and what is queued, stay as they are. */
  lemma StaleRequestsDropped(s: System)
    requires s.net.requests != [] && s.core.pc == AtSelect && s.net.requests[0].request.stamp != s.net.session
    ensures SystemEnabled(s, ReceiveRequest)
    ensures SystemNext(s, ReceiveRequest) == s.(net := s.net.(requests := s.net.requests[1..]))
  {
  }

  /** A safety event leaves nothing queued from before, and applies the newest session to an empty coordinator. */
  lemma SafetyEventClears(s: System)
    requires SystemEnabled(s, ReceiveEvent)
    ensures var next := SystemNext(s, ReceiveEvent);
            && next.net.requests == [] && next.net.responses == [] && next.net.events == s.net.events - 1
            && next.net.applied == next.net.session == s.net.session && next.net.appliedBumps == next.net.bumps
            && next.core.coord.cache == [] && next.core.coord.session == s.core.coord.session + 1 && !Occupied(next.core.coord)
            && next.core.stop.inFlight && next.core.stop.pending == []
  {
    SafetyEventDrops(s.core);
    hide Emergency, ScheduleEmergency;
  }

  // ---- Room in the queues ----

  function Stamped(more: seq<CachedResponse>, stamp: U32, since: nat): seq<Outgoing> {
    seq(|more|, i requires 0 <= i < |more| => Outgoing(more[i], stamp, since))
  }

  /** Of several answers, as many as the eight places leave room for are queued, in order and stamped; the rest is dropped. */
  lemma {:induction false} AnswersQueued(responses: seq<Outgoing>, more: seq<CachedResponse>, stamp: U32, since: nat)
    requires |responses| <= 8
    ensures var kept := if |more| <= 8 - |responses| then |more| else 8 - |responses|;
            QueueAll(responses, more, stamp, since) == responses + Stamped(more[..kept], stamp, since)
    decreases |more|
  {
    if more == [] {
      assert responses + Stamped([], stamp, since) == responses;
    } else if |responses| == 8 {
      AnswersQueued(responses, more[1..], stamp, since);
      assert responses + Stamped([], stamp, since) == responses;
    } else {
      var next := responses + [Outgoing(more[0], stamp, since)];
      AnswersQueued(next, more[1..], stamp, since);
      var kept := if |more| <= 8 - |responses| then |more| else 8 - |responses|;
      assert more[1..][..kept - 1] == more[..kept][1..];
      assert Stamped(more[..kept], stamp, since) == [Outgoing(more[0], stamp, since)] + Stamped(more[..kept][1..], stamp, since);
    }
  }

  /** The response queue never holds more than eight. */
  lemma ResponsesBounded(s: System, step: SystemStep)
    requires |s.net.responses| <= 8 && SystemEnabled(s, step)
    ensures |SystemNext(s, step).net.responses| <= 8
  {
    hide HandleAdmitted, HandleResult, HandleSafetyEvent, AdmitRequest, FromFrame, SawExactly, JobOutcome, ResetInputs;
    match step
    case ReceiveRequest =>
      if Admits(s) {
        var request := s.net.requests[0].request;
        AnswersQueued(s.net.responses, HandleAdmitted(s.core, request, AdmitRequest(s.core, request)).responses, s.net.applied, s.net.appliedBumps);
      }
    case ReceiveResult =>
      AnswersQueued(s.net.responses, Step(s.core, TakeResult).responses, s.net.applied, s.net.appliedBumps);
    case _ =>
  }

  /** An accepted frame waits only for the eight places of the request queue, a safety event only for four. */
  lemma QueuesTakeMore(s: System, frame: Frame)
    ensures SystemEnabled(s, Arrive(frame)) <==> s.net.rx.Some? && FromFrame(frame).Ok? && |s.net.requests| < 8
    ensures SystemEnabled(s, DeliverEvent) <==> s.net.senders > 0 && s.net.events < 4
  {
    hide FromFrame;
  }

  /** Whatever waits at the dispatcher's select can be taken, and so can the response in front of the queue. */
  lemma QueuesAreServed(s: System)
    requires s.core.coord.session + 1 < U64_LIMIT
    ensures s.core.pc == AtSelect && s.core.results != [] ==> SystemEnabled(s, ReceiveResult)
    ensures s.core.pc == AtSelect && s.net.events > 0 ==> SystemEnabled(s, ReceiveEvent)
    ensures s.net.responses != [] ==> SystemEnabled(s, TakeResponse)
  {
  }

  /**
   No reset shuts the receiver out: once the dispatcher is at its select, delivering and taking a safety event
   is enough for the receiver to read under the newest session; if the sessions agree it can at once.
   */
  lemma ReceiverRecovers(s: System)
    requires SystemReachable(s) && s.core.pc == AtSelect && s.core.coord.session + 1 < U64_LIMIT
    ensures exists steps, end ::
              && SystemRun(s, steps, end) && |steps| <= 3 && (forall step <- steps :: step in {DeliverEvent, ReceiveEvent, CaptureSession})
              && (s.net.applied == s.net.session ==> steps == [CaptureSession])
              && end.net.session == s.net.session && end.net.bumps == s.net.bumps
              && end.net.rx == Some(Capture(s.net.session, s.net.bumps))
  {
    hide SystemReachable, FlowInv, CapturesOk, Generation, Tracks, HandleSafetyEvent;
    if s.net.applied == s.net.session {
      OneSystemStep(s, CaptureSession);
    } else {
      ResetIsAlwaysFollowedUp(s);
      if s.net.events > 0 {
        TwoSystemSteps(s, ReceiveEvent, CaptureSession);
      } else {
        var delivered := SystemNext(s, DeliverEvent);
        TwoSystemSteps(delivered, ReceiveEvent, CaptureSession);
        assert [DeliverEvent, ReceiveEvent, CaptureSession][1..] == [ReceiveEvent, CaptureSession];
        assert SystemRun(s, [DeliverEvent, ReceiveEvent, CaptureSession], SystemNext(SystemNext(delivered, ReceiveEvent), CaptureSession));
      }
    }
  }

  lemma OneSystemStep(s: System, step: SystemStep)
    requires SystemEnabled(s, step)
    ensures SystemRun(s, [step], SystemNext(s, step))
  {
    hide SystemEnabled, SystemNext;
  }

  lemma TwoSystemSteps(s: System, first: SystemStep, second: SystemStep)
    requires SystemEnabled(s, first) && SystemEnabled(SystemNext(s, first), second)
    ensures SystemRun(s, [first, second], SystemNext(SystemNext(s, first), second))
  {
    hide SystemEnabled, SystemNext;
    assert [first, second][1..] == [second];
    OneSystemStep(SystemNext(s, first), second);
  }

  /** A completion delivered later carries the stamp its request was admitted under. */
  lemma CompletionCarriesItsStamp(s: System, t: CompletionToken)
    requires SystemReachable(s) && SystemEnabled(s, ReceiveResult) && s.net.bumps < GENERATIONS
    requires IsActive(s.core.coord.cache, t)
    ensures t.admissionId in s.net.answers
    ensures SystemNext(s, ReceiveResult).net.responses
         == QueueAll(s.net.responses, Step(s.core, TakeResult).responses, s.net.answers[t.admissionId], s.net.appliedBumps)
  {
    hide SystemReachable, FlowInv, FlowOf, CapturesOk, CountersOk, QueueAll, HandleResult, IsActive;
    SystemFacts(s);
    assert Tracked(s, t);
  }

  /** A dispatcher waiting at its select is never stopped by the request in front of it. */
  lemma RequestsAreAlwaysTaken(s: System)
    requires SystemReachable(s) && s.core.pc == AtSelect && s.net.requests != []
    ensures SystemEnabled(s, ReceiveRequest)
  {
    hide SystemReachable, FlowInv, FlowOf, Reachable, WellFormed, CountersOk;
    CoreOfSystem(s);
    SystemFacts(s);
    assert WellFormed(s.net.requests[0].request);
    NoUnreachableBranch(s.core, s.net.requests[0].request);
  }

  /**
   The response task begins a write only for the session that is current: no reset has begun since the
   session the response belongs to did.
   */
  lemma WritesAreCurrent(s: System)
    requires SystemReachable(s) && Writes(s) && s.net.bumps < s.net.responses[0].since + GENERATIONS
    ensures s.net.responses[0].since == s.net.bumps
  {
    hide SystemReachable, FlowInv, FlowOf, CountersOk, Tracks, WellFormed;
    SystemFacts(s);
    assert StampOk(s.net.responses[0], s.net.bumps);
    CountersPart(s);
    GenerationsDistinct(s.net.responses[0].since, s.net.bumps);
    hide Generation;
  }

  /** What belongs to the current session is written. */
  lemma CurrentIsWritten(s: System)
    requires SystemReachable(s) && s.net.responses != [] && s.net.responses[0].since == s.net.bumps
    ensures Writes(s)
  {
    hide SystemReachable, FlowInv, FlowOf, Tracks, WellFormed;
    SystemFacts(s);
    assert StampOk(s.net.responses[0], s.net.bumps);
  }

  /**
   A reset, by DTR, lease or USB, strands everything read before it: no request already queued, and none that
   the receiver is still reading under its old capture, bears the new session, so none is admitted.
   */
  lemma ResetsStrand(s: System, step: SystemStep)
    requires SystemReachable(s) && (step == ResetThenSend || step == UsbDisabled)
    ensures var next := SystemNext(s, step);
            && next.net.bumps == s.net.bumps + 1 && next.net.session != s.net.session
            && (next.net.rx.Some? && next.net.bumps < next.net.rx.value.bumps + GENERATIONS ==> next.net.rx.value.session != next.net.session)
            && forall i :: 0 <= i < |next.net.requests| && next.net.bumps < next.net.requests[i].captured + GENERATIONS ==>
                 next.net.requests[i].request.stamp != next.net.session
  {
    hide SystemReachable, FlowInv, FlowOf, Tracks, WellFormed;
    SystemFacts(s);
    CountersPart(s);
    var n := s.net.bumps;
    GenerationAdvances(n);
    GenerationsDistinct(n, n + 1);
    if s.net.rx.Some? && n + 1 < s.net.rx.value.bumps + GENERATIONS {
      GenerationsDistinct(s.net.rx.value.bumps, n + 1);
    }
    forall i | 0 <= i < |s.net.requests| && n + 1 < s.net.requests[i].captured + GENERATIONS
      ensures s.net.requests[i].request.stamp != Generation(n + 1)
    {
      GenerationsDistinct(s.net.requests[i].captured, n + 1);
    }
    hide Generation, NextGeneration;
  }

  lemma CountersPart(s: System)
    requires CountersOk(s.net)
    ensures s.net.session == Generation(s.net.bumps)
  {
  }
}
