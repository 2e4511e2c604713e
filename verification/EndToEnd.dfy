/**
 The host client and the real device together, in one session: the retry loop at one
 end, dispatcher and executor at the other, a link that may lose frames in between.
 The device's every answer comes from a step of its transition system.
 */
module EndToEnd {
  import opened Types
  import opened Protocol
  import opened Commands
  import opened InputState
  import opened ExecutionCore
  import opened Batch
  import opened Coordinator
  import opened CoordinatorHistory
  import opened Cancellation
  import opened Runtime
  import opened Pipeline
  import opened Dispatcher
  import opened Ledger
  import opened Provenance
  import opened Client
  import opened Link

  /** sent lists the requests the client has begun, in order; ledger and sent record the run and steer nothing. */
  datatype Setup = Setup(link: State, core: Core, ledger: Ledger, sent: seq<OwnedRequest>)

  function FreshSetup(retries: Byte): Setup {
    Setup(Fresh(retries), INITIAL_CORE, BLANK, [])
  }

  /** What happens at the client or on the link, the receiver taking the next frame, or the device working on. */
  datatype SetupStep = Outside(outer: LinkStep) | Receive | Inside(inner: CoreStep)

  predicate IsOutside(step: LinkStep) {
    !step.DeviceTakes? && !step.DeviceCompletes? && !step.DeviceAborts?
  }

  /** One session: no safety event. */
  predicate IsInside(step: CoreStep) {
    !step.TakeRequest? && !step.TakeSafetyEvent?
  }

  ghost predicate SetupEnabled(s: Setup, step: SetupStep) {
    match step
    case Outside(outer) => IsOutside(outer) && LinkEnabled(s.link, outer)
    case Receive => s.link.up != [] && Enabled(s.core, TakeRequest(s.link.up[0]))
    case Inside(inner) => IsInside(inner) && Enabled(s.core, inner)
  }

  /** Sequences answered with something other than a refusal or a BUSY. */
  function GoodSequences(responses: seq<CachedResponse>): set<U16> {
    set r | r in responses && Good(r.commandType) :: r.sequence
  }

  function Answered(link: State, responses: seq<CachedResponse>, device: CoordState): State {
    link.(down := link.down + responses, device := device, finished := link.finished + GoodSequences(responses))
  }

  function Received(link: State, r: OwnedRequest, handled: Handled): State
    requires link.up != []
  {
    var taken := link.(up := link.up[1..],
                       admitted := if handled.core.coord.nextId != link.device.nextId then link.admitted + [r.sequence] else link.admitted);
    Answered(taken, handled.responses, handled.core.coord)
  }

  function WithBegun(sent: seq<OwnedRequest>, step: LinkStep): seq<OwnedRequest> {
    match step
    case StartCommand(r, _) => sent + [r]
    case WriteFails(r, _) => sent + [r]
    case _ => sent
  }

  function SetupNext(s: Setup, step: SetupStep): Setup
    requires SetupEnabled(s, step)
  {
    match step
    case Outside(outer) => s.(link := LinkNext(s.link, outer), sent := WithBegun(s.sent, outer))
    case Receive =>
      var r := s.link.up[0];
      var handled := Step(s.core, TakeRequest(r));
      s.(link := Received(s.link, r, handled), core := handled.core, ledger := Record(s.ledger, s.core, TakeRequest(r)))
    case Inside(inner) =>
      var handled := Step(s.core, inner);
      s.(link := Answered(s.link, handled.responses, handled.core.coord), core := handled.core, ledger := Record(s.ledger, s.core, inner))
  }

  ghost predicate SetupRun(s: Setup, steps: seq<SetupStep>, end: Setup)
    decreases |steps|
  {
    if steps == [] then end == s
    else SetupEnabled(s, steps[0]) && SetupRun(SetupNext(s, steps[0]), steps[1..], end)
  }

  // ---- The device's steps, seen from the link ----

  lemma AnsweredNothing(link: State)
    ensures Answered(link, [], link.device) == link
  {
    assert GoodSequences([]) == {};
    assert link.finished + {} == link.finished && link.down + [] == link.down;
  }

  /** One completed entry and its answer. */
  lemma AnsweredOne(link: State, token: CompletionToken, response: CachedResponse)
    requires LinkInv(link) && FinalFor(token, response) && Complete(link.device, token, response).Ok?
    ensures LinkInv(Answered(link, [response], Complete(link.device, token, response).value))
  {
    var next := LinkNext(link, DeviceCompletes(token, response, true));
    CompletesKeeps(link, token, response, true);
    assert GoodSequences([response]) == if response.commandType == Nack then {} else {token.sequence} by {
      hide Complete, LinkInv;
      assert response in [response];
    }
    hide LinkInv, Complete, GoodSequences, FinalFor;
    assert link.finished + {} == link.finished;
  }

  lemma GoodAppend(p: seq<CachedResponse>, q: seq<CachedResponse>)
    ensures GoodSequences(p + q) == GoodSequences(p) + GoodSequences(q)
  {
  }

  lemma AnsweredTwice(link: State, p: seq<CachedResponse>, q: seq<CachedResponse>, middle: CoordState, device: CoordState)
    ensures Answered(Answered(link, p, middle), q, device) == Answered(link, p + q, device)
  {
    GoodAppend(p, q);
    hide GoodSequences;
    assert link.down + p + q == link.down + (p + q);
    assert link.finished + GoodSequences(p) + GoodSequences(q) == link.finished + (GoodSequences(p) + GoodSequences(q));
  }

  /** Acknowledging STOP_ALLs is completing them one by one. */
  lemma {:induction false} AcksKeepLink(link: State, tokens: seq<CompletionToken>)
    requires LinkInv(link) && forall t :: t in tokens ==> t.expected == ExpectAck
    ensures LinkInv(Answered(link, AckAll(link.device, tokens).1, AckAll(link.device, tokens).0))
    decreases |tokens|
  {
    hide LinkInv, Complete, Answered;
    if tokens == [] {
      AnsweredNothing(link);
    } else {
      var token, ack := tokens[0], TokenAck(tokens[0]);
      assert token in tokens && forall t :: t in tokens[1..] ==> t in tokens;
      AckIsFinalFor(token);
      var done := Complete(link.device, token, ack);
      if done.Ok? {
        AnsweredOne(link, token, ack);
        var next := Answered(link, [ack], done.value);
        assert next.device == done.value by {
          AnsweredDevice(link, [ack], done.value);
        }
        AcksKeepLink(next, tokens[1..]);
        var rest := AckAll(done.value, tokens[1..]);
        AnsweredTwice(link, [ack], rest.1, done.value, rest.0);
      } else {
        AcksKeepLink(link, tokens[1..]);
        assert [] + AckAll(link.device, tokens[1..]).1 == AckAll(link.device, tokens[1..]).1;
      }
    }
  }

  lemma AckIsFinalFor(token: CompletionToken)
    requires token.expected == ExpectAck
    ensures FinalFor(token, TokenAck(token))
  {
  }

  lemma AnsweredDevice(link: State, responses: seq<CachedResponse>, device: CoordState)
    ensures Answered(link, responses, device).device == device
  {
  }

  lemma ResultKeepsLink(s: Setup)
    requires LinkInv(s.link) && FlowInv(FlowOf(s.core)) && s.link.device == s.core.coord && Enabled(s.core, TakeResult)
    ensures var handled := Step(s.core, TakeResult);
            LinkInv(Answered(s.link, handled.responses, handled.core.coord))
  {
    var result := s.core.results[0];
    ResultFacts(s.core);
    hide LinkInv, FlowInv, FlowOf, Answered, Complete, AckAll, FinalFor;
    match result
    case CommandDone(token, response, _) =>
      if Complete(s.core.coord, token, response).Ok? {
        AnsweredOne(s.link, token, response);
      } else {
        AnsweredNothing(s.link);
      }
    case EmergencyDone(_) => AcksKeepLink(s.link, s.core.stop.pending);
  }

  lemma ResultFacts(c: Core)
    requires FlowInv(FlowOf(c)) && c.results != []
    ensures c.results[0].CommandDone? ==> FinalFor(c.results[0].token, c.results[0].response)
    ensures forall t :: t in c.stop.pending ==> t.expected == ExpectAck
  {
    var f := FlowOf(c);
    assert f.done[0] == c.results[0];
    assert f.stop == c.stop;
    if c.results[0].CommandDone? {
      assert ResultOk(f.done[0]);
    }
    assert ActiveInStep(f);
    hide Inv, Pipe, OwnerInFlight, BatchInStep, StateInStep, IsActive, CurrentOwner, JobOk;
  }

  // ---- Taking a request, seen from the link ----

  /** The answers are those the coordinator's decision alone gives. */
  ghost predicate Plain(c: Core, r: OwnedRequest)
    requires HasToken(AdmitRequest(c, r).admission)
  {
    var a := AdmitRequest(c, r);
    var handled := HandleAdmitted(c, r, a);
    handled.responses == Replies(r, a.admission) && handled.core.coord == a.state
  }

  lemma PlainDecisions(c: Core, r: OwnedRequest)
    requires HasToken(AdmitRequest(c, r).admission)
    requires var a := AdmitRequest(c, r).admission;
             ChangesNothing(a) || a.Stop? || a.Immediate? || (a.ExecuteRequest? && (a.request.commandType == CommandType.BatchEnd ==> c.batch.Some?))
    ensures Plain(c, r)
  {
    hide Admit;
  }

  lemma RepliesFinished(link: State, r: OwnedRequest, externalBusy: bool)
    requires LinkInv(link) && link.up != [] && link.up[0] == r
    ensures var taken, responses := Take(link, externalBusy), Replies(r, Admit(link.device, r, externalBusy).admission);
            LinkInv(taken) && forall x :: x in responses && Good(x.commandType) ==> x.sequence in taken.finished
  {
    hide Admit, Replies, LinkInv, DownOk, ClientOk;
    TakeKeeps(link, externalBusy);
    var taken, responses := Take(link, externalBusy), Replies(r, Admit(link.device, r, externalBusy).admission);
    assert taken.down == link.down + responses;
    ClientPart(taken);
    hide Take;
    forall x | x in responses && Good(x.commandType)
      ensures x.sequence in taken.finished
    {
      var i :| 0 <= i < |responses| && responses[i] == x;
      assert taken.down[|link.down| + i] == x;
      GoodIsFinished(taken, |link.down| + i);
    }
  }

  lemma GoodIsFinished(link: State, i: nat)
    requires DownOk(link) && i < |link.down| && Good(link.down[i].commandType)
    ensures link.down[i].sequence in link.finished
  {
  }

  lemma PlainFinishes(link: State, r: OwnedRequest, externalBusy: bool)
    requires LinkInv(link) && link.up != [] && link.up[0] == r
    requires var a := Admit(link.device, r, externalBusy).admission; a.Immediate? ==> a.response == AckResponse(r.version, r.sequence)
    ensures Take(link, externalBusy).finished == link.finished + GoodSequences(Replies(r, Admit(link.device, r, externalBusy).admission))
  {
    RepliesFinished(link, r, externalBusy);
    hide Admit, LinkInv;
    var a := Admit(link.device, r, externalBusy).admission;
    if a.Immediate? {
      assert AckResponse(r.version, r.sequence) in Replies(r, a);
    }
  }

  lemma PlainKeepsLink(link: State, c: Core, r: OwnedRequest)
    requires LinkInv(link) && link.up != [] && link.up[0] == r && link.device == c.coord
    requires HasToken(AdmitRequest(c, r).admission) && Plain(c, r)
    requires AdmitRequest(c, r).admission.Immediate? ==> AdmitRequest(c, r).admission.response == AckResponse(r.version, r.sequence)
    ensures Received(link, r, HandleAdmitted(c, r, AdmitRequest(c, r))) == Take(link, c.stop.inFlight)
    ensures LinkInv(Take(link, c.stop.inFlight))
  {
    hide Admit, LinkInv, HandleAdmitted, Replies, GoodSequences;
    TakeKeeps(link, c.stop.inFlight);
    PlainFinishes(link, r, c.stop.inFlight);
  }

  /** Taking the request and then answering it at once is receiving it. */
  lemma TakenThenAnswered(link: State, c: Core, r: OwnedRequest, response: CachedResponse)
    requires link.up != [] && link.up[0] == r && link.device == c.coord && HasToken(AdmitRequest(c, r).admission)
    requires var a := AdmitRequest(c, r).admission; a.Bypass? || a.Collect?
    requires HandleAdmitted(c, r, AdmitRequest(c, r)).responses == [response]
    ensures var handled := HandleAdmitted(c, r, AdmitRequest(c, r));
            Received(link, r, handled) == Answered(Take(link, c.stop.inFlight), [response], handled.core.coord)
    ensures Take(link, c.stop.inFlight).device == AdmitRequest(c, r).state
  {
    IdsAfterRequest(c, r);
    hide Admit, HandleAdmitted, GoodSequences;
    assert link.down + [] == link.down;
  }

  lemma BypassKeepsLink(link: State, c: Core, r: OwnedRequest)
    requires LinkInv(link) && link.up != [] && link.up[0] == r && link.device == c.coord
    requires FlowInv(FlowOf(c)) && WellFormed(r) && HasToken(AdmitRequest(c, r).admission) && AdmitRequest(c, r).admission.Bypass?
    ensures LinkInv(Received(link, r, HandleAdmitted(c, r, AdmitRequest(c, r))))
  {
    var a := AdmitRequest(c, r);
    var token := NewToken(c.coord, r);
    var response := BypassResponse(a.admission.request, token);
    RevealInv(FlowOf(c));
    AdmitFacts(c, r);
    BypassIsFinal(r, a.admission.request, token);
    hide Admit, Inv, Complete, BypassResponse, FinalFor, FlowInv, LinkInv, Answered, Received, Take, GainsActive, WellFormed;
    OwnersUnchanged(c.coord, a.state);
    PassingThrough(c.coord, a.state, token, response);
    TakeKeeps(link, c.stop.inFlight);
    TakenThenAnswered(link, c, r, response);
    AnsweredOne(Take(link, c.stop.inFlight), token, response);
  }

  lemma AbortKeepsLink(link: State)
    requires LinkInv(link)
    ensures LinkInv(link.(device := AbortBatch(link.device)))
  {
    AbortKeeps(link);
    hide LinkInv;
  }

  lemma CollectAnswer(c: Core, r: OwnedRequest)
    requires HasToken(AdmitRequest(c, r).admission) && AdmitRequest(c, r).admission.Collect?
    ensures var a := AdmitRequest(c, r);
            var q := a.admission.request;
            var handled := HandleAdmitted(c, r, a);
            if Pushed(c, q).Ok? then
              && handled.responses == [TokenAck(q.token.value)]
              && handled.core.coord == CompleteOr(a.state, q.token.value, TokenAck(q.token.value))
            else
              var response := TokenNack(q.token.value, BatchErrorCode(Pushed(c, q).error));
              && handled.responses == [response]
              && handled.core.coord == CompleteOr(AbortBatch(a.state), q.token.value, response)
  {
    hide Admit, CompleteOr, AbortBatch, Push;
  }

  /** Aborting the batch can come before or after the request leaves the queue. */
  lemma AnsweredAfterAbort(link: State, response: CachedResponse, device: CoordState)
    ensures Answered(link.(device := AbortBatch(link.device)), [response], device) == Answered(link, [response], device)
  {
  }

  lemma CollectKeepsLink(link: State, c: Core, r: OwnedRequest)
    requires LinkInv(link) && link.up != [] && link.up[0] == r && link.device == c.coord
    requires FlowInv(FlowOf(c)) && WellFormed(r) && HasToken(AdmitRequest(c, r).admission) && AdmitRequest(c, r).admission.Collect?
    ensures LinkInv(Received(link, r, HandleAdmitted(c, r, AdmitRequest(c, r))))
  {
    var a := AdmitRequest(c, r);
    var q := a.admission.request;
    var token := NewToken(c.coord, r);
    var ok := Pushed(c, q).Ok?;
    var response := if ok then TokenAck(token) else TokenNack(token, BatchErrorCode(Pushed(c, q).error));
    AdmitBodies(c.coord, r, c.stop.inFlight);
    AckIsFinal(r, q.body, c.coord, if ok then BatchCapacity else BatchErrorCode(Pushed(c, q).error));
    hide Admit, Complete, FinalFor, FlowInv, FlowOf, LinkInv, Answered, Received, Take, WellFormed, HandleAdmitted, AbortBatch, QuietChange, Decoded, Classify, Push, NewToken, ErrorByte, BatchErrorCode;
    CollectFacts(c, r, response, !ok);
    CollectCompletes(c, r, response, !ok);
    CollectAnswer(c, r);
    TakeKeeps(link, c.stop.inFlight);
    TakenThenAnswered(link, c, r, response);
    var taken := Take(link, c.stop.inFlight);
    if ok {
      AnsweredOne(taken, token, response);
    } else {
      AbortKeepsLink(taken);
      AnsweredOne(taken.(device := AbortBatch(taken.device)), token, response);
      AnsweredAfterAbort(taken, response, HandleAdmitted(c, r, a).core.coord);
    }
  }

  lemma CollectCompletes(c: Core, r: OwnedRequest, response: CachedResponse, abort: bool)
    requires FlowInv(FlowOf(c)) && WellFormed(r) && AdmitRequest(c, r).admission.Collect?
    requires FinalFor(NewToken(c.coord, r), response)
    ensures var a := AdmitRequest(c, r);
            Complete(if abort then AbortBatch(a.state) else a.state, NewToken(c.coord, r), response).Ok?
  {
    var a := AdmitRequest(c, r);
    var mid := if abort then AbortBatch(a.state) else a.state;
    RevealInv(FlowOf(c));
    AdmitFacts(c, r);
    assert IsActive(mid.cache, NewToken(c.coord, r));
    hide Admit, Inv, FlowInv, Complete, IsActive, NewToken, WellFormed;
    CompleteSucceeds(mid, NewToken(c.coord, r), response);
  }

  lemma ReceiveKeepsLink(link: State, c: Core, r: OwnedRequest)
    requires LinkInv(link) && link.up != [] && link.up[0] == r && link.device == c.coord
    requires FlowInv(FlowOf(c)) && WellFormed(r) && HasToken(AdmitRequest(c, r).admission)
    ensures LinkInv(Received(link, r, HandleAdmitted(c, r, AdmitRequest(c, r))))
  {
    hide FlowInv, FlowOf, Admit, WellFormed, HandleAdmitted, LinkInv, Received, Take, Inv;
    RevealInv(FlowOf(c));
    SameCoord(c);
    match AdmitRequest(c, r).admission
    case Bypass(_) => BypassKeepsLink(link, c, r);
    case Collect(_) => CollectKeepsLink(link, c, r);
    case ExecuteRequest(_) =>
      ExecuteFacts(c, r);
      PlainDecisions(c, r);
      PlainKeepsLink(link, c, r);
    case Immediate(_) =>
      ImmediateAnswer(c, r);
      PlainDecisions(c, r);
      PlainKeepsLink(link, c, r);
    case _ =>
      PlainDecisions(c, r);
      PlainKeepsLink(link, c, r);
  }

  lemma ImmediateAnswer(c: Core, r: OwnedRequest)
    requires Inv(c.coord) && WellFormed(r) && AdmitRequest(c, r).admission.Immediate?
    ensures AdmitRequest(c, r).admission.response == AckResponse(r.version, r.sequence)
  {
    AdmitFacts(c, r);
    hide Admit, Inv, SameActive;
  }

  // ---- Link and ledger agree ----

  /** A request answered positively was not turned away, and if it runs anything its one job ended without failure. */
  ghost predicate Honoured(l: Ledger, a: Acceptance) {
    && a.purpose != TurnedAway
    && (a.purpose == RunsAlone || a.purpose == RunsBatch ==> End(a.token, None) in l.ends)
  }

  ghost predicate SameRequests(link: State, l: Ledger) {
    && |l.accepted| == |link.admitted|
    && forall i :: 0 <= i < |l.accepted| ==> l.accepted[i].token.sequence == link.admitted[i]
  }

  ghost predicate FinishedHonoured(link: State, l: Ledger) {
    forall i :: 0 <= i < |l.accepted| && l.accepted[i].token.sequence in link.finished ==> Honoured(l, l.accepted[i])
  }

  ghost predicate Agrees(link: State, l: Ledger) {
    SameRequests(link, l) && FinishedHonoured(link, l)
  }

  ghost predicate Consistent(s: Setup) {
    && LinkInv(s.link) && s.link.device == s.core.coord
    && FlowInv(FlowOf(s.core)) && LedgerInv(s.core, s.ledger) && Agrees(s.link, s.ledger)
  }

  /** Sequences are accepted in increasing order, so one sequence has one acceptance. */
  lemma OneAcceptance(link: State, l: Ledger, a: Acceptance, i: nat)
    requires Increasing(link.admitted) && SameRequests(link, l) && i < |l.accepted| && a in l.accepted
    requires a.token.sequence == l.accepted[i].token.sequence
    ensures a == l.accepted[i]
  {
    var j :| 0 <= j < |l.accepted| && l.accepted[j] == a;
    assert link.admitted[j] == link.admitted[i];
  }

  lemma LinkFacts(link: State)
    requires LinkInv(link)
    ensures Increasing(link.admitted) && forall n :: n in link.finished ==> n in link.admitted
  {
    hide Inv, UpOk, DownOk, ClientOk, Increasing;
  }

  lemma HonouredStays(l: Ledger, after: Ledger, a: Acceptance)
    requires Honoured(l, a) && forall e :: e in l.ends ==> e in after.ends
    ensures Honoured(after, a)
  {
  }

  lemma OutsideKeeps(s: Setup, step: SetupStep)
    requires Consistent(s) && SetupEnabled(s, step) && step.Outside?
    ensures Consistent(SetupNext(s, step))
  {
    hide LinkInv, FlowInv, FlowOf, LedgerInv, LinkNext, LinkEnabled, Agrees, Enabled, Step, Record;
    LinkStepKeeps(s.link, step.outer);
    OutsideFrame(s.link, step.outer);
    SameAgrees(s.link, LinkNext(s.link, step.outer), s.ledger);
  }

  lemma SameAgrees(link: State, next: State, l: Ledger)
    requires Agrees(link, l) && next.admitted == link.admitted && next.finished == link.finished
    ensures Agrees(next, l)
  {
    hide Honoured;
  }

  lemma OutsideFrame(link: State, step: LinkStep)
    requires IsOutside(step) && LinkEnabled(link, step)
    ensures var next := LinkNext(link, step);
            next.device == link.device && next.admitted == link.admitted && next.finished == link.finished
  {
    hide Judge, WellFormed, NextSequence;
  }

  lemma QuietInside(c: Core, step: CoreStep)
    requires IsInside(step) && !step.TakeResult? && Enabled(c, step)
    ensures Step(c, step).core.coord == c.coord && Step(c, step).responses == []
  {
    hide JobOutcome, ResetInputs, SawExactly, ExecutionResponse, JobAnswer;
  }

  lemma InsideLedger(c: Core, step: CoreStep, l: Ledger)
    requires IsInside(step) && Enabled(c, step)
    ensures var after := Record(l, c, step);
            after.accepted == l.accepted && forall e :: e in l.ends ==> e in after.ends
  {
    hide JobOutcome, ResetInputs, SawExactly;
  }

  lemma GrownLedger(link: State, l: Ledger, after: Ledger)
    requires Agrees(link, l) && after.accepted == l.accepted && forall e :: e in l.ends ==> e in after.ends
    ensures Agrees(link, after)
  {
    hide Honoured;
    forall i | 0 <= i < |after.accepted| && after.accepted[i].token.sequence in link.finished
      ensures Honoured(after, after.accepted[i])
    {
      HonouredStays(l, after, l.accepted[i]);
    }
  }

  lemma QuietInsideKeeps(s: Setup, step: CoreStep)
    requires Consistent(s) && IsInside(step) && !step.TakeResult? && Enabled(s.core, step)
    ensures Consistent(SetupNext(s, Inside(step)))
  {
    hide LinkInv, FlowInv, FlowOf, LedgerInv, Record, Step, Answered, Agrees;
    StepKeeps(s.core, step);
    StepLedger(s.core, step, s.ledger);
    QuietInside(s.core, step);
    InsideLedger(s.core, step, s.ledger);
    AnsweredNothing(s.link);
    GrownLedger(s.link, s.ledger, Record(s.ledger, s.core, step));
  }

  // ---- Results ----

  /** A positive answer carries out of the pipeline only what the ledger says was done. */
  lemma ResultHonoured(s: Setup, n: U16, i: nat)
    requires Consistent(s) && Enabled(s.core, TakeResult) && n in GoodSequences(Step(s.core, TakeResult).responses)
    requires i < |s.ledger.accepted| && s.ledger.accepted[i].token.sequence == n
    ensures Honoured(s.ledger, s.ledger.accepted[i])
  {
    hide FlowInv, FlowOf, Complete, AckAll, ExecutionResponse;
    LinkFacts(s.link);
    hide LinkInv, Increasing;
    match s.core.results[0]
    case CommandDone(token, response, _) =>
      CommandHonoured(s.core, s.ledger, token, response);
      hide LedgerInv;
      assert n == response.sequence && Good(response.commandType);
      var purpose := if AcceptedFor(s.ledger, token, RunsBatch) then RunsBatch else RunsAlone;
      OneAcceptance(s.link, s.ledger, Acceptance(token, purpose), i);
    case EmergencyDone(_) =>
      var response :| response in AckAll(s.core.coord, s.core.stop.pending).1 && response.sequence == n;
      var t := AckedFrom(s.core.coord, s.core.stop.pending, response);
      PendingStops(s.core, s.ledger, t);
      hide LedgerInv;
      OneAcceptance(s.link, s.ledger, Acceptance(t, Stops), i);
  }

  lemma CommandHonoured(c: Core, l: Ledger, token: CompletionToken, response: CachedResponse)
    requires LedgerInv(c, l) && c.results != [] && c.results[0].CommandDone?
    requires c.results[0].token == token && c.results[0].response == response
    ensures response.sequence == token.sequence
    ensures Good(response.commandType) ==> End(token, None) in l.ends
    ensures AcceptedFor(l, token, RunsBatch) || AcceptedFor(l, token, RunsAlone)
  {
    LastEnd(c, l, c.results[0]);
    var start := l.starts[|l.ends| - 1];
    assert StartKind(l, start);
    hide LedgerInv;
  }

  lemma PendingStops(c: Core, l: Ledger, t: CompletionToken)
    requires LedgerInv(c, l) && t in c.stop.pending
    ensures AcceptedFor(l, t, Stops)
  {
    hide InOrder, NextUp, Contents, Paired, AllMembers, AcceptedFor;
  }

  lemma {:induction false} AckedFrom(s: CoordState, tokens: seq<CompletionToken>, response: CachedResponse) returns (t: CompletionToken)
    requires response in AckAll(s, tokens).1
    ensures t in tokens && response == TokenAck(t)
    decreases |tokens|
  {
    hide Complete;
    if response == TokenAck(tokens[0]) {
      t := tokens[0];
    } else {
      t := AckedFrom(CompleteOr(s, tokens[0], TokenAck(tokens[0])), tokens[1..], response);
    }
  }

  lemma ResultKeepsSetup(s: Setup)
    requires Consistent(s) && Enabled(s.core, TakeResult)
    ensures Consistent(SetupNext(s, Inside(TakeResult)))
  {
    hide FlowInv, FlowOf, LedgerInv, LinkInv, Record, Step, Honoured, GoodSequences;
    StepKeeps(s.core, TakeResult);
    StepLedger(s.core, TakeResult, s.ledger);
    ResultKeepsLink(s);
    RecordsNothing(s.ledger, s.core);
    var next := SetupNext(s, Inside(TakeResult));
    forall i: nat | i < |next.ledger.accepted| && next.ledger.accepted[i].token.sequence in next.link.finished
      ensures Honoured(next.ledger, next.ledger.accepted[i])
    {
      if next.ledger.accepted[i].token.sequence !in s.link.finished {
        ResultHonoured(s, next.ledger.accepted[i].token.sequence, i);
      }
    }
  }

  lemma RecordsNothing(l: Ledger, c: Core)
    requires Enabled(c, TakeResult)
    ensures Record(l, c, TakeResult) == l
  {
  }

  // ---- Requests ----

  /** What is recorded of a request taken: nothing, or one acceptance with its own sequence. */
  lemma RecordedRequest(c: Core, r: OwnedRequest, l: Ledger)
    requires FlowInv(FlowOf(c)) && c.pc == AtSelect && WellFormed(r) && HasToken(AdmitRequest(c, r).admission)
    ensures var after := RecordRequest(l, c, r);
            var next := HandleAdmitted(c, r, AdmitRequest(c, r)).core;
            && after.ends == l.ends
            && if ChangesNothing(AdmitRequest(c, r).admission) then after == l && next == c
               else
                 && next.coord.nextId == c.coord.nextId + 1
                 && |after.accepted| == |l.accepted| + 1 && after.accepted[..|l.accepted|] == l.accepted
                 && after.accepted[|l.accepted|].token.sequence == r.sequence
  {
    hide FlowInv, FlowOf, Admit, WellFormed, HandleAdmitted, Inv, Push;
    RevealInv(FlowOf(c));
    SameCoord(c);
    if ChangesNothing(AdmitRequest(c, r).admission) {
      RefusalKeeps(c, r);
    } else {
      AcceptedToken(c, r);
      IdsAfterRequest(c, r);
    }
  }

  /** Which sequences a request's answers are positive about, and what was then recorded. */
  lemma RequestAnswers(c: Core, r: OwnedRequest, l: Ledger)
    requires FlowInv(FlowOf(c)) && c.pc == AtSelect && WellFormed(r) && HasToken(AdmitRequest(c, r).admission)
    requires !ChangesNothing(AdmitRequest(c, r).admission)
    ensures var responses := HandleAdmitted(c, r, AdmitRequest(c, r)).responses;
            var a := RecordRequest(l, c, r).accepted[|RecordRequest(l, c, r).accepted| - 1];
            && |RecordRequest(l, c, r).accepted| > 0
            && (forall n :: n in GoodSequences(responses) ==> n == r.sequence)
            && (GoodSequences(responses) != {} ==> a.purpose == Answers || a.purpose == Opens || a.purpose == Joins)
  {
    hide FlowInv, FlowOf, Admit, WellFormed, Inv, CompleteOr, Push, BypassResponse, AbortBatch, HandleStop;
    RevealInv(FlowOf(c));
    SameCoord(c);
    AcceptedToken(c, r);
    match AdmitRequest(c, r).admission
    case Immediate(_) => ImmediateAnswer(c, r);
    case Bypass(q) => BypassSequence(q, q.token.value);
    case Collect(_) =>
    case ExecuteRequest(_) => ExecuteFacts(c, r);
    case Stop(_) =>
  }

  lemma BypassSequence(r: OwnedRequest, token: CompletionToken)
    ensures BypassResponse(r, token).sequence == token.sequence
  {
  }

  /** A sequence that was just added is nowhere before. */
  lemma AddedOnce(admitted: seq<U16>, n: U16)
    requires Increasing(admitted + [n])
    ensures n !in admitted
  {
    forall i | 0 <= i < |admitted|
      ensures admitted[i] != n
    {
      assert (admitted + [n])[i] < (admitted + [n])[|admitted|];
    }
  }

  /** A newly accepted request is answered positively at most as what it is, and nothing older changes. */
  lemma AcceptedAgrees(link: State, next: State, l: Ledger, after: Ledger, n: U16)
    requires Agrees(link, l) && Increasing(next.admitted) && next.admitted == link.admitted + [n]
    requires forall m :: m in link.finished ==> m in link.admitted
    requires forall m :: m in next.finished ==> m in link.finished || m == n
    requires |after.accepted| == |l.accepted| + 1 && after.accepted[..|l.accepted|] == l.accepted && after.ends == l.ends
    requires after.accepted[|l.accepted|].token.sequence == n
    requires n in next.finished && n !in link.finished ==> Honoured(after, after.accepted[|l.accepted|])
    ensures Agrees(next, after)
  {
    AddedOnce(link.admitted, n);
    hide Honoured, Increasing;
    forall i | 0 <= i < |after.accepted| && after.accepted[i].token.sequence in next.finished
      ensures Honoured(after, after.accepted[i])
    {
      if i < |l.accepted| {
        assert after.accepted[i] == after.accepted[..|l.accepted|][i] == l.accepted[i];
        assert link.admitted[i] in link.admitted;
        HonouredStays(l, after, l.accepted[i]);
      }
    }
  }

  lemma ReceivedShape(link: State, c: Core, r: OwnedRequest)
    requires link.up != [] && HasToken(AdmitRequest(c, r).admission)
    ensures var handled := HandleAdmitted(c, r, AdmitRequest(c, r));
            var next := Received(link, r, handled);
            && next.finished == link.finished + GoodSequences(handled.responses) && next.device == handled.core.coord
            && next.admitted == link.admitted + (if handled.core.coord.nextId != link.device.nextId then [r.sequence] else [])
  {
    hide HandleAdmitted, Admit, GoodSequences;
    assert link.admitted + [] == link.admitted;
  }

  lemma RefusedAgrees(link: State, c: Core, r: OwnedRequest, l: Ledger)
    requires LinkInv(link) && link.up != [] && link.up[0] == r && link.device == c.coord
    requires HasToken(AdmitRequest(c, r).admission) && ChangesNothing(AdmitRequest(c, r).admission) && Agrees(link, l)
    requires HandleAdmitted(c, r, AdmitRequest(c, r)).core == c
    ensures Agrees(Received(link, r, HandleAdmitted(c, r, AdmitRequest(c, r))), l)
  {
    PlainDecisions(c, r);
    PlainKeepsLink(link, c, r);
    ReceivedShape(link, c, r);
    hide LinkInv, Plain, HandleAdmitted, Admit, Honoured, Received, GoodSequences;
  }

  lemma ReceiveAgrees(link: State, c: Core, r: OwnedRequest, l: Ledger)
    requires LinkInv(link) && link.up != [] && link.up[0] == r && link.device == c.coord
    requires FlowInv(FlowOf(c)) && c.pc == AtSelect && WellFormed(r) && HasToken(AdmitRequest(c, r).admission)
    requires Agrees(link, l)
    ensures Agrees(Received(link, r, HandleAdmitted(c, r, AdmitRequest(c, r))), RecordRequest(l, c, r))
  {
    hide LinkInv, FlowInv, FlowOf, AdmitRequest, WellFormed, HandleAdmitted, Received, RecordRequest, GoodSequences, Agrees, HasToken;
    RecordedRequest(c, r, l);
    if ChangesNothing(AdmitRequest(c, r).admission) {
      RefusedAgrees(link, c, r, l);
    } else {
      ReceiveKeepsLink(link, c, r);
      ReceivedShape(link, c, r);
      LinkFacts(link);
      LinkFacts(Received(link, r, HandleAdmitted(c, r, AdmitRequest(c, r))));
      RequestAnswers(c, r, l);
      AcceptedAgrees(link, Received(link, r, HandleAdmitted(c, r, AdmitRequest(c, r))), l, RecordRequest(l, c, r), r.sequence);
    }
  }

  lemma ReceiveConsistent(s: Setup)
    requires Consistent(s) && SetupEnabled(s, Receive)
    ensures Consistent(SetupNext(s, Receive))
  {
    hide LinkInv, FlowInv, FlowOf, LedgerInv, HandleAdmitted, AdmitRequest, Received, Agrees, RecordRequest, WellFormed, HasToken;
    var r := s.link.up[0];
    StepKeeps(s.core, TakeRequest(r));
    StepLedger(s.core, TakeRequest(r), s.ledger);
    ReceiveKeepsLink(s.link, s.core, r);
    ReceiveAgrees(s.link, s.core, r, s.ledger);
    ReceivedDevice(s.link, r, HandleAdmitted(s.core, r, AdmitRequest(s.core, r)));
  }

  lemma ReceivedDevice(link: State, r: OwnedRequest, handled: Handled)
    requires link.up != []
    ensures Received(link, r, handled).device == handled.core.coord
  {
  }

  lemma StepConsistent(s: Setup, step: SetupStep)
    requires Consistent(s) && SetupEnabled(s, step)
    ensures Consistent(SetupNext(s, step))
  {
    hide Consistent, SetupNext, Enabled, LinkEnabled;
    match step
    case Outside(_) => OutsideKeeps(s, step);
    case Receive => ReceiveConsistent(s);
    case Inside(inner) =>
      if inner.TakeResult? {
        ResultKeepsSetup(s);
      } else {
        QuietInsideKeeps(s, inner);
      }
  }

  // ---- What was sent ----

  /** Every request under way, on the wire or in the retry loop, is the one begun under its sequence. */
  ghost predicate Delivers(link: State, sent: seq<OwnedRequest>) {
    && |sent| == link.started
    && (forall i :: 0 <= i < |link.up| && !IsBeat(link.up[i]) ==> Sent(sent, link.up[i].sequence) && sent[link.up[i].sequence - 1] == link.up[i])
    && (link.sending.Some? ==> sent != [] && sent[|sent| - 1] == link.sending.value.request && link.sending.value.request.sequence == |sent|)
  }

  ghost predicate Traced(s: Setup) {
    Delivers(s.link, s.sent) && Commissioned(s.sent, s.ledger) && Batched(s.core, s.ledger)
  }

  ghost predicate SetupInv(s: Setup) {
    Consistent(s) && Traced(s)
  }

  lemma BeginDelivers(link: State, sent: seq<OwnedRequest>, r: OwnedRequest, delivered: bool)
    requires Delivers(link, sent) && LinkInv(link) && Startable(link, r)
    ensures Delivers(Write(Link.Begin(link, r), r, delivered), sent + [r])
    ensures Delivers(Link.End(Write(Link.Begin(link, r), r, delivered), false), sent + [r])
  {
    Link.BeginKeeps(link, r);
    hide LinkInv, WellFormed, NextSequence;
  }

  lemma ReactDelivers(link: State, sent: seq<OwnedRequest>, reply: Reply)
    requires Delivers(link, sent) && link.sending.Some?
    ensures Delivers(React(link, reply), sent)
  {
    hide Judge;
  }

  lemma LostDelivers(link: State, sent: seq<OwnedRequest>, i: nat)
    requires Delivers(link, sent) && i < |link.up|
    ensures Delivers(link.(up := Without(link.up, i)), sent)
  {
    assert forall k :: 0 <= k < |link.up| - 1 ==> Without(link.up, i)[k] == link.up[if k < i then k else k + 1];
  }

  lemma OutsideDelivers(link: State, sent: seq<OwnedRequest>, step: LinkStep)
    requires Delivers(link, sent) && LinkInv(link) && IsOutside(step) && LinkEnabled(link, step)
    ensures Delivers(LinkNext(link, step), WithBegun(sent, step))
  {
    hide LinkInv, WellFormed, React, Complete, Startable;
    match step
    case StartCommand(r, delivered) => BeginDelivers(link, sent, r, delivered);
    case WriteFails(r, delivered) => BeginDelivers(link, sent, r, delivered);
    case TakeReply =>
      var rest := link.(down := link.down[1..]);
      if link.down[0].sequence == link.sending.value.request.sequence {
        ReactDelivers(rest, sent, Got(link.down[0].commandType, link.down[0].payload));
      }
    case NoReply => ReactDelivers(link, sent, TimedOut);
    case LoseFrame(i) => LostDelivers(link, sent, i);
    case _ =>
  }

  lemma AnsweredDelivers(link: State, sent: seq<OwnedRequest>, responses: seq<CachedResponse>, device: CoordState)
    requires Delivers(link, sent)
    ensures Delivers(Answered(link, responses, device), sent)
  {
  }

  lemma ReceivedDelivers(link: State, sent: seq<OwnedRequest>, r: OwnedRequest, handled: Handled)
    requires Delivers(link, sent) && link.up != []
    ensures Delivers(Received(link, r, handled), sent)
    ensures IsBeat(link.up[0]) || (Sent(sent, link.up[0].sequence) && sent[link.up[0].sequence - 1] == link.up[0])
  {
    hide Answered, GoodSequences;
    assert forall k :: 0 <= k < |link.up| - 1 ==> link.up[1..][k] == link.up[k + 1];
    var taken := link.(up := link.up[1..],
                       admitted := if handled.core.coord.nextId != link.device.nextId then link.admitted + [r.sequence] else link.admitted);
    AnsweredDelivers(taken, sent, handled.responses, handled.core.coord);
  }

  lemma BeatsAcceptNothing(c: Core, r: OwnedRequest)
    requires Inv(c.coord) && WellFormed(r) && IsBeat(r)
    ensures ChangesNothing(AdmitRequest(c, r).admission)
  {
    BeatChangesNothing(c.coord, r, c.stop.inFlight);
    hide Admit, Inv, WellFormed;
  }

  lemma OutsideTraced(s: Setup, step: LinkStep)
    requires SetupInv(s) && SetupEnabled(s, Outside(step))
    ensures Traced(SetupNext(s, Outside(step)))
  {
    hide LinkInv, FlowInv, FlowOf, LedgerInv, Agrees, Delivers, Commissioned, Batched, LinkNext, LinkEnabled;
    OutsideDelivers(s.link, s.sent, step);
    if step.StartCommand? || step.WriteFails? {
      SendingMore(s.sent, step.request, s.ledger);
    }
  }

  lemma ReceiveTraced(s: Setup)
    requires SetupInv(s) && SetupEnabled(s, Receive)
    ensures Traced(SetupNext(s, Receive))
  {
    hide LinkInv, FlowInv, FlowOf, LedgerInv, Agrees, Delivers, Commissioned, Batched, HandleAdmitted, AdmitRequest, Received, RecordRequest, WellFormed, HasToken, Inv;
    var r := s.link.up[0];
    RevealInv(FlowOf(s.core));
    SameCoord(s.core);
    ReceivedDelivers(s.link, s.sent, r, HandleAdmitted(s.core, r, AdmitRequest(s.core, r)));
    if IsBeat(r) {
      BeatsAcceptNothing(s.core, r);
    }
    if AdmitRequest(s.core, r).admission.ExecuteRequest? {
      NothingLoaded(s.core, r, s.ledger);
    }
    RequestCommissioned(s.core, r, s.ledger, s.sent);
    RequestBatched(s.core, r, s.ledger);
  }

  lemma NothingLoaded(c: Core, r: OwnedRequest, l: Ledger)
    requires FlowInv(FlowOf(c)) && LedgerInv(c, l) && WellFormed(r) && AdmitRequest(c, r).admission.ExecuteRequest?
    ensures l.loaded == []
  {
    hide FlowInv, Admit, WellFormed, InOrder, Paired, Purposes, Inv, CurrentOwner, GainsActive, WithinWaitLimit, Batchable;
    ExecuteFacts(c, r);
    FreeMeansEmpty(FlowOf(c));
    EmptyPlaces(c);
  }

  lemma InsideTraced(s: Setup, step: CoreStep)
    requires SetupInv(s) && IsInside(step) && Enabled(s.core, step)
    ensures Traced(SetupNext(s, Inside(step)))
  {
    hide LinkInv, FlowInv, FlowOf, LedgerInv, Agrees, Delivers, Commissioned, Batched, Record, Step, Answered;
    var handled := Step(s.core, step);
    AnsweredDelivers(s.link, s.sent, handled.responses, handled.core.coord);
    StepCommissioned(s.core, step, s.ledger, s.sent);
    StepBatched(s.core, step, s.ledger);
  }

  // ---- Whole runs ----

  lemma SetupStepKeeps(s: Setup, step: SetupStep)
    requires SetupInv(s) && SetupEnabled(s, step)
    ensures SetupInv(SetupNext(s, step))
  {
    hide Consistent, Traced, SetupNext, Enabled, LinkEnabled;
    StepConsistent(s, step);
    match step
    case Outside(outer) => OutsideTraced(s, outer);
    case Receive => ReceiveTraced(s);
    case Inside(inner) => InsideTraced(s, inner);
  }

  lemma FreshSetupInv(retries: Byte)
    ensures SetupInv(FreshSetup(retries))
  {
    FreshInv(retries);
    InitialFlow();
    BlankInv();
    hide LinkInv, FlowInv, FlowOf, LedgerInv;
    assert AllMembers(BLANK) == [] && Unstarted(INITIAL_CORE) == None;
  }

  lemma {:induction false} SetupRunsKeep(s: Setup, steps: seq<SetupStep>, end: Setup)
    requires SetupInv(s) && SetupRun(s, steps, end)
    ensures SetupInv(end)
    decreases |steps|
  {
    hide SetupInv, SetupEnabled, SetupNext;
    if steps != [] {
      SetupStepKeeps(s, steps[0]);
      SetupRunsKeep(SetupNext(s, steps[0]), steps[1..], end);
    }
  }

  // ---- Exactly once or at most once ----

  function Sequences(tokens: seq<CompletionToken>): seq<U16> {
    seq(|tokens|, i requires 0 <= i < |tokens| => tokens[i].sequence)
  }

  /** How often a command sent under this sequence was handed to the executor, alone or in a batch. */
  function Executions(l: Ledger, n: U16): nat {
    Occurrences(Sequences(MemberTokens(Carried(l.starts))), n)
  }

  /** How often a job was started for the request sent under this sequence. */
  function JobStarts(l: Ledger, n: U16): nat {
    Occurrences(Sequences(StartTokens(l.starts)), n)
  }

  ghost predicate KnownTokens(l: Ledger, tokens: seq<CompletionToken>) {
    forall i :: 0 <= i < |tokens| ==> exists a :: a in l.accepted && a.token == tokens[i]
  }

  lemma SequencesDiffer(link: State, l: Ledger, tokens: seq<CompletionToken>)
    requires Increasing(link.admitted) && SameRequests(link, l) && AllDifferent(tokens) && KnownTokens(l, tokens)
    ensures AllDifferent(Sequences(tokens))
  {
    hide Increasing, SameRequests;
    forall i, j | 0 <= i < j < |tokens|
      ensures Sequences(tokens)[i] != Sequences(tokens)[j]
    {
      if tokens[i].sequence == tokens[j].sequence {
        var a :| a in l.accepted && a.token == tokens[i];
        var b :| b in l.accepted && b.token == tokens[j];
        var k :| 0 <= k < |l.accepted| && l.accepted[k] == b;
        OneAcceptance(link, l, a, k);
      }
    }
  }

  lemma {:induction false} InCarried(starts: seq<Start>, i: nat, m: Member)
    requires i < |starts| && m in starts[i].members
    ensures m in Carried(starts)
  {
    if i < |starts| - 1 {
      InCarried(starts[..|starts| - 1], i, m);
    }
  }

  lemma StartsKnown(c: Core, l: Ledger)
    requires LedgerInv(c, l)
    ensures KnownTokens(l, StartTokens(l.starts)) && KnownTokens(l, MemberTokens(Carried(l.starts)))
    ensures forall m :: m in Carried(l.starts) ==> MemberKind(l, m)
    ensures forall s :: s in l.starts ==> StartKind(l, s)
  {
    var carried := Carried(l.starts);
    assert forall i :: 0 <= i < |l.starts| ==> StartKind(l, l.starts[i]);
    assert forall i :: 0 <= i < |AllMembers(l)| ==> MemberKind(l, AllMembers(l)[i]);
    forall i | 0 <= i < |carried|
      ensures MemberKind(l, carried[i])
    {
      assert AllMembers(l)[i] == carried[i];
    }
    hide LedgerInv, Carried, AllMembers, StartKind, MemberKind;
    forall i | 0 <= i < |carried|
      ensures exists a :: a in l.accepted && a.token == MemberTokens(carried)[i]
    {
      MemberKnown(l, carried[i]);
    }
    forall i | 0 <= i < |l.starts|
      ensures exists a :: a in l.accepted && a.token == StartTokens(l.starts)[i]
    {
      StartKnown(l, l.starts[i]);
    }
  }

  lemma MemberKnown(l: Ledger, m: Member)
    requires MemberKind(l, m)
    ensures exists a :: a in l.accepted && a.token == m.token
  {
    assert Acceptance(m.token, RunsAlone) in l.accepted || Acceptance(m.token, Joins) in l.accepted;
  }

  lemma StartKnown(l: Ledger, s: Start)
    requires StartKind(l, s)
    ensures exists a :: a in l.accepted && a.token == s.token
  {
    assert Acceptance(s.token, RunsAlone) in l.accepted || Acceptance(s.token, RunsBatch) in l.accepted;
  }

  ghost predicate Handed(l: Ledger, n: U16) {
    exists m :: m in Carried(l.starts) && m.token.sequence == n
  }

  ghost predicate Launched(l: Ledger, n: U16) {
    exists s :: s in l.starts && s.token.sequence == n
  }

  /** Both counts are zero or one. */
  lemma CountsAreZeroOrOne(s: Setup, n: U16)
    requires SetupInv(s)
    ensures Executions(s.ledger, n) == if Handed(s.ledger, n) then 1 else 0
    ensures JobStarts(s.ledger, n) == if Launched(s.ledger, n) then 1 else 0
  {
    var l := s.ledger;
    hide LinkInv, FlowInv, FlowOf, LedgerInv, Traced, SameRequests, FinishedHonoured, Increasing, Carried, AllDifferent, KnownTokens;
    LinkFacts(s.link);
    OrderedTokensDiffer(s.core, l);
    StartsKnown(s.core, l);
    var members, starts := MemberTokens(Carried(l.starts)), StartTokens(l.starts);
    SequencesDiffer(s.link, l, members);
    SequencesDiffer(s.link, l, starts);
    DifferentOccurOnce(Sequences(members), n);
    DifferentOccurOnce(Sequences(starts), n);
    assert Handed(l, n) <==> n in Sequences(members) by {
      assert forall i :: 0 <= i < |members| ==> Sequences(members)[i] == Carried(l.starts)[i].token.sequence;
    }
    assert Launched(l, n) <==> n in Sequences(starts) by {
      assert forall i :: 0 <= i < |starts| ==> Sequences(starts)[i] == l.starts[i].token.sequence;
    }
  }

  /** One job ran without failure, and handed over this one command. */
  ghost predicate RanAlone(l: Ledger, token: CompletionToken) {
    Executions(l, token.sequence) == 1 && JobStarts(l, token.sequence) == 1 && End(token, None) in l.ends
  }

  /** One job ran without failure, and handed over everything that had joined. */
  ghost predicate RanBatch(l: Ledger, token: CompletionToken, joined: seq<CompletionToken>) {
    && Executions(l, token.sequence) == 0 && JobStarts(l, token.sequence) == 1 && End(token, None) in l.ends
    && forall t :: t in joined ==> Executions(l, t.sequence) == 1
  }

  /** No job of its own; if handed over, then by a batch. */
  ghost predicate OnlyInBatch(l: Ledger, n: U16) {
    && JobStarts(l, n) == 0
    && forall s, m :: s in l.starts && m in s.members && m.token.sequence == n ==> AcceptedFor(l, s.token, RunsBatch)
  }

  ghost predicate RanNothing(l: Ledger, n: U16) {
    Executions(l, n) == 0 && JobStarts(l, n) == 0
  }

  /** What a positive answer means, by what the request was accepted for. */
  ghost predicate CarriedOut(l: Ledger, k: nat)
    requires k < |l.accepted|
  {
    var token := l.accepted[k].token;
    match l.accepted[k].purpose
    case RunsAlone => RanAlone(l, token)
    case RunsBatch => RanBatch(l, token, Joined(l.accepted[..k]))
    case Joins => OnlyInBatch(l, token.sequence)
    case TurnedAway => false
    case _ => RanNothing(l, token.sequence)
  }

  lemma SetupParts(s: Setup)
    requires SetupInv(s)
    ensures LinkInv(s.link) && LedgerInv(s.core, s.ledger) && Commissioned(s.sent, s.ledger) && Batched(s.core, s.ledger)
    ensures |s.sent| == s.link.started
  {
    hide LinkInv, FlowInv, FlowOf, LedgerInv, Agrees, Commissioned, Batched;
  }

  /** Whatever the ledger holds under a sequence is what its one acceptance is for. */
  lemma KindsUnder(s: Setup, k: nat)
    requires SetupInv(s) && k < |s.ledger.accepted|
    ensures var l, a := s.ledger, s.ledger.accepted[k];
            && (forall m :: m in Carried(l.starts) && m.token.sequence == a.token.sequence ==>
                  m.token == a.token && (a.purpose == RunsAlone || a.purpose == Joins))
            && (forall x :: x in l.starts && x.token.sequence == a.token.sequence ==>
                  x.token == a.token && (a.purpose == RunsAlone || a.purpose == RunsBatch))
            && (forall x :: x in l.starts ==> StartKind(l, x))
  {
    var l, a := s.ledger, s.ledger.accepted[k];
    hide LinkInv, FlowInv, FlowOf, LedgerInv, Traced, SameRequests, FinishedHonoured, Increasing, Carried, KnownTokens;
    LinkFacts(s.link);
    StartsKnown(s.core, l);
    forall m | m in Carried(l.starts) && m.token.sequence == a.token.sequence
      ensures m.token == a.token && (a.purpose == RunsAlone || a.purpose == Joins)
    {
      OneAcceptance(s.link, l, Acceptance(m.token, if AcceptedFor(l, m.token, RunsAlone) then RunsAlone else Joins), k);
    }
    forall x | x in l.starts && x.token.sequence == a.token.sequence
      ensures x.token == a.token && (a.purpose == RunsAlone || a.purpose == RunsBatch)
    {
      OneAcceptance(s.link, l, Acceptance(x.token, if AcceptedFor(l, x.token, RunsAlone) then RunsAlone else RunsBatch), k);
    }
  }

  lemma EndedIsStarted(c: Core, l: Ledger, e: End) returns (i: nat)
    requires LedgerInv(c, l) && e in l.ends
    ensures i < |l.starts| && l.starts[i].token == e.token
  {
    i :| 0 <= i < |l.ends| && l.ends[i] == e;
    hide InOrder, NextUp, Contents, Purposes, Done, ExecutionResponse;
  }

  lemma AloneDelivered(s: Setup, k: nat)
    requires SetupInv(s) && k < |s.ledger.accepted| && Honoured(s.ledger, s.ledger.accepted[k])
    requires s.ledger.accepted[k].purpose == RunsAlone
    ensures RanAlone(s.ledger, s.ledger.accepted[k].token)
  {
    var l, a := s.ledger, s.ledger.accepted[k];
    hide SetupInv, LinkInv, LedgerInv, Batched, Commissioned, Carried, Executions, JobStarts;
    SetupParts(s);
    KindsUnder(s, k);
    CountsAreZeroOrOne(s, a.token.sequence);
    var i := EndedIsStarted(s.core, l, End(a.token, None));
    var x := l.starts[i];
    assert x in l.starts && StartKind(l, x);
    if AcceptedFor(l, x.token, RunsBatch) {
      BatchOrAlone(s, k, x.token);
    }
    var command :| x.members == [Member(x.token, command)];
    InCarried(l.starts, i, Member(x.token, command));
    assert Handed(l, a.token.sequence);
  }

  lemma BatchOrAlone(s: Setup, k: nat, token: CompletionToken)
    requires SetupInv(s) && k < |s.ledger.accepted| && s.ledger.accepted[k] == Acceptance(token, RunsAlone)
    ensures !AcceptedFor(s.ledger, token, RunsBatch)
  {
    hide LinkInv, FlowInv, FlowOf, LedgerInv, Traced, SameRequests, FinishedHonoured, Increasing;
    LinkFacts(s.link);
    if AcceptedFor(s.ledger, token, RunsBatch) {
      OneAcceptance(s.link, s.ledger, Acceptance(token, RunsBatch), k);
    }
  }

  lemma StartIsMadeOf(c: Core, l: Ledger, i: nat)
    requires Batched(c, l) && i < |l.starts|
    ensures MadeOf(l, l.starts[i].token, l.starts[i].members)
  {
    hide Unstarted, MadeOf;
  }

  /** Everything one started job carries was handed over once. */
  lemma EveryoneRan(s: Setup, i: nat, tokens: seq<CompletionToken>)
    requires SetupInv(s) && i < |s.ledger.starts| && MemberTokens(s.ledger.starts[i].members) == tokens
    ensures forall t :: t in tokens ==> Executions(s.ledger, t.sequence) == 1
  {
    hide SetupInv, Carried, Executions, JobStarts;
    var members := s.ledger.starts[i].members;
    forall t | t in tokens
      ensures Executions(s.ledger, t.sequence) == 1
    {
      var j :| 0 <= j < |tokens| && tokens[j] == t;
      InCarried(s.ledger.starts, i, members[j]);
      CountsAreZeroOrOne(s, t.sequence);
      assert Handed(s.ledger, t.sequence);
    }
  }

  lemma BatchDelivered(s: Setup, k: nat)
    requires SetupInv(s) && k < |s.ledger.accepted| && Honoured(s.ledger, s.ledger.accepted[k])
    requires s.ledger.accepted[k].purpose == RunsBatch
    ensures RanBatch(s.ledger, s.ledger.accepted[k].token, Joined(s.ledger.accepted[..k]))
  {
    var l, a := s.ledger, s.ledger.accepted[k];
    hide SetupInv, LinkInv, LedgerInv, Batched, Commissioned, Carried, Executions, JobStarts, Joined, StartKind;
    SetupParts(s);
    KindsUnder(s, k);
    CountsAreZeroOrOne(s, a.token.sequence);
    var i := EndedIsStarted(s.core, l, End(a.token, None));
    assert l.starts[i] in l.starts;
    StartIsMadeOf(s.core, l, i);
    EveryoneRan(s, i, Joined(l.accepted[..k]));
  }

  lemma WithinBatch(l: Ledger, x: Start, m: Member)
    requires StartKind(l, x) && m in x.members && m.token.sequence != x.token.sequence
    ensures AcceptedFor(l, x.token, RunsBatch)
  {
  }

  lemma JoinedDelivered(s: Setup, k: nat)
    requires SetupInv(s) && k < |s.ledger.accepted| && s.ledger.accepted[k].purpose == Joins
    ensures OnlyInBatch(s.ledger, s.ledger.accepted[k].token.sequence)
  {
    var l, a := s.ledger, s.ledger.accepted[k];
    hide SetupInv, Carried, Executions, JobStarts, StartKind;
    KindsUnder(s, k);
    CountsAreZeroOrOne(s, a.token.sequence);
    forall x, m | x in l.starts && m in x.members && m.token.sequence == a.token.sequence
      ensures AcceptedFor(l, x.token, RunsBatch)
    {
      WithinBatch(l, x, m);
    }
  }

  lemma QuietDelivered(s: Setup, k: nat)
    requires SetupInv(s) && k < |s.ledger.accepted|
    requires var purpose := s.ledger.accepted[k].purpose; purpose == Answers || purpose == Opens || purpose == Stops
    ensures RanNothing(s.ledger, s.ledger.accepted[k].token.sequence)
  {
    hide SetupInv, Carried, Executions, JobStarts;
    KindsUnder(s, k);
    CountsAreZeroOrOne(s, s.ledger.accepted[k].token.sequence);
  }

  lemma HonouredIsDelivered(s: Setup, k: nat)
    requires SetupInv(s) && k < |s.ledger.accepted| && Honoured(s.ledger, s.ledger.accepted[k])
    ensures CarriedOut(s.ledger, k)
  {
    hide SetupInv, RanAlone, RanBatch, OnlyInBatch, RanNothing, Joined;
    match s.ledger.accepted[k].purpose
    case RunsAlone => AloneDelivered(s, k);
    case RunsBatch => BatchDelivered(s, k);
    case Joins => JoinedDelivered(s, k);
    case TurnedAway =>
    case _ => QuietDelivered(s, k);
  }

  /** The n-th request was accepted exactly once, for something that fits it, and delivered. */
  ghost predicate Fulfilled(s: Setup, n: U16) {
    Sent(s.sent, n) && exists k: nat :: k < |s.ledger.accepted| && OnlyAcceptance(s.ledger, n, k)
                                   && Fits(s.ledger.accepted[k].purpose, s.sent[n - 1]) && CarriedOut(s.ledger, k)
  }

  ghost predicate OnlyAcceptance(l: Ledger, n: U16, k: nat)
    requires k < |l.accepted|
  {
    forall i :: 0 <= i < |l.accepted| ==> (l.accepted[i].token.sequence == n <==> i == k)
  }

  lemma FinishedIsFulfilled(s: Setup, n: U16)
    requires SetupInv(s) && n in s.link.finished
    ensures Fulfilled(s, n)
  {
    var l := s.ledger;
    hide LinkInv, FlowInv, FlowOf, LedgerInv, Batched, Delivers, CarriedOut, Honoured, Fits, Decoded, AllMembers, IsCommandOf;
    LinkFacts(s.link);
    var k :| 0 <= k < |s.link.admitted| && s.link.admitted[k] == n;
    assert Honoured(l, l.accepted[k]);
    assert IsPurposeOf(s.sent, l.accepted[k]);
    HonouredIsDelivered(s, k);
    hide SetupInv;
    forall i | 0 <= i < |l.accepted|
      ensures l.accepted[i].token.sequence == n <==> i == k
    {
      assert l.accepted[i].token.sequence == s.link.admitted[i];
    }
  }

  lemma ReportFacts(link: State)
    requires LinkInv(link)
    ensures |link.reports| <= link.started <= |link.reports| + 1
    ensures forall i :: 0 <= i < |link.reports| ==>
              link.reports[i].sequence == i + 1 && (link.reports[i].success ==> link.reports[i].sequence in link.finished)
  {
    hide UpOk, DeviceOk, DownOk, WellFormed, SequenceOf;
  }

  lemma CarriedFromSent(sent: seq<OwnedRequest>, l: Ledger)
    requires Commissioned(sent, l)
    ensures forall m :: m in Carried(l.starts) ==> IsCommandOf(sent, m)
  {
    hide Carried, IsCommandOf, IsPurposeOf;
  }

  lemma SetupFacts(s: Setup)
    requires SetupInv(s)
    ensures forall n :: Executions(s.ledger, n) <= 1 && JobStarts(s.ledger, n) <= 1
    ensures forall m :: m in Carried(s.ledger.starts) ==> IsCommandOf(s.sent, m)
    ensures |s.link.reports| <= |s.sent| <= |s.link.reports| + 1
    ensures forall i :: 0 <= i < |s.link.reports| ==>
              s.link.reports[i].sequence == i + 1 && (s.link.reports[i].success ==> Fulfilled(s, i + 1))
  {
    hide SetupInv, LinkInv, Commissioned, Executions, JobStarts, Fulfilled, IsCommandOf, Carried;
    SetupParts(s);
    ReportFacts(s.link);
    CarriedFromSent(s.sent, s.ledger);
    forall n
      ensures Executions(s.ledger, n) <= 1 && JobStarts(s.ledger, n) <= 1
    {
      CountsAreZeroOrOne(s, n);
    }
    forall i | 0 <= i < |s.link.reports| && s.link.reports[i].success
      ensures Fulfilled(s, i + 1)
    {
      FinishedIsFulfilled(s, s.link.reports[i].sequence);
    }
  }

  /**
   End to end, within one session of at most 65535 commands, for every retry count, every pattern of lost
   frames and replies, timeouts, BUSYs, stale and repeated replies, heartbeats in between and write failures,
   and everything the device may schedule, cancel or fail: whatever is handed to the executor is the command
   the client sent under its sequence, and no sequence is handed over or starts a job twice, reported failed,
   successful or still being sent. The i-th report is about the i-th command, and a command reported
   successful was accepted exactly once for what its class says: alone, it was executed exactly once and ended
   without failure; a BATCH_END ran one job without failure, and every command that had joined was executed
   exactly once; a command that joined a batch runs, if at all, inside a batch; queries, BATCH_BEGIN
   and STOP_ALL execute nothing.
   */
  lemma ExactlyOnceOrAtMostOnce(retries: Byte, steps: seq<SetupStep>, end: Setup)
    requires SetupRun(FreshSetup(retries), steps, end)
    ensures forall n :: Executions(end.ledger, n) <= 1 && JobStarts(end.ledger, n) <= 1
    ensures forall m :: m in Carried(end.ledger.starts) ==> IsCommandOf(end.sent, m)
    ensures |end.link.reports| <= |end.sent| <= |end.link.reports| + 1
    ensures forall i :: 0 <= i < |end.link.reports| ==>
              end.link.reports[i].sequence == i + 1 && (end.link.reports[i].success ==> Fulfilled(end, i + 1))
  {
    hide SetupInv, SetupRun, Executions, JobStarts, Fulfilled, IsCommandOf, Carried;
    FreshSetupInv(retries);
    SetupRunsKeep(FreshSetup(retries), steps, end);
    SetupFacts(end);
  }
}
