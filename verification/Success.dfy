/**
 The other half of the end-to-end guarantee: from every idle state host and device can
 reach, each command the device's state does not refuse can be carried out and reported
 successful, and both sides are idle again.
 */
module Success {
  import opened Types
  import opened Protocol
  import opened Commands
  import opened ExecutionCore
  import opened Coordinator
  import opened CoordinatorHistory
  import opened Runtime
  import opened Pipeline
  import opened Dispatcher
  import opened Decisions
  import opened Progress
  import opened Ledger
  import opened Client
  import opened Agreement
  import opened Link
  import opened EndToEnd

  /** Nothing being sent, nothing on the wire, nothing in the device. */
  predicate AllIdle(s: Setup) {
    s.link.sending.None? && s.link.up == [] && s.link.down == [] && Quiet(s.core) && s.core.batch.None?
  }

  // ---- Runs ----

  lemma {:induction false} SetupsJoin(s: Setup, p: seq<SetupStep>, mid: Setup, q: seq<SetupStep>, end: Setup)
    requires SetupRun(s, p, mid) && SetupRun(mid, q, end)
    ensures SetupRun(s, p + q, end)
    decreases |p|
  {
    hide SetupEnabled, SetupNext;
    if p == [] {
      assert p + q == q;
    } else {
      assert (p + q)[1..] == p[1..] + q;
      SetupsJoin(SetupNext(s, p[0]), p[1..], mid, q, end);
    }
  }

  lemma OneSetupStep(s: Setup, step: SetupStep)
    requires SetupEnabled(s, step)
    ensures SetupRun(s, [step], SetupNext(s, step))
  {
    hide SetupEnabled, SetupNext;
    assert SetupRun(SetupNext(s, step), [step][1..], SetupNext(s, step));
  }

  function Wrapped(steps: seq<CoreStep>): seq<SetupStep> {
    seq(|steps|, i requires 0 <= i < |steps| => Inside(steps[i]))
  }

  predicate Unanswered(steps: seq<CoreStep>) {
    forall i :: 0 <= i < |steps| ==> IsInside(steps[i]) && !steps[i].TakeResult?
  }

  lemma QuietSetupStep(s: Setup, step: CoreStep)
    requires IsInside(step) && !step.TakeResult? && Enabled(s.core, step) && s.link.device == s.core.coord
    ensures SetupNext(s, Inside(step)) == s.(core := Step(s.core, step).core, ledger := Record(s.ledger, s.core, step))
    ensures Step(s.core, step).core.coord == s.core.coord
  {
    hide Step, Record, Enabled, Answered;
    QuietInside(s.core, step);
    AnsweredNothing(s.link);
  }

  /** What the device does on its own is a run of the whole setup that leaves the link alone. */
  lemma {:induction false} InsideRun(s: Setup, steps: seq<CoreStep>, end: Core) returns (ledger: Ledger)
    requires Unanswered(steps) && RunsTo(s.core, steps, end) && s.link.device == s.core.coord
    ensures SetupRun(s, Wrapped(steps), s.(core := end, ledger := ledger))
    decreases |steps|
  {
    hide Enabled, Step, Record;
    if steps == [] {
      ledger := s.ledger;
      assert s.(core := end, ledger := ledger) == s;
    } else {
      QuietSetupStep(s, steps[0]);
      assert SetupEnabled(s, Inside(steps[0]));
      hide SetupEnabled, SetupNext, IsInside;
      var next := SetupNext(s, Inside(steps[0]));
      ledger := InsideRun(next, steps[1..], end);
      assert Wrapped(steps)[1..] == Wrapped(steps[1..]) && Wrapped(steps)[0] == Inside(steps[0]);
    }
  }

  lemma SetupStepReaches(s: Setup, step: SetupStep)
    requires Reachable(s.core) && SetupEnabled(s, step)
    ensures Reachable(SetupNext(s, step).core)
  {
    hide Enabled, Step, Reachable, LinkEnabled, LinkNext, Record, Received, Answered;
    match step
    case Outside(_) =>
    case Receive => StepReached(s.core, TakeRequest(s.link.up[0]));
    case Inside(inner) => StepReached(s.core, inner);
  }

  lemma {:induction false} CoreOfSetup(s: Setup, steps: seq<SetupStep>, end: Setup)
    requires Reachable(s.core) && SetupRun(s, steps, end)
    ensures Reachable(end.core)
    decreases |steps|
  {
    hide SetupEnabled, SetupNext, Reachable;
    if steps != [] {
      SetupStepReaches(s, steps[0]);
      CoreOfSetup(SetupNext(s, steps[0]), steps[1..], end);
    }
  }

  lemma InitialReachable()
    ensures Reachable(INITIAL_CORE)
  {
    assert RunsTo(INITIAL_CORE, [], INITIAL_CORE);
  }

  // ---- One command, all the way ----

  /** The next sequence is beyond everything the device has accepted, so its cache does not know it. */
  lemma UnknownToDevice(link: State, r: OwnedRequest)
    requires LinkInv(link) && Startable(link, r)
    ensures New(link.device, r)
  {
    SequencesCount(link.started);
    hide UpOk, DownOk, WellFormed, Inv, SequenceOf;
    forall i | 0 <= i < |link.device.cache|
      ensures link.device.cache[i].sequence != r.sequence
    {
      var k :| 0 <= k < |link.admitted| && link.admitted[k] == link.device.cache[i].sequence;
      assert link.admitted[k] <= link.admitted[|link.admitted| - 1] <= link.started;
    }
  }

  lemma Sends(s: Setup, r: OwnedRequest)
    requires AllIdle(s) && Startable(s.link, r)
    ensures SetupEnabled(s, Outside(StartCommand(r, true)))
    ensures var next := SetupNext(s, Outside(StartCommand(r, true)));
            && next.core == s.core && next.link.device == s.link.device && next.link.up == [r] && next.link.down == []
            && next.link.sending == Some(Sending(r, 0)) && next.link.reports == s.link.reports && next.link.retries == s.link.retries
  {
    hide Enabled, Step, Record, NextSequence, WellFormed;
  }

  lemma Receives(s: Setup, r: OwnedRequest)
    requires s.link.up == [r] && s.link.down == [] && Enabled(s.core, TakeRequest(r)) && Step(s.core, TakeRequest(r)).responses == []
    ensures SetupEnabled(s, Receive)
    ensures var next := SetupNext(s, Receive);
            && next.core == Step(s.core, TakeRequest(r)).core && next.link.device == next.core.coord
            && next.link.up == [] && next.link.down == []
            && next.link.sending == s.link.sending && next.link.reports == s.link.reports && next.link.retries == s.link.retries
  {
    hide Enabled, Step, Record, GoodSequences;
  }

  lemma Answers(s: Setup, response: CachedResponse)
    requires s.link.down == [] && Enabled(s.core, TakeResult) && Step(s.core, TakeResult).responses == [response]
    ensures SetupEnabled(s, Inside(TakeResult))
    ensures var next := SetupNext(s, Inside(TakeResult));
            && next.core == Step(s.core, TakeResult).core && next.link.down == [response] && next.link.up == s.link.up
            && next.link.sending == s.link.sending && next.link.reports == s.link.reports && next.link.retries == s.link.retries
  {
    hide Enabled, Step, Record, GoodSequences;
  }

  lemma TakesSuccess(s: Setup, r: OwnedRequest, response: CachedResponse)
    requires s.link.sending == Some(Sending(r, 0)) && s.link.down == [response] && response.sequence == r.sequence
    requires Understood(r.commandType, response, 0, s.link.retries).Succeeded?
    ensures SetupEnabled(s, Outside(TakeReply))
    ensures var next := SetupNext(s, Outside(TakeReply));
            && next.core == s.core && next.link.up == s.link.up && next.link.down == [] && next.link.sending.None?
            && next.link.reports == s.link.reports + [Report(r.sequence, true)]
  {
    hide Enabled, Step, Record, ExpectedType;
  }

  lemma AckUnderstood(r: OwnedRequest, retries: nat)
    requires IsMutating(r.commandType)
    ensures Understood(r.commandType, AckResponse(r.version, r.sequence), 0, retries).Succeeded?
  {
    FinalAnswersUnderstood(r.commandType, AckResponse(r.version, r.sequence), 0, retries);
  }

  lemma JobStepsUnanswered(n: nat, capsLock: nat -> bool)
    ensures Unanswered(JobSteps(n, capsLock))
  {
  }

  lemma DeviceParts(s: Setup)
    requires SetupInv(s)
    ensures s.link.device == s.core.coord && FlowInv(FlowOf(s.core))
  {
    hide LinkInv, FlowInv, FlowOf, LedgerInv, Agrees, Traced;
  }

  /** Sending the command, executing it and queuing its ACK. */
  lemma Executed(s: Setup, r: OwnedRequest, command: OwnedCommand, capsLock: nat -> bool) returns (run: (seq<SetupStep>, Setup))
    requires AllIdle(s) && Startable(s.link, r) && Reachable(s.core) && s.link.device == s.core.coord
    requires FreshCommand(s.core, r, command) && Refusal(command, s.core.held).None?
    ensures SetupRun(s, run.0, run.1) && run.1.core == Step(Answering(s.core, r, command, capsLock), TakeResult).core
    ensures run.1.link.sending == Some(Sending(r, 0)) && run.1.link.down == [AckResponse(r.version, r.sequence)]
    ensures run.1.link.up == [] && run.1.link.reports == s.link.reports && run.1.link.retries == s.link.retries
  {
    hide SetupRun, SetupEnabled, SetupNext, Reachable, Decoded, FreshCommand, Refusal, Enabled, Step, Startable, JobSteps, Answering, Unanswered;
    ReachesAnswer(s.core, r, command, capsLock);
    AnswerTaken(s.core, r, command, capsLock);
    var n := LooksTaken(s.core, command);
    JobStepsUnanswered(n, capsLock);

    Sends(s, r);
    var sent := SetupNext(s, Outside(StartCommand(r, true)));
    Receives(sent, r);
    var taken := SetupNext(sent, Receive);
    var answering := Answering(s.core, r, command, capsLock);
    var ledger := InsideRun(taken, JobSteps(n, capsLock), answering);
    var ran := taken.(core := answering, ledger := ledger);
    Answers(ran, AckResponse(r.version, r.sequence));
    var answered := SetupNext(ran, Inside(TakeResult));

    OneSetupStep(s, Outside(StartCommand(r, true)));
    OneSetupStep(sent, Receive);
    OneSetupStep(ran, Inside(TakeResult));
    var steps := [Outside(StartCommand(r, true))];
    SetupsJoin(s, steps, sent, [Receive], taken);
    steps := steps + [Receive];
    SetupsJoin(s, steps, taken, Wrapped(JobSteps(n, capsLock)), ran);
    steps := steps + Wrapped(JobSteps(n, capsLock));
    SetupsJoin(s, steps, ran, [Inside(TakeResult)], answered);
    run := (steps + [Inside(TakeResult)], answered);
  }

  /**
   From every idle state host and device can reach: whatever command needs the executor, if it decodes and the
   held input does not refuse it, and a device identifier is left, then there is a run in which it is sent once,
   executed and reported successful, every report of it having been delivered, and host and device are idle again.
   */
  lemma EveryCommandCanSucceed(retries: Byte, before: seq<SetupStep>, s: Setup, r: OwnedRequest, command: OwnedCommand, capsLock: nat -> bool)
    requires SetupRun(FreshSetup(retries), before, s) && AllIdle(s) && Startable(s.link, r)
    requires IsMutating(r.commandType) && Decoded(r) == Ok(Typed(command)) && s.core.coord.nextId + 1 < U64_LIMIT
    requires Refusal(command, s.core.held).None?
    ensures exists steps, end ::
              && SetupRun(s, steps, end) && AllIdle(end)
              && end.link.reports == s.link.reports + [Report(r.sequence, true)]
              && end.core.held == NextHeld(command, s.core.held)
              && end.core.attempts == s.core.attempts + Delivered(Reports(Script(command, s.core.held, capsLock(0))))
  {
    hide SetupRun, SetupEnabled, SetupNext, SetupInv, Reachable, Decoded, New, Refusal, NextHeld, Script, Reports, Enabled, Step, Startable, JobSteps, Answering, Unanswered, ExecutionCore.Delivered, Understood;
    FreshSetupInv(retries);
    SetupRunsKeep(FreshSetup(retries), before, s);
    InitialReachable();
    CoreOfSetup(FreshSetup(retries), before, s);
    SetupParts(s);
    DeviceParts(s);
    UnknownToDevice(s.link, r);
    AnswerTaken(s.core, r, command, capsLock);
    var mid := Executed(s, r, command, capsLock);
    AckUnderstood(r, s.link.retries);
    TakesSuccess(mid.1, r, AckResponse(r.version, r.sequence));
    OneSetupStep(mid.1, Outside(TakeReply));
    SetupsJoin(s, mid.0, mid.1, [Outside(TakeReply)], SetupNext(mid.1, Outside(TakeReply)));
    assert SetupRun(s, mid.0 + [Outside(TakeReply)], SetupNext(mid.1, Outside(TakeReply)));
  }

  // ---- One query ----

  lemma QueryAnswered(c: Core, r: OwnedRequest)
    requires FlowInv(FlowOf(c)) && Quiet(c) && New(c.coord, r) && r.kind == ResponseExpected
    requires IsQuery(r.commandType) && Decoded(r).Ok? && c.coord.nextId + 1 < U64_LIMIT
    ensures Enabled(c, TakeRequest(r))
    ensures var handled := Step(c, TakeRequest(r));
            && (exists token: CompletionToken :: token.version == r.version && token.sequence == r.sequence
                                              && handled.responses == [BypassResponse(r, token)])
            && Quiet(handled.core) && handled.core.batch == c.batch && handled.core.held == c.held && handled.core.attempts == c.attempts
  {
    hide FlowInv, FlowOf, Admit, Decoded, WellFormed, Inv, TakesMore, SameActive, GainsActive, BypassResponse, CompleteOr;
    QuietHasRoom(c);
    QueryDecision(c.coord, r, false);
    RevealInv(FlowOf(c));
    SameParts(c);
    AdmitFacts(c, r);
    var token := NewToken(c.coord, r);
    SameAnswer(r, AdmitRequest(c, r).admission.request, token);
    assert Step(c, TakeRequest(r)).responses == [BypassResponse(r, token)];
  }

  lemma SameAnswer(r: OwnedRequest, q: OwnedRequest, token: CompletionToken)
    requires q.commandType == r.commandType && q.version == r.version
    ensures BypassResponse(q, token) == BypassResponse(r, token)
  {
  }

  lemma ReceivesAnswer(s: Setup, r: OwnedRequest, response: CachedResponse)
    requires s.link.up == [r] && s.link.down == [] && Enabled(s.core, TakeRequest(r)) && Step(s.core, TakeRequest(r)).responses == [response]
    ensures SetupEnabled(s, Receive)
    ensures var next := SetupNext(s, Receive);
            && next.core == Step(s.core, TakeRequest(r)).core && next.link.up == [] && next.link.down == [response]
            && next.link.sending == s.link.sending && next.link.reports == s.link.reports && next.link.retries == s.link.retries
  {
    hide Enabled, Step, Record, GoodSequences;
  }

  /** The same for queries: one frame each way, nothing executed, and nothing about the device's input changes. */
  lemma EveryQueryCanSucceed(retries: Byte, before: seq<SetupStep>, s: Setup, r: OwnedRequest)
    requires SetupRun(FreshSetup(retries), before, s) && AllIdle(s) && Startable(s.link, r)
    requires IsQuery(r.commandType) && Decoded(r).Ok? && s.core.coord.nextId + 1 < U64_LIMIT
    ensures exists end ::
              && SetupRun(s, [Outside(StartCommand(r, true)), Receive, Outside(TakeReply)], end) && AllIdle(end)
              && end.link.reports == s.link.reports + [Report(r.sequence, true)]
              && end.core.held == s.core.held && end.core.attempts == s.core.attempts
  {
    hide SetupRun, SetupEnabled, SetupNext, SetupInv, Decoded, New, Enabled, Step, Startable, FlowInv, FlowOf, BypassResponse, Understood;
    FreshSetupInv(retries);
    SetupRunsKeep(FreshSetup(retries), before, s);
    SetupParts(s);
    DeviceParts(s);
    UnknownToDevice(s.link, r);
    StartableKind(s.link, r);
    QueryAnswered(s.core, r);

    Sends(s, r);
    var sent := SetupNext(s, Outside(StartCommand(r, true)));
    var token: CompletionToken :| token.version == r.version && token.sequence == r.sequence
                                  && Step(s.core, TakeRequest(r)).responses == [BypassResponse(r, token)];
    var response := BypassResponse(r, token);
    QueriesSucceed(r, token, 0, s.link.retries);
    ReceivesAnswer(sent, r, response);
    var taken := SetupNext(sent, Receive);
    TakesSuccess(taken, r, response);
    var end := SetupNext(taken, Outside(TakeReply));

    OneSetupStep(s, Outside(StartCommand(r, true)));
    OneSetupStep(sent, Receive);
    OneSetupStep(taken, Outside(TakeReply));
    SetupsJoin(s, [Outside(StartCommand(r, true))], sent, [Receive], taken);
    SetupsJoin(s, [Outside(StartCommand(r, true))] + [Receive], taken, [Outside(TakeReply)], end);
    assert [Outside(StartCommand(r, true))] + [Receive] + [Outside(TakeReply)] == [Outside(StartCommand(r, true)), Receive, Outside(TakeReply)];
  }

  lemma StartableKind(link: State, r: OwnedRequest)
    requires Startable(link, r)
    ensures r.kind == ResponseExpected
  {
  }
}
