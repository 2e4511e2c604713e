/**
 Nothing the guarantees rest on is empty: from every quiet state a command that the device
 would not refuse can be sent, executed once and reported successful, and leaves things quiet.
 */
module Progress {
  import opened Types
  import opened Protocol
  import opened Commands
  import opened ExecutionCore
  import opened Batch
  import opened Coordinator
  import opened CoordinatorHistory
  import opened Cancellation
  import opened Runtime
  import opened Pipeline
  import opened Dispatcher
  import opened CancelGuarantees
  import opened Decisions
  import opened Guarantees
  import opened Output

  /** Both tasks idle, nothing between them, no emergency. */
  predicate Quiet(c: Core) {
    c.pc == AtSelect && c.exec == Waiting && c.jobs == [] && c.results == [] && !c.stop.inFlight
  }

  // ---- A run in which nothing goes wrong ----

  /** No write fails and no cancellation point sees anything. */
  const CALM := Schedule(_ => false, _ => false)

  lemma CalmAction(w: World, action: Action)
    requires w.schedule == CALM && !w.cancelled && !action.Refuse?
    ensures var o := Perform(w, action);
            o.failure.None? && o.world.schedule == CALM && !o.world.cancelled
  {
  }

  lemma {:induction false} CalmRun(w: World, script: seq<Action>)
    requires w.schedule == CALM && !w.cancelled && !Refuses(script)
    ensures var o := Run(w, script);
            o.failure.None? && o.world.schedule == CALM && !o.world.cancelled
    decreases |script|
  {
    if script != [] {
      assert !script[0].Refuse?;
      CalmAction(w, script[0]);
      hide Perform;
      assert forall i :: 0 <= i < |script| - 1 ==> script[1..][i] == script[i + 1];
      CalmRun(Perform(w, script[0]).world, script[1..]);
    }
  }

  /** A command the state does not refuse succeeds when nothing goes wrong. */
  lemma CalmSuccess(w: World, command: OwnedCommand, capsLock: bool)
    requires w.schedule == CALM && !w.cancelled && WithinWaitLimit(command) && Refusal(command, w.held).None?
    ensures var o := ExecuteSingle(w, command, capsLock);
            && o.failure.None? && o.world.schedule == CALM && o.world.held == NextHeld(command, w.held)
            && o.world.attempts == w.attempts + Delivered(Reports(Script(command, w.held, capsLock)))
  {
    StoredSurvives(w, command, capsLock);
    ScriptMeaning(command, w.held, capsLock);
    OutcomeTrichotomy(w, command, capsLock);
    hide Script, Body, Refusal, NextHeld, Run, Reports, ExecuteSingle;
    CalmRun(w, Script(command, w.held, capsLock));
  }

  // ---- Through the pipeline ----

  lemma QuietIsFree(c: Core)
    requires FlowInv(FlowOf(c)) && Quiet(c)
    ensures CurrentOwner(c.coord).None? && Pipe(FlowOf(c)) == [] && c.shadow == c.held && c.stop.pending == []
    ensures c.coord.batch == Collecting <==> c.batch.Some?
  {
    var f := FlowOf(c);
    assert f.done == [] && f.queue == [];
    PipeEmpty(f);
    hide Inv, JobsOk, Collected;
  }

  /** Nothing in the cache is waiting, so there is room. */
  lemma QuietHasRoom(c: Core)
    requires FlowInv(FlowOf(c)) && Quiet(c) && c.coord.nextId + 1 < U64_LIMIT
    ensures TakesMore(c.coord)
  {
    QuietIsFree(c);
    assert forall t :: !IsActive(c.coord.cache, t) by {
      hide Pipe, Inv, Shape, OwnerInFlight, BatchInStep, JobsOk, StateInStep, IsActive;
      assert ActiveInStep(FlowOf(c));
    }
    hide FlowInv, FlowOf, Pipe;
    forall i: nat | i < |c.coord.cache|
      ensures c.coord.cache[i].state != Active
    {
      assert !IsActive(c.coord.cache, c.coord.cache[i].token);
      assert !IsActiveAt(c.coord.cache, i, c.coord.cache[i].token);
    }
    assert ActiveSlots(c.coord.cache) == {};
  }

  /** A command that needs the executor, decoded, and unknown to the cache. */
  ghost predicate FreshCommand(c: Core, r: OwnedRequest, command: OwnedCommand) {
    New(c.coord, r) && IsMutating(r.commandType) && Decoded(r) == Ok(Typed(command)) && c.coord.nextId + 1 < U64_LIMIT
  }

  function JobFor(c: Core, r: OwnedRequest, command: OwnedCommand): Job {
    CommandJob(r.(body := Typed(command), token := Some(NewToken(c.coord, r))), None, c.stop.generation, c.cancels)
  }

  lemma Accepted(c: Core, r: OwnedRequest, command: OwnedCommand)
    requires FlowInv(FlowOf(c)) && Quiet(c) && c.batch.None? && FreshCommand(c, r, command)
    ensures AdmitRequest(c, r).admission.ExecuteRequest?
    ensures AdmitRequest(c, r).admission.request == r.(body := Typed(command), token := Some(NewToken(c.coord, r)))
    ensures r.commandType != CommandType.BatchEnd && ResponseTo(command) == DeviceAck && WithinWaitLimit(command)
    ensures CurrentOwner(AdmitRequest(c, r).state) == Some(NewToken(c.coord, r))
    ensures NewToken(c.coord, r).expected == ExpectAck
  {
    hide FlowInv, FlowOf, Admit, Decoded, WellFormed, Inv, TakesMore, Classify, GainsActive, Batchable, SameActive, NewToken;
    QuietHasRoom(c);
    QuietIsFree(c);
    MutatingDecision(c.coord, r, false);
    RevealInv(FlowOf(c));
    SameParts(c);
    ExecuteFacts(c, r);
    AdmitFacts(c, r);
    AdmitBodies(c.coord, r, false);
    hide WithinWaitLimit;
    MutatingAnswersAck(r, command);
  }

  lemma SameParts(c: Core)
    ensures FlowOf(c).coord == c.coord && FlowOf(c).batch == c.batch && FlowOf(c).stop == c.stop
  {
  }

  lemma MutatingAnswersAck(r: OwnedRequest, command: OwnedCommand)
    requires WellFormed(r) && IsMutating(r.commandType) && Decoded(r) == Ok(Typed(command))
    ensures ResponseTo(command) == DeviceAck
  {
    hide FromBe16, FromBe32, BitsI16, BitsI8;
  }

  lemma Dispatched(c: Core, r: OwnedRequest, command: OwnedCommand)
    requires FlowInv(FlowOf(c)) && Quiet(c) && c.batch.None? && FreshCommand(c, r, command)
    ensures Enabled(c, TakeRequest(r))
    ensures Step(c, TakeRequest(r)) ==
              Handled(c.(coord := AdmitRequest(c, r).state, pc := SendingJob(JobFor(c, r, command))), [])
  {
    Accepted(c, r, command);
    hide FlowInv, FlowOf, Admit, Decoded, Inv, WellFormed, NewToken;
  }

  function Falses(n: nat): seq<bool> {
    seq(n, _ => false)
  }

  function Looks(n: nat): seq<CoreStep> {
    seq(n, _ => LookForCancel)
  }

  /** A job nobody has cancelled can look as often as it likes and sees nothing. */
  lemma {:induction false} CalmLooks(c: Core, n: nat)
    requires RunningCommand(c) && !c.exec.cancelled && (c.cancel.Some? ==> c.cancel.value == c.exec.job.baseline)
    ensures RunsTo(c, Looks(n), c.(exec := c.exec.(seen := c.exec.seen + Falses(n)), cancel := if n == 0 then c.cancel else None))
    decreases n
  {
    if n == 0 {
      assert c.exec.seen + Falses(0) == c.exec.seen;
      assert c.(exec := c.exec, cancel := c.cancel) == c;
    } else {
      var next := Look(c);
      CalmLooks(next, n - 1);
      assert c.exec.seen + [false] + Falses(n - 1) == c.exec.seen + Falses(n);
      assert Looks(n)[1..] == Looks(n - 1);
    }
  }

  /** From the channel to the executor and back: what a dispatched job does when nothing interferes. */
  function JobSteps(n: nat, capsLock: nat -> bool): seq<CoreStep> {
    [SendJob, StartJob] + Looks(n) + [FinishCommand(CALM, capsLock), ReportResult]
  }

  /** The dispatcher is handing over a job; nothing else is anywhere. */
  predicate Handing(c: Core, job: Job) {
    && c.pc == SendingJob(job) && c.exec == Waiting && c.jobs == [] && c.results == []
    && job.CommandJob? && job.request.token.Some? && (c.cancel.Some? ==> c.cancel.value == job.baseline)
  }

  function Started(c: Core, job: Job): Core {
    c.(pc := AtSelect, exec := Running(job, [], false))
  }

  function Ended(c: Core, job: Job, o: Outcome): Core
    requires job.CommandJob? && job.request.token.Some?
  {
    c.(pc := AtSelect, cancel := None, held := o.world.held, attempts := o.world.attempts,
       results := [CommandDone(job.request.token.value,
                               ExecutionResponse(job.request.token.value, JobAnswer(job), o.failure), o.world.held)])
  }

  lemma Starts(c: Core, job: Job)
    requires Handing(c, job)
    ensures RunsTo(c, [SendJob, StartJob], Started(c, job))
  {
    var sent := c.(jobs := [job], pc := AtSelect);
    assert Enabled(c, SendJob) && Step(c, SendJob).core == sent;
    assert Enabled(sent, StartJob) && Step(sent, StartJob).core == Started(c, job);
    OneStep(c, SendJob);
    OneStep(sent, StartJob);
    hide RunsTo, Enabled, Step;
    RunsJoin(c, [SendJob], sent, [StartJob], Started(c, job));
    assert [SendJob] + [StartJob] == [SendJob, StartJob];
  }

  lemma Finishes(c: Core, job: Job, n: nat, capsLock: nat -> bool, o: Outcome)
    requires Handing(c, job) && o == JobOutcome(job, JobWorld(c, CALM), capsLock)
    requires o.world.checks == n && o.world.schedule == CALM
    ensures RunsTo(Started(c, job).(exec := Running(job, Falses(n), false), cancel := None),
                   [FinishCommand(CALM, capsLock), ReportResult], Ended(c, job, o))
  {
    var looked := Started(c, job).(exec := Running(job, Falses(n), false), cancel := None);
    assert JobWorld(looked, CALM) == JobWorld(c, CALM);
    hide JobOutcome, ExecutionResponse, JobAnswer;
    assert Enabled(looked, FinishCommand(CALM, capsLock));
    var reporting := Step(looked, FinishCommand(CALM, capsLock)).core;
    assert Enabled(reporting, ReportResult) && Step(reporting, ReportResult).core == Ended(c, job, o);
    OneStep(looked, FinishCommand(CALM, capsLock));
    OneStep(reporting, ReportResult);
    hide RunsTo, Enabled, Step;
    RunsJoin(looked, [FinishCommand(CALM, capsLock)], reporting, [ReportResult], Ended(c, job, o));
    assert [FinishCommand(CALM, capsLock)] + [ReportResult] == [FinishCommand(CALM, capsLock), ReportResult];
  }

  lemma JobRuns(c: Core, job: Job, n: nat, capsLock: nat -> bool, o: Outcome)
    requires Handing(c, job) && o == JobOutcome(job, JobWorld(c, CALM), capsLock)
    requires o.world.checks == n > 0 && o.world.schedule == CALM
    ensures RunsTo(c, JobSteps(n, capsLock), Ended(c, job, o))
  {
    var started := Started(c, job);
    var looked := started.(exec := Running(job, Falses(n), false), cancel := None);
    Starts(c, job);
    CalmLooks(started, n);
    assert [] + Falses(n) == Falses(n);
    Finishes(c, job, n, capsLock, o);
    hide RunsTo, JobOutcome, Looks, Falses;
    RunsJoin(c, [SendJob, StartJob], started, Looks(n), looked);
    RunsJoin(c, [SendJob, StartJob] + Looks(n), looked, [FinishCommand(CALM, capsLock), ReportResult], Ended(c, job, o));
  }

  // ---- A whole command ----

  lemma ReachesOn(c: Core, steps: seq<CoreStep>, end: Core)
    requires Reachable(c) && RunsTo(c, steps, end)
    ensures Reachable(end)
  {
    hide RunsTo;
    var before :| RunsTo(INITIAL_CORE, before, c);
    RunsJoin(INITIAL_CORE, before, c, steps, end);
  }

  function CalmOutcome(c: Core, command: OwnedCommand, capsLock: nat -> bool): Outcome {
    ExecuteSingle(JobWorld(c, CALM), command, capsLock(0))
  }

  /** One look before, one after, and the command's own. */
  function LooksTaken(c: Core, command: OwnedCommand): nat {
    2 + Points(command) + 2 * Delays(command, c.held)
  }

  lemma CalmOutcomeIs(c: Core, command: OwnedCommand, capsLock: nat -> bool)
    requires WithinWaitLimit(command) && Refusal(command, c.held).None?
    ensures var o := CalmOutcome(c, command, capsLock);
            && o.failure.None? && o.world.schedule == CALM && o.world.checks == LooksTaken(c, command)
            && o.world.held == NextHeld(command, c.held)
            && o.world.attempts == c.attempts + Delivered(Reports(Script(command, c.held, capsLock(0))))
  {
    var w := JobWorld(c, CALM);
    CalmSuccess(w, command, capsLock(0));
    StoredSurvives(w, command, capsLock(0));
    hide ExecuteOnce, ExecuteSingle, Script, Reports, NextHeld, Refusal, Points, Delays, ResetInputs;
    assert ExecuteSingle(w, command, capsLock(0)) == ExecuteOnce(w, command, capsLock(0));
    PointsPassed(w, command, capsLock(0));
  }

  /** The state in which the command's result waits for the dispatcher. */
  function Answering(c: Core, r: OwnedRequest, command: OwnedCommand, capsLock: nat -> bool): Core {
    var o := CalmOutcome(c, command, capsLock);
    c.(coord := AdmitRequest(c, r).state, cancel := None, held := o.world.held, attempts := o.world.attempts,
       results := [CommandDone(NewToken(c.coord, r), AckResponse(r.version, r.sequence), o.world.held)])
  }

  lemma ReachesAnswer(c: Core, r: OwnedRequest, command: OwnedCommand, capsLock: nat -> bool)
    requires Reachable(c) && Quiet(c) && c.batch.None? && FreshCommand(c, r, command) && Refusal(command, c.held).None?
    ensures Enabled(c, TakeRequest(r)) && Step(c, TakeRequest(r)).responses == []
    ensures RunsTo(Step(c, TakeRequest(r)).core, JobSteps(LooksTaken(c, command), capsLock), Answering(c, r, command, capsLock))
  {
    hide FlowInv, FlowOf, Reachable, Admit, RunsTo, ExecuteSingle, NewToken, New, Refusal, NextHeld, Script, Reports, Points, Delays, JobSteps, CancelInv;
    ReachableFlow(c);
    ReachableCancel(c);
    FreshSignal(c);
    Accepted(c, r, command);
    Dispatched(c, r, command);
    CalmOutcomeIs(c, command, capsLock);
    var handing, job := Step(c, TakeRequest(r)).core, JobFor(c, r, command);
    JobRuns(handing, job, LooksTaken(c, command), capsLock, CalmOutcome(c, command, capsLock));
    AcksItsToken(c, r);
  }

  lemma FreshSignal(c: Core)
    requires CancelInv(c)
    ensures c.cancel.Some? ==> c.cancel.value == c.stop.generation
  {
    hide SeenOk, Queue, Generation;
  }

  lemma AcksItsToken(c: Core, r: OwnedRequest)
    ensures ExecutionResponse(NewToken(c.coord, r), DeviceAck, None) == AckResponse(r.version, r.sequence)
  {
  }

  lemma AnswerTaken(c: Core, r: OwnedRequest, command: OwnedCommand, capsLock: nat -> bool)
    requires Reachable(c) && Quiet(c) && c.batch.None? && FreshCommand(c, r, command) && Refusal(command, c.held).None?
    ensures var answering := Answering(c, r, command, capsLock);
            && Enabled(answering, TakeResult) && Step(answering, TakeResult).responses == [AckResponse(r.version, r.sequence)]
            && var end := Step(answering, TakeResult).core;
               && Quiet(end) && end.batch.None? && end.held == NextHeld(command, c.held)
               && end.attempts == c.attempts + Delivered(Reports(Script(command, c.held, capsLock(0))))
  {
    hide FlowInv, FlowOf, Reachable, Admit, RunsTo, ExecuteSingle, NewToken, New, Refusal, NextHeld, Script, Reports, Points, Delays, JobSteps, CurrentOwner, Complete;
    ReachableFlow(c);
    Accepted(c, r, command);
    CalmOutcomeIs(c, command, capsLock);
    ReachesAnswer(c, r, command, capsLock);
    StepReached(c, TakeRequest(r));
    var answering := Answering(c, r, command, capsLock);
    ReachesOn(Step(c, TakeRequest(r)).core, JobSteps(LooksTaken(c, command), capsLock), answering);
    hide IsActive;
    CommandCompletes(answering);
  }

  lemma StepReached(c: Core, step: CoreStep)
    requires Reachable(c) && Enabled(c, step)
    ensures Reachable(Step(c, step).core)
  {
    OneStep(c, step);
    hide RunsTo, Enabled, Step, Reachable;
    ReachesOn(c, [step], Step(c, step).core);
  }
}
