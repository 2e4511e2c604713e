/**
 What the pipeline invariant means for the whole firmware, in every reachable state.
 */
module Guarantees {
  import opened Types
  import opened Protocol
  import opened Commands
  import opened InputState
  import opened ExecutionCore
  import opened Batch
  import opened Coordinator
  import opened CoordinatorHistory
  import opened Cancellation
  import opened Runtime
  import opened Pipeline
  import opened Dispatcher

  lemma PipeItems(f: Flow)
    ensures |Pipe(f)| == |f.done| + |f.queue|
    ensures forall i :: 0 <= i < |f.queue| ==> Pipe(f)[|f.done| + i] == JobItem(f.queue[i])
  {
  }

  lemma ShapeOf(f: Flow)
    requires FlowInv(f)
    ensures Shape(Pipe(f), f.stop.inFlight) && OwnerInFlight(f) && Inv(f.coord)
  {
    hide Pipe, Inv, OwnerInFlight, ActiveInStep, JobsOk, StateInStep, BatchInStep, Shape;
  }

  /** At most one command and one emergency in all the places a job can be, the emergency last. */
  lemma InFlightBound(f: Flow)
    requires FlowInv(f)
    ensures |f.done| + |f.queue| <= 2
    ensures |f.done| + |f.queue| == 2 ==> f.queue == [] || f.queue[|f.queue| - 1] == EmergencyJob
    ensures !f.stop.inFlight ==> forall i :: 0 <= i < |f.queue| ==> f.queue[i].CommandJob?
  {
    hide FlowInv, Pipe, OwnerInFlight, Inv;
    ShapeOf(f);
    PipeItems(f);
  }

  /**
   Neither task can wait on the other for ever: a finished job always finds room in RESULTS, and while the
   dispatcher is stuck behind a full JOBS the executor is idle with a job to start.
   */
  lemma NoBlockedSend(c: Core)
    requires Reachable(c)
    ensures c.exec.Reporting? ==> Enabled(c, ReportResult)
    ensures c.pc.SendingJob? ==> Enabled(c, SendJob) || Enabled(c, StartJob)
    ensures |c.jobs| <= JOBS_CAPACITY && |c.results| <= RESULTS_CAPACITY
  {
    hide FlowInv, Reachable;
    ReachableFlow(c);
    InFlightBound(FlowOf(c));
    Lengths(c);
    JobsBound(c);
    hide Done, Queue;
  }

  lemma Lengths(c: Core)
    ensures |FlowOf(c).done| == |c.results| + if c.exec.Reporting? then 1 else 0
    ensures |FlowOf(c).queue| == (if c.exec.Running? then 1 else 0) + |c.jobs| + if c.pc.SendingJob? then 1 else 0
  {
  }

  lemma JobsBound(c: Core)
    requires Reachable(c)
    ensures |c.jobs| <= JOBS_CAPACITY
  {
    var steps :| RunsTo(INITIAL_CORE, steps, c);
    JobsStayBounded(INITIAL_CORE, steps, c);
  }

  lemma StepJobs(c: Core, step: CoreStep)
    requires |c.jobs| <= JOBS_CAPACITY && Enabled(c, step)
    ensures |Step(c, step).core.jobs| <= JOBS_CAPACITY
  {
    hide Admit, Complete, AckAll, JobOutcome, ResetInputs, Push, SawExactly;
  }

  lemma {:induction false} JobsStayBounded(c: Core, steps: seq<CoreStep>, end: Core)
    requires |c.jobs| <= JOBS_CAPACITY && RunsTo(c, steps, end)
    ensures |end.jobs| <= JOBS_CAPACITY
    decreases |steps|
  {
    hide Enabled, Step;
    if steps != [] {
      StepJobs(c, steps[0]);
      JobsStayBounded(Step(c, steps[0]).core, steps[1..], end);
    }
  }

  /** No admission of a well-formed request ever panics for want of a token, nor meets a missing collector. */
  lemma NoUnreachableBranch(c: Core, r: OwnedRequest)
    requires Reachable(c) && c.pc == AtSelect && WellFormed(r)
    ensures Enabled(c, TakeRequest(r))
    ensures AdmitRequest(c, r).admission.ExecuteRequest? && r.commandType == CommandType.BatchEnd ==> c.batch.Some?
  {
    ReachableFlow(c);
    RevealInv(FlowOf(c));
    AdmitFacts(c, r);
    hide FlowInv, Reachable, Admit, Inv, FlowOf;
    if AdmitRequest(c, r).admission.ExecuteRequest? {
      ExecuteFacts(c, r);
    }
  }

  /** Exclusive ownership in the coordinator is exactly a live command in the pipeline. */
  lemma OwnershipTracksPipeline(c: Core)
    requires Reachable(c)
    ensures var p := Pipe(FlowOf(c));
            && Shape(p, c.stop.inFlight)
            && (Occupied(c.coord) ==> p != [] && p[0] == Cmd(CurrentOwner(c.coord)))
            && (!c.stop.inFlight && p != [] ==> p == [Cmd(CurrentOwner(c.coord))] && Occupied(c.coord))
  {
    hide FlowInv, FlowOf, Pipe, Reachable, IsActive, CacheOk;
    ReachableFlow(c);
    ShapeOf(FlowOf(c));
    SameCoordinator(c);
  }

  lemma SameCoordinator(c: Core)
    ensures FlowOf(c).coord == c.coord && FlowOf(c).stop == c.stop
  {
  }

  // ---- STOP_ALL ----

  /**
   When an emergency result is taken, every pending STOP_ALL is acknowledged, in order; at that moment the
   real input state and the dispatcher's copy are cleared, the last two reports attempted were the zero
   ones, and no command and no other job is anywhere in the pipeline.
   */
  lemma StopAckedOnlyReleased(c: Core)
    requires Reachable(c) && Enabled(c, TakeResult) && c.results[0].EmergencyDone?
    ensures var next := Step(c, TakeResult);
            && next.responses == Acks(c.stop.pending)
            && next.core.held == next.core.shadow == IDLE && EndsReleased(next.core.attempts)
            && Queue(next.core) == [] && Done(next.core) == [] && !Occupied(next.core.coord)
            && forall t :: !IsActive(next.core.coord.cache, t)
  {
    ReachableFlow(c);
    var f, g := FlowOf(c), FlowOf(Step(c, TakeResult).core);
    assert f.done[0] == c.results[0] && f.done[1..] == g.done;
    hide FlowInv, AckAll, Reachable, Acks, EndsReleased;
    EmergencyTaken(f, g);
  }

  predicate Releases(c: Core, step: CoreStep) {
    step.TakeSafetyEvent? || (step.TakeResult? && c.results != [] && c.results[0].EmergencyDone?)
  }

  lemma PendingGrows(c: Core, step: CoreStep)
    requires Enabled(c, step) && !Releases(c, step)
    ensures c.stop.pending <= Step(c, step).core.stop.pending
  {
    hide Admit, Complete, AckAll, JobOutcome, ResetInputs, Push, SawExactly, NextGeneration, AbortBatch, WellFormed, ExecutionResponse, JobAnswer;
  }

  /**
   Nothing but the emergency's return, or a reset of the whole session, ends a pending STOP_ALL: until then
   its entry stays live, so it is neither answered nor replayed.
   */
  lemma StopsWaitForRelease(c: Core, step: CoreStep, t: CompletionToken)
    requires Reachable(c) && Enabled(c, step) && !Releases(c, step) && t in c.stop.pending
    ensures var next := Step(c, step).core;
            t in next.stop.pending && IsActive(next.coord.cache, t)
  {
    hide FlowInv, Reachable, Enabled, Step, Releases;
    ReachableFlow(c);
    StepKeeps(c, step);
    PendingGrows(c, step);
    PendingIsLive(Step(c, step).core, t);
  }

  lemma PendingIsLive(c: Core, t: CompletionToken)
    requires FlowInv(FlowOf(c)) && t in c.stop.pending
    ensures IsActive(c.coord.cache, t)
  {
    hide Pipe, IsActive, CurrentOwner, OwnerInFlight, JobsOk, StateInStep, BatchInStep, Inv;
    assert ActiveInStep(FlowOf(c));
  }

  /** Pending STOP_ALLs and the command in flight are exactly the live cache entries, and the list never overflows. */
  lemma PendingStopsAreLive(c: Core)
    requires Reachable(c)
    ensures forall t :: IsActive(c.coord.cache, t) <==> t in c.stop.pending || Some(t) == CurrentOwner(c.coord)
    ensures NoDuplicates(c.stop.pending) && |c.stop.pending| <= RESPONSE_CACHE_SIZE
    ensures c.stop.pending != [] ==> c.stop.inFlight
  {
    ReachableFlow(c);
    hide Reachable, Pipe, IsActive, CurrentOwner, OwnerInFlight, JobsOk, StateInStep, BatchInStep;
    assert ActiveInStep(FlowOf(c));
    assert |c.coord.cache| <= RESPONSE_CACHE_SIZE;
    hide Inv, CacheOk;
    DistinctFit(c.stop.pending, c.coord.cache);
  }

  /** An admitted STOP_ALL is really recorded, and the emergency that will answer it is under way. */
  lemma StopIsRecorded(c: Core, r: OwnedRequest)
    requires Reachable(c) && Enabled(c, TakeRequest(r)) && AdmitRequest(c, r).admission.Stop?
    ensures var next := Step(c, TakeRequest(r)).core;
            && next.stop.pending == c.stop.pending + [NewToken(c.coord, r)] && next.stop.inFlight
            && next.cancel == Some(NextGeneration(c.stop.generation))
  {
    hide FlowInv, Reachable, Admit, WellFormed, FlowOf;
    ReachableFlow(c);
    StopKeeps(c, r);
    StopStep(c, r);
    hide HandleAdmitted;
  }

  lemma StopStep(c: Core, r: OwnedRequest)
    requires HasToken(AdmitRequest(c, r).admission) && AdmitRequest(c, r).admission.Stop?
    ensures var next := HandleAdmitted(c, r, AdmitRequest(c, r)).core;
            next.stop.inFlight && next.cancel == Some(NextGeneration(c.stop.generation))
  {
    hide Admit;
  }

  // ---- Commands ----

  /** A command result that is still owed completes its cache entry exactly then; one from before a reset is dropped. */
  lemma CommandCompletes(c: Core)
    requires Reachable(c) && Enabled(c, TakeResult) && c.results[0].CommandDone?
    ensures var result, next := c.results[0], Step(c, TakeResult);
            && next.core.shadow == result.held
            && (if CurrentOwner(c.coord) == Some(result.token)
                then next.responses == [result.response] && IsActive(c.coord.cache, result.token)
                     && !IsActive(next.core.coord.cache, result.token)
                else next.responses == [] && next.core.coord == c.coord && c.stop.inFlight)
            && !Occupied(next.core.coord)
  {
    hide FlowInv, Complete, Reachable, Pipe, Inv, IsActive, FinalFor;
    ReachableFlow(c);
    var f, g := FlowOf(c), FlowOf(Step(c, TakeResult).core);
    var result := c.results[0];
    assert f.done[0] == result && f.done[1..] == g.done;
    ResultOwed(f);
    CommandTaken(f, g);
    CompleteOwner(c.coord, result.token, result.response);
  }

  lemma ResultOwed(f: Flow)
    requires FlowInv(f) && f.done != [] && f.done[0].CommandDone?
    ensures Inv(f.coord) && FinalFor(f.done[0].token, f.done[0].response)
    ensures if CurrentOwner(f.coord) == Some(f.done[0].token) then IsActive(f.coord.cache, f.done[0].token)
            else f.stop.inFlight && !IsActive(f.coord.cache, f.done[0].token)
  {
    assert Pipe(f)[0] == Cmd(Some(f.done[0].token)) && ResultOk(f.done[0]);
    hide Inv, Pipe, IsActive, BatchInStep, StateInStep, Shape;
  }

  lemma RunningJobOk(c: Core)
    requires FlowInv(FlowOf(c)) && RunningCommand(c)
    ensures JobOk(c.exec.job, c.held)
  {
    assert FlowOf(c).queue[0] == c.exec.job;
    hide Inv, Shape, OwnerInFlight, BatchInStep, StateInStep, ActiveInStep, JobOk, ResultOk;
  }

  /**
   A batch starts in exactly the state it was collected from, whatever happened in between; so it ends in
   the collector's shadow state, or interrupted and released, and in no other way.
   */
  lemma BatchEndsAsCollected(c: Core, schedule: Schedule, capsLock: nat -> bool)
    requires Reachable(c) && Enabled(c, FinishCommand(schedule, capsLock)) && c.exec.job.batch.Some?
    ensures var o := JobOutcome(c.exec.job, JobWorld(c, schedule), capsLock);
            if o.failure.None? then o.world.held == c.exec.job.batch.value.shadow else Interrupted(o)
  {
    hide FlowInv, Reachable, ExecuteBatch, SawExactly, Interrupted, Collected;
    ReachableFlow(c);
    RunningJobOk(c);
    BatchOutcome(JobWorld(c, schedule), c.exec.job.batch.value, capsLock);
  }

  /** A single command ends in its specified state, interrupted and released, or refused with nothing sent. */
  lemma SingleEndsAsSpecified(c: Core, schedule: Schedule, capsLock: nat -> bool)
    requires Reachable(c) && Enabled(c, FinishCommand(schedule, capsLock)) && c.exec.job.batch.None?
    ensures c.exec.job.request.body.Typed?
    ensures var o, command := JobOutcome(c.exec.job, JobWorld(c, schedule), capsLock), c.exec.job.request.body.command;
            match o.failure
            case None => o.world.held == NextHeld(command, c.held)
            case Some(error) =>
              if RequiresRelease(error) then Interrupted(o)
              else o.world.held == c.held && o.world.attempts == c.attempts && Refusal(command, c.held) == Some(error)
  {
    hide FlowInv, Reachable, ExecuteSingle, SawExactly, Interrupted, Refusal, NextHeld, WithinWaitLimit;
    ReachableFlow(c);
    RunningJobOk(c);
    SingleOutcome(JobWorld(c, schedule), c.exec.job.request.body.command, capsLock(0));
  }

  /** What a collected command may be refused for, in the state the batch has been simulated to. */
  function JoinRefusal(batch: Collector, command: OwnedCommand): Option<ErrorCode> {
    if !WithinWaitLimit(command) then Some(ErrorCode.WaitTooLong)
    else if Refusal(command, batch.shadow).Some? then Refusal(command, batch.shadow)
    else if |batch.commands| >= 32 then Some(BatchCapacity)
    else None
  }

  lemma CollectShape(c: Core, r: OwnedRequest)
    requires AdmitRequest(c, r).admission.Collect? && HasToken(AdmitRequest(c, r).admission)
    requires AdmitRequest(c, r).admission.request.token.value == NewToken(c.coord, r)
    ensures var q := AdmitRequest(c, r).admission.request;
            var handled := HandleAdmitted(c, r, AdmitRequest(c, r));
            match Pushed(c, q)
            case Ok(batch) =>
              handled.responses == [AckResponse(r.version, r.sequence)] && handled.core.batch == Some(batch) && handled.core.stop == c.stop
            case Err(error) =>
              && handled.responses == [NackResponse(r.version, r.sequence, BatchErrorCode(error))] && handled.core.batch.None?
              && handled.core.stop == ScheduleEmergency(c.stop).0 && handled.core.cancel == Some(handled.core.stop.generation)
  {
    hide Admit, CompleteOr, AbortBatch, Push;
  }

  /**
   A command sent into an open batch joins it and is acknowledged, or is refused for the one reason the simulated
   state or the count of 32 gives; then the batch is dropped, an emergency is in flight and the signal is set.
   */
  lemma CollectAnswered(c: Core, r: OwnedRequest)
    requires Reachable(c) && c.pc == AtSelect && WellFormed(r) && AdmitRequest(c, r).admission.Collect?
    ensures HasToken(AdmitRequest(c, r).admission) && c.batch.Some? && AdmitRequest(c, r).admission.request.body.Typed?
    ensures var command := AdmitRequest(c, r).admission.request.body.command;
            var handled := HandleAdmitted(c, r, AdmitRequest(c, r));
            match JoinRefusal(c.batch.value, command)
            case None =>
              && handled.responses == [AckResponse(r.version, r.sequence)] && handled.core.stop == c.stop
              && handled.core.batch.Some? && handled.core.batch.value.commands == c.batch.value.commands + [command]
              && handled.core.batch.value.shadow == NextHeld(command, c.batch.value.shadow)
            case Some(error) =>
              && handled.responses == [NackResponse(r.version, r.sequence, error)] && handled.core.batch.None?
              && handled.core.stop.inFlight && handled.core.cancel == Some(handled.core.stop.generation)
  {
    hide FlowInv, FlowOf, Reachable, Admit, WellFormed, HandleAdmitted, Decoded, Classify, Refusal, NextHeld, Validate, Inv, CompleteOr;
    ReachableFlow(c);
    RevealInv(FlowOf(c));
    SameCoordinator(c);
    AdmitBodies(c.coord, r, c.stop.inFlight);
    AdmitFacts(c, r);
    var q := AdmitRequest(c, r).admission.request;
    AckIsFinal(r, q.body, c.coord, BatchCapacity);
    CollectFacts(c, r, TokenAck(NewToken(c.coord, r)), false);
    CollectShape(c, r);
    MutatingIsBatchable(q.body);
    OpenBatch(c);
    JoinsExactly(c.shadow, c.batch.value, q.body.command);
    hide Push, NewToken, QuietChange;
  }

  lemma OpenBatch(c: Core)
    requires BatchInStep(FlowOf(c)) && c.batch.Some?
    ensures Collected(c.shadow, c.batch.value)
  {
    hide Collected;
  }

  /** update_guarded, as the lease task reads it. */
  predicate Guarded(c: Core) {
    c.shadow != IDLE || c.batch.Some? || Occupied(c.coord)
  }

  /** When no work is guarded and no emergency is under way, nothing is in flight and no input is really held. */
  lemma UnguardedIsReleased(c: Core)
    requires Reachable(c) && !Guarded(c) && !c.stop.inFlight
    ensures c.held == IDLE && Queue(c) == [] && Done(c) == []
  {
    ReachableFlow(c);
    hide FlowInv, Reachable;
    FreeMeansEmpty(FlowOf(c));
  }

  /** With no emergency under way, work is guarded exactly if input is held, a command is in flight or a batch is open. */
  lemma GuardedExactly(c: Core)
    requires Reachable(c) && !c.stop.inFlight
    ensures Guarded(c) <==> c.held != IDLE || Queue(c) != [] || Done(c) != [] || c.batch.Some?
  {
    ReachableFlow(c);
    OwnershipTracksPipeline(c);
    hide FlowInv, Reachable;
    PipeItems(FlowOf(c));
    assert FlowOf(c).done == Done(c) && FlowOf(c).queue == Queue(c);
    if CurrentOwner(c.coord).None? {
      FreeMeansEmpty(FlowOf(c));
    }
    hide Pipe, Done, Queue;
  }
}
