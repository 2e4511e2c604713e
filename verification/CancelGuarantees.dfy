/**
 No false and no lost cancellation: a job is cancelled only by an emergency scheduled
 after its dispatch, and once there is one its next look at the signal sees it.
 */
module CancelGuarantees {
  import opened Types
  import opened Commands
  import opened InputState
  import opened ExecutionCore
  import opened Batch
  import opened Coordinator
  import opened Cancellation
  import opened Runtime
  import opened Pipeline
  import opened Dispatcher
  import opened Guarantees

  // ---- What a job's outcome says about what it saw ----

  /** The points looked at between two worlds: all but the last saw nothing, and the job is cancelled iff the last one did. */
  ghost predicate Looked(w: World, after: World) {
    && after.schedule == w.schedule && w.checks <= after.checks
    && (forall k :: w.checks <= k < after.checks - 1 ==> !w.schedule.cancelSeen(k))
    && (after.cancelled <==> w.checks < after.checks && w.schedule.cancelSeen(after.checks - 1))
  }

  /** A cancelled outcome looked, saw, and ended there. */
  ghost predicate Honest(w: World, o: Outcome) {
    Looked(w, o.world) && (o.world.cancelled <==> o.failure == Some(Cancelled))
  }

  predicate NoFakes(script: seq<Action>) {
    Refuse(Cancelled) !in script
  }

  lemma PerformHonest(w: World, action: Action)
    requires !w.cancelled && action != Refuse(Cancelled)
    ensures Honest(w, Perform(w, action))
  {
  }

  lemma LookedTwice(a: World, b: World, c: World)
    requires Looked(a, b) && Looked(b, c) && !b.cancelled
    ensures Looked(a, c)
  {
  }

  lemma {:induction false} RunHonest(w: World, script: seq<Action>)
    requires !w.cancelled && NoFakes(script)
    ensures Honest(w, Run(w, script))
    decreases |script|
  {
    if script != [] {
      assert script[0] in script;
      PerformHonest(w, script[0]);
      hide Perform;
      var first := Perform(w, script[0]);
      if first.failure.None? {
        assert forall a :: a in script[1..] ==> a in script;
        RunHonest(first.world, script[1..]);
        LookedTwice(w, first.world, Run(first.world, script[1..]).world);
      }
    }
  }

  lemma RefusingScript(error: ErrorCode)
    requires error != Cancelled
    ensures NoFakes([Check] + [Refuse(error)] + [Check])
  {
  }

  lemma UnrefusingScript(script: seq<Action>)
    requires !Refuses(script)
    ensures NoFakes(script)
  {
  }

  lemma ScriptHasNoFakes(command: Command, held: Held, capsLock: bool)
    ensures NoFakes(Script(command, held, capsLock))
  {
    RefusalKinds(command, held);
    BodyMeaning(command, held, capsLock);
    if Refusal(command, held).Some? {
      RefusingScript(Refusal(command, held).value);
      hide Body, Refusal;
    } else {
      ScriptMeaning(command, held, capsLock);
      UnrefusingScript(Script(command, held, capsLock));
    }
  }

  lemma OnceHonest(w: World, command: Command, capsLock: bool)
    requires !w.cancelled
    ensures Honest(w, ExecuteOnce(w, command, capsLock))
  {
    ScriptHasNoFakes(command, w.held, capsLock);
    hide Script, Run;
    RunHonest(w, Script(command, w.held, capsLock));
  }

  lemma ResetLooksAtNothing(w: World)
    ensures ResetInputs(w).world.schedule == w.schedule && ResetInputs(w).world.checks == w.checks
    ensures ResetInputs(w).world.cancelled == w.cancelled
  {
  }

  lemma SingleHonest(w: World, command: OwnedCommand, capsLock: bool)
    requires !w.cancelled && WithinWaitLimit(command)
    ensures Honest(w, ExecuteSingle(w, command, capsLock))
  {
    StoredSurvives(w, command, capsLock);
    OnceHonest(w, command, capsLock);
    ResetLooksAtNothing(ExecuteOnce(w, command, capsLock).world);
    hide ExecuteSingle, ExecuteOnce, ResetInputs;
  }

  lemma StoredStep(w: World, commands: seq<OwnedCommand>, to: Held, capsLock: bool)
    requires !w.cancelled && commands != [] && Predicts(w.held, commands, to)
    ensures var o := ExecuteStored(w, commands[0], capsLock);
            Honest(w, o) && (o.failure.None? ==> !o.world.cancelled && Predicts(o.world.held, commands[1..], to))
  {
    StoredSurvives(w, commands[0], capsLock);
    OnceHonest(w, commands[0], capsLock);
    OnceEnds(w, commands[0], capsLock);
    hide ExecuteStored, ExecuteOnce, Refusal, NextHeld, Script, Looked;
  }

  lemma HonestAfterReset(w: World, o: Outcome)
    requires Honest(w, o)
    ensures Honest(w, Outcome(ResetInputs(o.world).world, o.failure))
  {
    ResetLooksAtNothing(o.world);
    hide ResetInputs;
  }

  lemma HonestTwice(w: World, mid: Outcome, o: Outcome)
    requires Honest(w, mid) && Honest(mid.world, o) && !mid.world.cancelled
    ensures Honest(w, o)
  {
    LookedTwice(w, mid.world, o.world);
    hide Looked;
  }

  lemma {:induction false} BatchHonest(w: World, commands: seq<OwnedCommand>, to: Held, capsLock: nat -> bool, k: nat)
    requires !w.cancelled && k <= |commands| && Predicts(w.held, commands[k..], to)
    ensures Honest(w, ExecuteBatch(w, commands, capsLock, k))
    decreases |commands| - k
  {
    if k < |commands| {
      assert commands[k..][0] == commands[k] && commands[k..][1..] == commands[k + 1..];
      hide ExecuteStored, ResetInputs, Predicts, Honest;
      StoredStep(w, commands[k..], to, capsLock(k));
      var o := ExecuteStored(w, commands[k], capsLock(k));
      if o.failure.Some? {
        HonestAfterReset(w, o);
      } else {
        BatchHonest(o.world, commands, to, capsLock, k + 1);
        HonestTwice(w, o, ExecuteBatch(o.world, commands, capsLock, k + 1));
      }
    }
  }

  lemma JobHonest(c: Core, schedule: Schedule, capsLock: nat -> bool)
    requires RunningCommand(c) && JobOk(c.exec.job, c.held)
    ensures Honest(JobWorld(c, schedule), JobOutcome(c.exec.job, JobWorld(c, schedule), capsLock))
  {
    var w := JobWorld(c, schedule);
    match c.exec.job.batch
    case Some(batch) =>
      hide ExecuteBatch, Honest, ExecuteSingle;
      assert batch.commands[0..] == batch.commands;
      BatchHonest(w, batch.commands, batch.shadow, capsLock, 0);
    case None =>
      hide ExecuteBatch, Honest, ExecuteSingle;
      SingleHonest(w, c.exec.job.request.body.command, capsLock(0));
  }

  // ---- The signal and the jobs that read it ----

  /** The signal holds nothing or the newest generation; the generation counts the cancellations. */
  predicate SignalFresh(c: Core) {
    && c.stop.generation == Generation(c.cancels)
    && (c.cancel.Some? ==> c.cancel.value == c.stop.generation)
  }

  predicate Blind(c: Core) {
    !(RunningCommand(c) && c.exec.cancelled)
  }

  /** A job knows the generation it was dispatched under, and a later one is either seen or still in the signal. */
  predicate JobInformed(c: Core, job: Job) {
    job.CommandJob? ==>
      && job.born <= c.cancels && job.baseline == Generation(job.born)
      && (Blind(c) && job.born < c.cancels < job.born + GENERATIONS ==> c.cancel == Some(c.stop.generation))
  }

  predicate SeenOk(c: Core) {
    RunningCommand(c) ==>
      && (c.exec.cancelled ==> c.exec.job.born < c.cancels)
      && (c.exec.cancelled <==> c.exec.seen != [] && c.exec.seen[|c.exec.seen| - 1])
      && (forall k :: 0 <= k < |c.exec.seen| - 1 ==> !c.exec.seen[k])
  }

  ghost predicate CancelInv(c: Core) {
    && SignalFresh(c) && SeenOk(c)
    && forall i :: 0 <= i < |Queue(c)| ==> JobInformed(c, Queue(c)[i])
  }

  lemma OthersAreEmergencies(c: Core)
    requires FlowInv(FlowOf(c))
    ensures forall i :: 0 < i < |Queue(c)| ==> Queue(c)[i] == EmergencyJob
  {
    forall i | 0 < i < |Queue(c)|
      ensures Queue(c)[i] == EmergencyJob
    {
      OnlyFirstIsCommand(FlowOf(c), i);
    }
  }

  /** The signal and the running job, as the class in Cancellation sees them. */
  function WatchOf(c: Core): Watch
    requires RunningCommand(c)
  {
    Watch(c.cancel, Observation(c.exec.job.baseline, c.exec.cancelled))
  }

  /** One look of a running job is one check of its wait object, and dropping a stale value is one that sees nothing. */
  lemma LookIsCheck(c: Core)
    requires RunningCommand(c) && !c.exec.cancelled
    ensures WatchOf(Look(c)) == CheckOnce(WatchOf(c))
    ensures c.cancel == Some(c.exec.job.baseline) <==> Enabled(c, DropStale)
    ensures Enabled(c, DropStale) ==>
              && RunningCommand(Step(c, DropStale).core) && WatchOf(Step(c, DropStale).core) == CheckOnce(WatchOf(c))
              && !CheckOnce(WatchOf(c)).seen.cancelled
  {
  }

  lemma LookKeeps(c: Core)
    requires FlowInv(FlowOf(c)) && CancelInv(c) && RunningCommand(c) && !c.exec.cancelled
    ensures CancelInv(Look(c))
    ensures c.exec.job.born < c.cancels < c.exec.job.born + GENERATIONS ==> Look(c).exec.cancelled
    ensures Look(c).exec.cancelled ==> c.exec.job.born < c.cancels
  {
    hide FlowInv, FlowOf, Generation;
    var job := c.exec.job;
    assert Queue(c)[0] == job && JobInformed(c, job);
    if c.cancels < job.born + GENERATIONS {
      GenerationsDistinct(job.born, c.cancels);
    }
    OthersAreEmergencies(c);
    var next := Look(c);
    assert Queue(next) == Queue(c);
  }

  lemma DropKeeps(c: Core)
    requires CancelInv(c) && RunningCommand(c) && !c.exec.cancelled && c.cancel == Some(c.exec.job.baseline)
    requires FlowInv(FlowOf(c))
    ensures CancelInv(c.(cancel := None))
  {
    var job := c.exec.job;
    assert Queue(c)[0] == job && JobInformed(c, job);
    if c.cancels < job.born + GENERATIONS {
      GenerationsDistinct(job.born, c.cancels);
    }
    hide Generation;
    OthersAreEmergencies(c);
    hide FlowInv;
    var next := c.(cancel := None);
    assert Queue(next) == Queue(c);
  }

  /** What the dispatcher can do to generations, signal and jobs while handling one message. */
  ghost predicate Handles(c: Core, next: Core) {
    && next.exec == c.exec && next.jobs == c.jobs
    && if next.cancels != c.cancels then
         && next.cancels == c.cancels + 1 && next.stop.generation == NextGeneration(c.stop.generation)
         && next.cancel == Some(next.stop.generation) && next.pc in {AtSelect, SendingJob(EmergencyJob)}
       else
         && next.stop.generation == c.stop.generation && next.cancel == c.cancel
         && (next.pc == AtSelect
             || (next.pc.SendingJob? && next.pc.job.CommandJob? && next.pc.job.baseline == c.stop.generation && next.pc.job.born == c.cancels))
  }

  lemma HandlersHandle(c: Core, step: CoreStep)
    requires Enabled(c, step) && (step.TakeRequest? || step.TakeResult? || step.TakeSafetyEvent?)
    ensures Handles(c, Step(c, step).core)
  {
    hide Admit, Complete, AckAll, Push, NextGeneration, AbortBatch, WellFormed, ClearSession;
  }

  lemma HandlingKeeps(c: Core, next: Core)
    requires CancelInv(c) && c.pc == AtSelect && Handles(c, next)
    ensures CancelInv(next)
  {
    GenerationAdvances(c.cancels);
    hide Generation, NextGeneration;
    assert Queue(next) == Queue(c) + if next.pc.SendingJob? then [next.pc.job] else [];
    forall i | 0 <= i < |Queue(next)|
      ensures JobInformed(next, Queue(next)[i])
    {
      if i < |Queue(c)| {
        assert JobInformed(c, Queue(c)[i]);
      }
    }
  }

  lemma EndInforms(c: Core, o: Outcome, result: JobResult)
    requires CancelInv(c) && FlowInv(FlowOf(c)) && c.exec.Running?
    ensures CancelInv(EndJob(c, o, result))
  {
    OthersAreEmergencies(c);
    var next := EndJob(c, o, result);
    assert Queue(next) == Queue(c)[1..];
    hide FlowInv, Queue, Generation;
  }

  lemma FinishInforms(c: Core, step: CoreStep)
    requires CancelInv(c) && FlowInv(FlowOf(c)) && Enabled(c, step) && (step.FinishCommand? || step.FinishEmergency?)
    ensures CancelInv(Step(c, step).core)
  {
    hide FlowInv, JobOutcome, SawExactly, ResetInputs, CancelInv, FlowOf, ExecutionResponse, JobAnswer;
    match step
    case FinishCommand(schedule, capsLock) =>
      var o := JobOutcome(c.exec.job, JobWorld(c, schedule), capsLock);
      var token := c.exec.job.request.token.value;
      EndInforms(c, o, CommandDone(token, ExecutionResponse(token, JobAnswer(c.exec.job), o.failure), o.world.held));
    case FinishEmergency(schedule) =>
      var o := ResetInputs(JobWorld(c, schedule));
      EndInforms(c, o, EmergencyDone(o.world.held));
  }

  lemma HandoverInforms(c: Core, step: CoreStep)
    requires CancelInv(c) && Enabled(c, step) && (step.SendJob? || step.StartJob? || step.ReportResult?)
    ensures CancelInv(Step(c, step).core)
  {
    Handovers(c, step);
    var next := Step(c, step).core;
    assert Queue(next) == FlowOf(next).queue == FlowOf(c).queue == Queue(c);
    hide FlowOf, Queue, Generation;
    forall i | 0 <= i < |Queue(next)|
      ensures JobInformed(next, Queue(next)[i])
    {
      assert JobInformed(c, Queue(c)[i]);
    }
  }

  lemma CancelStepKeeps(c: Core, step: CoreStep)
    requires FlowInv(FlowOf(c)) && CancelInv(c) && Enabled(c, step)
    ensures CancelInv(Step(c, step).core)
  {
    hide FlowInv, FlowOf, CancelInv, Handles, HandleAdmitted, HandleResult, HandleSafetyEvent, JobOutcome, SawExactly, ResetInputs, WellFormed, AdmitRequest, Look;
    match step
    case LookForCancel => LookKeeps(c);
    case DropStale => DropKeeps(c);
    case FinishCommand(_, _) => FinishInforms(c, step);
    case FinishEmergency(_) => FinishInforms(c, step);
    case SendJob => HandoverInforms(c, step);
    case StartJob => HandoverInforms(c, step);
    case ReportResult => HandoverInforms(c, step);
    case _ =>
      HandlersHandle(c, step);
      HandlingKeeps(c, Step(c, step).core);
  }

  lemma {:induction false} RunsInform(c: Core, steps: seq<CoreStep>, end: Core)
    requires FlowInv(FlowOf(c)) && CancelInv(c) && RunsTo(c, steps, end)
    ensures CancelInv(end)
    decreases |steps|
  {
    hide FlowInv, FlowOf, CancelInv, Enabled, Step;
    if steps != [] {
      StepKeeps(c, steps[0]);
      CancelStepKeeps(c, steps[0]);
      RunsInform(Step(c, steps[0]).core, steps[1..], end);
    }
  }

  lemma InitialCancel()
    ensures CancelInv(INITIAL_CORE)
  {
    GenerationAdvances(0);
    assert Queue(INITIAL_CORE) == [];
    hide Generation, INITIAL;
  }

  lemma ReachableCancel(c: Core)
    requires Reachable(c)
    ensures CancelInv(c)
  {
    hide FlowInv, FlowOf, CancelInv, RunsTo;
    InitialFlow();
    InitialCancel();
    var steps :| RunsTo(INITIAL_CORE, steps, c);
    RunsInform(INITIAL_CORE, steps, c);
  }

  /**
   No false cancellation, with no assumption at all: a job that comes back cancelled saw a generation
   published after its dispatch, so some emergency was scheduled after it. And it comes back cancelled
   exactly when one of its cancellation points saw that.
   */
  lemma NoFalseCancellation(c: Core, schedule: Schedule, capsLock: nat -> bool)
    requires Reachable(c) && Enabled(c, FinishCommand(schedule, capsLock))
    ensures var o := JobOutcome(c.exec.job, JobWorld(c, schedule), capsLock);
            && (o.failure == Some(Cancelled) <==> c.exec.cancelled)
            && (o.failure == Some(Cancelled) ==> c.exec.job.born < c.cancels)
  {
    hide FlowInv, FlowOf, Reachable, JobOutcome;
    ReachableFlow(c);
    RunningJobOk(c);
    ReachableCancel(c);
    JobHonest(c, schedule, capsLock);
    assert SeenOk(c);
    hide CancelInv, JobOk;
  }

  lemma SignalDooms(c: Core)
    requires CancelInv(c) && RunningCommand(c) && c.exec.job.born < c.cancels < c.exec.job.born + GENERATIONS
    ensures Doomed(WatchOf(c))
  {
    assert Queue(c)[0] == c.exec.job && JobInformed(c, c.exec.job);
    GenerationsDistinct(c.exec.job.born, c.cancels);
    hide Generation;
  }

  /**
   While nothing has been scheduled since its dispatch, no look of a running job and no interleaving of a
   delay fails, whatever stale copies of its own generation turn up.
   */
  lemma UndisturbedUntilScheduled(c: Core, events: seq<WaitEvent>)
    requires Reachable(c) && RunningCommand(c) && c.exec.job.born == c.cancels
    requires PublishesOnly(events, {c.exec.job.baseline})
    ensures !c.exec.cancelled && !CheckOnce(WatchOf(c)).seen.cancelled && !DelayWatch(WatchOf(c), events).seen.cancelled
  {
    hide FlowInv, FlowOf, Reachable, DelayWatch;
    ReachableCancel(c);
    assert Queue(c)[0] == c.exec.job && JobInformed(c, c.exec.job);
    hide CancelInv, Generation;
    BaselineNeverCancels(WatchOf(c), events);
  }

  /**
   No lost cancellation: once an emergency has been scheduled after a job's dispatch, and until the
   generation has gone full circle, the job is already cancelled or its next look at the signal cancels it.
   */
  lemma NoLostCancellation(c: Core)
    requires Reachable(c) && RunningCommand(c)
    requires c.exec.job.born < c.cancels < c.exec.job.born + GENERATIONS
    ensures c.exec.cancelled || (Enabled(c, LookForCancel) && Step(c, LookForCancel).core.exec.cancelled && !Enabled(c, DropStale))
    ensures CheckOnce(WatchOf(c)).seen.cancelled
    ensures forall events :: PublishesOthers(events, c.exec.job.baseline) ==> DelayWatch(WatchOf(c), events).seen.cancelled
  {
    hide FlowInv, FlowOf, Reachable, DelayWatch;
    ReachableFlow(c);
    ReachableCancel(c);
    assert Doomed(WatchOf(c)) by {
      SignalDooms(c);
    }
    forall events | PublishesOthers(events, c.exec.job.baseline)
      ensures DelayWatch(WatchOf(c), events).seen.cancelled
    {
      OthersAlwaysCancel(WatchOf(c), events);
    }
    OthersAlwaysCancel(WatchOf(c), []);
    if !c.exec.cancelled {
      LookKeeps(c);
      GenerationsDistinct(c.exec.job.born, c.cancels);
      assert Queue(c)[0] == c.exec.job && JobInformed(c, c.exec.job);
      hide Generation;
    }
  }
}
