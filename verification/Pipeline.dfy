/**
 The pipeline between dispatcher and executor, seen as two queues: finished jobs on
 their way back and unfinished ones on their way out. Its invariant holds in every
 reachable state.
 */
module Pipeline {
  import opened Types
  import opened Commands
  import opened InputState
  import opened ExecutionCore
  import opened Batch
  import opened Coordinator
  import opened CoordinatorHistory
  import opened Cancellation
  import opened Runtime

  /** Everything but the program points, the channels and the cancellation signal. */
  datatype Flow = Flow(
    coord: CoordState,
    batch: Option<Collector>,
    shadow: Held,
    stop: StopState,
    done: seq<JobResult>,
    queue: seq<Job>,
    held: Held,
    attempts: seq<Attempt>)

  function Done(c: Core): seq<JobResult> {
    c.results + if c.exec.Reporting? then [c.exec.result] else []
  }

  function Queue(c: Core): seq<Job> {
    (if c.exec.Running? then [c.exec.job] else []) + c.jobs + (if c.pc.SendingJob? then [c.pc.job] else [])
  }

  function FlowOf(c: Core): Flow {
    Flow(c.coord, c.batch, c.shadow, c.stop, Done(c), Queue(c), c.held, c.attempts)
  }

  // ---- What is in flight ----

  datatype Item = Cmd(token: Option<CompletionToken>) | Emg

  function ResultItem(r: JobResult): Item {
    match r
    case CommandDone(token, _, _) => Cmd(Some(token))
    case EmergencyDone(_) => Emg
  }

  function JobItem(j: Job): Item {
    match j
    case CommandJob(request, _, _, _) => Cmd(request.token)
    case EmergencyJob => Emg
  }

  function Pipe(f: Flow): seq<Item> {
    seq(|f.done|, i requires 0 <= i < |f.done| => ResultItem(f.done[i]))
    + seq(|f.queue|, i requires 0 <= i < |f.queue| => JobItem(f.queue[i]))
  }

  /** At most one command, then at most one emergency, and an emergency exactly when one is in flight. */
  predicate Shape(p: seq<Item>, inFlight: bool) {
    && |p| <= 2
    && (inFlight <==> p != [] && p[|p| - 1] == Emg)
    && (|p| == 2 ==> p[0].Cmd? && p[1] == Emg)
  }

  function CurrentOwner(s: CoordState): Option<CompletionToken> {
    if s.batch.Executing? then Some(s.batch.owner) else s.owner
  }

  /** Exclusive ownership and the command in flight belong together; only a reset can part them. */
  ghost predicate OwnerInFlight(f: Flow) {
    var p := Pipe(f);
    && (CurrentOwner(f.coord).Some? ==> p != [] && p[0] == Cmd(CurrentOwner(f.coord)))
    && (p != [] && p[0].Cmd? ==>
          && p[0].token.Some?
          && p[0].token.value.admissionId < f.coord.nextId
          && (p[0].token == CurrentOwner(f.coord) || (f.stop.inFlight && !IsActive(f.coord.cache, p[0].token.value))))
  }

  /** A batch is open on both sides or on neither, and only while nothing is in flight. */
  ghost predicate BatchInStep(f: Flow) {
    && (f.coord.batch == Collecting <==> f.batch.Some?)
    && (f.batch.Some? ==> Pipe(f) == [] && Collected(f.shadow, f.batch.value))
  }

  /** A dispatched command can be completed with an ACK, and its batch was collected from the state it will start in. */
  ghost predicate JobOk(j: Job, held: Held) {
    j.CommandJob? ==>
      && j.request.token.Some? && j.request.token.value.expected == ExpectAck
      && (j.batch.Some? ==> Collected(held, j.batch.value))
      && (j.batch.None? ==> j.request.body.Typed? && Batchable(j.request.body.command) && WithinWaitLimit(j.request.body.command))
  }

  predicate FinalFor(token: CompletionToken, response: CachedResponse) {
    response.sequence == token.sequence && response.version == token.version && IsFinal(response, token.expected)
  }

  predicate ResultOk(r: JobResult) {
    r.CommandDone? ==> FinalFor(r.token, r.response)
  }

  function LastHeld(f: Flow): Held {
    if f.done == [] then f.shadow else f.done[|f.done| - 1].held
  }

  /** The newest state on its way to the dispatcher is the executor's real one. */
  ghost predicate StateInStep(f: Flow) {
    && LastHeld(f) == f.held
    && (f.done != [] && f.done[|f.done| - 1].EmergencyDone? ==> f.held == IDLE && EndsReleased(f.attempts))
  }

  ghost predicate NoDuplicates(tokens: seq<CompletionToken>) {
    forall i, j :: 0 <= i < j < |tokens| ==> tokens[i] != tokens[j]
  }

  /** Live cache entries are the pending STOP_ALLs and the command in flight, nothing else. */
  ghost predicate ActiveInStep(f: Flow) {
    && (forall t :: IsActive(f.coord.cache, t) <==> t in f.stop.pending || Some(t) == CurrentOwner(f.coord))
    && NoDuplicates(f.stop.pending)
    && (forall t :: t in f.stop.pending ==> t.expected == ExpectAck && Some(t) != CurrentOwner(f.coord))
    && (f.stop.pending != [] ==> f.stop.inFlight)
  }

  ghost predicate JobsOk(f: Flow) {
    && (forall i :: 0 <= i < |f.queue| ==> JobOk(f.queue[i], f.held))
    && (forall i :: 0 <= i < |f.done| ==> ResultOk(f.done[i]))
  }

  ghost predicate FlowInv(f: Flow) {
    && Inv(f.coord)
    && Shape(Pipe(f), f.stop.inFlight)
    && OwnerInFlight(f) && BatchInStep(f) && JobsOk(f) && StateInStep(f) && ActiveInStep(f)
  }

  // ---- Moving along the pipeline ----

  lemma PipeAppend(f: Flow, next: Flow, job: Job)
    requires next.done == f.done && next.queue == f.queue + [job]
    ensures Pipe(next) == Pipe(f) + [JobItem(job)]
  {
  }

  lemma PipeFinish(f: Flow, next: Flow, result: JobResult)
    requires f.queue != [] && next.done == f.done + [result] && next.queue == f.queue[1..]
    requires ResultItem(result) == JobItem(f.queue[0])
    ensures Pipe(next) == Pipe(f)
  {
  }

  lemma PipeTake(f: Flow, next: Flow)
    requires f.done != [] && next.done == f.done[1..] && next.queue == f.queue
    ensures Pipe(f) == [ResultItem(f.done[0])] + Pipe(next)
  {
  }

  lemma PipeEmpty(f: Flow)
    ensures Pipe(f) == [] <==> f.done == [] && f.queue == []
  {
  }

  /** Handing a job or a result from one place to the next is invisible to the pipeline. */
  lemma Handovers(c: Core, step: CoreStep)
    requires Enabled(c, step)
    requires step.SendJob? || step.StartJob? || step.LookForCancel? || step.DropStale? || step.ReportResult?
    ensures FlowOf(Step(c, step).core) == FlowOf(c)
  {
    match step
    case SendJob =>
    case StartJob => assert [c.jobs[0]] + c.jobs[1..] == c.jobs;
    case LookForCancel =>
    case DropStale =>
    case ReportResult =>
  }

  // ---- The executor finishes a job ----

  lemma SameOwnership(f: Flow, g: Flow)
    requires Pipe(g) == Pipe(f) && g.coord == f.coord && g.stop == f.stop && g.batch == f.batch
    ensures OwnerInFlight(f) ==> OwnerInFlight(g)
    ensures ActiveInStep(f) ==> ActiveInStep(g)
    ensures BatchInStep(f) && Pipe(f) != [] ==> BatchInStep(g)
  {
    hide Pipe;
  }

  lemma OnlyFirstIsCommand(f: Flow, i: nat)
    requires Shape(Pipe(f), f.stop.inFlight) && 0 < i < |f.queue|
    ensures f.queue[i] == EmergencyJob
  {
    assert Pipe(f)[|f.done| + i] == JobItem(f.queue[i]);
  }

  lemma FinishedJobs(f: Flow, g: Flow, result: JobResult)
    requires FlowInv(f) && f.queue != [] && g.done == f.done + [result] && g.queue == f.queue[1..] && ResultOk(result)
    ensures JobsOk(g)
  {
    forall i | 0 <= i < |g.queue|
      ensures JobOk(g.queue[i], g.held)
    {
      OnlyFirstIsCommand(f, i + 1);
    }
    hide ResultOk, JobOk;
  }

  lemma FinishKeeps(f: Flow, g: Flow, result: JobResult)
    requires FlowInv(f) && f.queue != []
    requires g == f.(done := f.done + [result], queue := f.queue[1..], held := result.held, attempts := g.attempts)
    requires ResultItem(result) == JobItem(f.queue[0]) && ResultOk(result)
    requires result.EmergencyDone? ==> g.held == IDLE && EndsReleased(g.attempts)
    ensures FlowInv(g)
  {
    PipeFinish(f, g, result);
    PipeEmpty(f);
    SameOwnership(f, g);
    FinishedJobs(f, g, result);
    hide Inv, Pipe, OwnerInFlight, ActiveInStep, BatchInStep, JobsOk, ResultItem, JobItem, ResultOk;
  }

  lemma ResponseIsFinal(token: CompletionToken, failure: Option<ErrorCode>)
    requires token.expected == ExpectAck
    ensures FinalFor(token, ExecutionResponse(token, DeviceAck, failure))
  {
  }

  /** Nothing that reaches the executor is a query, so success is always an ACK. */
  lemma AnswersAck(job: Job, held: Held)
    requires job.CommandJob? && JobOk(job, held)
    ensures JobAnswer(job) == DeviceAck
  {
    if job.batch.Some? && job.batch.value.commands != [] {
      var commands := job.batch.value.commands;
      assert Batchable(commands[|commands| - 1]);
    }
  }

  lemma FinishCommandKeeps(c: Core, step: CoreStep)
    requires FlowInv(FlowOf(c)) && Enabled(c, step) && step.FinishCommand?
    ensures FlowInv(FlowOf(Step(c, step).core))
  {
    var f, g := FlowOf(c), FlowOf(Step(c, step).core);
    var job := c.exec.job;
    var token := job.request.token.value;
    var o := JobOutcome(job, JobWorld(c, step.schedule), step.capsLock);
    hide JobOutcome, SawExactly, ExecutionResponse, JobAnswer;
    assert f.queue[0] == job && JobOk(job, c.held);
    AnswersAck(job, c.held);
    var result := CommandDone(token, ExecutionResponse(token, DeviceAck, o.failure), o.world.held);
    ResponseIsFinal(token, o.failure);
    assert g.queue == f.queue[1..];
    hide FlowInv;
    FinishKeeps(f, g, result);
  }

  lemma FinishEmergencyKeeps(c: Core, step: CoreStep)
    requires FlowInv(FlowOf(c)) && Enabled(c, step) && step.FinishEmergency?
    ensures FlowInv(FlowOf(Step(c, step).core))
  {
    var f, g := FlowOf(c), FlowOf(Step(c, step).core);
    ResetReleases(JobWorld(c, step.schedule));
    hide ResetInputs, EndsReleased;
    var result := EmergencyDone(g.held);
    assert g.queue == f.queue[1..];
    hide FlowInv;
    FinishKeeps(f, g, result);
  }

  // ---- The dispatcher takes a result ----

  /** Completing the owner releases it; completing anything else changes nothing. */
  lemma CompleteOwner(s: CoordState, token: CompletionToken, response: CachedResponse)
    requires Inv(s) && FinalFor(token, response)
    ensures IsActive(s.cache, token) <==> Complete(s, token, response).Ok?
    ensures Complete(s, token, response).Ok? ==>
              var next := Complete(s, token, response).value;
              && Inv(next) && next.nextId == s.nextId && next.session == s.session
              && CurrentOwner(next) == (if CurrentOwner(s) == Some(token) then None else CurrentOwner(s))
              && (next.batch == Collecting <==> s.batch == Collecting)
              && forall t :: IsActive(next.cache, t) <==> IsActive(s.cache, t) && t != token
  {
    CompleteSucceeds(s, token, response);
    if Complete(s, token, response).Ok? {
      CompleteKeepsInv(s, token, response);
      var at := CompleteEffect(s, token, response);
    }
  }

  lemma TakenShape(f: Flow, g: Flow)
    requires FlowInv(f) && f.done != [] && f.done[0].CommandDone?
    requires g.done == f.done[1..] && g.queue == f.queue && g.stop == f.stop
    ensures Shape(Pipe(g), g.stop.inFlight) && Pipe(f)[0] == Cmd(Some(f.done[0].token))
    ensures Pipe(g) == [] || Pipe(g) == [Emg]
  {
    PipeTake(f, g);
    hide Pipe;
    assert Pipe(g) == Pipe(f)[1..];
  }

  lemma CommandTaken(f: Flow, g: Flow)
    requires FlowInv(f) && f.done != [] && f.done[0].CommandDone?
    requires var result := f.done[0];
             g == f.(done := f.done[1..], shadow := result.held,
                     coord := CompleteOr(f.coord, result.token, result.response))
    ensures FlowInv(g)
    ensures CurrentOwner(f.coord) == Some(f.done[0].token) ==> Complete(f.coord, f.done[0].token, f.done[0].response).Ok?
    ensures CurrentOwner(g.coord) == None
  {
    var token, response := f.done[0].token, f.done[0].response;
    TakenShape(f, g);
    CompleteOwner(f.coord, token, response);
    PipeEmpty(f);
    TakenKeepsJobs(f, g);
    TakenKeepsState(f, g);
    hide Inv, Pipe, Shape, Complete, JobsOk, StateInStep, IsActive;
    assert BatchInStep(g);
    assert OwnerInFlight(g);
    assert ActiveInStep(g);
  }

  lemma TakenKeepsJobs(f: Flow, g: Flow)
    requires JobsOk(f) && f.done != [] && g.done == f.done[1..] && g.queue == f.queue && g.held == f.held
    ensures JobsOk(g)
  {
    hide JobOk, ResultOk;
  }

  lemma TakenKeepsState(f: Flow, g: Flow)
    requires StateInStep(f) && f.done != [] && g.done == f.done[1..] && g.shadow == f.done[0].held
    requires g.held == f.held && g.attempts == f.attempts
    ensures StateInStep(g)
  {
    hide EndsReleased;
  }

  function Acks(tokens: seq<CompletionToken>): seq<CachedResponse> {
    seq(|tokens|, i requires 0 <= i < |tokens| => TokenAck(tokens[i]))
  }

  lemma AcksCons(tokens: seq<CompletionToken>)
    requires tokens != []
    ensures Acks(tokens) == [TokenAck(tokens[0])] + Acks(tokens[1..])
  {
  }

  ghost predicate AckedState(s: CoordState, tokens: seq<CompletionToken>, next: CoordState) {
    && Inv(next) && next.nextId == s.nextId && CurrentOwner(next) == CurrentOwner(s)
    && (next.batch == Collecting <==> s.batch == Collecting)
    && forall t :: IsActive(next.cache, t) <==> IsActive(s.cache, t) && t !in tokens
  }

  /** Distinct live tokens that expect an ACK are all acknowledged, in order, and only they are. */
  lemma {:induction false} AckAllCompletes(s: CoordState, tokens: seq<CompletionToken>)
    requires Inv(s) && NoDuplicates(tokens)
    requires forall t :: t in tokens ==> IsActive(s.cache, t) && t.expected == ExpectAck && Some(t) != CurrentOwner(s)
    ensures AckedState(s, tokens, AckAll(s, tokens).0) && AckAll(s, tokens).1 == Acks(tokens)
    decreases |tokens|
  {
    if tokens != [] {
      var token, rest := tokens[0], tokens[1..];
      CompleteOwner(s, token, TokenAck(token));
      AcksCons(tokens);
      hide Inv, Complete, Acks, CurrentOwner;
      assert tokens == [token] + rest;
      assert token !in rest;
      var next := Complete(s, token, TokenAck(token)).value;
      AckAllCompletes(next, rest);
    }
  }

  /**
   An emergency comes back: every pending STOP_ALL is acknowledged in order, at a moment when the real
   input state is cleared, the two zero reports were the last thing attempted, and nothing is in flight.
   */
  lemma EmergencyTaken(f: Flow, g: Flow)
    requires FlowInv(f) && f.done != [] && f.done[0].EmergencyDone?
    requires g == f.(done := f.done[1..], shadow := f.done[0].held, coord := AckAll(f.coord, f.stop.pending).0,
                     stop := f.stop.(pending := [], inFlight := false))
    ensures FlowInv(g)
    ensures AckAll(f.coord, f.stop.pending).1 == Acks(f.stop.pending)
    ensures g.held == g.shadow == IDLE && EndsReleased(g.attempts)
    ensures g.done == [] && g.queue == [] && CurrentOwner(g.coord) == None
    ensures forall t :: !IsActive(g.coord.cache, t)
  {
    EmergencyIsLast(f);
    AckAllCompletes(f.coord, f.stop.pending);
    PipeEmpty(g);
    PipeEmpty(f);
    hide Inv, Pipe, Acks, EndsReleased, JobOk, AckAll;
    assert StateInStep(g);
    assert BatchInStep(g);
    assert ActiveInStep(g);
  }

  lemma EmergencyIsLast(f: Flow)
    requires FlowInv(f) && f.done != [] && f.done[0].EmergencyDone?
    ensures |f.done| == 1 && f.queue == [] && CurrentOwner(f.coord) == None && f.stop.inFlight
  {
    var p := Pipe(f);
    assert p[0] == ResultItem(f.done[0]) == Emg;
    assert |p| == |f.done| + |f.queue|;
  }

  lemma TakeResultKeeps(c: Core, step: CoreStep)
    requires FlowInv(FlowOf(c)) && Enabled(c, step) && step.TakeResult?
    ensures FlowInv(FlowOf(Step(c, step).core))
  {
    var f, g := FlowOf(c), FlowOf(Step(c, step).core);
    assert f.done[0] == c.results[0] && f.done[1..] == g.done;
    match c.results[0]
    case CommandDone(token, response, held) =>
      assert g == f.(done := f.done[1..], shadow := held, coord := CompleteOr(f.coord, token, response));
      hide FlowInv, Complete;
      CommandTaken(f, g);
    case EmergencyDone(held) =>
      assert g == f.(done := f.done[1..], shadow := held, coord := AckAll(f.coord, f.stop.pending).0,
                     stop := f.stop.(pending := [], inFlight := false));
      hide FlowInv, AckAll;
      EmergencyTaken(f, g);
  }
}
