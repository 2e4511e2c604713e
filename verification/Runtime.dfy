/**
 The dispatcher and the executor of src/runtime.rs as a labelled transition system.
 Tasks share one single-threaded executor, so whatever lies between two awaits is one
 step; channels are bounded sequences, the cancellation signal is an option, and a task
 blocked on a send is a program point. Any well-formed request may arrive at any time;
 Session restricts arrivals to what the receiver and its stamps allow.
 */
module Runtime {
  import opened Types
  import opened Protocol
  import opened Commands
  import opened InputState
  import opened ExecutionCore
  import opened Batch
  import opened Coordinator
  import opened CoordinatorHistory
  import opened Cancellation

  const JOBS_CAPACITY := 1
  const RESULTS_CAPACITY := 2
  const BUSY_RETRY_MS := 10

  /** born counts the cancellations before the job was dispatched; nothing reads it. */
  datatype Job =
    | CommandJob(request: OwnedRequest, batch: Option<Collector>, baseline: U32, born: nat)
    | EmergencyJob

  datatype JobResult =
    | CommandDone(token: CompletionToken, response: CachedResponse, held: Held)
    | EmergencyDone(held: Held)

  datatype DispatcherPc = AtSelect | SendingJob(job: Job)

  /** A running job carries what its cancellation points have seen so far. */
  datatype ExecutorPc = Waiting | Running(job: Job, seen: seq<bool>, cancelled: bool) | Reporting(result: JobResult)

  datatype Core = Core(
    coord: CoordState,
    batch: Option<Collector>,
    shadow: Held,
    stop: StopState,
    cancels: nat,
    pc: DispatcherPc,
    jobs: seq<Job>,
    cancel: Option<U32>,
    exec: ExecutorPc,
    results: seq<JobResult>,
    held: Held,
    attempts: seq<Attempt>)

  const INITIAL_CORE := Core(INITIAL, None, IDLE, NO_STOPS, 0, AtSelect, [], None, Waiting, [], IDLE, [])

  // ---- Dispatcher ----

  /** What handling one message leaves behind, and the responses it queues, in order. */
  datatype Handled = Handled(core: Core, responses: seq<CachedResponse>)

  function TokenAck(token: CompletionToken): CachedResponse {
    AckResponse(token.version, token.sequence)
  }

  function TokenNack(token: CompletionToken, error: ErrorCode): CachedResponse {
    NackResponse(token.version, token.sequence, error)
  }

  const INFO_PAYLOAD: seq<Byte> := [2, 0, 240, 3]

  function CapabilityPayload(version: Byte): seq<Byte> {
    [2, 0, 240, 0, if version == PROTOCOL_VERSION then 127 else 15, 1, 1, 0, 8, 20]
  }

  function BypassResponse(r: OwnedRequest, token: CompletionToken): CachedResponse {
    match r.commandType
    case GetInfo => CachedResponse(token.version, token.sequence, Status, INFO_PAYLOAD)
    case GetCaps => CachedResponse(token.version, token.sequence, Status, CapabilityPayload(r.version))
    case _ => TokenAck(token)
  }

  /** A completion whose result the dispatcher ignores. */
  function CompleteOr(s: CoordState, token: CompletionToken, response: CachedResponse): CoordState {
    match Complete(s, token, response)
    case Ok(next) => next
    case Err(_) => s
  }

  /** Publishes the new generation and, unless one is already on its way, starts sending the emergency job. */
  function Emergency(c: Core, scheduled: (StopState, EmergencyAction)): Core {
    c.(stop := scheduled.0, cancels := c.cancels + 1, cancel := Some(scheduled.1.cancelGeneration),
       pc := if scheduled.1.enqueue then SendingJob(EmergencyJob) else AtSelect)
  }

  function Pushed(c: Core, q: OwnedRequest): Result<Collector, BatchError> {
    match c.batch
    case None => Err(NotBatchable)
    case Some(collector) => if q.body.Typed? then Push(collector, q.body.command) else Err(NotBatchable)
  }

  function HandleCollect(c: Core, coord: CoordState, q: OwnedRequest): Handled
    requires q.token.Some?
  {
    var token := q.token.value;
    match Pushed(c, q)
    case Ok(next) =>
      Handled(c.(coord := CompleteOr(coord, token, TokenAck(token)), batch := Some(next)), [TokenAck(token)])
    case Err(error) =>
      var response := TokenNack(token, BatchErrorCode(error));
      var aborted := c.(coord := CompleteOr(AbortBatch(coord), token, response), batch := None);
      Handled(Emergency(aborted, ScheduleEmergency(c.stop)), [response])
  }

  function Dispatch(c: Core, q: OwnedRequest, batch: Option<Collector>): Core {
    c.(pc := SendingJob(CommandJob(q, batch, c.stop.generation, c.cancels)))
  }

  function HandleExecute(c: Core, coord: CoordState, q: OwnedRequest): Handled
    requires q.token.Some?
  {
    if q.commandType != CommandType.BatchEnd then Handled(Dispatch(c.(coord := coord), q, None), [])
    else if c.batch.Some? then Handled(Dispatch(c.(coord := coord, batch := None), q, c.batch), [])
    else
      var response := TokenNack(q.token.value, ErrorCode.BatchState);
      Handled(c.(coord := CompleteOr(coord, q.token.value, response)), [response])
  }

  /** The decisions that carry a token can only be reached with one. */
  predicate HasToken(a: Admission) {
    match a
    case ExecuteRequest(q) => q.token.Some?
    case Collect(q) => q.token.Some?
    case Bypass(q) => q.token.Some?
    case Stop(q) => q.token.Some?
    case _ => true
  }

  function HandleAdmitted(c: Core, r: OwnedRequest, a: Admitted): Handled
    requires HasToken(a.admission)
  {
    var admitted := c.(coord := a.state);
    match a.admission
    case ExecuteRequest(q) => HandleExecute(c, a.state, q)
    case Collect(q) => HandleCollect(c, a.state, q)
    case Bypass(q) =>
      var response := BypassResponse(q, q.token.value);
      Handled(c.(coord := CompleteOr(a.state, q.token.value, response)), [response])
    case NoResponse(_) => Handled(admitted, [])
    case Stop(q) => Handled(Emergency(admitted.(batch := None), HandleStop(c.stop, q.token.value)), [])
    case Replay(response) => Handled(admitted, [response])
    case BusyNow(reason) => Handled(admitted, [BusyResponse(r.version, r.sequence, reason, BUSY_RETRY_MS)])
    case Immediate(response) => Handled(admitted.(batch := Some(Begin(c.shadow))), [response])
    case Reject(error) => Handled(admitted, [NackResponse(r.version, r.sequence, error)])
  }

  function AdmitRequest(c: Core, r: OwnedRequest): Admitted {
    Admit(c.coord, r, c.stop.inFlight)
  }

  function AckAll(s: CoordState, tokens: seq<CompletionToken>): (CoordState, seq<CachedResponse>)
    decreases |tokens|
  {
    if tokens == [] then (s, [])
    else
      var done := Complete(s, tokens[0], TokenAck(tokens[0]));
      var rest := AckAll(if done.Ok? then done.value else s, tokens[1..]);
      (rest.0, (if done.Ok? then [TokenAck(tokens[0])] else []) + rest.1)
  }

  function HandleResult(c: Core, result: JobResult): Handled {
    match result
    case CommandDone(token, response, held) =>
      (match Complete(c.coord, token, response)
       case Ok(next) => Handled(c.(shadow := held, coord := next), [response])
       case Err(_) => Handled(c.(shadow := held), []))
    case EmergencyDone(held) =>
      var acked := AckAll(c.coord, c.stop.pending);
      Handled(c.(shadow := held, coord := acked.0, stop := c.stop.(pending := [], inFlight := false)), acked.1)
  }

  /** A safety event: everything queued or pending belongs to a dead session. */
  function HandleSafetyEvent(c: Core): Core
    requires c.coord.session + 1 < U64_LIMIT
  {
    Emergency(c.(batch := None, coord := ClearSession(c.coord)), ScheduleEmergency(c.stop.(pending := [])))
  }

  // ---- Executor ----

  function JobOutcome(job: Job, w: World, capsLock: nat -> bool): Outcome
    requires job.CommandJob?
  {
    match job.batch
    case Some(batch) => ExecuteBatch(w, batch.commands, capsLock, 0)
    case None =>
      if job.request.body.Typed? then ExecuteSingle(w, job.request.body.command, capsLock(0))
      else Outcome(w, Some(BadCommand))
  }

  /** What a job that succeeds returns: its command's response, or that of the batch's last one. */
  function JobAnswer(job: Job): DeviceResponse
    requires job.CommandJob?
  {
    match job.batch
    case Some(batch) => BatchAnswer(batch.commands, |batch.commands|)
    case None => if job.request.body.Typed? then ResponseTo(job.request.body.command) else DeviceAck
  }

  function ExecutionResponse(token: CompletionToken, answer: DeviceResponse, failure: Option<ErrorCode>): CachedResponse {
    match failure
    case Some(error) => TokenNack(token, error)
    case None =>
      match answer
      case DeviceAck => TokenAck(token)
      case DeviceInfo => CachedResponse(token.version, token.sequence, Status, INFO_PAYLOAD)
      case DeviceCaps => CachedResponse(token.version, token.sequence, Status, CapabilityPayload(token.version))
  }

  /** The world a job runs in: whatever the hardware does, and exactly the cancellations it saw. */
  function JobWorld(c: Core, schedule: Schedule): World {
    World(schedule, c.held, c.attempts, 0, false)
  }

  ghost predicate SawExactly(o: Outcome, seen: seq<bool>) {
    o.world.checks == |seen| && forall k :: 0 <= k < |seen| ==> o.world.schedule.cancelSeen(k) == seen[k]
  }

  // ---- Steps ----

  datatype CoreStep =
    | TakeRequest(request: OwnedRequest)
    | TakeResult
    | TakeSafetyEvent
    | SendJob
    | StartJob
    | LookForCancel
    | DropStale
    | FinishCommand(schedule: Schedule, capsLock: nat -> bool)
    | FinishEmergency(schedule: Schedule)
    | ReportResult

  predicate RunningCommand(c: Core) {
    c.exec.Running? && c.exec.job.CommandJob?
  }

  ghost predicate Enabled(c: Core, step: CoreStep) {
    match step
    case TakeRequest(r) => c.pc == AtSelect && WellFormed(r) && HasToken(AdmitRequest(c, r).admission)
    case TakeResult => c.pc == AtSelect && c.results != []
    case TakeSafetyEvent => c.pc == AtSelect && c.coord.session + 1 < U64_LIMIT
    case SendJob => c.pc.SendingJob? && |c.jobs| < JOBS_CAPACITY
    case StartJob => c.exec == Waiting && c.jobs != []
    case LookForCancel => RunningCommand(c) && !c.exec.cancelled
    case DropStale => RunningCommand(c) && !c.exec.cancelled && c.cancel == Some(c.exec.job.baseline)
    case FinishCommand(schedule, capsLock) =>
      && RunningCommand(c) && c.exec.job.request.token.Some?
      && SawExactly(JobOutcome(c.exec.job, JobWorld(c, schedule), capsLock), c.exec.seen)
    case FinishEmergency(_) => c.exec.Running? && c.exec.job == EmergencyJob
    case ReportResult => c.exec.Reporting? && |c.results| < RESULTS_CAPACITY
  }

  function Look(c: Core): Core
    requires RunningCommand(c)
  {
    var changed := c.cancel.Some? && c.cancel.value != c.exec.job.baseline;
    c.(cancel := None, exec := c.exec.(seen := c.exec.seen + [changed], cancelled := changed))
  }

  function BeginJob(c: Core): Core
    requires c.jobs != []
  {
    c.(jobs := c.jobs[1..], exec := Running(c.jobs[0], [], false))
  }

  function EndJob(c: Core, o: Outcome, result: JobResult): Core {
    c.(exec := Reporting(result), held := o.world.held, attempts := o.world.attempts)
  }

  function Step(c: Core, step: CoreStep): Handled
    requires Enabled(c, step)
  {
    match step
    case TakeRequest(r) => HandleAdmitted(c, r, AdmitRequest(c, r))
    case TakeResult => HandleResult(c.(results := c.results[1..]), c.results[0])
    case TakeSafetyEvent => Handled(HandleSafetyEvent(c), [])
    case SendJob => Handled(c.(jobs := c.jobs + [c.pc.job], pc := AtSelect), [])
    case StartJob => Handled(BeginJob(c), [])
    case LookForCancel => Handled(Look(c), [])
    case DropStale => Handled(c.(cancel := None), [])
    case FinishCommand(schedule, capsLock) =>
      var o := JobOutcome(c.exec.job, JobWorld(c, schedule), capsLock);
      var token := c.exec.job.request.token.value;
      Handled(EndJob(c, o, CommandDone(token, ExecutionResponse(token, JobAnswer(c.exec.job), o.failure), o.world.held)), [])
    case FinishEmergency(schedule) =>
      var o := ResetInputs(JobWorld(c, schedule));
      Handled(EndJob(c, o, EmergencyDone(o.world.held)), [])
    case ReportResult => Handled(c.(results := c.results + [c.exec.result], exec := Waiting), [])
  }

  // ---- Runs ----

  ghost predicate RunsTo(c: Core, steps: seq<CoreStep>, end: Core)
    decreases |steps|
  {
    if steps == [] then end == c
    else Enabled(c, steps[0]) && RunsTo(Step(c, steps[0]).core, steps[1..], end)
  }

  ghost predicate Reachable(c: Core) {
    exists steps :: RunsTo(INITIAL_CORE, steps, c)
  }
}
