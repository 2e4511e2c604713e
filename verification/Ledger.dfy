/**
 A record of every run of dispatcher and executor: which requests were accepted for
 what, which commands each started job carried, and how each job ended. No step reads
 it. Over every run, resets included, nothing is started or ended twice.
 */
module Ledger {
  import opened Types
  import opened Protocol
  import opened Commands
  import opened InputState
  import opened ExecutionCore
  import opened Batch
  import opened Coordinator
  import opened CoordinatorHistory
  import opened Cancellation
  import opened Runtime
  import opened Pipeline
  import opened Dispatcher

  /** What an accepted request is in for. */
  datatype Purpose =
    | RunsAlone
    | RunsBatch
    | Joins
    | TurnedAway
    | Answers
    | Opens
    | Stops

  datatype Acceptance = Acceptance(token: CompletionToken, purpose: Purpose)

  /** One command to execute, and the request it came with. */
  datatype Member = Member(token: CompletionToken, command: OwnedCommand)

  datatype Start = Start(token: CompletionToken, members: seq<Member>)

  datatype End = End(token: CompletionToken, failure: Option<ErrorCode>)

  /** gathered is what the open batch holds; loaded is what the dispatched and not yet started job carries. */
  datatype Ledger = Ledger(
    accepted: seq<Acceptance>,
    gathered: seq<Member>,
    loaded: seq<Member>,
    starts: seq<Start>,
    ends: seq<End>)

  const BLANK := Ledger([], [], [], [], [])

  function Accept(l: Ledger, token: CompletionToken, purpose: Purpose): Ledger {
    l.(accepted := l.accepted + [Acceptance(token, purpose)])
  }

  function RecordExecute(l: Ledger, c: Core, q: OwnedRequest): Ledger
    requires q.token.Some?
  {
    var token := q.token.value;
    if q.commandType != CommandType.BatchEnd then
      Accept(l, token, RunsAlone).(loaded := if q.body.Typed? then [Member(token, q.body.command)] else [])
    else if c.batch.Some? then Accept(l, token, RunsBatch).(loaded := l.gathered, gathered := [])
    else Accept(l, token, TurnedAway)
  }

  function RecordCollect(l: Ledger, c: Core, q: OwnedRequest): Ledger
    requires q.token.Some?
  {
    var token := q.token.value;
    if Pushed(c, q).Ok? then Accept(l, token, Joins).(gathered := l.gathered + [Member(token, q.body.command)])
    else Accept(l, token, TurnedAway).(gathered := [])
  }

  function RecordRequest(l: Ledger, c: Core, r: OwnedRequest): Ledger
    requires HasToken(AdmitRequest(c, r).admission)
  {
    match AdmitRequest(c, r).admission
    case ExecuteRequest(q) => RecordExecute(l, c, q)
    case Collect(q) => RecordCollect(l, c, q)
    case Bypass(q) => Accept(l, q.token.value, Answers)
    case Stop(q) => Accept(l, q.token.value, Stops).(gathered := [])
    case Immediate(_) => Accept(l, NewToken(c.coord, r), Opens).(gathered := [])
    case _ => l
  }

  function RecordStart(l: Ledger, job: Job): Ledger {
    if job.CommandJob? && job.request.token.Some? then
      l.(starts := l.starts + [Start(job.request.token.value, l.loaded)], loaded := [])
    else l
  }

  function Record(l: Ledger, c: Core, step: CoreStep): Ledger
    requires Enabled(c, step)
  {
    match step
    case TakeRequest(r) => RecordRequest(l, c, r)
    case TakeSafetyEvent => l.(gathered := [])
    case StartJob => RecordStart(l, c.jobs[0])
    case FinishCommand(schedule, capsLock) =>
      var failure := JobOutcome(c.exec.job, JobWorld(c, schedule), capsLock).failure;
      l.(ends := l.ends + [End(c.exec.job.request.token.value, failure)])
    case _ => l
  }

  /** The ledger of a whole run. */
  function RecordAll(l: Ledger, c: Core, steps: seq<CoreStep>, end: Core): Ledger
    requires RunsTo(c, steps, end)
    decreases |steps|
  {
    if steps == [] then l else RecordAll(Record(l, c, steps[0]), Step(c, steps[0]).core, steps[1..], end)
  }

  // ---- Order ----

  /** Identifiers strictly increase along the sequence and stay below the bound. */
  ghost predicate Ascending<T(!new)>(items: seq<T>, id: T -> nat, bound: nat) {
    && (forall i :: 0 <= i < |items| ==> id(items[i]) < bound)
    && (forall i, j :: 0 <= i < j < |items| ==> id(items[i]) < id(items[j]))
  }

  lemma AscendAppend<T(!new)>(items: seq<T>, item: T, id: T -> nat, bound: nat)
    requires Ascending(items, id, bound) && id(item) == bound
    ensures Ascending(items + [item], id, bound + 1)
  {
  }

  lemma AscendPrefix<T(!new)>(items: seq<T>, more: seq<T>, id: T -> nat, bound: nat)
    requires Ascending(items + more, id, bound)
    ensures Ascending(items, id, bound)
  {
    var all := items + more;
    assert forall i :: 0 <= i < |items| ==> all[i] == items[i];
  }

  lemma AscendBound<T(!new)>(items: seq<T>, id: T -> nat, bound: nat, larger: nat)
    requires Ascending(items, id, bound) && bound <= larger
    ensures Ascending(items, id, larger)
  {
  }

  function MemberId(m: Member): nat {
    m.token.admissionId
  }

  function StartId(s: Start): nat {
    s.token.admissionId
  }

  function AcceptanceId(a: Acceptance): nat {
    a.token.admissionId
  }

  /** Every command of every started job, in order. */
  function Carried(starts: seq<Start>): seq<Member> {
    if starts == [] then [] else Carried(starts[..|starts| - 1]) + starts[|starts| - 1].members
  }

  lemma CarriedAppend(starts: seq<Start>, s: Start)
    ensures Carried(starts + [s]) == Carried(starts) + s.members
  {
    assert (starts + [s])[..|starts|] == starts;
  }

  function AllMembers(l: Ledger): seq<Member> {
    Carried(l.starts) + l.loaded + l.gathered
  }

  // ---- Invariant ----

  /** The command that is dispatched but not started, if there is one. */
  function Unstarted(c: Core): Option<Job> {
    if c.exec.Running? || Queue(c) == [] || !Queue(c)[0].CommandJob? then None else Some(Queue(c)[0])
  }

  /** Requests, jobs and the commands they carry are all in order of acceptance. */
  ghost predicate InOrder(c: Core, l: Ledger) {
    && Ascending(l.accepted, AcceptanceId, c.coord.nextId)
    && Ascending(AllMembers(l), MemberId, c.coord.nextId)
    && Ascending(l.starts, StartId, c.coord.nextId)
  }

  /** The unstarted job comes after everything started. */
  ghost predicate NextUp(c: Core, l: Ledger) {
    match Unstarted(c)
    case None => true
    case Some(job) =>
      && job.request.token.Some? && job.request.token.value.admissionId < c.coord.nextId
      && forall i :: 0 <= i < |l.starts| ==> l.starts[i].token.admissionId < job.request.token.value.admissionId
  }

  function CommandsOf(members: seq<Member>): seq<OwnedCommand> {
    seq(|members|, i requires 0 <= i < |members| => members[i].command)
  }

  /** What a job executes is what its record carries. */
  ghost predicate Carries(job: Job, members: seq<Member>) {
    && job.CommandJob? && job.request.token.Some?
    && if job.batch.Some? then CommandsOf(members) == job.batch.value.commands
       else job.request.body.Typed? && members == [Member(job.request.token.value, job.request.body.command)]
  }

  ghost predicate Contents(c: Core, l: Ledger) {
    && (if c.batch.Some? then CommandsOf(l.gathered) == c.batch.value.commands else l.gathered == [])
    && (match Unstarted(c)
        case None => l.loaded == []
        case Some(job) => Carries(job, l.loaded))
    && (RunningCommand(c) ==> l.starts != [] && Carries(c.exec.job, l.starts[|l.starts| - 1].members))
  }

  /** Jobs end in the order they start; one may be under way; a result still out is that of the last end. */
  ghost predicate Paired(c: Core, l: Ledger) {
    && |l.starts| == |l.ends| + (if RunningCommand(c) then 1 else 0)
    && (forall i :: 0 <= i < |l.ends| ==> l.ends[i].token == l.starts[i].token)
    && (RunningCommand(c) ==> c.exec.job.request.token == Some(l.starts[|l.starts| - 1].token))
    && (forall i :: 0 <= i < |Done(c)| && Done(c)[i].CommandDone? ==> Reported(Done(c)[i], l))
  }

  ghost predicate Reported(r: JobResult, l: Ledger)
    requires r.CommandDone?
  {
    && l.ends != [] && l.ends[|l.ends| - 1].token == r.token
    && r.response == ExecutionResponse(r.token, DeviceAck, l.ends[|l.ends| - 1].failure)
  }

  ghost predicate AcceptedFor(l: Ledger, token: CompletionToken, purpose: Purpose) {
    Acceptance(token, purpose) in l.accepted
  }

  ghost predicate StartKind(l: Ledger, s: Start) {
    || AcceptedFor(l, s.token, RunsBatch)
    || (AcceptedFor(l, s.token, RunsAlone) && exists command :: s.members == [Member(s.token, command)])
  }

  ghost predicate MemberKind(l: Ledger, m: Member) {
    AcceptedFor(l, m.token, RunsAlone) || AcceptedFor(l, m.token, Joins)
  }

  /** Everything in the ledger belongs to a request accepted for it. */
  ghost predicate Purposes(c: Core, l: Ledger) {
    && (forall i :: 0 <= i < |l.starts| ==> StartKind(l, l.starts[i]))
    && (forall i :: 0 <= i < |AllMembers(l)| ==> MemberKind(l, AllMembers(l)[i]))
    && (forall t :: t in c.stop.pending ==> AcceptedFor(l, t, Stops))
    && (match Unstarted(c)
        case None => true
        case Some(job) => job.request.token.Some? && AcceptedFor(l, job.request.token.value, if job.batch.Some? then RunsBatch else RunsAlone))
  }

  ghost predicate LedgerInv(c: Core, l: Ledger) {
    InOrder(c, l) && NextUp(c, l) && Contents(c, l) && Paired(c, l) && Purposes(c, l)
  }

  // ---- Steps that start, end and accept nothing ----

  /** What a step may change without touching the ledger. */
  ghost predicate Unrelated(c: Core, next: Core) {
    && c.coord.nextId <= next.coord.nextId
    && Unstarted(next) == Unstarted(c)
    && RunningCommand(next) == RunningCommand(c) && (RunningCommand(c) ==> next.exec.job == c.exec.job)
    && (forall i :: 0 <= i < |Done(next)| && Done(next)[i].CommandDone? ==> Done(next)[i] in Done(c))
    && (forall t :: t in next.stop.pending ==> t in c.stop.pending)
  }

  lemma KeepOrder(c: Core, next: Core, l: Ledger)
    requires InOrder(c, l) && c.coord.nextId <= next.coord.nextId
    ensures InOrder(next, l)
  {
    var n, m := c.coord.nextId, next.coord.nextId;
    AscendBound(l.accepted, AcceptanceId, n, m);
    AscendBound(AllMembers(l), MemberId, n, m);
    AscendBound(l.starts, StartId, n, m);
    hide Ascending, AllMembers;
  }

  lemma KeepPaired(c: Core, next: Core, l: Ledger, other: Ledger)
    requires Paired(c, l) && Unrelated(c, next) && other.starts == l.starts && other.ends == l.ends
    ensures Paired(next, other)
  {
    hide Unstarted, Done, ExecutionResponse;
    forall i | 0 <= i < |Done(next)| && Done(next)[i].CommandDone?
      ensures Reported(Done(next)[i], other)
    {
      var j :| 0 <= j < |Done(c)| && Done(c)[j] == Done(next)[i];
    }
  }

  lemma KeepPurposes(c: Core, next: Core, l: Ledger)
    requires Purposes(c, l) && Unrelated(c, next)
    ensures Purposes(next, l)
  {
    hide Unstarted, Done, StartKind, MemberKind, AcceptedFor, AllMembers;
  }

  lemma KeepContents(c: Core, next: Core, l: Ledger)
    requires Contents(c, l) && Unrelated(c, next) && next.batch == c.batch
    ensures Contents(next, l)
  {
    hide Unstarted, Done, Carries, CommandsOf;
  }

  lemma UnrelatedKeeps(c: Core, next: Core, l: Ledger)
    requires LedgerInv(c, l) && Unrelated(c, next) && next.batch == c.batch
    ensures LedgerInv(next, l)
  {
    KeepOrder(c, next, l);
    KeepPaired(c, next, l, l);
    KeepPurposes(c, next, l);
    KeepContents(c, next, l);
    hide Unstarted, Done, Contents, Paired, Purposes, InOrder;
  }

  /** Nothing moved but between channels and tasks. */
  ghost predicate SamePlaces(c: Core, next: Core) {
    && Done(next) == Done(c) && Queue(next) == Queue(c) && next.coord == c.coord && next.batch == c.batch && next.stop == c.stop
    && next.exec.Running? == c.exec.Running? && (c.exec.Running? ==> next.exec.job == c.exec.job)
  }

  lemma SamePlacesKeep(c: Core, next: Core, l: Ledger)
    requires LedgerInv(c, l) && SamePlaces(c, next)
    ensures LedgerInv(next, l)
  {
    hide Done, Queue, LedgerInv;
    UnrelatedKeeps(c, next, l);
  }

  lemma HandoverPlaces(c: Core, step: CoreStep)
    requires Enabled(c, step)
    requires step.SendJob? || step.LookForCancel? || step.DropStale? || step.ReportResult?
    ensures SamePlaces(c, Step(c, step).core)
  {
    Handovers(c, step);
    var next := Step(c, step).core;
    assert Done(next) == FlowOf(next).done == Done(c) && Queue(next) == FlowOf(next).queue == Queue(c);
    hide FlowOf, Done, Queue;
  }

  lemma OnlyFirstQueued(c: Core)
    requires FlowInv(FlowOf(c))
    ensures forall i :: 0 < i < |Queue(c)| ==> Queue(c)[i] == EmergencyJob
    ensures forall i :: 0 <= i < |Done(c)| && Done(c)[i].CommandDone? ==> i == 0 && !RunningCommand(c)
  {
    var f := FlowOf(c);
    forall i | 0 < i < |Queue(c)|
      ensures Queue(c)[i] == EmergencyJob
    {
      OnlyFirstIsCommand(f, i);
    }
    CommandResultIsFirst(f);
    assert f.done == Done(c) && f.queue == Queue(c);
    hide FlowInv;
  }

  /** A command on its way back leaves at most an emergency behind it. */
  lemma CommandResultIsFirst(f: Flow)
    requires FlowInv(f)
    ensures forall i :: 0 <= i < |f.done| && f.done[i].CommandDone? ==> i == 0 && (f.queue == [] || f.queue[0] == EmergencyJob)
  {
    var p := Pipe(f);
    assert forall i :: 0 <= i < |f.done| ==> p[i] == ResultItem(f.done[i]);
    assert f.queue != [] ==> p[|f.done|] == JobItem(f.queue[0]);
    hide Inv, OwnerInFlight, ActiveInStep, JobsOk, StateInStep, BatchInStep;
  }

  lemma EndMoves(c: Core, o: Outcome, result: JobResult)
    requires c.exec.Running?
    ensures var next := EndJob(c, o, result);
            && Queue(next) == Queue(c)[1..] && Done(next) == Done(c) + [result]
            && Queue(c) != [] && Queue(c)[0] == c.exec.job
            && next.coord == c.coord && next.batch == c.batch && next.stop == c.stop && next.exec == Reporting(result)
  {
    assert Queue(EndJob(c, o, result)) == Queue(c)[1..];
  }

  lemma EmergencyEndKeeps(c: Core, o: Outcome, held: Held, l: Ledger)
    requires FlowInv(FlowOf(c)) && LedgerInv(c, l) && c.exec.Running? && c.exec.job == EmergencyJob
    ensures LedgerInv(EndJob(c, o, EmergencyDone(held)), l)
  {
    hide FlowInv, FlowOf, LedgerInv, Done, Queue, EndJob;
    OnlyFirstQueued(c);
    EndMoves(c, o, EmergencyDone(held));
    UnrelatedKeeps(c, EndJob(c, o, EmergencyDone(held)), l);
  }

  lemma ResultKeepsIds(c: Core, result: JobResult)
    ensures var next := HandleResult(c, result).core;
            && next.coord.nextId == c.coord.nextId && next.batch == c.batch && next.exec == c.exec
            && next.jobs == c.jobs && next.pc == c.pc && next.results == c.results
            && (next.stop.pending == c.stop.pending || next.stop.pending == [])
  {
    hide Complete, AckAll;
    match result
    case CommandDone(token, response, _) => CompleteIds(c.coord, token, response);
    case EmergencyDone(_) => AckAllIds(c.coord, c.stop.pending);
  }

  lemma CompleteIds(s: CoordState, token: CompletionToken, response: CachedResponse)
    ensures Complete(s, token, response).Ok? ==> Complete(s, token, response).value.nextId == s.nextId
  {
    hide FindActive;
  }

  lemma {:induction false} AckAllIds(s: CoordState, tokens: seq<CompletionToken>)
    ensures AckAll(s, tokens).0.nextId == s.nextId
    decreases |tokens|
  {
    hide Complete;
    if tokens != [] {
      CompleteIds(s, tokens[0], TokenAck(tokens[0]));
      AckAllIds(CompleteOr(s, tokens[0], TokenAck(tokens[0])), tokens[1..]);
    }
  }

  lemma ResultKeepsLedger(c: Core, l: Ledger)
    requires LedgerInv(c, l) && c.pc == AtSelect && c.results != []
    ensures LedgerInv(HandleResult(c.(results := c.results[1..]), c.results[0]).core, l)
  {
    var next := HandleResult(c.(results := c.results[1..]), c.results[0]).core;
    ResultKeepsIds(c.(results := c.results[1..]), c.results[0]);
    hide HandleResult, LedgerInv;
    assert Queue(next) == Queue(c);
    assert Done(next) == Done(c)[1..];
    hide Done, Queue;
    UnrelatedKeeps(c, next, l);
  }

  // ---- Starting and ending ----

  lemma BeginMoves(c: Core)
    requires c.exec == Waiting && c.jobs != []
    ensures Queue(BeginJob(c)) == Queue(c) && Queue(c) != [] && Queue(c)[0] == c.jobs[0] && Done(BeginJob(c)) == Done(c)
  {
    assert [c.jobs[0]] + c.jobs[1..] == c.jobs;
  }

  lemma StartEmergencyKeeps(c: Core, l: Ledger)
    requires FlowInv(FlowOf(c)) && LedgerInv(c, l) && c.exec == Waiting && c.jobs != [] && c.jobs[0] == EmergencyJob
    ensures LedgerInv(BeginJob(c), l)
  {
    BeginMoves(c);
    hide FlowOf, Done, Queue, LedgerInv, FlowInv;
    UnrelatedKeeps(c, BeginJob(c), l);
  }

  lemma StartedMembers(l: Ledger, job: Job)
    requires job.CommandJob? && job.request.token.Some?
    ensures AllMembers(RecordStart(l, job)) == AllMembers(l)
  {
    CarriedAppend(l.starts, Start(job.request.token.value, l.loaded));
    hide Carried;
  }

  lemma StartCommandKeeps(c: Core, l: Ledger)
    requires LedgerInv(c, l) && c.exec == Waiting && c.jobs != [] && c.jobs[0].CommandJob?
    ensures LedgerInv(BeginJob(c), RecordStart(l, c.jobs[0]))
  {
    var next, job := BeginJob(c), c.jobs[0];
    var after := RecordStart(l, job);
    BeginMoves(c);
    assert Unstarted(c) == Some(job) && Unstarted(next) == None;
    hide Done, Queue, Unstarted;
    StartedMembers(l, job);
    hide AllMembers;
    StartedOrder(c, next, l, job);
    StartedPurposes(c, next, l, job);
    StartedPairs(c, next, l, job);
    hide InOrder, Purposes, Paired, Carries;
    assert Contents(next, after);
  }

  lemma StartedOrder(c: Core, next: Core, l: Ledger, job: Job)
    requires InOrder(c, l) && NextUp(c, l) && Unstarted(c) == Some(job) && next.coord == c.coord
    requires job.CommandJob? && AllMembers(RecordStart(l, job)) == AllMembers(l)
    ensures InOrder(next, RecordStart(l, job))
  {
    hide Unstarted, AllMembers;
  }

  lemma StartedPurposes(c: Core, next: Core, l: Ledger, job: Job)
    requires Purposes(c, l) && Contents(c, l) && Unstarted(c) == Some(job) && Unstarted(next) == None && next.stop == c.stop
    requires job.CommandJob? && AllMembers(RecordStart(l, job)) == AllMembers(l)
    ensures Purposes(next, RecordStart(l, job))
  {
    var after := RecordStart(l, job);
    hide Unstarted, AllMembers, CommandsOf;
    forall i | 0 <= i < |after.starts|
      ensures StartKind(after, after.starts[i])
    {
      if i < |l.starts| {
        assert StartKind(l, l.starts[i]);
      }
    }
    forall i | 0 <= i < |AllMembers(after)|
      ensures MemberKind(after, AllMembers(after)[i])
    {
      assert MemberKind(l, AllMembers(l)[i]);
    }
  }

  lemma StartedPairs(c: Core, next: Core, l: Ledger, job: Job)
    requires Paired(c, l) && Contents(c, l) && Unstarted(c) == Some(job) && !RunningCommand(c)
    requires next.exec == Running(job, [], false) && job.CommandJob? && Done(next) == Done(c)
    ensures Paired(next, RecordStart(l, job))
  {
    hide Unstarted, Done, ExecutionResponse, CommandsOf;
    var after := RecordStart(l, job);
    forall i | 0 <= i < |Done(next)| && Done(next)[i].CommandDone?
      ensures Reported(Done(next)[i], after)
    {
      assert Reported(Done(c)[i], l);
    }
  }

  lemma EndKeeps(c: Core, o: Outcome, token: CompletionToken, l: Ledger)
    requires FlowInv(FlowOf(c)) && LedgerInv(c, l) && RunningCommand(c) && c.exec.job.request.token == Some(token)
    ensures LedgerInv(EndJob(c, o, CommandDone(token, ExecutionResponse(token, DeviceAck, o.failure), o.world.held)),
                      l.(ends := l.ends + [End(token, o.failure)]))
  {
    var result := CommandDone(token, ExecutionResponse(token, DeviceAck, o.failure), o.world.held);
    var next, after := EndJob(c, o, result), l.(ends := l.ends + [End(token, o.failure)]);
    hide FlowInv, FlowOf, Queue, Done, ExecutionResponse;
    OnlyFirstQueued(c);
    EndMoves(c, o, result);
    hide EndJob;
    assert Unstarted(next) == None && Unstarted(c) == None;
    hide Unstarted;
    EndedPairs(c, next, l, after);
    hide Paired;
    assert AllMembers(after) == AllMembers(l);
    hide AllMembers;
    assert InOrder(next, after);
    assert Contents(next, after) by {
      hide CommandsOf, Carries;
    }
    EndedPurposes(c, next, l, after);
  }

  lemma RunningAnswersAck(c: Core)
    requires FlowInv(FlowOf(c)) && RunningCommand(c)
    ensures JobAnswer(c.exec.job) == DeviceAck
  {
    assert FlowOf(c).queue[0] == c.exec.job;
    assert JobOk(c.exec.job, c.held);
    hide FlowInv, JobOk;
    AnswersAck(c.exec.job, c.held);
  }

  lemma EndedPairs(c: Core, next: Core, l: Ledger, after: Ledger)
    requires Paired(c, l) && RunningCommand(c) && !RunningCommand(next)
    requires c.exec.job.request.token.Some? && |after.ends| == |l.ends| + 1 && after == l.(ends := l.ends + [after.ends[|l.ends|]])
    requires var token, failure := c.exec.job.request.token.value, after.ends[|l.ends|].failure;
             && after.ends[|l.ends|].token == token
             && next.exec.Reporting? && next.exec.result.CommandDone? && next.exec.result.token == token
             && next.exec.result.response == ExecutionResponse(token, DeviceAck, failure)
    requires Done(next) == Done(c) + [next.exec.result]
    requires forall i :: 0 <= i < |Done(c)| ==> !Done(c)[i].CommandDone?
    ensures Paired(next, after)
  {
    hide Done, ExecutionResponse;
  }

  lemma EndedPurposes(c: Core, next: Core, l: Ledger, after: Ledger)
    requires Purposes(c, l) && Unstarted(next) == None && next.stop == c.stop
    requires after.starts == l.starts && after.accepted == l.accepted && AllMembers(after) == AllMembers(l)
    ensures Purposes(next, after)
  {
    hide Unstarted, AllMembers;
    forall i | 0 <= i < |after.starts|
      ensures StartKind(after, after.starts[i])
    {
      assert StartKind(l, l.starts[i]);
    }
    forall i | 0 <= i < |AllMembers(after)|
      ensures MemberKind(after, AllMembers(after)[i])
    {
      assert MemberKind(l, AllMembers(l)[i]);
    }
  }

  // ---- Accepting a request ----

  /** The pipeline is as it was; one identifier has been handed out. */
  ghost predicate OneMoreId(c: Core, next: Core) {
    && Done(next) == Done(c) && Unstarted(next) == Unstarted(c)
    && RunningCommand(next) == RunningCommand(c) && (RunningCommand(c) ==> next.exec.job == c.exec.job)
    && next.coord.nextId == c.coord.nextId + 1
  }

  /** The open batch is unchanged, emptied, or one command longer. */
  ghost predicate Gathers(c: Core, next: Core, l: Ledger, after: Ledger, token: CompletionToken, purpose: Purpose) {
    || (after.gathered == l.gathered && next.batch == c.batch)
    || (after.gathered == [] && (next.batch.None? || next.batch.value.commands == []))
    || (&& purpose == Joins && c.batch.Some? && next.batch.Some? && after.gathered != []
        && var last := after.gathered[|after.gathered| - 1];
           && after.gathered == l.gathered + [Member(token, last.command)]
           && next.batch.value.commands == c.batch.value.commands + [last.command])
  }

  lemma AcceptOrder(c: Core, next: Core, l: Ledger, after: Ledger, token: CompletionToken, purpose: Purpose)
    requires InOrder(c, l) && OneMoreId(c, next) && Gathers(c, next, l, after, token, purpose)
    requires token.admissionId == c.coord.nextId && after == Accept(l, token, purpose).(gathered := after.gathered)
    ensures InOrder(next, after)
  {
    var n := c.coord.nextId;
    AscendAppend(l.accepted, Acceptance(token, purpose), AcceptanceId, n);
    AscendBound(l.starts, StartId, n, n + 1);
    var kept := Carried(l.starts) + l.loaded;
    assert AllMembers(l) == kept + l.gathered && AllMembers(after) == kept + after.gathered;
    AscendPrefix(kept, l.gathered, MemberId, n);
    AscendBound(kept, MemberId, n, n + 1);
    AscendBound(AllMembers(l), MemberId, n, n + 1);
    if after.gathered == [] {
      assert kept + [] == kept;
    } else if after.gathered != l.gathered {
      var last := after.gathered[|after.gathered| - 1];
      AscendAppend(AllMembers(l), last, MemberId, n);
      assert AllMembers(after) == AllMembers(l) + [last];
    }
    hide Carried, Ascending;
  }

  lemma AcceptContents(c: Core, next: Core, l: Ledger, after: Ledger, token: CompletionToken, purpose: Purpose)
    requires Contents(c, l) && OneMoreId(c, next) && Gathers(c, next, l, after, token, purpose)
    requires after == Accept(l, token, purpose).(gathered := after.gathered)
    ensures Contents(next, after)
  {
    hide Unstarted, Done, Carries;
    if after.gathered == [] {
      assert CommandsOf([]) == [];
    }
    if after.gathered != [] && purpose == Joins {
      var last := after.gathered[|after.gathered| - 1];
      assert CommandsOf(l.gathered + [Member(token, last.command)]) == CommandsOf(l.gathered) + [last.command];
    }
  }

  lemma AcceptedStays(l: Ledger, after: Ledger, token: CompletionToken, purpose: Purpose)
    requires after.accepted == l.accepted + [Acceptance(token, purpose)]
    ensures forall t, p :: AcceptedFor(l, t, p) ==> AcceptedFor(after, t, p)
    ensures AcceptedFor(after, token, purpose)
  {
  }

  lemma StartKindStays(l: Ledger, after: Ledger)
    requires forall t, p :: AcceptedFor(l, t, p) ==> AcceptedFor(after, t, p)
    ensures forall s :: StartKind(l, s) ==> StartKind(after, s)
    ensures forall m :: MemberKind(l, m) ==> MemberKind(after, m)
  {
    hide AcceptedFor;
  }

  lemma AcceptPurposes(c: Core, next: Core, l: Ledger, after: Ledger, token: CompletionToken, purpose: Purpose)
    requires Purposes(c, l) && OneMoreId(c, next) && Gathers(c, next, l, after, token, purpose)
    requires after == Accept(l, token, purpose).(gathered := after.gathered)
    requires next.stop.pending == c.stop.pending || next.stop.pending == []
             || (purpose == Stops && next.stop.pending == c.stop.pending + [token])
    ensures Purposes(next, after)
  {
    AcceptedStays(l, after, token, purpose);
    StartKindStays(l, after);
    hide Unstarted, Done, StartKind, AcceptedFor, Carried;
    forall i | 0 <= i < |AllMembers(after)|
      ensures MemberKind(after, AllMembers(after)[i])
    {
      if i < |AllMembers(l)| {
        assert MemberKind(l, AllMembers(l)[i]);
        if AllMembers(after)[i] != AllMembers(l)[i] {
          assert false;
        }
      } else {
        assert AllMembers(after)[i].token == token && purpose == Joins;
      }
    }
  }

  lemma AcceptKeeps(c: Core, next: Core, l: Ledger, after: Ledger, token: CompletionToken, purpose: Purpose)
    requires LedgerInv(c, l) && OneMoreId(c, next) && Gathers(c, next, l, after, token, purpose)
    requires token.admissionId == c.coord.nextId && after == Accept(l, token, purpose).(gathered := after.gathered)
    requires next.stop.pending == c.stop.pending || next.stop.pending == []
             || (purpose == Stops && next.stop.pending == c.stop.pending + [token])
    ensures LedgerInv(next, after)
  {
    hide InOrder, Contents, Purposes, Gathers, AllMembers;
    AcceptOrder(c, next, l, after, token, purpose);
    AcceptContents(c, next, l, after, token, purpose);
    AcceptPurposes(c, next, l, after, token, purpose);
    AcceptPairs(c, next, l, after);
    hide Unstarted, Paired;
  }

  lemma AcceptPairs(c: Core, next: Core, l: Ledger, after: Ledger)
    requires Paired(c, l) && OneMoreId(c, next) && after.starts == l.starts && after.ends == l.ends
    ensures Paired(next, after)
  {
    hide Done, Unstarted, ExecutionResponse;
    forall i | 0 <= i < |Done(next)| && Done(next)[i].CommandDone?
      ensures Reported(Done(next)[i], after)
    {
      assert Reported(Done(c)[i], l);
    }
  }

  // ---- Dispatching a job ----

  /** The pipeline was empty and now holds this job alone. */
  ghost predicate Dispatches(c: Core, next: Core, job: Job, token: CompletionToken) {
    && Done(c) == [] && Unstarted(c) == None && !RunningCommand(c)
    && Done(next) == [] && Unstarted(next) == Some(job) && !RunningCommand(next)
    && job.CommandJob? && job.request.token == Some(token) && token.admissionId == c.coord.nextId
    && next.coord.nextId == c.coord.nextId + 1 && next.batch.None? && next.stop == c.stop
  }

  lemma DispatchOrder(c: Core, next: Core, l: Ledger, after: Ledger, job: Job, token: CompletionToken)
    requires InOrder(c, l) && Dispatches(c, next, job, token) && l.loaded == []
    requires after.accepted == l.accepted + [Acceptance(token, if job.batch.Some? then RunsBatch else RunsAlone)]
    requires after.starts == l.starts && after.gathered == []
    requires after.loaded == l.gathered || (l.gathered == [] && |after.loaded| == 1 && after.loaded[0].token == token)
    ensures InOrder(next, after) && NextUp(next, after)
  {
    var n := c.coord.nextId;
    AscendAppend(l.accepted, after.accepted[|l.accepted|], AcceptanceId, n);
    AscendBound(l.starts, StartId, n, n + 1);
    assert AllMembers(l) == Carried(l.starts) + l.gathered && AllMembers(after) == Carried(l.starts) + after.loaded;
    AscendBound(AllMembers(l), MemberId, n, n + 1);
    if after.loaded != l.gathered {
      AscendAppend(AllMembers(l), after.loaded[0], MemberId, n);
      assert AllMembers(after) == AllMembers(l) + [after.loaded[0]];
    }
    hide Carried, Unstarted, Done, AllMembers;
  }

  lemma DispatchPurposes(c: Core, next: Core, l: Ledger, after: Ledger, job: Job, token: CompletionToken)
    requires Purposes(c, l) && Dispatches(c, next, job, token) && l.loaded == []
    requires after.accepted == l.accepted + [Acceptance(token, if job.batch.Some? then RunsBatch else RunsAlone)]
    requires after.starts == l.starts && after.gathered == []
    requires after.loaded == l.gathered || (job.batch.None? && l.gathered == [] && |after.loaded| == 1 && after.loaded[0].token == token)
    ensures Purposes(next, after)
  {
    AcceptedStays(l, after, token, if job.batch.Some? then RunsBatch else RunsAlone);
    StartKindStays(l, after);
    assert AllMembers(l) == Carried(l.starts) + l.gathered && AllMembers(after) == Carried(l.starts) + after.loaded;
    hide Unstarted, Done, StartKind, AcceptedFor, Carried, AllMembers;
    forall i | 0 <= i < |AllMembers(after)|
      ensures MemberKind(after, AllMembers(after)[i])
    {
      if i < |AllMembers(l)| {
        assert AllMembers(after)[i] == AllMembers(l)[i];
        assert MemberKind(l, AllMembers(l)[i]);
      } else {
        assert AllMembers(after)[i].token == token;
      }
    }
  }

  lemma DispatchLedger(c: Core, next: Core, l: Ledger, after: Ledger, job: Job, token: CompletionToken)
    requires LedgerInv(c, l) && Dispatches(c, next, job, token)
    requires after == l.(accepted := l.accepted + [Acceptance(token, if job.batch.Some? then RunsBatch else RunsAlone)],
                        loaded := after.loaded, gathered := after.gathered)
    requires after.gathered == []
    requires job.batch == c.batch
    requires if job.batch.Some? then after.loaded == l.gathered
             else job.request.body.Typed? && after.loaded == [Member(token, job.request.body.command)]
    ensures LedgerInv(next, after)
  {
    assert l.loaded == [] && (job.batch.None? ==> l.gathered == []);
    hide InOrder, NextUp, Purposes, Done, Unstarted, AllMembers;
    DispatchOrder(c, next, l, after, job, token);
    DispatchPurposes(c, next, l, after, job, token);
    assert Contents(next, after);
    assert Paired(next, after);
  }

  // ---- The dispatcher's steps ----

  /** Handling a request touches neither the executor nor the channels, and sends a command only to execute one. */
  lemma RequestFrame(c: Core, r: OwnedRequest)
    requires c.pc == AtSelect && HasToken(AdmitRequest(c, r).admission)
    ensures var a := AdmitRequest(c, r).admission;
            var next := HandleAdmitted(c, r, AdmitRequest(c, r)).core;
            && next.exec == c.exec && next.jobs == c.jobs && next.results == c.results
            && (a.ExecuteRequest? || next.pc in {AtSelect, SendingJob(EmergencyJob)})
  {
    hide Admit, CompleteOr, Push, BypassResponse, AbortBatch, ScheduleEmergency, HandleStop;
  }

  lemma FramePlaces(c: Core, next: Core)
    requires c.pc == AtSelect && next.exec == c.exec && next.jobs == c.jobs && next.results == c.results
    requires next.pc in {AtSelect, SendingJob(EmergencyJob)}
    ensures Done(next) == Done(c) && Unstarted(next) == Unstarted(c) && RunningCommand(next) == RunningCommand(c)
  {
    assert Queue(next) == Queue(c) + if next.pc == AtSelect then [] else [EmergencyJob];
  }

  lemma IdsAfterRequest(c: Core, r: OwnedRequest)
    requires HasToken(AdmitRequest(c, r).admission)
    ensures HandleAdmitted(c, r, AdmitRequest(c, r)).core.coord.nextId == AdmitRequest(c, r).state.nextId
  {
    var a := AdmitRequest(c, r);
    hide Admit, Push, BypassResponse;
    match a.admission
    case Bypass(q) => CompleteIds(a.state, q.token.value, BypassResponse(q, q.token.value));
    case Collect(q) =>
      hide Complete;
      var token := q.token.value;
      CompleteIds(a.state, token, TokenAck(token));
      if Pushed(c, q).Err? {
        CompleteIds(AbortBatch(a.state), token, TokenNack(token, BatchErrorCode(Pushed(c, q).error)));
      }
    case ExecuteRequest(q) =>
      hide Complete;
      CompleteIds(a.state, q.token.value, TokenNack(q.token.value, ErrorCode.BatchState));
    case _ =>
  }

  /** The token an accepted request got is the next identifier. */
  lemma AcceptedToken(c: Core, r: OwnedRequest)
    requires Inv(c.coord) && WellFormed(r) && !ChangesNothing(AdmitRequest(c, r).admission)
    ensures AdmitRequest(c, r).state.nextId == c.coord.nextId + 1 && NewToken(c.coord, r).admissionId == c.coord.nextId
    ensures match AdmitRequest(c, r).admission
            case ExecuteRequest(q) => q.token == Some(NewToken(c.coord, r)) && q.commandType == r.commandType
            case Collect(q) => q.token == Some(NewToken(c.coord, r)) && q.body.Typed?
            case Bypass(q) => q.token == Some(NewToken(c.coord, r))
            case Stop(q) => q.token == Some(NewToken(c.coord, r))
            case _ => true
  {
    AdmitFacts(c, r);
    hide Admit, Inv, GainsActive, SameActive, WellFormed, ExpectedFor;
  }

  lemma OneMoreIdAfter(c: Core, r: OwnedRequest)
    requires Inv(c.coord) && c.pc == AtSelect && WellFormed(r) && HasToken(AdmitRequest(c, r).admission)
    requires !ChangesNothing(AdmitRequest(c, r).admission) && !AdmitRequest(c, r).admission.ExecuteRequest?
    ensures OneMoreId(c, HandleAdmitted(c, r, AdmitRequest(c, r)).core)
  {
    hide Admit, Inv, WellFormed, HandleAdmitted, Done, Unstarted, NewToken;
    AcceptedToken(c, r);
    RequestFrame(c, r);
    IdsAfterRequest(c, r);
    FramePlaces(c, HandleAdmitted(c, r, AdmitRequest(c, r)).core);
  }

  lemma CollectShape(c: Core, r: OwnedRequest)
    requires HasToken(AdmitRequest(c, r).admission) && AdmitRequest(c, r).admission.Collect?
    requires AdmitRequest(c, r).admission.request.body.Typed?
    ensures var q := AdmitRequest(c, r).admission.request;
            var next := HandleAdmitted(c, r, AdmitRequest(c, r)).core;
            && next.stop.pending == c.stop.pending
            && if Pushed(c, q).Ok? then
                 && c.batch.Some? && next.batch.Some?
                 && next.batch.value.commands == c.batch.value.commands + [q.body.command]
               else next.batch.None?
  {
    hide Admit, CompleteOr, AbortBatch, Validate;
  }

  lemma CollectLedger(c: Core, r: OwnedRequest, l: Ledger)
    requires Inv(c.coord) && LedgerInv(c, l) && c.pc == AtSelect && WellFormed(r)
    requires HasToken(AdmitRequest(c, r).admission) && AdmitRequest(c, r).admission.Collect?
    ensures LedgerInv(HandleAdmitted(c, r, AdmitRequest(c, r)).core, RecordRequest(l, c, r))
  {
    hide Admit, Inv, WellFormed, HandleAdmitted, LedgerInv, Push, NewToken, OneMoreId;
    AcceptedToken(c, r);
    OneMoreIdAfter(c, r);
    CollectShape(c, r);
    var q := AdmitRequest(c, r).admission.request;
    var purpose := if Pushed(c, q).Ok? then Joins else TurnedAway;
    AcceptKeeps(c, HandleAdmitted(c, r, AdmitRequest(c, r)).core, l, RecordRequest(l, c, r), NewToken(c.coord, r), purpose);
  }

  lemma OtherShapes(c: Core, r: OwnedRequest)
    requires FlowInv(FlowOf(c)) && c.pc == AtSelect && WellFormed(r) && HasToken(AdmitRequest(c, r).admission)
    ensures var a := AdmitRequest(c, r).admission;
            var next := HandleAdmitted(c, r, AdmitRequest(c, r)).core;
            && (a.Bypass? ==> next.stop.pending == c.stop.pending && next.batch == c.batch)
            && (a.Immediate? ==> next.stop.pending == c.stop.pending && next.batch == Some(Begin(c.shadow)))
            && (a.Stop? ==> next.stop.pending == c.stop.pending + [NewToken(c.coord, r)] && next.batch.None?)
  {
    hide Admit, CompleteOr, FlowInv, WellFormed, BypassResponse, HandleStop, NewToken;
    if AdmitRequest(c, r).admission.Stop? {
      StopKeeps(c, r);
    }
  }

  lemma AnswerLedger(c: Core, r: OwnedRequest, l: Ledger)
    requires FlowInv(FlowOf(c)) && LedgerInv(c, l) && c.pc == AtSelect && WellFormed(r)
    requires HasToken(AdmitRequest(c, r).admission)
    requires var a := AdmitRequest(c, r).admission; a.Bypass? || a.Immediate? || a.Stop?
    ensures LedgerInv(HandleAdmitted(c, r, AdmitRequest(c, r)).core, RecordRequest(l, c, r))
  {
    hide FlowInv, FlowOf, Admit, WellFormed, HandleAdmitted, LedgerInv, NewToken, OneMoreId, Inv;
    RevealInv(FlowOf(c));
    SameCoord(c);
    AcceptedToken(c, r);
    OneMoreIdAfter(c, r);
    OtherShapes(c, r);
    var a := AdmitRequest(c, r).admission;
    var purpose := if a.Stop? then Stops else if a.Immediate? then Opens else Answers;
    AcceptKeeps(c, HandleAdmitted(c, r, AdmitRequest(c, r)).core, l, RecordRequest(l, c, r), NewToken(c.coord, r), purpose);
  }

  lemma SameCoord(c: Core)
    ensures FlowOf(c).coord == c.coord && FlowOf(c).stop == c.stop && FlowOf(c).done == Done(c) && FlowOf(c).queue == Queue(c)
  {
  }

  lemma EmptyPlaces(c: Core)
    requires Done(c) == [] && Queue(c) == []
    ensures Unstarted(c) == None && !RunningCommand(c) && c.exec == Waiting && c.jobs == [] && c.results == []
  {
  }

  lemma ExecuteShape(c: Core, r: OwnedRequest)
    requires HasToken(AdmitRequest(c, r).admission) && AdmitRequest(c, r).admission.ExecuteRequest?
    requires AdmitRequest(c, r).admission.request.commandType == r.commandType
    requires r.commandType == CommandType.BatchEnd <==> c.batch.Some?
    requires c.exec == Waiting && c.jobs == [] && c.results == []
    ensures var q := AdmitRequest(c, r).admission.request;
            var next := HandleAdmitted(c, r, AdmitRequest(c, r)).core;
            && Done(next) == [] && Unstarted(next) == Some(CommandJob(q, c.batch, c.stop.generation, c.cancels))
            && !RunningCommand(next) && next.batch.None? && next.stop == c.stop
  {
    hide Admit;
  }

  lemma ExecuteLedger(c: Core, r: OwnedRequest, l: Ledger)
    requires FlowInv(FlowOf(c)) && LedgerInv(c, l) && c.pc == AtSelect && WellFormed(r)
    requires HasToken(AdmitRequest(c, r).admission) && AdmitRequest(c, r).admission.ExecuteRequest?
    ensures LedgerInv(HandleAdmitted(c, r, AdmitRequest(c, r)).core, RecordRequest(l, c, r))
  {
    hide FlowInv, FlowOf, Admit, WellFormed, HandleAdmitted, LedgerInv, NewToken, Inv, Done, Queue, Unstarted, Batchable, WithinWaitLimit, GainsActive, CurrentOwner;
    RevealInv(FlowOf(c));
    SameCoord(c);
    AcceptedToken(c, r);
    IdsAfterRequest(c, r);
    ExecuteFacts(c, r);
    FreeMeansEmpty(FlowOf(c));
    EmptyPlaces(c);
    ExecuteShape(c, r);
    var q, token := AdmitRequest(c, r).admission.request, NewToken(c.coord, r);
    var job := CommandJob(q, c.batch, c.stop.generation, c.cancels);
    NothingGathered(c, l, r);
    DispatchLedger(c, HandleAdmitted(c, r, AdmitRequest(c, r)).core, l, RecordRequest(l, c, r), job, token);
  }

  lemma NothingGathered(c: Core, l: Ledger, r: OwnedRequest)
    requires LedgerInv(c, l) && HasToken(AdmitRequest(c, r).admission) && AdmitRequest(c, r).admission.ExecuteRequest?
    requires AdmitRequest(c, r).admission.request.commandType == r.commandType
    requires r.commandType == CommandType.BatchEnd <==> c.batch.Some?
    ensures RecordRequest(l, c, r).gathered == []
  {
    hide InOrder, NextUp, Paired, Purposes, Admit, Carries;
  }

  lemma QuietLedger(c: Core, r: OwnedRequest, l: Ledger)
    requires FlowInv(FlowOf(c)) && LedgerInv(c, l) && WellFormed(r)
    requires HasToken(AdmitRequest(c, r).admission) && ChangesNothing(AdmitRequest(c, r).admission)
    ensures LedgerInv(HandleAdmitted(c, r, AdmitRequest(c, r)).core, RecordRequest(l, c, r))
  {
    hide LedgerInv, FlowInv, FlowOf, Admit, WellFormed, HandleAdmitted, RecordExecute, RecordCollect;
    RefusalKeeps(c, r);
  }

  lemma RequestLedger(c: Core, r: OwnedRequest, l: Ledger)
    requires FlowInv(FlowOf(c)) && LedgerInv(c, l) && c.pc == AtSelect && WellFormed(r) && HasToken(AdmitRequest(c, r).admission)
    ensures LedgerInv(HandleAdmitted(c, r, AdmitRequest(c, r)).core, RecordRequest(l, c, r))
  {
    hide FlowInv, FlowOf, Admit, WellFormed, HandleAdmitted, LedgerInv, RecordRequest, Inv;
    match AdmitRequest(c, r).admission
    case ExecuteRequest(_) => ExecuteLedger(c, r, l);
    case Collect(_) =>
      RevealInv(FlowOf(c));
      SameCoord(c);
      CollectLedger(c, r, l);
    case Bypass(_) => AnswerLedger(c, r, l);
    case Stop(_) => AnswerLedger(c, r, l);
    case Immediate(_) => AnswerLedger(c, r, l);
    case _ => QuietLedger(c, r, l);
  }

  // ---- Safety events ----

  lemma DropOrder(c: Core, next: Core, l: Ledger)
    requires InOrder(c, l) && c.coord.nextId == next.coord.nextId
    ensures InOrder(next, l.(gathered := []))
  {
    var kept := Carried(l.starts) + l.loaded;
    assert AllMembers(l) == kept + l.gathered && AllMembers(l.(gathered := [])) == kept + [] == kept;
    AscendPrefix(kept, l.gathered, MemberId, c.coord.nextId);
    hide Carried, Ascending;
  }

  lemma DropPurposes(c: Core, next: Core, l: Ledger)
    requires Purposes(c, l) && Unstarted(next) == Unstarted(c) && next.stop.pending == []
    ensures Purposes(next, l.(gathered := []))
  {
    var after := l.(gathered := []);
    hide Unstarted, Carried, CommandsOf;
    forall i | 0 <= i < |after.starts|
      ensures StartKind(after, after.starts[i])
    {
      assert StartKind(l, l.starts[i]);
    }
    forall i | 0 <= i < |AllMembers(after)|
      ensures MemberKind(after, AllMembers(after)[i])
    {
      assert AllMembers(after)[i] == AllMembers(l)[i];
      assert MemberKind(l, AllMembers(l)[i]);
    }
  }

  lemma SafetyEventLedger(c: Core, l: Ledger)
    requires LedgerInv(c, l) && c.pc == AtSelect && c.coord.session + 1 < U64_LIMIT
    ensures LedgerInv(HandleSafetyEvent(c), l.(gathered := []))
  {
    var next, after := HandleSafetyEvent(c), l.(gathered := []);
    SafetyEventDrops(c);
    FramePlaces(c, next);
    hide HandleSafetyEvent, Done, Unstarted;
    assert next.coord.nextId == c.coord.nextId && next.exec == c.exec;
    DropOrder(c, next, l);
    DropPurposes(c, next, l);
    KeepPaired(c, next, l, after);
    hide InOrder, Purposes, Paired, Carries;
    assert Contents(next, after);
  }

  // ---- Every step ----

  lemma StepLedger(c: Core, step: CoreStep, l: Ledger)
    requires FlowInv(FlowOf(c)) && LedgerInv(c, l) && Enabled(c, step)
    ensures LedgerInv(Step(c, step).core, Record(l, c, step))
  {
    hide FlowInv, FlowOf, LedgerInv, HandleAdmitted, HandleResult, HandleSafetyEvent, JobOutcome, ResetInputs, SawExactly, WellFormed, AdmitRequest, RecordRequest, EndJob, ExecutionResponse, JobAnswer, BeginJob;
    match step
    case TakeRequest(r) => RequestLedger(c, r, l);
    case TakeResult => ResultKeepsLedger(c, l);
    case TakeSafetyEvent => SafetyEventLedger(c, l);
    case StartJob =>
      if c.jobs[0].CommandJob? {
        StartCommandKeeps(c, l);
      } else {
        StartEmergencyKeeps(c, l);
      }
    case FinishCommand(schedule, capsLock) =>
      RunningAnswersAck(c);
      EndKeeps(c, JobOutcome(c.exec.job, JobWorld(c, schedule), capsLock), c.exec.job.request.token.value, l);
    case FinishEmergency(schedule) =>
      var o := ResetInputs(JobWorld(c, schedule));
      EmergencyEndKeeps(c, o, o.world.held, l);
    case _ =>
      HandoverPlaces(c, step);
      SamePlacesKeep(c, Step(c, step).core, l);
  }

  lemma BlankInv()
    ensures LedgerInv(INITIAL_CORE, BLANK)
  {
    assert Carried([]) == [];
    assert AllMembers(BLANK) == [];
    assert Done(INITIAL_CORE) == [] && Queue(INITIAL_CORE) == [];
  }

  lemma {:induction false} RunsLedger(c: Core, steps: seq<CoreStep>, end: Core, l: Ledger)
    requires FlowInv(FlowOf(c)) && LedgerInv(c, l) && RunsTo(c, steps, end)
    ensures LedgerInv(end, RecordAll(l, c, steps, end))
    decreases |steps|
  {
    hide FlowInv, FlowOf, LedgerInv, Enabled, Step, Record;
    if steps != [] {
      StepKeeps(c, steps[0]);
      StepLedger(c, steps[0], l);
      RunsLedger(Step(c, steps[0]).core, steps[1..], end, Record(l, c, steps[0]));
    }
  }

  // ---- What every run keeps ----

  /** The ledger of a run from the initial state. */
  function LedgerOf(steps: seq<CoreStep>, end: Core): Ledger
    requires RunsTo(INITIAL_CORE, steps, end)
  {
    RecordAll(BLANK, INITIAL_CORE, steps, end)
  }

  lemma LedgerHolds(steps: seq<CoreStep>, end: Core)
    requires RunsTo(INITIAL_CORE, steps, end)
    ensures LedgerInv(end, LedgerOf(steps, end)) && FlowInv(FlowOf(end))
  {
    hide FlowInv, FlowOf, LedgerInv, RunsTo;
    InitialFlow();
    BlankInv();
    RunsKeep(INITIAL_CORE, steps, end);
    RunsLedger(INITIAL_CORE, steps, end, BLANK);
  }

  function MemberTokens(members: seq<Member>): seq<CompletionToken> {
    seq(|members|, i requires 0 <= i < |members| => members[i].token)
  }

  function StartTokens(starts: seq<Start>): seq<CompletionToken> {
    seq(|starts|, i requires 0 <= i < |starts| => starts[i].token)
  }

  function EndTokens(ends: seq<End>): seq<CompletionToken> {
    seq(|ends|, i requires 0 <= i < |ends| => ends[i].token)
  }

  function Occurrences<T(==)>(items: seq<T>, item: T): nat {
    if items == [] then 0
    else Occurrences(items[..|items| - 1], item) + if items[|items| - 1] == item then 1 else 0
  }

  ghost predicate AllDifferent<T>(items: seq<T>) {
    forall i, j :: 0 <= i < j < |items| ==> items[i] != items[j]
  }

  lemma {:induction false} DifferentOccurOnce<T>(items: seq<T>, item: T)
    requires AllDifferent(items)
    ensures Occurrences(items, item) == if item in items then 1 else 0
  {
    if items != [] {
      var rest := items[..|items| - 1];
      DifferentOccurOnce(rest, item);
      assert items == rest + [items[|items| - 1]];
    }
  }

  lemma OrderedTokensDiffer(c: Core, l: Ledger)
    requires LedgerInv(c, l)
    ensures AllDifferent(StartTokens(l.starts)) && AllDifferent(EndTokens(l.ends)) && AllDifferent(MemberTokens(AllMembers(l)))
    ensures AllDifferent(MemberTokens(Carried(l.starts)))
  {
    var all, carried := AllMembers(l), Carried(l.starts);
    assert Ascending(all, MemberId, c.coord.nextId) && Ascending(l.starts, StartId, c.coord.nextId);
    assert forall i :: 0 <= i < |l.ends| ==> l.ends[i].token == l.starts[i].token && i < |l.starts|;
    hide LedgerInv, Carried;
    assert forall i :: 0 <= i < |carried| ==> carried[i] == all[i];
    assert forall i :: 0 <= i < |all| ==> MemberId(all[i]) == MemberTokens(all)[i].admissionId;
    assert forall i :: 0 <= i < |l.starts| ==> StartId(l.starts[i]) == StartTokens(l.starts)[i].admissionId;
  }

  /**
   Over every run, whatever is scheduled, fails, is cancelled or is reset: no job is started twice, none ends
   twice, and no request's command is handed to the executor twice, alone or in a batch.
   */
  lemma NothingRunsTwice(steps: seq<CoreStep>, end: Core, token: CompletionToken)
    requires RunsTo(INITIAL_CORE, steps, end)
    ensures var l := LedgerOf(steps, end);
            && Occurrences(StartTokens(l.starts), token) <= 1
            && Occurrences(EndTokens(l.ends), token) <= 1
            && Occurrences(MemberTokens(Carried(l.starts)), token) <= 1
  {
    hide LedgerInv, FlowInv, FlowOf, RunsTo;
    LedgerHolds(steps, end);
    var l := LedgerOf(steps, end);
    OrderedTokensDiffer(end, l);
    DifferentOccurOnce(StartTokens(l.starts), token);
    DifferentOccurOnce(EndTokens(l.ends), token);
    DifferentOccurOnce(MemberTokens(Carried(l.starts)), token);
  }

  /** What the executor is running is exactly what the last start in the ledger carries. */
  lemma RunningJobIsRecorded(steps: seq<CoreStep>, c: Core)
    requires RunsTo(INITIAL_CORE, steps, c) && RunningCommand(c)
    ensures var l := LedgerOf(steps, c);
            && l.starts != [] && c.exec.job.request.token == Some(l.starts[|l.starts| - 1].token)
            && Carries(c.exec.job, l.starts[|l.starts| - 1].members)
  {
    hide FlowInv, FlowOf, RunsTo, Carries;
    LedgerHolds(steps, c);
  }

  lemma RecordedDelivers(job: Job, members: seq<Member>, w: World, capsLock: nat -> bool)
    requires Carries(job, members) && JobOutcome(job, w, capsLock).failure.None?
    ensures JobOutcome(job, w, capsLock).world.attempts == w.attempts + Delivered(BatchReports(CommandsOf(members), w.held, capsLock, 0))
  {
    hide ExecuteBatch, ExecuteSingle, BatchReports, Delivered;
    match job.batch
    case Some(batch) => BatchDelivers(w, batch.commands, capsLock, 0);
    case None =>
      assert CommandsOf(members) == [job.request.body.command];
      SingleDelivers(w, job.request.body.command, capsLock);
  }

  /** A job that ends without failure has sent every report of every command its start records, in order. */
  lemma EndedJobDelivered(steps: seq<CoreStep>, c: Core, schedule: Schedule, capsLock: nat -> bool)
    requires RunsTo(INITIAL_CORE, steps, c) && Enabled(c, FinishCommand(schedule, capsLock))
    ensures var l, o := LedgerOf(steps, c), JobOutcome(c.exec.job, JobWorld(c, schedule), capsLock);
            && l.starts != [] && l.starts[|l.starts| - 1].token == c.exec.job.request.token.value
            && Record(l, c, FinishCommand(schedule, capsLock)).ends == l.ends + [End(l.starts[|l.starts| - 1].token, o.failure)]
            && (o.failure.None? ==>
                  o.world.attempts == c.attempts
                                      + Delivered(BatchReports(CommandsOf(l.starts[|l.starts| - 1].members), c.held, capsLock, 0)))
  {
    hide RunsTo, Carries, JobOutcome, SawExactly, BatchReports, Delivered, CommandsOf;
    RunningJobIsRecorded(steps, c);
    var l, world := LedgerOf(steps, c), JobWorld(c, schedule);
    if JobOutcome(c.exec.job, world, capsLock).failure.None? {
      RecordedDelivers(c.exec.job, l.starts[|l.starts| - 1].members, world, capsLock);
    }
  }

  lemma LastEnd(c: Core, l: Ledger, r: JobResult)
    requires LedgerInv(c, l) && c.results != [] && c.results[0] == r && r.CommandDone?
    ensures Reported(r, l) && |l.ends| <= |l.starts| && l.starts[|l.ends| - 1].token == r.token
  {
    assert Done(c)[0] == r;
    hide InOrder, NextUp, Contents, Purposes, ExecutionResponse;
  }

  lemma AckMeansNoFailure(token: CompletionToken, failure: Option<ErrorCode>)
    ensures ExecutionResponse(token, DeviceAck, failure).commandType == Ack <==> failure.None?
    ensures ExecutionResponse(token, DeviceAck, failure).commandType in {Ack, Nack}
  {
  }

  lemma AnswerOf(token: CompletionToken, failure: Option<ErrorCode>)
    ensures ExecutionResponse(token, DeviceAck, failure) == match failure
                                                            case None => AckResponse(token.version, token.sequence)
                                                            case Some(error) => NackResponse(token.version, token.sequence, error)
  {
  }

  /**
   A result that comes back for a command belongs to a job that was started exactly once and ended exactly
   once, and it is an ACK exactly if that job ended without failure, and otherwise the refusal with its error.
   */
  lemma AckMeansExecutedOnce(steps: seq<CoreStep>, c: Core)
    requires RunsTo(INITIAL_CORE, steps, c) && Enabled(c, TakeResult) && c.results[0].CommandDone?
    ensures var l, token := LedgerOf(steps, c), c.results[0].token;
            && Occurrences(StartTokens(l.starts), token) == 1 && Occurrences(EndTokens(l.ends), token) == 1
            && (c.results[0].response.commandType == Ack <==> End(token, None) in l.ends)
            && exists failure :: End(token, failure) in l.ends
                 && c.results[0].response == match failure
                                             case None => AckResponse(token.version, token.sequence)
                                             case Some(error) => NackResponse(token.version, token.sequence, error)
  {
    hide FlowInv, FlowOf, RunsTo, LedgerInv, ExecutionResponse;
    LedgerHolds(steps, c);
    var l, r := LedgerOf(steps, c), c.results[0];
    LastEnd(c, l, r);
    AckMeansNoFailure(r.token, l.ends[|l.ends| - 1].failure);
    OrderedTokensDiffer(c, l);
    OnlyOneEnd(l, |l.ends| - 1);
    DifferentOccurOnce(StartTokens(l.starts), r.token);
    DifferentOccurOnce(EndTokens(l.ends), r.token);
    AnswerOf(r.token, l.ends[|l.ends| - 1].failure);
    assert l.ends[|l.ends| - 1] in l.ends && l.ends[|l.ends| - 1] == End(r.token, l.ends[|l.ends| - 1].failure);
    assert StartTokens(l.starts)[|l.ends| - 1] == r.token && EndTokens(l.ends)[|l.ends| - 1] == r.token;
  }

  lemma OnlyOneEnd(l: Ledger, i: nat)
    requires AllDifferent(EndTokens(l.ends)) && i < |l.ends|
    ensures forall e :: e in l.ends && e.token == l.ends[i].token ==> e == l.ends[i]
  {
    forall j | 0 <= j < |l.ends| && l.ends[j].token == l.ends[i].token
      ensures j == i
    {
      assert EndTokens(l.ends)[j] == EndTokens(l.ends)[i];
    }
  }
}
