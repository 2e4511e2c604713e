/**
 Where the entries of the ledger come from: every acceptance fits the class of the
 request the client sent under its sequence, every command handed to the executor is
 the one that request carries, and a batch runs exactly the requests that joined it.
 One session: no safety event.
 */
module Provenance {
  import opened Types
  import opened Protocol
  import opened Commands
  import opened Coordinator
  import opened CoordinatorHistory
  import opened ExecutionCore
  import opened Batch
  import opened Runtime
  import opened Pipeline
  import opened Dispatcher
  import opened Ledger

  // ---- Requests ----

  /** What requests of each class are accepted for. */
  predicate Fits(purpose: Purpose, r: OwnedRequest) {
    && Decoded(r).Ok?
    && match Classify(Decoded(r).value)
       case ClassBatchBegin => purpose == Opens
       case ClassBatchEnd => purpose == RunsBatch || purpose == TurnedAway
       case ClassStopAll => purpose == Stops
       case ClassBypass => purpose == Answers
       case ClassMutating => purpose == RunsAlone || purpose == Joins || purpose == TurnedAway
  }

  /** The n-th request sent has sequence n. */
  predicate Sent(sent: seq<OwnedRequest>, n: U16) {
    1 <= n <= |sent|
  }

  predicate IsCommandOf(sent: seq<OwnedRequest>, m: Member) {
    Sent(sent, m.token.sequence) && Decoded(sent[m.token.sequence - 1]) == Ok(Typed(m.command))
  }

  predicate IsPurposeOf(sent: seq<OwnedRequest>, a: Acceptance) {
    Sent(sent, a.token.sequence) && Fits(a.purpose, sent[a.token.sequence - 1])
  }

  ghost predicate Commissioned(sent: seq<OwnedRequest>, l: Ledger) {
    && (forall i :: 0 <= i < |l.accepted| ==> IsPurposeOf(sent, l.accepted[i]))
    && (forall m :: m in AllMembers(l) ==> IsCommandOf(sent, m))
  }

  lemma SendingMore(sent: seq<OwnedRequest>, r: OwnedRequest, l: Ledger)
    requires Commissioned(sent, l)
    ensures Commissioned(sent + [r], l)
  {
    hide Fits, Decoded, AllMembers;
    var more := sent + [r];
    forall i | 0 <= i < |l.accepted|
      ensures IsPurposeOf(more, l.accepted[i])
    {
      assert IsPurposeOf(sent, l.accepted[i]);
    }
    forall m | m in AllMembers(l)
      ensures IsCommandOf(more, m)
    {
      assert IsCommandOf(sent, m);
    }
  }

  /** What taking a request records: the purpose fits it, and a new member carries its command. */
  lemma RecordedFits(c: Core, r: OwnedRequest, l: Ledger)
    requires Inv(c.coord) && WellFormed(r) && HasToken(AdmitRequest(c, r).admission)
    requires !ChangesNothing(AdmitRequest(c, r).admission)
    requires AdmitRequest(c, r).admission.ExecuteRequest? ==> l.loaded == []
    ensures var after := RecordRequest(l, c, r);
            && |after.accepted| == |l.accepted| + 1 && after.accepted[..|l.accepted|] == l.accepted
            && after.accepted[|l.accepted|].token == NewToken(c.coord, r)
            && Fits(after.accepted[|l.accepted|].purpose, r)
            && forall m :: m in AllMembers(after) ==>
                 m in AllMembers(l) || (m.token == NewToken(c.coord, r) && Decoded(r) == Ok(Typed(m.command)))
  {
    hide Admit, Inv, Push, NewToken, Decoded, Carried;
    AdmitBodies(c.coord, r, c.stop.inFlight);
    BodyMatchesType(r);
    hide WellFormed;
    AcceptedToken(c, r);
  }

  /** Nothing is gathered twice or taken out: what a step that accepts nothing leaves was there before. */
  lemma CommissionedStays(sent: seq<OwnedRequest>, l: Ledger, after: Ledger)
    requires Commissioned(sent, l) && after.accepted == l.accepted
    requires forall m :: m in AllMembers(after) ==> m in AllMembers(l)
    ensures Commissioned(sent, after)
  {
    hide AllMembers, IsCommandOf, IsPurposeOf;
  }

  lemma CommissionedGrows(sent: seq<OwnedRequest>, l: Ledger, after: Ledger, a: Acceptance, r: OwnedRequest)
    requires Commissioned(sent, l) && after.accepted == l.accepted + [a] && Fits(a.purpose, r)
    requires Sent(sent, a.token.sequence) && sent[a.token.sequence - 1] == r
    requires forall m :: m in AllMembers(after) ==> m in AllMembers(l) || (m.token == a.token && Decoded(r) == Ok(Typed(m.command)))
    ensures Commissioned(sent, after)
  {
    hide AllMembers, Fits, Decoded;
    forall i | 0 <= i < |after.accepted|
      ensures IsPurposeOf(sent, after.accepted[i])
    {
      if i < |l.accepted| {
        assert IsPurposeOf(sent, l.accepted[i]);
      }
    }
    forall m | m in AllMembers(after)
      ensures IsCommandOf(sent, m)
    {
      assert m in AllMembers(l) ==> IsCommandOf(sent, m);
    }
  }

  lemma RequestCommissioned(c: Core, r: OwnedRequest, l: Ledger, sent: seq<OwnedRequest>)
    requires Inv(c.coord) && WellFormed(r) && HasToken(AdmitRequest(c, r).admission)
    requires AdmitRequest(c, r).admission.ExecuteRequest? ==> l.loaded == []
    requires Commissioned(sent, l)
    requires !ChangesNothing(AdmitRequest(c, r).admission) ==> Sent(sent, r.sequence) && sent[r.sequence - 1] == r
    ensures Commissioned(sent, RecordRequest(l, c, r))
  {
    hide Inv, WellFormed, AdmitRequest, Commissioned, Fits, Decoded, AllMembers, HasToken, RecordExecute, RecordCollect;
    if !ChangesNothing(AdmitRequest(c, r).admission) {
      RecordedFits(c, r, l);
      var after := RecordRequest(l, c, r);
      hide RecordRequest;
      var a := after.accepted[|l.accepted|];
      assert after.accepted == l.accepted + [a];
      CommissionedGrows(sent, l, after, a, r);
    }
  }

  lemma StepCommissioned(c: Core, step: CoreStep, l: Ledger, sent: seq<OwnedRequest>)
    requires Enabled(c, step) && !step.TakeRequest? && !step.TakeSafetyEvent? && Commissioned(sent, l)
    ensures Commissioned(sent, Record(l, c, step))
  {
    hide Commissioned, JobOutcome, SawExactly, ResetInputs;
    var after := Record(l, c, step);
    if step.StartJob? && c.jobs[0].CommandJob? && c.jobs[0].request.token.Some? {
      StartedMembers(l, c.jobs[0]);
    }
    hide Carried, Enabled;
    CommissionedStays(sent, l, after);
  }

  // ---- Batches ----

  /** The requests that joined the batch now open; none if none is. */
  function Joined(accepted: seq<Acceptance>): seq<CompletionToken> {
    if accepted == [] then []
    else
      var last := accepted[|accepted| - 1];
      match last.purpose
      case Joins => Joined(accepted[..|accepted| - 1]) + [last.token]
      case Answers => Joined(accepted[..|accepted| - 1])
      case _ => []
  }

  lemma JoinedAppend(accepted: seq<Acceptance>, a: Acceptance)
    ensures Joined(accepted + [a]) ==
            match a.purpose
            case Joins => Joined(accepted) + [a.token]
            case Answers => Joined(accepted)
            case _ => []
  {
    assert (accepted + [a])[..|accepted|] == accepted;
  }

  /** If this token ends a batch, the members are what had joined it by then. */
  ghost predicate MadeOf(l: Ledger, token: CompletionToken, members: seq<Member>) {
    forall k :: 0 <= k < |l.accepted| && l.accepted[k] == Acceptance(token, RunsBatch) ==>
      MemberTokens(members) == Joined(l.accepted[..k])
  }

  ghost predicate Batched(c: Core, l: Ledger) {
    && MemberTokens(l.gathered) == Joined(l.accepted)
    && (forall i :: 0 <= i < |l.starts| ==> MadeOf(l, l.starts[i].token, l.starts[i].members))
    && (match Unstarted(c)
        case None => true
        case Some(job) => job.CommandJob? && job.request.token.Some? && MadeOf(l, job.request.token.value, l.loaded))
  }

  lemma MadeOfStays(l: Ledger, after: Ledger, token: CompletionToken, members: seq<Member>)
    requires MadeOf(l, token, members) && |after.accepted| == |l.accepted| + 1 && after.accepted[..|l.accepted|] == l.accepted
    requires after.accepted[|l.accepted|].token != token
    ensures MadeOf(after, token, members)
  {
    hide Joined, MemberTokens;
    forall k | 0 <= k < |after.accepted| && after.accepted[k] == Acceptance(token, RunsBatch)
      ensures MemberTokens(members) == Joined(after.accepted[..k])
    {
      assert k < |l.accepted| && after.accepted[..k] == l.accepted[..k];
      assert l.accepted[k] == after.accepted[..|l.accepted|][k];
    }
  }

  /** A step that accepts and starts nothing. */
  lemma BatchedStays(c: Core, next: Core, l: Ledger, after: Ledger)
    requires Batched(c, l) && after == l.(ends := after.ends) && (Unstarted(next) == Unstarted(c) || Unstarted(next) == None)
    ensures Batched(next, after)
  {
    hide Unstarted, Joined, MemberTokens;
  }

  lemma BatchedStart(c: Core, next: Core, l: Ledger, job: Job)
    requires Batched(c, l) && Unstarted(c) == Some(job) && Unstarted(next) == None && job.CommandJob?
    ensures Batched(next, RecordStart(l, job))
  {
    hide Unstarted, Joined, MemberTokens;
    var after := RecordStart(l, job);
    forall i | 0 <= i < |after.starts|
      ensures MadeOf(after, after.starts[i].token, after.starts[i].members)
    {
      if i < |l.starts| {
        assert MadeOf(l, l.starts[i].token, l.starts[i].members);
      } else {
        assert MadeOf(l, job.request.token.value, l.loaded);
      }
    }
  }

  lemma BatchedAccept(c: Core, next: Core, l: Ledger, after: Ledger, a: Acceptance)
    requires Batched(c, l) && InOrder(c, l) && NextUp(c, l) && a.token.admissionId == c.coord.nextId
    requires after == l.(accepted := l.accepted + [a], gathered := after.gathered)
    requires MemberTokens(after.gathered) == Joined(after.accepted) && Unstarted(next) == Unstarted(c)
    ensures Batched(next, after)
  {
    hide Unstarted, Joined, MemberTokens, MadeOf, AllMembers;
    forall i | 0 <= i < |after.starts|
      ensures MadeOf(after, after.starts[i].token, after.starts[i].members)
    {
      assert StartId(l.starts[i]) < c.coord.nextId;
      MadeOfStays(l, after, l.starts[i].token, l.starts[i].members);
    }
    if Unstarted(c).Some? {
      MadeOfStays(l, after, Unstarted(c).value.request.token.value, l.loaded);
    }
  }

  lemma BatchedExecute(c: Core, next: Core, l: Ledger, after: Ledger, a: Acceptance, job: Job)
    requires Batched(c, l) && InOrder(c, l) && a.token.admissionId == c.coord.nextId && job.CommandJob? && job.request.token == Some(a.token)
    requires after == l.(accepted := l.accepted + [a], loaded := after.loaded, gathered := after.gathered)
    requires MemberTokens(after.gathered) == Joined(after.accepted) && Unstarted(next) == Some(job)
    requires a.purpose == RunsBatch ==> after.loaded == l.gathered
    ensures Batched(next, after)
  {
    hide Unstarted, Joined, MemberTokens, AllMembers;
    forall i | 0 <= i < |after.starts|
      ensures MadeOf(after, after.starts[i].token, after.starts[i].members)
    {
      assert StartId(l.starts[i]) < c.coord.nextId;
      MadeOfStays(l, after, l.starts[i].token, l.starts[i].members);
    }
    forall k | 0 <= k < |after.accepted| && after.accepted[k] == Acceptance(a.token, RunsBatch)
      ensures MemberTokens(after.loaded) == Joined(after.accepted[..k])
    {
      assert k < |l.accepted| ==> AcceptanceId(l.accepted[k]) < c.coord.nextId;
      assert after.accepted[..k] == l.accepted;
    }
  }

  /** What has joined the open batch is what is gathered for it. */
  lemma RequestGathered(c: Core, r: OwnedRequest, l: Ledger)
    requires FlowInv(FlowOf(c)) && LedgerInv(c, l) && WellFormed(r) && HasToken(AdmitRequest(c, r).admission)
    requires MemberTokens(l.gathered) == Joined(l.accepted)
    ensures MemberTokens(RecordRequest(l, c, r).gathered) == Joined(RecordRequest(l, c, r).accepted)
  {
    hide FlowInv, FlowOf, LedgerInv, Admit, WellFormed, Push, Joined, NewToken, Inv, CurrentOwner, GainsActive, WithinWaitLimit, Batchable;
    var after := RecordRequest(l, c, r);
    if |after.accepted| > |l.accepted| {
      assert after.accepted == l.accepted + [after.accepted[|l.accepted|]];
      JoinedAppend(l.accepted, after.accepted[|l.accepted|]);
    }
    if AdmitRequest(c, r).admission.ExecuteRequest? {
      ExecuteFacts(c, r);
      NothingGathered(c, l, r);
    }
  }

  lemma RequestBatched(c: Core, r: OwnedRequest, l: Ledger)
    requires FlowInv(FlowOf(c)) && LedgerInv(c, l) && Batched(c, l) && c.pc == AtSelect && WellFormed(r)
    requires HasToken(AdmitRequest(c, r).admission)
    ensures Batched(HandleAdmitted(c, r, AdmitRequest(c, r)).core, RecordRequest(l, c, r))
  {
    hide FlowInv, FlowOf, Admit, WellFormed, HandleAdmitted, LedgerInv, Batched, Inv, Joined, Push, NewToken, OneMoreId, Unstarted, MemberTokens, CurrentOwner, GainsActive, Batchable, WithinWaitLimit;
    var next, after := HandleAdmitted(c, r, AdmitRequest(c, r)).core, RecordRequest(l, c, r);
    RevealInv(FlowOf(c));
    SameCoord(c);
    GatheredNow(c, l);
    RequestGathered(c, r, l);
    OrderNow(c, l);
    match AdmitRequest(c, r).admission
    case ExecuteRequest(q) =>
      AcceptedToken(c, r);
      ExecuteFacts(c, r);
      FreeMeansEmpty(FlowOf(c));
      EmptyPlaces(c);
      ExecuteShape(c, r);
      BatchedExecute(c, next, l, after, after.accepted[|l.accepted|], CommandJob(q, c.batch, c.stop.generation, c.cancels));
    case Bypass(_) => AcceptedOther(c, r, l);
    case Collect(_) => AcceptedOther(c, r, l);
    case Immediate(_) => AcceptedOther(c, r, l);
    case Stop(_) => AcceptedOther(c, r, l);
    case _ => RefusalKeeps(c, r);
  }

  lemma GatheredNow(c: Core, l: Ledger)
    requires Batched(c, l)
    ensures MemberTokens(l.gathered) == Joined(l.accepted)
  {
    hide Unstarted, MadeOf;
  }

  lemma OrderNow(c: Core, l: Ledger)
    requires LedgerInv(c, l)
    ensures InOrder(c, l) && NextUp(c, l)
  {
  }

  lemma AcceptedOther(c: Core, r: OwnedRequest, l: Ledger)
    requires Inv(c.coord) && InOrder(c, l) && NextUp(c, l) && Batched(c, l) && c.pc == AtSelect && WellFormed(r)
    requires HasToken(AdmitRequest(c, r).admission)
    requires !ChangesNothing(AdmitRequest(c, r).admission) && !AdmitRequest(c, r).admission.ExecuteRequest?
    requires var after := RecordRequest(l, c, r); MemberTokens(after.gathered) == Joined(after.accepted)
    ensures Batched(HandleAdmitted(c, r, AdmitRequest(c, r)).core, RecordRequest(l, c, r))
  {
    hide Admit, WellFormed, HandleAdmitted, Batched, InOrder, NextUp, Inv, Joined, Push, NewToken, Done, Unstarted, MemberTokens;
    AcceptedToken(c, r);
    OneMoreIdAfter(c, r);
    var after := RecordRequest(l, c, r);
    BatchedAccept(c, HandleAdmitted(c, r, AdmitRequest(c, r)).core, l, after, after.accepted[|l.accepted|]);
  }

  lemma StepBatched(c: Core, step: CoreStep, l: Ledger)
    requires FlowInv(FlowOf(c)) && LedgerInv(c, l) && Batched(c, l) && Enabled(c, step) && !step.TakeSafetyEvent?
    ensures Batched(Step(c, step).core, Record(l, c, step))
  {
    hide FlowInv, FlowOf, LedgerInv, Batched, HandleAdmitted, HandleResult, JobOutcome, ResetInputs, SawExactly, WellFormed, AdmitRequest, RecordRequest, ExecutionResponse, JobAnswer;
    match step
    case TakeRequest(r) => RequestBatched(c, r, l);
    case StartJob =>
      UnstartedAfter(c, step);
      if c.jobs[0].CommandJob? && c.jobs[0].request.token.Some? {
        BatchedStart(c, BeginJob(c), l, c.jobs[0]);
      } else {
        BatchedStays(c, BeginJob(c), l, l);
      }
    case TakeSafetyEvent =>
    case _ =>
      UnstartedAfter(c, step);
      BatchedStays(c, Step(c, step).core, l, Record(l, c, step));
  }

  /** Between requests, an unstarted command can only be started. */
  lemma UnstartedAfter(c: Core, step: CoreStep)
    requires FlowInv(FlowOf(c)) && Enabled(c, step) && !step.TakeRequest? && !step.TakeSafetyEvent?
    ensures var next := Step(c, step).core;
            Unstarted(next) == Unstarted(c) || Unstarted(next) == None
    ensures step.StartJob? && c.jobs[0].CommandJob? ==> Unstarted(c) == Some(c.jobs[0]) && Unstarted(Step(c, step).core) == None
  {
    hide FlowInv, HandleResult, JobOutcome, ResetInputs, SawExactly, ExecutionResponse, JobAnswer, EndJob;
    match step
    case StartJob => BeginMoves(c);
    case TakeResult => ResultKeepsIds(c.(results := c.results[1..]), c.results[0]);
    case FinishCommand(schedule, capsLock) =>
      OnlyFirstQueued(c);
      var o := JobOutcome(c.exec.job, JobWorld(c, schedule), capsLock);
      var token := c.exec.job.request.token.value;
      EndMoves(c, o, CommandDone(token, ExecutionResponse(token, JobAnswer(c.exec.job), o.failure), o.world.held));
    case FinishEmergency(schedule) =>
      OnlyFirstQueued(c);
      var o := ResetInputs(JobWorld(c, schedule));
      EndMoves(c, o, EmergencyDone(o.world.held));
    case TakeRequest(_) =>
    case TakeSafetyEvent =>
    case _ => HandoverPlaces(c, step);
  }
}
