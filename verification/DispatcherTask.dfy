/**
 The dispatcher task as the source writes it: handlers that change the coordinator, the
 collector, the stop core and the copied input state in place. Each is proved to be the
 corresponding step of the transition system.
 */
module DispatcherTask {
  import opened Types
  import opened Protocol
  import opened Commands
  import opened InputState
  import opened Batch
  import opened Coordinator
  import opened CoordinatorHistory
  import opened Cancellation
  import opened Runtime

  /** What a handler asks of the channels: responses to queue, a generation to publish, then a job to send. */
  datatype Effects = Effects(responses: seq<CachedResponse>, publish: Option<U32>, job: Option<Job>)

  const NOTHING := Effects([], None, None)

  class Dispatcher {
    const coordinator: Coordinator
    const stop: StopCore
    var batch: BatchCollector?
    var inputState: Held
    var cancels: nat

    constructor ()
      ensures Seen(INITIAL_CORE) == INITIAL_CORE
      ensures fresh(coordinator) && fresh(stop) && fresh(stop.cancellation)
    {
      coordinator := new Coordinator();
      stop := new StopCore();
      batch := null;
      inputState := IDLE;
      cancels := 0;
    }

    ghost function BatchView(): Option<Collector>
      reads this, batch
    {
      if batch == null then None else Some(batch.View())
    }

    /** The given state with the dispatcher's own part replaced by what the objects hold now. */
    ghost function Seen(c: Core): Core
      reads this, coordinator, stop, stop.cancellation, batch
    {
      c.(coord := coordinator.View(), batch := BatchView(), shadow := inputState, stop := stop.View(), cancels := cancels)
    }

    /** The state after a handler that asked for these effects. */
    ghost function After(c: Core, e: Effects): Core
      reads this, coordinator, stop, stop.cancellation, batch
    {
      Seen(c).(cancel := if e.publish.Some? then e.publish else c.cancel,
               pc := if e.job.Some? then SendingJob(e.job.value) else AtSelect)
    }

    method TryComplete(token: CompletionToken, response: CachedResponse) returns (accepted: bool)
      modifies coordinator
      ensures coordinator.View() == CompleteOr(old(coordinator.View()), token, response)
      ensures accepted == Complete(old(coordinator.View()), token, response).Ok?
    {
      var error := coordinator.CompleteRequest(token, response);
      accepted := error.None?;
    }

    /** apply_emergency_action, up to its send. */
    method ScheduleRelease(responses: seq<CachedResponse>, ghost c: Core) returns (e: Effects)
      requires c == Seen(c) && c.pc == AtSelect
      modifies this`cancels, stop, stop.cancellation
      ensures e.responses == responses && After(c, e) == Emergency(c, ScheduleEmergency(c.stop))
    {
      var action := stop.Schedule();
      cancels := cancels + 1;
      e := Effects(responses, Some(action.cancelGeneration), if action.enqueue then Some(EmergencyJob) else None);
    }

    method Execute(request: OwnedRequest, ghost c: Core) returns (e: Effects)
      requires request.token.Some? && c == Seen(c) && c.pc == AtSelect
      modifies this`batch, coordinator
      ensures Handled(After(c, e), e.responses) == HandleExecute(c, old(coordinator.View()), request)
    {
      var baseline := stop.cancellation.generation;
      if request.commandType == CommandType.BatchEnd {
        if batch == null {
          var response := TokenNack(request.token.value, ErrorCode.BatchState);
          var _ := TryComplete(request.token.value, response);
          return Effects([response], None, None);
        }
        var collected := Collector(batch.commands, batch.payloadBytes, batch.shadow);
        batch := null;
        return Effects([], None, Some(CommandJob(request, Some(collected), baseline, cancels)));
      }
      e := Effects([], None, Some(CommandJob(request, None, baseline, cancels)));
    }

    method Collect(request: OwnedRequest, ghost c: Core) returns (e: Effects)
      requires request.token.Some? && c == Seen(c) && c.pc == AtSelect
      modifies this`batch, this`cancels, batch, coordinator, stop, stop.cancellation
      ensures Handled(After(c, e), e.responses) == HandleCollect(c, old(coordinator.View()), request)
    {
      hide Push, Complete, AbortBatch;
      var token := request.token.value;
      var error: Option<BatchError> := Some(NotBatchable);
      if request.body.Typed? && batch != null {
        error := batch.PushCommand(request.body.command);
      }
      if error.None? {
        var _ := TryComplete(token, TokenAck(token));
        return Effects([TokenAck(token)], None, None);
      }
      var response := TokenNack(token, BatchErrorCode(error.value));
      batch := null;
      coordinator.Abort();
      var _ := TryComplete(token, response);
      e := ScheduleRelease([response], Seen(c));
    }

    method CompleteBypass(request: OwnedRequest, ghost c: Core) returns (e: Effects)
      requires request.token.Some? && c == Seen(c) && c.pc == AtSelect
      modifies coordinator
      ensures var response := BypassResponse(request, request.token.value);
              e == Effects([response], None, None)
              && After(c, e) == c.(coord := CompleteOr(old(coordinator.View()), request.token.value, response))
    {
      var response := BypassResponse(request, request.token.value);
      var _ := TryComplete(request.token.value, response);
      e := Effects([response], None, None);
    }

    /** One request out of REQUESTS. */
    method TakeRequest(r: OwnedRequest, ghost c: Core) returns (e: Effects)
      requires c == Seen(c) && c.pc == AtSelect && |c.coord.cache| <= RESPONSE_CACHE_SIZE && HasToken(AdmitRequest(c, r).admission)
      modifies this`batch, this`cancels, batch, coordinator, stop, stop.cancellation
      ensures Handled(After(c, e), e.responses) == HandleAdmitted(c, r, AdmitRequest(c, r))
    {
      hide Admit, HandleExecute, HandleCollect, BypassResponse, ScheduleEmergency;
      var admission := coordinator.AdmitPrepared(r, stop.inFlight);
      ghost var admitted := c.(coord := coordinator.View());
      match admission {
        case ExecuteRequest(request) =>
          e := Execute(request, admitted);
          SameExecute(c, admitted, request);
        case Collect(request) =>
          e := Collect(request, admitted);
          SameCollect(c, admitted, request);
        case Bypass(request) =>
          e := CompleteBypass(request, admitted);
        case NoResponse(_) =>
          e := NOTHING;
        case Stop(request) =>
          batch := null;
          var action := stop.Stop(request.token.value);
          cancels := cancels + 1;
          e := Effects([], Some(action.cancelGeneration), if action.enqueue then Some(EmergencyJob) else None);
        case Replay(response) =>
          e := Effects([response], None, None);
        case Immediate(response) =>
          batch := new BatchCollector(inputState);
          e := Effects([response], None, None);
        case BusyNow(reason) =>
          e := Effects([BusyResponse(r.version, r.sequence, reason, BUSY_RETRY_MS)], None, None);
        case Reject(error) =>
          e := Effects([NackResponse(r.version, r.sequence, error)], None, None);
      }
    }

    /** Acknowledges every STOP_ALL the finished emergency answers, in order. */
    method AckStops(tokens: seq<CompletionToken>) returns (responses: seq<CachedResponse>)
      modifies coordinator
      ensures (coordinator.View(), responses) == AckAll(old(coordinator.View()), tokens)
    {
      hide Complete, AckAll;
      responses := [];
      assert tokens[0..] == tokens;
      AckedStart(coordinator.View(), tokens);
      for i := 0 to |tokens|
        invariant AckAll(old(coordinator.View()), tokens) == Acked(coordinator.View(), tokens[i..], responses)
      {
        assert tokens[i..][0] == tokens[i] && tokens[i..][1..] == tokens[i + 1..];
        AckedStep(coordinator.View(), tokens[i..], responses);
        var accepted := TryComplete(tokens[i], TokenAck(tokens[i]));
        if accepted {
          responses := responses + [TokenAck(tokens[i])];
        }
      }
      AckedNone(coordinator.View(), responses);
      assert tokens[|tokens|..] == [];
    }

    /** One result out of RESULTS. */
    method TakeResult(result: JobResult, ghost c: Core) returns (e: Effects)
      requires c == Seen(c) && c.pc == AtSelect
      modifies this`inputState, coordinator, stop
      ensures Handled(After(c, e), e.responses) == HandleResult(c, result)
    {
      hide Complete, AckAll;
      inputState := result.held;
      match result {
        case CommandDone(token, response, _) =>
          var accepted := TryComplete(token, response);
          e := Effects(if accepted then [response] else [], None, None);
        case EmergencyDone(_) =>
          var tokens := stop.CompleteEmergency();
          var responses := AckStops(tokens);
          e := Effects(responses, None, None);
      }
    }

    /** A safety event; the queues and the session atomics around it are in Session. */
    method TakeSafetyEvent(ghost c: Core) returns (e: Effects)
      requires c == Seen(c) && c.pc == AtSelect && c.coord.session + 1 < U64_LIMIT
      modifies this`batch, this`cancels, coordinator, stop, stop.cancellation
      ensures e.responses == [] && After(c, e) == HandleSafetyEvent(c)
    {
      batch := null;
      stop.ClearPendingStops();
      coordinator.Clear();
      e := ScheduleRelease([], Seen(c));
    }
  }

  /** The acknowledgements still to come, behind those already made. */
  function Acked(s: CoordState, tokens: seq<CompletionToken>, before: seq<CachedResponse>): (CoordState, seq<CachedResponse>) {
    (AckAll(s, tokens).0, before + AckAll(s, tokens).1)
  }

  lemma AckedStart(s: CoordState, tokens: seq<CompletionToken>)
    ensures Acked(s, tokens, []) == AckAll(s, tokens)
  {
    assert [] + AckAll(s, tokens).1 == AckAll(s, tokens).1;
  }

  lemma AckedNone(s: CoordState, before: seq<CachedResponse>)
    ensures Acked(s, [], before) == (s, before)
  {
    assert before + [] == before;
  }

  lemma AckedStep(s: CoordState, tokens: seq<CompletionToken>, before: seq<CachedResponse>)
    requires tokens != []
    ensures var ack := TokenAck(tokens[0]);
            Acked(s, tokens, before)
            == Acked(CompleteOr(s, tokens[0], ack), tokens[1..], if Complete(s, tokens[0], ack).Ok? then before + [ack] else before)
  {
    hide Complete;
    var ack := TokenAck(tokens[0]);
    var rest := AckAll(CompleteOr(s, tokens[0], ack), tokens[1..]).1;
    assert (before + [ack]) + rest == before + ([ack] + rest);
    assert before + ([] + rest) == before + rest;
  }

  lemma SameExecute(c: Core, admitted: Core, q: OwnedRequest)
    requires q.token.Some? && admitted == c.(coord := admitted.coord)
    ensures HandleExecute(admitted, admitted.coord, q) == HandleExecute(c, admitted.coord, q)
  {
    hide CompleteOr;
  }

  lemma SameCollect(c: Core, admitted: Core, q: OwnedRequest)
    requires q.token.Some? && admitted == c.(coord := admitted.coord)
    ensures HandleCollect(admitted, admitted.coord, q) == HandleCollect(c, admitted.coord, q)
  {
    hide CompleteOr, Push;
  }
}
