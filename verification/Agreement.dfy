/**
 Host and device agree: the client takes every answer the device can give to a command
 for what the device means by it.
 */
module Agreement {
  import opened Types
  import opened Protocol
  import opened Commands
  import opened ExecutionCore
  import opened Coordinator
  import opened CoordinatorHistory
  import opened Runtime
  import opened Pipeline
  import opened Dispatcher
  import opened Guarantees
  import opened Client
  import opened Wire

  /** What the client makes of a device's answer to a command of this type, on attempt k of n. */
  function Understood(commandType: CommandType, response: CachedResponse, attempt: nat, retries: nat): Verdict {
    Judge(Got(response.commandType, response.payload), ExpectedType(commandType), attempt, retries)
  }

  /**
   Every answer that can complete a command, and only such an answer, settles it at once: a refusal with exactly
   its error, anything else as success with exactly its payload.
   */
  lemma FinalAnswersUnderstood(commandType: CommandType, response: CachedResponse, attempt: nat, retries: nat)
    requires IsFinal(response, ExpectedFor(commandType))
    ensures Understood(commandType, response, attempt, retries) ==
              if response.commandType == Nack then Failed(NackReceived(response.payload[0])) else Succeeded(response.payload)
  {
  }

  /** A device's refusal reaches the caller as the error it was. */
  lemma RefusalsUnderstood(commandType: CommandType, version: Byte, sequence: U16, error: ErrorCode, attempt: nat, retries: nat)
    ensures var verdict := Understood(commandType, NackResponse(version, sequence, error), attempt, retries);
            verdict.Failed? && verdict.error.NackReceived? && ErrorFromByte(verdict.error.code) == Some(error)
  {
    ErrorsOnTheWire(error, ErrorByte(error));
  }

  /** The reason a BUSY gives. */
  function ReasonFromByte(b: Byte): Option<BusyReason> {
    if b == 1 then Some(ActiveDuplicate)
    else if b == 2 then Some(BatchExecuting)
    else if b == 3 then Some(ExecutorOccupied)
    else None
  }

  /** A device's BUSY is well formed and gives its reason: the client waits the ten milliseconds it asks for and tries again, unless it was the last try. */
  lemma BusyUnderstood(commandType: CommandType, version: Byte, sequence: U16, reason: BusyReason, attempt: nat, retries: nat)
    ensures var response := BusyResponse(version, sequence, reason, BUSY_RETRY_MS);
            && response.commandType == Busy && BusyDelay(response.payload) == Some(10)
            && ReasonFromByte(response.payload[0]) == Some(reason)
            && Understood(commandType, response, attempt, retries) == if attempt < retries then Again else Failed(StillBusy)
  {
  }

  /** What the device says about itself: protocol version, and the payload limit big end first. */
  predicate TellsLimits(payload: seq<Byte>) {
    |payload| >= 3 && payload[0] == PROTOCOL_VERSION && BigEndian(payload[1], payload[2]) == MAX_PAYLOAD_SIZE
  }

  /** The capability bits a request of this version is told about: the last three only from version 2 on. */
  function Capabilities(version: Byte): nat {
    1 + 2 + 4 + 8 + if version == 2 then 16 + 32 + 64 else 0
  }

  /** Every query is answered with a success for the client that sent it: PING and heartbeat emptily, the others with what they ask. */
  lemma QueriesSucceed(r: OwnedRequest, token: CompletionToken, attempt: nat, retries: nat)
    requires r.commandType in {Ping, GetInfo, GetCaps, Heartbeat}
    ensures var response := BypassResponse(r, token);
            && Understood(r.commandType, response, attempt, retries) == Succeeded(response.payload)
            && (r.commandType in {Ping, Heartbeat} ==> response.payload == [])
            && (r.commandType in {GetInfo, GetCaps} ==> TellsLimits(response.payload))
            && (r.commandType == GetCaps ==>
                  |response.payload| == 10 && BigEndian(response.payload[3], response.payload[4]) == Capabilities(r.version))
            && response.version == token.version && response.sequence == token.sequence
  {
  }

  /**
   What a job answers: an ACK, understood as success, exactly if it ended without failure, and otherwise a
   refusal understood as the very error the job ended with.
   */
  lemma JobsUnderstood(token: CompletionToken, failure: Option<ErrorCode>, commandType: CommandType, attempt: nat, retries: nat)
    requires ExpectedFor(commandType) == ExpectAck
    ensures var response := ExecutionResponse(token, DeviceAck, failure);
            && response.version == token.version && response.sequence == token.sequence
            && match failure
               case None => Understood(commandType, response, attempt, retries) == Succeeded([])
               case Some(error) =>
                 var verdict := Understood(commandType, response, attempt, retries);
                 verdict.Failed? && verdict.error.NackReceived? && ErrorFromByte(verdict.error.code) == Some(error)
  {
    if failure.Some? {
      ErrorsOnTheWire(failure.value, ErrorByte(failure.value));
    }
  }

  /** The response bears the version and sequence of the request. */
  predicate Answers(r: OwnedRequest, response: CachedResponse) {
    response.version == r.version && response.sequence == r.sequence
  }

  /** What the client of r makes of what it hears when the dispatcher has decided. */
  ghost predicate HeardAs(r: OwnedRequest, admission: Admission, heard: seq<CachedResponse>, attempt: nat, retries: nat) {
    match admission
    case Reject(error) =>
      && |heard| == 1 && Answers(r, heard[0])
      && var verdict := Understood(r.commandType, heard[0], attempt, retries);
         verdict.Failed? && verdict.error.NackReceived? && ErrorFromByte(verdict.error.code) == Some(error)
    case BusyNow(reason) =>
      && |heard| == 1 && Answers(r, heard[0]) && |heard[0].payload| == 3 && ReasonFromByte(heard[0].payload[0]) == Some(reason)
      && Understood(r.commandType, heard[0], attempt, retries) == if attempt < retries then Again else Failed(StillBusy)
    case Bypass(_) =>
      |heard| == 1 && Answers(r, heard[0]) && Understood(r.commandType, heard[0], attempt, retries) == Succeeded(heard[0].payload)
    case Immediate(_) =>
      |heard| == 1 && Answers(r, heard[0]) && Understood(r.commandType, heard[0], attempt, retries) == Succeeded([])
    case Replay(response) => heard == [response]
    case Collect(_) => true
    case _ => heard == []
  }

  /**
   What a client hears as soon as its request is decided, in every reachable state: a rejection as its error, a
   BUSY as one more try, a query and an opened batch as success, a retry of a finished request as its first
   answer, and nothing yet for what has to run or to be released first. Guarantees.CollectAnswered covers the rest.
   */
  lemma DecisionsUnderstood(c: Core, r: OwnedRequest, attempt: nat, retries: nat)
    requires Reachable(c) && c.pc == AtSelect && WellFormed(r)
    ensures HasToken(AdmitRequest(c, r).admission)
    ensures var a := AdmitRequest(c, r);
            HeardAs(r, a.admission, HandleAdmitted(c, r, a).responses, attempt, retries)
  {
    hide Admit, WellFormed, Inv, FlowInv, FlowOf, Reachable, CompleteOr, Answers, Understood, ErrorFromByte, ReasonFromByte, BypassResponse;
    NoUnreachableBranch(c, r);
    ReachableFlow(c);
    RevealInv(FlowOf(c));
    SameCoordinator(c);
    AdmitFacts(c, r);
    match AdmitRequest(c, r).admission
    case Reject(error) => RefusalHeard(r, error, attempt, retries);
    case BusyNow(reason) => BusyHeard(r, reason, attempt, retries);
    case Bypass(q) => QueryHeard(r, q, NewToken(c.coord, r), attempt, retries);
    case Immediate(_) =>
      AdmitBodies(c.coord, r, c.stop.inFlight);
      AckExpected(r, Decoded(r).value);
      OpeningHeard(r, attempt, retries);
    case _ =>
  }

  lemma RefusalHeard(r: OwnedRequest, error: ErrorCode, attempt: nat, retries: nat)
    ensures HeardAs(r, Reject(error), [NackResponse(r.version, r.sequence, error)], attempt, retries)
  {
    RefusalsUnderstood(r.commandType, r.version, r.sequence, error, attempt, retries);
  }

  lemma BusyHeard(r: OwnedRequest, reason: BusyReason, attempt: nat, retries: nat)
    ensures HeardAs(r, BusyNow(reason), [BusyResponse(r.version, r.sequence, reason, BUSY_RETRY_MS)], attempt, retries)
  {
    BusyUnderstood(r.commandType, r.version, r.sequence, reason, attempt, retries);
  }

  lemma QueryHeard(r: OwnedRequest, q: OwnedRequest, token: CompletionToken, attempt: nat, retries: nat)
    requires q.commandType == r.commandType && token.version == r.version && token.sequence == r.sequence
    ensures HeardAs(r, Bypass(q), [BypassResponse(q, token)], attempt, retries)
  {
  }

  lemma OpeningHeard(r: OwnedRequest, attempt: nat, retries: nat)
    requires ExpectedFor(r.commandType) == ExpectAck
    ensures HeardAs(r, Immediate(AckResponse(r.version, r.sequence)), [AckResponse(r.version, r.sequence)], attempt, retries)
  {
  }
}
