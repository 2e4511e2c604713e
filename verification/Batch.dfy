/**
 Batches: collected against a shadow of the input state (src/batch.rs), executed
 later on the real one through an encode and decode of every command
 (execute_batch in src/execution_core.rs, its backend in src/runtime.rs).
 */
module Batch {
  import opened Types
  import opened Protocol
  import opened Commands
  import opened InputState
  import opened Ascii
  import opened ExecutionCore
  import opened Executor

  const BATCH_MAX_COMMANDS := 32
  const BATCH_MAX_PAYLOAD_BYTES := 8192

  datatype BatchError =
    | Capacity
    | TooManyKeys
    | UnsupportedAscii(byte: Byte)
    | KeyboardBusy
    | WaitTooLong
    | NotBatchable

  function MapInputError(error: InputError): BatchError {
    match error
    case TooManyKeys => BatchError.TooManyKeys
    case TooManyStrokes => Capacity
    case UnsupportedAscii(byte) => BatchError.UnsupportedAscii(byte)
  }

  function BatchErrorCode(error: BatchError): ErrorCode {
    match error
    case Capacity => BatchCapacity
    case TooManyKeys => ErrorCode.TooManyKeys
    case UnsupportedAscii(_) => ErrorCode.UnsupportedAscii
    case KeyboardBusy => ErrorCode.KeyboardBusy
    case WaitTooLong => ErrorCode.WaitTooLong
    case NotBatchable => BadCommand
  }

  /** validate_command: the shadow after the command, or why it may not join the batch. */
  function Validate(shadow: Held, command: OwnedCommand): Result<Held, BatchError> {
    match command
    case DoKeyDown(stroke) =>
      (match shadow.keyboard.KeyDown(stroke)
       case Err(error) => Err(MapInputError(error))
       case Ok(next) => Ok(shadow.(keyboard := next)))
    case DoKeyUp(stroke) => Ok(shadow.(keyboard := shadow.keyboard.KeyUp(stroke)))
    case DoKeyTap(stroke) =>
      (match shadow.keyboard.TapPlan(stroke)
       case Err(error) => Err(MapInputError(error))
       case Ok(_) => Ok(shadow))
    case DoTypeAscii(bytes) =>
      if !shadow.keyboard.IsIdle() then Err(BatchError.KeyboardBusy)
      else
        (match AsciiStrokes(bytes, false)
         case Err(error) => Err(MapInputError(error))
         case Ok(_) => Ok(shadow))
    case DoMouseMoveRel(_, _) => Ok(shadow)
    case DoMouseWheel(_) => Ok(shadow)
    case DoMouseButtonDown(button) => Ok(shadow.(buttons := Or(shadow.buttons, Mask(button))))
    case DoMouseButtonUp(button) => Ok(shadow.(buttons := AndNot(shadow.buttons, Mask(button))))
    case DoMouseClick(_) => Ok(shadow)
    case DoWaitMs(milliseconds) => if milliseconds > MAX_WAIT_MS then Err(BatchError.WaitTooLong) else Ok(shadow)
    case _ => Err(NotBatchable)
  }

  datatype Collector = Collector(commands: seq<OwnedCommand>, payloadBytes: nat, shadow: Held)

  function Begin(initial: Held): Collector {
    Collector([], 0, initial)
  }

  /** Validation comes first, then the command count, then the byte count; a refusal changes nothing. */
  function Push(c: Collector, command: OwnedCommand): Result<Collector, BatchError> {
    match Validate(c.shadow, command)
    case Err(error) => Err(error)
    case Ok(shadow) =>
      if |c.commands| + 1 > BATCH_MAX_COMMANDS then Err(Capacity)
      else if c.payloadBytes + PayloadLen(command) > BATCH_MAX_PAYLOAD_BYTES then Err(Capacity)
      else Ok(Collector(c.commands + [command], c.payloadBytes + PayloadLen(command), shadow))
  }

  class BatchCollector {
    var commands: seq<OwnedCommand>
    var payloadBytes: nat
    var shadow: Held

    ghost function View(): Collector
      reads this
    {
      Collector(commands, payloadBytes, shadow)
    }

    constructor (initial: Held)
      ensures View() == Begin(initial)
    {
      commands, payloadBytes, shadow := [], 0, initial;
    }

    method PushCommand(command: OwnedCommand) returns (error: Option<BatchError>)
      modifies this
      ensures match Push(old(View()), command)
              case Ok(next) => error.None? && View() == next
              case Err(e) => error == Some(e) && View() == old(View())
    {
      var next := Validate(shadow, command);
      if next.Err? {
        return Some(next.error);
      }
      if |commands| + 1 > BATCH_MAX_COMMANDS {
        return Some(Capacity);
      }
      var total := payloadBytes + PayloadLen(command);
      if total > BATCH_MAX_PAYLOAD_BYTES {
        return Some(Capacity);
      }
      commands, payloadBytes, shadow := commands + [command], total, next.value;
      error := None;
    }
  }

  // ---- What a collected batch promises ----

  function PayloadTotal(commands: seq<OwnedCommand>): nat {
    if commands == [] then 0 else PayloadTotal(commands[..|commands| - 1]) + PayloadLen(commands[|commands| - 1])
  }

  /** Every command would succeed in turn, starting from here, and ends there. */
  ghost predicate Predicts(from: Held, commands: seq<OwnedCommand>, to: Held)
    decreases |commands|
  {
    if commands == [] then from == to
    else
      && Refusal(commands[0], from).None? && WithinWaitLimit(commands[0])
      && Predicts(NextHeld(commands[0], from), commands[1..], to)
  }

  predicate Batchable(command: Command) {
    !command.DoPing? && !command.DoGetInfo? && !command.DoGetCaps? && !command.DoHeartbeat? && !command.DoStopAll?
  }

  ghost predicate Collected(initial: Held, c: Collector) {
    && Predicts(initial, c.commands, c.shadow)
    && (forall command :: command in c.commands ==> Batchable(command))
    && |c.commands| <= BATCH_MAX_COMMANDS
    && c.payloadBytes == PayloadTotal(c.commands) <= |c.commands| * MAX_PAYLOAD_SIZE
  }

  /** Validation accepts exactly the batchable commands the executor would not refuse, with its next state. */
  lemma ValidationPredicts(shadow: Held, command: OwnedCommand)
    ensures Validate(shadow, command).Ok? <==>
              Batchable(command) && Refusal(command, shadow).None? && WithinWaitLimit(command)
    ensures Validate(shadow, command).Ok? ==> Validate(shadow, command).value == NextHeld(command, shadow)
    ensures Validate(shadow, command).Err? && Batchable(command) && WithinWaitLimit(command) && |PayloadOf(command)| <= MAX_PAYLOAD_SIZE ==>
              Refusal(command, shadow) == Some(BatchErrorCode(Validate(shadow, command).error))
  {
  }

  function PayloadOf(command: OwnedCommand): seq<Byte> {
    if command.DoTypeAscii? then command.bytes else []
  }

  lemma {:induction false} PredictsAppend(from: Held, commands: seq<OwnedCommand>, mid: Held, command: OwnedCommand, to: Held)
    requires Predicts(from, commands, mid)
    requires Refusal(command, mid).None? && WithinWaitLimit(command) && to == NextHeld(command, mid)
    ensures Predicts(from, commands + [command], to)
    decreases |commands|
  {
    if commands == [] {
      assert [command][1..] == [];
    } else {
      assert (commands + [command])[1..] == commands[1..] + [command];
      PredictsAppend(NextHeld(commands[0], from), commands[1..], mid, command, to);
    }
  }

  /** Collecting keeps the promise, and the byte limit can never be what stops it. */
  lemma PushKeepsPromise(initial: Held, c: Collector, command: OwnedCommand)
    requires Collected(initial, c)
    ensures Collected(initial, Begin(initial))
    ensures Push(c, command).Ok? ==> Collected(initial, Push(c, command).value)
    ensures Push(c, command).Err? && Validate(c.shadow, command).Ok? ==> |c.commands| == BATCH_MAX_COMMANDS
  {
    ValidationPredicts(c.shadow, command);
    PayloadFits(command);
    hide Validate, Refusal, NextHeld, PayloadLen;
    if Push(c, command).Ok? {
      PredictsAppend(initial, c.commands, c.shadow, command, Push(c, command).value.shadow);
      assert (c.commands + [command])[..|c.commands|] == c.commands;
    }
  }

  /**
   A command joins exactly if it may be batched, waits no longer than allowed, would not be refused in the
   shadow state, and is not the 33rd; otherwise the answer names the first of these that fails.
   */
  lemma JoinsExactly(initial: Held, c: Collector, command: OwnedCommand)
    requires Collected(initial, c)
    ensures match Push(c, command)
            case Ok(next) =>
              && Batchable(command) && WithinWaitLimit(command) && Refusal(command, c.shadow).None? && |c.commands| < 32
              && next.commands == c.commands + [command] && next.shadow == NextHeld(command, c.shadow)
            case Err(error) =>
              Some(BatchErrorCode(error)) == if !Batchable(command) then Some(BadCommand)
                                       else if !WithinWaitLimit(command) then Some(ErrorCode.WaitTooLong)
                                       else if Refusal(command, c.shadow).Some? then Refusal(command, c.shadow)
                                       else if |c.commands| == 32 then Some(BatchCapacity) else None
  {
    ValidationPredicts(c.shadow, command);
    if Validate(c.shadow, command).Err? {
      ValidationRefuses(c.shadow, command);
    }
    PushKeepsPromise(initial, c, command);
    hide Validate, Refusal, NextHeld, PayloadLen, Predicts;
  }

  lemma ValidationRefuses(shadow: Held, command: OwnedCommand)
    requires Validate(shadow, command).Err?
    ensures !Batchable(command) ==> Validate(shadow, command).error == NotBatchable
    ensures !WithinWaitLimit(command) ==> Validate(shadow, command).error == BatchError.WaitTooLong
    ensures Batchable(command) && WithinWaitLimit(command) ==>
              Refusal(command, shadow) == Some(BatchErrorCode(Validate(shadow, command).error))
  {
    ValidationPredicts(shadow, command);
    hide KeyboardState.KeyDown, KeyboardState.KeyUp, KeyboardState.TapPlan, AsciiStrokes, CanonicalSlots, Refusal, BatchErrorCode;
  }

  lemma PayloadFits(command: OwnedCommand)
    ensures PayloadLen(command) <= MAX_PAYLOAD_SIZE
  {
  }

  // ---- Execution ----

  /** A stored command runs through an encode and a decode. */
  function ExecuteStored(w: World, command: OwnedCommand, capsLock: bool): Outcome {
    var e := EncodeOwnedCommand(command);
    match DecodeCommand(e.commandType, e.payload)
    case Err(error) => Outcome(w, Some(CommandErrorCode(error)))
    case Ok(decoded) => ExecuteOnce(w, decoded, capsLock)
  }

  /** A single job: the same, with its own recovery. */
  function ExecuteSingle(w: World, command: OwnedCommand, capsLock: bool): Outcome {
    var e := EncodeOwnedCommand(command);
    match DecodeCommand(e.commandType, e.payload)
    case Err(error) => Outcome(w, Some(CommandErrorCode(error)))
    case Ok(decoded) => Execute(w, decoded, capsLock)
  }

  /** capsLock(k) is the host's Caps Lock state when the batch reaches its k-th command. */
  function ExecuteBatch(w: World, commands: seq<OwnedCommand>, capsLock: nat -> bool, k: nat): Outcome
    requires k <= |commands|
    decreases |commands| - k
  {
    if k == |commands| then Outcome(w, None)
    else
      var o := ExecuteStored(w, commands[k], capsLock(k));
      if o.failure.Some? then Outcome(ResetInputs(o.world).world, o.failure)
      else ExecuteBatch(o.world, commands, capsLock, k + 1)
  }

  /** What the first k commands of a batch leave to answer: the response to the last of them. */
  function BatchAnswer(commands: seq<OwnedCommand>, k: nat): DeviceResponse
    requires k <= |commands|
  {
    if k == 0 then DeviceAck else ResponseTo(commands[k - 1])
  }

  /** An encoded command that decodes at all decodes to itself. */
  lemma DecodesToItself(command: OwnedCommand)
    ensures var e := EncodeOwnedCommand(command);
            DecodeCommand(e.commandType, e.payload).Ok? ==> DecodeCommand(e.commandType, e.payload) == Ok(command)
  {
    EncodedCommandSurvives(command);
    if !WithinWaitLimit(command) {
      Be32RoundTrip(command.milliseconds);
      hide Be32, FromBe32;
    } else {
      hide DecodeCommand, EncodeOwnedCommand;
    }
  }

  /** The batch loop over the executor: one release for the whole batch, on the first error. */
  method RunBatch(executor: HidExecutor, commands: seq<OwnedCommand>, capsLock: nat -> bool)
    returns (r: Result<DeviceResponse, ErrorCode>)
    modifies executor
    ensures var o := ExecuteBatch(old(executor.Now()), commands, capsLock, 0);
            && executor.Now() == o.world
            && r == if o.failure.Some? then Err(o.failure.value) else Ok(BatchAnswer(commands, |commands|))
  {
    hide ExecuteOnce, DecodeCommand, EncodeOwnedCommand, ResetInputs, ResponseTo;
    var response := DeviceAck;
    for k := 0 to |commands|
      invariant ExecuteBatch(old(executor.Now()), commands, capsLock, 0) == ExecuteBatch(executor.Now(), commands, capsLock, k)
      invariant response == BatchAnswer(commands, k)
    {
      DecodesToItself(commands[k]);
      var encoded := EncodeOwnedCommand(commands[k]);
      var decoded := DecodeCommand(encoded.commandType, encoded.payload);
      var result: Result<DeviceResponse, ErrorCode>;
      if decoded.Err? {
        result := Err(CommandErrorCode(decoded.error));
      } else {
        result := executor.ExecuteCommandOnce(decoded.value, capsLock(k));
      }
      if result.Err? {
        var _ := executor.ResetAll();
        return Err(result.error);
      }
      response := result.value;
    }
    r := Ok(response);
  }

  lemma StoredSurvives(w: World, command: OwnedCommand, capsLock: bool)
    requires WithinWaitLimit(command)
    ensures ExecuteStored(w, command, capsLock) == ExecuteOnce(w, command, capsLock)
    ensures ExecuteSingle(w, command, capsLock) == Execute(w, command, capsLock)
  {
    EncodedCommandSurvives(command);
    hide DecodeCommand, EncodeOwnedCommand, ExecuteOnce, Execute;
  }

  ghost predicate Interrupted(o: Outcome) {
    && o.failure in {Some(Cancelled), Some(HidWrite)}
    && o.world.held == IDLE && EndsReleased(o.world.attempts)
    && (o.failure == Some(Cancelled) ==> o.world.cancelled)
  }

  /**
   Validation predicts execution: from the state a batch was collected in, on every schedule of write
   faults and cancellations and under any Caps Lock history, the batch either reaches exactly the
   shadow or is interrupted and released. No other error can come out.
   */
  lemma {:induction false} ShadowPredictsExecution(w: World, commands: seq<OwnedCommand>, to: Held, capsLock: nat -> bool, k: nat)
    requires k <= |commands| && Predicts(w.held, commands[k..], to)
    ensures var o := ExecuteBatch(w, commands, capsLock, k);
            if o.failure.None? then o.world.held == to else Interrupted(o)
    decreases |commands| - k
  {
    if k < |commands| {
      var command := commands[k];
      assert commands[k..][0] == command && commands[k..][1..] == commands[k + 1..];
      StoredSurvives(w, command, capsLock(k));
      OnceEnds(w, command, capsLock(k));
      RefusalKinds(command, w.held);
      hide ExecuteStored, ExecuteOnce, Refusal, NextHeld, Script;
      var o := ExecuteStored(w, command, capsLock(k));
      if o.failure.Some? {
        ResetReleases(o.world);
      } else {
        ShadowPredictsExecution(o.world, commands, to, capsLock, k + 1);
      }
    }
  }

  lemma BatchOutcome(w: World, c: Collector, capsLock: nat -> bool)
    requires Collected(w.held, c)
    ensures var o := ExecuteBatch(w, c.commands, capsLock, 0);
            if o.failure.None? then o.world.held == c.shadow else Interrupted(o)
  {
    assert c.commands[0..] == c.commands;
    ShadowPredictsExecution(w, c.commands, c.shadow, capsLock, 0);
  }

  /**
   A single stored command has the same three endings, and a semantic error can only be the one its
   state calls for.
   */
  lemma SingleOutcome(w: World, command: OwnedCommand, capsLock: bool)
    requires WithinWaitLimit(command)
    ensures var o := ExecuteSingle(w, command, capsLock);
            match o.failure
            case None => o.world.held == NextHeld(command, w.held)
            case Some(error) =>
              if RequiresRelease(error) then Interrupted(o)
              else o.world.held == w.held && o.world.attempts == w.attempts && Refusal(command, w.held) == Some(error)
  {
    StoredSurvives(w, command, capsLock);
    OutcomeTrichotomy(w, command, capsLock);
    hide ExecuteSingle, Execute, Refusal, NextHeld, Script;
  }

  /** The reports commands k onwards send, one command after the other. */
  function BatchReports(commands: seq<OwnedCommand>, held: Held, capsLock: nat -> bool, k: nat): seq<Report>
    requires k <= |commands|
    decreases |commands| - k
  {
    if k == |commands| then []
    else Reports(Script(commands[k], held, capsLock(k))) + BatchReports(commands, NextHeld(commands[k], held), capsLock, k + 1)
  }

  lemma StoredDelivers(w: World, command: OwnedCommand, capsLock: bool)
    requires ExecuteStored(w, command, capsLock).failure.None?
    ensures var o := ExecuteStored(w, command, capsLock);
            && o.world.held == NextHeld(command, w.held)
            && o.world.attempts == w.attempts + Delivered(Reports(Script(command, w.held, capsLock)))
  {
    DecodesToItself(command);
    OnceEnds(w, command, capsLock);
    hide DecodeCommand, EncodeOwnedCommand, ExecuteOnce, Refusal, NextHeld, Script, Reports;
  }

  /** A batch that ends without failure has sent exactly the reports of all its commands, in order. */
  lemma {:induction false} BatchDelivers(w: World, commands: seq<OwnedCommand>, capsLock: nat -> bool, k: nat)
    requires k <= |commands| && ExecuteBatch(w, commands, capsLock, k).failure.None?
    ensures ExecuteBatch(w, commands, capsLock, k).world.attempts == w.attempts + Delivered(BatchReports(commands, w.held, capsLock, k))
    decreases |commands| - k
  {
    hide ExecuteStored, NextHeld, Script, Reports;
    if k == |commands| {
      assert w.attempts + Delivered([]) == w.attempts;
    } else {
      StoredDelivers(w, commands[k], capsLock(k));
      var o := ExecuteStored(w, commands[k], capsLock(k));
      BatchDelivers(o.world, commands, capsLock, k + 1);
      DeliveredAppend(Reports(Script(commands[k], w.held, capsLock(k))), BatchReports(commands, o.world.held, capsLock, k + 1));
    }
  }

  lemma SingleDelivers(w: World, command: OwnedCommand, capsLock: nat -> bool)
    requires ExecuteSingle(w, command, capsLock(0)).failure.None?
    ensures ExecuteSingle(w, command, capsLock(0)).world.attempts == w.attempts + Delivered(BatchReports([command], w.held, capsLock, 0))
  {
    DecodesToItself(command);
    OutcomeTrichotomy(w, command, capsLock(0));
    hide DecodeCommand, EncodeOwnedCommand, Execute, Refusal, NextHeld, Script, Reports;
    assert BatchReports([command], w.held, capsLock, 0) == Reports(Script(command, w.held, capsLock(0))) + [];
  }
}
