/**
 HID execution under faults (src/execution_core.rs). A command is a fixed script of
 reports, delays and cancellation points worked out from the state it starts in;
 every write may fail and every point may see a cancellation.
 */
module ExecutionCore {
  import opened Types
  import opened Commands
  import opened InputState
  import opened Ascii
  import opened Movement

  datatype Report =
    | KeyboardReport(state: Keyboard)
    | MouseReport(buttons: Byte, x: I8, y: I8, wheel: I8)

  datatype Attempt = Attempt(report: Report, delivered: bool)

  /** The environment's choices: which write attempts fail, which cancellation points fire. */
  datatype Schedule = Schedule(writeFails: nat -> bool, cancelSeen: nat -> bool)

  datatype World = World(schedule: Schedule, held: Held, attempts: seq<Attempt>, checks: nat, cancelled: bool)

  datatype Action =
    | Check
    | Delay
    | WriteKeyboard(next: Keyboard)
    | WriteMouse(buttons: Byte, x: I8, y: I8, wheel: I8)
    | ReleaseAll
    | Refuse(error: ErrorCode)

  datatype Outcome = Outcome(world: World, failure: Option<ErrorCode>)

  datatype DeviceResponse = DeviceAck | DeviceInfo | DeviceCaps

  // ---- Single actions ----

  /** A cancellation, once seen, stays seen. */
  function Observe(w: World): Outcome {
    if w.cancelled then Outcome(w, Some(Cancelled))
    else
      var seen := w.schedule.cancelSeen(w.checks);
      Outcome(w.(checks := w.checks + 1, cancelled := seen), if seen then Some(Cancelled) else None)
  }

  function Send(w: World, report: Report): Outcome {
    var fails := w.schedule.writeFails(|w.attempts|);
    Outcome(w.(attempts := w.attempts + [Attempt(report, !fails)]), if fails then Some(HidWrite) else None)
  }

  /** State is cleared first; both zero reports are attempted whatever happens to either. */
  function ResetInputs(w: World): Outcome {
    var keyboard := Send(w.(held := IDLE), KeyboardReport(IDLE_KEYBOARD));
    var mouse := Send(keyboard.world, MouseReport(0, 0, 0, 0));
    Outcome(mouse.world, if keyboard.failure.Some? then keyboard.failure else mouse.failure)
  }

  function Perform(w: World, action: Action): Outcome {
    match action
    case Check => Observe(w)
    case Delay =>
      var before := Observe(w);
      if before.failure.Some? then before else Observe(before.world)
    case WriteKeyboard(next) =>
      var sent := Send(w, KeyboardReport(next));
      if sent.failure.Some? then sent else Outcome(sent.world.(held := w.held.(keyboard := next)), None)
    case WriteMouse(buttons, x, y, wheel) =>
      var sent := Send(w, MouseReport(buttons, x, y, wheel));
      if sent.failure.Some? then sent else Outcome(sent.world.(held := w.held.(buttons := buttons)), None)
    case ReleaseAll => ResetInputs(w)
    case Refuse(error) => Outcome(w, Some(error))
  }

  function Run(w: World, script: seq<Action>): Outcome
    decreases |script|
  {
    if script == [] then Outcome(w, None)
    else
      var first := Perform(w, script[0]);
      if first.failure.Some? then first else Run(first.world, script[1..])
  }

  // ---- Scripts ----

  function PulseScript(pulse: KeyboardPulse): seq<Action> {
    match pulse
    case PressRestore(pressed, restore) => [WriteKeyboard(pressed), Delay, WriteKeyboard(restore)]
    case ReleasePressRestore(released, pressed, restore) =>
      [WriteKeyboard(released), Delay] + [WriteKeyboard(pressed), Delay, WriteKeyboard(restore)]
  }

  function TapScript(keyboard: Keyboard, stroke: KeyStroke): seq<Action> {
    match keyboard.TapPlan(stroke)
    case Err(error) => [Refuse(InputErrorCode(error))]
    case Ok(pulse) => PulseScript(pulse)
  }

  function StrokesScript(keyboard: Keyboard, strokes: seq<KeyStroke>): seq<Action> {
    if strokes == [] then []
    else [Check] + TapScript(keyboard, strokes[0]) + StrokesScript(keyboard, strokes[1..])
  }

  function SetButtons(buttons: Byte): Action {
    WriteMouse(buttons, 0, 0, 0)
  }

  function ClickScript(pulse: MousePulse): seq<Action> {
    match pulse
    case PressThenRestore(pressed, restore) => [SetButtons(pressed), Delay, SetButtons(restore)]
    case ReleaseThenPress(released, pressed, restore) =>
      [SetButtons(released), Delay] + [SetButtons(pressed), Delay, SetButtons(restore)]
  }

  /** A purely downward step is sent as a diagonal one followed by its correction. */
  function StepScript(buttons: Byte, step: Step): seq<Action> {
    if step.x == 0 && step.y > 0 then [WriteMouse(buttons, 1, step.y, 0), WriteMouse(buttons, -1, 0, 0)]
    else [WriteMouse(buttons, step.x, step.y, 0)]
  }

  function StepsScript(buttons: Byte, steps: seq<Step>): seq<Action> {
    if steps == [] then []
    else [Check] + StepScript(buttons, steps[0]) + [Check] + StepsScript(buttons, steps[1..])
  }

  function TextScript(keyboard: Keyboard, bytes: seq<Byte>, capsLock: bool): seq<Action> {
    if !keyboard.IsIdle() then [Refuse(KeyboardBusy)]
    else
      match AsciiStrokes(bytes, capsLock)
      case Err(error) => [Refuse(InputErrorCode(error))]
      case Ok(strokes) => [Check] + StrokesScript(keyboard, strokes)
  }

  function Body(command: Command, held: Held, capsLock: bool): seq<Action> {
    match command
    case DoKeyDown(stroke) =>
      (match held.keyboard.KeyDown(stroke)
       case Err(error) => [Refuse(InputErrorCode(error))]
       case Ok(next) => [WriteKeyboard(next)])
    case DoKeyUp(stroke) => [WriteKeyboard(held.keyboard.KeyUp(stroke))]
    case DoKeyTap(stroke) => TapScript(held.keyboard, stroke)
    case DoTypeAscii(bytes) => TextScript(held.keyboard, bytes, capsLock)
    case DoMouseMoveRel(dx, dy) => StepsScript(held.buttons, Steps(dx, dy))
    case DoMouseButtonDown(button) => [SetButtons(Or(held.buttons, Mask(button)))]
    case DoMouseButtonUp(button) => [SetButtons(AndNot(held.buttons, Mask(button)))]
    case DoMouseClick(button) => ClickScript(ClickPlan(held.buttons, button))
    case DoMouseWheel(wheel) => [WriteMouse(held.buttons, 0, 0, wheel)]
    case DoWaitMs(_) => [Delay]
    case DoBatchBegin => [Refuse(BadCommand)]
    case DoBatchEnd => [Refuse(BadCommand)]
    case DoStopAll => [ReleaseAll]
    case _ => []
  }

  function Script(command: Command, held: Held, capsLock: bool): seq<Action> {
    [Check] + Body(command, held, capsLock) + [Check]
  }

  function ResponseTo(command: Command): DeviceResponse {
    match command
    case DoGetInfo => DeviceInfo
    case DoGetCaps => DeviceCaps
    case _ => DeviceAck
  }

  function ExecuteOnce(w: World, command: Command, capsLock: bool): Outcome {
    Run(w, Script(command, w.held, capsLock))
  }

  /** execute_command: an interrupted command releases everything, best effort. */
  function Execute(w: World, command: Command, capsLock: bool): Outcome {
    var o := ExecuteOnce(w, command, capsLock);
    if o.failure.Some? && RequiresRelease(o.failure.value) then Outcome(ResetInputs(o.world).world, o.failure) else o
  }

  // ---- Running scripts piece by piece ----

  function Following(o: Outcome, script: seq<Action>): Outcome {
    if o.failure.Some? then o else Run(o.world, script)
  }

  lemma {:induction false} RunAppend(w: World, p: seq<Action>, q: seq<Action>)
    ensures Run(w, p + q) == Following(Run(w, p), q)
    decreases |p|
  {
    if p == [] {
      assert p + q == q;
    } else {
      hide Perform;
      assert (p + q)[1..] == p[1..] + q;
      RunAppend(Perform(w, p[0]).world, p[1..], q);
    }
  }

  lemma RunOne(w: World, action: Action)
    ensures Run(w, [action]) == Perform(w, action)
  {
    hide Perform;
    assert Run(Perform(w, action).world, []) == Outcome(Perform(w, action).world, None);
  }

  lemma RunCons(w: World, action: Action, rest: seq<Action>)
    ensures Run(w, [action] + rest) == Following(Perform(w, action), rest)
  {
    RunAppend(w, [action], rest);
    RunOne(w, action);
  }

  // ---- What a script does when nothing goes wrong ----

  function Commit(held: Held, action: Action): Held {
    match action
    case WriteKeyboard(next) => held.(keyboard := next)
    case WriteMouse(buttons, _, _, _) => held.(buttons := buttons)
    case ReleaseAll => IDLE
    case _ => held
  }

  function Commits(held: Held, script: seq<Action>): Held
    decreases |script|
  {
    if script == [] then held else Commits(Commit(held, script[0]), script[1..])
  }

  function ReportsOf(action: Action): seq<Report> {
    match action
    case WriteKeyboard(next) => [KeyboardReport(next)]
    case WriteMouse(buttons, x, y, wheel) => [MouseReport(buttons, x, y, wheel)]
    case ReleaseAll => [KeyboardReport(IDLE_KEYBOARD), MouseReport(0, 0, 0, 0)]
    case _ => []
  }

  function Reports(script: seq<Action>): seq<Report> {
    if script == [] then [] else ReportsOf(script[0]) + Reports(script[1..])
  }

  function Delivered(reports: seq<Report>): seq<Attempt> {
    seq(|reports|, i requires 0 <= i < |reports| => Attempt(reports[i], true))
  }

  predicate Refuses(script: seq<Action>) {
    exists i :: 0 <= i < |script| && script[i].Refuse?
  }

  lemma PerformSucceeds(w: World, action: Action)
    requires Perform(w, action).failure.None?
    ensures !action.Refuse?
    ensures Perform(w, action).world.held == Commit(w.held, action)
    ensures Perform(w, action).world.attempts == w.attempts + Delivered(ReportsOf(action))
  {
  }

  lemma DeliveredAppend(p: seq<Report>, q: seq<Report>)
    ensures Delivered(p + q) == Delivered(p) + Delivered(q)
  {
  }

  /** A run that succeeds delivered every report of its script in order and committed every state. */
  lemma {:induction false} RunSucceeds(w: World, script: seq<Action>)
    requires Run(w, script).failure.None?
    ensures !Refuses(script)
    ensures Run(w, script).world.held == Commits(w.held, script)
    ensures Run(w, script).world.attempts == w.attempts + Delivered(Reports(script))
    decreases |script|
  {
    if script == [] {
      assert w.attempts + Delivered([]) == w.attempts;
    } else {
      PerformSucceeds(w, script[0]);
      hide Perform;
      RunSucceeds(Perform(w, script[0]).world, script[1..]);
      DeliveredAppend(ReportsOf(script[0]), Reports(script[1..]));
      forall i | 0 <= i < |script|
        ensures !script[i].Refuse?
      {
        assert i > 0 ==> script[i] == script[1..][i - 1];
      }
    }
  }

  lemma PerformFails(w: World, action: Action)
    requires Perform(w, action).failure.Some?
    ensures var o := Perform(w, action);
            || (o.failure == Some(Cancelled) && o.world.cancelled && (action.Check? || action.Delay?))
            || (o.failure == Some(HidWrite) && !action.Check? && !action.Delay?)
            || (action.Refuse? && o == Outcome(w, Some(action.error)))
    ensures w.attempts <= Perform(w, action).world.attempts
    ensures Perform(w, action).failure == Some(HidWrite) && !action.Refuse? ==>
              exists i :: |w.attempts| <= i < |Perform(w, action).world.attempts| && !Perform(w, action).world.attempts[i].delivered
  {
    if Perform(w, action).failure == Some(HidWrite) && !action.Refuse? {
      var after := Perform(w, action).world.attempts;
      if !action.ReleaseAll? || !after[|w.attempts|].delivered {
        assert !after[|w.attempts|].delivered;
      } else {
        assert !after[|w.attempts| + 1].delivered;
      }
    }
  }

  lemma AttemptsGrow(w: World, action: Action)
    ensures w.attempts <= Perform(w, action).world.attempts
  {
  }

  /** A run without refusals fails only by cancellation, then seen, or by a write that did not go out. */
  lemma {:induction false} RunFails(w: World, script: seq<Action>)
    requires Run(w, script).failure.Some? && !Refuses(script)
    ensures w.attempts <= Run(w, script).world.attempts
    ensures var o := Run(w, script);
            || (o.failure == Some(Cancelled) && o.world.cancelled)
            || (o.failure == Some(HidWrite)
                && exists i :: |w.attempts| <= i < |o.world.attempts| && !o.world.attempts[i].delivered)
    decreases |script|
  {
    assert script != [];
    assert !script[0].Refuse?;
    var first := Perform(w, script[0]);
    AttemptsGrow(w, script[0]);
    if first.failure.Some? {
      PerformFails(w, script[0]);
    } else {
      hide Perform;
      assert forall i :: 0 <= i < |script| - 1 ==> script[1..][i] == script[i + 1];
      RunFails(first.world, script[1..]);
    }
  }

  // ---- What each command means ----

  /** The state a command leaves behind when it succeeds. */
  function NextHeld(command: Command, held: Held): Held {
    match command
    case DoKeyDown(stroke) =>
      (match held.keyboard.KeyDown(stroke)
       case Err(_) => held
       case Ok(next) => held.(keyboard := next))
    case DoKeyUp(stroke) => held.(keyboard := held.keyboard.KeyUp(stroke))
    case DoMouseButtonDown(button) => held.(buttons := Or(held.buttons, Mask(button)))
    case DoMouseButtonUp(button) => held.(buttons := AndNot(held.buttons, Mask(button)))
    case DoStopAll => IDLE
    case _ => held
  }

  /** Why a command is refused in a given state, if it is. Caps Lock plays no part. */
  function Refusal(command: Command, held: Held): Option<ErrorCode> {
    match command
    case DoKeyDown(stroke) =>
      (match held.keyboard.KeyDown(stroke)
       case Err(error) => Some(InputErrorCode(error))
       case Ok(_) => None)
    case DoKeyTap(stroke) =>
      (match held.keyboard.TapPlan(stroke)
       case Err(error) => Some(InputErrorCode(error))
       case Ok(_) => None)
    case DoTypeAscii(bytes) =>
      if !held.keyboard.IsIdle() then Some(KeyboardBusy)
      else
        (match AsciiStrokes(bytes, false)
         case Err(error) => Some(InputErrorCode(error))
         case Ok(_) => None)
    case DoBatchBegin => Some(BadCommand)
    case DoBatchEnd => Some(BadCommand)
    case _ => None
  }

  lemma {:induction false} CommitsAppend(held: Held, p: seq<Action>, q: seq<Action>)
    ensures Commits(held, p + q) == Commits(Commits(held, p), q)
    decreases |p|
  {
    if p == [] {
      assert p + q == q;
    } else {
      assert (p + q)[1..] == p[1..] + q;
      CommitsAppend(Commit(held, p[0]), p[1..], q);
    }
  }

  lemma RefusesAppend(p: seq<Action>, q: seq<Action>)
    ensures Refuses(p + q) <==> Refuses(p) || Refuses(q)
  {
    var s := p + q;
    if Refuses(p) {
      var i :| 0 <= i < |p| && p[i].Refuse?;
      assert s[i].Refuse?;
    }
    if Refuses(q) {
      var i :| 0 <= i < |q| && q[i].Refuse?;
      assert s[|p| + i].Refuse?;
    }
    if Refuses(s) {
      var i :| 0 <= i < |s| && s[i].Refuse?;
      if i < |p| {
        assert p[i].Refuse?;
      } else {
        assert q[i - |p|].Refuse?;
      }
    }
  }

  /** A script that changes nothing in the end and refuses nothing. */
  ghost predicate Neutral(held: Held, script: seq<Action>) {
    Commits(held, script) == held && !Refuses(script)
  }

  lemma NeutralAppend(held: Held, p: seq<Action>, q: seq<Action>)
    requires Neutral(held, p) && Neutral(held, q)
    ensures Neutral(held, p + q)
  {
    CommitsAppend(held, p, q);
    RefusesAppend(p, q);
  }

  lemma NeutralAction(held: Held, action: Action)
    requires Commit(held, action) == held && !action.Refuse?
    ensures Neutral(held, [action])
  {
    assert Commits(held, [action]) == Commits(Commit(held, action), []);
  }

  lemma CommitsOne(held: Held, a: Action)
    ensures Commits(held, [a]) == Commit(held, a)
  {
    assert Commits(held, [a]) == Commits(Commit(held, a), []);
  }

  lemma CommitsThree(held: Held, a: Action, b: Action, c: Action)
    ensures Commits(held, [a, b, c]) == Commit(Commit(Commit(held, a), b), c)
  {
    assert [a, b, c] == [a] + [b] + [c];
    CommitsAppend(held, [a] + [b], [c]);
    CommitsAppend(held, [a], [b]);
    CommitsOne(held, a);
    CommitsOne(Commit(held, a), b);
    CommitsOne(Commit(Commit(held, a), b), c);
  }

  lemma PulseNeutral(held: Held, pulse: KeyboardPulse)
    requires pulse.restore == held.keyboard
    ensures Neutral(held, PulseScript(pulse))
  {
    var press, restore := WriteKeyboard(pulse.pressed), WriteKeyboard(pulse.restore);
    CommitsThree(held, press, Delay, restore);
    if pulse.ReleasePressRestore? {
      var release := WriteKeyboard(pulse.released);
      var after := Commit(Commit(held, release), Delay);
      CommitsAppend(held, [release, Delay], [press, Delay, restore]);
      CommitsThree(after, press, Delay, restore);
      CommitsTwo(held, release, Delay);
    }
  }

  lemma CommitsTwo(held: Held, a: Action, b: Action)
    ensures Commits(held, [a, b]) == Commit(Commit(held, a), b)
  {
    assert [a, b] == [a] + [b];
    CommitsAppend(held, [a], [b]);
    CommitsOne(held, a);
    CommitsOne(Commit(held, a), b);
  }

  lemma ClickNeutral(held: Held, pulse: MousePulse)
    requires pulse.restore == held.buttons
    ensures Neutral(held, ClickScript(pulse))
  {
    var press, restore := SetButtons(pulse.pressed), SetButtons(pulse.restore);
    CommitsThree(held, press, Delay, restore);
    if pulse.ReleaseThenPress? {
      var release := SetButtons(pulse.released);
      var after := Commit(Commit(held, release), Delay);
      CommitsAppend(held, [release, Delay], [press, Delay, restore]);
      CommitsThree(after, press, Delay, restore);
      CommitsTwo(held, release, Delay);
    }
  }

  lemma {:induction false} StrokesNeutral(held: Held, strokes: seq<KeyStroke>)
    requires held.keyboard.IsIdle()
    ensures Neutral(held, StrokesScript(held.keyboard, strokes))
    decreases |strokes|
  {
    if strokes == [] {
      assert Commits(held, []) == held;
    } else {
      TapIsAPressEdge(held.keyboard, strokes[0]);
      var pulse := held.keyboard.TapPlan(strokes[0]).value;
      hide Neutral, KeyboardState.TapPlan;
      NeutralAction(held, Check);
      PulseNeutral(held, pulse);
      StrokesNeutral(held, strokes[1..]);
      NeutralAppend(held, [Check], PulseScript(pulse));
      NeutralAppend(held, [Check] + PulseScript(pulse), StrokesScript(held.keyboard, strokes[1..]));
    }
  }

  lemma StepNeutral(held: Held, step: Step)
    ensures Neutral(held, StepScript(held.buttons, step))
  {
    if step.x == 0 && step.y > 0 {
      var first, second := WriteMouse(held.buttons, 1, step.y, 0), WriteMouse(held.buttons, -1, 0, 0);
      NeutralAction(held, first);
      NeutralAction(held, second);
      NeutralAppend(held, [first], [second]);
      assert [first] + [second] == StepScript(held.buttons, step);
    } else {
      NeutralAction(held, WriteMouse(held.buttons, step.x, step.y, 0));
    }
  }

  lemma {:induction false} StepsNeutral(held: Held, steps: seq<Step>)
    ensures Neutral(held, StepsScript(held.buttons, steps))
    decreases |steps|
  {
    if steps == [] {
      assert Commits(held, []) == held;
    } else {
      hide Neutral, StepScript;
      NeutralAction(held, Check);
      StepNeutral(held, steps[0]);
      var step := StepScript(held.buttons, steps[0]);
      StepsNeutral(held, steps[1..]);
      NeutralAppend(held, [Check], step);
      NeutralAppend(held, [Check] + step, [Check]);
      NeutralAppend(held, [Check] + step + [Check], StepsScript(held.buttons, steps[1..]));
    }
  }

  lemma TextNeutral(held: Held, bytes: seq<Byte>, capsLock: bool)
    requires Refusal(DoTypeAscii(bytes), held).None?
    ensures Neutral(held, TextScript(held.keyboard, bytes, capsLock))
  {
    CapsLockNeverMatters(bytes, false, capsLock, 0);
    var strokes := AsciiStrokes(bytes, capsLock).value;
    StrokesNeutral(held, strokes);
    NeutralAction(held, Check);
    NeutralAppend(held, [Check], StrokesScript(held.keyboard, strokes));
  }

  /** A refused command's body is the refusal alone; an accepted one commits exactly its next state. */
  lemma BodyMeaning(command: Command, held: Held, capsLock: bool)
    ensures Refusal(command, held).Some? ==> Body(command, held, capsLock) == [Refuse(Refusal(command, held).value)]
    ensures Refusal(command, held).None? ==>
              !Refuses(Body(command, held, capsLock)) && Commits(held, Body(command, held, capsLock)) == NextHeld(command, held)
  {
    match command
    case DoTypeAscii(bytes) =>
      CapsLockNeverMatters(bytes, false, capsLock, 0);
      if Refusal(command, held).None? {
        TextNeutral(held, bytes, capsLock);
      }
    case DoKeyTap(stroke) =>
      TapIsAPressEdge(held.keyboard, stroke);
      if Refusal(command, held).None? {
        PulseNeutral(held, held.keyboard.TapPlan(stroke).value);
      }
    case DoMouseMoveRel(dx, dy) => StepsNeutral(held, Steps(dx, dy));
    case DoMouseClick(button) => ClickNeutral(held, ClickPlan(held.buttons, button));
    case DoMouseWheel(wheel) => NeutralAction(held, WriteMouse(held.buttons, 0, 0, wheel));
    case DoWaitMs(_) => NeutralAction(held, Delay);
    case DoKeyDown(stroke) =>
      if held.keyboard.KeyDown(stroke).Ok? {
        CommitsOne(held, WriteKeyboard(held.keyboard.KeyDown(stroke).value));
      }
    case DoKeyUp(stroke) => CommitsOne(held, WriteKeyboard(held.keyboard.KeyUp(stroke)));
    case DoMouseButtonDown(button) => CommitsOne(held, SetButtons(Or(held.buttons, Mask(button))));
    case DoMouseButtonUp(button) => CommitsOne(held, SetButtons(AndNot(held.buttons, Mask(button))));
    case DoStopAll => CommitsOne(held, ReleaseAll);
    case _ =>
  }

  lemma ScriptMeaning(command: Command, held: Held, capsLock: bool)
    requires Refusal(command, held).None?
    ensures !Refuses(Script(command, held, capsLock))
    ensures Commits(held, Script(command, held, capsLock)) == NextHeld(command, held)
  {
    BodyMeaning(command, held, capsLock);
    hide Body, NextHeld, Refusal;
    var body := Body(command, held, capsLock);
    RefusesAppend([Check], body);
    RefusesAppend([Check] + body, [Check]);
    CommitsAppend(held, [Check], body);
    CommitsAppend(held, [Check] + body, [Check]);
    assert forall h: Held :: Commits(h, [Check]) == h by {
      forall h: Held
        ensures Commits(h, [Check]) == h
      {
        assert Commits(h, [Check]) == Commits(Commit(h, Check), []);
      }
    }
  }

  /** The last two attempts are the zero keyboard and zero mouse reports. */
  predicate EndsReleased(attempts: seq<Attempt>) {
    && |attempts| >= 2
    && attempts[|attempts| - 2].report == KeyboardReport(IDLE_KEYBOARD)
    && attempts[|attempts| - 1].report == MouseReport(0, 0, 0, 0)
  }

  lemma ResetReleases(w: World)
    ensures ResetInputs(w).world.held == IDLE && EndsReleased(ResetInputs(w).world.attempts)
    ensures w.attempts <= ResetInputs(w).world.attempts && |ResetInputs(w).world.attempts| == |w.attempts| + 2
    ensures ResetInputs(w).world.cancelled == w.cancelled
  {
  }

  /** The only endings an attempt at a command can have. */
  ghost predicate Ends(w: World, command: Command, capsLock: bool, o: Outcome) {
    match o.failure
    case None =>
      && Refusal(command, w.held).None?
      && o.world.held == NextHeld(command, w.held)
      && o.world.attempts == w.attempts + Delivered(Reports(Script(command, w.held, capsLock)))
    case Some(error) =>
      if error == Cancelled then o.world.cancelled && Refusal(command, w.held) != Some(Cancelled)
      else if error == HidWrite then
        && Refusal(command, w.held).None?
        && exists i :: |w.attempts| <= i < |o.world.attempts| && !o.world.attempts[i].delivered
      else
        Refusal(command, w.held) == Some(error) && o.world.held == w.held && o.world.attempts == w.attempts
  }

  lemma RefusedRun(w: World, error: ErrorCode)
    ensures var o := Run(w, [Check] + [Refuse(error)] + [Check]);
            && o.world.held == w.held && o.world.attempts == w.attempts
            && (o.failure == Some(error) || (o.failure == Some(Cancelled) && o.world.cancelled))
  {
    assert [Check] + [Refuse(error)] + [Check] == [Check] + ([Refuse(error)] + [Check]);
    RunCons(w, Check, [Refuse(error)] + [Check]);
    RunCons(Perform(w, Check).world, Refuse(error), [Check]);
  }

  lemma RefusalKinds(command: Command, held: Held)
    ensures Refusal(command, held) in {None, Some(ErrorCode.TooManyKeys), Some(ErrorCode.UnsupportedAscii), Some(FrameTooLong), Some(KeyboardBusy), Some(BadCommand)}
  {
  }

  lemma OnceEnds(w: World, command: Command, capsLock: bool)
    ensures Ends(w, command, capsLock, ExecuteOnce(w, command, capsLock))
  {
    var o := ExecuteOnce(w, command, capsLock);
    RefusalKinds(command, w.held);
    BodyMeaning(command, w.held, capsLock);
    hide Body, Run, NextHeld;
    if Refusal(command, w.held).Some? {
      RefusedRun(w, Refusal(command, w.held).value);
    } else {
      ScriptMeaning(command, w.held, capsLock);
      hide Refusal, Script;
      if o.failure.None? {
        RunSucceeds(w, Script(command, w.held, capsLock));
      } else {
        RunFails(w, Script(command, w.held, capsLock));
      }
    }
  }

  /**
   Every command, every starting state, every schedule of failing writes and cancellations: success
   leaves the specified state with every report delivered; an interruption leaves everything released
   with the two zero reports attempted last; any other error emitted nothing and changed nothing.
   */
  lemma OutcomeTrichotomy(w: World, command: Command, capsLock: bool)
    ensures Ends(w, command, capsLock, Execute(w, command, capsLock))
    ensures var o := Execute(w, command, capsLock);
            o.failure in {Some(Cancelled), Some(HidWrite)} ==> o.world.held == IDLE && EndsReleased(o.world.attempts)
  {
    OnceEnds(w, command, capsLock);
    hide Refusal, NextHeld, Script, Body, Run;
    var o := ExecuteOnce(w, command, capsLock);
    ResetReleases(o.world);
  }
}
