/**
 What each command sends when it succeeds: which buttons and keys the host sees change,
 which axis a report moves, and how many cancellation points are passed on the way.
 */
module Output {
  import opened Types
  import opened Commands
  import opened InputState
  import opened Ascii
  import opened Movement
  import opened ExecutionCore
  import opened Effects
  import opened Client

  lemma ScriptReports(command: Command, held: Held, capsLock: bool)
    ensures Reports(Script(command, held, capsLock)) == Reports(Body(command, held, capsLock))
  {
    hide Body;
    var body := Body(command, held, capsLock);
    ReportsAppend([Check] + body, [Check]);
    CheckThenReports(body);
    ReportsOne(Check);
    assert Reports(body) + [] == Reports(body);
  }

  lemma Succeeded(w: World, command: Command, capsLock: bool)
    requires ExecuteOnce(w, command, capsLock).failure.None?
    ensures ExecuteOnce(w, command, capsLock).world.attempts == w.attempts + Delivered(Reports(Body(command, w.held, capsLock)))
    ensures Refusal(command, w.held).None?
  {
    OnceEnds(w, command, capsLock);
    ScriptReports(command, w.held, capsLock);
    hide ExecuteOnce, Body, Script, Reports, NextHeld, Refusal;
  }

  // ---- The mouse ----

  /** A report that changes buttons only. */
  predicate ButtonsOnly(r: Report) {
    r.MouseReport? && r.x == 0 && r.y == 0 && r.wheel == 0
  }

  /** The buttons the host sees held after these reports. */
  function HostButtons(buttons: Byte, reports: seq<Report>): Byte {
    if reports == [] then buttons
    else
      var last := reports[|reports| - 1];
      if last.MouseReport? then last.buttons else HostButtons(buttons, reports[..|reports| - 1])
  }

  /** Report i shows the host these buttons going from up to down. */
  predicate PressesAt(buttons: Byte, reports: seq<Report>, i: nat, mask: Byte)
    requires i < |reports|
  {
    And(HostButtons(buttons, reports[..i]), mask) == 0 && And(HostButtons(buttons, reports[..i + 1]), mask) == mask
  }

  function ButtonReport(buttons: Byte): Report {
    MouseReport(buttons, 0, 0, 0)
  }

  lemma ThreeReports(a: Action, b: Action, c: Action)
    ensures Reports([a, b, c]) == ReportsOf(a) + ReportsOf(b) + ReportsOf(c)
  {
    assert [a, b, c] == [a] + [b] + [c];
    ReportsAppend([a] + [b], [c]);
    ReportsAppend([a], [b]);
    ReportsOne(a);
    ReportsOne(b);
    ReportsOne(c);
  }

  lemma ClickReports(pulse: MousePulse)
    ensures Reports(ClickScript(pulse)) ==
              (if pulse.ReleaseThenPress? then [ButtonReport(pulse.released)] else [])
              + [ButtonReport(pulse.pressed), ButtonReport(pulse.restore)]
  {
    var press, restore := SetButtons(pulse.pressed), SetButtons(pulse.restore);
    ThreeReports(press, Delay, restore);
    if pulse.ReleaseThenPress? {
      var release := SetButtons(pulse.released);
      ReportsAppend([release, Delay], [press, Delay, restore]);
      assert [release, Delay] == [release] + [Delay];
      ReportsAppend([release], [Delay]);
      ReportsOne(release);
      ReportsOne(Delay);
    }
  }

  /** A press report behind at most one release report, and the report that restores. */
  lemma PressShows(buttons: Byte, plan: MousePulse, mask: Byte, reports: seq<Report>, i: nat)
    requires reports == (if plan.ReleaseThenPress? then [ButtonReport(plan.released)] else [])
                        + [ButtonReport(plan.pressed), ButtonReport(plan.restore)]
    requires i == |reports| - 2 && plan.restore == buttons
    requires And(plan.Before(), mask) == 0 && And(plan.pressed, mask) == mask
    ensures PressesAt(buttons, reports, i, mask) && HostButtons(buttons, reports) == buttons
  {
    hide And;
    assert reports[..i + 1][..i] == reports[..i];
  }

  lemma OneButton(plan: MousePulse, buttons: Byte, mask: Byte, reports: seq<Report>)
    requires reports == (if plan.ReleaseThenPress? then [ButtonReport(plan.released)] else [])
                        + [ButtonReport(plan.pressed), ButtonReport(plan.restore)]
    requires SameButOne(plan.Before(), buttons, mask) && SameButOne(plan.pressed, buttons, mask) && plan.restore == buttons
    ensures forall r :: r in reports ==> ButtonsOnly(r) && SameButOne(r.buttons, buttons, mask)
  {
    hide AndNot;
  }

  /**
   A successful click of any button over any buttons already held: one report shows the host exactly that
   button going from up to down, no report touches another button or moves anything, and the host is left
   with the buttons it had.
   */
  lemma ClickIsSeen(w: World, button: MouseButton, capsLock: bool)
    requires ExecuteOnce(w, DoMouseClick(button), capsLock).failure.None?
    ensures exists reports, i: nat ::
              && ExecuteOnce(w, DoMouseClick(button), capsLock).world.attempts == w.attempts + Delivered(reports)
              && i < |reports| && PressesAt(w.held.buttons, reports, i, Mask(button))
              && (forall r :: r in reports ==> ButtonsOnly(r) && SameButOne(r.buttons, w.held.buttons, Mask(button)))
              && HostButtons(w.held.buttons, reports) == w.held.buttons
  {
    hide ExecuteOnce, ClickPlan, And, AndNot, Mask, ClickScript, Reports, HostButtons, SameButOne;
    Succeeded(w, DoMouseClick(button), capsLock);
    var buttons, plan, mask := w.held.buttons, ClickPlan(w.held.buttons, button), Mask(button);
    ClickIsAPressEdge(buttons, button);
    ClickReports(plan);
    var reports := Reports(ClickScript(plan));
    PressShows(buttons, plan, mask, reports, |reports| - 2);
    OneButton(plan, buttons, mask, reports);
  }

  lemma OneReport(w: World, command: Command, capsLock: bool, action: Action, report: Report)
    requires ExecuteOnce(w, command, capsLock).failure.None?
    requires Body(command, w.held, capsLock) == [action] && ReportsOf(action) == [report]
    ensures ExecuteOnce(w, command, capsLock).world.attempts == w.attempts + [Attempt(report, true)]
  {
    Succeeded(w, command, capsLock);
    ReportsOne(action);
    hide ExecuteOnce, Body, Reports;
    assert Delivered([report]) == [Attempt(report, true)];
  }

  lemma NextState(w: World, command: Command, capsLock: bool)
    requires ExecuteOnce(w, command, capsLock).failure.None?
    ensures ExecuteOnce(w, command, capsLock).world.held == NextHeld(command, w.held)
  {
    OnceEnds(w, command, capsLock);
    hide ExecuteOnce, NextHeld, Refusal, Script;
  }

  /** The wheel report carries the wheel, leaves the buttons as they are and does not move. */
  lemma WheelIsSent(w: World, wheel: I8, capsLock: bool)
    requires ExecuteOnce(w, DoMouseWheel(wheel), capsLock).failure.None?
    ensures ExecuteOnce(w, DoMouseWheel(wheel), capsLock).world.attempts
         == w.attempts + [Attempt(MouseReport(w.held.buttons, 0, 0, wheel), true)]
  {
    OneReport(w, DoMouseWheel(wheel), capsLock, WriteMouse(w.held.buttons, 0, 0, wheel), MouseReport(w.held.buttons, 0, 0, wheel));
  }

  /** Pressing or releasing a button sends one report with exactly that button down or up, and holds it so. */
  lemma ButtonIsSent(w: World, button: MouseButton, down: bool, capsLock: bool)
    requires ExecuteOnce(w, if down then DoMouseButtonDown(button) else DoMouseButtonUp(button), capsLock).failure.None?
    ensures var o := ExecuteOnce(w, if down then DoMouseButtonDown(button) else DoMouseButtonUp(button), capsLock);
            && o.world.attempts == w.attempts + [Attempt(ButtonReport(o.world.held.buttons), true)]
            && And(o.world.held.buttons, Mask(button)) == (if down then Mask(button) else 0)
            && SameButOne(o.world.held.buttons, w.held.buttons, Mask(button)) && o.world.held.keyboard == w.held.keyboard
  {
    var mask := Mask(button);
    SetThenTest(w.held.buttons, mask);
    ClearThenTest(w.held.buttons, mask);
    var command := if down then DoMouseButtonDown(button) else DoMouseButtonUp(button);
    var next := if down then Or(w.held.buttons, mask) else AndNot(w.held.buttons, mask);
    NextState(w, command, capsLock);
    hide ExecuteOnce, Or, And, AndNot, Mask;
    OneReport(w, command, capsLock, SetButtons(next), ButtonReport(next));
  }

  // ---- The keyboard ----

  /** Nothing held is let go except, at most, the stroke's own key and modifiers. */
  ghost predicate KeepsOthers(before: Keyboard, after: Keyboard, stroke: KeyStroke) {
    && (forall k :: k != stroke.keycode ==> (k in before.Keys() <==> k in after.Keys()))
    && SameButOne(before.modifiers, after.modifiers, stroke.modifier)
  }

  ghost predicate Holds(keyboard: Keyboard, stroke: KeyStroke) {
    && (stroke.keycode == 0 || stroke.keycode in keyboard.Keys())
    && And(keyboard.modifiers, stroke.modifier) == stroke.modifier
  }

  /** Pressing a key sends one report in which it and its modifiers are down, and holds it so. */
  lemma KeyPressIsSent(w: World, stroke: KeyStroke, capsLock: bool)
    requires ExecuteOnce(w, DoKeyDown(stroke), capsLock).failure.None?
    ensures var o := ExecuteOnce(w, DoKeyDown(stroke), capsLock);
            && o.world.attempts == w.attempts + [Attempt(KeyboardReport(o.world.held.keyboard), true)]
            && Holds(o.world.held.keyboard, stroke) && KeepsOthers(w.held.keyboard, o.world.held.keyboard, stroke)
            && o.world.held.buttons == w.held.buttons
  {
    var kb := w.held.keyboard;
    Succeeded(w, DoKeyDown(stroke), capsLock);
    NextState(w, DoKeyDown(stroke), capsLock);
    KeyDownEffect(kb, stroke);
    SetThenTest(kb.modifiers, stroke.modifier);
    hide ExecuteOnce, Or, And, AndNot, KeyboardState.KeyDown, CanonicalSlots, Reports;
    var next := kb.KeyDown(stroke).value;
    OneReport(w, DoKeyDown(stroke), capsLock, WriteKeyboard(next), KeyboardReport(next));
  }

  /** Releasing a key sends one report in which it and its modifiers are up, and holds the rest as before. */
  lemma KeyReleaseIsSent(w: World, stroke: KeyStroke, capsLock: bool)
    requires ExecuteOnce(w, DoKeyUp(stroke), capsLock).failure.None?
    ensures var o := ExecuteOnce(w, DoKeyUp(stroke), capsLock);
            && o.world.attempts == w.attempts + [Attempt(KeyboardReport(o.world.held.keyboard), true)]
            && (stroke.keycode == 0 || stroke.keycode !in o.world.held.keyboard.Keys())
            && And(o.world.held.keyboard.modifiers, stroke.modifier) == 0
            && KeepsOthers(w.held.keyboard, o.world.held.keyboard, stroke) && o.world.held.buttons == w.held.buttons
  {
    var kb := w.held.keyboard;
    NextState(w, DoKeyUp(stroke), capsLock);
    KeyUpEffect(kb, stroke);
    ClearThenTest(kb.modifiers, stroke.modifier);
    hide ExecuteOnce, Or, And, AndNot, KeyboardState.KeyUp, CanonicalSlots, Reports;
    var next := kb.KeyUp(stroke);
    OneReport(w, DoKeyUp(stroke), capsLock, WriteKeyboard(next), KeyboardReport(next));
  }

  lemma PulseReports(pulse: KeyboardPulse)
    ensures Reports(PulseScript(pulse)) ==
              (if pulse.ReleasePressRestore? then [KeyboardReport(pulse.released)] else [])
              + [KeyboardReport(pulse.pressed), KeyboardReport(pulse.restore)]
  {
    var press, restore := WriteKeyboard(pulse.pressed), WriteKeyboard(pulse.restore);
    ThreeReports(press, Delay, restore);
    if pulse.ReleasePressRestore? {
      var release := WriteKeyboard(pulse.released);
      ReportsAppend([release, Delay], [press, Delay, restore]);
      assert [release, Delay] == [release] + [Delay];
      ReportsAppend([release], [Delay]);
      ReportsOne(release);
      ReportsOne(Delay);
    }
  }

  /**
   A successful tap sends a real press edge for its key, or for all its modifiers if it has no key, and then
   the very state it began in, with everything else held throughout.
   */
  lemma TapIsSent(w: World, stroke: KeyStroke, capsLock: bool)
    requires ExecuteOnce(w, DoKeyTap(stroke), capsLock).failure.None?
    ensures exists pulse: KeyboardPulse ::
              && PressEdge(w.held.keyboard, stroke, pulse) && Holds(pulse.pressed, stroke)
              && ExecuteOnce(w, DoKeyTap(stroke), capsLock).world.attempts
                 == w.attempts + Delivered((if pulse.ReleasePressRestore? then [KeyboardReport(pulse.released)] else [])
                                           + [KeyboardReport(pulse.pressed), KeyboardReport(w.held.keyboard)])
  {
    var kb := w.held.keyboard;
    Succeeded(w, DoKeyTap(stroke), capsLock);
    TapIsAPressEdge(kb, stroke);
    SetThenTest(kb.modifiers, stroke.modifier);
    hide ExecuteOnce, Or, And, AndNot, KeyboardState.TapPlan, CanonicalSlots, PulseScript, Reports;
    PulseReports(kb.TapPlan(stroke).value);
    assert PressEdge(kb, stroke, kb.TapPlan(stroke).value);
  }

  /** Waits and queries send nothing. */
  lemma NothingIsSent(w: World, command: Command, capsLock: bool)
    requires command.DoWaitMs? || command.DoPing? || command.DoHeartbeat? || command.DoGetInfo? || command.DoGetCaps?
    requires ExecuteOnce(w, command, capsLock).failure.None?
    ensures ExecuteOnce(w, command, capsLock).world.attempts == w.attempts
  {
    Succeeded(w, command, capsLock);
    ReportsOne(Delay);
    hide ExecuteOnce, Reports;
    assert Reports([]) == [] && w.attempts + Delivered([]) == w.attempts;
  }

  // ---- Refusals ----

  /** A key that is not yet down, with six down already. */
  ghost predicate NeedsSeventh(keyboard: Keyboard, stroke: KeyStroke) {
    stroke.keycode != 0 && stroke.keycode !in keyboard.Keys() && |keyboard.Keys()| == 6
  }

  /**
   All a command can be refused for once it is dispatched: a key for being the seventh, a text for a keyboard
   on which anything is held or for a byte that is not typeable, and nothing else of what runs on its own.
   */
  lemma RefusedExactly(command: Command, held: Held)
    requires command.DoTypeAscii? ==> |command.bytes| <= 240
    ensures match command
            case DoKeyDown(stroke) => Refusal(command, held) == if NeedsSeventh(held.keyboard, stroke) then Some(ErrorCode.TooManyKeys) else None
            case DoKeyTap(stroke) => Refusal(command, held) == if NeedsSeventh(held.keyboard, stroke) then Some(ErrorCode.TooManyKeys) else None
            case DoTypeAscii(bytes) =>
              Refusal(command, held) == if held.keyboard != IDLE_KEYBOARD then Some(KeyboardBusy)
                                        else if exists b <- bytes :: !Typeable(b) then Some(ErrorCode.UnsupportedAscii)
                                        else None
            case DoBatchBegin => Refusal(command, held) == Some(BadCommand)
            case DoBatchEnd => Refusal(command, held) == Some(BadCommand)
            case _ => Refusal(command, held).None?
  {
    KeyCount(held.keyboard);
    hide CanonicalSlots, KeyboardState.KeyDown, KeyboardState.TapPlan, AsciiStrokes, Typeable;
    match command
    case DoKeyDown(stroke) => KeyDownEffect(held.keyboard, stroke);
    case DoKeyTap(stroke) => TapIsAPressEdge(held.keyboard, stroke);
    case DoTypeAscii(bytes) =>
      IdleIsUnique(Held(held.keyboard, 0));
      TextExactly(bytes, false);
      TextErrors(bytes);
    case _ =>
  }

  lemma KeyCount(keyboard: Keyboard)
    ensures |keyboard.Keys()| == keyboard.len
  {
  }

  lemma TextErrors(bytes: seq<Byte>)
    requires |bytes| <= 240
    ensures AsciiStrokes(bytes, false).Err? ==> AsciiStrokes(bytes, false).error.UnsupportedAscii?
  {
  }

  // ---- Cancellation points and delays ----

  function Count(script: seq<Action>, action: Action): nat {
    if script == [] then 0 else (if script[0] == action then 1 else 0) + Count(script[1..], action)
  }

  lemma {:induction false} CountAppend(p: seq<Action>, q: seq<Action>, action: Action)
    ensures Count(p + q, action) == Count(p, action) + Count(q, action)
    decreases |p|
  {
    if p == [] {
      assert p + q == q;
    } else {
      assert (p + q)[1..] == p[1..] + q;
      CountAppend(p[1..], q, action);
    }
  }

  /** A delay looks once before and once while it waits. */
  lemma {:induction false} RunLooks(w: World, script: seq<Action>)
    requires Run(w, script).failure.None?
    ensures Run(w, script).world.checks == w.checks + Count(script, Check) + 2 * Count(script, Delay)
    decreases |script|
  {
    if script != [] {
      RunLooks(Perform(w, script[0]).world, script[1..]);
    }
  }

  lemma CountOne(a: Action, action: Action)
    ensures Count([a], action) == if a == action then 1 else 0
  {
    assert [a][1..] == [];
  }

  lemma CountTwo(a: Action, b: Action, action: Action)
    ensures Count([a, b], action) == (if a == action then 1 else 0) + (if b == action then 1 else 0)
  {
    assert [a, b] == [a] + [b];
    CountAppend([a], [b], action);
    CountOne(a, action);
    CountOne(b, action);
  }

  lemma CountThree(a: Action, b: Action, c: Action, action: Action)
    ensures Count([a, b, c], action) ==
              (if a == action then 1 else 0) + (if b == action then 1 else 0) + (if c == action then 1 else 0)
  {
    assert [a, b, c] == [a, b] + [c];
    CountAppend([a, b], [c], action);
    CountTwo(a, b, action);
    CountOne(c, action);
  }

  predicate IsPause(action: Action) {
    action == Check || action == Delay
  }

  lemma PulseCount(pulse: KeyboardPulse, action: Action)
    requires IsPause(action)
    ensures Count(PulseScript(pulse), action) ==
              if action == Check then 0 else if pulse.ReleasePressRestore? then 2 else 1
  {
    var press, restore := WriteKeyboard(pulse.pressed), WriteKeyboard(pulse.restore);
    CountThree(press, Delay, restore, action);
    if pulse.ReleasePressRestore? {
      CountTwo(WriteKeyboard(pulse.released), Delay, action);
      CountAppend([WriteKeyboard(pulse.released), Delay], [press, Delay, restore], action);
    }
  }

  lemma ClickCount(pulse: MousePulse, action: Action)
    requires IsPause(action)
    ensures Count(ClickScript(pulse), action) == if action == Check then 0 else if pulse.ReleaseThenPress? then 2 else 1
  {
    var press, restore := SetButtons(pulse.pressed), SetButtons(pulse.restore);
    CountThree(press, Delay, restore, action);
    if pulse.ReleaseThenPress? {
      CountTwo(SetButtons(pulse.released), Delay, action);
      CountAppend([SetButtons(pulse.released), Delay], [press, Delay, restore], action);
    }
  }

  lemma {:induction false} StepsCounted(buttons: Byte, steps: seq<Step>, action: Action)
    requires IsPause(action)
    ensures Count(StepsScript(buttons, steps), action) == if action == Check then 2 * |steps| else 0
    decreases |steps|
  {
    if steps != [] {
      StepsScriptUnfolds(buttons, steps);
      var step := StepScript(buttons, steps[0]);
      StepCounted(buttons, steps[0], action);
      hide StepScript;
      CountAppend(RoundScript(buttons, steps[0]), StepsScript(buttons, steps[1..]), action);
      CountAppend([Check] + step, [Check], action);
      CountAppend([Check], step, action);
      CountOne(Check, action);
      StepsCounted(buttons, steps[1..], action);
    }
  }

  lemma StepCounted(buttons: Byte, step: Step, action: Action)
    requires IsPause(action)
    ensures Count(StepScript(buttons, step), action) == 0
  {
    if step.x == 0 && step.y > 0 {
      CountTwo(WriteMouse(buttons, 1, step.y, 0), WriteMouse(buttons, -1, 0, 0), action);
    } else {
      CountOne(WriteMouse(buttons, step.x, step.y, 0), action);
    }
  }

  /** Typing looks before every stroke and delays once in it. */
  lemma {:induction false} StrokesCounted(keyboard: Keyboard, strokes: seq<KeyStroke>, action: Action)
    requires keyboard.IsIdle() && IsPause(action)
    ensures Count(StrokesScript(keyboard, strokes), action) == |strokes|
    decreases |strokes|
  {
    if strokes != [] {
      TapIsAPressEdge(keyboard, strokes[0]);
      IdleTap(keyboard, strokes[0]);
      var tap := TapScript(keyboard, strokes[0]);
      PulseCount(keyboard.TapPlan(strokes[0]).value, action);
      hide KeyboardState.TapPlan, CanonicalSlots, PulseScript;
      CountAppend([Check] + tap, StrokesScript(keyboard, strokes[1..]), action);
      CountAppend([Check], tap, action);
      CountOne(Check, action);
      StrokesCounted(keyboard, strokes[1..], action);
    }
  }

  lemma IdleTap(keyboard: Keyboard, stroke: KeyStroke)
    requires keyboard.IsIdle()
    ensures keyboard.TapPlan(stroke).Ok? && keyboard.TapPlan(stroke).value.PressRestore?
  {
    NothingMasked(stroke.modifier);
  }

  lemma NothingMasked(mask: Byte)
    ensures And(0, mask) == 0
  {
  }

  predicate AlreadyDown(keyboard: Keyboard, stroke: KeyStroke) {
    if stroke.keycode == 0 then And(keyboard.modifiers, stroke.modifier) != 0 else stroke.keycode in keyboard.Keys()
  }

  /** A tap or click of something held, which has to be let go first. */
  predicate LetsGoFirst(command: Command, held: Held) {
    match command
    case DoKeyTap(stroke) => AlreadyDown(held.keyboard, stroke)
    case DoMouseClick(button) => And(held.buttons, Mask(button)) != 0
    case _ => false
  }

  function StrokeCount(bytes: seq<Byte>): nat {
    if AsciiStrokes(bytes, false).Ok? then |AsciiStrokes(bytes, false).value| else 0
  }

  /** Cancellation points on their own, in the body of an accepted command. */
  function Points(command: Command): nat {
    match command
    case DoTypeAscii(bytes) => 1 + StrokeCount(bytes)
    case DoMouseMoveRel(dx, dy) => 2 * |Steps(dx, dy)|
    case _ => 0
  }

  /** Delays in the body of an accepted command. */
  function Delays(command: Command, held: Held): nat {
    match command
    case DoKeyTap(_) => if LetsGoFirst(command, held) then 2 else 1
    case DoMouseClick(_) => if LetsGoFirst(command, held) then 2 else 1
    case DoTypeAscii(bytes) => StrokeCount(bytes)
    case DoWaitMs(_) => 1
    case _ => 0
  }

  lemma BodyCounted(command: Command, held: Held, capsLock: bool, action: Action)
    requires Refusal(command, held).None? && IsPause(action)
    ensures Count(Body(command, held, capsLock), action) == if action == Check then Points(command) else Delays(command, held)
  {
    match command
    case DoKeyTap(stroke) => TapCounted(held, stroke, action);
    case DoMouseClick(button) => ClickCount(ClickPlan(held.buttons, button), action);
    case DoTypeAscii(bytes) =>
      CapsLockNeverMatters(bytes, false, capsLock, 0);
      var strokes := AsciiStrokes(bytes, capsLock).value;
      StrokesCounted(held.keyboard, strokes, action);
      CountAppend([Check], StrokesScript(held.keyboard, strokes), action);
      CountOne(Check, action);
    case DoMouseMoveRel(dx, dy) => StepsCounted(held.buttons, Steps(dx, dy), action);
    case DoWaitMs(_) => CountOne(Delay, action);
    case DoKeyDown(stroke) => CountOne(WriteKeyboard(held.keyboard.KeyDown(stroke).value), action);
    case DoKeyUp(stroke) => CountOne(WriteKeyboard(held.keyboard.KeyUp(stroke)), action);
    case DoMouseButtonDown(button) => CountOne(SetButtons(Or(held.buttons, Mask(button))), action);
    case DoMouseButtonUp(button) => CountOne(SetButtons(AndNot(held.buttons, Mask(button))), action);
    case DoMouseWheel(wheel) => CountOne(WriteMouse(held.buttons, 0, 0, wheel), action);
    case DoStopAll => CountOne(ReleaseAll, action);
    case _ =>
  }

  lemma TapCounted(held: Held, stroke: KeyStroke, action: Action)
    requires held.keyboard.TapPlan(stroke).Ok? && IsPause(action)
    ensures Count(TapScript(held.keyboard, stroke), action) ==
              if action == Check then 0 else if AlreadyDown(held.keyboard, stroke) then 2 else 1
  {
    PulseCount(held.keyboard.TapPlan(stroke).value, action);
    hide KeyboardState.KeyUp, KeyboardState.KeyDown, CanonicalSlots, FirstIndex, And, PulseScript;
  }

  /**
   A successful command passes exactly this many cancellation points: one before and one after, two for
   each delay, one before and after each movement step, one before each stroke.
   */
  lemma PointsPassed(w: World, command: Command, capsLock: bool)
    requires ExecuteOnce(w, command, capsLock).failure.None?
    ensures ExecuteOnce(w, command, capsLock).world.checks == w.checks + 2 + Points(command) + 2 * Delays(command, w.held)
  {
    OnceEnds(w, command, capsLock);
    var body := Body(command, w.held, capsLock);
    RunLooks(w, [Check] + body + [Check]);
    BodyCounted(command, w.held, capsLock, Check);
    BodyCounted(command, w.held, capsLock, Delay);
    hide Run, Body, Points, Delays, Refusal, NextHeld;
    Bracketed(body, Check);
    Bracketed(body, Delay);
  }

  lemma Bracketed(body: seq<Action>, action: Action)
    ensures Count([Check] + body + [Check], action) == Count(body, action) + if action == Check then 2 else 0
  {
    CountAppend([Check] + body, [Check], action);
    CountAppend([Check], body, action);
    CountOne(Check, action);
  }

  // ---- How long a command takes ----

  const KEY_TAP_DELAY_MS := 8
  const MOUSE_CLICK_DELAY_MS := 20

  /** The time an accepted command spends in its delays. */
  function DelayMs(command: Command, held: Held): nat {
    match command
    case DoMouseClick(_) => MOUSE_CLICK_DELAY_MS * Delays(command, held)
    case DoWaitMs(milliseconds) => milliseconds
    case _ => KEY_TAP_DELAY_MS * Delays(command, held)
  }

  lemma {:induction false} NoMoreStrokesThanBytes(bytes: seq<Byte>, capsLock: bool, i: nat)
    requires i <= |bytes| && StrokesFrom(bytes, capsLock, i).Ok?
    ensures |StrokesFrom(bytes, capsLock, i).value| <= |bytes| - i
    decreases |bytes| - i
  {
    hide AsciiToKeystrokeWithCapsLock;
    if i < |bytes| {
      NoMoreStrokesThanBytes(bytes, capsLock, i + LineEnd(bytes, i));
    }
  }

  lemma EstimateOf(command: OwnedCommand)
    requires command.DoKeyTap? || command.DoMouseClick? || command.DoTypeAscii? || command.DoWaitMs?
    ensures var e := EncodeOwnedCommand(command);
            KnownDuration(e.commandType, e.payload) == match command
                                                       case DoKeyTap(_) => Some(8)
                                                       case DoMouseClick(_) => Some(20)
                                                       case DoTypeAscii(bytes) => Some(8 * |bytes|)
                                                       case DoWaitMs(milliseconds) => Some(milliseconds)
                                                       case _ => None
  {
    if command.DoWaitMs? {
      Be32RoundTrip(command.milliseconds);
    }
    hide Be32, FromBe32;
  }

  /**
   The host's estimate for an accepted tap, click, text or wait covers the device's delays exactly if nothing
   has to be let go first; if something has, the device takes twice the estimate.
   */
  lemma EstimateCoversDelays(command: OwnedCommand, held: Held)
    requires command.DoKeyTap? || command.DoMouseClick? || command.DoTypeAscii? || command.DoWaitMs?
    ensures var e := EncodeOwnedCommand(command);
            var estimate, taken := KnownDuration(e.commandType, e.payload), DelayMs(command, held);
            && estimate.Some?
            && (taken <= estimate.value <==> !LetsGoFirst(command, held))
            && (LetsGoFirst(command, held) ==> taken == 2 * estimate.value)
            && (!command.DoTypeAscii? && !LetsGoFirst(command, held) ==> taken == estimate.value)
  {
    EstimateOf(command);
    hide KnownDuration, EncodeOwnedCommand, AlreadyDown, And, Mask;
    if command.DoTypeAscii? && AsciiStrokes(command.bytes, false).Ok? {
      NoMoreStrokesThanBytes(command.bytes, false, 0);
    }
    hide StrokesFrom;
  }
}
