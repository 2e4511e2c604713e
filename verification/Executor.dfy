/**
 The executor that owns the HID writers and the held-input state: the functions of
 src/execution_core.rs over a backend whose writes fail and whose cancellation
 points fire as the schedule says.
 */
module Executor {
  import opened Types
  import opened Commands
  import opened InputState
  import opened Ascii
  import opened Movement
  import opened ExecutionCore

  class HidExecutor {
    const schedule: Schedule
    var held: Held
    var attempts: seq<Attempt>
    var checks: nat
    var cancelled: bool

    ghost function Now(): World
      reads this
    {
      World(schedule, held, attempts, checks, cancelled)
    }

    constructor (schedule: Schedule)
      ensures Now() == World(schedule, IDLE, [], 0, false)
    {
      this.schedule := schedule;
      held, attempts, checks, cancelled := IDLE, [], 0, false;
    }

    // ---- Backend ----

    method CheckCancelled() returns (failure: Option<ErrorCode>)
      modifies this
      ensures Outcome(Now(), failure) == Perform(old(Now()), Check)
    {
      if cancelled {
        return Some(Cancelled);
      }
      cancelled := schedule.cancelSeen(checks);
      checks := checks + 1;
      failure := if cancelled then Some(Cancelled) else None;
    }

    method DelayFor() returns (failure: Option<ErrorCode>)
      modifies this
      ensures Outcome(Now(), failure) == Perform(old(Now()), Delay)
    {
      failure := CheckCancelled();
      if failure.None? {
        failure := CheckCancelled();
      }
    }

    method SendReport(report: Report) returns (failure: Option<ErrorCode>)
      modifies this
      ensures Outcome(Now(), failure) == Send(old(Now()), report)
    {
      var fails := schedule.writeFails(|attempts|);
      attempts := attempts + [Attempt(report, !fails)];
      failure := if fails then Some(HidWrite) else None;
    }

    // ---- Commits ----

    method CommitKeyboardState(next: Keyboard) returns (failure: Option<ErrorCode>)
      modifies this
      ensures Outcome(Now(), failure) == Perform(old(Now()), WriteKeyboard(next))
    {
      failure := SendReport(KeyboardReport(next));
      if failure.None? {
        held := held.(keyboard := next);
      }
    }

    method CommitMouseState(buttons: Byte) returns (failure: Option<ErrorCode>)
      modifies this
      ensures Outcome(Now(), failure) == Perform(old(Now()), SetButtons(buttons))
    {
      failure := SendReport(MouseReport(buttons, 0, 0, 0));
      if failure.None? {
        held := held.(buttons := buttons);
      }
    }

    /** A movement or wheel report repeats the held buttons, so nothing needs committing. */
    method SendMouse(x: I8, y: I8, wheel: I8) returns (failure: Option<ErrorCode>)
      modifies this
      ensures Outcome(Now(), failure) == Perform(old(Now()), WriteMouse(old(held).buttons, x, y, wheel))
      ensures held == old(held)
    {
      failure := SendReport(MouseReport(held.buttons, x, y, wheel));
    }

    method SendRelativeMouseStep(step: Step) returns (failure: Option<ErrorCode>)
      modifies this
      ensures Outcome(Now(), failure) == Run(old(Now()), StepScript(old(held).buttons, step))
      ensures held == old(held)
    {
      ghost var w, buttons := Now(), held.buttons;
      if step.x == 0 && step.y > 0 {
        failure := SendMouse(1, step.y, 0);
        RunCons(w, WriteMouse(buttons, 1, step.y, 0), [WriteMouse(buttons, -1, 0, 0)]);
        if failure.None? {
          RunOne(Now(), WriteMouse(buttons, -1, 0, 0));
          failure := SendMouse(-1, 0, 0);
        }
      } else {
        failure := SendMouse(step.x, step.y, 0);
        RunOne(w, WriteMouse(buttons, step.x, step.y, 0));
      }
    }

    method ResetAll() returns (failure: Option<ErrorCode>)
      modifies this
      ensures Outcome(Now(), failure) == ResetInputs(old(Now()))
    {
      held := IDLE;
      var keyboard := SendReport(KeyboardReport(IDLE_KEYBOARD));
      var mouse := SendReport(MouseReport(0, 0, 0, 0));
      failure := if keyboard.Some? then keyboard else mouse;
    }

    // ---- Pulses ----

    method PressAndRestore(pressed: Keyboard, restore: Keyboard) returns (failure: Option<ErrorCode>)
      modifies this
      ensures Outcome(Now(), failure) == Run(old(Now()), [WriteKeyboard(pressed), Delay, WriteKeyboard(restore)])
    {
      hide Run, Perform;
      ghost var press, end := WriteKeyboard(pressed), WriteKeyboard(restore);
      assert [press, Delay, end] == [press] + ([Delay] + [end]);
      RunCons(Now(), press, [Delay] + [end]);
      failure := CommitKeyboardState(pressed);
      if failure.Some? {
        return;
      }
      RunCons(Now(), Delay, [end]);
      failure := DelayFor();
      if failure.Some? {
        return;
      }
      RunOne(Now(), end);
      failure := CommitKeyboardState(restore);
    }

    method ExecuteKeyboardPulse(pulse: KeyboardPulse) returns (failure: Option<ErrorCode>)
      modifies this
      ensures Outcome(Now(), failure) == Run(old(Now()), PulseScript(pulse))
    {
      hide Run, Perform;
      if pulse.ReleasePressRestore? {
        ghost var release := WriteKeyboard(pulse.released);
        ghost var tail: seq<Action> := [WriteKeyboard(pulse.pressed), Delay, WriteKeyboard(pulse.restore)];
        assert PulseScript(pulse) == [release] + ([Delay] + tail);
        RunCons(Now(), release, [Delay] + tail);
        failure := CommitKeyboardState(pulse.released);
        if failure.Some? {
          return;
        }
        RunCons(Now(), Delay, tail);
        failure := DelayFor();
        if failure.Some? {
          return;
        }
      }
      failure := PressAndRestore(pulse.pressed, pulse.restore);
    }

    method ClickAndRestore(pressed: Byte, restore: Byte) returns (failure: Option<ErrorCode>)
      modifies this
      ensures Outcome(Now(), failure) == Run(old(Now()), [SetButtons(pressed), Delay, SetButtons(restore)])
    {
      hide Run, Perform;
      ghost var press, end := SetButtons(pressed), SetButtons(restore);
      assert [press, Delay, end] == [press] + ([Delay] + [end]);
      RunCons(Now(), press, [Delay] + [end]);
      failure := CommitMouseState(pressed);
      if failure.Some? {
        return;
      }
      RunCons(Now(), Delay, [end]);
      failure := DelayFor();
      if failure.Some? {
        return;
      }
      RunOne(Now(), end);
      failure := CommitMouseState(restore);
    }

    method ExecuteMousePulse(pulse: MousePulse) returns (failure: Option<ErrorCode>)
      modifies this
      ensures Outcome(Now(), failure) == Run(old(Now()), ClickScript(pulse))
    {
      hide Run, Perform;
      if pulse.ReleaseThenPress? {
        ghost var release := SetButtons(pulse.released);
        ghost var tail := [SetButtons(pulse.pressed), Delay, SetButtons(pulse.restore)];
        assert ClickScript(pulse) == [release] + ([Delay] + tail);
        RunCons(Now(), release, [Delay] + tail);
        failure := CommitMouseState(pulse.released);
        if failure.Some? {
          return;
        }
        RunCons(Now(), Delay, tail);
        failure := DelayFor();
        if failure.Some? {
          return;
        }
      }
      failure := ClickAndRestore(pulse.pressed, pulse.restore);
    }

    // ---- Loops ----

    method TypeStrokes(strokes: seq<KeyStroke>) returns (failure: Option<ErrorCode>)
      requires held.keyboard.IsIdle()
      modifies this
      ensures Outcome(Now(), failure) == Run(old(Now()), StrokesScript(old(held).keyboard, strokes))
    {
      failure := None;
      ghost var w, keyboard := Now(), held.keyboard;
      assert strokes[0..] == strokes;
      for i := 0 to |strokes|
        invariant failure == None
        invariant held.keyboard == keyboard
        invariant Run(w, StrokesScript(keyboard, strokes)) == Run(Now(), StrokesScript(keyboard, strokes[i..]))
      {
        ghost var rest := StrokesScript(keyboard, strokes[i + 1..]);
        StrokesSplit(keyboard, strokes, i);
        TapIsAPressEdge(keyboard, strokes[i]);
        ghost var tap := TapScript(keyboard, strokes[i]);
        hide Run, Perform, KeyboardState.TapPlan, StrokesScript;
        RunCons(Now(), Check, tap + rest);
        failure := CheckCancelled();
        if failure.Some? {
          return;
        }
        RunAppend(Now(), tap, rest);
        var plan := held.keyboard.TapPlan(strokes[i]);
        if plan.Err? {
          assert false;
        }
        PulseRestores(Now(), plan.value);
        failure := ExecuteKeyboardPulse(plan.value);
        if failure.Some? {
          return;
        }
      }
      assert strokes[|strokes|..] == [];
    }

    method MoveRelative(dx: I16, dy: I16) returns (failure: Option<ErrorCode>)
      modifies this
      ensures Outcome(Now(), failure) == Run(old(Now()), StepsScript(old(held).buttons, Steps(dx, dy)))
    {
      failure := None;
      ghost var w, buttons := Now(), held.buttons;
      var steps := new RelativeMovementSteps(dx, dy);
      var item := steps.Next();
      while item.Some?
        invariant failure == None
        invariant held.buttons == buttons
        invariant fresh(steps)
        invariant item.None? ==> steps.Remaining() == []
        invariant Run(w, StepsScript(buttons, Steps(dx, dy)))
               == Run(Now(), StepsScript(buttons, if item.Some? then [item.value] + steps.Remaining() else []))
        decreases |steps.Remaining()| + if item.Some? then 1 else 0
      {
        ghost var rest := StepsScript(buttons, steps.Remaining());
        ghost var one := StepScript(buttons, item.value);
        StepsSplit(buttons, item.value, steps.Remaining());
        hide Run, Perform, StepsScript, StepScript;
        RunCons(Now(), Check, one + ([Check] + rest));
        failure := CheckCancelled();
        if failure.Some? {
          return;
        }
        RunAppend(Now(), one, [Check] + rest);
        failure := SendRelativeMouseStep(item.value);
        if failure.Some? {
          return;
        }
        RunCons(Now(), Check, rest);
        failure := CheckCancelled();
        if failure.Some? {
          return;
        }
        item := steps.Next();
      }
    }

    method TypeText(bytes: seq<Byte>, capsLock: bool) returns (failure: Option<ErrorCode>)
      modifies this
      ensures Outcome(Now(), failure) == Run(old(Now()), TextScript(old(held).keyboard, bytes, capsLock))
    {
      ghost var w := Now();
      if !held.keyboard.IsIdle() {
        RunOne(w, Refuse(KeyboardBusy));
        return Some(KeyboardBusy);
      }
      var strokes := ComputeAsciiStrokes(bytes, capsLock);
      if strokes.Err? {
        RunOne(w, Refuse(InputErrorCode(strokes.error)));
        return Some(InputErrorCode(strokes.error));
      }
      hide Run;
      RunCons(w, Check, StrokesScript(held.keyboard, strokes.value));
      failure := CheckCancelled();
      if failure.None? {
        failure := TypeStrokes(strokes.value);
      }
    }

    // ---- Commands ----

    method ExecuteBody(command: Command, capsLock: bool) returns (failure: Option<ErrorCode>)
      modifies this
      ensures Outcome(Now(), failure) == Run(old(Now()), Body(command, old(held), capsLock))
    {
      ghost var w := Now();
      match command {
        case DoPing =>
          failure := None;
        case DoHeartbeat =>
          failure := None;
        case DoGetInfo =>
          failure := None;
        case DoGetCaps =>
          failure := None;
        case DoKeyDown(stroke) =>
          failure := PressKey(stroke);
        case DoKeyUp(stroke) =>
          RunOne(w, WriteKeyboard(held.keyboard.KeyUp(stroke)));
          failure := CommitKeyboardState(held.keyboard.KeyUp(stroke));
        case DoKeyTap(stroke) =>
          failure := TapKey(stroke);
        case DoTypeAscii(bytes) =>
          failure := TypeText(bytes, capsLock);
        case DoMouseMoveRel(dx, dy) =>
          failure := MoveRelative(dx, dy);
        case DoMouseButtonDown(button) =>
          RunOne(w, SetButtons(Or(held.buttons, Mask(button))));
          failure := CommitMouseState(Or(held.buttons, Mask(button)));
        case DoMouseButtonUp(button) =>
          RunOne(w, SetButtons(AndNot(held.buttons, Mask(button))));
          failure := CommitMouseState(AndNot(held.buttons, Mask(button)));
        case DoMouseClick(button) =>
          failure := ExecuteMousePulse(ClickPlan(held.buttons, button));
        case DoMouseWheel(wheel) =>
          RunOne(w, WriteMouse(held.buttons, 0, 0, wheel));
          failure := SendMouse(0, 0, wheel);
        case DoWaitMs(_) =>
          RunOne(w, Delay);
          failure := DelayFor();
        case DoBatchBegin =>
          RunOne(w, Refuse(BadCommand));
          failure := Some(BadCommand);
        case DoBatchEnd =>
          RunOne(w, Refuse(BadCommand));
          failure := Some(BadCommand);
        case DoStopAll =>
          RunOne(w, ReleaseAll);
          failure := ResetAll();
      }
    }

    method PressKey(stroke: KeyStroke) returns (failure: Option<ErrorCode>)
      modifies this
      ensures Outcome(Now(), failure) == Run(old(Now()), Body(DoKeyDown(stroke), old(held), false))
    {
      var next := held.keyboard.KeyDown(stroke);
      if next.Err? {
        RunOne(Now(), Refuse(InputErrorCode(next.error)));
        return Some(InputErrorCode(next.error));
      }
      RunOne(Now(), WriteKeyboard(next.value));
      failure := CommitKeyboardState(next.value);
    }

    method TapKey(stroke: KeyStroke) returns (failure: Option<ErrorCode>)
      modifies this
      ensures Outcome(Now(), failure) == Run(old(Now()), TapScript(old(held).keyboard, stroke))
    {
      var plan := held.keyboard.TapPlan(stroke);
      if plan.Err? {
        RunOne(Now(), Refuse(InputErrorCode(plan.error)));
        return Some(InputErrorCode(plan.error));
      }
      failure := ExecuteKeyboardPulse(plan.value);
    }

    /** Two cancellation points around the body; no recovery. */
    method ExecuteCommandOnce(command: Command, capsLock: bool) returns (r: Result<DeviceResponse, ErrorCode>)
      modifies this
      ensures var o := ExecuteOnce(old(Now()), command, capsLock);
              Now() == o.world && r == if o.failure.None? then Ok(ResponseTo(command)) else Err(o.failure.value)
    {
      hide Run, Perform, Body;
      ghost var w, body := Now(), Body(command, held, capsLock);
      assert [Check] + body + [Check] == [Check] + (body + [Check]);
      RunCons(w, Check, body + [Check]);
      CheckKeepsHeld(w);
      var failure := CheckCancelled();
      if failure.Some? {
        return Err(failure.value);
      }
      RunAppend(Now(), body, [Check]);
      failure := ExecuteBody(command, capsLock);
      if failure.Some? {
        return Err(failure.value);
      }
      RunOne(Now(), Check);
      failure := CheckCancelled();
      r := if failure.Some? then Err(failure.value) else Ok(ResponseTo(command));
    }

    method ExecuteCommand(command: Command, capsLock: bool) returns (r: Result<DeviceResponse, ErrorCode>)
      modifies this
      ensures var o := Execute(old(Now()), command, capsLock);
              Now() == o.world && r == if o.failure.None? then Ok(ResponseTo(command)) else Err(o.failure.value)
    {
      hide ExecuteOnce, ResetInputs;
      r := ExecuteCommandOnce(command, capsLock);
      if r.Err? && RequiresRelease(r.error) {
        var _ := ResetAll();
      }
    }
  }

  lemma CheckKeepsHeld(w: World)
    ensures Perform(w, Check).world.held == w.held
  {
  }

  lemma StrokesSplit(keyboard: Keyboard, strokes: seq<KeyStroke>, i: nat)
    requires i < |strokes|
    ensures StrokesScript(keyboard, strokes[i..])
         == [Check] + (TapScript(keyboard, strokes[i]) + StrokesScript(keyboard, strokes[i + 1..]))
  {
    assert strokes[i..][1..] == strokes[i + 1..];
    var all := StrokesScript(keyboard, strokes[i..]);
    assert all == [Check] + TapScript(keyboard, strokes[i]) + StrokesScript(keyboard, strokes[i + 1..]);
    hide TapScript, StrokesScript;
  }

  lemma StepsSplit(buttons: Byte, step: Step, rest: seq<Step>)
    ensures StepsScript(buttons, [step] + rest)
         == [Check] + (StepScript(buttons, step) + ([Check] + StepsScript(buttons, rest)))
  {
    assert ([step] + rest)[1..] == rest;
  }

  lemma PulseRestores(w: World, pulse: KeyboardPulse)
    requires pulse.restore == w.held.keyboard
    ensures Run(w, PulseScript(pulse)).failure.None? ==> Run(w, PulseScript(pulse)).world.held == w.held
  {
    PulseNeutral(w.held, pulse);
    hide PulseScript;
    if Run(w, PulseScript(pulse)).failure.None? {
      RunSucceeds(w, PulseScript(pulse));
    }
  }
}
