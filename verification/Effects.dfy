/**
 What the host receives: movement that adds up and never drifts, and text that
 reads back.
 */
module Effects {
  import opened Types
  import opened Commands
  import opened InputState
  import opened Ascii
  import opened Movement
  import opened ExecutionCore

  // ---- Movement ----

  datatype Travel = Travel(x: int, y: int)

  function Plus(a: Travel, b: Travel): Travel {
    Travel(a.x + b.x, a.y + b.y)
  }

  /** Total displacement of a report sequence. */
  function Total(reports: seq<Report>): Travel {
    if reports == [] then Travel(0, 0)
    else
      var rest := Total(reports[1..]);
      if reports[0].MouseReport? then Travel(reports[0].x + rest.x, reports[0].y + rest.y) else rest
  }

  /** A mouse report in range that repeats the given buttons, leaves the wheel alone and is never straight down. */
  predicate MovesWith(r: Report, buttons: Byte) {
    && r.MouseReport? && r.buttons == buttons && r.wheel == 0
    && -127 <= r.x <= 127 && -127 <= r.y <= 127 && !(r.x == 0 && r.y > 0)
  }

  lemma {:induction false} ReportsAppend(p: seq<Action>, q: seq<Action>)
    ensures Reports(p + q) == Reports(p) + Reports(q)
    decreases |p|
  {
    if p == [] {
      assert p + q == q && [] + Reports(q) == Reports(q);
    } else {
      assert (p + q)[1..] == p[1..] + q;
      ReportsAppend(p[1..], q);
      assert ReportsOf(p[0]) + (Reports(p[1..]) + Reports(q)) == ReportsOf(p[0]) + Reports(p[1..]) + Reports(q);
    }
  }

  lemma ReportsOne(a: Action)
    ensures Reports([a]) == ReportsOf(a)
  {
    assert Reports([a]) == ReportsOf(a) + Reports([]);
  }

  lemma {:induction false} TotalAppend(p: seq<Report>, q: seq<Report>)
    ensures Total(p + q) == Plus(Total(p), Total(q))
    decreases |p|
  {
    if p == [] {
      assert p + q == q;
    } else {
      assert (p + q)[1..] == p[1..] + q;
      TotalAppend(p[1..], q);
    }
  }

  lemma TotalOne(r: Report)
    ensures Total([r]) == if r.MouseReport? then Travel(r.x, r.y) else Travel(0, 0)
  {
    assert [r][1..] == [];
  }

  lemma StepTotal(buttons: Byte, step: Step)
    ensures Total(Reports(StepScript(buttons, step))) == Travel(step.x, step.y)
    ensures -127 <= step.x <= 127 && -127 <= step.y <= 127 ==>
              forall r :: r in Reports(StepScript(buttons, step)) ==> MovesWith(r, buttons)
  {
    if step.x == 0 && step.y > 0 {
      var a, b := WriteMouse(buttons, 1, step.y, 0), WriteMouse(buttons, -1, 0, 0);
      assert StepScript(buttons, step) == [a] + [b];
      ReportsAppend([a], [b]);
      ReportsOne(a);
      ReportsOne(b);
      TotalAppend(ReportsOf(a), ReportsOf(b));
      TotalOne(MouseReport(buttons, 1, step.y, 0));
      TotalOne(MouseReport(buttons, -1, 0, 0));
    } else {
      ReportsOne(WriteMouse(buttons, step.x, step.y, 0));
      TotalOne(MouseReport(buttons, step.x, step.y, 0));
    }
  }

  function StepsTotal(steps: seq<Step>): Travel {
    Travel(SumX(steps), SumY(steps))
  }

  function RoundScript(buttons: Byte, step: Step): seq<Action> {
    [Check] + StepScript(buttons, step) + [Check]
  }

  lemma RoundReports(buttons: Byte, step: Step)
    ensures Reports(RoundScript(buttons, step)) == Reports(StepScript(buttons, step))
  {
    var s := StepScript(buttons, step);
    ReportsAppend([Check], s);
    ReportsAppend([Check] + s, [Check]);
    ReportsOne(Check);
    assert [] + Reports(s) + [] == Reports(s);
  }

  lemma StepsScriptUnfolds(buttons: Byte, steps: seq<Step>)
    requires steps != []
    ensures StepsScript(buttons, steps) == RoundScript(buttons, steps[0]) + StepsScript(buttons, steps[1..])
    ensures Reports(StepsScript(buttons, steps)) == Reports(StepScript(buttons, steps[0])) + Reports(StepsScript(buttons, steps[1..]))
  {
    RoundReports(buttons, steps[0]);
    ReportsAppend(RoundScript(buttons, steps[0]), StepsScript(buttons, steps[1..]));
  }

  lemma {:induction false} StepsScriptTotal(buttons: Byte, steps: seq<Step>)
    ensures Total(Reports(StepsScript(buttons, steps))) == StepsTotal(steps)
    ensures (forall s :: s in steps ==> -127 <= s.x <= 127 && -127 <= s.y <= 127) ==>
              forall r :: r in Reports(StepsScript(buttons, steps)) ==> MovesWith(r, buttons)
    decreases |steps|
  {
    if steps != [] {
      StepsScriptUnfolds(buttons, steps);
      StepTotal(buttons, steps[0]);
      StepsScriptTotal(buttons, steps[1..]);
      TotalAppend(Reports(StepScript(buttons, steps[0])), Reports(StepsScript(buttons, steps[1..])));
      assert steps[0] in steps && forall s :: s in steps[1..] ==> s in steps;
    }
  }

  /** Some number of whole steps accounts for everything sent. */
  ghost predicate WholeSteps(sent: Travel, steps: seq<Step>) {
    exists k :: 0 <= k <= |steps| && sent == StepsTotal(steps[..k])
  }

  lemma WholeStepsAfterOne(sent: Travel, steps: seq<Step>)
    requires steps != [] && WholeSteps(sent, steps[1..])
    ensures WholeSteps(Travel(steps[0].x + sent.x, steps[0].y + sent.y), steps)
  {
    var k :| 0 <= k <= |steps| - 1 && sent == StepsTotal(steps[1..][..k]);
    assert steps[..k + 1][1..] == steps[1..][..k];
    assert StepsTotal(steps[..k + 1]) == Travel(steps[0].x + sent.x, steps[0].y + sent.y);
  }

  lemma ChecksOfRound(buttons: Byte, step: Step, i: nat)
    requires i < |RoundScript(buttons, step)| && RoundScript(buttons, step)[i] == Check
    ensures Total(Reports(RoundScript(buttons, step)[..i])) == Travel(0, 0)
         || Total(Reports(RoundScript(buttons, step)[..i])) == Travel(step.x, step.y)
  {
    var r, s := RoundScript(buttons, step), StepScript(buttons, step);
    if i == 0 {
      assert r[..0] == [];
    } else {
      assert i == |s| + 1 by {
        assert forall j :: 1 <= j <= |s| ==> r[j] == s[j - 1] && s[j - 1].WriteMouse?;
      }
      assert r[..i] == [Check] + s;
      ReportsAppend([Check], s);
      ReportsOne(Check);
      assert [] + Reports(s) == Reports(s);
      StepTotal(buttons, step);
    }
  }

  /** At every cancellation point of a movement, what has been sent is a whole number of steps. */
  lemma {:induction false} ChecksFallBetweenSteps(buttons: Byte, steps: seq<Step>, i: nat)
    requires i < |StepsScript(buttons, steps)| && StepsScript(buttons, steps)[i] == Check
    ensures WholeSteps(Total(Reports(StepsScript(buttons, steps)[..i])), steps)
    decreases |steps|
  {
    StepsScriptUnfolds(buttons, steps);
    var script, round, rest := StepsScript(buttons, steps), RoundScript(buttons, steps[0]), StepsScript(buttons, steps[1..]);
    if i < |round| {
      ChecksOfRound(buttons, steps[0], i);
      assert script[..i] == round[..i];
      NoneOrFirst(steps);
    } else {
      var j := i - |round|;
      ChecksFallBetweenSteps(buttons, steps[1..], j);
      assert script[..i] == round + rest[..j];
      ReportsAppend(round, rest[..j]);
      RoundReports(buttons, steps[0]);
      StepTotal(buttons, steps[0]);
      TotalAppend(Reports(round), Reports(rest[..j]));
      WholeStepsAfterOne(Total(Reports(rest[..j])), steps);
    }
  }

  lemma NoneOrFirst(steps: seq<Step>)
    requires steps != []
    ensures WholeSteps(Travel(0, 0), steps) && WholeSteps(Travel(steps[0].x, steps[0].y), steps)
  {
    assert steps[..0] == [] && StepsTotal(steps[..0]) == Travel(0, 0);
    assert steps[..1][1..] == [] && StepsTotal(steps[..1]) == Travel(steps[0].x, steps[0].y);
  }

  /** A run that is cancelled stops at one cancellation point, with everything before it delivered. */
  lemma {:induction false} CancelledRunStops(w: World, script: seq<Action>) returns (i: nat)
    requires Run(w, script).failure == Some(Cancelled) && !Refuses(script)
    ensures i < |script| && (script[i].Check? || script[i].Delay?)
    ensures Run(w, script).world.attempts == w.attempts + Delivered(Reports(script[..i]))
    decreases |script|
  {
    var first := Perform(w, script[0]);
    assert !script[0].Refuse?;
    if first.failure.Some? {
      i := 0;
      assert script[..0] == [];
    } else {
      PerformSucceeds(w, script[0]);
      hide Perform, Commit, ReportsOf;
      assert forall j :: 0 <= j < |script| - 1 ==> script[1..][j] == script[j + 1];
      var j := CancelledRunStops(first.world, script[1..]);
      i := j + 1;
      ReportsUpTo(script, j);
      hide Run, Reports, Delivered;
      DeliveredAppend(ReportsOf(script[0]), Reports(script[1..][..j]));
    }
  }

  lemma ReportsUpTo(script: seq<Action>, j: nat)
    requires j < |script|
    ensures Reports(script[..j + 1]) == ReportsOf(script[0]) + Reports(script[1..][..j])
  {
    hide ReportsOf;
    assert script[..j + 1][1..] == script[1..][..j];
  }

  lemma CheckThenReports(p: seq<Action>)
    ensures Reports([Check] + p) == Reports(p)
  {
    ReportsAppend([Check], p);
    ReportsOne(Check);
    assert [] + Reports(p) == Reports(p);
  }

  lemma MoveScriptChecks(buttons: Byte, steps: seq<Step>, i: nat)
    requires i < |StepsScript(buttons, steps)| + 2
    requires ([Check] + StepsScript(buttons, steps) + [Check])[i] == Check
    ensures WholeSteps(Total(Reports(([Check] + StepsScript(buttons, steps) + [Check])[..i])), steps)
  {
    var body := StepsScript(buttons, steps);
    var script := [Check] + body + [Check];
    if i == 0 {
      assert script[..0] == [];
      assert steps[..0] == [] && StepsTotal(steps[..0]) == Travel(0, 0);
    } else {
      assert script[..i] == [Check] + body[..i - 1];
      CheckThenReports(body[..i - 1]);
      if i <= |body| {
        ChecksFallBetweenSteps(buttons, steps, i - 1);
      } else {
        assert body[..i - 1] == body;
        StepsScriptTotal(buttons, steps);
        assert steps[..|steps|] == steps;
      }
    }
  }

  /** Everything the attempt sent, all of it delivered, adds up to a travel that satisfies the test. */
  ghost predicate SentTravel(w: World, o: Outcome, test: Travel -> bool) {
    exists reports :: o.world.attempts == w.attempts + Delivered(reports) && test(Total(reports))
                      && forall r :: r in reports ==> MovesWith(r, w.held.buttons)
  }

  lemma PrefixMoves(buttons: Byte, dx: I16, dy: I16, i: nat)
    requires i <= |StepsScript(buttons, Steps(dx, dy))| + 2
    ensures forall r :: r in Reports(([Check] + StepsScript(buttons, Steps(dx, dy)) + [Check])[..i]) ==> MovesWith(r, buttons)
  {
    var body := StepsScript(buttons, Steps(dx, dy));
    var script := [Check] + body + [Check];
    StepsScriptTotal(buttons, Steps(dx, dy));
    StepsConserve(dx, dy);
    CheckThenReports(body);
    ReportsAppend([Check] + body, [Check]);
    ReportsOne(Check);
    assert Reports(script) == Reports(body) + [] == Reports(body);
    assert script == script[..i] + script[i..];
    ReportsAppend(script[..i], script[i..]);
    forall r | r in Reports(script[..i])
      ensures MovesWith(r, buttons)
    {
      assert r in Reports(script[..i]) + Reports(script[i..]);
    }
  }

  /**
   A movement that succeeds sends exactly its displacement, in range and with the held buttons; one
   that is cancelled has sent a whole number of its steps, so no sideways correction is left over.
   */
  lemma MovementConserved(w: World, dx: I16, dy: I16, capsLock: bool)
    ensures var o := ExecuteOnce(w, DoMouseMoveRel(dx, dy), capsLock);
            && (o.failure.None? ==> SentTravel(w, o, t => t == Travel(dx, dy)))
            && (o.failure == Some(Cancelled) ==> SentTravel(w, o, t => WholeSteps(t, Steps(dx, dy))))
  {
    var steps, buttons := Steps(dx, dy), w.held.buttons;
    var body := StepsScript(buttons, steps);
    var script := [Check] + body + [Check];
    ScriptMeaning(DoMouseMoveRel(dx, dy), w.held, capsLock);
    var o := Run(w, script);
    if o.failure.None? {
      RunSucceeds(w, script);
      assert script[..|script|] == script;
      PrefixMoves(buttons, dx, dy, |script|);
      CheckThenReports(body);
      ReportsAppend([Check] + body, [Check]);
      ReportsOne(Check);
      assert Reports(script) == Reports(body);
      StepsScriptTotal(buttons, steps);
      StepsConserve(dx, dy);
    } else if o.failure == Some(Cancelled) {
      var i := CancelledRunStops(w, script);
      NoDelays(buttons, steps);
      PrefixMoves(buttons, dx, dy, i);
      MoveScriptChecks(buttons, steps, i);
    }
  }

  lemma {:induction false} NoDelays(buttons: Byte, steps: seq<Step>)
    ensures forall i :: 0 <= i < |StepsScript(buttons, steps)| ==> !StepsScript(buttons, steps)[i].Delay?
    decreases |steps|
  {
    if steps != [] {
      NoDelays(buttons, steps[1..]);
    }
  }

  // ---- Typing ----

  /** Characters a host reads off one keyboard report: one per key that was not down before. */
  function PressedCharacters(before: Keyboard, now: Keyboard, capsLock: bool, i: nat): seq<Byte>
    requires i <= now.len
    decreases now.len - i
  {
    if i == now.len then []
    else
      var key := now.slots[i];
      var rest := PressedCharacters(before, now, capsLock, i + 1);
      var character := HostReads(now.modifiers, key, capsLock);
      if key in before.Keys() || character.None? then rest else [character.value] + rest
  }

  function HostText(before: Keyboard, reports: seq<Report>, capsLock: bool): seq<Byte>
    decreases |reports|
  {
    if reports == [] then []
    else if reports[0].MouseReport? then HostText(before, reports[1..], capsLock)
    else PressedCharacters(before, reports[0].state, capsLock, 0) + HostText(reports[0].state, reports[1..], capsLock)
  }

  /** The text with CR and CR LF read as a single LF. */
  function Lines(bytes: seq<Byte>, i: nat): seq<Byte>
    requires i <= |bytes|
    decreases |bytes| - i
  {
    if i == |bytes| then [] else [if bytes[i] == CR then LF else bytes[i]] + Lines(bytes, i + LineEnd(bytes, i))
  }

  lemma TapReports(keyboard: Keyboard, stroke: KeyStroke)
    requires keyboard.IsIdle() && stroke.keycode != 0
    ensures var plan := keyboard.TapPlan(stroke);
            && plan.Ok? && plan.value.PressRestore? && plan.value.restore == keyboard
            && plan.value.pressed.len == 1 && plan.value.pressed.slots[0] == stroke.keycode
            && plan.value.pressed.modifiers == stroke.modifier
            && Reports(TapScript(keyboard, stroke)) == [KeyboardReport(plan.value.pressed), KeyboardReport(keyboard)]
  {
    TapIsAPressEdge(keyboard, stroke);
    KeyDownEffect(keyboard, stroke);
    var pressed := keyboard.TapPlan(stroke).value.pressed;
    assert keyboard.Keys() == [];
    assert |pressed.Keys()| == 1 && pressed.Keys()[0] == stroke.keycode;
    OrIdle(stroke.modifier);
    var a, b := WriteKeyboard(pressed), WriteKeyboard(keyboard);
    hide KeyboardState.TapPlan, KeyboardState.KeyDown;
    assert TapScript(keyboard, stroke) == [a] + ([Delay] + [b]);
    ReportsAppend([a], [Delay] + [b]);
    ReportsAppend([Delay], [b]);
    ReportsOne(a);
    ReportsOne(Delay);
    ReportsOne(b);
  }

  lemma OrIdle(modifier: Byte)
    ensures Or(0, modifier) == modifier
  {
    FromBitsOfBits(modifier);
  }

  lemma TapReadsBack(keyboard: Keyboard, b: Byte, capsLock: bool, rest: seq<Report>)
    requires keyboard.IsIdle() && AsciiToKeystrokeWithCapsLock(b, capsLock).Some?
    ensures HostText(keyboard, Reports(TapScript(keyboard, AsciiToKeystrokeWithCapsLock(b, capsLock).value)) + rest, capsLock)
         == [if b == CR then LF else b] + HostText(keyboard, rest, capsLock)
  {
    var stroke := AsciiToKeystrokeWithCapsLock(b, capsLock).value;
    KeystrokeReadsBack(b, capsLock);
    TapReports(keyboard, stroke);
    hide AsciiToKeystrokeWithCapsLock, HostReads, TapScript, KeyboardState.TapPlan, Reports;
    var pressed := keyboard.TapPlan(stroke).value.pressed;
    assert keyboard.Keys() == [];
    assert PressedCharacters(keyboard, pressed, capsLock, 1) == [];
    assert PressedCharacters(pressed, keyboard, capsLock, 0) == [];
    var typed := PressedCharacters(keyboard, pressed, capsLock, 0);
    assert typed == [if b == CR then LF else b];
    hide PressedCharacters, AsciiStrokes;
    TwoReports(keyboard, pressed, rest, capsLock);
  }

  lemma TwoReports(keyboard: Keyboard, pressed: Keyboard, rest: seq<Report>, capsLock: bool)
    requires PressedCharacters(pressed, keyboard, capsLock, 0) == []
    ensures HostText(keyboard, [KeyboardReport(pressed), KeyboardReport(keyboard)] + rest, capsLock)
         == PressedCharacters(keyboard, pressed, capsLock, 0) + HostText(keyboard, rest, capsLock)
  {
    hide PressedCharacters;
    var down, up := KeyboardReport(pressed), KeyboardReport(keyboard);
    var all := [down, up] + rest;
    assert all[1..] == [up] + rest && all[1..][1..] == rest;
    assert [] + HostText(keyboard, rest, capsLock) == HostText(keyboard, rest, capsLock);
  }

  lemma {:induction false} StrokesReadBack(keyboard: Keyboard, bytes: seq<Byte>, capsLock: bool, i: nat)
    requires keyboard.IsIdle() && i <= |bytes| && StrokesFrom(bytes, capsLock, i).Ok?
    ensures HostText(keyboard, Reports(StrokesScript(keyboard, StrokesFrom(bytes, capsLock, i).value)), capsLock) == Lines(bytes, i)
    decreases |bytes| - i
  {
    if i < |bytes| {
      var next := i + LineEnd(bytes, i);
      StrokesReadBack(keyboard, bytes, capsLock, next);
      var stroke := AsciiToKeystrokeWithCapsLock(bytes[i], capsLock).value;
      var rest := StrokesFrom(bytes, capsLock, next).value;
      assert ([stroke] + rest)[1..] == rest;
      hide TapScript, AsciiToKeystrokeWithCapsLock;
      var tap, others := TapScript(keyboard, stroke), StrokesScript(keyboard, rest);
      assert StrokesScript(keyboard, [stroke] + rest) == [Check] + tap + others;
      ReportsAppend([Check] + tap, others);
      ReportsAppend([Check], tap);
      ReportsOne(Check);
      assert [] + Reports(tap) == Reports(tap);
      TapReadsBack(keyboard, bytes[i], capsLock, Reports(others));
    }
  }

  /**
   A supported text typed from an idle keyboard, under either Caps Lock state, reads back on a US
   host as the same text with its line ends normalised, whenever the command succeeds.
   */
  lemma TypedTextReadsBack(w: World, bytes: seq<Byte>, capsLock: bool)
    requires ExecuteOnce(w, DoTypeAscii(bytes), capsLock).failure.None?
    ensures exists reports ::
              && ExecuteOnce(w, DoTypeAscii(bytes), capsLock).world.attempts == w.attempts + Delivered(reports)
              && HostText(w.held.keyboard, reports, capsLock) == Lines(bytes, 0)
  {
    var command := DoTypeAscii(bytes);
    OnceEnds(w, command, capsLock);
    CapsLockNeverMatters(bytes, false, capsLock, 0);
    var strokes := AsciiStrokes(bytes, capsLock).value;
    StrokesReadBack(w.held.keyboard, bytes, capsLock, 0);
    var script := StrokesScript(w.held.keyboard, strokes);
    assert Script(command, w.held, capsLock) == [Check] + ([Check] + script) + [Check];
    ReportsAppend([Check] + ([Check] + script), [Check]);
    ReportsAppend([Check], [Check] + script);
    ReportsAppend([Check], script);
    ReportsOne(Check);
    assert [] + ([] + Reports(script)) + [] == Reports(script);
    var reports := Reports(Script(command, w.held, capsLock));
    assert reports == Reports(script);
  }
}
