/**
 Relative movement in report-sized steps (RelativeMovementSteps in
 src/input_state.rs) and the host's estimate of how many there are
 (tools/hidctl/src/client.rs).
 */
module Movement {
  import opened Types

  datatype Step = Step(x: I8, y: I8)

  function Clamp(n: I16): I8 {
    if n > 127 then 127 else if n < -127 then -127 else n
  }

  function Abs(n: int): nat {
    if n < 0 then -n else n
  }

  function Extent(dx: I16, dy: I16): nat {
    if Abs(dx) < Abs(dy) then Abs(dy) else Abs(dx)
  }

  function Steps(dx: I16, dy: I16): seq<Step>
    decreases Abs(dx) + Abs(dy)
  {
    if dx == 0 && dy == 0 then [] else [Step(Clamp(dx), Clamp(dy))] + Steps(dx - Clamp(dx), dy - Clamp(dy))
  }

  /** The host's duration estimate for a movement payload, one millisecond per report interval. */
  function EstimatedSteps(dx: I16, dy: I16): nat {
    ReportsFor(Extent(dx, dy))
  }

  function ReportsFor(extent: nat): nat {
    (extent + 126) / 127
  }

  function SumX(steps: seq<Step>): int {
    if steps == [] then 0 else steps[0].x + SumX(steps[1..])
  }

  function SumY(steps: seq<Step>): int {
    if steps == [] then 0 else steps[0].y + SumY(steps[1..])
  }

  /** Remaining distance, consumed in place one step at a time. */
  class RelativeMovementSteps {
    var remainingX: I16
    var remainingY: I16

    ghost function Remaining(): seq<Step>
      reads this
    {
      Steps(remainingX, remainingY)
    }

    constructor (dx: I16, dy: I16)
      ensures Remaining() == Steps(dx, dy)
    {
      remainingX, remainingY := dx, dy;
    }

    method Next() returns (item: Option<Step>)
      modifies this
      ensures item.None? <==> old(Remaining()) == []
      ensures item.None? ==> Remaining() == []
      ensures item.Some? ==> old(Remaining()) == [item.value] + Remaining()
    {
      if remainingX == 0 && remainingY == 0 {
        return None;
      }
      var stepX, stepY := Clamp(remainingX), Clamp(remainingY);
      remainingX, remainingY := remainingX - stepX, remainingY - stepY;
      item := Some(Step(stepX, stepY));
    }
  }

  lemma ExtentShrinks(dx: I16, dy: I16)
    ensures Extent(dx - Clamp(dx), dy - Clamp(dy)) == if Extent(dx, dy) > 127 then Extent(dx, dy) - 127 else 0
  {
  }

  lemma EstimateShrinks(extent: nat)
    requires extent > 0
    ensures ReportsFor(extent) == 1 + ReportsFor(if extent > 127 then extent - 127 else 0)
  {
  }

  lemma {:induction false} StepsSum(dx: I16, dy: I16)
    ensures SumX(Steps(dx, dy)) == dx && SumY(Steps(dx, dy)) == dy
    decreases Abs(dx) + Abs(dy)
  {
    if dx != 0 || dy != 0 {
      StepsSum(dx - Clamp(dx), dy - Clamp(dy));
      assert Steps(dx, dy)[1..] == Steps(dx - Clamp(dx), dy - Clamp(dy));
    }
  }

  lemma {:induction false} StepsCount(dx: I16, dy: I16)
    ensures |Steps(dx, dy)| == EstimatedSteps(dx, dy)
    decreases Abs(dx) + Abs(dy)
  {
    if dx != 0 || dy != 0 {
      var x, y := dx - Clamp(dx), dy - Clamp(dy);
      assert Steps(dx, dy) == [Step(Clamp(dx), Clamp(dy))] + Steps(x, y);
      StepsCount(x, y);
      ExtentShrinks(dx, dy);
      assert Extent(dx, dy) > 0;
      hide Extent, Clamp, Abs, ReportsFor, Steps;
      EstimateShrinks(Extent(dx, dy));
    }
  }

  lemma {:induction false} StepsBounded(dx: I16, dy: I16)
    ensures forall s :: s in Steps(dx, dy) ==> -127 <= s.x <= 127 && -127 <= s.y <= 127 && s != Step(0, 0)
    decreases Abs(dx) + Abs(dy)
  {
    if dx != 0 || dy != 0 {
      StepsBounded(dx - Clamp(dx), dy - Clamp(dy));
    }
  }

  /**
   For every 16-bit displacement, the extremes included: no step leaves the report range, the steps
   add up to the displacement, none is empty, and there are exactly as many as the host estimates.
   */
  lemma StepsConserve(dx: I16, dy: I16)
    ensures SumX(Steps(dx, dy)) == dx && SumY(Steps(dx, dy)) == dy
    ensures |Steps(dx, dy)| == EstimatedSteps(dx, dy)
    ensures forall s :: s in Steps(dx, dy) ==> -127 <= s.x <= 127 && -127 <= s.y <= 127 && s != Step(0, 0)
  {
    StepsSum(dx, dy);
    StepsCount(dx, dy);
    StepsBounded(dx, dy);
  }
}
