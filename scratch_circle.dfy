/**
 * The MouseCircleApp of tempCodeRunnerFile.py, an earlier copy of main.py
 * without toggles or history: every motion event feeds the 15-point trail,
 * and the ring pulses on every frame.
 */
module ScratchCircle {
  import opened Options
  import opened Bounded
  import opened Pulse

  const MAX_TRAIL_LENGTH: nat := 15

  datatype Point = Point(x: int, y: int)

  class MouseCircleApp {
    var currentX: Option<int>
    var currentY: Option<int>
    var trail: seq<Point>
    var anim: Pulse

    ghost predicate Valid()
      reads this
    {
      |trail| <= MAX_TRAIL_LENGTH
    }

    constructor ()
      ensures Valid() && currentX == None && currentY == None && trail == []
      ensures anim == PulseStep(PULSE_START) && anim.radius == 42
    {
      currentX, currentY := None, None;
      trail := [];
      anim := PULSE_START;
      new;
      // `__init__` ends by running the first frame.
      var _ := Animate();
    }

    /** `on_mouse_move`: the trail is always appended, and the oldest point dropped past 15. */
    method OnMouseMove(x: int, y: int)
      requires Valid()
      modifies this
      ensures Valid()
      ensures currentX == Some(x) && currentY == Some(y) && anim == old(anim)
      ensures trail == PushBounded(old(trail), Point(x, y), MAX_TRAIL_LENGTH)
      ensures trail[|trail| - 1] == Point(x, y)
      ensures |old(trail)| < MAX_TRAIL_LENGTH ==> trail == old(trail) + [Point(x, y)]
      ensures |old(trail)| == MAX_TRAIL_LENGTH ==> trail == old(trail)[1..] + [Point(x, y)]
    {
      currentX, currentY := Some(x), Some(y);
      PushBoundedShape(trail, Point(x, y), MAX_TRAIL_LENGTH);
      trail := trail + [Point(x, y)];
      if |trail| > MAX_TRAIL_LENGTH {
        trail := trail[1..];
      }
    }

    /** `animate`: the pulse always steps; a redraw happens only when both coordinates are known. */
    method Animate() returns (redrawn: bool)
      modifies this
      ensures anim == PulseStep(old(anim))
      ensures anim.radius == old(anim.radius) + 2 || anim.radius == old(anim.radius) - 2
      ensures redrawn <==> currentX.Some? && currentY.Some?
      ensures currentX == old(currentX) && currentY == old(currentY) && trail == old(trail)
    {
      if anim.grow {
        anim := anim.(radius := anim.radius + 2);
        if anim.radius > 60 {
          anim := anim.(grow := false);
        }
      } else {
        anim := anim.(radius := anim.radius - 2);
        if anim.radius < 30 {
          anim := anim.(grow := true);
        }
      }
      redrawn := currentX.Some? && currentY.Some?;
    }
  }
}
