/**
 * The MouseCircleApp of main.py: motion events move the circle, feed a
 * 15-point trail (when shown) and a 100-entry timestamped position history
 * (always); each frame pulses the animated ring when it is shown and
 * redraws once the position is known; the control window lists the newest
 * 50 history entries numbered from 1.
 */
module CircleApp {
  import opened Options
  import opened Bounded
  import opened Pulse

  const MAX_TRAIL_LENGTH: nat := 15
  const MAX_HISTORY: nat := 100
  const DISPLAY_LIMIT: nat := 50

  datatype Point = Point(x: int, y: int)

  /** A history entry; the `%H:%M:%S` clock string is supplied by the caller. */
  datatype Stamped = Stamped(x: int, y: int, timestamp: string)

  datatype DisplayLine = DisplayLine(number: nat, entry: Stamped)

  /** What the history text box shows. */
  datatype HistoryView = Disabled | Listing(lines: seq<DisplayLine>)

  /** Both coordinates, when both are known. */
  function Known(x: Option<int>, y: Option<int>): (r: Option<Point>)
    ensures r.Some? <==> x.Some? && y.Some?
    ensures r.Some? ==> r.value == Point(x.value, y.value)
  {
    if x.Some? && y.Some? then Some(Point(x.value, y.value)) else None
  }

  class MouseCircleApp {
    var currentX: Option<int>
    var currentY: Option<int>
    var trail: seq<Point>
    var positionHistory: seq<Stamped>
    var anim: Pulse
    /** The three check buttons of the control window. */
    var showTrail: bool
    var showAnimation: bool
    var showHistory: bool

    ghost predicate Valid()
      reads this
    {
      |trail| <= MAX_TRAIL_LENGTH && |positionHistory| <= MAX_HISTORY
    }

    constructor ()
      ensures Valid()
      ensures currentX == None && currentY == None && trail == [] && positionHistory == []
      ensures anim == PulseStep(PULSE_START) && anim.radius == 42 && showTrail && showAnimation && !showHistory
    {
      currentX, currentY := None, None;
      trail, positionHistory := [], [];
      anim := PULSE_START;
      showTrail, showAnimation, showHistory := true, true, false;
      new;
      // `__init__` ends by running the first frame.
      var _ := Animate();
    }

    /** `on_mouse_move`: the position always, the trail when shown, the history always. */
    method OnMouseMove(x: int, y: int, timestamp: string)
      requires Valid()
      modifies this
      ensures Valid()
      ensures currentX == Some(x) && currentY == Some(y)
      ensures trail == if showTrail then PushBounded(old(trail), Point(x, y), MAX_TRAIL_LENGTH) else old(trail)
      ensures positionHistory == PushBounded(old(positionHistory), Stamped(x, y, timestamp), MAX_HISTORY)
      ensures positionHistory[|positionHistory| - 1] == Stamped(x, y, timestamp)
      ensures anim == old(anim) && showTrail == old(showTrail) && showAnimation == old(showAnimation)
      ensures showHistory == old(showHistory)
    {
      currentX, currentY := Some(x), Some(y);
      if showTrail {
        PushBoundedShape(trail, Point(x, y), MAX_TRAIL_LENGTH);
        trail := PushBounded(trail, Point(x, y), MAX_TRAIL_LENGTH);
      }
      PushBoundedShape(positionHistory, Stamped(x, y, timestamp), MAX_HISTORY);
      positionHistory := PushBounded(positionHistory, Stamped(x, y, timestamp), MAX_HISTORY);
    }

    /** `reset_trail_history`: trail and history emptied, everything else kept. */
    method ResetTrailHistory()
      modifies this
      ensures Valid() && trail == [] && positionHistory == []
      ensures currentX == old(currentX) && currentY == old(currentY) && anim == old(anim)
      ensures showTrail == old(showTrail) && showAnimation == old(showAnimation) && showHistory == old(showHistory)
    {
      trail := [];
      positionHistory := [];
    }

    /** `reset_history_only`: the trail survives. */
    method ResetHistoryOnly()
      requires Valid()
      modifies this
      ensures Valid() && positionHistory == [] && trail == old(trail)
      ensures currentX == old(currentX) && currentY == old(currentY) && anim == old(anim)
      ensures showTrail == old(showTrail) && showAnimation == old(showAnimation) && showHistory == old(showHistory)
    {
      positionHistory := [];
    }

    /** `animate`: pulse when shown; `drawnAt` is where the circle is redrawn, if anywhere. */
    method Animate() returns (drawnAt: Option<Point>)
      modifies this
      ensures anim == if old(showAnimation) then PulseStep(old(anim)) else old(anim)
      ensures drawnAt == Known(currentX, currentY)
      ensures currentX == old(currentX) && currentY == old(currentY)
      ensures trail == old(trail) && positionHistory == old(positionHistory)
      ensures showTrail == old(showTrail) && showAnimation == old(showAnimation) && showHistory == old(showHistory)
    {
      if showAnimation {
        if anim.grow {
          anim := anim.(radius := anim.radius + 2);
          if anim.radius > 60 {
            anim := anim.(grow := false);
          }
        } else {
          anim := anim.(radius := anim.radius - 2);
          if anim.radius < 30 {
            anim := anim.(grow := true);
          }
        }
      }
      drawnAt := None;
      if currentX.Some? && currentY.Some? {
        drawnAt := Some(Point(currentX.value, currentY.value));
      }
    }

    /**
     * `update_history_display`: the disabled notice unless tracking is on
     * and there is history; otherwise the newest 50 entries, oldest first,
     * numbered from 1.
     */
    method UpdateHistoryDisplay() returns (view: HistoryView)
      ensures view == Disabled <==> !showHistory || positionHistory == []
      ensures view.Listing? ==>
        var recent := Last(positionHistory, DISPLAY_LIMIT);
        && |view.lines| == |recent|
        && 1 <= |view.lines| <= DISPLAY_LIMIT
        && (forall k :: 0 <= k < |view.lines| ==> view.lines[k] == DisplayLine(k + 1, recent[k]))
        && view.lines[|view.lines| - 1] == DisplayLine(|view.lines|, positionHistory[|positionHistory| - 1])
    {
      if !(showHistory && positionHistory != []) {
        return Disabled;
      }
      var recent := Last(positionHistory, DISPLAY_LIMIT);
      var lines: seq<DisplayLine> := [];
      var i := 0;
      while i < |recent|
        invariant 0 <= i <= |recent| && |lines| == i
        invariant forall k :: 0 <= k < i ==> lines[k] == DisplayLine(k + 1, recent[k])
      {
        lines := lines + [DisplayLine(i + 1, recent[i])];
        i := i + 1;
      }
      view := Listing(lines);
    }
  }
}
