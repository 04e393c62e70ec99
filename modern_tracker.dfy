/**
 * The ModernMouseTracker of modern_mouse_tracker.py: Tk motion events feed
 * a 300-point circular history and a 20-point trail, a click starts a
 * growing ring effect, and every animation frame steps the grow circle and,
 * once the pointer position is known, redraws (which ages the click effect).
 */
module ModernTracker {
  import opened Options
  import opened Bounded
  import opened Ring
  import opened Pulse

  const MAX_HISTORY_POINTS: nat := 300
  const MAX_TRAIL_LENGTH: nat := 20
  const CLICK_GROWTH := 3

  datatype Point = Point(x: int, y: int)

  const ORIGIN := Point(0, 0)

  datatype ClickEffect = ClickEffect(x: int, y: int, ring: Fading)

  /** `recorded` is every point written to the history ring since its last reset. */
  datatype State = State(
    current: Option<Point>, trail: seq<Point>, recorded: seq<Point>, grow: Grow,
    showTrail: bool, showGrow: bool, showLineHistory: bool, isFullscreen: bool,
    clickEffect: Option<ClickEffect>)

  /** `on_mouse_move` */
  function Move(s: State, p: Point): State {
    s.(recorded := if s.showLineHistory then s.recorded + [p] else s.recorded,
       current := Some(p),
       trail := if s.showTrail then PushBounded(s.trail, p, MAX_TRAIL_LENGTH) else s.trail)
  }

  function Moves(s: State, ps: seq<Point>): State
    decreases |ps|
  {
    if ps == [] then s else Move(Moves(s, ps[..|ps| - 1]), ps[|ps| - 1])
  }

  /**
   * After a run of motion events the pointer is at the last one (toggles
   * regardless), the history has received every point when line history
   * is on, and the trail holds the newest 20 points when the trail is on.
   */
  lemma {:induction false} MovesTrack(s: State, ps: seq<Point>)
    ensures var r := Moves(s, ps);
      && r.current == (if ps == [] then s.current else Some(ps[|ps| - 1]))
      && r.recorded == s.recorded + (if s.showLineHistory then ps else [])
      && r.trail == (if s.showTrail then Last(s.trail + ps, MAX_TRAIL_LENGTH) else s.trail)
      && r.showTrail == s.showTrail && r.showLineHistory == s.showLineHistory
    requires |s.trail| <= MAX_TRAIL_LENGTH
    decreases |ps|
  {
    if ps == [] {
      assert s.trail + [] == s.trail;
    } else {
      var init := ps[..|ps| - 1];
      var p := ps[|ps| - 1];
      MovesTrack(s, init);
      assert ps == init + [p];
      AppendAssociates(s.recorded, init, [p]);
      if s.showTrail {
        PushOntoLast(s.trail + init, p, MAX_TRAIL_LENGTH);
        AppendAssociates(s.trail, init, [p]);
      }
    }
  }

  /** `on_mouse_click`: a ring at the click, radius 5, lifetime 20. */
  function Click(s: State, p: Point): State {
    s.(clickEffect := Some(ClickEffect(p.x, p.y, Fading(5, 20))))
  }

  /** The effect part of `draw_all`, which returns early while the pointer position is unknown. */
  function Draw(s: State): State {
    if s.current.None? then s
    else match s.clickEffect
      case None => s
      case Some(c) =>
        match Fade(c.ring, CLICK_GROWTH)
        case None => s.(clickEffect := None)
        case Some(f) => s.(clickEffect := Some(c.(ring := f)))
  }

  /** `animate`: step the grow circle when shown, then redraw when the position is known. */
  function Frame(s: State): State {
    var grown := if s.showGrow then s.(grow := GrowStep(s.grow)) else s;
    Draw(grown)
  }

  function Frames(s: State, n: nat): State
    decreases n
  {
    if n == 0 then s else Frames(Frame(s), n - 1)
  }

  /** Frames run the grow oscillator exactly when it is shown, and freeze it otherwise. */
  lemma {:induction false} FramesGrow(s: State, n: nat)
    ensures Frames(s, n).grow == (if s.showGrow then GrowFrames(s.grow, n) else s.grow)
    ensures Frames(s, n).showGrow == s.showGrow
    decreases n
  {
    if n > 0 {
      FramesGrow(Frame(s), n - 1);
    }
  }

  /** From the initial state the grow radius never leaves [18, 62]. */
  lemma FramesGrowBounded(s: State, n: nat)
    requires s.grow == GROW_START
    ensures 18 <= Frames(s, n).grow.radius <= 62
  {
    FramesGrow(s, n);
    GrowStartBounded(n);
  }

  /** A click ring is drawn 20 times, growing from 5 by 3 per drawn frame, then removed. */
  lemma ClickEffectLifetime(n: nat)
    ensures n < 20 ==> FadeFrames(Fading(5, 20), CLICK_GROWTH, n) == Some(Fading(5 + 3 * n, 20 - n))
    ensures n >= 20 ==> FadeFrames(Fading(5, 20), CLICK_GROWTH, n) == None
  {
    FadeLifetime(Fading(5, 20), CLICK_GROWTH, n);
  }

  class ModernMouseTracker {
    const history: HistoryRing<Point>
    var current: Option<Point>
    var trail: seq<Point>
    var grow: Grow
    var showTrail: bool
    var showGrow: bool
    var showLineHistory: bool
    var isFullscreen: bool
    var clickEffect: Option<ClickEffect>

    ghost predicate Valid()
      reads this, history, history.points
    {
      && history.Valid() && history.capacity == MAX_HISTORY_POINTS && history.blank == ORIGIN
      && |trail| <= MAX_TRAIL_LENGTH
    }

    ghost function Snapshot(): State
      reads this, history
    {
      State(current, trail, history.Recorded, grow, showTrail, showGrow, showLineHistory, isFullscreen, clickEffect)
    }

    constructor ()
      ensures Valid() && fresh(history) && fresh(history.points)
      ensures Snapshot() == State(None, [], [], GrowStep(GROW_START), true, true, true, true, None)
      ensures grow == Grow(32, 1)
    {
      history := new HistoryRing(MAX_HISTORY_POINTS, ORIGIN);
      current := None;
      trail := [];
      grow := GROW_START;
      showTrail, showGrow, showLineHistory, isFullscreen := true, true, true, true;
      clickEffect := None;
      new;
      // `__init__` ends by running the first frame.
      Animate();
    }

    method OnMouseMove(p: Point)
      requires Valid()
      modifies this, history, history.points
      ensures Valid() && history.points == old(history.points)
      ensures Snapshot() == Move(old(Snapshot()), p)
    {
      if showLineHistory {
        history.Record(p);
      }
      current := Some(p);
      if showTrail {
        PushBoundedShape(trail, p, MAX_TRAIL_LENGTH);
        trail := PushBounded(trail, p, MAX_TRAIL_LENGTH);
      }
    }

    method OnMouseClick(p: Point)
      modifies this
      ensures Snapshot() == Click(old(Snapshot()), p)
    {
      clickEffect := Some(ClickEffect(p.x, p.y, Fading(5, 20)));
    }

    /** The state-changing part of `draw_all`. */
    method DrawAll()
      modifies this
      ensures Snapshot() == Draw(old(Snapshot()))
    {
      if current.None? {
        return;
      }
      match clickEffect {
        case None =>
        case Some(c) =>
          var next := Fade(c.ring, CLICK_GROWTH);
          clickEffect := if next.Some? then Some(c.(ring := next.value)) else None;
      }
    }

    method Animate()
      modifies this
      ensures Snapshot() == Frame(old(Snapshot()))
    {
      if showGrow {
        grow := GrowStep(grow);
      }
      if current.Some? {
        DrawAll();
      }
    }

    /** `on_resize` redraws when the position is known. */
    method OnResize()
      modifies this
      ensures Snapshot() == Draw(old(Snapshot()))
    {
      if current.Some? {
        DrawAll();
      }
    }

    method ToggleTrail()
      modifies this
      ensures var s := old(Snapshot()); Snapshot() == s.(showTrail := !s.showTrail, trail := if s.showTrail then [] else s.trail)
    {
      showTrail := !showTrail;
      if !showTrail {
        trail := [];
      }
    }

    method ToggleGrow()
      modifies this
      ensures var s := old(Snapshot()); Snapshot() == s.(showGrow := !s.showGrow)
    {
      showGrow := !showGrow;
    }

    method ToggleHistory()
      requires Valid()
      modifies this, history, history.points
      ensures Valid() && history.points == old(history.points)
      ensures var s := old(Snapshot());
        Snapshot() == s.(showLineHistory := !s.showLineHistory, recorded := if s.showLineHistory then [] else s.recorded)
      ensures !showLineHistory ==> history.count == 0 && history.index == 0
    {
      showLineHistory := !showLineHistory;
      if !showLineHistory {
        ResetHistoryPoints();
      }
    }

    /** Only the flag is modelled; the window geometry change is not. */
    method ToggleFullscreen()
      modifies this
      ensures var s := old(Snapshot()); Snapshot() == s.(isFullscreen := !s.isFullscreen)
    {
      isFullscreen := !isFullscreen;
    }

    method ResetHistoryPoints()
      requires Valid()
      modifies this, history, history.points
      ensures Valid() && history.points == old(history.points)
      ensures Snapshot() == old(Snapshot()).(recorded := [])
      ensures history.count == 0 && history.index == 0
      ensures forall i :: 0 <= i < history.points.Length ==> history.points[i] == ORIGIN
    {
      history.Reset();
    }

    method ResetHistory()
      requires Valid()
      modifies this, history, history.points
      ensures Valid() && history.points == old(history.points)
      ensures Snapshot() == old(Snapshot()).(trail := [], recorded := [])
      ensures history.count == 0 && history.index == 0
    {
      trail := [];
      ResetHistoryPoints();
    }

    /** The history as `draw_all` orders it: the newest 300 points, oldest first. */
    function DrawnHistory(): (r: seq<Point>)
      reads this, history, history.points
      requires Valid()
      ensures r == Last(history.Recorded, MAX_HISTORY_POINTS)
    {
      history.Ordered()
    }
  }
}
