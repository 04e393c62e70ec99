/**
 * The TouchTracker of kivy_touch_data.py and the keyboard shortcuts of its
 * ModernTouchApp: touches are followed by id, positions go to an unbounded
 * list on touch-down and a 300-capped one on touch-move, a 20-point trail
 * follows both when shown, and r/t/l/c/Esc drive reset, toggles and exit.
 */
module KivyTouch {
  import opened Options
  import opened Bounded
  import opened Text

  const MAX_TRAIL_LENGTH: nat := 20
  const MAX_HISTORY_POINTS: nat := 300
  const ESCAPE_CODE := 27

  /** A touch position; Kivy's float coordinates are only stored and compared here. */
  datatype Pos = Pos(x: int, y: int)

  /** A touch event; `time` is the `time.time()` reading taken while handling it. */
  datatype Touch = Touch(id: int, pos: Pos, time: int)

  /** Everything the touch handlers read or write, `total_distance` excepted. */
  datatype State = State(
    touchPositions: seq<Pos>,
    trailPositions: seq<Pos>,
    showTrail: bool,
    showCoordinates: bool,
    showLines: bool,
    totalTouches: nat,
    currentTouchId: Option<int>,
    touchStartTime: Option<int>,
    lastTouchPos: Option<Pos>)

  const INITIAL := State([], [], true, true, true, 0, None, None, None)

  /** The trail, when shown, gets the position appended and is trimmed to 20. */
  function Trail(s: State, p: Pos): seq<Pos> {
    if s.showTrail then PushBounded(s.trailPositions, p, MAX_TRAIL_LENGTH) else s.trailPositions
  }

  /** `on_touch_down` */
  function TouchDown(s: State, t: Touch): State {
    s.(totalTouches := s.totalTouches + 1,
       currentTouchId := Some(t.id),
       touchStartTime := Some(t.time),
       lastTouchPos := Some(t.pos),
       touchPositions := s.touchPositions + [t.pos],
       trailPositions := Trail(s, t.pos))
  }

  /** `on_touch_move` */
  function TouchMove(s: State, t: Touch): State {
    if Some(t.id) == s.currentTouchId then
      s.(lastTouchPos := Some(t.pos),
         touchPositions := PushBounded(s.touchPositions, t.pos, MAX_HISTORY_POINTS),
         trailPositions := Trail(s, t.pos))
    else s
  }

  /** `on_touch_up` */
  function TouchUp(s: State, t: Touch): State {
    if Some(t.id) == s.currentTouchId then s.(currentTouchId := None, touchStartTime := None) else s
  }

  /** `reset_history` */
  function Cleared(s: State): State {
    s.(touchPositions := [], trailPositions := [], totalTouches := 0)
  }

  /** `toggle_trail` */
  function TrailToggled(s: State): State {
    s.(showTrail := !s.showTrail, trailPositions := if s.showTrail then [] else s.trailPositions)
  }

  ghost predicate TrailBounded(s: State) {
    |s.trailPositions| <= MAX_TRAIL_LENGTH
  }

  /**
   * A touch-down always counts and becomes the current touch, and its
   * position is appended to the history with no length check.
   */
  lemma TouchDownRecords(s: State, t: Touch)
    requires TrailBounded(s)
    ensures var r := TouchDown(s, t);
      && r.totalTouches == s.totalTouches + 1
      && r.currentTouchId == Some(t.id) && r.touchStartTime == Some(t.time) && r.lastTouchPos == Some(t.pos)
      && r.touchPositions == s.touchPositions + [t.pos]
      && |r.touchPositions| == |s.touchPositions| + 1
      && TrailBounded(r)
      && (s.showTrail ==> r.trailPositions[|r.trailPositions| - 1] == t.pos)
      && (!s.showTrail ==> r.trailPositions == s.trailPositions)
  {
    PushBoundedShape(s.trailPositions, t.pos, MAX_TRAIL_LENGTH);
  }

  /** A move of any touch but the current one changes nothing. */
  lemma OtherTouchesIgnored(s: State, t: Touch)
    requires Some(t.id) != s.currentTouchId
    ensures TouchMove(s, t) == s && TouchUp(s, t) == s
  {
  }

  /**
   * A move of the current touch appends its position and drops the oldest
   * once past 300: a history within 300 stays within 300 and a longer one
   * (grown by touch-downs) keeps its length.
   */
  lemma TouchMoveBounds(s: State, t: Touch)
    requires Some(t.id) == s.currentTouchId
    ensures var h := TouchMove(s, t).touchPositions;
      && h[|h| - 1] == t.pos
      && (|s.touchPositions| <= MAX_HISTORY_POINTS ==> |h| <= MAX_HISTORY_POINTS)
      && (|s.touchPositions| >= MAX_HISTORY_POINTS ==> |h| == |s.touchPositions|)
      && (|s.touchPositions| < MAX_HISTORY_POINTS ==> h == s.touchPositions + [t.pos])
  {
    var grown := s.touchPositions + [t.pos];
    assert TouchMove(s, t).touchPositions == if |grown| > MAX_HISTORY_POINTS then grown[1..] else grown;
  }

  /** A move of the current touch moves the last position, keeps the trail within 20 and the count. */
  lemma TouchMoveFollows(s: State, t: Touch)
    requires TrailBounded(s) && Some(t.id) == s.currentTouchId
    ensures var r := TouchMove(s, t);
      && r.lastTouchPos == Some(t.pos)
      && TrailBounded(r)
      && (s.showTrail ==> r.trailPositions[|r.trailPositions| - 1] == t.pos)
      && r.totalTouches == s.totalTouches && r.currentTouchId == s.currentTouchId
  {
    assert TouchMove(s, t).trailPositions == Trail(s, t.pos);
    PushBoundedShape(s.trailPositions, t.pos, MAX_TRAIL_LENGTH);
  }

  /** A drag of the current touch, one move per position. */
  function Drag(s: State, id: int, ps: seq<Pos>, time: int): State
    decreases |ps|
  {
    if ps == [] then s else TouchMove(Drag(s, id, ps[..|ps| - 1], time), Touch(id, ps[|ps| - 1], time))
  }

  /**
   * A touch pressed at `p`, dragged through `ps` and released: it counts
   * once, the history holds the newest 300 positions of everything it saw
   * (from a history that had room for the press), and the gesture ends idle.
   */
  lemma {:induction false} GestureKeepsNewest(s: State, t: Touch, ps: seq<Pos>)
    requires |s.touchPositions| < MAX_HISTORY_POINTS
    ensures var d := Drag(TouchDown(s, t), t.id, ps, t.time);
      && d.touchPositions == Last(s.touchPositions + [t.pos] + ps, MAX_HISTORY_POINTS)
      && d.totalTouches == s.totalTouches + 1
      && d.currentTouchId == Some(t.id)
      && TouchUp(d, t).currentTouchId == None
      && TouchUp(d, t).touchStartTime == None
    decreases |ps|
  {
    DragKeepsNewest(TouchDown(s, t), t.id, ps, t.time);
    assert |s.touchPositions + [t.pos]| <= MAX_HISTORY_POINTS;
  }

  lemma {:induction false} DragKeepsNewest(s: State, id: int, ps: seq<Pos>, time: int)
    requires s.currentTouchId == Some(id) && |s.touchPositions| <= MAX_HISTORY_POINTS
    ensures var d := Drag(s, id, ps, time);
      && d.touchPositions == Last(s.touchPositions + ps, MAX_HISTORY_POINTS)
      && d.totalTouches == s.totalTouches && d.currentTouchId == Some(id)
    decreases |ps|
  {
    if ps == [] {
      assert s.touchPositions + ps == s.touchPositions;
    } else {
      var init := ps[..|ps| - 1];
      var x := ps[|ps| - 1];
      DragKeepsNewest(s, id, init, time);
      PushOntoLast(s.touchPositions + init, x, MAX_HISTORY_POINTS);
      assert s.touchPositions + init + [x] == s.touchPositions + ps;
    }
  }

  /** `reset_history` empties both lists and the touch count but keeps the current touch. */
  lemma ResetClears(s: State)
    ensures var r := Cleared(s);
      && r.touchPositions == [] && r.trailPositions == [] && r.totalTouches == 0
      && TrailBounded(r)
      && r.currentTouchId == s.currentTouchId && r.touchStartTime == s.touchStartTime
      && r.showTrail == s.showTrail && r.showLines == s.showLines && r.showCoordinates == s.showCoordinates
  {
  }

  /** Turning the trail off drops it; a hidden trail stays empty through any touches. */
  lemma HiddenTrailStaysEmpty(s: State, t: Touch)
    requires s.showTrail
    ensures var r := TrailToggled(s);
      && !r.showTrail && r.trailPositions == []
      && TouchDown(r, t).trailPositions == [] && TouchMove(r, t).trailPositions == []
      && TrailToggled(r).showTrail && TrailToggled(r).trailPositions == []
  {
  }

  class TouchTracker {
    var touchPositions: seq<Pos>
    var trailPositions: seq<Pos>
    var showTrail: bool
    var showCoordinates: bool
    var showLines: bool
    var totalTouches: nat
    var currentTouchId: Option<int>
    var touchStartTime: Option<int>
    var lastTouchPos: Option<Pos>

    function Snapshot(): State
      reads this
    {
      State(touchPositions, trailPositions, showTrail, showCoordinates, showLines,
            totalTouches, currentTouchId, touchStartTime, lastTouchPos)
    }

    ghost predicate Valid()
      reads this
    {
      TrailBounded(Snapshot())
    }

    constructor ()
      ensures Valid() && Snapshot() == INITIAL
    {
      touchPositions, trailPositions := [], [];
      showTrail, showCoordinates, showLines := true, true, true;
      totalTouches := 0;
      currentTouchId, touchStartTime, lastTouchPos := None, None, None;
    }

    method ResetHistory()
      modifies this
      ensures Valid() && Snapshot() == Cleared(old(Snapshot()))
    {
      touchPositions := [];
      trailPositions := [];
      totalTouches := 0;
    }

    method ToggleTrail()
      requires Valid()
      modifies this
      ensures Valid() && Snapshot() == TrailToggled(old(Snapshot()))
    {
      showTrail := !showTrail;
      if !showTrail {
        trailPositions := [];
      }
    }

    method ToggleLines()
      requires Valid()
      modifies this
      ensures Valid() && Snapshot() == old(Snapshot()).(showLines := !old(showLines))
    {
      showLines := !showLines;
    }

    method ToggleCoordinates()
      requires Valid()
      modifies this
      ensures Valid() && Snapshot() == old(Snapshot()).(showCoordinates := !old(showCoordinates))
    {
      showCoordinates := !showCoordinates;
    }

    method OnTouchDown(touch: Touch) returns (handled: bool)
      requires Valid()
      modifies this
      ensures Valid() && handled && Snapshot() == TouchDown(old(Snapshot()), touch)
    {
      TouchDownRecords(Snapshot(), touch);
      totalTouches := totalTouches + 1;
      currentTouchId := Some(touch.id);
      touchStartTime := Some(touch.time);
      lastTouchPos := Some(touch.pos);
      touchPositions := touchPositions + [touch.pos];
      if showTrail {
        trailPositions := trailPositions + [touch.pos];
        if |trailPositions| > MAX_TRAIL_LENGTH {
          trailPositions := trailPositions[1..];
        }
      }
      handled := true;
    }

    method OnTouchMove(touch: Touch) returns (handled: bool)
      requires Valid()
      modifies this
      ensures Valid() && handled && Snapshot() == TouchMove(old(Snapshot()), touch)
    {
      if Some(touch.id) == currentTouchId {
        TouchMoveFollows(Snapshot(), touch);
        lastTouchPos := Some(touch.pos);
        touchPositions := touchPositions + [touch.pos];
        if |touchPositions| > MAX_HISTORY_POINTS {
          touchPositions := touchPositions[1..];
        }
        if showTrail {
          trailPositions := trailPositions + [touch.pos];
          if |trailPositions| > MAX_TRAIL_LENGTH {
            trailPositions := trailPositions[1..];
          }
        }
      }
      handled := true;
    }

    method OnTouchUp(touch: Touch) returns (handled: bool)
      requires Valid()
      modifies this
      ensures Valid() && handled && Snapshot() == TouchUp(old(Snapshot()), touch)
    {
      if Some(touch.id) == currentTouchId {
        currentTouchId := None;
        touchStartTime := None;
      }
      handled := true;
    }
  }

  // ---------------------------------------------------------------------
  // ModernTouchApp.on_keyboard_down

  /**
   * The `keycode` argument: a tuple of two or more items (its second is the
   * key name), an int, or anything else, given by its `str()` text.
   */
  datatype Keycode = KeyTuple(code: int, name: string) | KeyInt(value: int) | KeyOther(text: string)

  /** The key string the handler compares against. */
  function NormalizeKey(k: Keycode): (key: string)
    ensures forall i :: 0 <= i < |key| ==> !('A' <= key[i] <= 'Z')
    ensures k.KeyTuple? ==> |key| == |k.name|
    ensures k.KeyOther? ==> |key| == |k.text|
    ensures k.KeyInt? ==> (|key| == 1 <==> 32 <= k.value <= 126) && |key| <= 1
    ensures k.KeyInt? && 32 <= k.value <= 126 && !('A' as int <= k.value <= 'Z' as int) ==> key[0] as int == k.value
  {
    match k
    case KeyTuple(_, name) => Lower(name)
    case KeyInt(v) => if 32 <= v <= 126 then [LowerChar(v as char)] else ""
    case KeyOther(text) => Lower(text)
  }

  datatype Action = Reset | ToggleTrailAction | ToggleLinesAction | ToggleCoordinatesAction | Stop | Ignore

  /** The branch `on_keyboard_down` takes; Escape is recognised only as the plain int 27. */
  function KeyAction(k: Keycode): Action {
    var key := NormalizeKey(k);
    if key == "r" then Reset
    else if key == "t" then ToggleTrailAction
    else if key == "l" then ToggleLinesAction
    else if key == "c" then ToggleCoordinatesAction
    else if k == KeyInt(ESCAPE_CODE) then Stop
    else Ignore
  }

  /** An int code resets exactly for 'r' and 'R', and only the int 27 stops the app. */
  lemma KeyActionOnInts(v: int)
    ensures KeyAction(KeyInt(v)) == Reset <==> v == 'r' as int || v == 'R' as int
    ensures KeyAction(KeyInt(v)) == Stop <==> v == ESCAPE_CODE
  {
    if KeyAction(KeyInt(v)) == Reset {
      var key := NormalizeKey(KeyInt(v));
      assert key == "r" && 32 <= v <= 126;
      assert LowerChar(v as char) == 'r';
    }
    if v == ESCAPE_CODE {
      assert NormalizeKey(KeyInt(v)) == "";
    }
  }

  /** A tuple keycode never stops the app, even when it names the Escape key. */
  lemma TupleNeverStops(code: int, name: string)
    ensures KeyAction(KeyTuple(code, name)) != Stop
  {
  }

  /** Tuple names are matched case-insensitively. */
  lemma TupleNamesIgnoreCase(code: int)
    ensures KeyAction(KeyTuple(code, "R")) == Reset && KeyAction(KeyTuple(code, "r")) == Reset
    ensures KeyAction(KeyTuple(code, "T")) == ToggleTrailAction
  {
    assert Lower("R") == "r";
    assert Lower("T") == "t";
  }

  /** What a shortcut does to the tracker; Stop and Ignore leave it alone. */
  function ApplyAction(s: State, a: Action): State {
    match a
    case Reset => Cleared(s)
    case ToggleTrailAction => TrailToggled(s)
    case ToggleLinesAction => s.(showLines := !s.showLines)
    case ToggleCoordinatesAction => s.(showCoordinates := !s.showCoordinates)
    case Stop => s
    case Ignore => s
  }

  class ModernTouchApp {
    const tracker: TouchTracker
    var stopped: bool

    constructor ()
      ensures fresh(tracker) && tracker.Valid() && tracker.Snapshot() == INITIAL && !stopped
    {
      tracker := new TouchTracker();
      stopped := false;
    }

    /** `on_keyboard_down`: the key is always consumed. */
    method OnKeyboardDown(k: Keycode) returns (handled: bool)
      requires tracker.Valid()
      modifies this, tracker
      ensures tracker.Valid() && handled
      ensures tracker.Snapshot() == ApplyAction(old(tracker.Snapshot()), KeyAction(k))
      ensures stopped == (old(stopped) || KeyAction(k) == Stop)
    {
      var key := NormalizeKey(k);
      if key == "r" {
        tracker.ResetHistory();
      } else if key == "t" {
        tracker.ToggleTrail();
      } else if key == "l" {
        tracker.ToggleLines();
      } else if key == "c" {
        tracker.ToggleCoordinates();
      } else if k == KeyInt(ESCAPE_CODE) {
        stopped := true;
      }
      handled := true;
    }
  }
}
