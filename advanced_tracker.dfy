/**
 * The AdvancedMouseTracker of advanced_mouse_tracker.py: a full-screen
 * tracker fed by the raw-input reader through a queue. Each drained event
 * updates the pointer, a 5000-sample circular history, a 30-sample trail,
 * click and wheel counters and the click/wheel effects; the frame loop also
 * steps the grow circle and fades the effects. The plinko pins are a
 * staggered grid clipped to the screen.
 */
module AdvancedTracker {
  import opened Options
  import opened Bounded
  import opened Ring
  import opened Pulse
  import RawInput

  const MAX_HISTORY_POINTS: nat := 5000
  const MAX_TRAIL_LENGTH: nat := 30
  const PIN_SPACING_X: nat := 80
  const PIN_SPACING_Y: nat := 60

  /** A history or trail sample: position and the raw delta that led to it. */
  datatype Sample = Sample(x: int, y: int, dx: int, dy: int)

  const BLANK := Sample(0, 0, 0, 0)

  datatype Pin = Pin(x: int, y: int)

  datatype ClickEffect = ClickEffect(x: int, y: int, ring: Fading, button: string)

  /** The wheel caption does not grow: its `Fading` keeps radius 0. */
  datatype WheelEffect = WheelEffect(x: int, y: int, delta: int, caption: Fading)

  const CLICK_GROWTH := 3
  const WHEEL_GROWTH := 0

  // ---------------------------------------------------------------------
  // setup_plinko_pins

  /** The pin in grid cell (row, col): odd rows shifted by half a spacing. */
  function PinAt(row: nat, col: nat): Pin {
    var offsetX := if row % 2 == 1 then PIN_SPACING_X / 2 else 0;
    Pin(col * PIN_SPACING_X + offsetX + PIN_SPACING_X / 2, row * PIN_SPACING_Y + PIN_SPACING_Y / 2)
  }

  predicate OnScreen(p: Pin, width: int, height: int) {
    0 <= p.x <= width && 0 <= p.y <= height
  }

  /** The kept pins of one row, columns 0 .. cols-1. */
  function RowPins(row: nat, cols: nat, width: int, height: int): seq<Pin>
    decreases cols
  {
    if cols == 0 then []
    else
      var p := PinAt(row, cols - 1);
      RowPins(row, cols - 1, width, height) + (if OnScreen(p, width, height) then [p] else [])
  }

  /** The kept pins of rows 0 .. rows-1, row after row. */
  function GridPins(rows: nat, cols: nat, width: int, height: int): seq<Pin>
    decreases rows
  {
    if rows == 0 then [] else GridPins(rows - 1, cols, width, height) + RowPins(rows - 1, cols, width, height)
  }

  function PinRows(height: nat): nat { height / PIN_SPACING_Y + 1 }
  function PinCols(width: nat): nat { width / PIN_SPACING_X + 1 }

  function PlinkoGrid(width: nat, height: nat): seq<Pin> {
    GridPins(PinRows(height), PinCols(width), width, height)
  }

  /** `setup_plinko_pins`: rows of columns, keeping the pins inside the screen. */
  method SetupPlinkoPins(width: nat, height: nat) returns (pins: seq<Pin>)
    ensures pins == PlinkoGrid(width, height)
  {
    pins := [];
    var rows := height / PIN_SPACING_Y + 1;
    var cols := width / PIN_SPACING_X + 1;
    var row := 0;
    while row < rows
      invariant row <= rows && pins == GridPins(row, cols, width, height)
    {
      var col := 0;
      while col < cols
        invariant col <= cols && pins == GridPins(row, cols, width, height) + RowPins(row, col, width, height)
      {
        var offsetX := if row % 2 == 1 then PIN_SPACING_X / 2 else 0;
        var x := col * PIN_SPACING_X + offsetX + PIN_SPACING_X / 2;
        var y := row * PIN_SPACING_Y + PIN_SPACING_Y / 2;
        if 0 <= x <= width && 0 <= y <= height {
          AppendAssociates(GridPins(row, cols, width, height), RowPins(row, col, width, height), [Pin(x, y)]);
          pins := pins + [Pin(x, y)];
        }
        col := col + 1;
      }
      row := row + 1;
    }
  }

  lemma {:induction false} RowPinsMembers(row: nat, cols: nat, width: int, height: int, p: Pin)
    ensures p in RowPins(row, cols, width, height) <==>
      OnScreen(p, width, height) && exists col :: 0 <= col < cols && PinAt(row, col) == p
    decreases cols
  {
    if cols > 0 {
      RowPinsMembers(row, cols - 1, width, height, p);
    }
  }

  lemma {:induction false} GridPinsMembers(rows: nat, cols: nat, width: int, height: int, p: Pin)
    ensures p in GridPins(rows, cols, width, height) <==>
      OnScreen(p, width, height) && exists row, col :: 0 <= row < rows && 0 <= col < cols && PinAt(row, col) == p
    decreases rows
  {
    if rows > 0 {
      var a := GridPins(rows - 1, cols, width, height);
      var b := RowPins(rows - 1, cols, width, height);
      GridPinsMembers(rows - 1, cols, width, height, p);
      RowPinsMembers(rows - 1, cols, width, height, p);
      assert GridPins(rows, cols, width, height) == a + b;
      if p in a + b {
        if p in a {
          var row, col :| 0 <= row < rows - 1 && 0 <= col < cols && PinAt(row, col) == p;
          assert 0 <= row < rows && PinAt(row, col) == p;
        } else {
          var col :| 0 <= col < cols && PinAt(rows - 1, col) == p;
          assert 0 <= rows - 1 < rows && PinAt(rows - 1, col) == p;
        }
      }
      if OnScreen(p, width, height) && exists row, col :: 0 <= row < rows && 0 <= col < cols && PinAt(row, col) == p {
        var row, col :| 0 <= row < rows && 0 <= col < cols && PinAt(row, col) == p;
        if row < rows - 1 {
          assert p in a;
        } else {
          assert PinAt(rows - 1, col) == p;
          assert p in b;
        }
      }
    }
  }

  /** A pin is kept exactly when it is a grid point of the clipped grid that lies on the screen. */
  lemma PlinkoGridMembers(width: nat, height: nat, p: Pin)
    ensures p in PlinkoGrid(width, height) <==>
      && OnScreen(p, width, height)
      && exists row, col :: 0 <= row < PinRows(height) && 0 <= col < PinCols(width) && PinAt(row, col) == p
  {
    GridPinsMembers(PinRows(height), PinCols(width), width, height, p);
  }

  /** Row-major order: strictly down the rows, strictly right within a row. */
  predicate Before(p: Pin, q: Pin) {
    p.y < q.y || (p.y == q.y && p.x < q.x)
  }

  predicate RowMajor(pins: seq<Pin>) {
    forall i, j :: 0 <= i < j < |pins| ==> Before(pins[i], pins[j])
  }

  lemma {:induction false} RowPinsOrdered(row: nat, cols: nat, width: int, height: int)
    ensures RowMajor(RowPins(row, cols, width, height))
    ensures forall p :: p in RowPins(row, cols, width, height) ==> p.y == row * PIN_SPACING_Y + PIN_SPACING_Y / 2
    ensures forall p :: p in RowPins(row, cols, width, height) ==> Before(p, PinAt(row, cols))
    decreases cols
  {
    if cols > 0 {
      RowPinsOrdered(row, cols - 1, width, height);
      var prev := RowPins(row, cols - 1, width, height);
      forall p | p in prev ensures Before(p, PinAt(row, cols)) {
        assert Before(p, PinAt(row, cols - 1));
      }
    }
  }

  lemma {:induction false} GridPinsOrdered(rows: nat, cols: nat, width: int, height: int)
    ensures RowMajor(GridPins(rows, cols, width, height))
    ensures forall p :: p in GridPins(rows, cols, width, height) ==> p.y < rows * PIN_SPACING_Y
    decreases rows
  {
    if rows > 0 {
      GridPinsOrdered(rows - 1, cols, width, height);
      RowPinsOrdered(rows - 1, cols, width, height);
      var a := GridPins(rows - 1, cols, width, height);
      var b := RowPins(rows - 1, cols, width, height);
      assert forall p :: p in b ==> p.y == (rows - 1) * PIN_SPACING_Y + PIN_SPACING_Y / 2;
      forall i, j | 0 <= i < j < |a + b| ensures Before((a + b)[i], (a + b)[j]) {
        if j < |a| {
          assert (a + b)[i] == a[i] && (a + b)[j] == a[j];
        } else if i >= |a| {
          assert (a + b)[i] == b[i - |a|] && (a + b)[j] == b[j - |a|];
        } else {
          assert (a + b)[i] == a[i] && a[i] in a;
          assert (a + b)[j] == b[j - |a|] && b[j - |a|] in b;
        }
      }
    }
  }

  /** The pins come out in row-major order. */
  lemma PlinkoGridRowMajor(width: nat, height: nat)
    ensures RowMajor(PlinkoGrid(width, height))
  {
    GridPinsOrdered(PinRows(height), PinCols(width), width, height);
  }

  // ---------------------------------------------------------------------
  // Event handlers, as functions of the tracker state

  datatype Toggles = Toggles(
    showTrail: bool, showGrow: bool, showLineHistory: bool, isFullscreen: bool,
    showCoordinates: bool, showVelocityInfo: bool, showRawDelta: bool, showPlinko: bool)

  const ALL_ON := Toggles(true, true, true, true, true, true, true, true)

  /**
   * The tracker's integer state. `recorded` is every sample written to the
   * history ring since the last reset; the ring itself holds its newest
   * 5000.
   */
  datatype State = State(
    currentX: int, currentY: int, rawDeltaX: int, rawDeltaY: int,
    trail: seq<Sample>, recorded: seq<Sample>, grow: Grow, toggles: Toggles,
    bounceEffects: seq<Pin>,
    totalMouseMovements: nat, clickCount: nat, wheelDelta: int, movementCount: nat,
    rawInputActive: bool, clickEffect: Option<ClickEffect>, wheelEffect: Option<WheelEffect>)

  /** `max(0, min(v, hi))` */
  function Clamp(v: int, hi: nat): (r: int)
    ensures 0 <= r <= hi
    ensures 0 <= v <= hi ==> r == v
    ensures v < 0 ==> r == 0
    ensures v > hi ==> r == hi
  {
    if v < 0 then 0 else if v > hi then hi else v
  }

  /** The history write and trail push that follow every position update. */
  function Store(s: State, sample: Sample): State {
    s.(recorded := if s.toggles.showLineHistory then s.recorded + [sample] else s.recorded,
       trail := if s.toggles.showTrail then PushBounded(s.trail, sample, MAX_TRAIL_LENGTH) else s.trail)
  }

  /** The clamped cursor position read during a raw move, with the event's deltas. */
  function MoveSample(dx: int, dy: int, cursorX: int, cursorY: int, width: nat, height: nat): Sample {
    Sample(Clamp(cursorX, width), Clamp(cursorY, height), dx, dy)
  }

  /** `handle_raw_mouse_movement`: the position is the OS cursor, clamped to the screen. */
  function HandleMove(s: State, dx: int, dy: int, cursorX: int, cursorY: int, width: nat, height: nat): State {
    var sample := MoveSample(dx, dy, cursorX, cursorY, width, height);
    var moved := s.(rawInputActive := true, rawDeltaX := dx, rawDeltaY := dy,
                    totalMouseMovements := s.totalMouseMovements + 1,
                    currentX := sample.x, currentY := sample.y);
    Store(moved, sample)
  }

  /** `handle_raw_mouse_button`: only a "Down" counts and starts a click effect. */
  function HandleButton(s: State, button: string, state: string): State {
    if state == "Down" then
      s.(clickCount := s.clickCount + 1,
         clickEffect := Some(ClickEffect(s.currentX, s.currentY, Fading(5, 30), button)))
    else s
  }

  /** `handle_raw_mouse_wheel` */
  function HandleWheel(s: State, delta: int): State {
    s.(wheelDelta := s.wheelDelta + delta,
       wheelEffect := Some(WheelEffect(s.currentX, s.currentY, delta, Fading(0, 20))))
  }

  /** A queued reader event with the cursor position GetCursorPos reports while it is handled. */
  datatype Queued = Queued(event: RawInput.Event, cursorX: int, cursorY: int)

  /** One queued event, dispatched on its type; keyboard and HID events change nothing. */
  function Handle(s: State, q: Queued, width: nat, height: nat): State {
    var e := q.event;
    if e.MouseMove? then HandleMove(s, e.deltaX, e.deltaY, q.cursorX, q.cursorY, width, height)
    else if e.MouseButton? then HandleButton(s, e.button, e.state)
    else if e.MouseWheel? then HandleWheel(s, e.delta)
    else s
  }

  function Drain(s: State, qs: seq<Queued>, width: nat, height: nat): State
    decreases |qs|
  {
    if qs == [] then s else Handle(Drain(s, qs[..|qs| - 1], width, height), qs[|qs| - 1], width, height)
  }

  // Reference tallies over the queue

  function CountMoves(qs: seq<Queued>): nat
    decreases |qs|
  {
    if qs == [] then 0 else CountMoves(qs[..|qs| - 1]) + (if qs[|qs| - 1].event.MouseMove? then 1 else 0)
  }

  predicate IsPress(e: RawInput.Event) {
    e.MouseButton? && e.state == "Down"
  }

  function CountPresses(qs: seq<Queued>): nat
    decreases |qs|
  {
    if qs == [] then 0 else CountPresses(qs[..|qs| - 1]) + (if IsPress(qs[|qs| - 1].event) then 1 else 0)
  }

  function WheelSum(qs: seq<Queued>): int
    decreases |qs|
  {
    if qs == [] then 0
    else
      var e := qs[|qs| - 1].event;
      WheelSum(qs[..|qs| - 1]) + (if e.MouseWheel? then e.delta else 0)
  }

  /** The samples the move events of the queue produce, in order. */
  function MoveSamples(qs: seq<Queued>, width: nat, height: nat): seq<Sample>
    decreases |qs|
  {
    if qs == [] then []
    else
      var q := qs[|qs| - 1];
      MoveSamples(qs[..|qs| - 1], width, height)
        + (if q.event.MouseMove? then [MoveSample(q.event.deltaX, q.event.deltaY, q.cursorX, q.cursorY, width, height)] else [])
  }

  /**
   * Draining a queue: the movement counter grows by the number of move
   * events, the click count by the number of "Down" button events, the
   * wheel total by the sum of the wheel deltas; the history receives every
   * move sample when line history is on, and the trail then holds the
   * newest 30 of them.
   */
  lemma {:induction false} DrainTallies(s: State, qs: seq<Queued>, width: nat, height: nat)
    requires |s.trail| <= MAX_TRAIL_LENGTH
    ensures var r := Drain(s, qs, width, height);
      && r.toggles == s.toggles
      && r.totalMouseMovements == s.totalMouseMovements + CountMoves(qs)
      && r.clickCount == s.clickCount + CountPresses(qs)
      && r.wheelDelta == s.wheelDelta + WheelSum(qs)
      && r.recorded == s.recorded + (if s.toggles.showLineHistory then MoveSamples(qs, width, height) else [])
      && r.trail == (if s.toggles.showTrail then Last(s.trail + MoveSamples(qs, width, height), MAX_TRAIL_LENGTH) else s.trail)
    decreases |qs|
  {
    if qs == [] {
      assert s.trail + [] == s.trail;
    } else {
      var init := qs[..|qs| - 1];
      var q := qs[|qs| - 1];
      DrainTallies(s, init, width, height);
      var mid := Drain(s, init, width, height);
      var xs := MoveSamples(init, width, height);
      if q.event.MouseMove? {
        var x := MoveSample(q.event.deltaX, q.event.deltaY, q.cursorX, q.cursorY, width, height);
        assert MoveSamples(qs, width, height) == xs + [x];
        AppendAssociates(s.recorded, xs, [x]);
        if s.toggles.showTrail {
          var l := Last(s.trail + xs, MAX_TRAIL_LENGTH);
          assert PushBounded(l, x, MAX_TRAIL_LENGTH) == Last(l + [x], MAX_TRAIL_LENGTH);
          LastOfSuffix(s.trail + xs, [x], MAX_TRAIL_LENGTH);
          AppendAssociates(s.trail, xs, [x]);
        }
      } else {
        assert MoveSamples(qs, width, height) == xs + [];
        assert xs + [] == xs;
      }
    }
  }

  /** The trail stays within 30 samples and ends with the newest one. */
  lemma HandleMoveTrail(s: State, dx: int, dy: int, cursorX: int, cursorY: int, width: nat, height: nat)
    requires |s.trail| <= MAX_TRAIL_LENGTH && s.toggles.showTrail
    ensures var r := HandleMove(s, dx, dy, cursorX, cursorY, width, height);
      && |r.trail| <= MAX_TRAIL_LENGTH
      && r.trail[|r.trail| - 1] == Sample(r.currentX, r.currentY, dx, dy)
      && 0 <= r.currentX <= width && 0 <= r.currentY <= height
  {
    PushBoundedShape(s.trail, MoveSample(dx, dy, cursorX, cursorY, width, height), MAX_TRAIL_LENGTH);
  }

  /** The sample a fallback move records: the clamped event position and its offset from the last position. */
  function FallbackSample(s: State, x: int, y: int, width: nat, height: nat): Sample {
    Sample(Clamp(x, width), Clamp(y, height), x - s.currentX, y - s.currentY)
  }

  /** `on_mouse_move`, the Tk fallback, skipped while raw input is fresh. */
  function FallbackMove(s: State, x: int, y: int, rawIsFresh: bool, width: nat, height: nat): State {
    if s.rawInputActive && rawIsFresh then s
    else
      var sample := FallbackSample(s, x, y, width, height);
      var moved := s.(movementCount := s.movementCount + 1, rawDeltaX := sample.dx, rawDeltaY := sample.dy,
                      totalMouseMovements := s.totalMouseMovements + 1,
                      currentX := sample.x, currentY := sample.y);
      Store(moved, sample)
  }

  /**
   * The fallback's deltas are measured from the previous clamped position,
   * so consecutive fallback moves inside the screen record deltas that sum
   * to the overall displacement.
   */
  lemma FallbackDeltas(s: State, x1: int, y1: int, x2: int, y2: int, width: nat, height: nat)
    requires !s.rawInputActive
    requires 0 <= x1 <= width && 0 <= y1 <= height
    ensures var m1 := FallbackMove(s, x1, y1, false, width, height);
      var m2 := FallbackMove(m1, x2, y2, false, width, height);
      && m2.rawDeltaX == x2 - x1 && m2.rawDeltaY == y2 - y1
      && m1.rawDeltaX + m2.rawDeltaX == x2 - s.currentX
      && m2.movementCount == s.movementCount + 2
  {
  }

  /** `draw_enhanced_effects`: each drawn frame grows the click rings by 3 and spends one unit of each lifetime. */
  function FadeEffects(s: State): State {
    var click := match s.clickEffect
      case None => None
      case Some(c) =>
        (match Fade(c.ring, CLICK_GROWTH)
         case None => None
         case Some(f) => Some(c.(ring := f)));
    var wheel := match s.wheelEffect
      case None => None
      case Some(w) =>
        (match Fade(w.caption, WHEEL_GROWTH)
         case None => None
         case Some(f) => Some(w.(caption := f)));
    s.(clickEffect := click, wheelEffect := wheel)
  }

  /** A new click effect is drawn 30 times, its rings growing from 5 by 3 per frame; a wheel caption 20 times. */
  lemma EffectLifetimes(n: nat)
    ensures n < 30 ==> FadeFrames(Fading(5, 30), CLICK_GROWTH, n) == Some(Fading(5 + 3 * n, 30 - n))
    ensures n >= 30 ==> FadeFrames(Fading(5, 30), CLICK_GROWTH, n) == None
    ensures n < 20 ==> FadeFrames(Fading(0, 20), WHEEL_GROWTH, n) == Some(Fading(0, 20 - n))
    ensures n >= 20 ==> FadeFrames(Fading(0, 20), WHEEL_GROWTH, n) == None
  {
    FadeLifetime(Fading(5, 30), CLICK_GROWTH, n);
    FadeLifetime(Fading(0, 20), WHEEL_GROWTH, n);
  }

  /** `animate`: drain the queue, step the grow circle when it is shown, then draw (fading the effects). */
  function Frame(s: State, qs: seq<Queued>, width: nat, height: nat): State {
    var drained := Drain(s, qs, width, height);
    var grown := if drained.toggles.showGrow then drained.(grow := GrowStep(drained.grow)) else drained;
    FadeEffects(grown)
  }

  /** Frames leave the grow radius within [18, 62] whatever the queue holds. */
  lemma {:induction false} FramesKeepGrowBounded(s: State, queues: seq<seq<Queued>>, width: nat, height: nat)
    requires GrowInv(s.grow)
    ensures GrowInv(Frames(s, queues, width, height).grow)
    ensures 18 <= Frames(s, queues, width, height).grow.radius <= 62
    decreases |queues|
  {
    if queues != [] {
      var mid := Frames(s, queues[..|queues| - 1], width, height);
      FramesKeepGrowBounded(s, queues[..|queues| - 1], width, height);
      DrainKeepsGrow(mid, queues[|queues| - 1], width, height);
      GrowStepKeeps(mid.grow);
    }
  }

  function Frames(s: State, queues: seq<seq<Queued>>, width: nat, height: nat): State
    decreases |queues|
  {
    if queues == [] then s else Frame(Frames(s, queues[..|queues| - 1], width, height), queues[|queues| - 1], width, height)
  }

  lemma {:induction false} DrainKeepsGrow(s: State, qs: seq<Queued>, width: nat, height: nat)
    ensures Drain(s, qs, width, height).grow == s.grow
    ensures Drain(s, qs, width, height).toggles == s.toggles
    decreases |qs|
  {
    if qs != [] {
      DrainKeepsGrow(s, qs[..|qs| - 1], width, height);
    }
  }

  /** `reset_history`: trail, ring and movement statistics cleared; clicks and wheel total kept. */
  function ResetHistory(s: State): (r: State)
    ensures r.trail == [] && r.recorded == [] && r.totalMouseMovements == 0
    ensures r.clickCount == s.clickCount && r.wheelDelta == s.wheelDelta
    ensures r.toggles == s.toggles && r.currentX == s.currentX && r.currentY == s.currentY
  {
    s.(trail := [], recorded := [], totalMouseMovements := 0)
  }

  // ---------------------------------------------------------------------
  // The tracker object

  class AdvancedMouseTracker {
    const screenWidth: nat
    const screenHeight: nat
    const history: HistoryRing<Sample>
    var plinkoPins: seq<Pin>
    var currentX: int
    var currentY: int
    var rawDeltaX: int
    var rawDeltaY: int
    var trail: seq<Sample>
    var grow: Grow
    var toggles: Toggles
    var bounceEffects: seq<Pin>
    var totalMouseMovements: nat
    var clickCount: nat
    var wheelDelta: int
    var movementCount: nat
    var rawInputActive: bool
    var clickEffect: Option<ClickEffect>
    var wheelEffect: Option<WheelEffect>

    ghost predicate Valid()
      reads this, history, history.points
    {
      && history.Valid() && history.capacity == MAX_HISTORY_POINTS && history.blank == BLANK
      && |trail| <= MAX_TRAIL_LENGTH
    }

    ghost function Snapshot(): State
      reads this, history
    {
      State(currentX, currentY, rawDeltaX, rawDeltaY, trail, history.Recorded, grow, toggles,
            bounceEffects, totalMouseMovements, clickCount, wheelDelta, movementCount,
            rawInputActive, clickEffect, wheelEffect)
    }

    /** The initial pointer is the cursor when it is on the screen, else the screen centre. */
    constructor (width: nat, height: nat, cursorX: int, cursorY: int)
      ensures Valid() && fresh(history) && fresh(history.points)
      ensures screenWidth == width && screenHeight == height
      ensures currentX == (if 0 <= cursorX <= width then cursorX else width / 2)
      ensures currentY == (if 0 <= cursorY <= height then cursorY else height / 2)
      ensures plinkoPins == PlinkoGrid(width, height)
      ensures Snapshot() == State(currentX, currentY, 0, 0, [], [], GrowStep(GROW_START), ALL_ON, [], 0, 0, 0, 0, false, None, None)
      ensures grow == Grow(32, 1)
    {
      screenWidth, screenHeight := width, height;
      history := new HistoryRing(MAX_HISTORY_POINTS, BLANK);
      currentX := if 0 <= cursorX <= width then cursorX else width / 2;
      currentY := if 0 <= cursorY <= height then cursorY else height / 2;
      rawDeltaX, rawDeltaY := 0, 0;
      trail := [];
      grow := GROW_START;
      toggles := ALL_ON;
      bounceEffects := [];
      totalMouseMovements, clickCount, wheelDelta, movementCount := 0, 0, 0, 0;
      rawInputActive := false;
      clickEffect, wheelEffect := None, None;
      new;
      plinkoPins := SetupPlinkoPins(width, height);
      // `__init__` ends by running the first frame.
      Animate([]);
    }

    /** Append a sample to the history (when shown) and to the trail (when shown). */
    method StoreSample(sample: Sample)
      requires Valid()
      modifies this, history, history.points
      ensures Valid() && history.points == old(history.points) && plinkoPins == old(plinkoPins)
      ensures Snapshot() == Store(old(Snapshot()), sample)
    {
      if toggles.showLineHistory {
        history.Record(sample);
      }
      if toggles.showTrail {
        PushBoundedShape(trail, sample, MAX_TRAIL_LENGTH);
        trail := PushBounded(trail, sample, MAX_TRAIL_LENGTH);
      }
    }

    /** The position update shared by raw and fallback moves: the new deltas, one more movement, the new position. */
    method MoveTo(sample: Sample)
      requires Valid()
      modifies this
      ensures Valid() && plinkoPins == old(plinkoPins)
      ensures Snapshot() == old(Snapshot()).(rawDeltaX := sample.dx, rawDeltaY := sample.dy,
                                             totalMouseMovements := old(totalMouseMovements) + 1,
                                             currentX := sample.x, currentY := sample.y)
    {
      rawDeltaX, rawDeltaY := sample.dx, sample.dy;
      totalMouseMovements := totalMouseMovements + 1;
      currentX, currentY := sample.x, sample.y;
    }

    method HandleRawMouseMovement(dx: int, dy: int, cursorX: int, cursorY: int)
      requires Valid()
      modifies this, history, history.points
      ensures Valid() && history.points == old(history.points) && plinkoPins == old(plinkoPins)
      ensures Snapshot() == HandleMove(old(Snapshot()), dx, dy, cursorX, cursorY, screenWidth, screenHeight)
    {
      rawInputActive := true;
      var sample := MoveSample(dx, dy, cursorX, cursorY, screenWidth, screenHeight);
      MoveTo(sample);
      StoreSample(sample);
    }

    method HandleRawMouseButton(button: string, state: string)
      modifies this
      ensures Snapshot() == HandleButton(old(Snapshot()), button, state)
      ensures plinkoPins == old(plinkoPins)
    {
      if state == "Down" {
        clickCount := clickCount + 1;
        clickEffect := Some(ClickEffect(currentX, currentY, Fading(5, 30), button));
      }
    }

    method HandleRawMouseWheel(delta: int)
      modifies this
      ensures Snapshot() == HandleWheel(old(Snapshot()), delta)
      ensures plinkoPins == old(plinkoPins)
    {
      wheelDelta := wheelDelta + delta;
      wheelEffect := Some(WheelEffect(currentX, currentY, delta, Fading(0, 20)));
    }

    /** One event of the queue, dispatched on its type; keyboard and HID events change nothing. */
    method Dispatch(q: Queued)
      requires Valid()
      modifies this, history, history.points
      ensures Valid() && history.points == old(history.points) && plinkoPins == old(plinkoPins)
      ensures Snapshot() == Handle(old(Snapshot()), q, screenWidth, screenHeight)
    {
      var data := q.event;
      if data.MouseMove? {
        HandleRawMouseMovement(data.deltaX, data.deltaY, q.cursorX, q.cursorY);
      } else if data.MouseButton? {
        HandleRawMouseButton(data.button, data.state);
      } else if data.MouseWheel? {
        HandleRawMouseWheel(data.delta);
      }
    }

    /** `process_raw_input_data`: empties the queue, oldest event first. */
    method ProcessRawInputData(queue: seq<Queued>)
      requires Valid()
      modifies this, history, history.points
      ensures Valid() && history.points == old(history.points) && plinkoPins == old(plinkoPins)
      ensures Snapshot() == Drain(old(Snapshot()), queue, screenWidth, screenHeight)
    {
      ghost var start := Snapshot();
      var i := 0;
      while i < |queue|
        invariant 0 <= i <= |queue|
        invariant Valid() && history.points == old(history.points) && plinkoPins == old(plinkoPins)
        invariant Snapshot() == Drain(start, queue[..i], screenWidth, screenHeight)
      {
        assert queue[..i + 1][..i] == queue[..i];
        Dispatch(queue[i]);
        i := i + 1;
      }
      assert queue[..i] == queue;
    }

    method DrawEnhancedEffects()
      modifies this
      ensures Snapshot() == FadeEffects(old(Snapshot()))
      ensures plinkoPins == old(plinkoPins)
    {
      match clickEffect {
        case None =>
        case Some(c) =>
          var next := Fade(c.ring, CLICK_GROWTH);
          clickEffect := if next.Some? then Some(c.(ring := next.value)) else None;
      }
      match wheelEffect {
        case None =>
        case Some(w) =>
          var next := Fade(w.caption, WHEEL_GROWTH);
          wheelEffect := if next.Some? then Some(w.(caption := next.value)) else None;
      }
    }

    /** `animate`, one frame; `queue` is what the reader thread has queued since the last frame. */
    method Animate(queue: seq<Queued>)
      requires Valid()
      modifies this, history, history.points
      ensures Valid() && history.points == old(history.points) && plinkoPins == old(plinkoPins)
      ensures Snapshot() == Frame(old(Snapshot()), queue, screenWidth, screenHeight)
    {
      ProcessRawInputData(queue);
      if toggles.showGrow {
        grow := GrowStep(grow);
      }
      DrawEnhancedEffects();
    }

    /** `on_resize` redraws, which also fades the effects by one frame. */
    method OnResize()
      modifies this
      ensures Snapshot() == FadeEffects(old(Snapshot()))
      ensures plinkoPins == old(plinkoPins)
    {
      DrawEnhancedEffects();
    }

    method OnMouseMove(x: int, y: int, rawIsFresh: bool)
      requires Valid()
      modifies this, history, history.points
      ensures Valid() && history.points == old(history.points) && plinkoPins == old(plinkoPins)
      ensures Snapshot() == FallbackMove(old(Snapshot()), x, y, rawIsFresh, screenWidth, screenHeight)
    {
      if rawInputActive && rawIsFresh {
        return;
      }
      FallbackUpdate(x, y);
    }

    /** The part of `on_mouse_move` after the raw-input gate. */
    method FallbackUpdate(x: int, y: int)
      requires Valid()
      modifies this, history, history.points
      ensures Valid() && history.points == old(history.points) && plinkoPins == old(plinkoPins)
      ensures Snapshot() == FallbackMove(old(Snapshot()), x, y, false, screenWidth, screenHeight)
    {
      movementCount := movementCount + 1;
      var sample := Sample(Clamp(x, screenWidth), Clamp(y, screenHeight), x - currentX, y - currentY);
      MoveTo(sample);
      StoreSample(sample);
    }

    /** The Tk `<Button-1>` binding: a left click on the window counts one click. */
    method OnMouseClick()
      modifies this
      ensures Snapshot() == old(Snapshot()).(clickCount := old(clickCount) + 1)
      ensures plinkoPins == old(plinkoPins)
    {
      clickCount := clickCount + 1;
    }

    /** `reset_history_points` */
    method ResetHistoryPoints()
      requires Valid()
      modifies this, history, history.points
      ensures Valid() && history.points == old(history.points) && plinkoPins == old(plinkoPins)
      ensures Snapshot() == old(Snapshot()).(recorded := [])
      ensures history.count == 0 && history.index == 0
      ensures forall i :: 0 <= i < history.points.Length ==> history.points[i] == BLANK
    {
      history.Reset();
    }

    method ResetHistoryAll()
      requires Valid()
      modifies this, history, history.points
      ensures Valid() && history.points == old(history.points) && plinkoPins == old(plinkoPins)
      ensures Snapshot() == ResetHistory(old(Snapshot()))
      ensures history.count == 0 && history.index == 0
    {
      trail := [];
      ResetHistoryPoints();
      totalMouseMovements := 0;
    }

    method ToggleTrail()
      modifies this
      ensures var s := old(Snapshot()); var on := !s.toggles.showTrail;
        Snapshot() == s.(toggles := s.toggles.(showTrail := on), trail := if on then s.trail else [])
      ensures plinkoPins == old(plinkoPins)
    {
      toggles := toggles.(showTrail := !toggles.showTrail);
      if !toggles.showTrail {
        trail := [];
      }
    }

    method ToggleGrow()
      modifies this
      ensures var s := old(Snapshot()); Snapshot() == s.(toggles := s.toggles.(showGrow := !s.toggles.showGrow))
      ensures plinkoPins == old(plinkoPins)
    {
      toggles := toggles.(showGrow := !toggles.showGrow);
    }

    method ToggleHistory()
      requires Valid()
      modifies this, history, history.points
      ensures Valid() && history.points == old(history.points) && plinkoPins == old(plinkoPins)
      ensures var s := old(Snapshot()); var on := !s.toggles.showLineHistory;
        Snapshot() == s.(toggles := s.toggles.(showLineHistory := on), recorded := if on then s.recorded else [])
      ensures !toggles.showLineHistory ==> history.count == 0 && history.index == 0
    {
      toggles := toggles.(showLineHistory := !toggles.showLineHistory);
      if !toggles.showLineHistory {
        ResetHistoryPoints();
      }
    }

    /** Only the flag is modelled; the window geometry change is not. */
    method ToggleFullscreen()
      modifies this
      ensures var s := old(Snapshot()); Snapshot() == s.(toggles := s.toggles.(isFullscreen := !s.toggles.isFullscreen))
      ensures plinkoPins == old(plinkoPins)
    {
      toggles := toggles.(isFullscreen := !toggles.isFullscreen);
    }

    method TogglePlinko()
      modifies this
      ensures var s := old(Snapshot()); var on := !s.toggles.showPlinko;
        Snapshot() == s.(toggles := s.toggles.(showPlinko := on), bounceEffects := if on then s.bounceEffects else [])
      ensures plinkoPins == old(plinkoPins)
    {
      toggles := toggles.(showPlinko := !toggles.showPlinko);
      if !toggles.showPlinko {
        bounceEffects := [];
      }
    }

    method ToggleCoordinates()
      modifies this
      ensures var s := old(Snapshot()); Snapshot() == s.(toggles := s.toggles.(showCoordinates := !s.toggles.showCoordinates))
      ensures plinkoPins == old(plinkoPins)
    {
      toggles := toggles.(showCoordinates := !toggles.showCoordinates);
    }

    method ToggleVelocityInfo()
      modifies this
      ensures var s := old(Snapshot()); Snapshot() == s.(toggles := s.toggles.(showVelocityInfo := !s.toggles.showVelocityInfo))
      ensures plinkoPins == old(plinkoPins)
    {
      toggles := toggles.(showVelocityInfo := !toggles.showVelocityInfo);
    }

    method ToggleRawDelta()
      modifies this
      ensures var s := old(Snapshot()); Snapshot() == s.(toggles := s.toggles.(showRawDelta := !s.toggles.showRawDelta))
      ensures plinkoPins == old(plinkoPins)
    {
      toggles := toggles.(showRawDelta := !toggles.showRawDelta);
    }

    /** The history as drawn: the newest 5000 recorded samples, oldest first. */
    function DrawnHistory(): (r: seq<Sample>)
      reads this, history, history.points
      requires Valid()
      ensures r == Last(history.Recorded, MAX_HISTORY_POINTS)
    {
      history.Ordered()
    }
  }
}
