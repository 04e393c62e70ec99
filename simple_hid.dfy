/**
 * The polling monitor of simple_hid_reader.py: each round compares the
 * cursor with the previous one and the high bit of each watched key's
 * asynchronous state with the previous reading, counting moves and
 * released-to-pressed transitions, and stops at the first Escape press.
 * The OS replies (cursor position, key-state values) are given as a
 * sequence of polls.
 */
module SimpleHid {
  const ESCAPE: int := 0x1B

  /** The watched virtual-key codes, in the dictionary's insertion order. */
  const KEYS_TO_MONITOR: seq<int> :=
    [0x01, 0x02, 0x04, 0x20, 0x0D, 0x1B, 0x41, 0x42, 0x43, 0x44, 0x45, 0x46, 0x47, 0x48, 0x49, 0x4A]

  /** Position of Escape in KEYS_TO_MONITOR. */
  const ESCAPE_INDEX: nat := 5

  /** `GetAsyncKeyState(vkey) & 0x8000 != 0`, on Python's two's-complement integers. */
  function KeyDown(state: int): bool {
    state % 0x10000 >= 0x8000
  }

  /** For a 16-bit SHORT widened to an int, the tested bit is its sign bit. */
  lemma KeyDownIsSignBit(state: int)
    requires -0x8000 <= state < 0x8000
    ensures KeyDown(state) <==> state < 0
  {
    if state < 0 {
      assert state % 0x10000 == state + 0x10000;
    }
  }

  datatype Point = Point(x: int, y: int)

  /** One round's replies: the cursor, and one key-state value per watched key, in order. */
  datatype Poll = Poll(cursor: Point, readings: seq<int>)

  ghost predicate WellFormed(p: Poll) {
    |p.readings| == |KEYS_TO_MONITOR|
  }

  /** The movement line printed for a move: new position, delta from the last one, move number. */
  datatype MoveReport = MoveReport(pos: Point, dx: int, dy: int, moveNumber: nat)

  // ---------------------------------------------------------------------
  // The key scan of one round

  datatype Scan = Scan(states: seq<bool>, presses: nat, escaped: bool)

  /** The first `n` watched keys scanned, stopping right after an Escape press. */
  function ScanKeys(states: seq<bool>, readings: seq<int>, n: nat): (r: Scan)
    requires |states| == |KEYS_TO_MONITOR| == |readings| && n <= |KEYS_TO_MONITOR|
    ensures |r.states| == |KEYS_TO_MONITOR|
  {
    if n == 0 then Scan(states, 0, false)
    else
      var prev := ScanKeys(states, readings, n - 1);
      var cur := KeyDown(readings[n - 1]);
      if prev.escaped || cur == prev.states[n - 1] then prev
      else Scan(prev.states[n - 1 := cur], prev.presses + (if cur then 1 else 0), cur && KEYS_TO_MONITOR[n - 1] == ESCAPE)
  }

  /** How many of the first `n` keys go from released to pressed. */
  function RisingEdges(states: seq<bool>, readings: seq<int>, n: nat): (c: nat)
    requires |states| == |KEYS_TO_MONITOR| == |readings| && n <= |KEYS_TO_MONITOR|
    ensures c <= n
  {
    if n == 0 then 0
    else RisingEdges(states, readings, n - 1) + (if !states[n - 1] && KeyDown(readings[n - 1]) then 1 else 0)
  }

  /**
   * Until Escape is pressed, the scan counts exactly the rising edges, leaves
   * every scanned key at its new reading (releases included) and the rest
   * untouched.
   */
  lemma {:induction false} ScanCountsRisingEdges(states: seq<bool>, readings: seq<int>, n: nat)
    requires |states| == |KEYS_TO_MONITOR| == |readings| && n <= |KEYS_TO_MONITOR|
    requires !ScanKeys(states, readings, n).escaped
    ensures var r := ScanKeys(states, readings, n);
      && r.presses == RisingEdges(states, readings, n)
      && (forall i :: 0 <= i < n ==> r.states[i] == KeyDown(readings[i]))
      && (forall i :: n <= i < |KEYS_TO_MONITOR| ==> r.states[i] == states[i])
  {
    if n > 0 {
      ScanCountsRisingEdges(states, readings, n - 1);
    }
  }

  /** Once Escape has been pressed, scanning further keys changes nothing. */
  lemma {:induction false} EscapedScanIsFinal(states: seq<bool>, readings: seq<int>, n: nat, m: nat)
    requires |states| == |KEYS_TO_MONITOR| == |readings| && n <= m <= |KEYS_TO_MONITOR|
    requires ScanKeys(states, readings, n).escaped
    ensures ScanKeys(states, readings, m) == ScanKeys(states, readings, n)
    decreases m
  {
    if m > n {
      EscapedScanIsFinal(states, readings, n, m - 1);
    }
  }

  /** No key before Escape can end the scan. */
  lemma {:induction false} NoEarlyEscape(states: seq<bool>, readings: seq<int>, n: nat)
    requires |states| == |KEYS_TO_MONITOR| == |readings| && n <= ESCAPE_INDEX
    ensures !ScanKeys(states, readings, n).escaped
  {
    if n > 0 {
      NoEarlyEscape(states, readings, n - 1);
    }
  }

  /**
   * A round ends in Escape exactly when Escape goes from released to
   * pressed; the press is counted, and the keys after it keep their old
   * state and are not counted.
   */
  lemma EscapeEndsScan(states: seq<bool>, readings: seq<int>)
    requires |states| == |KEYS_TO_MONITOR| == |readings|
    ensures var r := ScanKeys(states, readings, |KEYS_TO_MONITOR|);
      && (r.escaped <==> !states[ESCAPE_INDEX] && KeyDown(readings[ESCAPE_INDEX]))
      && (r.escaped ==>
            && r.presses == RisingEdges(states, readings, ESCAPE_INDEX + 1)
            && r.states[ESCAPE_INDEX] == true
            && forall i :: ESCAPE_INDEX < i < |KEYS_TO_MONITOR| ==> r.states[i] == states[i])
  {
    var n := |KEYS_TO_MONITOR|;
    NoEarlyEscape(states, readings, ESCAPE_INDEX);
    ScanCountsRisingEdges(states, readings, ESCAPE_INDEX);
    var e := ScanKeys(states, readings, ESCAPE_INDEX + 1);
    if e.escaped {
      EscapedScanIsFinal(states, readings, ESCAPE_INDEX + 1, n);
    } else {
      ScanNeverEscapesAfter(states, readings, ESCAPE_INDEX + 1, n);
    }
  }

  /** Past Escape's position a scan that has not escaped never will. */
  lemma {:induction false} ScanNeverEscapesAfter(states: seq<bool>, readings: seq<int>, n: nat, m: nat)
    requires |states| == |KEYS_TO_MONITOR| == |readings| && ESCAPE_INDEX < n <= m <= |KEYS_TO_MONITOR|
    requires !ScanKeys(states, readings, n).escaped
    ensures !ScanKeys(states, readings, m).escaped
    decreases m
  {
    if m > n {
      ScanNeverEscapesAfter(states, readings, n, m - 1);
    }
  }

  // ---------------------------------------------------------------------
  // Rounds of the polling loop

  /** The loop's state: the counters, the locals `last_mouse_pos` and `key_states`, and the printed moves. */
  datatype Monitor = Monitor(
    running: bool,
    mouseMoves: nat,
    keyPresses: nat,
    totalEvents: nat,
    last: Point,
    keyStates: seq<bool>,
    log: seq<MoveReport>)

  ghost predicate Consistent(m: Monitor) {
    |m.keyStates| == |KEYS_TO_MONITOR| && m.totalEvents == m.mouseMoves + m.keyPresses
  }

  /** A move is counted, reported and remembered only when the cursor changed. */
  function MoveStep(m: Monitor, cursor: Point): Monitor {
    if cursor == m.last then m
    else
      m.(mouseMoves := m.mouseMoves + 1,
         totalEvents := m.totalEvents + 1,
         log := m.log + [MoveReport(cursor, cursor.x - m.last.x, cursor.y - m.last.y, m.mouseMoves + 1)],
         last := cursor)
  }

  /** One round of `while self.running`. */
  function Round(m: Monitor, p: Poll): (r: Monitor)
    requires Consistent(m) && WellFormed(p)
    ensures Consistent(r)
  {
    var moved := MoveStep(m, p.cursor);
    var scan := ScanKeys(moved.keyStates, p.readings, |KEYS_TO_MONITOR|);
    moved.(keyStates := scan.states,
           keyPresses := moved.keyPresses + scan.presses,
           totalEvents := moved.totalEvents + scan.presses,
           running := moved.running && !scan.escaped)
  }

  ghost predicate AllWellFormed(polls: seq<Poll>) {
    forall k :: 0 <= k < |polls| ==> WellFormed(polls[k])
  }

  /** The rounds `polls` in order. */
  function Rounds(m: Monitor, polls: seq<Poll>): (r: Monitor)
    requires Consistent(m) && AllWellFormed(polls)
    ensures Consistent(r)
    decreases |polls|
  {
    if polls == [] then m else Round(Rounds(m, polls[..|polls| - 1]), polls[|polls| - 1])
  }

  function SumDx(log: seq<MoveReport>): int {
    if log == [] then 0 else SumDx(log[..|log| - 1]) + log[|log| - 1].dx
  }

  function SumDy(log: seq<MoveReport>): int {
    if log == [] then 0 else SumDy(log[..|log| - 1]) + log[|log| - 1].dy
  }

  /**
   * Every printed move is numbered in sequence, and the printed deltas add up
   * to the distance between the first and the last cursor position seen.
   */
  lemma {:induction false} ReportedDeltasTelescope(m: Monitor, polls: seq<Poll>)
    requires Consistent(m) && AllWellFormed(polls)
    ensures var r := Rounds(m, polls);
      && |m.log| <= |r.log| && m.mouseMoves <= r.mouseMoves
      && |r.log| - |m.log| == r.mouseMoves - m.mouseMoves
      && r.log[..|m.log|] == m.log
      && SumDx(r.log) - SumDx(m.log) == r.last.x - m.last.x
      && SumDy(r.log) - SumDy(m.log) == r.last.y - m.last.y
      && (forall k :: |m.log| <= k < |r.log| ==> r.log[k].moveNumber == m.mouseMoves + (k - |m.log|) + 1)
    decreases |polls|
  {
    if polls != [] {
      var prev := Rounds(m, polls[..|polls| - 1]);
      assert AllWellFormed(polls[..|polls| - 1]);
      ReportedDeltasTelescope(m, polls[..|polls| - 1]);
      var p := polls[|polls| - 1];
      var r := Rounds(m, polls);
      assert r.log == MoveStep(prev, p.cursor).log && r.last == MoveStep(prev, p.cursor).last;
      if p.cursor != prev.last {
        assert r.log[..|r.log| - 1] == prev.log;
        assert r.log[..|m.log|] == prev.log[..|m.log|];
      }
    }
  }

  /** A round that sees no change in cursor or keys leaves the monitor as it was. */
  lemma IdleRoundChangesNothing(m: Monitor, p: Poll)
    requires Consistent(m) && WellFormed(p)
    requires p.cursor == m.last
    requires forall i :: 0 <= i < |KEYS_TO_MONITOR| ==> KeyDown(p.readings[i]) == m.keyStates[i]
    ensures Round(m, p) == m
  {
    IdleScan(m.keyStates, p.readings, |KEYS_TO_MONITOR|);
  }

  lemma {:induction false} IdleScan(states: seq<bool>, readings: seq<int>, n: nat)
    requires |states| == |KEYS_TO_MONITOR| == |readings| && n <= |KEYS_TO_MONITOR|
    requires forall i :: 0 <= i < |KEYS_TO_MONITOR| ==> KeyDown(readings[i]) == states[i]
    ensures ScanKeys(states, readings, n) == Scan(states, 0, false)
  {
    if n > 0 {
      IdleScan(states, readings, n - 1);
    }
  }

  const ALL_RELEASED: seq<bool> := seq(|KEYS_TO_MONITOR|, _ => false)

  class SimpleHIDReader {
    var running: bool
    var mouseMoves: nat
    var keyPresses: nat
    var totalEvents: nat

    ghost predicate Valid()
      reads this
    {
      totalEvents == mouseMoves + keyPresses
    }

    /** The monitor state with the loop's locals. */
    function Current(last: Point, keyStates: seq<bool>, log: seq<MoveReport>): Monitor
      reads this
    {
      Monitor(running, mouseMoves, keyPresses, totalEvents, last, keyStates, log)
    }

    constructor ()
      ensures Valid() && !running && mouseMoves == 0 && keyPresses == 0 && totalEvents == 0
    {
      running := false;
      mouseMoves, keyPresses, totalEvents := 0, 0, 0;
    }

    /** The key loop of one round; returns early, with `running` cleared, on an Escape press. */
    method ScanRound(readings: seq<int>, states: seq<bool>) returns (newStates: seq<bool>)
      requires Valid() && |states| == |KEYS_TO_MONITOR| == |readings|
      modifies this
      ensures Valid()
      ensures var scan := ScanKeys(states, readings, |KEYS_TO_MONITOR|);
        && newStates == scan.states
        && keyPresses == old(keyPresses) + scan.presses
        && running == (old(running) && !scan.escaped)
      ensures mouseMoves == old(mouseMoves)
    {
      newStates := states;
      var i := 0;
      while i < |KEYS_TO_MONITOR|
        invariant 0 <= i <= |KEYS_TO_MONITOR| && Valid()
        invariant keyPresses >= old(keyPresses)
        invariant ScanKeys(states, readings, i) == Scan(newStates, keyPresses - old(keyPresses), false)
        invariant running == old(running) && mouseMoves == old(mouseMoves)
      {
        var current := KeyDown(readings[i]);
        if current != newStates[i] {
          newStates := newStates[i := current];
          if current {
            keyPresses := keyPresses + 1;
            totalEvents := totalEvents + 1;
            if KEYS_TO_MONITOR[i] == ESCAPE {
              running := false;
              EscapedScanIsFinal(states, readings, i + 1, |KEYS_TO_MONITOR|);
              return;
            }
          }
        }
        i := i + 1;
      }
    }

    /** One round of the polling loop. */
    method PollRound(p: Poll, last: Point, states: seq<bool>, log: seq<MoveReport>)
      returns (newLast: Point, newStates: seq<bool>, newLog: seq<MoveReport>)
      requires Valid() && WellFormed(p) && |states| == |KEYS_TO_MONITOR|
      modifies this
      ensures Valid()
      ensures Current(newLast, newStates, newLog) == Round(old(Current(last, states, log)), p)
    {
      ghost var before := Current(last, states, log);
      newLast, newLog := last, log;
      if p.cursor != last {
        mouseMoves := mouseMoves + 1;
        totalEvents := totalEvents + 1;
        var report := MoveReport(p.cursor, p.cursor.x - last.x, p.cursor.y - last.y, mouseMoves);
        newLog := log + [report];
        newLast := p.cursor;
      }
      assert Current(newLast, states, newLog) == MoveStep(before, p.cursor);
      newStates := ScanRound(p.readings, states);
    }

    /**
     * `monitor_input`: rounds run while `running` holds and polls remain;
     * returns how many polls were consumed and the moves printed.
     */
    method MonitorInput(initialCursor: Point, polls: seq<Poll>) returns (consumed: nat, log: seq<MoveReport>)
      requires Valid() && AllWellFormed(polls)
      modifies this
      ensures Valid() && consumed <= |polls|
      ensures var start := old(Current(initialCursor, ALL_RELEASED, []));
        && var m := Rounds(start, polls[..consumed]);
        && running == m.running && mouseMoves == m.mouseMoves && keyPresses == m.keyPresses
        && totalEvents == m.totalEvents && log == m.log
        && (forall j :: 0 <= j < consumed ==> Rounds(start, polls[..j]).running)
      ensures consumed < |polls| ==> !running
    {
      ghost var start := Current(initialCursor, ALL_RELEASED, []);
      var last := initialCursor;
      var states := ALL_RELEASED;
      log := [];
      consumed := 0;
      assert polls[..0] == [];
      while running && consumed < |polls|
        invariant Valid() && consumed <= |polls| && |states| == |KEYS_TO_MONITOR|
        invariant AllWellFormed(polls[..consumed])
        invariant Current(last, states, log) == Rounds(start, polls[..consumed])
        invariant forall j :: 0 <= j < consumed ==> Rounds(start, polls[..j]).running
      {
        last, states, log := TrackedPollRound(start, polls, consumed, last, states, log);
        consumed := consumed + 1;
      }
    }

    /** Round `i` of the loop, keeping the record of the rounds run so far. */
    method TrackedPollRound(ghost start: Monitor, polls: seq<Poll>, i: nat, last: Point, states: seq<bool>, log: seq<MoveReport>)
      returns (newLast: Point, newStates: seq<bool>, newLog: seq<MoveReport>)
      requires Valid() && Consistent(start) && AllWellFormed(polls) && i < |polls| && |states| == |KEYS_TO_MONITOR|
      requires AllWellFormed(polls[..i]) && Current(last, states, log) == Rounds(start, polls[..i])
      modifies this
      ensures Valid() && |newStates| == |KEYS_TO_MONITOR| && AllWellFormed(polls[..i + 1])
      ensures Current(newLast, newStates, newLog) == Rounds(start, polls[..i + 1])
    {
      assert polls[..i + 1][..i] == polls[..i];
      assert AllWellFormed(polls[..i + 1]);
      newLast, newStates, newLog := PollRound(polls[i], last, states, log);
    }

    /** `start`: runs the monitor and always leaves it stopped. */
    method Start(initialCursor: Point, polls: seq<Poll>) returns (consumed: nat, log: seq<MoveReport>)
      requires Valid() && AllWellFormed(polls)
      modifies this
      ensures Valid() && consumed <= |polls| && !running
      ensures var start := Current(initialCursor, ALL_RELEASED, []).(running := true,
            mouseMoves := old(mouseMoves), keyPresses := old(keyPresses), totalEvents := old(totalEvents));
        && var m := Rounds(start, polls[..consumed]);
        && mouseMoves == m.mouseMoves && keyPresses == m.keyPresses && totalEvents == m.totalEvents && log == m.log
    {
      running := true;
      consumed, log := MonitorInput(initialCursor, polls);
      running := false;
    }
  }
}
