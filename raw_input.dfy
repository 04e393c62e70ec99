/**
 * The RawInputReader of rawInput.py: a five-rung registration fallback, the
 * two-phase report fetch, mouse/keyboard/HID decoding into event records
 * handed to the callback, running counters, and the PeekMessage poll loop.
 */
module RawInput {
  import opened Options
  import opened Wire
  import opened Text
  import opened RawReport
  import Bounded

  /** The event records passed to the callback (timestamps are not modelled). */
  datatype Event =
    | MouseMove(deltaX: int, deltaY: int, totalX: int, totalY: int, flags: u16)
    | MouseWheel(delta: int, totalDelta: int)
    | MouseButton(button: string, state: string, clickCount: nat)
    | Keyboard(vkey: u16, scanCode: u16, keyFlags: bv16, state: string, keyCount: nat)
    | Hid(deviceHandle: nat, size: u32, count: u32, rawBytes: seq<i8>, hexData: string, dataCount: nat)

  /** The reader's statistics fields. */
  datatype Counters = Counters(
    totalX: int, totalY: int, clicks: nat, wheel: int,
    keys: nat, lastKey: Option<u16>, hidPackets: nat, messages: nat)

  const ZERO: Counters := Counters(0, 0, 0, 0, 0, None, 0, 0)

  // ---------------------------------------------------------------------
  // Registration ladder

  function MouseDevice(flags: u32, target: Option<nat>): RawInputDevice {
    RawInputDevice(USAGE_PAGE_GENERIC_DESKTOP, USAGE_MOUSE, flags, target)
  }

  /** The five attempts of `register_devices`, in the order they are made. */
  function Ladder(hwnd: Option<nat>): (l: seq<RawInputDevice>)
    ensures |l| == 5
    ensures forall k :: 0 <= k < 5 ==> l[k].usUsagePage == 0x01 && l[k].usUsage == 0x02
    ensures forall k :: 0 <= k < 3 ==> l[k].hwndTarget == hwnd
    ensures forall k :: 3 <= k < 5 ==> l[k].hwndTarget == None
    ensures [l[0].dwFlags, l[1].dwFlags, l[2].dwFlags, l[3].dwFlags, l[4].dwFlags]
         == [RIDEV_INPUTSINK, RIDEV_NOLEGACY, 0, RIDEV_INPUTSINK, 0]
  {
    [ MouseDevice(RIDEV_INPUTSINK, hwnd),
      MouseDevice(RIDEV_NOLEGACY, hwnd),
      MouseDevice(0, hwnd),
      MouseDevice(RIDEV_INPUTSINK, None),
      MouseDevice(0, None) ]
  }

  /**
   * `register_devices`: tries the rungs in order against the OS answers
   * `os` (one per call) and stops at the first success. A failed call and
   * a call that raised both fall through to the next rung.
   */
  method RegisterDevices(hwnd: Option<nat>, os: seq<Outcome>) returns (ok: bool, calls: seq<RawInputDevice>)
    requires |os| >= 5
    ensures 1 <= |calls| <= 5 && calls == Ladder(hwnd)[..|calls|]
    ensures ok <==> exists k :: 0 <= k < 5 && os[k] == Succeeded
    ensures ok ==> os[|calls| - 1] == Succeeded
    ensures forall k :: 0 <= k < |calls| - 1 ==> os[k] != Succeeded
    ensures !ok ==> |calls| == 5
  {
    var ladder := Ladder(hwnd);
    calls := [];
    var i := 0;
    while i < |ladder|
      invariant 0 <= i <= 5 && calls == ladder[..i]
      invariant forall k :: 0 <= k < i ==> os[k] != Succeeded
    {
      calls := calls + [ladder[i]];
      if os[i] == Succeeded {
        return true, calls;
      }
      i := i + 1;
    }
    ok := false;
  }

  // ---------------------------------------------------------------------
  // Decoding, as functions of the counters before the report

  function ButtonName(b: Button): string {
    match b
    case Left => "Left"
    case Right => "Right"
    case Middle => "Middle"
  }

  function StateName(t: Transition): string {
    match t
    case Down => "Down"
    case Up => "Up"
  }

  /** `button_name, button_state` for a report without the wheel bit. */
  function ButtonNames(flags: bv16): (string, string) {
    match MatchButton(flags)
    case None => ("Unknown", "Unknown")
    case Some(b) => (ButtonName(b.button), StateName(b.transition))
  }

  /** The names are "Unknown" exactly when no button bit is set; otherwise they name the first set bit in priority order. */
  lemma ButtonNamesPriority(flags: bv16)
    ensures ButtonNames(flags) == ("Unknown", "Unknown") <==> forall k :: 0 <= k < 6 ==> !Has(flags, BUTTON_PRIORITY[k].mask)
    ensures forall k :: 0 <= k < 6 && Has(flags, BUTTON_PRIORITY[k].mask)
                        && (forall j :: 0 <= j < k ==> !Has(flags, BUTTON_PRIORITY[j].mask))
                        ==> ButtonNames(flags) == (ButtonName(BUTTON_PRIORITY[k].button), StateName(BUTTON_PRIORITY[k].transition))
  {
    FirstMatchIsFirst(flags, BUTTON_PRIORITY);
  }

  predicate Moved(m: RawMouse) {
    m.lLastX != 0 || m.lLastY != 0
  }

  /**
   * `process_mouse_data`: the new counters and the events, in order.
   * A move event comes first when a delta is non-zero; then, when any
   * button flag is set, one wheel event (the wheel bit wins) or one button
   * event.
   */
  function MouseStep(c: Counters, m: RawMouse): (r: (Counters, seq<Event>))
    ensures r.0 == c.(totalX := c.totalX + m.lLastX, totalY := c.totalY + m.lLastY,
                      clicks := c.clicks + (if m.usButtonFlags != 0 then 1 else 0),
                      wheel := c.wheel + (if Has(m.usButtonFlags, RI_MOUSE_WHEEL) then Signed16(m.usButtonData) else 0))
    ensures |r.1| == (if Moved(m) then 1 else 0) + (if m.usButtonFlags != 0 then 1 else 0)
    ensures Moved(m) ==> r.1[0] == MouseMove(m.lLastX, m.lLastY, r.0.totalX, r.0.totalY, m.usFlags)
    ensures m.usButtonFlags != 0 && Has(m.usButtonFlags, RI_MOUSE_WHEEL) ==>
      r.1[|r.1| - 1] == MouseWheel(Signed16(m.usButtonData), r.0.wheel)
    ensures m.usButtonFlags != 0 && !Has(m.usButtonFlags, RI_MOUSE_WHEEL) ==>
      r.1[|r.1| - 1] == MouseButton(ButtonNames(m.usButtonFlags).0, ButtonNames(m.usButtonFlags).1, r.0.clicks)
  {
    var moved := MoveStep(c, m);
    var pressed := ButtonStep(moved.0, m);
    (pressed.0, moved.1 + pressed.1)
  }

  /** The movement half of `process_mouse_data`: the totals, and a move event when a delta is non-zero. */
  function MoveStep(c: Counters, m: RawMouse): (Counters, seq<Event>) {
    if Moved(m) then
      var c1 := c.(totalX := c.totalX + m.lLastX, totalY := c.totalY + m.lLastY);
      (c1, [MouseMove(m.lLastX, m.lLastY, c1.totalX, c1.totalY, m.usFlags)])
    else
      (c, [])
  }

  /** The button half of `process_mouse_data`: one click and one wheel or button event when any flag is set. */
  function ButtonStep(c: Counters, m: RawMouse): (Counters, seq<Event>) {
    var flags := m.usButtonFlags;
    if flags == 0 then
      (c, [])
    else
      var c1 := c.(clicks := c.clicks + 1);
      if Has(flags, RI_MOUSE_WHEEL) then
        var delta := Signed16(m.usButtonData);
        var c2 := c1.(wheel := c1.wheel + delta);
        (c2, [MouseWheel(delta, c2.wheel)])
      else
        var names := ButtonNames(flags);
        (c1, [MouseButton(names.0, names.1, c1.clicks)])
  }

  /** `process_keyboard_data`: every report counts; "down" iff bit 0 of Flags is clear. */
  function KeyboardStep(c: Counters, k: RawKeyboard): (r: (Counters, seq<Event>))
    ensures r.0 == c.(keys := c.keys + 1, lastKey := Some(k.vKey))
    ensures |r.1| == 1 && r.1[0].Keyboard? && r.1[0].vkey == k.vKey && r.1[0].keyCount == c.keys + 1
    ensures r.1[0].state == "down" <==> k.flags & 0x01 == 0
    ensures r.1[0].state == "up" <==> k.flags & 0x01 != 0
    ensures r.1[0].scanCode == k.makeCode && r.1[0].keyFlags == k.flags
  {
    var c1 := c.(keys := c.keys + 1, lastKey := Some(k.vKey));
    var state := if KeyWentDown(k.flags) then "down" else "up";
    (c1, [Keyboard(k.vKey, k.makeCode, k.flags, state, c1.keys)])
  }

  function Min(a: int, b: int): int {
    if a <= b then a else b
  }

  /** `min(dwSizeHid * dwCount, 64)` */
  function MaxBytes(h: RawHid): nat {
    ProductOfSizes(h);
    Min(h.dwSizeHid * h.dwCount, 64)
  }

  lemma ProductOfSizes(h: RawHid)
    ensures h.dwSizeHid * h.dwCount >= 0
  {
  }

  /**
   * The guarded copy loop of `process_hid_data`: element by element up to
   * the cap, stopping at the first index the field does not have.
   */
  method ExtractRawBytes(h: RawHid) returns (rawBytes: seq<i8>)
    ensures |rawBytes| == Min(MaxBytes(h), |h.bRawData|)
    ensures rawBytes == h.bRawData[..|rawBytes|]
    ensures rawBytes == Copied(h)
  {
    var maxBytes := MaxBytes(h);
    rawBytes := [];
    var i := 0;
    while i < maxBytes
      invariant 0 <= i <= maxBytes && i <= |h.bRawData|
      invariant rawBytes == h.bRawData[..i]
    {
      if i >= |h.bRawData| {
        break;
      }
      rawBytes := rawBytes + [h.bRawData[i]];
      i := i + 1;
    }
  }

  /** The elements the guarded loop copies. */
  function Copied(h: RawHid): (r: seq<i8>)
    ensures |r| <= 64 && |r| <= |h.bRawData|
    ensures r == h.bRawData[..|r|]
  {
    h.bRawData[..Min(MaxBytes(h), |h.bRawData|)]
  }

  /** Never more elements than the report announces (size times count). */
  lemma CopiedWithinAnnounced(h: RawHid)
    ensures |Copied(h)| <= h.dwSizeHid * h.dwCount
  {
  }

  /** With the declared one-element field at most one element is ever copied. */
  lemma CopiedFromDeclaredField(h: RawHid)
    requires |h.bRawData| == DECLARED_RAW_DATA_LENGTH
    ensures |Copied(h)| == if h.dwSizeHid * h.dwCount == 0 then 0 else 1
  {
  }

  /** A negative signed byte renders with a minus sign, not as two hex digits. */
  lemma NegativeByteKeepsSign(b: int)
    requires -0x80 <= b < 0
    ensures FormatHex(b, 2)[0] == '-' && FormatHex(b, 2)[1..] == HexDigits(-b)
  {
    assert |HexDigits(-b)| <= 2 by {
      assert Pow16(2) == 0x100;
      HexDigitsFit(-b, 2);
    }
  }

  /** `process_hid_data`: counts the packet and delivers the copied elements. */
  function HidStep(c: Counters, device: nat, h: RawHid): (r: (Counters, seq<Event>))
    ensures r.0 == c.(hidPackets := c.hidPackets + 1)
    ensures |r.1| == 1 && r.1[0].Hid? && r.1[0].rawBytes == Copied(h) && r.1[0].dataCount == r.0.hidPackets
    ensures r.1[0].hexData == HexData(Copied(h))
    ensures r.1[0].deviceHandle == device && r.1[0].size == h.dwSizeHid && r.1[0].count == h.dwCount
  {
    var c1 := c.(hidPackets := c.hidPackets + 1);
    var bytes := Copied(h);
    (c1, [Hid(device, h.dwSizeHid, h.dwCount, bytes, HexData(bytes), c1.hidPackets)])
  }

  /** A report survives the two-phase fetch: a non-zero size fetched in full. */
  predicate Accepted(f: Fetch) {
    f.queried != 0 && f.fetched == f.queried
  }

  /** `process_raw_input` for one WM_INPUT message. */
  function InputStep(c: Counters, f: Fetch): (r: (Counters, seq<Event>))
    ensures !Accepted(f) ==> r == (c, [])
    ensures Accepted(f) ==> r.0.messages == c.messages + 1
    ensures f.report.OtherReport? ==> r.1 == []
  {
    if f.queried == 0 then (c, [])
    else if f.fetched != f.queried then (c, [])
    else
      var c1 := c.(messages := c.messages + 1);
      match f.report
      case MouseReport(m) => MouseStep(c1, m)
      case KeyboardReport(k) => KeyboardStep(c1, k)
      case HidReport(device, h) => HidStep(c1, device, h)
      case OtherReport(_) => (c1, [])
  }

  /** A run of WM_INPUT messages, in arrival order. */
  function Feed(c: Counters, fs: seq<Fetch>): (Counters, seq<Event>)
    decreases |fs|
  {
    if fs == [] then (c, [])
    else
      var prev := Feed(c, fs[..|fs| - 1]);
      var step := InputStep(prev.0, fs[|fs| - 1]);
      (step.0, prev.1 + step.1)
  }

  lemma FeedSnoc(c: Counters, fs: seq<Fetch>, f: Fetch)
    ensures Feed(c, fs + [f]) == (InputStep(Feed(c, fs).0, f).0, Feed(c, fs).1 + InputStep(Feed(c, fs).0, f).1)
  {
    assert (fs + [f])[..|fs|] == fs;
  }

  // ---------------------------------------------------------------------
  // Reference tallies over the accepted reports

  function AcceptedReports(fs: seq<Fetch>): seq<Report>
    decreases |fs|
  {
    if fs == [] then []
    else AcceptedReports(fs[..|fs| - 1]) + (if Accepted(fs[|fs| - 1]) then [fs[|fs| - 1].report] else [])
  }

  function Sum(rs: seq<Report>, f: Report -> int): int
    decreases |rs|
  {
    if rs == [] then 0 else Sum(rs[..|rs| - 1], f) + f(rs[|rs| - 1])
  }

  function Count(rs: seq<Report>, p: Report -> bool): nat
    decreases |rs|
  {
    if rs == [] then 0 else Count(rs[..|rs| - 1], p) + (if p(rs[|rs| - 1]) then 1 else 0)
  }

  /** The virtual key of the last keyboard report, or `before` when there is none. */
  function LastKey(rs: seq<Report>, before: Option<u16>): Option<u16>
    decreases |rs|
  {
    if rs == [] then before
    else if rs[|rs| - 1].KeyboardReport? then Some(rs[|rs| - 1].keyboard.vKey)
    else LastKey(rs[..|rs| - 1], before)
  }

  function Dx(r: Report): int {
    if r.MouseReport? then r.mouse.lLastX else 0
  }

  function Dy(r: Report): int {
    if r.MouseReport? then r.mouse.lLastY else 0
  }

  predicate Clicked(r: Report) {
    r.MouseReport? && r.mouse.usButtonFlags != 0
  }

  function WheelDelta(r: Report): int {
    if r.MouseReport? && Has(r.mouse.usButtonFlags, RI_MOUSE_WHEEL) then Signed16(r.mouse.usButtonData) else 0
  }

  predicate IsKeyboard(r: Report) {
    r.KeyboardReport?
  }

  predicate IsHid(r: Report) {
    r.HidReport?
  }

  /** Every counter after a run of messages is the matching tally over the accepted reports. */
  ghost predicate Tallied(after: Counters, before: Counters, rs: seq<Report>) {
    && after.totalX == before.totalX + Sum(rs, Dx)
    && after.totalY == before.totalY + Sum(rs, Dy)
    && after.clicks == before.clicks + Count(rs, Clicked)
    && after.wheel == before.wheel + Sum(rs, WheelDelta)
    && after.keys == before.keys + Count(rs, IsKeyboard)
    && after.lastKey == LastKey(rs, before.lastKey)
    && after.hidPackets == before.hidPackets + Count(rs, IsHid)
    && after.messages == before.messages + |rs|
  }

  /**
   * The counters are sums: `raw_input_messages` counts exactly the
   * accepted reports (dropped ones never), the totals are the sums of the
   * deltas, `mouse_clicks` counts the reports with any button flag, and so on.
   */
  lemma {:induction false} FeedTallies(c: Counters, fs: seq<Fetch>)
    ensures Tallied(Feed(c, fs).0, c, AcceptedReports(fs))
    decreases |fs|
  {
    if fs != [] {
      var init := fs[..|fs| - 1];
      var f := fs[|fs| - 1];
      FeedTallies(c, init);
      var rs := AcceptedReports(init);
      if Accepted(f) {
        var rs' := rs + [f.report];
        assert AcceptedReports(fs) == rs';
        assert rs'[..|rs'| - 1] == rs;
      } else {
        assert AcceptedReports(fs) == rs;
      }
    }
  }

  // ---------------------------------------------------------------------
  // The poll loop's input

  /** One pass of the poll loop: PeekMessage found nothing, a message, or stop() was called. */
  datatype Peeked = Idle | Posted(message: u32, fetch: Fetch) | StopCalled

  /** The report fetch a step hands to `process_raw_input`, if any. */
  function StepFetches(s: Peeked): seq<Fetch> {
    if s.Posted? && s.message == WM_INPUT then [s.fetch] else []
  }

  /** The message a step hands to TranslateMessage/DispatchMessageW, if any. */
  function StepPassed(s: Peeked): seq<u32> {
    if s.Posted? && s.message != WM_INPUT then [s.message] else []
  }

  /** The WM_INPUT messages among the steps, in order. */
  function InputFetches(steps: seq<Peeked>): seq<Fetch>
    decreases |steps|
  {
    if steps == [] then [] else InputFetches(steps[..|steps| - 1]) + StepFetches(steps[|steps| - 1])
  }

  /** The other messages, in order. */
  function PassedThrough(steps: seq<Peeked>): seq<u32>
    decreases |steps|
  {
    if steps == [] then [] else PassedThrough(steps[..|steps| - 1]) + StepPassed(steps[|steps| - 1])
  }

  lemma StepsSnoc(steps: seq<Peeked>, s: Peeked)
    ensures InputFetches(steps + [s]) == InputFetches(steps) + StepFetches(s)
    ensures PassedThrough(steps + [s]) == PassedThrough(steps) + StepPassed(s)
  {
    assert (steps + [s])[..|steps|] == steps;
  }

  /** Feeding at most one more report extends the run by that report's step. */
  lemma FeedOneMore(c: Counters, a: seq<Fetch>, b: seq<Fetch>)
    requires |b| <= 1
    ensures var mid := Feed(c, a);
      Feed(c, a + b) == (Feed(mid.0, b).0, mid.1 + Feed(mid.0, b).1)
  {
    var mid := Feed(c, a);
    if b == [] {
      assert a + b == a;
      assert Feed(mid.0, b) == (mid.0, []);
      assert mid.1 + [] == mid.1;
    } else {
      var f := b[0];
      assert b == [f];
      FeedSnoc(c, a, f);
      FeedSingle(mid.0, f);
    }
  }

  lemma FeedSingle(c: Counters, f: Fetch)
    ensures Feed(c, [f]) == InputStep(c, f)
  {
    assert [f][..0] == [];
    var step := InputStep(c, f);
    assert [] + step.1 == step.1;
  }

  /**
   * The reader's counters, callback log and pass-through log after the
   * loop has consumed `prefix`, starting from `start`, `e0` and `d0`.
   */
  ghost predicate Consumed(start: Counters, e0: seq<Event>, d0: seq<u32>, cb: bool, prefix: seq<Peeked>,
                           c: Counters, e: seq<Event>, d: seq<u32>)
  {
    var fed := Feed(start, InputFetches(prefix));
    c == fed.0 && e == e0 + (if cb then fed.1 else []) && d == d0 + PassedThrough(prefix)
  }

  lemma ConsumedStep(start: Counters, e0: seq<Event>, d0: seq<u32>, cb: bool, prefix: seq<Peeked>, s: Peeked,
                     c: Counters, e: seq<Event>, d: seq<u32>)
    requires Consumed(start, e0, d0, cb, prefix, c, e, d)
    ensures var step := Feed(c, StepFetches(s));
      Consumed(start, e0, d0, cb, prefix + [s], step.0, e + (if cb then step.1 else []), d + StepPassed(s))
  {
    StepsSnoc(prefix, s);
    var a, b := InputFetches(prefix), StepFetches(s);
    FeedOneMore(start, a, b);
    var fed := Feed(start, a);
    var step := Feed(c, b);
    assert Feed(start, a + b) == (step.0, fed.1 + step.1);
    if cb {
      Bounded.AppendAssociates(e0, fed.1, step.1);
    } else {
      assert e + [] == e0 + [];
    }
    Bounded.AppendAssociates(d0, PassedThrough(prefix), StepPassed(s));
  }

  class RawInputReader {
    /** The hidden message window (None when its creation failed). */
    const hwnd: Option<nat>
    var running: bool
    var hasCallback: bool
    var totalMouseX: int
    var totalMouseY: int
    var mouseClicks: nat
    var mouseWheelDelta: int
    var keyPresses: nat
    var lastKey: Option<u16>
    var hidDataCount: nat
    var rawInputMessages: nat
    /** Every event handed to the callback, oldest first. */
    var emitted: seq<Event>
    /** Every message passed on to TranslateMessage/DispatchMessageW. */
    var dispatched: seq<u32>

    function Snapshot(): Counters
      reads this
    {
      Counters(totalMouseX, totalMouseY, mouseClicks, mouseWheelDelta, keyPresses, lastKey, hidDataCount, rawInputMessages)
    }

    /** Events reach the log only once a callback is set. */
    function Out(events: seq<Event>): seq<Event>
      reads this
    {
      if hasCallback then events else []
    }

    constructor (hwnd: Option<nat>)
      ensures this.hwnd == hwnd && Snapshot() == ZERO
      ensures !running && !hasCallback && emitted == [] && dispatched == []
    {
      this.hwnd := hwnd;
      running, hasCallback := false, false;
      totalMouseX, totalMouseY, mouseClicks, mouseWheelDelta := 0, 0, 0, 0;
      keyPresses, lastKey, hidDataCount, rawInputMessages := 0, None, 0, 0;
      emitted, dispatched := [], [];
    }

    method SetCallback()
      modifies this
      ensures hasCallback && Snapshot() == old(Snapshot()) && running == old(running)
      ensures emitted == old(emitted) && dispatched == old(dispatched)
    {
      hasCallback := true;
    }

    /** Hands events to the callback, when one is set. */
    method Emit(events: seq<Event>)
      modifies this
      ensures emitted == old(emitted) + Out(events)
      ensures Snapshot() == old(Snapshot()) && running == old(running) && hasCallback == old(hasCallback)
      ensures dispatched == old(dispatched)
    {
      if hasCallback {
        emitted := emitted + events;
      }
    }

    method ProcessMouseData(m: RawMouse)
      modifies this
      ensures Snapshot() == MouseStep(old(Snapshot()), m).0
      ensures running == old(running) && hasCallback == old(hasCallback) && dispatched == old(dispatched)
      ensures emitted == old(emitted) + Out(MouseStep(old(Snapshot()), m).1)
    {
      var moves := AccumulateMove(m);
      var buttons := AccumulateButtons(m);
      Emit(moves + buttons);
    }

    /** The movement half of `process_mouse_data`. */
    method AccumulateMove(m: RawMouse) returns (events: seq<Event>)
      modifies this
      ensures (Snapshot(), events) == MoveStep(old(Snapshot()), m)
      ensures running == old(running) && hasCallback == old(hasCallback) && dispatched == old(dispatched)
      ensures emitted == old(emitted)
    {
      events := [];
      if m.lLastX != 0 || m.lLastY != 0 {
        totalMouseX := totalMouseX + m.lLastX;
        totalMouseY := totalMouseY + m.lLastY;
        events := [MouseMove(m.lLastX, m.lLastY, totalMouseX, totalMouseY, m.usFlags)];
      }
    }

    /** The button half of `process_mouse_data`. */
    method AccumulateButtons(m: RawMouse) returns (events: seq<Event>)
      modifies this
      ensures (Snapshot(), events) == ButtonStep(old(Snapshot()), m)
      ensures running == old(running) && hasCallback == old(hasCallback) && dispatched == old(dispatched)
      ensures emitted == old(emitted)
    {
      events := [];
      var buttonFlags := m.usButtonFlags;
      if buttonFlags != 0 {
        mouseClicks := mouseClicks + 1;
        if Has(buttonFlags, RI_MOUSE_WHEEL) {
          var wheelDelta := Signed16(m.usButtonData);
          mouseWheelDelta := mouseWheelDelta + wheelDelta;
          events := [MouseWheel(wheelDelta, mouseWheelDelta)];
          assert Snapshot() == old(Snapshot()).(clicks := old(mouseClicks) + 1, wheel := mouseWheelDelta);
        } else {
          var names := ButtonNames(buttonFlags);
          events := [MouseButton(names.0, names.1, mouseClicks)];
          assert Snapshot() == old(Snapshot()).(clicks := mouseClicks);
        }
      }
    }

    method ProcessKeyboardData(k: RawKeyboard)
      modifies this
      ensures Snapshot() == KeyboardStep(old(Snapshot()), k).0
      ensures running == old(running) && hasCallback == old(hasCallback) && dispatched == old(dispatched)
      ensures emitted == old(emitted) + Out(KeyboardStep(old(Snapshot()), k).1)
    {
      keyPresses := keyPresses + 1;
      lastKey := Some(k.vKey);
      var keyState := if KeyWentDown(k.flags) then "down" else "up";
      Emit([Keyboard(k.vKey, k.makeCode, k.flags, keyState, keyPresses)]);
    }

    method ProcessHidData(h: RawHid, device: nat)
      modifies this
      ensures Snapshot() == HidStep(old(Snapshot()), device, h).0
      ensures running == old(running) && hasCallback == old(hasCallback) && dispatched == old(dispatched)
      ensures emitted == old(emitted) + Out(HidStep(old(Snapshot()), device, h).1)
    {
      ghost var step := HidStep(Snapshot(), device, h);
      hidDataCount := hidDataCount + 1;
      var rawBytes := ExtractRawBytes(h);
      var hexData := HexData(rawBytes);
      var event := Hid(device, h.dwSizeHid, h.dwCount, rawBytes, hexData, hidDataCount);
      assert [event] == step.1;
      Emit([event]);
    }

    method ProcessRawInput(f: Fetch)
      modifies this
      ensures Snapshot() == InputStep(old(Snapshot()), f).0
      ensures running == old(running) && hasCallback == old(hasCallback) && dispatched == old(dispatched)
      ensures emitted == old(emitted) + Out(InputStep(old(Snapshot()), f).1)
    {
      var size := f.queried;
      if size == 0 {
        return;
      }
      var result := f.fetched;
      if result != size {
        return;
      }
      rawInputMessages := rawInputMessages + 1;
      match f.report
      case MouseReport(m) => ProcessMouseData(m);
      case KeyboardReport(k) => ProcessKeyboardData(k);
      case HidReport(device, h) => ProcessHidData(h, device);
      case OtherReport(_) =>
    }

    /** `stop`: the poll loop ends at its next check. */
    method Stop()
      modifies this
      ensures !running && Snapshot() == old(Snapshot()) && hasCallback == old(hasCallback)
      ensures emitted == old(emitted) && dispatched == old(dispatched)
    {
      running := false;
    }

    /** One pass of the poll loop body. */
    method PollStep(step: Peeked)
      modifies this
      ensures running == (old(running) && !step.StopCalled?) && hasCallback == old(hasCallback)
      ensures Snapshot() == Feed(old(Snapshot()), StepFetches(step)).0
      ensures emitted == old(emitted) + Out(Feed(old(Snapshot()), StepFetches(step)).1)
      ensures dispatched == old(dispatched) + StepPassed(step)
    {
      match step {
        case Idle =>
        case StopCalled => Stop();
        case Posted(message, fetch) =>
          if message == WM_INPUT {
            assert [fetch][..0] == [];
            ProcessRawInput(fetch);
          } else {
            dispatched := dispatched + [message];
          }
      }
    }

    /**
     * `run`: registers (the verdict is ignored), sets `running`, then polls
     * until `running` is cleared. `steps` is what each pass of the loop
     * sees; the loop consumes them up to and including the first stop().
     */
    method Run(os: seq<Outcome>, steps: seq<Peeked>) returns (consumed: nat)
      requires |os| >= 5
      modifies this
      ensures consumed <= |steps|
      ensures forall j :: 0 <= j < consumed - 1 ==> !steps[j].StopCalled?
      ensures !running <==> 0 < consumed && steps[consumed - 1].StopCalled?
      ensures running ==> consumed == |steps|
      ensures Snapshot() == Feed(old(Snapshot()), InputFetches(steps[..consumed])).0
      ensures emitted == old(emitted) + Out(Feed(old(Snapshot()), InputFetches(steps[..consumed])).1)
      ensures dispatched == old(dispatched) + PassedThrough(steps[..consumed])
      ensures hasCallback == old(hasCallback)
    {
      var _, _ := RegisterDevices(hwnd, os);
      running := true;
      consumed := PollLoop(steps);
    }

    /** The `while self.running` loop of `run`. */
    method PollLoop(steps: seq<Peeked>) returns (consumed: nat)
      requires running
      modifies this
      ensures consumed <= |steps|
      ensures forall j :: 0 <= j < consumed - 1 ==> !steps[j].StopCalled?
      ensures !running <==> 0 < consumed && steps[consumed - 1].StopCalled?
      ensures running ==> consumed == |steps|
      ensures Snapshot() == Feed(old(Snapshot()), InputFetches(steps[..consumed])).0
      ensures emitted == old(emitted) + Out(Feed(old(Snapshot()), InputFetches(steps[..consumed])).1)
      ensures dispatched == old(dispatched) + PassedThrough(steps[..consumed])
      ensures hasCallback == old(hasCallback)
    {
      ghost var start := Snapshot();
      ghost var emittedBefore := emitted;
      ghost var dispatchedBefore := dispatched;
      var i := 0;
      while running && i < |steps|
        invariant 0 <= i <= |steps|
        invariant forall j :: 0 <= j < i - 1 ==> !steps[j].StopCalled?
        invariant running ==> forall j :: 0 <= j < i ==> !steps[j].StopCalled?
        invariant !running ==> 0 < i && steps[i - 1].StopCalled?
        invariant hasCallback == old(hasCallback)
        invariant Consumed(start, emittedBefore, dispatchedBefore, hasCallback, steps[..i], Snapshot(), emitted, dispatched)
        decreases |steps| - i
      {
        TrackedPollStep(start, emittedBefore, dispatchedBefore, steps, i);
        i := i + 1;
      }
      consumed := i;
    }

    /** Pass `i` of the loop, keeping the record of what the loop has consumed. */
    method TrackedPollStep(ghost start: Counters, ghost e0: seq<Event>, ghost d0: seq<u32>,
                           steps: seq<Peeked>, i: nat)
      requires i < |steps|
      requires Consumed(start, e0, d0, hasCallback, steps[..i], Snapshot(), emitted, dispatched)
      modifies this
      ensures Consumed(start, e0, d0, hasCallback, steps[..i + 1], Snapshot(), emitted, dispatched)
      ensures running == (old(running) && !steps[i].StopCalled?) && hasCallback == old(hasCallback)
    {
      assert steps[..i + 1] == steps[..i] + [steps[i]];
      ConsumedStep(start, e0, d0, hasCallback, steps[..i], steps[i], Snapshot(), emitted, dispatched);
      PollStep(steps[i]);
    }
  }
}
