/**
 * The ImprovedRawInputReader of improved_raw_input.py. It differs from the
 * rawInput.py reader in four places: one mouse registration then an
 * optional keyboard one, no size-0 early return and no message counter,
 * the wheel bit tested only after the six button bits, key states spelled
 * "Down"/"Up", and an unguarded HID copy loop whose IndexError loses the
 * event.
 */
module ImprovedRawInput {
  import opened Options
  import opened Wire
  import opened RawReport
  import Text
  import RawInput

  type Event = RawInput.Event

  datatype Counters = Counters(totalX: int, totalY: int, clicks: nat, wheel: int, keys: nat, lastKey: Option<u16>, hidPackets: nat)

  const ZERO: Counters := Counters(0, 0, 0, 0, 0, None, 0)

  /** A window handle Python treats as true: present and non-zero. */
  predicate Truthy(hwnd: Option<nat>) {
    hwnd.Some? && hwnd.value != 0
  }

  function Device(usage: u16, hwnd: Option<nat>): RawInputDevice {
    RawInputDevice(USAGE_PAGE_GENERIC_DESKTOP, usage, RIDEV_INPUTSINK, hwnd)
  }

  /**
   * `register_devices`: no attempt without a window; the mouse first; the
   * keyboard only after the mouse succeeded, its failure tolerated. An
   * exception in either call is caught and reported as failure.
   */
  method RegisterDevices(hwnd: Option<nat>, os: seq<Outcome>) returns (ok: bool, calls: seq<RawInputDevice>)
    requires |os| >= 2
    ensures ok <==> Truthy(hwnd) && os[0] == Succeeded && os[1] != Raised
    ensures !Truthy(hwnd) ==> calls == []
    ensures Truthy(hwnd) && os[0] != Succeeded ==> calls == [Device(USAGE_MOUSE, hwnd)]
    ensures Truthy(hwnd) && os[0] == Succeeded ==> calls == [Device(USAGE_MOUSE, hwnd), Device(USAGE_KEYBOARD, hwnd)]
  {
    if !Truthy(hwnd) {
      return false, [];
    }
    calls := [Device(USAGE_MOUSE, hwnd)];
    if os[0] == Raised {
      return false, calls;
    }
    if os[0] == Succeeded {
      calls := calls + [Device(USAGE_KEYBOARD, hwnd)];
      if os[1] == Raised {
        return false, calls;
      }
      return true, calls;
    }
    ok := false;
  }

  /**
   * `process_mouse_data`: a move event when a delta is non-zero; then, when
   * any button flag is set, a button event, unless none of the six button
   * bits is set and the wheel bit is, in which case a wheel event.
   */
  function MouseStep(c: Counters, m: RawMouse): (r: (Counters, seq<Event>))
    ensures var wheelOnly := m.usButtonFlags != 0 && MatchButton(m.usButtonFlags).None? && Has(m.usButtonFlags, RI_MOUSE_WHEEL);
      r.0 == c.(totalX := c.totalX + m.lLastX, totalY := c.totalY + m.lLastY,
                clicks := c.clicks + (if m.usButtonFlags != 0 then 1 else 0),
                wheel := c.wheel + (if wheelOnly then Signed16(m.usButtonData) else 0))
    ensures |r.1| == (if RawInput.Moved(m) then 1 else 0) + (if m.usButtonFlags != 0 then 1 else 0)
    ensures RawInput.Moved(m) ==> r.1[0] == RawInput.MouseMove(m.lLastX, m.lLastY, r.0.totalX, r.0.totalY, m.usFlags)
    ensures m.usButtonFlags != 0 && MatchButton(m.usButtonFlags).None? && Has(m.usButtonFlags, RI_MOUSE_WHEEL) ==>
      r.1[|r.1| - 1] == RawInput.MouseWheel(Signed16(m.usButtonData), r.0.wheel)
    ensures m.usButtonFlags != 0 && (MatchButton(m.usButtonFlags).Some? || !Has(m.usButtonFlags, RI_MOUSE_WHEEL)) ==>
      var names := RawInput.ButtonNames(m.usButtonFlags);
      r.1[|r.1| - 1] == RawInput.MouseButton(names.0, names.1, r.0.clicks)
  {
    var moved := MoveStep(c, m);
    var pressed := ButtonStep(moved.0, m);
    (pressed.0, moved.1 + pressed.1)
  }

  /** The movement half of `process_mouse_data`: the totals, and a move event when a delta is non-zero. */
  function MoveStep(c: Counters, m: RawMouse): (Counters, seq<Event>) {
    if RawInput.Moved(m) then
      var c1 := c.(totalX := c.totalX + m.lLastX, totalY := c.totalY + m.lLastY);
      (c1, [RawInput.MouseMove(m.lLastX, m.lLastY, c1.totalX, c1.totalY, m.usFlags)])
    else
      (c, [])
  }

  /**
   * The button half of `process_mouse_data`: one click and, when any flag
   * is set, a wheel event if the wheel bit is the only recognised one and
   * a button event otherwise.
   */
  function ButtonStep(c: Counters, m: RawMouse): (Counters, seq<Event>) {
    var flags := m.usButtonFlags;
    if flags == 0 then
      (c, [])
    else
      var c1 := c.(clicks := c.clicks + 1);
      if MatchButton(flags).None? && Has(flags, RI_MOUSE_WHEEL) then
        var delta := Signed16(m.usButtonData);
        var c2 := c1.(wheel := c1.wheel + delta);
        (c2, [RawInput.MouseWheel(delta, c2.wheel)])
      else
        var names := RawInput.ButtonNames(flags);
        (c1, [RawInput.MouseButton(names.0, names.1, c1.clicks)])
  }

  /**
   * A report carrying a button bit and the wheel bit yields the button
   * event and leaves the wheel total alone.
   */
  lemma ButtonBitHidesWheel(c: Counters, m: RawMouse, k: nat)
    requires k < 6 && Has(m.usButtonFlags, BUTTON_PRIORITY[k].mask) && Has(m.usButtonFlags, RI_MOUSE_WHEEL)
    ensures MouseStep(c, m).0.wheel == c.wheel
    ensures MouseStep(c, m).1[|MouseStep(c, m).1| - 1].MouseButton?
  {
    FirstMatchIsFirst(m.usButtonFlags, BUTTON_PRIORITY);
  }

  /** `process_keyboard_data`: every report counts; "Down" iff bit 0 of Flags is clear. */
  function KeyboardStep(c: Counters, k: RawKeyboard): (r: (Counters, seq<Event>))
    ensures r.0 == c.(keys := c.keys + 1, lastKey := Some(k.vKey))
    ensures |r.1| == 1 && r.1[0].Keyboard? && r.1[0].vkey == k.vKey && r.1[0].keyCount == c.keys + 1
    ensures r.1[0].state == "Down" <==> k.flags & 0x01 == 0
    ensures r.1[0].state == "Up" <==> k.flags & 0x01 != 0
    ensures r.1[0].scanCode == k.makeCode && r.1[0].keyFlags == k.flags
  {
    var c1 := c.(keys := c.keys + 1, lastKey := Some(k.vKey));
    var state := if KeyWentDown(k.flags) then "Down" else "Up";
    (c1, [RawInput.Keyboard(k.vKey, k.makeCode, k.flags, state, c1.keys)])
  }

  /**
   * The unguarded copy loop of `process_hid_data`: the first index the
   * field does not have raises IndexError, which abandons the handler.
   */
  method ExtractRawBytes(h: RawHid) returns (rawBytes: seq<i8>, raised: bool)
    ensures raised <==> RawInput.MaxBytes(h) > |h.bRawData|
    ensures !raised ==> rawBytes == h.bRawData[..RawInput.MaxBytes(h)]
  {
    var maxBytes := RawInput.MaxBytes(h);
    rawBytes := [];
    var i := 0;
    while i < maxBytes
      invariant 0 <= i <= maxBytes && i <= |h.bRawData|
      invariant rawBytes == h.bRawData[..i]
    {
      if i >= |h.bRawData| {
        return rawBytes, true;
      }
      rawBytes := rawBytes + [h.bRawData[i]];
      i := i + 1;
    }
    raised := false;
  }

  /**
   * `process_hid_data`: the packet is counted before the copy; when the
   * copy raises, no event is delivered.
   */
  function HidStep(c: Counters, device: nat, h: RawHid): (r: (Counters, seq<Event>))
    ensures r.0 == c.(hidPackets := c.hidPackets + 1)
    ensures r.1 == [] <==> RawInput.MaxBytes(h) > |h.bRawData|
    ensures r.1 != [] ==>
      && |r.1| == 1 && r.1[0].Hid? && r.1[0].rawBytes == h.bRawData[..RawInput.MaxBytes(h)]
      && r.1[0].dataCount == r.0.hidPackets
      && r.1[0].deviceHandle == device && r.1[0].size == h.dwSizeHid && r.1[0].count == h.dwCount
      && r.1[0].hexData == Text.HexData(r.1[0].rawBytes)
  {
    var c1 := c.(hidPackets := c.hidPackets + 1);
    var n := RawInput.MaxBytes(h);
    if n > |h.bRawData| then (c1, [])
    else
      var bytes := h.bRawData[..n];
      (c1, [RawInput.Hid(device, h.dwSizeHid, h.dwCount, bytes, Text.HexData(bytes), c1.hidPackets)])
  }

  /** With the declared one-element field, any report announcing two or more bytes is lost. */
  lemma DeclaredFieldLosesLongReports(c: Counters, device: nat, h: RawHid)
    requires |h.bRawData| == DECLARED_RAW_DATA_LENGTH
    ensures HidStep(c, device, h).1 == [] <==> h.dwSizeHid * h.dwCount >= 2
  {
  }

  /** `process_raw_input`: only a fetch that returns the queried size is decoded. */
  function InputStep(c: Counters, f: Fetch): (r: (Counters, seq<Event>))
    ensures f.fetched != f.queried ==> r == (c, [])
    ensures f.report.OtherReport? ==> r == (c, [])
  {
    if f.fetched != f.queried then (c, [])
    else
      match f.report
      case MouseReport(m) => MouseStep(c, m)
      case KeyboardReport(k) => KeyboardStep(c, k)
      case HidReport(device, h) => HidStep(c, device, h)
      case OtherReport(_) => (c, [])
  }

  /** A zero-size report is not rejected: a fetch answering 0 for 0 is decoded like any other. */
  lemma ZeroSizeIsDecoded(c: Counters, k: RawKeyboard)
    ensures InputStep(c, Fetch(0, 0, KeyboardReport(k))).0.keys == c.keys + 1
  {
  }

  class ImprovedRawInputReader {
    var hwnd: Option<nat>
    var hasCallback: bool
    var totalMouseX: int
    var totalMouseY: int
    var mouseClicks: nat
    var mouseWheelDelta: int
    var keyPresses: nat
    var lastKey: Option<u16>
    var hidDataCount: nat
    var emitted: seq<Event>

    function Snapshot(): Counters
      reads this
    {
      Counters(totalMouseX, totalMouseY, mouseClicks, mouseWheelDelta, keyPresses, lastKey, hidDataCount)
    }

    function Out(events: seq<Event>): seq<Event>
      reads this
    {
      if hasCallback then events else []
    }

    constructor ()
      ensures Snapshot() == ZERO && hwnd == None && !hasCallback && emitted == []
    {
      hwnd, hasCallback := None, false;
      totalMouseX, totalMouseY, mouseClicks, mouseWheelDelta := 0, 0, 0, 0;
      keyPresses, lastKey, hidDataCount := 0, None, 0;
      emitted := [];
    }

    method SetCallback()
      modifies this
      ensures hasCallback && Snapshot() == old(Snapshot()) && hwnd == old(hwnd) && emitted == old(emitted)
    {
      hasCallback := true;
    }

    method ProcessMouseData(m: RawMouse)
      modifies this
      ensures Snapshot() == MouseStep(old(Snapshot()), m).0
      ensures hwnd == old(hwnd) && hasCallback == old(hasCallback)
      ensures emitted == old(emitted) + Out(MouseStep(old(Snapshot()), m).1)
    {
      var moves := AccumulateMove(m);
      var buttons := AccumulateButtons(m);
      if hasCallback {
        emitted := emitted + (moves + buttons);
      }
    }

    /** The movement half of `process_mouse_data`. */
    method AccumulateMove(m: RawMouse) returns (events: seq<Event>)
      modifies this
      ensures (Snapshot(), events) == MoveStep(old(Snapshot()), m)
      ensures hwnd == old(hwnd) && hasCallback == old(hasCallback) && emitted == old(emitted)
    {
      events := [];
      if m.lLastX != 0 || m.lLastY != 0 {
        totalMouseX := totalMouseX + m.lLastX;
        totalMouseY := totalMouseY + m.lLastY;
        events := [RawInput.MouseMove(m.lLastX, m.lLastY, totalMouseX, totalMouseY, m.usFlags)];
      }
    }

    /** The button half of `process_mouse_data`; the wheel branch is the last `elif`. */
    method AccumulateButtons(m: RawMouse) returns (events: seq<Event>)
      modifies this
      ensures (Snapshot(), events) == ButtonStep(old(Snapshot()), m)
      ensures hwnd == old(hwnd) && hasCallback == old(hasCallback) && emitted == old(emitted)
    {
      events := [];
      var buttonFlags := m.usButtonFlags;
      if buttonFlags != 0 {
        mouseClicks := mouseClicks + 1;
        var names := RawInput.ButtonNames(buttonFlags);
        if MatchButton(buttonFlags).None? && Has(buttonFlags, RI_MOUSE_WHEEL) {
          var wheelDelta := Signed16(m.usButtonData);
          mouseWheelDelta := mouseWheelDelta + wheelDelta;
          events := [RawInput.MouseWheel(wheelDelta, mouseWheelDelta)];
          assert Snapshot() == old(Snapshot()).(clicks := old(mouseClicks) + 1, wheel := mouseWheelDelta);
        } else {
          events := [RawInput.MouseButton(names.0, names.1, mouseClicks)];
          assert Snapshot() == old(Snapshot()).(clicks := mouseClicks);
        }
      }
    }

    method ProcessKeyboardData(k: RawKeyboard)
      modifies this
      ensures Snapshot() == KeyboardStep(old(Snapshot()), k).0
      ensures hwnd == old(hwnd) && hasCallback == old(hasCallback)
      ensures emitted == old(emitted) + Out(KeyboardStep(old(Snapshot()), k).1)
    {
      keyPresses := keyPresses + 1;
      lastKey := Some(k.vKey);
      var keyState := if KeyWentDown(k.flags) then "Down" else "Up";
      var event := RawInput.Keyboard(k.vKey, k.makeCode, k.flags, keyState, keyPresses);
      if hasCallback {
        emitted := emitted + [event];
      }
    }

    method ProcessHidData(h: RawHid, device: nat)
      modifies this
      ensures Snapshot() == HidStep(old(Snapshot()), device, h).0
      ensures hwnd == old(hwnd) && hasCallback == old(hasCallback)
      ensures emitted == old(emitted) + Out(HidStep(old(Snapshot()), device, h).1)
    {
      hidDataCount := hidDataCount + 1;
      var rawBytes, raised := ExtractRawBytes(h);
      if raised {
        return;
      }
      var hexData := Text.HexData(rawBytes);
      var event := RawInput.Hid(device, h.dwSizeHid, h.dwCount, rawBytes, hexData, hidDataCount);
      if hasCallback {
        emitted := emitted + [event];
      }
    }

    method ProcessRawInput(f: Fetch)
      modifies this
      ensures Snapshot() == InputStep(old(Snapshot()), f).0
      ensures hwnd == old(hwnd) && hasCallback == old(hasCallback)
      ensures emitted == old(emitted) + Out(InputStep(old(Snapshot()), f).1)
    {
      var result := f.fetched;
      if result != f.queried {
        return;
      }
      match f.report
      case MouseReport(m) => ProcessMouseData(m);
      case KeyboardReport(k) => ProcessKeyboardData(k);
      case HidReport(device, h) => ProcessHidData(h, device);
      case OtherReport(_) =>
    }
  }
}
