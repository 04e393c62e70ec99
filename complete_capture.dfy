/**
 * The CompleteRawInputCapture of complete_raw_input.py: one all-or-nothing
 * registration of mouse and keyboard, a window procedure that decodes
 * WM_INPUT and clears `running` on WM_CLOSE/WM_DESTROY, the blocking
 * GetMessage loop, and the lower-case button decoder and key-name table.
 */
module CompleteRawInput {
  import opened Options
  import opened Wire
  import opened Text
  import opened RawReport
  import Bounded
  import RawInput

  // ---------------------------------------------------------------------
  // decode_mouse_button

  /** The decoded button; only the wheel result carries a `data` entry. */
  datatype ButtonInfo = ButtonInfo(button: string, action: string, data: Option<int>)

  function LowerButtonName(b: Button): string {
    match b
    case Left => "left"
    case Right => "right"
    case Middle => "middle"
  }

  function LowerStateName(t: Transition): string {
    match t
    case Down => "down"
    case Up => "up"
  }

  /** The spellings here are the rawInput.py ones lower-cased. */
  lemma SpellingsAreLowered(b: Button, t: Transition)
    ensures LowerButtonName(b) == Lower(RawInput.ButtonName(b))
    ensures LowerStateName(t) == Lower(RawInput.StateName(t))
  {
  }

  /**
   * The first match among left-down, left-up, right-down, right-up,
   * middle-down, middle-up and wheel; unknown/unknown when none is set.
   * A wheel delta is the field read as signed 16-bit, and the action is
   * "up" exactly when that delta is positive.
   */
  function DecodeMouseButton(flags: bv16, buttonData: bv16): (r: ButtonInfo)
    ensures r.data.Some? <==> MatchButton(flags).None? && Has(flags, RI_MOUSE_WHEEL)
    ensures MatchButton(flags).Some? ==>
      r == ButtonInfo(LowerButtonName(MatchButton(flags).value.button), LowerStateName(MatchButton(flags).value.transition), None)
    ensures r.data.Some? ==>
      && r.button == "wheel" && r.data.value == Signed16(buttonData)
      && (r.action == "up" <==> Signed16(buttonData) > 0)
      && (r.action == "down" <==> Signed16(buttonData) <= 0)
    ensures MatchButton(flags).None? && !Has(flags, RI_MOUSE_WHEEL) ==> r == ButtonInfo("unknown", "unknown", None)
  {
    match MatchButton(flags)
    case Some(b) => ButtonInfo(LowerButtonName(b.button), LowerStateName(b.transition), None)
    case None =>
      if Has(flags, RI_MOUSE_WHEEL) then
        var delta := Signed16(buttonData);
        ButtonInfo("wheel", if delta > 0 then "up" else "down", Some(delta))
      else
        ButtonInfo("unknown", "unknown", None)
  }

  /** `button_info.get('data', 0)` */
  function DataOrZero(info: ButtonInfo): int {
    match info.data
    case Some(d) => d
    case None => 0
  }

  /** Only the wheel result has a non-zero data value, and it lies in the signed 16-bit range. */
  lemma DataIsWheelDelta(flags: bv16, buttonData: bv16)
    ensures var info := DecodeMouseButton(flags, buttonData);
      -0x8000 <= DataOrZero(info) < 0x8000 && (DataOrZero(info) != 0 ==> info.button == "wheel")
  {
  }

  // ---------------------------------------------------------------------
  // get_key_name

  const KEY_NAMES: map<int, string> := map[
    0x08 := "Backspace", 0x09 := "Tab", 0x0D := "Enter", 0x10 := "Shift",
    0x11 := "Ctrl", 0x12 := "Alt", 0x1B := "Escape", 0x20 := "Space",
    0x25 := "Left", 0x26 := "Up", 0x27 := "Right", 0x28 := "Down",
    0x2E := "Delete", 0x70 := "F1", 0x71 := "F2", 0x72 := "F3", 0x73 := "F4"]

  predicate IsDigitOrLetterKey(vkey: int) {
    0x30 <= vkey <= 0x39 || 0x41 <= vkey <= 0x5A
  }

  /** The readable name of a virtual key: table, then the character itself, then `VK_` and hex. */
  function GetKeyName(vkey: u16): string {
    if vkey in KEY_NAMES then KEY_NAMES[vkey]
    else if 0x30 <= vkey <= 0x39 then [vkey as char]
    else if 0x41 <= vkey <= 0x5A then [vkey as char]
    else "VK_" + FormatHex(vkey, 2)
  }

  /**
   * What a name says about its key: table names are the table's, digit and
   * letter keys name themselves in one character, and every other key is
   * `VK_` followed by at least two upper-case hex digits that parse back to
   * the key.
   */
  lemma KeyNameReadsBack(vkey: u16)
    ensures vkey in KEY_NAMES ==> GetKeyName(vkey) == KEY_NAMES[vkey]
    ensures IsDigitOrLetterKey(vkey) ==> GetKeyName(vkey) == [vkey as char]
    ensures vkey !in KEY_NAMES && !IsDigitOrLetterKey(vkey) ==>
      var name := GetKeyName(vkey);
      |name| >= 5 && name[..3] == "VK_" && AllHex(name[3..]) && ParseHex(name[3..]) == vkey
  {
    assert forall k | k in KEY_NAMES :: !IsDigitOrLetterKey(k);
    if vkey !in KEY_NAMES && !IsDigitOrLetterKey(vkey) {
      var digits := HexDigits(vkey);
      ParseHexPadded(if |digits| < 2 then 2 - |digits| else 0, digits);
      assert GetKeyName(vkey)[3..] == FormatHex(vkey, 2);
    }
  }

  /** No two table entries share a name. */
  lemma TableNamesAreDistinct(a: int, b: int)
    requires a in KEY_NAMES && b in KEY_NAMES && KEY_NAMES[a] == KEY_NAMES[b]
    ensures a == b
  {
  }

  /** A table name is longer than one character and does not start with `V`, as `VK_` names do. */
  lemma TableNamesStandApart(k: int)
    requires k in KEY_NAMES
    ensures |KEY_NAMES[k]| >= 2 && KEY_NAMES[k][0] != 'V'
  {
  }

  /** No two keys share a name. */
  lemma KeyNamesAreDistinct(a: u16, b: u16)
    requires GetKeyName(a) == GetKeyName(b)
    ensures a == b
  {
    KeyNameReadsBack(a);
    KeyNameReadsBack(b);
    if a in KEY_NAMES && b in KEY_NAMES {
      TableNamesAreDistinct(a, b);
    } else if a in KEY_NAMES {
      TableNamesStandApart(a);
    } else if b in KEY_NAMES {
      TableNamesStandApart(b);
    }
  }

  // ---------------------------------------------------------------------
  // Handlers, as functions of the counters before the report

  datatype Event =
    | MouseMove(deltaX: int, deltaY: int, totalX: int, totalY: int, moveCount: nat)
    | MouseButton(button: string, action: string, data: int, clickCount: nat)
    | Keyboard(vkey: u16, scanCode: u16, keyFlags: bv16, state: string, keyCount: nat)

  datatype Counters = Counters(moves: nat, clicks: nat, keys: nat, totalX: int, totalY: int)

  const ZERO: Counters := Counters(0, 0, 0, 0, 0)

  /** `handle_mouse_input` */
  function MouseStep(c: Counters, m: RawMouse): (r: (Counters, seq<Event>))
    ensures r.0 == Counters(c.moves + (if RawInput.Moved(m) then 1 else 0),
                            c.clicks + (if m.usButtonFlags != 0 then 1 else 0),
                            c.keys, c.totalX + m.lLastX, c.totalY + m.lLastY)
    ensures |r.1| == (if RawInput.Moved(m) then 1 else 0) + (if m.usButtonFlags != 0 then 1 else 0)
    ensures RawInput.Moved(m) ==> r.1[0] == MouseMove(m.lLastX, m.lLastY, r.0.totalX, r.0.totalY, r.0.moves)
    ensures m.usButtonFlags != 0 ==>
      var info := DecodeMouseButton(m.usButtonFlags, m.usButtonData);
      r.1[|r.1| - 1] == MouseButton(info.button, info.action, DataOrZero(info), r.0.clicks)
  {
    var c1 := if RawInput.Moved(m) then c.(moves := c.moves + 1, totalX := c.totalX + m.lLastX, totalY := c.totalY + m.lLastY) else c;
    var moves := if RawInput.Moved(m) then [MouseMove(m.lLastX, m.lLastY, c1.totalX, c1.totalY, c1.moves)] else [];
    if m.usButtonFlags == 0 then (c1, moves)
    else
      var c2 := c1.(clicks := c1.clicks + 1);
      var info := DecodeMouseButton(m.usButtonFlags, m.usButtonData);
      (c2, moves + [MouseButton(info.button, info.action, DataOrZero(info), c2.clicks)])
  }

  /** `handle_keyboard_input`: every report counts; "down" iff bit 0 of Flags is clear. */
  function KeyboardStep(c: Counters, k: RawKeyboard): (r: (Counters, seq<Event>))
    ensures r.0 == c.(keys := c.keys + 1)
    ensures |r.1| == 1 && r.1[0].Keyboard? && r.1[0].vkey == k.vKey && r.1[0].keyCount == r.0.keys
    ensures r.1[0].state == "down" <==> k.flags & 0x01 == 0
    ensures r.1[0].state == "up" <==> k.flags & 0x01 != 0
    ensures r.1[0].scanCode == k.makeCode && r.1[0].keyFlags == k.flags
  {
    var c1 := c.(keys := c.keys + 1);
    var state := if KeyWentDown(k.flags) then "down" else "up";
    (c1, [Keyboard(k.vKey, k.makeCode, k.flags, state, c1.keys)])
  }

  /** `handle_raw_input`: a short fetch is dropped; HID and other reports are ignored. */
  function InputStep(c: Counters, f: Fetch): (r: (Counters, seq<Event>))
    ensures f.fetched != f.queried ==> r == (c, [])
    ensures f.report.HidReport? || f.report.OtherReport? ==> r == (c, [])
  {
    if f.fetched != f.queried then (c, [])
    else
      match f.report
      case MouseReport(m) => MouseStep(c, m)
      case KeyboardReport(k) => KeyboardStep(c, k)
      case _ => (c, [])
  }

  function Feed(c: Counters, fs: seq<Fetch>): (Counters, seq<Event>)
    decreases |fs|
  {
    if fs == [] then (c, [])
    else
      var prev := Feed(c, fs[..|fs| - 1]);
      var step := InputStep(prev.0, fs[|fs| - 1]);
      (step.0, prev.1 + step.1)
  }

  /** The reports `handle_raw_input` decodes, in order. */
  function Decoded(fs: seq<Fetch>): seq<Report>
    decreases |fs|
  {
    if fs == [] then []
    else
      var f := fs[|fs| - 1];
      Decoded(fs[..|fs| - 1]) + (if f.fetched == f.queried then [f.report] else [])
  }

  predicate MovedReport(r: Report) {
    r.MouseReport? && RawInput.Moved(r.mouse)
  }

  /**
   * `mouse_moves` counts the decoded mouse reports with a non-zero delta,
   * the totals sum the deltas, `mouse_clicks` counts the reports with any
   * button flag and `key_presses` the keyboard reports.
   */
  lemma {:induction false} FeedTallies(c: Counters, fs: seq<Fetch>)
    ensures var r := Feed(c, fs).0; var rs := Decoded(fs);
      && r.moves == c.moves + RawInput.Count(rs, MovedReport)
      && r.clicks == c.clicks + RawInput.Count(rs, RawInput.Clicked)
      && r.keys == c.keys + RawInput.Count(rs, RawInput.IsKeyboard)
      && r.totalX == c.totalX + RawInput.Sum(rs, RawInput.Dx)
      && r.totalY == c.totalY + RawInput.Sum(rs, RawInput.Dy)
    decreases |fs|
  {
    if fs != [] {
      var init := fs[..|fs| - 1];
      var f := fs[|fs| - 1];
      FeedTallies(c, init);
      var rs := Decoded(init);
      if f.fetched == f.queried {
        var rs' := rs + [f.report];
        assert Decoded(fs) == rs';
        assert rs'[..|rs'| - 1] == rs;
      } else {
        assert Decoded(fs) == rs;
      }
    }
  }

  lemma FeedSnoc(c: Counters, fs: seq<Fetch>, f: Fetch)
    ensures Feed(c, fs + [f]) == (InputStep(Feed(c, fs).0, f).0, Feed(c, fs).1 + InputStep(Feed(c, fs).0, f).1)
  {
    assert (fs + [f])[..|fs|] == fs;
  }

  lemma FeedSingle(c: Counters, f: Fetch)
    ensures Feed(c, [f]) == InputStep(c, f)
  {
    assert [f][..0] == [];
    var step := InputStep(c, f);
    assert [] + step.1 == step.1;
  }

  lemma FeedOneMore(c: Counters, a: seq<Fetch>, b: seq<Fetch>)
    requires |b| <= 1
    ensures var mid := Feed(c, a);
      Feed(c, a + b) == (Feed(mid.0, b).0, mid.1 + Feed(mid.0, b).1)
  {
    var mid := Feed(c, a);
    if b == [] {
      assert a + b == a;
      assert Feed(mid.0, b) == (mid.0, []);
      assert mid.1 + [] == mid.1;
    } else {
      var f := b[0];
      assert b == [f];
      FeedSnoc(c, a, f);
      FeedSingle(mid.0, f);
    }
  }

  // ---------------------------------------------------------------------
  // The GetMessage loop's input

  /**
   * One GetMessageW call: its return value, the message it filled in, what
   * GetRawInputData answers for that message's lParam, and what
   * DefWindowProcW would return for it.
   */
  datatype Got = Got(bRet: int, message: u32, fetch: Fetch, defaultResult: int)

  /** A message the loop translates and dispatches to the window procedure. */
  predicate Dispatches(g: Got) {
    g.bRet != 0 && g.bRet != -1
  }

  predicate Closes(message: u32) {
    message == WM_CLOSE || message == WM_DESTROY
  }

  function GotFetches(g: Got): seq<Fetch> {
    if Dispatches(g) && g.message == WM_INPUT then [g.fetch] else []
  }

  function GotDefaulted(g: Got): seq<u32> {
    if Dispatches(g) && g.message != WM_INPUT && !Closes(g.message) then [g.message] else []
  }

  function InputFetches(gets: seq<Got>): seq<Fetch>
    decreases |gets|
  {
    if gets == [] then [] else InputFetches(gets[..|gets| - 1]) + GotFetches(gets[|gets| - 1])
  }

  function Defaulted(gets: seq<Got>): seq<u32>
    decreases |gets|
  {
    if gets == [] then [] else Defaulted(gets[..|gets| - 1]) + GotDefaulted(gets[|gets| - 1])
  }

  /** A call after which the loop does not continue. */
  predicate EndsLoop(g: Got) {
    !Dispatches(g) || Closes(g.message)
  }

  ghost predicate Consumed(start: Counters, e0: seq<Event>, d0: seq<u32>, cb: bool, prefix: seq<Got>,
                           c: Counters, e: seq<Event>, d: seq<u32>)
  {
    var fed := Feed(start, InputFetches(prefix));
    c == fed.0 && e == e0 + (if cb then fed.1 else []) && d == d0 + Defaulted(prefix)
  }

  lemma ConsumedStep(start: Counters, e0: seq<Event>, d0: seq<u32>, cb: bool, prefix: seq<Got>, g: Got,
                     c: Counters, e: seq<Event>, d: seq<u32>)
    requires Consumed(start, e0, d0, cb, prefix, c, e, d)
    ensures var step := Feed(c, GotFetches(g));
      Consumed(start, e0, d0, cb, prefix + [g], step.0, e + (if cb then step.1 else []), d + GotDefaulted(g))
  {
    assert (prefix + [g])[..|prefix|] == prefix;
    var a, b := InputFetches(prefix), GotFetches(g);
    FeedOneMore(start, a, b);
    var fed := Feed(start, a);
    var step := Feed(c, b);
    assert Feed(start, a + b) == (step.0, fed.1 + step.1);
    if cb {
      Bounded.AppendAssociates(e0, fed.1, step.1);
    } else {
      assert e + [] == e0 + [];
    }
    Bounded.AppendAssociates(d0, Defaulted(prefix), GotDefaulted(g));
  }

  class CompleteRawInputCapture {
    var hwnd: Option<nat>
    var running: bool
    var hasCallback: bool
    var mouseMoves: nat
    var mouseClicks: nat
    var keyPresses: nat
    var totalX: int
    var totalY: int
    var emitted: seq<Event>
    /** Messages handed on to DefWindowProcW. */
    var defaulted: seq<u32>

    function Snapshot(): Counters
      reads this
    {
      Counters(mouseMoves, mouseClicks, keyPresses, totalX, totalY)
    }

    function Out(events: seq<Event>): seq<Event>
      reads this
    {
      if hasCallback then events else []
    }

    constructor ()
      ensures Snapshot() == ZERO && hwnd == None && !running && !hasCallback
      ensures emitted == [] && defaulted == []
    {
      hwnd, running, hasCallback := None, false, false;
      mouseMoves, mouseClicks, keyPresses, totalX, totalY := 0, 0, 0, 0, 0;
      emitted, defaulted := [], [];
    }

    method SetCallback()
      modifies this
      ensures hasCallback && Snapshot() == old(Snapshot()) && running == old(running) && hwnd == old(hwnd)
      ensures emitted == old(emitted) && defaulted == old(defaulted)
    {
      hasCallback := true;
    }

    /**
     * `register_raw_input`: one call registering mouse and keyboard
     * together, so both are registered or neither. The method has no
     * exception handler: a raising call leaves it (None here).
     */
    method RegisterRawInput(outcome: Outcome) returns (result: Option<bool>, devices: seq<RawInputDevice>)
      ensures devices == [RawInputDevice(USAGE_PAGE_GENERIC_DESKTOP, USAGE_MOUSE, RIDEV_INPUTSINK, hwnd),
                          RawInputDevice(USAGE_PAGE_GENERIC_DESKTOP, USAGE_KEYBOARD, RIDEV_INPUTSINK, hwnd)]
      ensures result == Some(true) <==> outcome == Succeeded
      ensures result == None <==> outcome == Raised
    {
      devices := [RawInputDevice(USAGE_PAGE_GENERIC_DESKTOP, USAGE_MOUSE, RIDEV_INPUTSINK, hwnd),
                  RawInputDevice(USAGE_PAGE_GENERIC_DESKTOP, USAGE_KEYBOARD, RIDEV_INPUTSINK, hwnd)];
      match outcome
      case Succeeded => result := Some(true);
      case Failed => result := Some(false);
      case Raised => result := None;
    }

    method HandleMouseInput(m: RawMouse)
      modifies this
      ensures Snapshot() == MouseStep(old(Snapshot()), m).0
      ensures hwnd == old(hwnd) && running == old(running) && hasCallback == old(hasCallback) && defaulted == old(defaulted)
      ensures emitted == old(emitted) + Out(MouseStep(old(Snapshot()), m).1)
    {
      var events: seq<Event> := [];
      if m.lLastX != 0 || m.lLastY != 0 {
        mouseMoves := mouseMoves + 1;
        totalX := totalX + m.lLastX;
        totalY := totalY + m.lLastY;
        var move := MouseMove(m.lLastX, m.lLastY, totalX, totalY, mouseMoves);
        events := events + [move];
      }
      if m.usButtonFlags != 0 {
        mouseClicks := mouseClicks + 1;
        var info := DecodeMouseButton(m.usButtonFlags, m.usButtonData);
        var button := MouseButton(info.button, info.action, DataOrZero(info), mouseClicks);
        events := events + [button];
      }
      if hasCallback {
        emitted := emitted + events;
      }
    }

    method HandleKeyboardInput(k: RawKeyboard)
      modifies this
      ensures Snapshot() == KeyboardStep(old(Snapshot()), k).0
      ensures hwnd == old(hwnd) && running == old(running) && hasCallback == old(hasCallback) && defaulted == old(defaulted)
      ensures emitted == old(emitted) + Out(KeyboardStep(old(Snapshot()), k).1)
    {
      keyPresses := keyPresses + 1;
      var keyState := if KeyWentDown(k.flags) then "down" else "up";
      var event := Keyboard(k.vKey, k.makeCode, k.flags, keyState, keyPresses);
      if hasCallback {
        emitted := emitted + [event];
      }
    }

    method HandleRawInput(f: Fetch)
      modifies this
      ensures Snapshot() == InputStep(old(Snapshot()), f).0
      ensures hwnd == old(hwnd) && running == old(running) && hasCallback == old(hasCallback) && defaulted == old(defaulted)
      ensures emitted == old(emitted) + Out(InputStep(old(Snapshot()), f).1)
    {
      var result := f.fetched;
      if result != f.queried {
        return;
      }
      match f.report {
        case MouseReport(m) => HandleMouseInput(m);
        case KeyboardReport(k) => HandleKeyboardInput(k);
        case HidReport(_, _) =>
        case OtherReport(_) =>
      }
    }

    /**
     * `window_proc`: WM_INPUT is decoded and answered 0; WM_CLOSE and
     * WM_DESTROY clear `running` and are answered 0; anything else gets
     * DefWindowProcW's answer.
     */
    method WindowProc(message: u32, fetch: Fetch, defaultResult: int) returns (lresult: int)
      modifies this
      ensures message == WM_INPUT || Closes(message) ==> lresult == 0
      ensures message != WM_INPUT && !Closes(message) ==> lresult == defaultResult
      ensures running == (old(running) && !Closes(message))
      ensures hwnd == old(hwnd) && hasCallback == old(hasCallback)
      ensures Snapshot() == Feed(old(Snapshot()), if message == WM_INPUT then [fetch] else []).0
      ensures emitted == old(emitted) + Out(Feed(old(Snapshot()), if message == WM_INPUT then [fetch] else []).1)
      ensures defaulted == old(defaulted) + (if message != WM_INPUT && !Closes(message) then [message] else [])
    {
      if message == WM_INPUT {
        FeedSingle(Snapshot(), fetch);
        HandleRawInput(fetch);
        return 0;
      } else if message == WM_CLOSE || message == WM_DESTROY {
        running := false;
        return 0;
      } else {
        defaulted := defaulted + [message];
        return defaultResult;
      }
    }

    /** One GetMessageW call and, unless it returned 0 or -1, its dispatch. */
    method GetAndDispatch(g: Got) returns (stop: bool)
      modifies this
      ensures stop == !Dispatches(g)
      ensures running == (old(running) && !(Dispatches(g) && Closes(g.message)))
      ensures hwnd == old(hwnd) && hasCallback == old(hasCallback)
      ensures Snapshot() == Feed(old(Snapshot()), GotFetches(g)).0
      ensures emitted == old(emitted) + Out(Feed(old(Snapshot()), GotFetches(g)).1)
      ensures defaulted == old(defaulted) + GotDefaulted(g)
    {
      if g.bRet == 0 || g.bRet == -1 {
        return true;
      }
      var _ := WindowProc(g.message, g.fetch, g.defaultResult);
      stop := false;
    }

    /**
     * `run_message_loop`: sets `running` and dispatches until GetMessageW
     * returns 0 (WM_QUIT) or -1 (error), or a dispatched message cleared
     * `running`. `gets` are the successive GetMessageW results.
     */
    method RunMessageLoop(gets: seq<Got>) returns (consumed: nat)
      modifies this
      ensures consumed <= |gets|
      ensures forall j :: 0 <= j < consumed - 1 ==> !EndsLoop(gets[j])
      ensures consumed < |gets| ==> 0 < consumed && EndsLoop(gets[consumed - 1])
      ensures !running <==> 0 < consumed && Dispatches(gets[consumed - 1]) && Closes(gets[consumed - 1].message)
      ensures Snapshot() == Feed(old(Snapshot()), InputFetches(gets[..consumed])).0
      ensures emitted == old(emitted) + Out(Feed(old(Snapshot()), InputFetches(gets[..consumed])).1)
      ensures defaulted == old(defaulted) + Defaulted(gets[..consumed])
    {
      running := true;
      consumed := MessageLoop(gets);
    }

    /** The `while self.running` loop of `run_message_loop`. */
    method MessageLoop(gets: seq<Got>) returns (consumed: nat)
      requires running
      modifies this
      ensures consumed <= |gets|
      ensures forall j :: 0 <= j < consumed - 1 ==> !EndsLoop(gets[j])
      ensures consumed < |gets| ==> 0 < consumed && EndsLoop(gets[consumed - 1])
      ensures !running <==> 0 < consumed && Dispatches(gets[consumed - 1]) && Closes(gets[consumed - 1].message)
      ensures Snapshot() == Feed(old(Snapshot()), InputFetches(gets[..consumed])).0
      ensures emitted == old(emitted) + Out(Feed(old(Snapshot()), InputFetches(gets[..consumed])).1)
      ensures defaulted == old(defaulted) + Defaulted(gets[..consumed])
    {
      ghost var start := Snapshot();
      ghost var emittedBefore := emitted;
      ghost var defaultedBefore := defaulted;
      var i := 0;
      var quit := false;
      while running && !quit && i < |gets|
        invariant 0 <= i <= |gets|
        invariant forall j :: 0 <= j < i - 1 ==> !EndsLoop(gets[j])
        invariant running && !quit ==> forall j :: 0 <= j < i ==> !EndsLoop(gets[j])
        invariant !(running && !quit) ==> 0 < i && EndsLoop(gets[i - 1])
        invariant !running <==> 0 < i && Dispatches(gets[i - 1]) && Closes(gets[i - 1].message)
        invariant hasCallback == old(hasCallback)
        invariant Consumed(start, emittedBefore, defaultedBefore, hasCallback, gets[..i], Snapshot(), emitted, defaulted)
        decreases |gets| - i
      {
        quit := TrackedGetAndDispatch(start, emittedBefore, defaultedBefore, gets, i);
        i := i + 1;
      }
      consumed := i;
    }

    /** Pass `i` of the loop, keeping the record of what the loop has consumed. */
    method TrackedGetAndDispatch(ghost start: Counters, ghost e0: seq<Event>, ghost d0: seq<u32>,
                                 gets: seq<Got>, i: nat) returns (stop: bool)
      requires i < |gets|
      requires Consumed(start, e0, d0, hasCallback, gets[..i], Snapshot(), emitted, defaulted)
      modifies this
      ensures Consumed(start, e0, d0, hasCallback, gets[..i + 1], Snapshot(), emitted, defaulted)
      ensures stop == !Dispatches(gets[i])
      ensures running == (old(running) && !(Dispatches(gets[i]) && Closes(gets[i].message))) && hasCallback == old(hasCallback)
    {
      assert gets[..i + 1] == gets[..i] + [gets[i]];
      ConsumedStep(start, e0, d0, hasCallback, gets[..i], gets[i], Snapshot(), emitted, defaulted);
      stop := GetAndDispatch(gets[i]);
    }
  }
}
