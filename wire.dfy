/**
 * Wire-level vocabulary shared by the three raw-input readers (rawInput.py,
 * improved_raw_input.py, complete_raw_input.py): the integer widths of the
 * Win32 fields, the message and flag constants, the first-match button
 * decoding and the signed reinterpretation of the wheel field.
 */
module Wire {
  import opened Options

  type u8 = x: int | 0 <= x < 0x100
  type i8 = x: int | -0x80 <= x < 0x80
  type u16 = x: int | 0 <= x < 0x1_0000
  type u32 = x: int | 0 <= x < 0x1_0000_0000
  type i32 = x: int | -0x8000_0000 <= x < 0x8000_0000

  // Window messages
  const WM_DESTROY: int := 0x0002
  const WM_CLOSE: int := 0x0010
  const WM_INPUT: int := 0x00FF

  // RAWINPUTDEVICE.dwFlags
  const RIDEV_INPUTSINK: u32 := 0x0000_0100
  const RIDEV_NOLEGACY: u32 := 0x0000_0030

  // HID usages on the Generic Desktop page
  const USAGE_PAGE_GENERIC_DESKTOP: u16 := 0x01
  const USAGE_MOUSE: u16 := 0x02
  const USAGE_KEYBOARD: u16 := 0x06

  // RAWMOUSE.usButtonFlags
  const RI_MOUSE_LEFT_BUTTON_DOWN: bv16 := 0x0001
  const RI_MOUSE_LEFT_BUTTON_UP: bv16 := 0x0002
  const RI_MOUSE_RIGHT_BUTTON_DOWN: bv16 := 0x0004
  const RI_MOUSE_RIGHT_BUTTON_UP: bv16 := 0x0008
  const RI_MOUSE_MIDDLE_BUTTON_DOWN: bv16 := 0x0010
  const RI_MOUSE_MIDDLE_BUTTON_UP: bv16 := 0x0020
  const RI_MOUSE_WHEEL: bv16 := 0x0400

  predicate Has(flags: bv16, mask: bv16) {
    flags & mask != 0
  }

  datatype Button = Left | Right | Middle
  datatype Transition = Down | Up

  /** One row of the button decoding table: the bit and what it means. */
  datatype ButtonBit = ButtonBit(mask: bv16, button: Button, transition: Transition)

  /** The six button bits in the order every reader tests them. */
  const BUTTON_PRIORITY: seq<ButtonBit> := [
    ButtonBit(RI_MOUSE_LEFT_BUTTON_DOWN, Left, Down),
    ButtonBit(RI_MOUSE_LEFT_BUTTON_UP, Left, Up),
    ButtonBit(RI_MOUSE_RIGHT_BUTTON_DOWN, Right, Down),
    ButtonBit(RI_MOUSE_RIGHT_BUTTON_UP, Right, Up),
    ButtonBit(RI_MOUSE_MIDDLE_BUTTON_DOWN, Middle, Down),
    ButtonBit(RI_MOUSE_MIDDLE_BUTTON_UP, Middle, Up)
  ]

  /** Reference definition: the first row of `table` whose bit is set in `flags`. */
  function FirstMatch(flags: bv16, table: seq<ButtonBit>): Option<ButtonBit> {
    if table == [] then None
    else if Has(flags, table[0].mask) then Some(table[0])
    else FirstMatch(flags, table[1..])
  }

  lemma {:induction false} FirstMatchIsFirst(flags: bv16, table: seq<ButtonBit>)
    ensures FirstMatch(flags, table).None? <==>
      forall k :: 0 <= k < |table| ==> !Has(flags, table[k].mask)
    ensures FirstMatch(flags, table).Some? ==>
      exists k :: 0 <= k < |table| && FirstMatch(flags, table) == Some(table[k]) &&
        Has(flags, table[k].mask) && forall j :: 0 <= j < k ==> !Has(flags, table[j].mask)
  {
    if table != [] && !Has(flags, table[0].mask) {
      FirstMatchIsFirst(flags, table[1..]);
      if FirstMatch(flags, table).Some? {
        var k :| 0 <= k < |table[1..]| && FirstMatch(flags, table[1..]) == Some(table[1..][k]) &&
          Has(flags, table[1..][k].mask) && forall j :: 0 <= j < k ==> !Has(flags, table[1..][j].mask);
        assert table[k + 1] == table[1..][k];
        assert forall j :: 0 <= j < k + 1 ==> !Has(flags, table[j].mask) by {
          forall j | 0 <= j < k + 1 ensures !Has(flags, table[j].mask) {
            if j > 0 { assert table[j] == table[1..][j - 1]; }
          }
        }
      } else {
        forall k | 0 <= k < |table| ensures !Has(flags, table[k].mask) {
          if k > 0 { assert table[k] == table[1..][k - 1]; }
        }
      }
    }
  }

  /** FirstMatch over the button table, one row at a time. */
  lemma ButtonTableUnfolds(flags: bv16)
    ensures FirstMatch(flags, BUTTON_PRIORITY) ==
      if Has(flags, BUTTON_PRIORITY[0].mask) then Some(BUTTON_PRIORITY[0]) else FirstMatch(flags, BUTTON_PRIORITY[1..])
    ensures FirstMatch(flags, BUTTON_PRIORITY[1..]) ==
      if Has(flags, BUTTON_PRIORITY[1].mask) then Some(BUTTON_PRIORITY[1]) else FirstMatch(flags, BUTTON_PRIORITY[2..])
    ensures FirstMatch(flags, BUTTON_PRIORITY[2..]) ==
      if Has(flags, BUTTON_PRIORITY[2].mask) then Some(BUTTON_PRIORITY[2]) else FirstMatch(flags, BUTTON_PRIORITY[3..])
    ensures FirstMatch(flags, BUTTON_PRIORITY[3..]) ==
      if Has(flags, BUTTON_PRIORITY[3].mask) then Some(BUTTON_PRIORITY[3]) else FirstMatch(flags, BUTTON_PRIORITY[4..])
    ensures FirstMatch(flags, BUTTON_PRIORITY[4..]) ==
      if Has(flags, BUTTON_PRIORITY[4].mask) then Some(BUTTON_PRIORITY[4]) else FirstMatch(flags, BUTTON_PRIORITY[5..])
    ensures FirstMatch(flags, BUTTON_PRIORITY[5..]) ==
      if Has(flags, BUTTON_PRIORITY[5].mask) then Some(BUTTON_PRIORITY[5]) else FirstMatch(flags, BUTTON_PRIORITY[6..])
    ensures FirstMatch(flags, BUTTON_PRIORITY[6..]) == None
  {
    var t := BUTTON_PRIORITY;
    assert t[1..][1..] == t[2..];
    assert t[2..][1..] == t[3..];
    assert t[3..][1..] == t[4..];
    assert t[4..][1..] == t[5..];
    assert t[5..][1..] == t[6..];
    assert t[6..] == [];
  }

  /**
   * The if/elif chain of button tests the readers share: left-down,
   * left-up, right-down, right-up, middle-down, middle-up. It agrees with
   * the table search, so exactly the first set bit is honoured.
   */
  function MatchButton(flags: bv16): (r: Option<ButtonBit>)
    ensures r == FirstMatch(flags, BUTTON_PRIORITY)
  {
    ButtonTableUnfolds(flags);
    if Has(flags, RI_MOUSE_LEFT_BUTTON_DOWN) then Some(ButtonBit(RI_MOUSE_LEFT_BUTTON_DOWN, Left, Down))
    else if Has(flags, RI_MOUSE_LEFT_BUTTON_UP) then Some(ButtonBit(RI_MOUSE_LEFT_BUTTON_UP, Left, Up))
    else if Has(flags, RI_MOUSE_RIGHT_BUTTON_DOWN) then Some(ButtonBit(RI_MOUSE_RIGHT_BUTTON_DOWN, Right, Down))
    else if Has(flags, RI_MOUSE_RIGHT_BUTTON_UP) then Some(ButtonBit(RI_MOUSE_RIGHT_BUTTON_UP, Right, Up))
    else if Has(flags, RI_MOUSE_MIDDLE_BUTTON_DOWN) then Some(ButtonBit(RI_MOUSE_MIDDLE_BUTTON_DOWN, Middle, Down))
    else if Has(flags, RI_MOUSE_MIDDLE_BUTTON_UP) then Some(ButtonBit(RI_MOUSE_MIDDLE_BUTTON_UP, Middle, Up))
    else None
  }

  /** A report with both the left-down and the right-down bit decodes to left-down alone. */
  lemma LeftDownWinsOverRightDown(flags: bv16)
    requires Has(flags, RI_MOUSE_LEFT_BUTTON_DOWN) && Has(flags, RI_MOUSE_RIGHT_BUTTON_DOWN)
    ensures MatchButton(flags) == Some(BUTTON_PRIORITY[0])
  {
  }

  /**
   * `ctypes.c_short(v).value`: the 16-bit field read as two's complement.
   * The result is the only integer in the signed 16-bit range that agrees
   * with the raw field modulo 2^16.
   */
  function Signed16(v: bv16): (r: int)
    ensures -0x8000 <= r < 0x8000
    ensures (r - v as int) % 0x1_0000 == 0
    ensures r < 0 <==> v >= 0x8000
  {
    if v < 0x8000 then v as int else v as int - 0x1_0000
  }

  /** A wheel notch towards the user, 0xFF88, reads as -120, not 65416. */
  lemma WheelNotchIsNegative()
    ensures Signed16(0xFF88) == -120
  {
  }

  /** Bit 0 of RAWKEYBOARD.Flags (RI_KEY_BREAK) clear means the key went down. */
  predicate KeyWentDown(flags: bv16) {
    flags & 0x01 == 0
  }
}
