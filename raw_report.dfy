/**
 * The decoded shape of one RAWINPUT report, the answers of the two-phase
 * GetRawInputData call, and the other values the Win32 calls hand back.
 * The header type field and the data union become one tagged datatype.
 */
module RawReport {
  import opened Options
  import opened Wire

  /** RAWMOUSE: the fields the readers consult. */
  datatype RawMouse = RawMouse(usFlags: u16, usButtonFlags: bv16, usButtonData: bv16, lLastX: i32, lLastY: i32)

  /** RAWKEYBOARD: the fields the readers consult. */
  datatype RawKeyboard = RawKeyboard(makeCode: u16, flags: bv16, vKey: u16)

  /**
   * RAWHID. `bRawData` holds the elements that indexing through the ctypes
   * field reaches; the readers all declare that field as a one-element
   * signed-byte array.
   */
  datatype RawHid = RawHid(dwSizeHid: u32, dwCount: u32, bRawData: seq<i8>)

  const DECLARED_RAW_DATA_LENGTH: nat := 1

  /** A `dwType` other than RIM_TYPEMOUSE (0), RIM_TYPEKEYBOARD (1) and RIM_TYPEHID (2). */
  type OtherType = t: u32 | t > 2 witness 3

  datatype Report =
    | MouseReport(mouse: RawMouse)
    | KeyboardReport(keyboard: RawKeyboard)
    | HidReport(hDevice: nat, hid: RawHid)
    | OtherReport(dwType: OtherType)

  /**
   * What GetRawInputData answered for one WM_INPUT message: the size the
   * size query wrote back, the return value of the fetch call (-1 on
   * failure), and the report the fetched buffer decodes to.
   */
  datatype Fetch = Fetch(queried: u32, fetched: i32, report: Report)

  /** How one RegisterRawInputDevices call ended. */
  datatype Outcome = Succeeded | Failed | Raised

  /** RAWINPUTDEVICE: usage page, usage, flags and target window (None for NULL). */
  datatype RawInputDevice = RawInputDevice(usUsagePage: u16, usUsage: u16, dwFlags: u32, hwndTarget: Option<nat>)
}
