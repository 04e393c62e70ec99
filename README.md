# Raw mouse, keyboard and HID input trackers — a Dafny model

This project models the decoding and bookkeeping core of a set of Python
programs. They capture Windows Raw Input, track the mouse and touch
pointers, and probe HID devices:

- **Raw Input readers.**
  - `RawInputReader` (rawInput.py) registers devices through a five-step
    fallback ladder. It runs a PeekMessage loop, decodes every WM_INPUT
    report into mouse, keyboard or HID events, and keeps running counters.
  - `ImprovedRawInputReader` (improved_raw_input.py) is the two-step
    variant. It reports "Down"/"Up" key states and reports the wheel only
    when no button bit is set.
  - `CompleteRawInputCapture` (complete_raw_input.py) does one
    registration. Its window procedure stops the loop on WM_CLOSE or
    WM_DESTROY, its GetMessage loop ends on WM_QUIT or an error, it decodes
    buttons in lower case and it has a key-name table.
- **Mouse trackers.**
  - `AdvancedMouseTracker` drains a queue of raw events. It clamps the
    cursor to the screen, keeps a 30-sample trail and a 5000-point circular
    history, lays out a Plinko pin grid and animates fading effects.
  - `ModernMouseTracker` is the event-driven tracker with a 20-point
    trail, a 300-point circular history, the grow animation and a click
    effect.
  - `MouseCircleApp` (main.py) keeps a pulse animation, a 15-point trail
    and a 100-point timestamped position history. Its scratch copy
    (tempCodeRunnerFile.py) keeps only the pulse and the trail.
- **Kivy touch visualiser.** It records the active touch's positions and
  keeps a 20-point trail. A move caps the positions at 300, but a
  touch-down appends without a cap. It also maps keys to actions.
- **Simple HID monitor.** It polls the cursor and 16 virtual keys, counts
  rising edges and stops on Escape.
- **hidapi probe.** It classifies enumerated devices as mice, decodes
  3-byte boot reports and dumps reports as hex. When no device is a mouse,
  it groups the first 20 devices by usage page and usage. A name or usage
  that hidapi reports as None makes the probe fail.

Layout: one module per source file, plus shared modules.

- `Wire`: Win32 constants, the button priority table, 16-bit sign
  reinterpretation.
- `RawReport`: decoded reports as tagged values, never a memory overlay.
- `Text`: hex formatting and parsing, space joining, ASCII lower-casing,
  substring search.
- `Bounded`: append-then-drop-oldest lists.
- `Ring`: the circular history buffer as a class over an `array`.
- `Pulse`: the grow and pulse oscillators and fading effects.

Every reader and tracker class keeps its counters in fields that its
methods update. Each method's `ensures` ties the new state (`Snapshot()`)
to a step function of the old state and the input. The properties are
proved as lemmas about those step functions. Loops over a finite sequence
of polled messages stand for the endless message loops.

## Model

| member | source | states |
|---|---|---|
| Wire.FirstMatchIsFirst | rawInput.py:382-405 | the first-match scan finds nothing iff no table bit is set, and otherwise returns the earliest entry whose bit is set |
| Wire.MatchButton | rawInput.py:382-405 | the if/elif button chain is exactly a first-match scan over the priority table (left down, left up, right down, right up, middle down, middle up) |
| Wire.LeftDownWinsOverRightDown | rawInput.py:382-386 | a report with both left-down and right-down bits is reported as left down only |
| Wire.Signed16 | rawInput.py:373-374 | `c_short(usButtonData)` gives a value in [-32768, 32767] congruent to the field mod 2^16, and it is negative iff bit 15 is set |
| Wire.WheelNotchIsNegative | rawInput.py:373-375 | one notch towards the user (0xFF88) is read as -120 |
| Text.HexDigits | test.py:44 | the upper-case hex spelling parses back to the number and has no leading zero |
| Text.FormatHexRoundTrip | test.py:104-107 | `{:0NX}` of a number below 16^N has exactly N hex digits and parses back to the number |
| Text.Hex02RoundTrip | rawInput.py:449 | `{:02X}` of a byte is two hex digits that parse back to the byte |
| Text.JoinSpaceTokens | rawInput.py:449 | joining two-character tokens with spaces puts token k at offset 3k with a space after every token but the last |
| Text.Lower | test.py:33-34 | `.lower()` keeps the length, leaves no ASCII capital and maps each capital to its lower-case letter, changing nothing else |
| Text.Contains | test.py:37 | `sub in s` holds iff `sub` occurs at some offset of `s` |
| Text.HexTokens | test.py:66 | one `{:02X}` token per byte, in order |
| Text.HexDataRoundTrip | test.py:66 | the hex dump of a byte report has length 3n-1 and each token reads back as the byte it came from |
| Bounded.Last | modern_mouse_tracker.py:293-296 | keeping the newest n items leaves min(len, n) of them |
| Bounded.PushBoundedShape | modern_mouse_tracker.py:293-296 | append-then-pop(0) ends with the new item, keeps the newest old items, never exceeds the limit and only appends while under it |
| Bounded.PushAllKeepsNewest | advanced_mouse_tracker.py:240-244 | a run of bounded appends keeps exactly the newest `limit` items of the whole sequence |
| Bounded.PushOntoLast | kivy_touch_data.py:111-113 | one bounded append onto the newest items equals the newest items of the extended sequence |
| Bounded.LastOfSuffix | advanced_mouse_tracker.py:240-244 | trimming before appending more does not change the newest items afterwards |
| Ring.Advance | modern_mouse_tracker.py:284 | the write index wraps to `(index + 1) % capacity` and stays in range |
| Ring.RecordStep | modern_mouse_tracker.py:282-286 | writing at the index and advancing keeps the buffer, read oldest to newest, equal to the newest `capacity` recorded points |
| Ring.RecordNotFull | modern_mouse_tracker.py:282-286 | before the buffer fills, a write extends the `[:count]` slice by the new point |
| Ring.RecordFullAtEnd | modern_mouse_tracker.py:282-286 | a write in the last slot of a full buffer drops the oldest point |
| Ring.RecordFullInside | modern_mouse_tracker.py:282-286 | a write inside a full buffer drops the oldest point from the `[index:] + [:index]` reading |
| Ring.HistoryRing.Record | modern_mouse_tracker.py:282-286 | the recorded sequence gains the point, the index wraps and the count saturates at the capacity |
| Ring.HistoryRing.Reset | modern_mouse_tracker.py:230-234 | every slot is zeroed and count and index return to 0 |
| Ring.HistoryRing.Ordered | modern_mouse_tracker.py:338-348 | the chronological reading of the buffer is the newest `capacity` recorded points and has `count` entries |
| Pulse.GrowStepKeeps | modern_mouse_tracker.py:311-316 | one grow step moves the radius by 2 and keeps the direction/range invariant |
| Pulse.GrowBounded | modern_mouse_tracker.py:311-316 | from any state in the invariant, the grow radius stays within [18, 62] forever |
| Pulse.GrowStartBounded | modern_mouse_tracker.py:311-316 | from the initial radius 30 (growing), the grow radius stays within [18, 62] forever |
| Pulse.PulseStepKeeps | main.py:164-178 | one pulse step moves the radius by 2 in the current direction and keeps the invariant |
| Pulse.PulseBounded | main.py:164-178 | from any state in the invariant, the pulse radius stays within [28, 62] forever |
| Pulse.PulseStartBounded | main.py:164-178 | from the initial pulse state, the radius stays within [28, 62] forever |
| Pulse.FadeLifetime | modern_mouse_tracker.py:445-455 | an effect with lifetime L is drawn for exactly L frames, growing by `growth` each frame, and is then deleted |
| RawInput.Ladder | rawInput.py:186-303 | five mouse registrations: flags INPUTSINK, NOLEGACY, 0, INPUTSINK, 0; the first three target the window and the last two none |
| RawInput.RegisterDevices | rawInput.py:177-303 | it succeeds iff some rung succeeds; the calls made are a prefix of the ladder ending at the first success; on failure all five are tried |
| RawInput.ButtonNamesPriority | rawInput.py:382-405 | the result is ("Unknown", "Unknown") iff no button bit is set; otherwise it names the first set bit in priority order |
| RawInput.MouseStep | rawInput.py:348-408 | totals accumulate lLastX/lLastY; a move event is emitted iff there is motion; any button flags count a click and emit a wheel event (signed delta, running total) when the wheel bit is set, otherwise a button event |
| RawInput.KeyboardStep | rawInput.py:410-428 | the key counter increments and the last key is recorded; the one event carries the virtual key, the scan code (MakeCode), the flags and the new count, and its state is "down" iff bit 0 of the flags is clear |
| RawInput.ExtractRawBytes | rawInput.py:435-441 | the copy loop yields min(size*count, 64, field length) bytes, a prefix of bRawData |
| RawInput.Copied | rawInput.py:435-441 | at most 64 bytes are copied, and they are a prefix of the declared field |
| RawInput.CopiedWithinAnnounced | rawInput.py:435-437 | never more bytes than dwSizeHid * dwCount |
| RawInput.CopiedFromDeclaredField | rawInput.py:89-95 | with the one-byte `c_byte * 1` field, at most one byte is ever reported |
| RawInput.NegativeByteKeepsSign | rawInput.py:449 | a negative c_byte is formatted with a leading '-' and the hex magnitude, not as two hex digits |
| RawInput.HidStep | rawInput.py:430-455 | the HID counter increments; the one event carries the device handle, the announced size and count, the copied bytes, their hex dump and the new count |
| RawInput.InputStep | rawInput.py:305-346 | a fetch whose size query or read fails changes nothing; an accepted one increments the message counter; unknown report types emit nothing |
| RawInput.FeedTallies | rawInput.py:305-455 | after any message sequence: moves sum the deltas, clicks count flagged reports, the wheel total sums the signed deltas, keys/HID/messages count their reports and the last key is the last keyboard report |
| RawInput.RawInputReader.constructor | rawInput.py:127-145 | counters start at zero, not running, no callback |
| RawInput.RawInputReader.SetCallback | rawInput.py:146-148 | only the callback is installed |
| RawInput.RawInputReader.ProcessMouseData | rawInput.py:348-408 | new counters and emitted events are those of MouseStep |
| RawInput.RawInputReader.ProcessKeyboardData | rawInput.py:410-428 | new counters and emitted events are those of KeyboardStep |
| RawInput.RawInputReader.ProcessHidData | rawInput.py:430-455 | new counters and emitted events are those of HidStep |
| RawInput.RawInputReader.ProcessRawInput | rawInput.py:305-346 | new counters and emitted events are those of InputStep |
| RawInput.RawInputReader.Stop | rawInput.py:519-521 | clears `running` and nothing else |
| RawInput.RawInputReader.PollStep | rawInput.py:478-491 | one loop pass feeds the peeked WM_INPUT messages, passes other messages to Translate/Dispatch and stops on a stop request |
| RawInput.RawInputReader.Run | rawInput.py:457-517 | the loop consumes the polls up to and including the first stop request; counters and events equal feeding all WM_INPUT messages seen, and all other messages are dispatched in order |
| ImprovedRawInput.RegisterDevices | improved_raw_input.py:159-206 | with no window nothing is called; it succeeds iff the window is truthy, the mouse call succeeds and the keyboard call does not raise; the keyboard is tried only after the mouse succeeds |
| ImprovedRawInput.MouseStep | improved_raw_input.py:247-308 | like the basic reader, except that the wheel is reported only when no button bit matches |
| ImprovedRawInput.ButtonBitHidesWheel | improved_raw_input.py:281-299 | a report with a button bit and the wheel bit leaves the wheel total unchanged and ends with a button event |
| ImprovedRawInput.KeyboardStep | improved_raw_input.py:310-328 | the key counter increments; the one event carries the virtual key, the scan code, the flags and the new count, and its state is "Down" iff bit 0 is clear, "Up" otherwise |
| ImprovedRawInput.ExtractRawBytes | improved_raw_input.py:334-338 | the unchecked copy raises IndexError iff size*count exceeds the field; otherwise it returns the first min(size*count, 64) bytes |
| ImprovedRawInput.HidStep | improved_raw_input.py:330-351 | the HID counter always increments; an event is emitted iff the copy did not raise, and it carries the device handle, size, count, the copied bytes, their hex dump and the new count |
| ImprovedRawInput.DeclaredFieldLosesLongReports | improved_raw_input.py:336-338 | with the one-byte field, every report of two or more bytes is lost |
| ImprovedRawInput.InputStep | improved_raw_input.py:208-245 | a size mismatch or an unknown report type changes nothing |
| ImprovedRawInput.ZeroSizeIsDecoded | improved_raw_input.py:229-233 | a zero-size report is not rejected: it is still decoded and counted |
| ImprovedRawInput.ImprovedRawInputReader.constructor | improved_raw_input.py:98-115 | counters zero, no window, no callback |
| ImprovedRawInput.ImprovedRawInputReader.SetCallback | improved_raw_input.py:117-119 | only the callback is installed |
| ImprovedRawInput.ImprovedRawInputReader.ProcessMouseData | improved_raw_input.py:247-308 | new counters and events are those of MouseStep |
| ImprovedRawInput.ImprovedRawInputReader.ProcessKeyboardData | improved_raw_input.py:310-328 | new counters and events are those of KeyboardStep |
| ImprovedRawInput.ImprovedRawInputReader.ProcessHidData | improved_raw_input.py:330-351 | new counters and events are those of HidStep |
| ImprovedRawInput.ImprovedRawInputReader.ProcessRawInput | improved_raw_input.py:208-245 | new counters and events are those of InputStep |
| CompleteRawInput.SpellingsAreLowered | complete_raw_input.py:348-367 | the decoder's names are the lower-cased names of the other readers |
| CompleteRawInput.DecodeMouseButton | complete_raw_input.py:348-367 | wheel data is present iff no button bit matches and the wheel bit is set; a matching bit gives its button and action; otherwise "unknown" |
| CompleteRawInput.DataIsWheelDelta | complete_raw_input.py:329-335 | the `data` read back with a default of 0 is the signed wheel delta for wheel reports and 0 otherwise |
| CompleteRawInput.KeyNameReadsBack | complete_raw_input.py:390-406 | table keys give their name, digits and letters give their character, and anything else gives "VK_" plus the hex code |
| CompleteRawInput.TableNamesAreDistinct | complete_raw_input.py:392-400 | no two table entries share a name |
| CompleteRawInput.KeyNamesAreDistinct | complete_raw_input.py:390-406 | different virtual keys always get different names |
| CompleteRawInput.MouseStep | complete_raw_input.py:305-346 | moves count and totals accumulate on motion; flagged reports emit one decoded button event |
| CompleteRawInput.KeyboardStep | complete_raw_input.py:369-388 | the key counter increments; the one event carries the virtual key, scanCode, keyFlags and the new count, and its state is "down" iff bit 0 is clear |
| CompleteRawInput.InputStep | complete_raw_input.py:268-303 | a size mismatch, a HID report or an unknown report changes nothing |
| CompleteRawInput.FeedTallies | complete_raw_input.py:268-388 | after any message sequence, moves, totals, clicks and keys equal the counts and sums over the decoded reports |
| CompleteRawInput.CompleteRawInputCapture.constructor | complete_raw_input.py:131-153 | counters zero, no window, not running, no callback |
| CompleteRawInput.CompleteRawInputCapture.SetCallback | complete_raw_input.py:154-156 | only the callback is installed |
| CompleteRawInput.CompleteRawInputCapture.RegisterRawInput | complete_raw_input.py:236-266 | registers mouse and keyboard in one call; the result is true iff the call succeeds and None iff it raises |
| CompleteRawInput.CompleteRawInputCapture.HandleMouseInput | complete_raw_input.py:305-346 | new counters and events are those of MouseStep |
| CompleteRawInput.CompleteRawInputCapture.HandleKeyboardInput | complete_raw_input.py:369-388 | new counters and events are those of KeyboardStep |
| CompleteRawInput.CompleteRawInputCapture.HandleRawInput | complete_raw_input.py:268-303 | new counters and events are those of InputStep |
| CompleteRawInput.CompleteRawInputCapture.WindowProc | complete_raw_input.py:160-170 | WM_INPUT is decoded and returns 0; WM_CLOSE/WM_DESTROY clear `running` and return 0; anything else goes to the default procedure |
| CompleteRawInput.CompleteRawInputCapture.GetAndDispatch | complete_raw_input.py:417-428 | GetMessage returning 0 or -1 stops the loop; any other message is dispatched to the window procedure |
| CompleteRawInput.CompleteRawInputCapture.RunMessageLoop | complete_raw_input.py:408-430 | the loop runs up to the first WM_QUIT, error or close; state and events equal feeding the dispatched WM_INPUT messages; `running` is false iff a close was dispatched |
| AdvancedTracker.SetupPlinkoPins | advanced_mouse_tracker.py:605-620 | the pins are the staggered row-major grid clipped to the screen |
| AdvancedTracker.PlinkoGridMembers | advanced_mouse_tracker.py:605-620 | a pin is in the layout iff it is on screen and it is the pin of some row and column of the grid |
| AdvancedTracker.PlinkoGridRowMajor | advanced_mouse_tracker.py:607-620 | the pins are laid out row by row, left to right |
| AdvancedTracker.Clamp | advanced_mouse_tracker.py:222-224 | the cursor is clamped into [0, width] (and [0, height]) and left alone when inside |
| AdvancedTracker.DrainTallies | advanced_mouse_tracker.py:169-269 | draining a queue adds its moves, presses and wheel deltas, records the samples while history is on and keeps the newest 30 trail samples while the trail is on |
| AdvancedTracker.HandleMoveTrail | advanced_mouse_tracker.py:187-244 | after a raw move the trail stays within 30, ends with the new sample and the cursor is on screen |
| AdvancedTracker.FallbackDeltas | advanced_mouse_tracker.py:642-700 | without fresh raw input, consecutive Tk motion events report deltas that telescope to the cursor displacement and count the moves |
| AdvancedTracker.EffectLifetimes | advanced_mouse_tracker.py:976-1019 | click effects live 30 frames growing by 3; wheel effects live 20 frames |
| AdvancedTracker.FramesKeepGrowBounded | advanced_mouse_tracker.py:729-753 | over any run of frames the grow radius stays within [18, 62] |
| AdvancedTracker.DrainKeepsGrow | advanced_mouse_tracker.py:169-185 | draining the queue never touches the animation or the toggles |
| AdvancedTracker.ResetHistory | advanced_mouse_tracker.py:629-641 | trail, history and `total_mouse_movements` are cleared; `movement_count`, clicks, wheel, toggles and cursor are kept |
| AdvancedTracker.AdvancedMouseTracker.constructor | advanced_mouse_tracker.py:11-125 | the cursor starts at the on-screen pointer (or the centre), the pin grid is laid out and the toggles are all on; `__init__`'s closing `animate()` has run one frame, so the grow radius is 32 |
| AdvancedTracker.AdvancedMouseTracker.StoreSample | advanced_mouse_tracker.py:230-244 | the sample goes into the circular history and the bounded trail when those are on |
| AdvancedTracker.AdvancedMouseTracker.HandleRawMouseMovement | advanced_mouse_tracker.py:187-244 | the new state is the raw move step |
| AdvancedTracker.AdvancedMouseTracker.HandleRawMouseButton | advanced_mouse_tracker.py:246-259 | a press counts a click and starts a click effect |
| AdvancedTracker.AdvancedMouseTracker.HandleRawMouseWheel | advanced_mouse_tracker.py:260-269 | the wheel total accumulates and a wheel effect starts |
| AdvancedTracker.AdvancedMouseTracker.Dispatch | advanced_mouse_tracker.py:173-183 | each queued event goes to its handler by type |
| AdvancedTracker.AdvancedMouseTracker.ProcessRawInputData | advanced_mouse_tracker.py:169-185 | the new state is the drain of the whole queue |
| AdvancedTracker.AdvancedMouseTracker.DrawEnhancedEffects | advanced_mouse_tracker.py:976-1019 | each effect grows and ages one frame and is removed when spent |
| AdvancedTracker.AdvancedMouseTracker.Animate | advanced_mouse_tracker.py:729-753 | one frame drains the queue, steps the grow animation and ages the effects |
| AdvancedTracker.AdvancedMouseTracker.OnResize | advanced_mouse_tracker.py:706-709 | a resize redraws, which ages the effects |
| AdvancedTracker.AdvancedMouseTracker.OnMouseMove | advanced_mouse_tracker.py:642-700 | Tk motion is ignored while raw input is fresh; otherwise it is the fallback move |
| AdvancedTracker.AdvancedMouseTracker.FallbackUpdate | advanced_mouse_tracker.py:649-700 | the fallback move step |
| AdvancedTracker.AdvancedMouseTracker.OnMouseClick | advanced_mouse_tracker.py:702-704 | only the click count increments |
| AdvancedTracker.AdvancedMouseTracker.ResetHistoryPoints | advanced_mouse_tracker.py:623-628 | the history buffer is zeroed and nothing else changes |
| AdvancedTracker.AdvancedMouseTracker.ResetHistoryAll | advanced_mouse_tracker.py:629-641 | the new state is ResetHistory of the old one |
| AdvancedTracker.AdvancedMouseTracker.ToggleTrail | advanced_mouse_tracker.py:525-533 | flips the trail flag and clears the trail when it is switched off |
| AdvancedTracker.AdvancedMouseTracker.ToggleGrow | advanced_mouse_tracker.py:534-540 | flips only the grow flag |
| AdvancedTracker.AdvancedMouseTracker.ToggleHistory | advanced_mouse_tracker.py:541-549 | flips the history flag and resets the buffer when it is switched off |
| AdvancedTracker.AdvancedMouseTracker.ToggleFullscreen | advanced_mouse_tracker.py:550-559 | flips only the fullscreen flag |
| AdvancedTracker.AdvancedMouseTracker.TogglePlinko | advanced_mouse_tracker.py:560-568 | flips the Plinko flag and drops the bounce effects when it is switched off |
| AdvancedTracker.AdvancedMouseTracker.ToggleCoordinates | advanced_mouse_tracker.py:569-576 | flips only the coordinates flag |
| AdvancedTracker.AdvancedMouseTracker.ToggleVelocityInfo | advanced_mouse_tracker.py:496-503 | flips only the velocity-info flag |
| AdvancedTracker.AdvancedMouseTracker.ToggleRawDelta | advanced_mouse_tracker.py:504-511 | flips only the raw-delta flag |
| AdvancedTracker.AdvancedMouseTracker.DrawnHistory | advanced_mouse_tracker.py:862-870 | the drawn history is the newest 5000 recorded samples, oldest first |
| ModernTracker.MovesTrack | modern_mouse_tracker.py:277-296 | after any moves the cursor is the last point, history gains every point while on, and the trail is the newest 20 points while on |
| ModernTracker.FramesGrow | modern_mouse_tracker.py:309-324 | frames step the grow animation only while it is enabled |
| ModernTracker.FramesGrowBounded | modern_mouse_tracker.py:309-324 | the grow radius stays within [18, 62] over any run of frames |
| ModernTracker.ClickEffectLifetime | modern_mouse_tracker.py:298-302 | a click effect starts at radius 5, grows by 3 per frame and is deleted after 20 frames |
| ModernTracker.ModernMouseTracker.constructor | modern_mouse_tracker.py:8-82 | no cursor, empty trail and history, all toggles on; `__init__`'s closing `animate()` has run one frame, so the grow radius is 32 |
| ModernTracker.ModernMouseTracker.OnMouseMove | modern_mouse_tracker.py:277-296 | the new state is the move step |
| ModernTracker.ModernMouseTracker.OnMouseClick | modern_mouse_tracker.py:298-302 | a fresh click effect replaces any previous one |
| ModernTracker.ModernMouseTracker.DrawAll | modern_mouse_tracker.py:326-455 | a redraw ages the click effect one frame |
| ModernTracker.ModernMouseTracker.Animate | modern_mouse_tracker.py:309-324 | one frame steps the grow animation and redraws when the cursor is known |
| ModernTracker.ModernMouseTracker.OnResize | modern_mouse_tracker.py:304-307 | a resize redraws when the cursor is known |
| ModernTracker.ModernMouseTracker.ToggleTrail | modern_mouse_tracker.py:193-200 | flips the trail flag and clears the trail when it is switched off |
| ModernTracker.ModernMouseTracker.ToggleGrow | modern_mouse_tracker.py:202-208 | flips only the grow flag |
| ModernTracker.ModernMouseTracker.ToggleHistory | modern_mouse_tracker.py:210-217 | flips the history flag and resets the buffer when it is switched off |
| ModernTracker.ModernMouseTracker.ToggleFullscreen | modern_mouse_tracker.py:219-228 | flips only the fullscreen flag |
| ModernTracker.ModernMouseTracker.ResetHistoryPoints | modern_mouse_tracker.py:230-234 | the history buffer is zeroed and nothing else changes |
| ModernTracker.ModernMouseTracker.ResetHistory | modern_mouse_tracker.py:265-275 | clears the trail and the history |
| ModernTracker.ModernMouseTracker.DrawnHistory | modern_mouse_tracker.py:338-348 | the drawn history is the newest 300 recorded points, oldest first |
| CircleApp.Known | main.py:176-177 | a circle is drawn iff both coordinates are known, at those coordinates |
| CircleApp.MouseCircleApp.constructor | main.py:6-57 | no cursor, empty trail and history, trail and animation on, history display off; `__init__`'s closing `animate()` has stepped the pulse once, to radius 42 |
| CircleApp.MouseCircleApp.OnMouseMove | main.py:180-196 | the cursor is updated, the trail keeps its newest 15 points while on, and the history keeps its newest 100 stamped points ending with this one |
| CircleApp.MouseCircleApp.ResetTrailHistory | main.py:59-62 | trail and history are cleared and nothing else changes |
| CircleApp.MouseCircleApp.ResetHistoryOnly | main.py:273-276 | only the history is cleared |
| CircleApp.MouseCircleApp.Animate | main.py:164-178 | the pulse steps only while the animation is on, and the circle is drawn iff the cursor is known |
| CircleApp.MouseCircleApp.UpdateHistoryDisplay | main.py:299-313 | nothing is listed when the display is off or empty; otherwise it lists the newest 50 entries numbered from 1, the last being the newest position |
| ScratchCircle.MouseCircleApp.constructor | tempCodeRunnerFile.py:5-25 | no cursor, empty trail; `__init__`'s closing `animate()` has stepped the pulse once, to radius 42 |
| ScratchCircle.MouseCircleApp.OnMouseMove | tempCodeRunnerFile.py:42-50 | the trail appends the point and drops the oldest once it holds 15 |
| ScratchCircle.MouseCircleApp.Animate | tempCodeRunnerFile.py:27-41 | the pulse radius moves by 2 and a redraw happens iff the cursor is known |
| SimpleHid.KeyDownIsSignBit | simple_hid_reader.py:28-30 | a key reads as down iff the 16-bit state word is negative |
| SimpleHid.ScanCountsRisingEdges | simple_hid_reader.py:73-80 | a full scan counts exactly the up-to-down transitions, and afterwards the stored states equal the readings |
| SimpleHid.EscapedScanIsFinal | simple_hid_reader.py:83-86 | once Escape has been seen, scanning further keys changes nothing |
| SimpleHid.NoEarlyEscape | simple_hid_reader.py:73-86 | keys before Escape's slot can never end the scan |
| SimpleHid.EscapeEndsScan | simple_hid_reader.py:73-86 | the scan ends iff Escape rises; it then counts only the first six keys' edges and leaves later keys unchanged |
| SimpleHid.ScanNeverEscapesAfter | simple_hid_reader.py:73-86 | when Escape does not rise, the scan covers all 16 keys |
| SimpleHid.ReportedDeltasTelescope | simple_hid_reader.py:59-70 | one move report per cursor change; the reported deltas sum to last minus first cursor and the moves are numbered in order |
| SimpleHid.IdleRoundChangesNothing | simple_hid_reader.py:55-86 | a poll with an unmoved cursor and unchanged keys changes nothing |
| SimpleHid.SimpleHIDReader.constructor | simple_hid_reader.py:9-17 | not running and every counter zero |
| SimpleHid.SimpleHIDReader.ScanRound | simple_hid_reader.py:73-86 | the key scan loop equals the scan function and stops running on Escape |
| SimpleHid.SimpleHIDReader.PollRound | simple_hid_reader.py:55-86 | one pass of the loop is one Round of the monitor state |
| SimpleHid.SimpleHIDReader.MonitorInput | simple_hid_reader.py:55-86 | the loop runs while running and polls remain; the state equals the rounds over the consumed polls, and stopping early means Escape was pressed |
| SimpleHid.SimpleHIDReader.Start | simple_hid_reader.py:154-175 | runs the monitor loop and leaves the reader stopped |
| KivyTouch.TouchDownRecords | kivy_touch_data.py:79-96 | a touch down counts a touch, becomes the active touch, restarts its timer and position, and keeps the trail bounded |
| KivyTouch.OtherTouchesIgnored | kivy_touch_data.py:100 | moves and releases of any touch other than the active one change nothing |
| KivyTouch.TouchMoveBounds | kivy_touch_data.py:111-113 | positions end with the new point, stay within 300 and only grow while under 300 |
| KivyTouch.TouchMoveFollows | kivy_touch_data.py:98-131 | an active move updates the last position, keeps the trail within 20 ending at the point and leaves the count and id alone |
| KivyTouch.GestureKeepsNewest | kivy_touch_data.py:79-141 | a down, drag and up gesture keeps the newest 300 positions of the whole gesture and clears the active id |
| KivyTouch.ResetClears | kivy_touch_data.py:49-57 | reset clears positions, trail and count; the active touch and its start time are kept |
| KivyTouch.HiddenTrailStaysEmpty | kivy_touch_data.py:59-65 | with the trail hidden, touches never add to it |
| KivyTouch.TouchTracker.constructor | kivy_touch_data.py:22-47 | no touches, empty positions and trail, trail, coordinates and lines shown, no active touch |
| KivyTouch.TouchTracker.ResetHistory | kivy_touch_data.py:49-57 | the new state is the reset state |
| KivyTouch.TouchTracker.ToggleTrail | kivy_touch_data.py:59-65 | flips the trail flag, and clears the trail only when it is switched off |
| KivyTouch.TouchTracker.ToggleLines | kivy_touch_data.py:67-71 | flips only the lines flag |
| KivyTouch.TouchTracker.ToggleCoordinates | kivy_touch_data.py:73-77 | flips only the coordinates flag |
| KivyTouch.TouchTracker.OnTouchDown | kivy_touch_data.py:79-96 | the new state is the touch-down step and the event is handled |
| KivyTouch.TouchTracker.OnTouchMove | kivy_touch_data.py:98-131 | the new state is the touch-move step and the event is handled |
| KivyTouch.TouchTracker.OnTouchUp | kivy_touch_data.py:133-143 | the new state is the touch-up step and the event is handled |
| KivyTouch.NormalizeKey | kivy_touch_data.py:287-293 | the key string has no capital letters; tuple names and other keys keep their length; an int gives one character iff it is printable ASCII (32..126), that character itself unless it is a capital, and the empty string otherwise |
| KivyTouch.KeyActionOnInts | kivy_touch_data.py:286-304 | for an int keycode, reset iff it is 'r' or 'R', and stop iff it is 27 |
| KivyTouch.TupleNeverStops | kivy_touch_data.py:302-303 | a tuple keycode never compares equal to 27, so Escape as a tuple never stops the app |
| KivyTouch.TupleNamesIgnoreCase | kivy_touch_data.py:286-293 | tuple names pick the same action whatever their case |
| KivyTouch.ModernTouchApp.constructor | kivy_touch_data.py:234 | the tracker starts in its initial state and the app is not stopped |
| KivyTouch.ModernTouchApp.OnKeyboardDown | kivy_touch_data.py:283-309 | the tracker takes the key's action and the app stops iff the action is stop |
| HidapiProbe.MouseClassification | test.py:33-38 | classification ignores ids, ignores the case of the product and of the manufacturer name, accepts page 1 usage 2, and without names is exactly the usage test |
| HidapiProbe.NamedMouseIsMouse | test.py:33-37 | any device whose product name contains "Mouse" is a mouse |
| HidapiProbe.MakerNamedMouseIsMouse | test.py:34-37 | any device whose manufacturer name contains "Mouse" is a mouse |
| HidapiProbe.MiceMembers | test.py:31-39 | a device is in the filtered list iff it is in the input and classified as a mouse |
| HidapiProbe.FirstMouse | test.py:48 | the device opened is the earliest mouse in enumeration order |
| HidapiProbe.NoMice | test.py:41-42 | the list is empty iff no device is a mouse |
| HidapiProbe.FindMice | test.py:31-39 | the loop raises iff some device has a None product or manufacturer name; otherwise it collects exactly the filtered list, in order |
| HidapiProbe.SignedByte | test.py:72-73 | the value is in [-128, 127], congruent to the byte mod 256, and zero iff the byte is zero |
| HidapiProbe.SignedByteIsUnique | test.py:72-73 | different bytes give different deltas |
| HidapiProbe.ParseReport | test.py:70-73 | a report is parsed iff it has at least 3 bytes |
| HidapiProbe.ReportedMotionExactly | test.py:70-75 | motion is printed iff the report has at least 3 bytes not all zero, and the deltas re-encode to bytes 1 and 2 |
| HidapiProbe.DescribeRead | test.py:64-79 | an empty read is a timeout; otherwise a hex dump and the optional motion |
| HidapiProbe.DumpReadsBack | test.py:66 | every token of the dump reads back as the report byte |
| HidapiProbe.UsageKeyReadsBack | test.py:103-104 | the group key is 10 characters whose digits read back as page and usage |
| HidapiProbe.GroupCollects | test.py:101-108 | a key is present iff some device has it, and its list holds those devices' labels in order |
| HidapiProbe.GroupsByUsage | test.py:101-108 | two devices with the same page and usage share one group |
| HidapiProbe.AddEntry | test.py:105-107 | adds the label under its key, creating the list when missing |
| HidapiProbe.GroupUsagePages | test.py:101-108 | over the first 20 devices, raises iff one has a None usage page or usage, and otherwise builds their grouping |
| HidapiProbe.GroupAll | test.py:102-108 | the loop stops on the first device whose usage is None; otherwise its result is the grouping of every device, in order |
| HidapiProbe.Probe | test.py:31-120 | the probe fails (the outer `except Exception`) iff some name is None, or no device is a mouse and one of the first 20 has a None usage page or usage; it opens the first mouse iff every name is readable and there is a mouse, and otherwise lists the usage groups of the first 20 devices |

## Left out

- Timestamps (`time.time()`), sleeps and frame timers (`root.after`, Kivy `Clock`) are left out. Event records carry no timestamp; circle history entries take the timestamp as a parameter.
- Floating point is left out. This covers velocity magnitudes, `sqrt`/`atan2`, maximum velocity, bounce-effect timing and strength, Kivy's `total_distance`, and the float history arrays. Trail samples keep the integer dx, dy instead of the float velocity, and touch coordinates are integers.
- Printing, Tkinter/Kivy widgets and drawing calls are left out. Drawing is modelled only where it changes state: ageing click effects and redrawing when the cursor is known. Button labels, window creation and fullscreen attributes are out, and toggle buttons are plain boolean fields.
- File saving (`save_history` in main.py) and the statistics labels (`update_statistics_display`, `update_stats`) are left out.
- Threads and queue thread-safety are left out. The advanced tracker's queue is a sequence drained in one frame. `advanced_mouse_tracker.py:159` calls `start_message_loop`, which the reader does not define (it has `run`). The model connects the reader's events to the queue as evidently intended.
- The Win32 API is left out, in several parts:
  - `ctypes` structure layouts are replaced by decoded report values;
  - window-class and window creation are out;
  - `RegisterRawInputDevices`, `GetRawInputData`, `PeekMessage`, `GetMessage` and `PostQuitMessage` are parameters: outcomes, queried and fetched sizes, and polled message sequences.
- The endless message and poll loops run over finite sequences of polls. The model does not cover a loop that never ends.
- The improved reader's `run`/`stop`/window creation are not part of this model; only its registration and decoding are.
- The simple HID monitor's periodic statistics, `read_raw_hid_devices`, `monitor_system_info` and `time.sleep` are left out.
- hidapi enumeration, `hid.Device` opening and reading are parameters: the device list and the read results. The fixed 10-read loop and `close` are left out, and so is the failure to open a device.
- The probe's sorted printing of the groups and its first-three slice of each list are left out. The grouping itself is modelled.
- Plinko pin collisions (`check_plinko_collisions_with_velocity`) and the bounce effects they create are left out, because they depend on float distances and wall-clock timing. The model keeps only the bounce-effect list that toggling Plinko off clears.
- Text.Lower: lower-cases ASCII letters only, because Python's Unicode case mapping is not modelled.
- AdvancedTracker.AdvancedMouseTracker.DrawEnhancedEffects: the bounce effects' time-based progress is not modelled, only click and wheel effects.
- RawInput.MouseStep: decodes `usButtonFlags` and `usButtonData` as the Win32 RAWMOUSE layout puts them (a ULONG-aligned union at offset 4). rawInput.py:68-77 declares RAWMOUSE flat. In that struct, `usButtonFlags` reads the padding bytes at offset 2 and `usButtonData` reads the real button-flag word. The click, button and wheel decoding therefore describes the layout the code evidently intends, not what the declared struct reads. `lLastX` and `lLastY` sit at offsets 12 and 16 in both layouts.
- ImprovedRawInput.MouseStep: the same intended-layout reading of the button fields. improved_raw_input.py:56-65 declares the same flat RAWMOUSE.
- CompleteRawInput.DecodeMouseButton: the same intended-layout reading of the button fields. complete_raw_input.py:63-72 declares the same flat RAWMOUSE. Wire.WheelNotchIsNegative likewise takes `usButtonData` as the wheel delta.
- Callbacks are modelled as never raising. In the source, `process_raw_input` wraps decoding in `try`/`except Exception` (rawInput.py:307, 345-346; the other readers wrap it the same way). A callback that raises is swallowed, and the rest of the report is abandoned: a raising move callback (rawInput.py:365-366) skips the click count and the button or wheel event after it (rawInput.py:369-371). RawInput.MouseStep, RawInput.HidStep, RawInput.FeedTallies and their counterparts in the other readers assume every callback returns.
- Tk event delivery is not modelled: each model call is one dispatched binding. advanced_mouse_tracker.py:109-110 binds `<Motion>` on both the root and the canvas, so one motion over the canvas reaches `on_mouse_move` twice. The second call has delta 0, but it still counts a move and stores the sample again. OnMouseMove and FallbackDeltas describe each call separately.
