/**
 * The device logic of test.py's hidapi probe: picking mouse-like devices
 * out of the enumeration, decoding a boot-style mouse report (buttons and
 * two signed 8-bit deltas), and, when no mouse is found, grouping the
 * first twenty devices by usage page and usage.
 */
module HidapiProbe {
  import opened Options
  import opened Wire
  import opened Text
  import opened Bounded

  /**
   * An optional dictionary entry: missing, present with the value None
   * (hidapi reports an unknown string or usage that way), or present with
   * a value.
   */
  datatype Field<T> = Missing | PresentNone | Present(value: T)

  /**
   * One enumeration entry. `vendor_id` and `product_id` are always read
   * with `[]`; the other entries may be missing or None.
   */
  datatype HidDevice = HidDevice(
    vendorId: int,
    productId: int,
    productString: Field<string>,
    manufacturerString: Field<string>,
    usagePage: Field<int>,
    usage: Field<int>)

  /**
   * `d.get(key, default)` where the result is used as a value. A present
   * None is not a value: the callers check `Readable` first, since calling
   * `.lower()` or formatting with `:02X` on None raises.
   */
  function GetOr<T>(f: Field<T>, default: T): T {
    match f
    case Present(v) => v
    case _ => default
  }

  /** The entry can be used as a value: it is missing (the default) or holds one. */
  predicate Readable<T>(f: Field<T>) {
    !f.PresentNone?
  }

  /** Both names can be lower-cased: neither is a present None. */
  predicate NamesReadable(d: HidDevice) {
    Readable(d.productString) && Readable(d.manufacturerString)
  }

  /** Both usage values can be formatted with `:02X`: neither is a present None. */
  predicate UsageReadable(d: HidDevice) {
    Readable(d.usagePage) && Readable(d.usage)
  }

  predicate AllNamesReadable(devices: seq<HidDevice>) {
    forall i :: 0 <= i < |devices| ==> NamesReadable(devices[i])
  }

  predicate AllUsageReadable(devices: seq<HidDevice>) {
    forall i :: 0 <= i < |devices| ==> UsageReadable(devices[i])
  }

  const GENERIC_DESKTOP_PAGE := 1
  const MOUSE_USAGE := 2

  // ---------------------------------------------------------------------
  // Mouse classification

  /**
   * "mouse" in the lower-cased product or manufacturer name, or the
   * Generic Desktop / Mouse usage. The names are only lower-cased for a
   * device with `NamesReadable`; `FindMice` fails on any other.
   */
  predicate IsMouseDevice(d: HidDevice) {
    || Contains(Lower(GetOr(d.productString, "")), "mouse")
    || Contains(Lower(GetOr(d.manufacturerString, "")), "mouse")
    || (d.usagePage == Present(GENERIC_DESKTOP_PAGE) && d.usage == Present(MOUSE_USAGE))
  }

  /**
   * The classification ignores letter case in the names, looks at the
   * usage only when it is exactly page 1 / usage 2, and does not depend
   * on the ids.
   */
  lemma MouseClassification(d: HidDevice, vid: int, pid: int)
    ensures IsMouseDevice(d) <==> IsMouseDevice(d.(vendorId := vid, productId := pid))
    ensures d.productString.Present? ==>
      (IsMouseDevice(d) <==> IsMouseDevice(d.(productString := Present(Lower(d.productString.value)))))
    ensures d.manufacturerString.Present? ==>
      (IsMouseDevice(d) <==> IsMouseDevice(d.(manufacturerString := Present(Lower(d.manufacturerString.value)))))
    ensures d.usagePage == Present(GENERIC_DESKTOP_PAGE) && d.usage == Present(MOUSE_USAGE) ==> IsMouseDevice(d)
    ensures d.productString.Missing? && d.manufacturerString.Missing? ==>
      (IsMouseDevice(d) <==> d.usagePage == Present(GENERIC_DESKTOP_PAGE) && d.usage == Present(MOUSE_USAGE))
  {
    if d.productString.Present? {
      assert Lower(Lower(d.productString.value)) == Lower(d.productString.value);
    }
    if d.manufacturerString.Present? {
      assert Lower(Lower(d.manufacturerString.value)) == Lower(d.manufacturerString.value);
    }
    assert Lower("") == "";
  }

  /** "Mouse" in any case inside `before + "Mouse" + after` survives lower-casing. */
  lemma MouseSurvivesLower(before: string, after: string)
    ensures Contains(Lower(before + "Mouse" + after), "mouse")
  {
    var name := Lower(before + "Mouse" + after);
    assert name[|before|..|before| + 5] == "mouse";
    assert OccursAt(name, "mouse", |before|);
  }

  /** A product name containing "Mouse" in any case marks the device as a mouse. */
  lemma NamedMouseIsMouse(d: HidDevice, before: string, after: string)
    requires d.productString == Present(before + "Mouse" + after)
    ensures IsMouseDevice(d)
  {
    MouseSurvivesLower(before, after);
  }

  /** So does a manufacturer name containing "Mouse" in any case. */
  lemma MakerNamedMouseIsMouse(d: HidDevice, before: string, after: string)
    requires d.manufacturerString == Present(before + "Mouse" + after)
    ensures IsMouseDevice(d)
  {
    MouseSurvivesLower(before, after);
  }

  /** The devices that `IsMouseDevice` accepts, in enumeration order. */
  function Mice(devices: seq<HidDevice>): seq<HidDevice>
    decreases |devices|
  {
    if devices == [] then []
    else
      var init := Mice(devices[..|devices| - 1]);
      var d := devices[|devices| - 1];
      if IsMouseDevice(d) then init + [d] else init
  }

  /** Exactly the mouse-like devices are kept. */
  lemma {:induction false} MiceMembers(devices: seq<HidDevice>)
    ensures forall d :: d in Mice(devices) <==> d in devices && IsMouseDevice(d)
    decreases |devices|
  {
    if devices != [] {
      var init := devices[..|devices| - 1];
      MiceMembers(init);
      assert devices == init + [devices[|devices| - 1]];
    }
  }

  /** The first device kept is the first mouse-like device enumerated. */
  lemma {:induction false} FirstMouse(devices: seq<HidDevice>)
    requires Mice(devices) != []
    ensures exists i :: (0 <= i < |devices| && devices[i] == Mice(devices)[0] && IsMouseDevice(devices[i])
      && forall j :: 0 <= j < i ==> !IsMouseDevice(devices[j]))
    decreases |devices|
  {
    var init := devices[..|devices| - 1];
    var last := devices[|devices| - 1];
    assert Mice(devices) == if IsMouseDevice(last) then Mice(init) + [last] else Mice(init);
    if Mice(init) == [] {
      NoMice(init);
      var i := |devices| - 1;
      assert devices[i] == Mice(devices)[0] && IsMouseDevice(devices[i]);
      assert forall j :: 0 <= j < i ==> devices[j] == init[j];
    } else {
      FirstMouse(init);
      var i :| 0 <= i < |init| && init[i] == Mice(init)[0] && IsMouseDevice(init[i])
        && forall j :: 0 <= j < i ==> !IsMouseDevice(init[j]);
      assert Mice(devices)[0] == Mice(init)[0];
      assert forall j :: 0 <= j <= i ==> devices[j] == init[j];
    }
  }

  lemma {:induction false} NoMice(devices: seq<HidDevice>)
    requires Mice(devices) == []
    ensures forall j :: 0 <= j < |devices| ==> !IsMouseDevice(devices[j])
    decreases |devices|
  {
    if devices != [] {
      var init := devices[..|devices| - 1];
      NoMice(init);
    }
  }

  /**
   * The `mouse_devices` loop. Both names are lower-cased before the test,
   * so a device with a None name raises AttributeError and ends the loop.
   */
  method FindMice(devices: seq<HidDevice>) returns (mice: seq<HidDevice>, raised: bool)
    ensures raised <==> !AllNamesReadable(devices)
    ensures !raised ==> mice == Mice(devices)
  {
    mice := [];
    var i := 0;
    while i < |devices|
      invariant 0 <= i <= |devices|
      invariant mice == Mice(devices[..i])
      invariant forall j :: 0 <= j < i ==> NamesReadable(devices[j])
    {
      if !NamesReadable(devices[i]) {
        assert !AllNamesReadable(devices);
        return mice, true;
      }
      assert devices[..i + 1][..i] == devices[..i];
      if IsMouseDevice(devices[i]) {
        mice := mice + [devices[i]];
      }
      i := i + 1;
    }
    assert devices[..i] == devices;
    raised := false;
  }

  // ---------------------------------------------------------------------
  // Mouse reports

  /** `v if v < 128 else v - 256` */
  function SignedByte(b: u8): (v: int)
    ensures -0x80 <= v < 0x80
    ensures v % 0x100 == b
    ensures v == 0 <==> b == 0
  {
    if b < 128 then b else b - 256
  }

  /** The signed reading is the only value in -128 .. 127 with the byte's bit pattern. */
  lemma SignedByteIsUnique(b: u8, v: int)
    requires -0x80 <= v < 0x80 && v % 0x100 == b
    ensures v == SignedByte(b)
  {
    if v < 0 {
      assert v % 0x100 == v + 0x100;
    }
  }

  datatype MouseReport = MouseReport(buttons: u8, deltaX: int, deltaY: int)

  /** The parsed report, for reports of at least three bytes. */
  function ParseReport(data: seq<u8>): (r: Option<MouseReport>)
    ensures r.Some? <==> |data| >= 3
    ensures r.Some? ==> r.value.buttons == data[0] && -0x80 <= r.value.deltaX < 0x80 && -0x80 <= r.value.deltaY < 0x80
  {
    if |data| >= 3 then Some(MouseReport(data[0], SignedByte(data[1]), SignedByte(data[2]))) else None
  }

  /** The parsed report, when it is printed: something pressed or moved. */
  function ReportedMotion(data: seq<u8>): Option<MouseReport> {
    match ParseReport(data)
    case Some(r) => if r.buttons != 0 || r.deltaX != 0 || r.deltaY != 0 then Some(r) else None
    case None => None
  }

  /**
   * A report line is printed exactly for a report of three or more bytes
   * whose first three are not all zero, and its deltas re-encode to bytes
   * 1 and 2.
   */
  lemma ReportedMotionExactly(data: seq<u8>)
    ensures ReportedMotion(data).Some? <==> |data| >= 3 && (data[0] != 0 || data[1] != 0 || data[2] != 0)
    ensures ReportedMotion(data).Some? ==>
      ReportedMotion(data).value.deltaX % 0x100 == data[1] && ReportedMotion(data).value.deltaY % 0x100 == data[2]
  {
  }

  /** What one read produces: nothing within the timeout, or a dump with the optional motion line. */
  datatype ReadOutcome = Timeout | Dump(hexData: string, motion: Option<MouseReport>)

  function DescribeRead(data: seq<u8>): (r: ReadOutcome)
    ensures r.Timeout? <==> data == []
  {
    if data == [] then Timeout else Dump(HexData(data), ReportedMotion(data))
  }

  /** The dump of a read holds each byte as two hex digits, three characters apart, that parse back to it. */
  lemma DumpReadsBack(data: seq<u8>)
    requires data != []
    ensures var h := DescribeRead(data).hexData;
      && |h| == 3 * |data| - 1
      && forall k :: 0 <= k < |data| ==> AllHex(h[3 * k..3 * k + 2]) && ParseHex(h[3 * k..3 * k + 2]) == data[k]
  {
    HexDataRoundTrip(data);
  }

  // ---------------------------------------------------------------------
  // Usage-page groups

  const GROUPED_DEVICES := 20

  /** `f"UP:{up:02X} U:{usage:02X}"`, missing entries read as 0 (for a device with `UsageReadable`). */
  function UsageKey(d: HidDevice): string {
    "UP:" + FormatHex(GetOr(d.usagePage, 0), 2) + " U:" + FormatHex(GetOr(d.usage, 0), 2)
  }

  /** `f"VID:0x{vendor_id:04X}"` */
  function VidLabel(d: HidDevice): string {
    "VID:0x" + FormatHex(d.vendorId, 4)
  }

  /** Byte-sized usage values give a ten-character key from which both read back. */
  lemma UsageKeyReadsBack(d: HidDevice)
    requires 0 <= GetOr(d.usagePage, 0) < 0x100 && 0 <= GetOr(d.usage, 0) < 0x100
    ensures var k := UsageKey(d);
      && |k| == 10 && k[..3] == "UP:" && k[5..8] == " U:" && AllHex(k[3..5]) && AllHex(k[8..10])
      && ParseHex(k[3..5]) == GetOr(d.usagePage, 0) && ParseHex(k[8..10]) == GetOr(d.usage, 0)
  {
    var up := FormatHex(GetOr(d.usagePage, 0), 2);
    var u := FormatHex(GetOr(d.usage, 0), 2);
    Hex02RoundTrip(GetOr(d.usagePage, 0));
    Hex02RoundTrip(GetOr(d.usage, 0));
    var k := UsageKey(d);
    assert k == "UP:" + up + " U:" + u;
    assert k[3..5] == up && k[8..10] == u;
  }

  /** A device's contribution to the grouping: its usage key and its vendor label. */
  datatype Entry = Entry(key: string, vid: string)

  function EntryOf(d: HidDevice): Entry {
    Entry(UsageKey(d), VidLabel(d))
  }

  /** `f` applied to each element, in order. */
  function MapSeq<A, B>(s: seq<A>, f: A -> B): (r: seq<B>)
    ensures |r| == |s| && forall i :: 0 <= i < |s| ==> r[i] == f(s[i])
  {
    seq(|s|, i requires 0 <= i < |s| => f(s[i]))
  }

  lemma MapSeqSnoc<A, B>(s: seq<A>, f: A -> B, i: nat)
    requires i < |s|
    ensures MapSeq(s[..i + 1], f) == MapSeq(s[..i], f) + [f(s[i])]
  {
  }

  function Entries(devices: seq<HidDevice>): seq<Entry> {
    MapSeq(devices, EntryOf)
  }

  /** The label appended to its key's list, the list created on first use. */
  function Insert(groups: map<string, seq<string>>, e: Entry): map<string, seq<string>> {
    groups[e.key := (if e.key in groups then groups[e.key] else []) + [e.vid]]
  }

  /** The `usage_pages` dictionary built from the entries in order. */
  function Group(entries: seq<Entry>): map<string, seq<string>>
    decreases |entries|
  {
    if entries == [] then map[] else Insert(Group(entries[..|entries| - 1]), entries[|entries| - 1])
  }

  lemma GroupStep(entries: seq<Entry>, e: Entry)
    ensures Group(entries + [e]) == Insert(Group(entries), e)
  {
    assert (entries + [e])[..|entries|] == entries;
  }

  /** The labels of the entries with key `key`, in order. */
  function LabelsWithKey(entries: seq<Entry>, key: string): seq<string>
    decreases |entries|
  {
    if entries == [] then []
    else
      var init := LabelsWithKey(entries[..|entries| - 1], key);
      var e := entries[|entries| - 1];
      if e.key == key then init + [e.vid] else init
  }

  /**
   * A key is present exactly when some entry has it, and its list holds
   * the labels of exactly those entries in order.
   */
  lemma {:induction false} GroupCollects(entries: seq<Entry>, key: string)
    ensures key in Group(entries) <==> exists i :: 0 <= i < |entries| && entries[i].key == key
    ensures key in Group(entries) ==> Group(entries)[key] == LabelsWithKey(entries, key)
    ensures key !in Group(entries) ==> LabelsWithKey(entries, key) == []
    decreases |entries|
  {
    if entries != [] {
      var init := entries[..|entries| - 1];
      GroupCollects(init, key);
      if key in Group(init) {
        var i :| 0 <= i < |init| && init[i].key == key;
        assert entries[i].key == key;
      }
      if exists i :: 0 <= i < |entries| && entries[i].key == key {
        var i :| 0 <= i < |entries| && entries[i].key == key;
        if i < |init| {
          assert init[i].key == key;
        }
      }
    }
  }

  /** The devices the grouping looks at: the first twenty. */
  function Grouped(devices: seq<HidDevice>): seq<HidDevice> {
    devices[..if |devices| < GROUPED_DEVICES then |devices| else GROUPED_DEVICES]
  }

  /** Entry `i` of the grouping carries device `i`'s usage key. */
  lemma EntryKeys(devices: seq<HidDevice>)
    ensures |Entries(Grouped(devices))| == |Grouped(devices)|
    ensures forall i :: 0 <= i < |Grouped(devices)| ==> Entries(Grouped(devices))[i].key == UsageKey(devices[i])
  {
  }

  /**
   * Among the first twenty devices, a usage key is listed exactly when one
   * of them has it, with the vendor labels of those devices in enumeration
   * order.
   */
  lemma GroupsByUsage(devices: seq<HidDevice>, key: string)
    ensures var es := Entries(Grouped(devices));
      && (key in Group(es) <==> exists i :: 0 <= i < |Grouped(devices)| && UsageKey(devices[i]) == key)
      && (key in Group(es) ==> Group(es)[key] == LabelsWithKey(es, key))
  {
    var es := Entries(Grouped(devices));
    GroupCollects(es, key);
    EntryKeys(devices);
  }

  /** `if key not in usage_pages: usage_pages[key] = []`, then the label appended. */
  method AddEntry(groups: map<string, seq<string>>, entry: Entry) returns (updated: map<string, seq<string>>)
    ensures updated == Insert(groups, entry)
  {
    updated := groups;
    if entry.key !in updated {
      updated := updated[entry.key := []];
    }
    updated := updated[entry.key := updated[entry.key] + [entry.vid]];
  }

  lemma ReadableSnoc(shown: seq<HidDevice>, i: nat)
    requires i < |shown| && AllUsageReadable(shown[..i]) && UsageReadable(shown[i])
    ensures AllUsageReadable(shown[..i + 1])
  {
    assert shown[..i + 1] == shown[..i] + [shown[i]];
  }

  /** One pass of the grouping loop: device `i`'s label added to the groups of the devices before it. */
  method GroupNext(shown: seq<HidDevice>, i: nat, groups: map<string, seq<string>>) returns (updated: map<string, seq<string>>)
    requires i < |shown| && groups == Group(Entries(shown[..i]))
    ensures updated == Group(Entries(shown[..i + 1]))
  {
    MapSeqSnoc(shown, EntryOf, i);
    GroupStep(Entries(shown[..i]), EntryOf(shown[i]));
    var entry := EntryOf(shown[i]);
    updated := AddEntry(groups, entry);
  }

  /**
   * The grouping loop over the first twenty devices. Formatting a None
   * usage page or usage with `:02X` raises TypeError and ends the loop.
   */
  method GroupUsagePages(devices: seq<HidDevice>) returns (groups: map<string, seq<string>>, raised: bool)
    ensures raised <==> !AllUsageReadable(Grouped(devices))
    ensures !raised ==> groups == Group(Entries(Grouped(devices)))
  {
    groups, raised := GroupAll(Grouped(devices));
  }

  /** The loop itself, over the devices it is given. */
  method GroupAll(shown: seq<HidDevice>) returns (groups: map<string, seq<string>>, raised: bool)
    ensures raised <==> !AllUsageReadable(shown)
    ensures !raised ==> groups == Group(Entries(shown))
  {
    groups := map[];
    var i := 0;
    while i < |shown|
      invariant 0 <= i <= |shown|
      invariant groups == Group(Entries(shown[..i]))
      invariant AllUsageReadable(shown[..i])
    {
      if !UsageReadable(shown[i]) {
        return groups, true;
      }
      ReadableSnoc(shown, i);
      groups := GroupNext(shown, i, groups);
      i := i + 1;
    }
    assert shown[..i] == shown;
    raised := false;
  }

  // ---------------------------------------------------------------------
  // The probe

  /**
   * Where `test_hid_with_hidapi` goes after enumerating: open the first
   * mouse, list the groups, or fail when an exception reaches the outer
   * `except Exception`.
   */
  datatype ProbeOutcome =
    | OpenMouse(device: HidDevice, mice: seq<HidDevice>)
    | ListGroups(groups: map<string, seq<string>>)
    | Failed

  method Probe(devices: seq<HidDevice>) returns (outcome: ProbeOutcome)
    ensures outcome.Failed? <==>
      !AllNamesReadable(devices) || (Mice(devices) == [] && !AllUsageReadable(Grouped(devices)))
    ensures outcome.OpenMouse? <==> AllNamesReadable(devices) && exists d :: d in devices && IsMouseDevice(d)
    ensures outcome.OpenMouse? ==> outcome.mice == Mice(devices) && outcome.mice != [] && outcome.device == outcome.mice[0]
    ensures outcome.ListGroups? ==>
      outcome.groups == Group(Entries(Grouped(devices)))
  {
    var mice, raised := FindMice(devices);
    MiceMembers(devices);
    if raised {
      outcome := Failed;
    } else if mice != [] {
      assert mice[0] in mice;
      outcome := OpenMouse(mice[0], mice);
    } else {
      var groups, groupRaised := GroupUsagePages(devices);
      if groupRaised {
        outcome := Failed;
      } else {
        outcome := ListGroups(groups);
      }
    }
  }
}
