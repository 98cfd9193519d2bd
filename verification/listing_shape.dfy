/**
  What the listing script prints, and the tree the line processor builds from
  it. The script first prints `Target: t` for every target, then for each
  target `Devices at target t:` followed, per device, by `Device: d` and its
  `#PROP d: p` property lines (the listing script written by
  `stream_list_hw` in xilinx_tests.py). Lines are as `readline` returns them, newline included.
 */
module ListingShape {
  import opened Wrappers
  import opened PyStr
  import opened Seqs
  import opened TreeBuilder

  function TargetLine(name: string): string { "Target: " + name + "\n" }
  function HeaderLine(name: string): string { "Devices at target " + name + ":\n" }
  function DeviceLine(name: string): string { "Device: " + name + "\n" }
  function PropLine(device: string, prop: string): string { "#PROP " + device + ": " + prop + "\n" }

  /**
    A target or device name that survives the parser unchanged: not blank or
    `:` at either end, and holding none of the three markers.
   */
  predicate PlainName(n: string) {
    && n != []
    && !IsSpace(n[0]) && n[0] != ':'
    && !IsSpace(n[|n| - 1]) && n[|n| - 1] != ':'
    && !Contains(n, TargetMarker) && !Contains(n, DevicesMarker) && !Contains(n, DeviceMarker)
  }

  // ---------------------------------------------------------------------
  // One line at a time
  // ---------------------------------------------------------------------

  lemma StripTargetLine(n: string)
    requires PlainName(n)
    ensures Strip(TargetLine(n)) == "Target: " + n
  {
    assert [] + ("Target: " + n) + "\n" == TargetLine(n);
    StripSetFramed([], "Target: " + n, "\n", Spaces);
  }

  lemma ParseTargetLine(n: string)
    requires PlainName(n)
    ensures StartsWith("Target: " + n, TargetMarker)
    ensures AnnouncedTarget("Target: " + n) == n
  {
    var stripped := "Target: " + n;
    assert StartsWith(stripped, TargetMarker);
    assert stripped[|TargetMarker|..] == " " + n + "";
    NotContainedFramed(" ", n, "", TargetMarker);
    SplitAfterLeadingSep(stripped, TargetMarker);
    assert " " + n + "" == " " + n;
    StripSetFramed(" ", n, "", Spaces);
  }

  lemma StripHeaderLine(n: string)
    requires PlainName(n)
    ensures Strip(HeaderLine(n)) == "Devices at target " + n + ":"
  {
    assert [] + ("Devices at target " + n + ":") + "\n" == HeaderLine(n);
    StripSetFramed([], "Devices at target " + n + ":", "\n", Spaces);
  }

  lemma ParseHeaderLine(n: string)
    requires PlainName(n)
    ensures StartsWith("Devices at target " + n + ":", DevicesMarker)
    ensures HeaderTarget("Devices at target " + n + ":") == n
  {
    var stripped := "Devices at target " + n + ":";
    assert StartsWith(stripped, DevicesMarker);
    assert stripped[|DevicesMarker|..] == " " + n + ":";
    NotContainedFramed(" ", n, ":", DevicesMarker);
    SplitAfterLeadingSep(stripped, DevicesMarker);
    StripSetFramed(" ", n, ":", AnyOf({':', ' '}));
    StripSetFramed([], n, [], Spaces);
    assert [] + n + [] == n;
  }

  lemma StripDeviceLine(d: string)
    requires PlainName(d)
    ensures Strip(DeviceLine(d)) == "Device: " + d
  {
    assert [] + ("Device: " + d) + "\n" == DeviceLine(d);
    StripSetFramed([], "Device: " + d, "\n", Spaces);
  }

  lemma ParseDeviceLine(d: string)
    requires PlainName(d)
    ensures StartsWith("Device: " + d, DeviceMarker)
    ensures AnnouncedDevice("Device: " + d) == d
  {
    var stripped := "Device: " + d;
    assert StartsWith(stripped, DeviceMarker);
    assert stripped[|DeviceMarker|..] == " " + d + "";
    NotContainedFramed(" ", d, "", DeviceMarker);
    SplitAfterLeadingSep(stripped, DeviceMarker);
    assert " " + d + "" == " " + d;
    StripSetFramed(" ", d, "", Spaces);
  }

  /** `Target: n` is a target announcement of `n`. */
  lemma {:induction false} ClassifyTargetLine(n: string)
    requires PlainName(n)
    ensures KindOf(TargetLine(n)) == TargetKind(n)
  {
    var stripped := "Target: " + n;
    DiffersAt(stripped, PropMarker, 0);
    StripTargetLine(n);
    ParseTargetLine(n);
  }

  /** `Devices at target n:` is the header of the section of `n`. */
  lemma {:induction false} ClassifyHeaderLine(n: string)
    requires PlainName(n)
    ensures KindOf(HeaderLine(n)) == HeaderKind(n)
  {
    var stripped := "Devices at target " + n + ":";
    DiffersAt(stripped, PropMarker, 0);
    DiffersAt(stripped, TargetMarker, 0);
    StripHeaderLine(n);
    ParseHeaderLine(n);
  }

  /** `Device: d` is a device announcement of `d`. */
  lemma {:induction false} ClassifyDeviceLine(d: string)
    requires PlainName(d)
    ensures KindOf(DeviceLine(d)) == DeviceKind(d)
  {
    var stripped := "Device: " + d;
    assert stripped[6] == ':';
    assert DevicesMarker[6] == 's';
    DiffersAt(stripped, DevicesMarker, 6);
    DiffersAt(stripped, PropMarker, 0);
    DiffersAt(stripped, TargetMarker, 0);
    StripDeviceLine(d);
    ParseDeviceLine(d);
  }

  /** Every `#PROP` line is a property line, whatever the device and property text. */
  lemma {:induction false} ClassifyPropLine(d: string, p: string)
    ensures KindOf(PropLine(d, p)) == PropKind
  {
    var line := PropLine(d, p);
    assert line[..|PropMarker|] == PropMarker;
    StripKeepsPrefix(line, PropMarker);
  }

  // ---------------------------------------------------------------------
  // The script's output
  // ---------------------------------------------------------------------

  datatype DeviceReport = DeviceReport(name: string, props: seq<string>)
  datatype TargetReport = TargetReport(name: string, devices: seq<DeviceReport>)

  function PropLines(device: string, props: seq<string>): seq<string> {
    if props == [] then [] else [PropLine(device, props[0])] + PropLines(device, props[1..])
  }

  function DeviceLines(devices: seq<DeviceReport>): seq<string> {
    if devices == [] then []
    else [DeviceLine(devices[0].name)] + PropLines(devices[0].name, devices[0].props) + DeviceLines(devices[1..])
  }

  function Sections(ts: seq<TargetReport>): seq<string> {
    if ts == [] then [] else [HeaderLine(ts[0].name)] + DeviceLines(ts[0].devices) + Sections(ts[1..])
  }

  function Announcements(ts: seq<TargetReport>): seq<string> {
    if ts == [] then [] else [TargetLine(ts[0].name)] + Announcements(ts[1..])
  }

  /** Everything the listing script prints about targets and devices, in order. */
  function ScriptOutput(ts: seq<TargetReport>): seq<string> {
    Announcements(ts) + Sections(ts)
  }

  function DeviceNames(devices: seq<DeviceReport>): (r: seq<string>)
    ensures |r| == |devices| && forall k :: 0 <= k < |devices| ==> r[k] == devices[k].name
  {
    if devices == [] then [] else [devices[0].name] + DeviceNames(devices[1..])
  }

  /** Entries named after `ts`, with no devices yet. */
  function Unfilled(ts: seq<TargetReport>): seq<TargetEntry> {
    seq(|ts|, i requires 0 <= i < |ts| => TargetEntry(ts[i].name, []))
  }

  /** The tree the script's report describes: one entry per target, devices in report order. */
  function Expected(ts: seq<TargetReport>): seq<TargetEntry> {
    seq(|ts|, i requires 0 <= i < |ts| => TargetEntry(ts[i].name, DeviceNames(ts[i].devices)))
  }

  /** Target names are plain and pairwise different; device names are plain. */
  predicate WellFormed(ts: seq<TargetReport>) {
    && (forall i :: 0 <= i < |ts| ==> PlainName(ts[i].name))
    && (forall i, j :: 0 <= i < j < |ts| ==> ts[i].name != ts[j].name)
    && (forall i, k :: 0 <= i < |ts| && 0 <= k < |ts[i].devices| ==> PlainName(ts[i].devices[k].name))
  }

  // ---------------------------------------------------------------------
  // The same output, as the classifier sees it
  // ---------------------------------------------------------------------

  function PropKinds(n: nat): seq<LineKind> {
    seq(n, _ => PropKind)
  }

  function DeviceKinds(devices: seq<DeviceReport>): seq<LineKind> {
    if devices == [] then []
    else [DeviceKind(devices[0].name)] + PropKinds(|devices[0].props|) + DeviceKinds(devices[1..])
  }

  function SectionKinds(ts: seq<TargetReport>): seq<LineKind> {
    if ts == [] then [] else [HeaderKind(ts[0].name)] + DeviceKinds(ts[0].devices) + SectionKinds(ts[1..])
  }

  function AnnouncementKinds(ts: seq<TargetReport>): seq<LineKind> {
    if ts == [] then [] else [TargetKind(ts[0].name)] + AnnouncementKinds(ts[1..])
  }

  /** With a classifier that reads each printed line as intended, the property lines are all `PropKind`. */
  lemma {:induction false} PropLinesMap(f: string -> LineKind, device: string, props: seq<string>)
    requires forall d, p :: f(PropLine(d, p)) == PropKind
    ensures Map(f, PropLines(device, props)) == PropKinds(|props|)
    decreases |props|
  {
    if props != [] {
      MapCons(f, PropLine(device, props[0]), PropLines(device, props[1..]));
      PropLinesMap(f, device, props[1..]);
      assert [PropKind] + PropKinds(|props| - 1) == PropKinds(|props|);
    }
  }

  lemma {:induction false} DeviceLinesMap(f: string -> LineKind, devices: seq<DeviceReport>)
    requires forall d, p :: f(PropLine(d, p)) == PropKind
    requires forall k :: 0 <= k < |devices| ==> f(DeviceLine(devices[k].name)) == DeviceKind(devices[k].name)
    ensures Map(f, DeviceLines(devices)) == DeviceKinds(devices)
    decreases |devices|
  {
    if devices != [] {
      var d := devices[0];
      MapAppend(f, [DeviceLine(d.name)] + PropLines(d.name, d.props), DeviceLines(devices[1..]));
      MapCons(f, DeviceLine(d.name), PropLines(d.name, d.props));
      PropLinesMap(f, d.name, d.props);
      DeviceLinesMap(f, devices[1..]);
    }
  }

  lemma {:induction false} SectionsMap(f: string -> LineKind, ts: seq<TargetReport>)
    requires forall d, p :: f(PropLine(d, p)) == PropKind
    requires forall i :: 0 <= i < |ts| ==> f(HeaderLine(ts[i].name)) == HeaderKind(ts[i].name)
    requires forall i, k :: 0 <= i < |ts| && 0 <= k < |ts[i].devices| ==>
      f(DeviceLine(ts[i].devices[k].name)) == DeviceKind(ts[i].devices[k].name)
    ensures Map(f, Sections(ts)) == SectionKinds(ts)
    decreases |ts|
  {
    if ts != [] {
      var t := ts[0];
      MapAppend(f, [HeaderLine(t.name)] + DeviceLines(t.devices), Sections(ts[1..]));
      MapCons(f, HeaderLine(t.name), DeviceLines(t.devices));
      DeviceLinesMap(f, t.devices);
      SectionsMap(f, ts[1..]);
    }
  }

  lemma {:induction false} AnnouncementsMap(f: string -> LineKind, ts: seq<TargetReport>)
    requires forall i :: 0 <= i < |ts| ==> f(TargetLine(ts[i].name)) == TargetKind(ts[i].name)
    ensures Map(f, Announcements(ts)) == AnnouncementKinds(ts)
    decreases |ts|
  {
    if ts != [] {
      MapCons(f, TargetLine(ts[0].name), Announcements(ts[1..]));
      AnnouncementsMap(f, ts[1..]);
    }
  }

  /** Every line the script prints is classified as the kind of line it was printed as. */
  lemma ScriptKinds(ts: seq<TargetReport>)
    requires WellFormed(ts)
    ensures Kinds(ScriptOutput(ts)) == AnnouncementKinds(ts) + SectionKinds(ts)
  {
    forall d, p
      ensures KindOf(PropLine(d, p)) == PropKind
    {
      ClassifyPropLine(d, p);
    }
    forall i | 0 <= i < |ts|
      ensures KindOf(TargetLine(ts[i].name)) == TargetKind(ts[i].name)
      ensures KindOf(HeaderLine(ts[i].name)) == HeaderKind(ts[i].name)
    {
      ClassifyTargetLine(ts[i].name);
      ClassifyHeaderLine(ts[i].name);
    }
    forall i, k | 0 <= i < |ts| && 0 <= k < |ts[i].devices|
      ensures KindOf(DeviceLine(ts[i].devices[k].name)) == DeviceKind(ts[i].devices[k].name)
    {
      ClassifyDeviceLine(ts[i].devices[k].name);
    }
    MapAppend(KindOf, Announcements(ts), Sections(ts));
    AnnouncementsMap(KindOf, ts);
    SectionsMap(KindOf, ts);
  }

  // ---------------------------------------------------------------------
  // The tree those lines build
  // ---------------------------------------------------------------------

  lemma {:induction false} PropKindsKeep(st: ListState, n: nat)
    ensures Build(st, PropKinds(n)) == st
  {
    if n > 0 {
      assert PropKinds(n) == [PropKind] + PropKinds(n - 1);
      FoldCons(Apply, st, PropKind, PropKinds(n - 1));
      ApplyInert(st, PropKind);
      PropKindsKeep(st, n - 1);
    }
  }

  /** The current entry with `names` appended to its devices; nothing else changed. */
  function AddDevices(st: ListState, names: seq<string>): (r: ListState)
    requires Valid(st) && st.cursor.Some?
    ensures Valid(r) && r.cursor == st.cursor && |r.tree.targets| == |st.tree.targets|
  {
    var c := st.cursor.value;
    var targets := st.tree.targets;
    st.(tree := st.tree.(targets := targets[c := TargetEntry(targets[c].name, targets[c].devices + names)]))
  }

  lemma AddDevicesTwice(st: ListState, a: seq<string>, b: seq<string>)
    requires Valid(st) && st.cursor.Some?
    ensures AddDevices(AddDevices(st, a), b) == AddDevices(st, a + b)
  {
    var c := st.cursor.value;
    assert AddDevices(st, a).tree.targets[c].devices == st.tree.targets[c].devices + a;
    assert st.tree.targets[c].devices + a + b == st.tree.targets[c].devices + (a + b);
  }

  /** One device line and its property lines add that one device to the current entry. */
  lemma OneDevice(st: ListState, d: DeviceReport)
    requires Valid(st) && st.cursor.Some?
    ensures Build(st, [DeviceKind(d.name)] + PropKinds(|d.props|)) == AddDevices(st, [d.name])
  {
    ApplyDevice(st, d.name);
    FoldCons(Apply, st, DeviceKind(d.name), PropKinds(|d.props|));
    PropKindsKeep(Apply(st, DeviceKind(d.name)), |d.props|);
  }

  /** Under a current target, a device section extends that target's devices by the section's names. */
  lemma {:induction false} DeviceKindsFill(st: ListState, devices: seq<DeviceReport>)
    requires Valid(st) && st.cursor.Some?
    ensures Build(st, DeviceKinds(devices)) == AddDevices(st, DeviceNames(devices))
    decreases |devices|
  {
    if devices == [] {
      var c := st.cursor.value;
      assert st.tree.targets[c].devices + [] == st.tree.targets[c].devices;
      assert st.tree.targets[c := st.tree.targets[c]] == st.tree.targets;
    } else {
      var d := devices[0];
      var block := [DeviceKind(d.name)] + PropKinds(|d.props|);
      OneDevice(st, d);
      assert DeviceKinds(devices) == block + DeviceKinds(devices[1..]);
      BuildAppend(st, block, DeviceKinds(devices[1..]));
      DeviceKindsFill(AddDevices(st, [d.name]), devices[1..]);
      AddDevicesTwice(st, [d.name], DeviceNames(devices[1..]));
    }
  }

  /** The announcement block appends one empty entry per target, in order. */
  lemma {:induction false} AnnouncementKindsAppend(st: ListState, ts: seq<TargetReport>)
    ensures Build(st, AnnouncementKinds(ts)).tree == st.tree.(targets := st.tree.targets + Unfilled(ts))
    decreases |ts|
  {
    if ts == [] {
      assert st.tree.targets + Unfilled(ts) == st.tree.targets;
    } else {
      var st1 := Apply(st, TargetKind(ts[0].name));
      ApplyTarget(st, ts[0].name);
      FoldCons(Apply, st, TargetKind(ts[0].name), AnnouncementKinds(ts[1..]));
      AnnouncementKindsAppend(st1, ts[1..]);
      assert st.tree.targets + [TargetEntry(ts[0].name, [])] + Unfilled(ts[1..]) == st.tree.targets + Unfilled(ts);
    }
  }

  /** The search settles on the first entry with the name, so on `k` when no earlier entry has it. */
  lemma FirstNamedAt(targets: seq<TargetEntry>, name: string, k: nat)
    requires k < |targets| && targets[k].name == name
    requires forall j :: 0 <= j < k ==> targets[j].name != name
    ensures FirstNamed(targets, name) == Some(k)
  {
  }

  /** Filling the first unfilled entry moves it from the unfilled part to the filled part. */
  lemma FillOne(done: seq<TargetReport>, t: TargetReport, rest: seq<TargetReport>)
    ensures (Expected(done) + Unfilled([t] + rest))[|done| := TargetEntry(t.name, DeviceNames(t.devices))]
         == Expected(done + [t]) + Unfilled(rest)
  {
    var l := (Expected(done) + Unfilled([t] + rest))[|done| := TargetEntry(t.name, DeviceNames(t.devices))];
    var r := Expected(done + [t]) + Unfilled(rest);
    forall i | 0 <= i < |l|
      ensures l[i] == r[i]
    {
      if i < |done| {
        assert (done + [t])[i] == done[i];
      } else if i > |done| {
        assert ([t] + rest)[i - |done|] == rest[i - |done| - 1];
      }
    }
  }

  /**
    One section, with the entries before it filled and its own entry still
    empty: the header finds that entry (no earlier target has its name) and
    the device lines fill it.
   */
  lemma FillSection(st: ListState, done: seq<TargetReport>, t: TargetReport, later: seq<TargetReport>)
    requires Valid(st)
    requires forall j :: 0 <= j < |done| ==> done[j].name != t.name
    requires st.tree.targets == Expected(done) + Unfilled([t] + later)
    ensures Valid(Build(st, [HeaderKind(t.name)] + DeviceKinds(t.devices)))
    ensures Build(st, [HeaderKind(t.name)] + DeviceKinds(t.devices)).tree
         == st.tree.(targets := Expected(done + [t]) + Unfilled(later))
  {
    var targets := st.tree.targets;
    var k := |done|;
    assert targets[k] == TargetEntry(t.name, []);
    forall j | 0 <= j < k
      ensures targets[j].name != t.name
    {
      assert targets[j].name == done[j].name;
    }
    FirstNamedAt(targets, t.name, k);
    ApplyHeader(st, t.name);
    var st1 := Apply(st, HeaderKind(t.name));
    assert st1 == st.(cursor := Some(k));
    FoldCons(Apply, st, HeaderKind(t.name), DeviceKinds(t.devices));
    DeviceKindsFill(st1, t.devices);
    assert [] + DeviceNames(t.devices) == DeviceNames(t.devices);
    FillOne(done, t, later);
  }

  /**
    With the targets `done` already filled and `rest` still empty, the
    remaining sections fill every entry with its own devices.
   */
  lemma {:induction false} SectionKindsFill(st: ListState, done: seq<TargetReport>, rest: seq<TargetReport>)
    requires Valid(st)
    requires forall i, j :: 0 <= i < j < |done + rest| ==> (done + rest)[i].name != (done + rest)[j].name
    requires st.tree.targets == Expected(done) + Unfilled(rest)
    ensures Build(st, SectionKinds(rest)).tree == st.tree.(targets := Expected(done + rest))
    decreases |rest|
  {
    var all := done + rest;
    if rest == [] {
      assert all == done;
      assert st.tree.targets == Expected(done);
    } else {
      var t := rest[0];
      var section := [HeaderKind(t.name)] + DeviceKinds(t.devices);
      forall j | 0 <= j < |done|
        ensures done[j].name != t.name
      {
        assert all[j] == done[j] && all[|done|] == t;
      }
      assert [t] + rest[1..] == rest;
      FillSection(st, done, t, rest[1..]);
      assert SectionKinds(rest) == section + SectionKinds(rest[1..]);
      BuildAppend(st, section, SectionKinds(rest[1..]));
      assert done + [t] + rest[1..] == all;
      SectionKindsFill(Build(st, section), done + [t], rest[1..]);
    }
  }

  /**
    From the listing script's output, the builder produces exactly one entry
    per target, in announcement order, each holding that target's devices in
    the order they were printed.
   */
  lemma ListingBuildsTree(server: string, ts: seq<TargetReport>)
    requires WellFormed(ts)
    ensures Feed(Initial(server), ScriptOutput(ts)).0.tree == Tree(server, Expected(ts))
  {
    var st0 := Initial(server);
    FeedBuilds(st0, ScriptOutput(ts));
    ScriptKinds(ts);
    BuildAppend(st0, AnnouncementKinds(ts), SectionKinds(ts));
    AnnouncementKindsAppend(st0, ts);
    var st1 := Build(st0, AnnouncementKinds(ts));
    BuildKeepsValid(st0, AnnouncementKinds(ts));
    assert [] + ts == ts;
    assert st1.tree.targets == Expected([]) + Unfilled(ts);
    SectionKindsFill(st1, [], ts);
  }

  /**
    The same holds for the real output, whatever banner, echo or property
    lines the tool mixes in, as long as its structural lines are the script's.
   */
  lemma {:induction false} ListingTreeDespiteNoise(server: string, ts: seq<TargetReport>, lines: seq<string>)
    requires WellFormed(ts)
    requires Filter(Structural, lines) == Filter(Structural, ScriptOutput(ts))
    ensures Feed(Initial(server), lines).0.tree == Tree(server, Expected(ts))
  {
    NoiseKeepsState(Initial(server), lines);
    NoiseKeepsState(Initial(server), ScriptOutput(ts));
    ListingBuildsTree(server, ts);
  }
  // ---------------------------------------------------------------------
  // Sections that name no known target
  // ---------------------------------------------------------------------

  /** Device lines with no current target change nothing, however many there are. */
  lemma {:induction false} CursorlessDevicesInert(st: ListState, ks: seq<LineKind>)
    requires st.cursor.None?
    requires forall i :: 0 <= i < |ks| ==> ks[i].DeviceKind?
    ensures Build(st, ks) == st
    decreases |ks|
  {
    if ks != [] {
      ApplyInert(st, ks[0]);
      FoldCons(Apply, st, ks[0], ks[1..]);
      assert [ks[0]] + ks[1..] == ks;
      CursorlessDevicesInert(st, ks[1..]);
    }
  }

  /**
    A `Devices at target n:` header for a target never announced clears the
    cursor, and every device line after it is dropped: the tree is unchanged.
   */
  lemma OrphanSectionDropped(st: ListState, n: string, ks: seq<LineKind>)
    requires forall j :: 0 <= j < |st.tree.targets| ==> st.tree.targets[j].name != n
    requires forall i :: 0 <= i < |ks| ==> ks[i].DeviceKind?
    ensures Build(st, [HeaderKind(n)] + ks) == st.(cursor := None)
  {
    FoldCons(Apply, st, HeaderKind(n), ks);
    CursorlessDevicesInert(st.(cursor := None), ks);
  }

  // ---------------------------------------------------------------------
  // Targets announced one at a time, each followed by its section
  // ---------------------------------------------------------------------

  /**
    A target announced and listed at once: `Target: n`, `Devices at target n:`
    and its device lines, for every target in turn.
   */
  function InterleavedKinds(ts: seq<TargetReport>): seq<LineKind> {
    if ts == [] then []
    else [TargetKind(ts[0].name), HeaderKind(ts[0].name)] + DeviceKinds(ts[0].devices) + InterleavedKinds(ts[1..])
  }

  /**
    A target not seen before, announced and then listed, gets a new last
    entry holding exactly its devices, in order, and stays current.
   */
  lemma FreshSection(st: ListState, t: TargetReport)
    requires Valid(st)
    requires forall j :: 0 <= j < |st.tree.targets| ==> st.tree.targets[j].name != t.name
    ensures var r := Build(st, [TargetKind(t.name), HeaderKind(t.name)] + DeviceKinds(t.devices));
      && Valid(r)
      && r.tree.server == st.tree.server
      && r.tree.targets == st.tree.targets + [TargetEntry(t.name, DeviceNames(t.devices))]
      && r.cursor == Some(|st.tree.targets|)
  {
    var n := t.name;
    var st1 := Apply(st, TargetKind(n));
    ApplyTarget(st, n);
    FirstNamedAt(st1.tree.targets, n, |st.tree.targets|);
    var st2 := Apply(st1, HeaderKind(n));
    assert st2 == st1;
    DeviceKindsFill(st2, t.devices);
    assert [TargetKind(n), HeaderKind(n)] + DeviceKinds(t.devices) == [TargetKind(n)] + ([HeaderKind(n)] + DeviceKinds(t.devices));
    FoldCons(Apply, st, TargetKind(n), [HeaderKind(n)] + DeviceKinds(t.devices));
    FoldCons(Apply, st1, HeaderKind(n), DeviceKinds(t.devices));
    assert [] + DeviceNames(t.devices) == DeviceNames(t.devices);
  }

  lemma ExpectedSnoc(done: seq<TargetReport>, t: TargetReport)
    ensures Expected(done) + [TargetEntry(t.name, DeviceNames(t.devices))] == Expected(done + [t])
  {
    assert (done + [t])[|done|] == t;
    forall i | 0 <= i < |done| ensures (done + [t])[i] == done[i] { }
  }

  lemma {:induction false} InterleavedFill(st: ListState, done: seq<TargetReport>, ts: seq<TargetReport>)
    requires Valid(st) && st.tree.targets == Expected(done)
    requires forall i, j :: 0 <= i < |done| && 0 <= j < |ts| ==> done[i].name != ts[j].name
    requires forall i, j :: 0 <= i < j < |ts| ==> ts[i].name != ts[j].name
    ensures Build(st, InterleavedKinds(ts)).tree == Tree(st.tree.server, Expected(done + ts))
    decreases |ts|
  {
    if ts == [] {
      assert done + ts == done;
    } else {
      var t := ts[0];
      var block := [TargetKind(t.name), HeaderKind(t.name)] + DeviceKinds(t.devices);
      FreshSection(st, t);
      var st1 := Build(st, block);
      ExpectedSnoc(done, t);
      BuildAppend(st, block, InterleavedKinds(ts[1..]));
      assert InterleavedKinds(ts) == block + InterleavedKinds(ts[1..]);
      InterleavedFill(st1, done + [t], ts[1..]);
      assert done + [t] + ts[1..] == done + ts;
    }
  }

  /**
    The tree does not depend on all targets being announced first: output
    that announces each target just before its own section (as in `Target: A`,
    `Devices at target A:`, `Device: d1`, `Device: d2`, `Target: B`,
    `Devices at target B:`, `Device: d3`) builds the same tree.
   */
  lemma InterleavedListing(server: string, ts: seq<TargetReport>)
    requires WellFormed(ts)
    ensures Build(Initial(server), InterleavedKinds(ts)).tree == Tree(server, Expected(ts))
  {
    assert [] + ts == ts;
    InterleavedFill(Initial(server), [], ts);
  }
}
