/**
  The hardware-listing line processor (`write_and_yield` inside
  `stream_list_hw`): a state machine over the tool's output lines that builds
  a server -> targets -> devices tree and decides which lines are shown live.
  The Python keeps a reference to the current target's dict; entries are never
  removed or reordered, so an index into `targets` is the same cursor.
 */
module TreeBuilder {
  import opened Wrappers
  import opened PyStr
  import opened Seqs

  datatype TargetEntry = TargetEntry(name: string, devices: seq<string>)
  datatype Tree = Tree(server: string, targets: seq<TargetEntry>)

  /** The tree so far and the "current target" cursor. */
  datatype ListState = ListState(tree: Tree, cursor: Option<nat>)

  predicate Valid(st: ListState) {
    st.cursor.Some? ==> st.cursor.value < |st.tree.targets|
  }

  /** `tree = {"server": hw_server, "targets": []}` and `current_target = None`. */
  function Initial(server: string): (st: ListState)
    ensures Valid(st) && st.tree.server == server && st.tree.targets == [] && st.cursor.None?
  {
    ListState(Tree(server, []), None)
  }

  const PropMarker: string := "#PROP"
  const TargetMarker: string := "Target:"
  const DevicesMarker: string := "Devices at target"
  const DeviceMarker: string := "Device:"

  lemma StartsWithContains(s: string, prefix: string)
    requires StartsWith(s, prefix)
    ensures Contains(s, prefix)
  {
    assert OccursAt(s, prefix, 0);
  }

  /** `stripped.split("Target:")[1].strip()` */
  function AnnouncedTarget(stripped: string): string
    requires StartsWith(stripped, TargetMarker)
  {
    StartsWithContains(stripped, TargetMarker);
    Strip(Split(stripped, TargetMarker)[1])
  }

  /** `stripped.split("Devices at target")[-1].strip(": ").strip()` */
  function HeaderTarget(stripped: string): string {
    var pieces := Split(stripped, DevicesMarker);
    Strip(StripSet(pieces[|pieces| - 1], AnyOf({':', ' '})))
  }

  /** `stripped.split("Device:")[1].strip()` */
  function AnnouncedDevice(stripped: string): string
    requires StartsWith(stripped, DeviceMarker)
  {
    StartsWithContains(stripped, DeviceMarker);
    Strip(Split(stripped, DeviceMarker)[1])
  }

  /** The entry the `for t in tree["targets"]: ... break / else` search settles on. */
  function FirstNamed(targets: seq<TargetEntry>, name: string): (r: Option<nat>)
    ensures r.Some? ==> r.value < |targets| && targets[r.value].name == name
    ensures r.Some? ==> forall j :: 0 <= j < r.value ==> targets[j].name != name
    ensures r.None? ==> forall j :: 0 <= j < |targets| ==> targets[j].name != name
  {
    if targets == [] then None
    else if targets[0].name == name then Some(0)
    else match FirstNamed(targets[1..], name)
      case None => None
      case Some(i) => Some(i + 1)
  }

  /** What the branch chain of `write_and_yield` makes of one stripped line. */
  datatype LineKind =
    | PropKind                  // `#PROP ...`: skipped before the chain
    | TargetKind(name: string)  // `Target: name`
    | HeaderKind(name: string)  // `Devices at target name:`
    | DeviceKind(name: string)  // `Device: name`
    | OtherKind                 // anything else

  /**
    The tests of `write_and_yield`, in their order: `#PROP` first, then
    `Target:`, `Devices at target`, `Device:`; the first prefix that matches
    decides, and the name is cut out of the line as the source cuts it.
   */
  function Classify(stripped: string): (k: LineKind)
    ensures k.PropKind? <==> StartsWith(stripped, PropMarker)
    ensures k.TargetKind? <==> !StartsWith(stripped, PropMarker) && StartsWith(stripped, TargetMarker)
    ensures k.HeaderKind? <==>
      !StartsWith(stripped, PropMarker) && !StartsWith(stripped, TargetMarker) && StartsWith(stripped, DevicesMarker)
    ensures k.DeviceKind? <==>
      && !StartsWith(stripped, PropMarker) && !StartsWith(stripped, TargetMarker)
      && !StartsWith(stripped, DevicesMarker) && StartsWith(stripped, DeviceMarker)
    ensures k.TargetKind? ==> k.name == AnnouncedTarget(stripped)
    ensures k.HeaderKind? ==> k.name == HeaderTarget(stripped)
    ensures k.DeviceKind? ==> k.name == AnnouncedDevice(stripped)
  {
    if StartsWith(stripped, PropMarker) then PropKind
    else if StartsWith(stripped, TargetMarker) then TargetKind(AnnouncedTarget(stripped))
    else if StartsWith(stripped, DevicesMarker) then HeaderKind(HeaderTarget(stripped))
    else if StartsWith(stripped, DeviceMarker) then DeviceKind(AnnouncedDevice(stripped))
    else OtherKind
  }

  /**
    The "build tree" branch chain of `write_and_yield`, on a classified line.
    The in-range test on the cursor stands for `current_target is not None`:
    a cursor always points at an entry (`Valid`), so that test never fails.
    What each kind of line does is stated by the four lemmas below.
   */
  function Apply(st: ListState, k: LineKind): (r: ListState)
    ensures Valid(st) ==> Valid(r)
    ensures r.tree.server == st.tree.server
  {
    var targets := st.tree.targets;
    match k
    case TargetKind(name) =>
      ListState(st.tree.(targets := targets + [TargetEntry(name, [])]), Some(|targets|))
    case HeaderKind(name) =>
      st.(cursor := FirstNamed(targets, name))
    case DeviceKind(name) =>
      if st.cursor.Some? && st.cursor.value < |targets| then
        var c := st.cursor.value;
        st.(tree := st.tree.(targets := targets[c := targets[c].(devices := targets[c].devices + [name])]))
      else st
    case _ => st
  }

  /** A target announcement appends a fresh entry with no devices, after all others, and makes it current. */
  lemma ApplyTarget(st: ListState, name: string)
    ensures Apply(st, TargetKind(name)).tree.targets == st.tree.targets + [TargetEntry(name, [])]
    ensures Apply(st, TargetKind(name)).cursor == Some(|st.tree.targets|)
  {
  }

  /** A section header leaves the tree alone and moves the cursor to the first entry with that name, or to nowhere. */
  lemma ApplyHeader(st: ListState, name: string)
    ensures var r := Apply(st, HeaderKind(name));
      && r.tree == st.tree
      && (r.cursor.Some? ==> r.cursor.value < |st.tree.targets| && st.tree.targets[r.cursor.value].name == name)
      && (r.cursor.Some? ==> forall j :: 0 <= j < r.cursor.value ==> st.tree.targets[j].name != name)
      && (r.cursor.None? ==> forall j :: 0 <= j < |st.tree.targets| ==> st.tree.targets[j].name != name)
  {
  }

  /** A device under a current target is appended to that entry's devices; nothing else changes. */
  lemma ApplyDevice(st: ListState, name: string)
    requires Valid(st) && st.cursor.Some?
    ensures var c := st.cursor.value; var r := Apply(st, DeviceKind(name));
      && r.cursor == st.cursor
      && r.tree.targets == st.tree.targets[c := TargetEntry(st.tree.targets[c].name, st.tree.targets[c].devices + [name])]
  {
  }

  /** Property lines, other lines and a device with no current target change nothing. */
  lemma ApplyInert(st: ListState, k: LineKind)
    requires k.PropKind? || k.OtherKind? || (k.DeviceKind? && st.cursor.None?)
    ensures Apply(st, k) == st
  {
  }

  /** A line that reaches the live view: its stripped text does not start with `#`. */
  predicate Shown(text: string) {
    !StartsWith(Strip(text), "#")
  }

  /**
    `write_and_yield(text)` of the listing job, without the log write (the
    caller logs every line first). `#PROP` lines leave tree and cursor alone;
    a line is returned for the live view exactly when it is `Shown`.
   */
  function WriteAndYield(st: ListState, text: string): (r: (ListState, Option<string>))
    ensures Valid(st) ==> Valid(r.0)
    ensures r.0 == Apply(st, Classify(Strip(text)))
    ensures r.1 == (if Shown(text) then Some(text) else None)
  {
    var stripped := Strip(text);
    if StartsWith(stripped, PropMarker) then
      assert stripped[..1] == PropMarker[..1];
      (st, None)
    else
      (Apply(st, Classify(stripped)), if !StartsWith(stripped, "#") then Some(text) else None)
  }

  /** `if visible_line: yield ...`: `None` and the empty text are falsy in Python. */
  function Truthy(v: Option<string>): seq<string> {
    if v.Some? && v.value != "" then [v.value] else []
  }

  /** One turn of the loop: process the line, then yield it if the result is truthy. */
  function Next(st: ListState, line: string): (ListState, seq<string>) {
    var w := WriteAndYield(st, line);
    (w.0, Truthy(w.1))
  }

  /**
    The `for line in ...: visible_line = write_and_yield(line); if visible_line: ...`
    loop: the final state, and the lines forwarded live in order.
   */
  function Feed(st: ListState, lines: seq<string>): (ListState, seq<string>) {
    Scan(Next, st, lines)
  }

  /** The cursor never leaves the target list, however many lines are processed. */
  lemma {:induction false} FeedKeepsValid(st: ListState, lines: seq<string>)
    requires Valid(st)
    ensures Valid(Feed(st, lines).0)
    decreases |lines|
  {
    if lines != [] {
      ScanCons(Next, st, lines[0], lines[1..]);
      assert [lines[0]] + lines[1..] == lines;
      FeedKeepsValid(Next(st, lines[0]).0, lines[1..]);
    }
  }

  /** One turn yields a non-empty line exactly when it is `Shown`, and nothing else. */
  lemma NextShows(st: ListState, line: string)
    requires line != ""
    ensures Next(st, line).1 == (if Shown(line) then [line] else [])
  {
  }

  /**
    The loop forwards exactly the `Shown` lines, in order, when no line is
    empty (`readline` never returns an empty line before end of output).
   */
  lemma {:induction false} FeedShowsFiltered(st: ListState, lines: seq<string>)
    requires forall i :: 0 <= i < |lines| ==> lines[i] != ""
    ensures Feed(st, lines).1 == Filter(Shown, lines)
  {
    forall s: ListState, i | 0 <= i < |lines|
      ensures Next(s, lines[i]).1 == (if Shown(lines[i]) then [lines[i]] else [])
    {
      NextShows(s, lines[i]);
    }
    ScanEmitsFilter(Next, Shown, st, lines);
  }

  /**
    Feeding two stretches of output one after the other ends in the same
    state, and shows the same lines, as feeding both at once.
   */
  lemma FeedAppend(st: ListState, a: seq<string>, b: seq<string>)
    ensures Feed(st, a + b).0 == Feed(Feed(st, a).0, b).0
    ensures Feed(st, a + b).1 == Feed(st, a).1 + Feed(Feed(st, a).0, b).1
  {
    ScanAppend(Next, st, a, b);
  }

  // ---------------------------------------------------------------------
  // The tree, from the classified lines alone
  // ---------------------------------------------------------------------

  /** The classification of one raw line, as `write_and_yield` makes it. */
  function KindOf(line: string): LineKind {
    Classify(Strip(line))
  }

  /** How each line is classified, in order. */
  function Kinds(lines: seq<string>): seq<LineKind> {
    Map(KindOf, lines)
  }

  /** The tree-building effect of a run of classified lines. */
  function Build(st: ListState, ks: seq<LineKind>): ListState {
    Fold(Apply, st, ks)
  }

  lemma BuildKeepsValid(st: ListState, ks: seq<LineKind>)
    requires Valid(st)
    ensures Valid(Build(st, ks))
  {
    FoldKeeps(Apply, Valid, st, ks);
  }

  /** The loop's final state depends on the lines only through their classification. */
  lemma {:induction false} FeedBuilds(st: ListState, lines: seq<string>)
    ensures Feed(st, lines).0 == Build(st, Kinds(lines))
    decreases |lines|
  {
    if lines != [] {
      ScanCons(Next, st, lines[0], lines[1..]);
      assert [lines[0]] + lines[1..] == lines;
      MapCons(KindOf, lines[0], lines[1..]);
      FoldCons(Apply, st, KindOf(lines[0]), Kinds(lines[1..]));
      FeedBuilds(Next(st, lines[0]).0, lines[1..]);
    }
  }

  lemma BuildAppend(st: ListState, a: seq<LineKind>, b: seq<LineKind>)
    ensures Build(st, a + b) == Build(Build(st, a), b)
  {
    FoldAppend(Apply, st, a, b);
  }

  // ---------------------------------------------------------------------
  // Lines that cannot change the tree
  // ---------------------------------------------------------------------

  /** The kinds of line that can change the tree. */
  predicate Moves(k: LineKind) {
    k.TargetKind? || k.HeaderKind? || k.DeviceKind?
  }

  /** A line that is a target announcement, a section header or a device announcement. */
  predicate Structural(text: string) {
    Moves(KindOf(text))
  }

  /** Only the moving kinds matter to the tree; the rest can be dropped wherever they occur. */
  lemma BuildSkipsInert(st: ListState, ks: seq<LineKind>)
    ensures Build(st, ks) == Build(st, Filter(Moves, ks))
  {
    forall s, k | !Moves(k)
      ensures Apply(s, k) == s
    {
      ApplyInert(s, k);
    }
    FoldSkips(Apply, Moves, st, ks);
  }

  /**
    Banner text, `#PROP` dumps and any other non-structural lines can be
    dropped from the output, wherever they occur, without changing the tree.
   */
  lemma {:induction false} NoiseKeepsState(st: ListState, lines: seq<string>)
    ensures Feed(st, lines).0 == Feed(st, Filter(Structural, lines)).0
  {
    FeedBuilds(st, lines);
    FeedBuilds(st, Filter(Structural, lines));
    MapFilter(KindOf, Moves, Structural, lines);
    BuildSkipsInert(st, Kinds(lines));
    BuildSkipsInert(st, Kinds(Filter(Structural, lines)));
    FilterTwice(Moves, Kinds(lines));
  }
}
