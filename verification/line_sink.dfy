/**
  What the three streaming operations share: the lines read from the tool's
  standard output, the test that keeps a line off the web console, the points
  at which the body of a stream can raise, and the constant texts the streams
  emit around the tool's own output.
 */
module LineSink {
  import opened Wrappers
  import opened PyStr
  import TreeBuilder

  // ---------------------------------------------------------------------
  // Reading the tool's output
  // ---------------------------------------------------------------------

  predicate NonEmptyLines(lines: seq<string>) {
    forall i :: 0 <= i < |lines| ==> lines[i] != ""
  }

  /**
    `for line in iter(process.stdout.readline, '')`: the results of successive
    `readline()` calls up to, not including, the first empty one (end of file).
   */
  function ReadLines(results: seq<string>): (lines: seq<string>)
    ensures |lines| <= |results| && lines == results[..|lines|]
    ensures NonEmptyLines(lines)
    ensures |lines| < |results| ==> results[|lines|] == ""
    decreases |results|
  {
    if results == [] || results[0] == "" then [] else [results[0]] + ReadLines(results[1..])
  }

  // ---------------------------------------------------------------------
  // The console filter
  // ---------------------------------------------------------------------

  /** `text.lstrip().startswith("#")`: comment and property output stays in the log only. */
  predicate Hidden(text: string) {
    StartsWith(LStrip(text), "#")
  }

  predicate Visible(text: string) {
    !Hidden(text)
  }

  /**
    The programming streams test `lstrip()` and the listing stream tests
    `strip()`; for a leading `#` the two tests always agree.
   */
  lemma VisibleIffShown(text: string)
    ensures Visible(text) <==> TreeBuilder.Shown(text)
  {
    StripAgreesWithLStrip(text, '#');
  }

  /** A text whose first character is neither whitespace nor `#` is shown. */
  lemma {:induction false} VisibleWhenSolid(text: string)
    requires |text| > 0 && !IsSpace(text[0]) && text[0] != '#'
    ensures Visible(text)
  {
    assert LStrip(text) == text;
    DiffersAt(text, "#", 0);
  }

  /** A text that is a newline followed by a text that starts with neither whitespace nor `#` is shown. */
  lemma VisibleAfterNewline(rest: string)
    requires |rest| > 0 && !IsSpace(rest[0]) && rest[0] != '#'
    ensures Visible("\n" + rest)
  {
    LStripSetSkips("\n", rest, Spaces);
    DiffersAt(rest, "#", 0);
  }

  // ---------------------------------------------------------------------
  // Where a stream's body can raise
  // ---------------------------------------------------------------------

  /**
    The step of a stream's `try` block that raised: writing the generated TCL
    file, opening the log file, starting the tool, or reading or logging the
    tool's output after `lines` lines were handled (a count at or past the
    end of the output means closing the pipe or waiting for the tool raised).
   */
  datatype Stage = WritingScript | OpeningLog | Spawning | Reading(lines: nat)

  /** The raise, with the text `traceback.format_exc()` produced for it. */
  datatype Fault = Fault(stage: Stage, trace: string)

  /**
    Everything about one run that comes from outside the stream: the log and
    TCL paths (they carry a timestamp), whether the Vivado settings script
    exists, and the raise, if any.
   */
  datatype Env = Env(logPath: string, tclPath: string, settingsExists: bool, fault: Option<Fault>)

  predicate RaisesAt(env: Env, stage: Stage) {
    env.fault.Some? && env.fault.value.stage == stage
  }

  predicate RaisesReading(env: Env) {
    env.fault.Some? && env.fault.value.stage.Reading?
  }

  /** The lines handled before the loop stopped: all of them, or those before a raise while reading. */
  function Handled(env: Env, lines: seq<string>): (r: seq<string>)
    ensures |r| <= |lines| && r == lines[..|r|]
    ensures !RaisesReading(env) ==> r == lines
    ensures RaisesReading(env) && env.fault.value.stage.lines <= |lines| ==> |r| == env.fault.value.stage.lines
  {
    if RaisesReading(env) && env.fault.value.stage.lines < |lines| then lines[..env.fault.value.stage.lines]
    else lines
  }

  /** The lines a run's read loop handles, given the results of its `readline()` calls. */
  function ToolLines(env: Env, results: seq<string>): seq<string> {
    Handled(env, ReadLines(results))
  }

  // ---------------------------------------------------------------------
  // Constant texts
  // ---------------------------------------------------------------------

  /** A line break, then `===== title =====` and a line break: the banner every synthetic block opens with. */
  function Banner(title: string): string {
    "\n" + ("===== " + title + " =====\n")
  }

  /** The text a stream's `except` handler yields and appends to the log. */
  function ExceptionText(trace: string): string {
    Banner("Python Exception") + trace
  }

  /**
    A raise that escaped the stream's own handler, caught by the job worker:
    it came after the stream had yielded `after` items, and `message` is `str(e)`.
   */
  datatype Escape = Escape(after: nat, message: string)

  /** The text a job worker pushes when its stream raised out of its own handler. */
  function WorkerExceptionText(message: string): string {
    Banner("Worker Exception") + message + "\n"
  }

  function SettingsError(settings: string): string {
    "ERROR: Vivado settings file not found: " + settings + "\n"
  }

  lemma SettingsErrorVisible(settings: string)
    ensures Visible(SettingsError(settings))
  {
    VisibleWhenSolid(SettingsError(settings));
  }

  /** A banner and whatever follows it is shown: it opens with a line break and `=`. */
  lemma BannerVisible(title: string, more: string)
    ensures Visible(Banner(title) + more)
  {
    var rest := "===== " + title + " =====\n" + more;
    assert rest[0] == '=';
    assert Banner(title) + more == "\n" + rest;
    VisibleAfterNewline(rest);
  }

  // ---------------------------------------------------------------------
  // What a stream produces
  // ---------------------------------------------------------------------

  /** One item yielded to the browser by the listing and flash streams: a `{"type": "log"}` or `{"type": "tree"}` dict. */
  datatype Item = LogItem(line: string) | TreeItem(tree: TreeBuilder.Tree)

  /** Each line wrapped as a `{"type": "log", "line": ...}` dict. */
  function LogItems(lines: seq<string>): seq<Item> {
    seq(|lines|, i requires 0 <= i < |lines| => LogItem(lines[i]))
  }

  lemma LogItemsAppend(a: seq<string>, b: seq<string>)
    ensures LogItems(a + b) == LogItems(a) + LogItems(b)
  {
  }

  /** The items a stream yields, and the texts it writes to its log file, in order. */
  datatype Run<T> = Run(items: seq<T>, log: seq<string>)
}
