/**
  The "Program FPGA" operation: which uploads count as bitstreams, the
  parameter blocks of the generated TCL script, the stream of console lines
  and log writes for one run, and the job queue that serialises runs.
  Items of this stream are bare strings; `yield write_and_yield(text)` could
  in principle yield `None`, so items are `Option<string>`.
 */
module ProgramFpga {
  import opened Wrappers
  import opened PyStr
  import opened Seqs
  import opened TclBlocks
  import opened LineSink
  import Channel

  const Settings: string := "/tools/Xilinx/Vivado/2022.2/settings64.sh"
  const Finished: string := Banner("FPGA Programming Finished")

  /** `allowed_file`: the text after the last `.`, lower-cased, is `bit` or `bin`. */
  predicate AllowedFile(filename: string) {
    '.' in filename && Lower(AfterLast(filename, '.')) in {"bit", "bin"}
  }

  /** The accepted names, stated without searching: the last four characters are `.` and `bit` or `bin` in any case. */
  predicate HasBitstreamExtension(filename: string) {
    var n := |filename|;
    n >= 4 && filename[n - 4] == '.'
    && LowerChar(filename[n - 3]) == 'b' && LowerChar(filename[n - 2]) == 'i'
    && (LowerChar(filename[n - 1]) == 't' || LowerChar(filename[n - 1]) == 'n')
  }

  lemma AllowedFileIff(filename: string)
    ensures AllowedFile(filename) <==> HasBitstreamExtension(filename)
  {
    if AllowedFile(filename) {
      var ext := AfterLast(filename, '.');
      AfterLastShorter(filename, '.');
      assert |Lower(ext)| == 3;
      assert ext == filename[|filename| - 3..];
      assert Lower(ext)[0] == LowerChar(ext[0]);
      assert Lower(ext)[1] == LowerChar(ext[1]);
      assert Lower(ext)[2] == LowerChar(ext[2]);
    }
    if HasBitstreamExtension(filename) {
      var n := |filename|;
      var ext := filename[n - 3..];
      assert filename == filename[..n - 4] + ['.'] + ext;
      assert '.' !in ext by {
        assert ext[0] == filename[n - 3] && ext[1] == filename[n - 2] && ext[2] == filename[n - 1];
      }
      AfterLastUnique(filename[..n - 4], '.', ext);
      assert filename[n - 4] == '.';
      var low := Lower(ext);
      assert low == "bit" || low == "bin";
    }
  }

  /** The job dict built for one upload: `bit_path`, `ltx_path`, `hw_server`, `targets`. */
  datatype FpgaJob = FpgaJob(bitPath: string, ltxPath: Option<string>, hwServer: string, targets: seq<TargetRef>)

  /** The `hw_targets`, `bitfiles` and `ltxfiles` lists of the generated script, in that order. */
  function ParameterBlocks(job: FpgaJob, ltxExists: bool): string {
    SetBlock("hw_targets", HwTargetsBlock(job.hwServer, job.targets))
    + SetBlock("bitfiles", BitfilesBlock(job.bitPath, job.targets))
    + SetBlock("ltxfiles", LtxfilesBlock(job.ltxPath, ltxExists, job.targets))
  }

  /** No text of the job can break a line of the script. */
  predicate OneLineJob(job: FpgaJob) {
    && OneLine(job.hwServer) && OneLine(job.bitPath)
    && (job.ltxPath.Some? ==> OneLine(job.ltxPath.value))
    && forall i :: 0 <= i < |job.targets| ==> OneLine(job.targets[i].target) && OneLine(job.targets[i].device)
  }

  /**
    Read back line by line, the three lists each hold one line per target, in
    the order of the job's targets, so line `i` of each list belongs to
    target `i`: its entry, its bitstream and its probes file.
   */
  lemma ParameterBlocksLines(job: FpgaJob, ltxExists: bool)
    requires OneLineJob(job)
    ensures var n := |job.targets|;
      Cut(ParameterBlocks(job, ltxExists), '\n')
        == SetBlockRead("hw_targets", HwTargetEntries(job.hwServer, job.targets))
         + SetBlockRead("bitfiles", Repeat(QuotedEntry(job.bitPath), n))
         + SetBlockRead("ltxfiles", Repeat(LtxEntry(job.ltxPath, ltxExists), n))
         + [""]
  {
    var ts := job.targets;
    var hs := HwTargetEntries(job.hwServer, ts);
    var bs := Repeat(QuotedEntry(job.bitPath), |ts|);
    var ls := Repeat(LtxEntry(job.ltxPath, ltxExists), |ts|);
    QuotedOneLine(job.bitPath);
    QuotedOneLine("");
    if job.ltxPath.Some? {
      QuotedOneLine(job.ltxPath.value);
    }
    forall i | 0 <= i < |ts| ensures OneLine(hs[i]) {
      EntryOneLine(job.hwServer, ts[i]);
    }
    ThreeSetBlocksLines("hw_targets", hs, "bitfiles", bs, "ltxfiles", ls);
  }

  // ---------------------------------------------------------------------
  // The stream of one run
  // ---------------------------------------------------------------------

  /** `write_and_yield(text)` after the write: the text, or `None` when it is hidden. */
  function Echo(text: string): (r: Option<string>)
    ensures r.Some? <==> Visible(text)
    ensures r.Some? ==> r.value == text
  {
    if Visible(text) then Some(text) else None
  }

  /** The read loop: each line is written, and yielded when `write_and_yield` returns a non-empty text. */
  function Relay(lines: seq<string>): seq<string>
    decreases |lines|
  {
    if lines == [] then []
    else
      var v := Echo(lines[0]);
      (if v.Some? && v.value != "" then [v.value] else []) + Relay(lines[1..])
  }

  /** The read loop shows exactly the visible lines, in order. */
  lemma {:induction false} RelayShowsVisible(lines: seq<string>)
    requires NonEmptyLines(lines)
    ensures Relay(lines) == Filter(Visible, lines)
    decreases |lines|
  {
    if lines != [] {
      RelayShowsVisible(lines[1..]);
    }
  }

  function LogHeader(env: Env): string {
    "Log file: " + env.logPath + "\n"
  }

  function TclHeader(env: Env): string {
    "TCL file: " + env.tclPath + "\n\n"
  }

  function Raised(env: Env): string
    requires env.fault.Some?
  {
    ExceptionText(env.fault.value.trace)
  }

  /**
    `stream_vivado`: what one run yields and writes to its log, given the
    results of the `readline()` calls on the tool's output.
   */
  function StreamVivado(env: Env, results: seq<string>): Run<Option<string>> {
    if RaisesAt(env, WritingScript) then Run([Some(Raised(env))], [Raised(env)])
    else
      var headers := [Some(LogHeader(env)), Some(TclHeader(env))];
      if RaisesAt(env, OpeningLog) then Run(headers + [Some(Raised(env))], [Raised(env)])
      else if !env.settingsExists then Run(headers + [Echo(SettingsError(Settings))], [SettingsError(Settings)])
      else if RaisesAt(env, Spawning) then Run(headers + [Some(Raised(env))], [Raised(env)])
      else
        var tool := ToolOutput(env, results);
        Run(headers + tool.items, tool.log)
  }

  /** The part of a run after the tool started: the read loop, then the finish banner or the exception text. */
  function ToolOutput(env: Env, results: seq<string>): Run<Option<string>> {
    var lines := ToolLines(env, results);
    if RaisesReading(env) then Run(Channel.Lift(Relay(lines)) + [Some(Raised(env))], lines + [Raised(env)])
    else Run(Channel.Lift(Relay(lines)) + [Echo(Finished)], lines + [Finished])
  }

  /** The tool part shows the visible handled lines, then the closing text, and never `None`. */
  lemma {:induction false} ToolOutputShows(env: Env, results: seq<string>)
    ensures var r := ToolOutput(env, results);
      var lines := ToolLines(env, results);
      var closing := if RaisesReading(env) then Raised(env) else Finished;
      && r.items == Channel.Lift(Filter(Visible, lines) + [closing])
      && r.log == lines + [closing]
  {
    var lines := ToolLines(env, results);
    var closing := if RaisesReading(env) then Raised(env) else Finished;
    RelayShowsVisible(lines);
    FinishedVisible();
    Channel.LiftSnoc(Relay(lines), closing);
    assert ToolOutput(env, results).items == Channel.Lift(Relay(lines) + [closing]);
  }

  lemma FinishedVisible()
    ensures Visible(Finished)
  {
    BannerVisible("FPGA Programming Finished", "");
    assert Finished + "" == Finished;
  }

  /**
    The stream never yields `None`, so the worker never pushes an end marker
    early: the error and finish texts that go through `write_and_yield` are
    always visible.
   */
  lemma NeverYieldsNone(env: Env, results: seq<string>)
    ensures Channel.NoSentinel(StreamVivado(env, results).items)
  {
    var headers := [Some(LogHeader(env)), Some(TclHeader(env))];
    if !RaisesAt(env, WritingScript) && !RaisesAt(env, OpeningLog) && env.settingsExists && !RaisesAt(env, Spawning) {
      ToolOutputShows(env, results);
      Channel.NoSentinelAppend(headers, ToolOutput(env, results).items);
    } else if !RaisesAt(env, WritingScript) && !RaisesAt(env, OpeningLog) && !env.settingsExists {
      SettingsErrorVisible(Settings);
    }
  }

  /** Once the tool has started, a run is the two headers followed by the tool part. */
  lemma {:induction false} StartedRun(env: Env, results: seq<string>)
    requires env.settingsExists && (env.fault.None? || RaisesReading(env))
    ensures StreamVivado(env, results)
         == Run(Channel.Lift([LogHeader(env), TclHeader(env)]) + ToolOutput(env, results).items, ToolOutput(env, results).log)
  {
    assert Channel.Lift([LogHeader(env), TclHeader(env)]) == [Some(LogHeader(env)), Some(TclHeader(env))];
  }

  /**
    Once the tool has started, the run shows the two headers, then exactly the
    visible lines handled, in order, then the finish banner, or the exception
    text if reading or logging raised, and never `None`. The log holds every
    line handled, in order, then the same closing text.
   */
  lemma {:induction false} ToolRun(env: Env, results: seq<string>)
    requires env.settingsExists && (env.fault.None? || RaisesReading(env))
    ensures var r := StreamVivado(env, results);
      var handled := ToolLines(env, results);
      var closing := if RaisesReading(env) then Raised(env) else Finished;
      && r.items == Channel.Lift([LogHeader(env), TclHeader(env)] + Filter(Visible, handled) + [closing])
      && r.log == handled + [closing]
  {
    var hs := [LogHeader(env), TclHeader(env)];
    StartedRun(env, results);
    ToolOutputShows(env, results);
    var closing := if RaisesReading(env) then Raised(env) else Finished;
    var shown := Filter(Visible, ToolLines(env, results));
    Channel.LiftAppend(hs, shown + [closing]);
    assert hs + (shown + [closing]) == hs + shown + [closing];
  }

  /**
    Without the Vivado settings script the run shows the two headers and one
    error line, logs that line, and never looks at the tool's output.
   */
  lemma SettingsMissing(env: Env, results: seq<string>, others: seq<string>)
    requires !env.settingsExists && !RaisesAt(env, WritingScript) && !RaisesAt(env, OpeningLog)
    ensures var r := StreamVivado(env, results);
      && r.items == [Some(LogHeader(env)), Some(TclHeader(env)), Some(SettingsError(Settings))]
      && r.log == [SettingsError(Settings)]
      && StreamVivado(env, others) == r
  {
    SettingsErrorVisible(Settings);
  }

  /**
    A raise before the tool starts (writing the TCL file, opening the log,
    or starting the tool once the settings script is found) shows the
    exception text once, after the two headers unless the TCL file could not
    be written, and logs it once; the tool's output plays no part.
   */
  lemma FaultBeforeTool(env: Env, results: seq<string>, others: seq<string>)
    requires env.fault.Some? && !env.fault.value.stage.Reading?
    requires RaisesAt(env, Spawning) ==> env.settingsExists
    ensures StreamVivado(env, results).log == [Raised(env)]
    ensures RaisesAt(env, WritingScript) ==> StreamVivado(env, results).items == [Some(Raised(env))]
    ensures !RaisesAt(env, WritingScript) ==>
      StreamVivado(env, results).items == [Some(LogHeader(env)), Some(TclHeader(env)), Some(Raised(env))]
    ensures StreamVivado(env, others) == StreamVivado(env, results)
  {
  }

  // ---------------------------------------------------------------------
  // The job queue
  // ---------------------------------------------------------------------

  function WorkerCrash(escape: Option<Escape>): Option<Channel.Crash<string>> {
    match escape
    case None => None
    case Some(e) => Some(Channel.Crash(e.after, WorkerExceptionText(e.message)))
  }

  /** `enqueue_job`: what the HTTP response receives for one submitted run. */
  function EnqueueJob(env: Env, results: seq<string>, escape: Option<Escape>): seq<string> {
    Channel.Consume(Channel.WorkerChannel(Channel.JobRun(StreamVivado(env, results).items, WorkerCrash(escape))))
  }

  /**
    The response carries every item the stream yielded (up to a raise that
    escaped it), followed by the worker's report on such a raise, and then ends.
   */
  lemma EnqueueDelivers(env: Env, results: seq<string>, escape: Option<Escape>)
    ensures var items := StreamVivado(env, results).items;
      && Channel.NoSentinel(items)
      && (escape.None? ==> EnqueueJob(env, results, escape) == Channel.Values(items))
      && (escape.Some? ==>
            EnqueueJob(env, results, escape)
              == Channel.Values(if escape.value.after < |items| then items[..escape.value.after] else items)
               + [WorkerExceptionText(escape.value.message)])
  {
    var items := StreamVivado(env, results).items;
    NeverYieldsNone(env, results);
    Channel.ConsumeWorkerChannel(Channel.JobRun(items, WorkerCrash(escape)));
  }
}
