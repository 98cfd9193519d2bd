/**
  The "Program Flash Memory" operation: the flag and target parameters of the
  generated TCL script, the stream of console items and log writes for one
  run, and the job queue that serialises runs. Items of this stream are
  `{"type": "log", "line": ...}` dicts.
 */
module ProgramFlash {
  import opened Wrappers
  import opened PyStr
  import opened TclBlocks
  import opened LineSink
  import Seqs
  import Channel

  const Settings: string := "/tools/Xilinx/Vivado_Lab/2022.2/settings64.sh"
  const Finished: string := Banner("Flash Memory Programming Finished")

  /**
    The job dict. `bin_file` and `hw_server` are read with `[...]` (the value
    of `hw_server` may be `None`); the other keys with `.get(key, default)`,
    so each of them may be absent.
   */
  datatype FlashJob = FlashJob(
    binFile: string,
    hwServer: Option<string>,
    targets: Option<seq<TargetRef>>,
    blankCheck: Option<bool>,
    erase: Option<bool>,
    cfgProgram: Option<bool>,
    verify: Option<bool>)

  /** `int(b)` */
  function Bit(b: bool): (r: int)
    ensures r == 0 || r == 1
    ensures r == 1 <==> b
  {
    if b then 1 else 0
  }

  /** The decimal text of a 0/1 value, as an f-string renders it. */
  function Digit(n: int): (r: string)
    requires n == 0 || n == 1
    ensures |r| == 1
  {
    if n == 1 then "1" else "0"
  }

  /** The four `HW_CFGMEM` switches as the script receives them. */
  datatype CfgmemFlags = CfgmemFlags(blankCheck: int, erase: int, cfgProgram: int, verify: int)

  /**
    `int(job_config.get(key, default))`: blank check and erase are off unless
    the job turns them on; programming and verifying are on unless the job
    turns them off.
   */
  function Flags(job: FlashJob): (f: CfgmemFlags)
    ensures f.blankCheck == (if job.blankCheck == Some(true) then 1 else 0)
    ensures f.erase == (if job.erase == Some(true) then 1 else 0)
    ensures f.cfgProgram == (if job.cfgProgram == Some(false) then 0 else 1)
    ensures f.verify == (if job.verify == Some(false) then 0 else 1)
  {
    CfgmemFlags(
      Bit(job.blankCheck.GetOr(false)),
      Bit(job.erase.GetOr(false)),
      Bit(job.cfgProgram.GetOr(true)),
      Bit(job.verify.GetOr(true)))
  }

  /** `set_property PROGRAM.<name> <value> [get_property PROGRAM.HW_CFGMEM $hw_dev_lindex]`, indented. */
  function PropertyLine(name: string, value: string): string {
    "        set_property PROGRAM." + name + " " + value + " [get_property " + "PROGRAM.HW_CFGMEM" + " $hw_dev_lindex]"
  }

  /** The `PROGRAM.*` properties set on the flash device, with their values, in script order. */
  function CfgmemProperties(job: FlashJob): (r: seq<(string, string)>)
    ensures |r| == 7
  {
    var f := Flags(job);
    [ ("BLANK_CHECK", Digit(f.blankCheck)),
      ("ERASE", Digit(f.erase)),
      ("CFG_PROGRAM", Digit(f.cfgProgram)),
      ("VERIFY", Digit(f.verify)),
      ("CHECKSUM", "0"),
      ("ADDRESS_RANGE", "{use_file}"),
      ("FILES", "[list \"" + job.binFile + "\"]") ]
  }

  /** One property line per property. */
  function CfgmemLines(job: FlashJob): (r: seq<string>)
    ensures |r| == 7
  {
    var ps := CfgmemProperties(job);
    seq(7, i requires 0 <= i < 7 => PropertyLine(ps[i].0, ps[i].1))
  }

  function CfgmemBlock(job: FlashJob): string {
    Lines(CfgmemLines(job))
  }

  /** `f"{hw_server}"`: Python renders a missing server as `None`. */
  function ServerText(hwServer: Option<string>): string {
    match hwServer
    case None => "None"
    case Some(s) => s
  }

  /** The `hw_targets` list of the flash script; a job without `targets` gives an empty list. */
  function FlashTargetsBlock(job: FlashJob): string {
    SetBlock("hw_targets", HwTargetsBlock(ServerText(job.hwServer), job.targets.GetOr([])))
  }

  lemma PropertyOneLine(name: string, value: string)
    requires OneLine(name) && OneLine(value)
    ensures OneLine(PropertyLine(name, value))
  {
    var a := "        set_property PROGRAM.";
    assert OneLine(a) && OneLine(" ");
    assert OneLine(" [get_property ") && OneLine("PROGRAM.HW_CFGMEM") && OneLine(" $hw_dev_lindex]");
    OneLineConcat(a, name);
    OneLineConcat(a + name, " ");
    OneLineConcat(a + name + " ", value);
    OneLineConcat(a + name + " " + value, " [get_property ");
    OneLineConcat(a + name + " " + value + " [get_property ", "PROGRAM.HW_CFGMEM");
    OneLineConcat(a + name + " " + value + " [get_property " + "PROGRAM.HW_CFGMEM", " $hw_dev_lindex]");
  }

  /** Every property line of the flash block is a single line when the bitstream path is. */
  lemma {:induction false} CfgmemOneLine(job: FlashJob)
    requires OneLine(job.binFile)
    ensures forall i :: 0 <= i < |CfgmemLines(job)| ==> OneLine(CfgmemLines(job)[i])
  {
    var ps := CfgmemProperties(job);
    assert OneLine("[list \"") && OneLine("\"]");
    OneLineConcat("[list \"", job.binFile);
    OneLineConcat("[list \"" + job.binFile, "\"]");
    assert forall i :: 0 <= i < 7 ==> OneLine(ps[i].0) && OneLine(ps[i].1);
    forall i | 0 <= i < 7 ensures OneLine(CfgmemLines(job)[i]) {
      PropertyOneLine(ps[i].0, ps[i].1);
    }
  }

  /** Read back line by line, the property block is its property lines and nothing else. */
  lemma CfgmemBlockCuts(job: FlashJob)
    requires OneLine(job.binFile)
    ensures Cut(CfgmemBlock(job), '\n') == CfgmemLines(job) + [""]
  {
    CfgmemOneLine(job);
    CutLines(CfgmemLines(job), "");
    assert CfgmemBlock(job) + "" == CfgmemBlock(job);
  }

  /**
    The four switches are set to 1 exactly when they are on, with blank check
    and erase off and programming and verifying on when the job does not say.
   */
  lemma CfgmemSwitches(job: FlashJob)
    ensures var ps := CfgmemProperties(job);
      && ps[0] == ("BLANK_CHECK", if job.blankCheck == Some(true) then "1" else "0")
      && ps[1] == ("ERASE", if job.erase == Some(true) then "1" else "0")
      && ps[2] == ("CFG_PROGRAM", if job.cfgProgram == Some(false) then "0" else "1")
      && ps[3] == ("VERIFY", if job.verify == Some(false) then "0" else "1")
  {
  }

  /**
    Read back line by line, the flash device's property block sets each of
    the four switches on its own line, to 1 exactly when it is on, then a zero
    checksum, the file's address range, and the bitstream path quoted inside
    `[list ...]`, and ends with a line break.
   */
  lemma CfgmemBlockLines(job: FlashJob)
    requires OneLine(job.binFile)
    ensures var ls := Cut(CfgmemBlock(job), '\n');
      && |ls| == 8 && ls[7] == ""
      && ls[0] == PropertyLine("BLANK_CHECK", if job.blankCheck == Some(true) then "1" else "0")
      && ls[1] == PropertyLine("ERASE", if job.erase == Some(true) then "1" else "0")
      && ls[2] == PropertyLine("CFG_PROGRAM", if job.cfgProgram == Some(false) then "0" else "1")
      && ls[3] == PropertyLine("VERIFY", if job.verify == Some(false) then "0" else "1")
      && ls[4] == PropertyLine("CHECKSUM", "0")
      && ls[5] == PropertyLine("ADDRESS_RANGE", "{use_file}")
      && ls[6] == PropertyLine("FILES", "[list \"" + job.binFile + "\"]")
  {
    CfgmemBlockCuts(job);
    CfgmemSwitches(job);
  }

  /**
    The flash script's `hw_targets` list has one `{server/target device}` line
    per target, in order; without a `targets` key it is empty.
   */
  lemma FlashTargetsLines(job: FlashJob)
    requires OneLine(ServerText(job.hwServer))
    requires job.targets.Some? ==> forall i :: 0 <= i < |job.targets.value| ==>
      OneLine(job.targets.value[i].target) && OneLine(job.targets.value[i].device)
    ensures Cut(FlashTargetsBlock(job), '\n')
         == SetBlockRead("hw_targets", HwTargetEntries(ServerText(job.hwServer), job.targets.GetOr([]))) + [""]
    ensures job.targets.None? ==> Cut(FlashTargetsBlock(job), '\n') == SetBlockRead("hw_targets", []) + [""]
  {
    var ts := job.targets.GetOr([]);
    var es := HwTargetEntries(ServerText(job.hwServer), ts);
    forall i | 0 <= i < |ts| ensures OneLine(es[i]) {
      EntryOneLine(ServerText(job.hwServer), ts[i]);
    }
    SetBlockLines("hw_targets", es, "");
    assert FlashTargetsBlock(job) + "" == FlashTargetsBlock(job);
    if job.targets.None? {
      assert es == [];
    }
  }

  // ---------------------------------------------------------------------
  // The stream of one run
  // ---------------------------------------------------------------------

  /** The read loop: `write_and_yield` returns a dict, always truthy, for each visible line. */
  function Relay(lines: seq<string>): seq<Item>
    decreases |lines|
  {
    if lines == [] then []
    else (if Visible(lines[0]) then [LogItem(lines[0])] else []) + Relay(lines[1..])
  }

  /** The read loop shows exactly the visible lines, in order, empty or not. */
  lemma {:induction false} RelayShowsVisible(lines: seq<string>)
    ensures Relay(lines) == LogItems(Seqs.Filter(Visible, lines))
    decreases |lines|
  {
    if lines != [] {
      RelayShowsVisible(lines[1..]);
      var head := if Visible(lines[0]) then [lines[0]] else [];
      var rest := Seqs.Filter(Visible, lines[1..]);
      assert Seqs.Filter(Visible, lines) == head + rest;
      LogItemsAppend(head, rest);
      assert LogItems(head) == (if Visible(lines[0]) then [LogItem(lines[0])] else []);
    }
  }

  function Headers(env: Env): seq<Item> {
    [LogItem("Log file: " + env.logPath + "\n"), LogItem("TCL file: " + env.tclPath + "\n\n")]
  }

  function Raised(env: Env): string
    requires env.fault.Some?
  {
    ExceptionText(env.fault.value.trace)
  }

  /** `stream_vivado_flash`: what one run yields and writes to its log. */
  function StreamVivadoFlash(env: Env, results: seq<string>): Run<Item> {
    if RaisesAt(env, WritingScript) then Run([LogItem(Raised(env))], [Raised(env)])
    else if RaisesAt(env, OpeningLog) then Run(Headers(env) + [LogItem(Raised(env))], [Raised(env)])
    else if !env.settingsExists then Run(Headers(env) + [LogItem(SettingsError(Settings))], [])
    else if RaisesAt(env, Spawning) then Run(Headers(env) + [LogItem(Raised(env))], [Raised(env)])
    else
      var tool := ToolOutput(env, results);
      Run(Headers(env) + tool.items, tool.log)
  }

  /** The part of a run after the tool started: its visible lines, then the exception or the finish banner. */
  function ToolOutput(env: Env, results: seq<string>): Run<Item> {
    var lines := ToolLines(env, results);
    if RaisesReading(env) then Run(Relay(lines) + [LogItem(Raised(env))], lines + [Raised(env)])
    else Run(Relay(lines) + [LogItem(Finished)], lines)
  }

  /** The last item of a run whose tool started: the exception text, or the finish banner. */
  function Closing(env: Env): Item {
    if RaisesReading(env) then LogItem(Raised(env)) else LogItem(Finished)
  }

  /** What a run whose tool started logs after the tool's lines: the exception text, if any. */
  function LoggedRaise(env: Env): seq<string> {
    if RaisesReading(env) then [Raised(env)] else []
  }

  /** Once the tool has started, a run is the two headers followed by the tool part. */
  lemma {:induction false} StartedRun(env: Env, results: seq<string>)
    requires env.settingsExists && (env.fault.None? || RaisesReading(env))
    ensures StreamVivadoFlash(env, results)
         == Run(Headers(env) + ToolOutput(env, results).items, ToolOutput(env, results).log)
  {
  }

  /**
    Once the tool has started, the run shows the two headers, the visible
    lines handled, in order, then the finish banner, or the exception text if
    reading raised.
   */
  lemma {:induction false} ToolRunShows(env: Env, results: seq<string>)
    requires env.settingsExists && (env.fault.None? || RaisesReading(env))
    ensures StreamVivadoFlash(env, results).items
         == Headers(env) + LogItems(Seqs.Filter(Visible, ToolLines(env, results))) + [Closing(env)]
  {
    var handled := ToolLines(env, results);
    var tool := ToolOutput(env, results);
    StartedRun(env, results);
    RelayShowsVisible(handled);
    var closing := Closing(env);
    assert tool.items == Relay(handled) + [closing];
    assert Headers(env) + (Relay(handled) + [closing]) == Headers(env) + Relay(handled) + [closing];
  }

  /**
    Once the tool has started, the log holds every line handled, in order,
    and the exception text if there was one, but neither the headers nor the
    banner.
   */
  lemma ToolRunLogs(env: Env, results: seq<string>)
    requires env.settingsExists && (env.fault.None? || RaisesReading(env))
    ensures StreamVivadoFlash(env, results).log == ToolLines(env, results) + LoggedRaise(env)
  {
    StartedRun(env, results);
  }

  /**
    Without the Vivado settings script the run shows the two headers and one
    error item, writes nothing to its log, and never looks at the tool's output.
   */
  lemma SettingsMissing(env: Env, results: seq<string>, others: seq<string>)
    requires !env.settingsExists && !RaisesAt(env, WritingScript) && !RaisesAt(env, OpeningLog)
    ensures var r := StreamVivadoFlash(env, results);
      && r.items == Headers(env) + [LogItem(SettingsError(Settings))]
      && r.log == []
      && StreamVivadoFlash(env, others) == r
  {
  }

  /**
    A raise before the tool starts (writing the TCL file, opening the log,
    or starting the tool once the settings script is found) shows the
    exception text once, after the two header items unless the TCL file
    could not be written, and logs it once; the tool's output plays no part.
   */
  lemma FaultBeforeTool(env: Env, results: seq<string>, others: seq<string>)
    requires env.fault.Some? && !env.fault.value.stage.Reading?
    requires RaisesAt(env, Spawning) ==> env.settingsExists
    ensures StreamVivadoFlash(env, results).log == [Raised(env)]
    ensures RaisesAt(env, WritingScript) ==> StreamVivadoFlash(env, results).items == [LogItem(Raised(env))]
    ensures !RaisesAt(env, WritingScript) ==>
      StreamVivadoFlash(env, results).items == Headers(env) + [LogItem(Raised(env))]
    ensures StreamVivadoFlash(env, others) == StreamVivadoFlash(env, results)
  {
  }

  /**
    Whatever happens, the log holds only lines the tool printed and the
    exception text: the headers, the settings error and the finish banner
    are shown but never logged.
   */
  lemma LogHoldsToolLinesOnly(env: Env, results: seq<string>)
    ensures var log := StreamVivadoFlash(env, results).log;
      forall i :: 0 <= i < |log| ==> log[i] in ReadLines(results) || (env.fault.Some? && log[i] == Raised(env))
  {
    var lines := ReadLines(results);
    var handled := Handled(env, lines);
    assert forall i :: 0 <= i < |handled| ==> handled[i] == lines[i];
  }

  // ---------------------------------------------------------------------
  // The job queue
  // ---------------------------------------------------------------------

  function WorkerCrash(escape: Option<Escape>): Option<Channel.Crash<Item>> {
    match escape
    case None => None
    case Some(e) => Some(Channel.Crash(e.after, LogItem(WorkerExceptionText(e.message))))
  }

  /** `enqueue_job`: what the HTTP response receives for one submitted run. */
  function EnqueueJob(env: Env, results: seq<string>, escape: Option<Escape>): seq<Item> {
    Channel.Consume(Channel.WorkerChannel(Channel.JobRun(Channel.Lift(StreamVivadoFlash(env, results).items), WorkerCrash(escape))))
  }

  /**
    The response carries every item the stream yielded (up to a raise that
    escaped it), then the worker's report on such a raise, and then ends.
   */
  lemma EnqueueDelivers(env: Env, results: seq<string>, escape: Option<Escape>)
    ensures var items := StreamVivadoFlash(env, results).items;
      && (escape.None? ==> EnqueueJob(env, results, escape) == items)
      && (escape.Some? ==>
            EnqueueJob(env, results, escape)
              == (if escape.value.after < |items| then items[..escape.value.after] else items)
               + [LogItem(WorkerExceptionText(escape.value.message))])
  {
    var items := StreamVivadoFlash(env, results).items;
    var lifted := Channel.Lift(items);
    Channel.ConsumeWorkerChannel(Channel.JobRun(lifted, WorkerCrash(escape)));
    if escape.Some? && escape.value.after < |items| {
      var k := escape.value.after;
      assert Channel.Values(lifted[..k]) == items[..k];
    }
  }
}
