/**
  The "List Hardware" operation: the stream of console items, log writes and
  the final tree for one listing run, and the job queue that serialises runs.
 */
module ListHw {
  import opened Wrappers
  import opened LineSink
  import Seqs
  import Channel
  import TreeBuilder
  import ListingShape

  const Settings: string := "/tools/Xilinx/Vivado_Lab/2022.2/settings64.sh"
  const Finished: string := Banner("Listing Finished")

  /** The first item, yielded before anything can fail; it is never logged. */
  function Header(env: Env): Item {
    LogItem("Log file: " + env.logPath + "\n\n")
  }

  function Raised(env: Env): string
    requires env.fault.Some?
  {
    ExceptionText(env.fault.value.trace)
  }

  /**
    `stream_list_hw(hw_server)`: what one run yields and writes to its log.
    The settings check comes before anything that can raise; the stream opens
    its log file only per line, so a raise before the first line (writing the
    TCL file or starting the tool) behaves the same whatever its stage.
   */
  function StreamListHw(server: string, env: Env, results: seq<string>): Run<Item> {
    if !env.settingsExists then Run([Header(env), LogItem(SettingsError(Settings))], [])
    else if env.fault.Some? && !env.fault.value.stage.Reading? then Run([Header(env), LogItem(Raised(env))], [Raised(env)])
    else
      var tool := ToolOutput(server, env, results);
      Run([Header(env)] + tool.items, tool.log)
  }

  /**
    The part of a run after the tool started: the lines the line processor
    passes on, then the exception text, or the finish banner and the tree.
   */
  function ToolOutput(server: string, env: Env, results: seq<string>): Run<Item> {
    var lines := ToolLines(env, results);
    var fed := TreeBuilder.Feed(TreeBuilder.Initial(server), lines);
    if RaisesReading(env) then Run(LogItems(fed.1) + [LogItem(Raised(env))], lines + [Raised(env)])
    else Run(LogItems(fed.1) + [LogItem(Finished), TreeItem(fed.0.tree)], lines)
  }

  /** The lines a run handles are the tool's non-empty lines; the processor passes on exactly its visible ones. */
  lemma {:induction false} FedShowsVisible(server: string, env: Env, results: seq<string>)
    ensures var lines := ToolLines(env, results);
      TreeBuilder.Feed(TreeBuilder.Initial(server), lines).1 == Seqs.Filter(Visible, lines)
  {
    var all := ReadLines(results);
    var lines := Handled(env, all);
    assert forall i :: 0 <= i < |lines| ==> lines[i] == all[i];
    TreeBuilder.FeedShowsFiltered(TreeBuilder.Initial(server), lines);
    forall i | 0 <= i < |lines| ensures TreeBuilder.Shown(lines[i]) == Visible(lines[i]) {
      VisibleIffShown(lines[i]);
    }
    Seqs.FilterCongruent(TreeBuilder.Shown, Visible, lines);
  }

  /** The closing items of a run whose tool started: the exception text, or the banner and the tree. */
  function Closing(server: string, env: Env, handled: seq<string>): seq<Item> {
    if RaisesReading(env) then [LogItem(Raised(env))]
    else [LogItem(Finished), TreeItem(TreeBuilder.Feed(TreeBuilder.Initial(server), handled).0.tree)]
  }

  lemma {:induction false} ToolOutputShows(server: string, env: Env, results: seq<string>)
    ensures var handled := ToolLines(env, results);
      ToolOutput(server, env, results).items == LogItems(Seqs.Filter(Visible, handled)) + Closing(server, env, handled)
  {
    FedShowsVisible(server, env, results);
  }

  /**
    Once the tool has started, the run shows the header, the visible lines
    handled, in order, and then either the exception text, or the finish
    banner followed by the tree built from every line. The log holds every
    line handled and the exception text, but neither the header nor the banner.
   */
  lemma {:induction false} ToolRun(server: string, env: Env, results: seq<string>)
    requires env.settingsExists && (env.fault.None? || RaisesReading(env))
    ensures var r := StreamListHw(server, env, results);
      var handled := ToolLines(env, results);
      && r.items == [Header(env)] + LogItems(Seqs.Filter(Visible, handled)) + Closing(server, env, handled)
      && r.log == handled + (if RaisesReading(env) then [Raised(env)] else [])
  {
    var handled := ToolLines(env, results);
    var tool := ToolOutput(server, env, results);
    assert StreamListHw(server, env, results) == Run([Header(env)] + tool.items, tool.log);
    ToolOutputShows(server, env, results);
    var shown := LogItems(Seqs.Filter(Visible, handled));
    var closing := Closing(server, env, handled);
    assert [Header(env)] + (shown + closing) == [Header(env)] + shown + closing;
  }

  /**
    A missing settings script is reported before anything else is tried: the
    run shows the header and one error item and logs nothing, whatever the
    tool would have printed and whatever would have raised.
   */
  lemma SettingsMissing(server: string, env: Env, results: seq<string>)
    requires !env.settingsExists
    ensures StreamListHw(server, env, results) == Run([Header(env), LogItem(SettingsError(Settings))], [])
  {
  }

  /**
    Once the settings script is found, a raise before the tool's first line
    (writing the TCL file or starting the tool) shows the header and the
    exception text, logs the exception text once, and yields no tree; the
    tool's output plays no part.
   */
  lemma FaultBeforeTool(server: string, env: Env, results: seq<string>, others: seq<string>)
    requires env.settingsExists && env.fault.Some? && !env.fault.value.stage.Reading?
    ensures StreamListHw(server, env, results) == Run([Header(env), LogItem(Raised(env))], [Raised(env)])
    ensures StreamListHw(server, env, others) == StreamListHw(server, env, results)
  {
  }

  /**
    A run yields at most one tree, and only as its last item, right after
    the finish banner; it yields one exactly when the settings script exists
    and nothing raised. The tree belongs to the requested server and is the
    one built from every line the tool printed.
   */
  lemma TreeComesLast(server: string, env: Env, results: seq<string>)
    ensures var items := StreamListHw(server, env, results).items;
      && |items| >= 2
      && (forall i :: 0 <= i < |items| - 1 ==> items[i].LogItem?)
      && (items[|items| - 1].TreeItem? <==> env.settingsExists && env.fault.None?)
      && (items[|items| - 1].TreeItem? ==>
            && items[|items| - 2] == LogItem(Finished)
            && items[|items| - 1].tree == TreeBuilder.Feed(TreeBuilder.Initial(server), ReadLines(results)).0.tree)
  {
    if env.settingsExists && (env.fault.None? || RaisesReading(env)) {
      StartedEnds(server, env, results);
    } else {
      var items := StreamListHw(server, env, results).items;
      assert |items| == 2 && items[0] == Header(env) && items[1].LogItem?;
    }
  }

  lemma StartedEnds(server: string, env: Env, results: seq<string>)
    requires env.settingsExists && (env.fault.None? || RaisesReading(env))
    ensures var items := StreamListHw(server, env, results).items;
      var closing := Closing(server, env, ToolLines(env, results));
      && |items| >= 2
      && (forall i :: 0 <= i < |items| - 1 ==> items[i].LogItem?)
      && items[|items| - 1] == closing[|closing| - 1]
      && (|closing| >= 2 ==> items[|items| - 2] == closing[|closing| - 2])
  {
    var handled := ToolLines(env, results);
    ToolRun(server, env, results);
    EndsWith(Header(env).line, Seqs.Filter(Visible, handled), Closing(server, env, handled));
  }

  /** A text item, more text items, and a closing whose only possible tree is its last item. */
  lemma EndsWith(first: string, lines: seq<string>, closing: seq<Item>)
    requires closing != []
    requires forall i :: 0 <= i < |closing| - 1 ==> closing[i].LogItem?
    ensures var items := [LogItem(first)] + LogItems(lines) + closing;
      && |items| >= 2
      && (forall i :: 0 <= i < |items| - 1 ==> items[i].LogItem?)
      && items[|items| - 1] == closing[|closing| - 1]
      && (|closing| >= 2 ==> items[|items| - 2] == closing[|closing| - 2])
  {
    var items := [LogItem(first)] + LogItems(lines) + closing;
    forall i | 0 <= i < |items| - 1 ensures items[i].LogItem? {
      if i > |lines| {
        assert items[i] == closing[i - 1 - |lines|];
      }
    }
  }

  /**
    When the tool's output, once noise is dropped, is what the listing script
    prints for the targets `ts`, the tree a clean run ends with lists exactly
    those targets, each with its devices, in order.
   */
  lemma {:induction false} ListingYieldsTree(server: string, env: Env, results: seq<string>, ts: seq<ListingShape.TargetReport>)
    requires env.settingsExists && env.fault.None?
    requires ListingShape.WellFormed(ts)
    requires Seqs.Filter(TreeBuilder.Structural, ReadLines(results))
          == Seqs.Filter(TreeBuilder.Structural, ListingShape.ScriptOutput(ts))
    ensures var items := StreamListHw(server, env, results).items;
      items[|items| - 1] == TreeItem(TreeBuilder.Tree(server, ListingShape.Expected(ts)))
  {
    TreeComesLast(server, env, results);
    ListingShape.ListingTreeDespiteNoise(server, ts, ReadLines(results));
  }

  // ---------------------------------------------------------------------
  // The job queue
  // ---------------------------------------------------------------------

  function WorkerCrash(escape: Option<Escape>): Option<Channel.Crash<Item>> {
    match escape
    case None => None
    case Some(e) => Some(Channel.Crash(e.after, LogItem(WorkerExceptionText(e.message))))
  }

  /** `enqueue_hw_list(hw_server)`: what the HTTP response receives for one listing request. */
  function EnqueueHwList(server: string, env: Env, results: seq<string>, escape: Option<Escape>): seq<Item> {
    Channel.Consume(Channel.WorkerChannel(Channel.JobRun(Channel.Lift(StreamListHw(server, env, results).items), WorkerCrash(escape))))
  }

  /**
    The response carries every item the stream yielded (up to a raise that
    escaped it), then the worker's report on such a raise, and then ends.
   */
  lemma EnqueueDelivers(server: string, env: Env, results: seq<string>, escape: Option<Escape>)
    ensures var items := StreamListHw(server, env, results).items;
      && (escape.None? ==> EnqueueHwList(server, env, results, escape) == items)
      && (escape.Some? ==>
            EnqueueHwList(server, env, results, escape)
              == (if escape.value.after < |items| then items[..escape.value.after] else items)
               + [LogItem(WorkerExceptionText(escape.value.message))])
  {
    var items := StreamListHw(server, env, results).items;
    var lifted := Channel.Lift(items);
    Channel.ConsumeWorkerChannel(Channel.JobRun(lifted, WorkerCrash(escape)));
    if escape.Some? && escape.value.after < |items| {
      var k := escape.value.after;
      assert Channel.Values(lifted[..k]) == items[..k];
    }
  }
}
