/**
  The job / result-queue protocol shared by the three operation kinds, taken
  sequentially. A submission puts `(job, result_queue)` on the kind's job
  queue; one worker takes jobs in arrival order, pushes every item the job's
  stream yields onto that job's result queue, pushes one labelled report if
  the stream raised, and always finishes with one `None`. The submitter's
  generator yields what it reads until the first `None`.
 */
module Channel {
  import opened Wrappers

  /** The stream raised after yielding `after` items; `report` is the "Worker Exception" item. */
  datatype Crash<T> = Crash(after: nat, report: T)

  /**
    What one job's stream does: the items it yields (a `None` among them is
    possible in principle, since the worker pushes whatever it gets), and a
    crash if an exception escaped the stream.
   */
  datatype JobRun<T> = JobRun(items: seq<Option<T>>, crash: Option<Crash<T>>)

  /** No item is the end marker. */
  predicate NoSentinel<T>(s: seq<Option<T>>) {
    forall i :: 0 <= i < |s| ==> s[i].Some?
  }

  lemma NoSentinelAppend<T>(a: seq<Option<T>>, b: seq<Option<T>>)
    requires NoSentinel(a) && NoSentinel(b)
    ensures NoSentinel(a + b)
  {
    assert forall i :: |a| <= i < |a + b| ==> (a + b)[i] == b[i - |a|];
  }

  /** The payloads of a sequence with no end marker in it. */
  function Values<T>(s: seq<Option<T>>): (r: seq<T>)
    requires NoSentinel(s)
    ensures |r| == |s| && forall i :: 0 <= i < |s| ==> s[i] == Some(r[i])
  {
    seq(|s|, i requires 0 <= i < |s| => s[i].value)
  }

  /** Every value wrapped as a non-sentinel item. */
  function Lift<T>(s: seq<T>): (r: seq<Option<T>>)
    ensures NoSentinel(r) && Values(r) == s
  {
    seq(|s|, i requires 0 <= i < |s| => Some(s[i]))
  }

  lemma LiftAppend<T>(a: seq<T>, b: seq<T>)
    ensures Lift(a) + Lift(b) == Lift(a + b)
  {
  }

  lemma LiftSnoc<T>(s: seq<T>, x: T)
    ensures Lift(s) + [Some(x)] == Lift(s + [x])
  {
  }

  /** The stream items that reach the result queue before the stream stops or raises. */
  function Pushed<T>(run: JobRun<T>): (r: seq<Option<T>>)
    ensures |r| <= |run.items| && r == run.items[..|r|]
    ensures run.crash.None? ==> r == run.items
    ensures NoSentinel(run.items) ==> NoSentinel(r)
  {
    match run.crash
    case None => run.items
    case Some(c) => if c.after < |run.items| then run.items[..c.after] else run.items
  }

  /** Everything the worker puts on one job's result queue, in order. */
  function WorkerChannel<T>(run: JobRun<T>): (ch: seq<Option<T>>)
    ensures |ch| >= 1 && ch[|ch| - 1] == None
    ensures |Pushed(run)| < |ch| && ch[..|Pushed(run)|] == Pushed(run)
    ensures NoSentinel(run.items) ==> NoSentinel(ch[..|ch| - 1])
  {
    Pushed(run) + (if run.crash.Some? then [Some(run.crash.value.report)] else []) + [None]
  }

  /** A channel holding exactly one end marker, as its last item. */
  predicate Closed<T>(ch: seq<Option<T>>) {
    |ch| >= 1 && ch[|ch| - 1] == None && NoSentinel(ch[..|ch| - 1])
  }

  /** What the submitter's generator yields: the items read before the first `None`. */
  function Consume<T>(ch: seq<Option<T>>): (r: seq<T>)
    ensures |r| <= |ch|
    ensures forall i :: 0 <= i < |r| ==> ch[i] == Some(r[i])
    ensures |r| < |ch| ==> ch[|r|] == None
  {
    if ch == [] || ch[0].None? then [] else [ch[0].value] + Consume(ch[1..])
  }

  /** Items read after the end marker are never yielded. */
  lemma {:induction false} ConsumeStopsAtSentinel<T>(ch: seq<Option<T>>, later: seq<Option<T>>)
    requires Closed(ch)
    ensures Consume(ch + later) == Values(ch[..|ch| - 1])
    decreases |ch|
  {
    if |ch| > 1 {
      assert (ch + later)[1..] == ch[1..] + later;
      assert ch[1..][..|ch[1..]| - 1] == ch[..|ch| - 1][1..];
      ConsumeStopsAtSentinel(ch[1..], later);
    }
  }

  /**
    When the stream never yields `None` itself, the submitter receives exactly
    the items the stream yielded, followed by the worker's report on a crash.
   */
  lemma ConsumeWorkerChannel<T>(run: JobRun<T>)
    requires NoSentinel(run.items)
    ensures Closed(WorkerChannel(run))
    ensures Consume(WorkerChannel(run))
         == Values(Pushed(run)) + (if run.crash.Some? then [run.crash.value.report] else [])
  {
    var ch := WorkerChannel(run);
    ConsumeStopsAtSentinel(ch, []);
    assert ch + [] == ch;
    var tail := if run.crash.Some? then [Some(run.crash.value.report)] else [];
    assert ch[..|ch| - 1] == Pushed(run) + tail;
  }

  /** All channels one after another: the worker's pushes over its whole lifetime. */
  function Flatten<T>(chs: seq<seq<Option<T>>>): seq<Option<T>> {
    if chs == [] then [] else chs[0] + Flatten(chs[1..])
  }

  lemma {:induction false} FlattenSnoc<T>(chs: seq<seq<Option<T>>>, ch: seq<Option<T>>)
    ensures Flatten(chs + [ch]) == Flatten(chs) + ch
  {
    if chs == [] {
      assert chs + [ch] == [ch];
    } else {
      assert (chs + [ch])[1..] == chs[1..] + [ch];
      FlattenSnoc(chs[1..], ch);
    }
  }

  /**
    The worker's push history cut at its end markers: what the consumers of
    consecutive jobs see, one segment per finished job.
   */
  function Segments<T>(trace: seq<Option<T>>): seq<seq<T>>
    decreases |trace|
  {
    var r := Consume(trace);
    if |r| < |trace| then [r] + Segments(trace[|r| + 1..]) else []
  }

  /**
    Cutting the worker's whole push history at its end markers gives back each
    job's output, in submission order: no job's items leak into another's.
   */
  lemma {:induction false} SegmentsOfFlatten<T>(chs: seq<seq<Option<T>>>)
    requires forall k :: 0 <= k < |chs| ==> Closed(chs[k])
    ensures |Segments(Flatten(chs))| == |chs|
    ensures forall k :: 0 <= k < |chs| ==> Segments(Flatten(chs))[k] == Consume(chs[k])
  {
    if chs != [] {
      var ch := chs[0];
      var trace := Flatten(chs);
      assert trace == ch + Flatten(chs[1..]);
      ConsumeStopsAtSentinel(ch, Flatten(chs[1..]));
      ConsumeStopsAtSentinel(ch, []);
      assert ch + [] == ch;
      var r := Consume(trace);
      assert |r| == |ch| - 1;
      assert trace[|r| + 1..] == Flatten(chs[1..]);
      SegmentsOfFlatten(chs[1..]);
      assert Segments(trace) == [r] + Segments(Flatten(chs[1..]));
    }
  }

  /**
    The worker loop: take queued jobs strictly in submission order, and for
    each push its stream items one at a time, then the crash report if the
    stream raised, then `None`. `channels[k]` is job k's result queue;
    `trace` is every push in the order the worker made it.
   */
  method Worker<T>(jobs: seq<JobRun<T>>) returns (channels: seq<seq<Option<T>>>, trace: seq<Option<T>>)
    ensures |channels| == |jobs|
    ensures forall k :: 0 <= k < |jobs| ==> channels[k] == WorkerChannel(jobs[k])
    ensures trace == Flatten(channels)
  {
    channels := [];
    trace := [];
    var next: nat := 0;
    while next < |jobs|
      invariant next <= |jobs| && |channels| == next
      invariant forall k :: 0 <= k < next ==> channels[k] == WorkerChannel(jobs[k])
      invariant trace == Flatten(channels)
    {
      var ch := RunJob(jobs[next]);
      FlattenSnoc(channels, ch);
      ServedPrefix(jobs, channels, ch);
      channels := channels + [ch];
      trace := trace + ch;
      next := next + 1;
    }
  }

  /**
    Appending the channel of the next job in the queue keeps the history a
    prefix of the jobs' channels, one per job.
   */
  lemma ServedPrefix<T>(jobs: seq<JobRun<T>>, channels: seq<seq<Option<T>>>, ch: seq<Option<T>>)
    ensures |channels| < |jobs| && ch == WorkerChannel(jobs[|channels|])
            && (forall k :: 0 <= k < |channels| ==> channels[k] == WorkerChannel(jobs[k]))
        ==> forall k :: 0 <= k <= |channels| ==> (channels + [ch])[k] == WorkerChannel(jobs[k])
  {
  }

  /**
    One iteration of the worker loop: walk the stream's items in order,
    pushing each, until they run out or the stream raises (after `after`
    items); then push the report on a raise, and finally `None`.
   */
  method RunJob<T>(job: JobRun<T>) returns (ch: seq<Option<T>>)
    ensures |Pushed(job)| < |ch| && ch[|ch| - 1] == None
    ensures ch[..|Pushed(job)|] == Pushed(job)
    ensures job.crash.Some? ==> |ch| == |Pushed(job)| + 2 && ch[|Pushed(job)|] == Some(job.crash.value.report)
    ensures job.crash.None? ==> |ch| == |job.items| + 1
    ensures NoSentinel(job.items) ==> NoSentinel(ch[..|ch| - 1])
    ensures ch == WorkerChannel(job)
  {
    ch := [];
    var i := 0;
    while i < |job.items| && !(job.crash.Some? && i == job.crash.value.after)
      invariant 0 <= i <= |job.items|
      invariant job.crash.Some? ==> i <= job.crash.value.after
      invariant ch == job.items[..i]
    {
      ch := ch + [job.items[i]];
      i := i + 1;
    }
    assert ch == Pushed(job);
    if job.crash.Some? {
      ch := ch + [Some(job.crash.value.report)];
    }
    ch := ch + [None];
  }

  /**
    End to end: for jobs whose streams never yield `None`, the k-th stretch of
    the worker's pushes is exactly what the k-th submitter receives, and that
    is the k-th job's stream output.
   */
  lemma {:induction false} WorkerServesInOrder<T>(jobs: seq<JobRun<T>>, channels: seq<seq<Option<T>>>)
    requires forall k :: 0 <= k < |jobs| ==> NoSentinel(jobs[k].items)
    requires |channels| == |jobs|
    requires forall k :: 0 <= k < |jobs| ==> channels[k] == WorkerChannel(jobs[k])
    ensures |Segments(Flatten(channels))| == |jobs|
    ensures forall k :: 0 <= k < |jobs| ==>
      Segments(Flatten(channels))[k]
        == Values(Pushed(jobs[k])) + (if jobs[k].crash.Some? then [jobs[k].crash.value.report] else [])
  {
    forall k | 0 <= k < |jobs|
      ensures Closed(channels[k])
      ensures Consume(channels[k])
           == Values(Pushed(jobs[k])) + (if jobs[k].crash.Some? then [jobs[k].crash.value.report] else [])
    {
      ConsumeWorkerChannel(jobs[k]);
    }
    SegmentsOfFlatten(channels);
  }
}
