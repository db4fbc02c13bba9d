/** The dashboard's pairing of commit events (export_metrics.py `_loader_summary`), and what it
    recovers of the loader's flushes. */
module CommitPairing {
  import opened Options
  import Batching
  import LoaderHealth

  /** A loader event the exporter accepts.  `stamp` stands for the time and duration of a success. */
  datatype Event =
    | Heartbeat
    | Started(bars: Option<nat>, sourceRecords: Option<nat>)
    | Succeeded(stamp: nat)
    | Failed

  /** `process` is process_started_at_utc, None when the field is not a string. */
  datatype LogEntry = LogEntry(process: Option<nat>, event: Event)

  datatype Commit = Commit(stamp: nat, bars: Option<nat>, sourceRecords: Option<nat>)

  // ----- which start a success pairs with -----

  /** The entry starts or ends a commit of process p. */
  predicate Touches(e: LogEntry, p: nat) {
    e.process == Some(p) && e.event != Heartbeat
  }

  /** The index of process p's open start in a log. */
  function OpenStart(log: seq<LogEntry>, p: nat): (index: Option<nat>)
    ensures index.Some? ==> index.value < |log| && log[index.value].event.Started?
  {
    if log == [] then None
    else
      var e := log[|log| - 1];
      if !Touches(e, p) then OpenStart(log[..|log| - 1], p)
      else if e.event.Started? then Some(|log| - 1) else None
  }

  /** It is the latest start of p, and nothing of p started, succeeded or failed after it. */
  lemma {:induction false} OpenStartMeaning(log: seq<LogEntry>, p: nat, i: nat)
    ensures OpenStart(log, p) == Some(i)
            <==> && i < |log| && log[i].process == Some(p) && log[i].event.Started?
                 && forall k :: i < k < |log| && log[k].process == Some(p)
                                ==> !log[k].event.Started? && !log[k].event.Succeeded? && !log[k].event.Failed?
  {
    if log != [] {
      var init := log[..|log| - 1];
      OpenStartMeaning(init, p, i);
      assert forall k :: 0 <= k < |init| ==> init[k] == log[k];
    }
  }

  /** The bars and source records of p's open start. */
  function OpenEvent(log: seq<LogEntry>, p: nat): Option<Event> {
    var i := OpenStart(log, p);
    if i.Some? then Some(log[i.value].event) else None
  }

  predicate IsSuccess(e: LogEntry) {
    e.process.Some? && e.event.Succeeded?
  }

  /** The commit recorded for success e after the log `before`. */
  function CommitAfter(before: seq<LogEntry>, e: LogEntry): Commit
    requires IsSuccess(e)
  {
    var start := OpenStart(before, e.process.value);
    if start.None? then Commit(e.event.stamp, None, None)
    else Commit(e.event.stamp, before[start.value].event.bars, before[start.value].event.sourceRecords)
  }

  /** The commits of a log, in order. */
  function Commits(log: seq<LogEntry>): seq<Commit> {
    if log == [] then []
    else
      var init, e := log[..|log| - 1], log[|log| - 1];
      Commits(init) + (if IsSuccess(e) then [CommitAfter(init, e)] else [])
  }

  /** Python's commits[-limit:]: the last `limit`, or all of them when limit is 0. */
  function LastOf(commits: seq<Commit>, limit: nat): seq<Commit> {
    if limit == 0 || limit >= |commits| then commits else commits[|commits| - limit..]
  }

  lemma OpenEventStep(log: seq<LogEntry>, n: nat, p: nat)
    requires n < |log|
    ensures OpenEvent(log[..n + 1], p)
            == if !Touches(log[n], p) then OpenEvent(log[..n], p)
               else if log[n].event.Started? then Some(log[n].event) else None
  {
    assert log[..n + 1][..n] == log[..n];
  }

  method RecentCommits(log: seq<LogEntry>, limit: nat) returns (recent: seq<Commit>)
    ensures recent == LastOf(Commits(log), limit)
    ensures var n := |Commits(log)|;
            && |recent| == (if limit == 0 || limit >= n then n else limit)
            && forall i :: 0 <= i < |recent| ==> recent[i] == Commits(log)[n - |recent| + i]
  {
    var pending: map<nat, Event> := map[];
    var commits: seq<Commit> := [];
    for n := 0 to |log|
      invariant commits == Commits(log[..n])
      invariant forall p :: p in pending <==> OpenEvent(log[..n], p).Some?
      invariant forall p :: p in pending ==> OpenEvent(log[..n], p) == Some(pending[p]) && pending[p].Started?
    {
      var e := log[n];
      assert log[..n + 1][..n] == log[..n];
      forall p {
        OpenEventStep(log, n, p);
      }
      if e.process.Some? {
        var p := e.process.value;
        match e.event
        case Started(_, _) =>
          pending := pending[p := e.event];
        case Succeeded(stamp) =>
          if p in pending {
            commits := commits + [Commit(stamp, pending[p].bars, pending[p].sourceRecords)];
          } else {
            commits := commits + [Commit(stamp, None, None)];
          }
          pending := pending - {p};
        case Failed =>
          pending := pending - {p};
        case Heartbeat =>
      }
    }
    assert log[..|log|] == log;
    recent := LastOf(commits, limit);
  }

  /** There is one commit per success with a process, in order. */
  lemma {:induction false} CommitOf(log: seq<LogEntry>, n: nat)
    requires n < |log| && log[n].process.Some? && log[n].event.Succeeded?
    ensures |Commits(log[..n])| < |Commits(log)|
    ensures Commits(log)[|Commits(log[..n])|] == CommitAfter(log[..n], log[n])
  {
    var init := log[..|log| - 1];
    if n < |init| {
      CommitOf(init, n);
      assert init[..n] == log[..n];
    }
  }

  lemma {:induction false} CommitFrom(log: seq<LogEntry>, i: nat) returns (n: nat)
    requires i < |Commits(log)|
    ensures n < |log| && log[n].process.Some? && log[n].event.Succeeded? && |Commits(log[..n])| == i
  {
    var init := log[..|log| - 1];
    if i < |Commits(init)| {
      n := CommitFrom(init, i);
      assert init[..n] == log[..n];
    } else {
      n := |log| - 1;
    }
  }

  /** What a success is paired with: the counts of the start that has no start, success or failure of the
      same process after it; nothing if there is none. */
  lemma PairedWith(log: seq<LogEntry>, n: nat, i: nat)
    requires n < |log| && log[n].process.Some? && log[n].event.Succeeded?
    ensures CommitAfter(log[..n], log[n]).stamp == log[n].event.stamp
    ensures i < n && log[i].process == log[n].process && log[i].event.Started?
            && (forall k :: i < k < n && log[k].process == log[n].process
                            ==> !log[k].event.Started? && !log[k].event.Succeeded? && !log[k].event.Failed?)
            ==> CommitAfter(log[..n], log[n])
                == Commit(log[n].event.stamp, log[i].event.bars, log[i].event.sourceRecords)
    ensures OpenStart(log[..n], log[n].process.value) == None
            ==> CommitAfter(log[..n], log[n]) == Commit(log[n].event.stamp, None, None)
  {
    OpenStartMeaning(log[..n], log[n].process.value, i);
  }

  /** No start is paired twice. */
  lemma StartUsedOnce(log: seq<LogEntry>, a: nat, b: nat)
    requires a < b < |log| && IsSuccess(log[a]) && IsSuccess(log[b])
    ensures OpenStart(log[..a], log[a].process.value).Some?
            ==> OpenStart(log[..a], log[a].process.value) != OpenStart(log[..b], log[b].process.value)
  {
    var p, q := log[a].process.value, log[b].process.value;
    if OpenStart(log[..a], p).Some? {
      var i := OpenStart(log[..a], p).value;
      OpenStartMeaning(log[..a], p, i);
      OpenStartMeaning(log[..b], q, i);
      assert log[..b][a] == log[a];
    }
  }

  // ----- processes do not disturb each other -----

  /** The entries of process p, in order. */
  function Project(log: seq<LogEntry>, p: nat): seq<LogEntry> {
    if log == [] then []
    else
      var e := log[|log| - 1];
      Project(log[..|log| - 1], p) + (if e.process == Some(p) then [e] else [])
  }

  /** The commits of process p within a log of several. */
  function CommitsOf(log: seq<LogEntry>, p: nat): seq<Commit> {
    if log == [] then []
    else
      var init, e := log[..|log| - 1], log[|log| - 1];
      CommitsOf(init, p) + (if IsSuccess(e) && e.process == Some(p) then [CommitAfter(init, e)] else [])
  }

  lemma OpenEventSnoc(init: seq<LogEntry>, e: LogEntry, p: nat)
    ensures OpenEvent(init + [e], p)
            == if !Touches(e, p) then OpenEvent(init, p) else if e.event.Started? then Some(e.event) else None
  {
    assert (init + [e])[..|init|] == init;
  }

  lemma CommitsSnoc(init: seq<LogEntry>, e: LogEntry)
    ensures Commits(init + [e]) == Commits(init) + (if IsSuccess(e) then [CommitAfter(init, e)] else [])
  {
    assert (init + [e])[..|init|] == init;
  }

  lemma ProjectStep(init: seq<LogEntry>, e: LogEntry, p: nat)
    ensures Project(init + [e], p) == if e.process == Some(p) then Project(init, p) + [e] else Project(init, p)
  {
    assert (init + [e])[..|init|] == init;
  }

  lemma {:induction false} OpenEventProject(log: seq<LogEntry>, p: nat)
    ensures OpenEvent(Project(log, p), p) == OpenEvent(log, p)
  {
    if log != [] {
      var init, e := log[..|log| - 1], log[|log| - 1];
      OpenEventProject(init, p);
      assert log == init + [e];
      ProjectStep(init, e, p);
      OpenEventSnoc(init, e, p);
      OpenEventSnoc(Project(init, p), e, p);
    }
  }

  lemma CommitFromOpenEvent(a: seq<LogEntry>, b: seq<LogEntry>, e: LogEntry)
    requires IsSuccess(e) && OpenEvent(a, e.process.value) == OpenEvent(b, e.process.value)
    ensures CommitAfter(a, e) == CommitAfter(b, e)
  {
  }

  /** A process's commits are those of its own events alone, however other processes interleave. */
  lemma {:induction false} InterleavingIrrelevant(log: seq<LogEntry>, p: nat)
    ensures CommitsOf(log, p) == Commits(Project(log, p))
  {
    if log != [] {
      var init, e := log[..|log| - 1], log[|log| - 1];
      InterleavingIrrelevant(init, p);
      assert log == init + [e];
      ProjectStep(init, e, p);
      if e.process == Some(p) {
        CommitsSnoc(Project(init, p), e);
        if IsSuccess(e) {
          OpenEventProject(init, p);
          CommitFromOpenEvent(Project(init, p), init, e);
        }
      }
    }
  }

  // ----- the loader's event stream -----

  /** How the exporter reads the i-th event of process p, if it accepts it.  Its filter knows neither
      `stalled` nor `commit_failed`. */
  function Exported(e: LoaderHealth.Event, p: nat, i: nat): seq<LogEntry> {
    match e
    case ProcessStarted => [LogEntry(Some(p), Heartbeat)]
    case Heartbeat(_) => [LogEntry(Some(p), Heartbeat)]
    case StalledEvent(_) => []
    case CommitStarted(bars, sources) => [LogEntry(Some(p), Started(Some(bars), Some(sources)))]
    case CommitSucceeded => [LogEntry(Some(p), Succeeded(i))]
    case CommitFailed(_) => []
    case LoaderFailed => [LogEntry(Some(p), Failed)]
  }

  function ExportedLog(output: seq<LoaderHealth.Event>, p: nat): seq<LogEntry> {
    if output == [] then []
    else ExportedLog(output[..|output| - 1], p) + Exported(output[|output| - 1], p, |output| - 1)
  }

  /** The successes a process reported, with the counts of the start before each. */
  function ReportedSuccesses(output: seq<LoaderHealth.Event>): seq<Commit>
    requires LoaderHealth.SuccessFollowsStart(output)
  {
    if output == [] then []
    else
      var n := |output| - 1;
      ReportedSuccesses(output[..n])
      + (if output[n].CommitSucceeded? then [Commit(n, Some(output[n - 1].bars), Some(output[n - 1].sourceRecords))]
         else [])
  }

  /** The exporter's view of a success and the start before it. */
  lemma ExportedSuccess(output: seq<LoaderHealth.Event>, p: nat)
    requires |output| >= 2 && output[|output| - 1].CommitSucceeded? && output[|output| - 2].CommitStarted?
    ensures var n := |output| - 1;
            var log := ExportedLog(output[..n], p);
            OpenEvent(log, p) == Some(Started(Some(output[n - 1].bars), Some(output[n - 1].sourceRecords)))
  {
    var n := |output| - 1;
    assert output[..n][..n - 1] == output[..n - 1];
    OpenEventSnoc(ExportedLog(output[..n - 1], p),
                  LogEntry(Some(p), Started(Some(output[n - 1].bars), Some(output[n - 1].sourceRecords))), p);
  }

  lemma {:induction false} ExportedPairs(output: seq<LoaderHealth.Event>, p: nat)
    requires LoaderHealth.SuccessFollowsStart(output)
    ensures Commits(ExportedLog(output, p)) == ReportedSuccesses(output)
  {
    if output != [] {
      var n := |output| - 1;
      var init := ExportedLog(output[..n], p);
      ExportedPairs(output[..n], p);
      var added := Exported(output[n], p, n);
      if added == [] {
        assert init + added == init;
      } else {
        CommitsSnoc(init, added[0]);
        assert added == [added[0]];
        if output[n].CommitSucceeded? {
          ExportedSuccess(output, p);
        }
      }
    }
  }

  /** The commits are the given flushes: as many, in order, each with its bars and source records. */
  predicate ShowsFlushes(commits: seq<Commit>, flushed: seq<Batching.Batch>) {
    && |commits| == |flushed|
    && forall k :: 0 <= k < |flushed| ==>
         && commits[k].bars == Some(|flushed[k]|)
         && commits[k].sourceRecords == Some(|Batching.Sources(flushed[k])|)
  }

  lemma {:induction false} SuccessesAreReported(output: seq<LoaderHealth.Event>)
    requires LoaderHealth.SuccessFollowsStart(output)
    ensures var commits, counts := ReportedSuccesses(output), LoaderHealth.Successes(output);
            && |commits| == |counts|
            && forall k :: 0 <= k < |counts| ==>
                 commits[k].bars == Some(counts[k].bars) && commits[k].sourceRecords == Some(counts[k].sourceRecords)
  {
    if output != [] {
      SuccessesAreReported(output[..|output| - 1]);
    }
  }

  /** Whatever the interleaving of processes: if a process's entries in the log are what the exporter
      accepts of its output, and its successes are its finished flushes, its commits are exactly these. */
  lemma PairingRecoversFlushes(log: seq<LogEntry>, p: nat, output: seq<LoaderHealth.Event>,
                               flushed: seq<Batching.Batch>)
    requires LoaderHealth.SuccessFollowsStart(output)
             && LoaderHealth.Successes(output) == LoaderHealth.CountsOf(flushed)
    requires Project(log, p) == ExportedLog(output, p)
    ensures CommitsOf(log, p) == ReportedSuccesses(output) && ShowsFlushes(CommitsOf(log, p), flushed)
  {
    InterleavingIrrelevant(log, p);
    ExportedPairs(output, p);
    SuccessesAreReported(output);
  }
}
