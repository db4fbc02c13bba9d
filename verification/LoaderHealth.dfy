/** The loader's health reporter (LoaderHealthReporter.java): a few remembered instants
    stand for a property of the whole history of samples. */
module LoaderHealth {
  import opened Options
  import opened Batching

  datatype HealthState = Starting | Committing | Stalled | CatchingUp | Buffering | Idle

  datatype PartitionOffsets = PartitionOffsets(partition: nat, committedOffset: nat, endOffset: nat, lagRecords: nat)

  /** What the consumer answers for one sample; a partition may lack an entry in any map. */
  datatype BrokerView = BrokerView(
    assignment: set<nat>, committed: map<nat, nat>, beginning: map<nat, nat>, end: map<nat, nat>)

  datatype CommitFailure = DataFileWriteFailed | IcebergCommitFailed | IcebergCommitStateUnknown | OffsetCommitFailed

  /** When a flush finished and how long it took. */
  datatype Completed = Completed(at: int, duration: nat)

  /** What a sampled heartbeat carries; `now` is the instant of the sample. */
  datatype Report = Report(
    now: int, offsets: seq<PartitionOffsets>, state: HealthState, lag: nat, bufferedBars: nat, bufferedSources: nat,
    lastInputAt: Option<int>, lastCommit: Option<Completed>)

  /** `ProcessStarted` is the heartbeat sent before the first sample. */
  datatype Event =
    | ProcessStarted
    | Heartbeat(report: Report)
    | StalledEvent(report: Report)
    | CommitStarted(bars: nat, sourceRecords: nat)
    | CommitSucceeded
    | CommitFailed(failure: CommitFailure)
    | LoaderFailed

  /** The fields updateProgress maintains. */
  datatype Tracker = Tracker(
    positiveLagSince: Option<int>, lastDurableProgressAt: Option<int>, previousCommitted: map<nat, nat>)

  datatype Sample = Sample(now: int, offsets: seq<PartitionOffsets>)

  // ----- reading a sample -----

  function GetOr(m: map<nat, nat>, key: nat, fallback: nat): nat {
    if key in m then m[key] else fallback
  }

  function CommittedOf(view: BrokerView, p: nat): nat {
    if p in view.committed then view.committed[p] else GetOr(view.beginning, p, 0)
  }

  function OffsetsOf(view: BrokerView, p: nat): PartitionOffsets {
    var committed := CommittedOf(view, p);
    var end := GetOr(view.end, p, committed);
    PartitionOffsets(p, committed, end, if end > committed then end - committed else 0)
  }

  /** One entry per assigned partition, in increasing order. */
  ghost predicate IsSampleOf(view: BrokerView, offsets: seq<PartitionOffsets>) {
    && Ascending(offsets)
    && (forall o :: o in offsets ==> o.partition in view.assignment && o == OffsetsOf(view, o.partition))
    && (forall p :: p in view.assignment ==> OffsetsOf(view, p) in offsets)
  }

  predicate Ascending(offsets: seq<PartitionOffsets>) {
    forall i, j :: 0 <= i < j < |offsets| ==> offsets[i].partition < offsets[j].partition
  }

  /** The entry of an assigned partition, field by field: the committed offset, or where nothing was
      committed the beginning, or 0; the end offset, or where there is none the committed one. */
  lemma SampleEntry(view: BrokerView, offsets: seq<PartitionOffsets>, p: nat) returns (i: nat)
    requires IsSampleOf(view, offsets) && p in view.assignment
    ensures i < |offsets| && offsets[i].partition == p
    ensures p in view.committed ==> offsets[i].committedOffset == view.committed[p]
    ensures p !in view.committed && p in view.beginning ==> offsets[i].committedOffset == view.beginning[p]
    ensures p !in view.committed && p !in view.beginning ==> offsets[i].committedOffset == 0
    ensures p in view.end ==> offsets[i].endOffset == view.end[p]
    ensures p !in view.end ==> offsets[i].endOffset == offsets[i].committedOffset
    ensures offsets[i].endOffset > offsets[i].committedOffset
            ==> offsets[i].lagRecords == offsets[i].endOffset - offsets[i].committedOffset
    ensures offsets[i].endOffset <= offsets[i].committedOffset ==> offsets[i].lagRecords == 0
  {
    i :| 0 <= i < |offsets| && offsets[i] == OffsetsOf(view, p);
  }

  /** `o` put where it belongs in a list sorted by partition. */
  function Insert(o: PartitionOffsets, sorted: seq<PartitionOffsets>): (r: seq<PartitionOffsets>)
    requires Ascending(sorted) && forall x :: x in sorted ==> x.partition != o.partition
    ensures Ascending(r) && |r| == |sorted| + 1
    ensures forall x :: x in r <==> x == o || x in sorted
  {
    if sorted == [] || sorted[|sorted| - 1].partition < o.partition then sorted + [o]
    else
      var init, last := sorted[..|sorted| - 1], sorted[|sorted| - 1];
      assert sorted == init + [last];
      var r0 := Insert(o, init);
      assert forall x :: x in init ==> x.partition < last.partition;
      assert forall i :: 0 <= i < |r0| ==> r0[i] in r0 && r0[i].partition < last.partition;
      r0 + [last]
  }

  lemma EmptySample(view: BrokerView, offsets: seq<PartitionOffsets>)
    requires IsSampleOf(view, offsets)
    ensures offsets == [] <==> view.assignment == {}
  {
    assert offsets != [] ==> offsets[0] in offsets;
    if view.assignment != {} {
      var p :| p in view.assignment;
      assert OffsetsOf(view, p) in offsets;
    }
  }

  /** The assignment is a set: its entries come in any order, and are sorted at the end. */
  method Offsets(view: BrokerView) returns (result: seq<PartitionOffsets>)
    ensures IsSampleOf(view, result)
  {
    var listed: seq<PartitionOffsets> := [];
    var rest := view.assignment;
    while rest != {}
      invariant rest <= view.assignment
      invariant forall i, j :: 0 <= i < j < |listed| ==> listed[i].partition != listed[j].partition
      invariant forall o :: o in listed ==> o.partition in view.assignment - rest && o == OffsetsOf(view, o.partition)
      invariant forall p :: p in view.assignment - rest ==> OffsetsOf(view, p) in listed
    {
      var p :| p in rest;
      var committedOffset := if p in view.committed then view.committed[p] else GetOr(view.beginning, p, 0);
      var endOffset := GetOr(view.end, p, committedOffset);
      var lag := if endOffset - committedOffset > 0 then endOffset - committedOffset else 0;
      listed := listed + [PartitionOffsets(p, committedOffset, endOffset, lag)];
      rest := rest - {p};
    }
    result := SortedByPartition(listed);
  }

  method SortedByPartition(listed: seq<PartitionOffsets>) returns (sorted: seq<PartitionOffsets>)
    requires forall i, j :: 0 <= i < j < |listed| ==> listed[i].partition != listed[j].partition
    ensures Ascending(sorted) && forall o :: o in sorted <==> o in listed
  {
    sorted := [];
    for i := 0 to |listed|
      invariant Ascending(sorted) && forall o :: o in sorted <==> o in listed[..i]
    {
      sorted := Insert(listed[i], sorted);
    }
    assert listed[..|listed|] == listed;
  }

  function Lag(offsets: seq<PartitionOffsets>): nat {
    if offsets == [] then 0 else Lag(offsets[..|offsets| - 1]) + offsets[|offsets| - 1].lagRecords
  }

  function CommittedMap(offsets: seq<PartitionOffsets>): map<nat, nat> {
    if offsets == [] then map[]
    else
      var last := offsets[|offsets| - 1];
      CommittedMap(offsets[..|offsets| - 1])[last.partition := last.committedOffset]
  }

  predicate Progressed(previous: map<nat, nat>, offsets: seq<PartitionOffsets>) {
    exists o :: o in offsets && o.partition in previous && o.committedOffset > previous[o.partition]
  }

  /** updateProgress as a function on the tracked fields. */
  function Observe(t: Tracker, sample: Sample): Tracker {
    var previous := CommittedMap(sample.offsets);
    if Lag(sample.offsets) == 0 then Tracker(None, Some(sample.now), previous)
    else
      Tracker(if t.positiveLagSince == None then Some(sample.now) else t.positiveLagSince,
              if Progressed(t.previousCommitted, sample.offsets) then Some(sample.now) else t.lastDurableProgressAt,
              previous)
  }

  function Later(left: Option<int>, right: Option<int>): (later: Option<int>)
    ensures later == left || later == right
    ensures later.None? <==> left.None? && right.None?
    ensures forall at :: left == Some(at) || right == Some(at) ==> later.value >= at
  {
    if left.None? then right else if right.None? then left else if left.value > right.value then left else right
  }

  function InferState(initialized: bool, committing: bool, lagRecords: nat,
                      bufferedBars: nat, bufferedSourceRecords: nat,
                      positiveLagSince: Option<int>, lastDurableProgressAt: Option<int>,
                      now: int, stallThreshold: int): HealthState
  {
    if !initialized then Starting
    else if committing then Committing
    else
      var boundary := Later(positiveLagSince, lastDurableProgressAt);
      if lagRecords > 0 && boundary.Some? && now - boundary.value >= stallThreshold then Stalled
      else if lagRecords > bufferedSourceRecords then CatchingUp
      else if bufferedBars > 0 || bufferedSourceRecords > 0 then Buffering
      else Idle
  }

  function StateAfter(t: Tracker, sample: Sample, committing: bool, bars: nat, sources: nat,
                      stallThreshold: int): HealthState {
    InferState(sample.offsets != [], committing, Lag(sample.offsets), bars, sources,
               t.positiveLagSince, t.lastDurableProgressAt, sample.now, stallThreshold)
  }

  /** The events one heartbeat emits after a heartbeat in state `previous`. */
  function HeartbeatEvents(previous: Option<HealthState>, report: Report): seq<Event> {
    (if report.state == Stalled && previous != Some(Stalled) then [StalledEvent(report)] else []) + [Heartbeat(report)]
  }

  /** The sampled heartbeats among the events, oldest first. */
  function Reports(output: seq<Event>): seq<Report> {
    if output == [] then []
    else
      var last := output[|output| - 1];
      Reports(output[..|output| - 1]) + (if last.Heartbeat? then [last.report] else [])
  }

  function Samples(reports: seq<Report>): seq<Sample> {
    seq(|reports|, i requires 0 <= i < |reports| => Sample(reports[i].now, reports[i].offsets))
  }

  function States(reports: seq<Report>): seq<HealthState> {
    seq(|reports|, i requires 0 <= i < |reports| => reports[i].state)
  }

  datatype Counts = Counts(bars: nat, sourceRecords: nat)

  /** What the commits reported as succeeded were started with. */
  function Successes(output: seq<Event>): seq<Counts> {
    if output == [] then []
    else
      var n := |output| - 1;
      Successes(output[..n])
      + (if n > 0 && output[n].CommitSucceeded? && output[n - 1].CommitStarted?
         then [Counts(output[n - 1].bars, output[n - 1].sourceRecords)] else [])
  }

  function CountsOf(batches: seq<Batch>): seq<Counts> {
    seq(|batches|, i requires 0 <= i < |batches| => Counts(|batches[i]|, |Sources(batches[i])|))
  }

  /** Every commit_succeeded directly follows the commit_started of the same flush. */
  predicate SuccessFollowsStart(output: seq<Event>) {
    forall i :: 0 <= i < |output| && output[i].CommitSucceeded? ==> i > 0 && output[i - 1].CommitStarted?
  }

  /** A heartbeat is due at the first chance, then an interval after the last one. */
  predicate Due(last: Option<int>, now: int, interval: int) {
    last.None? || now - last.value >= interval
  }

  class LoaderHealthReporter {
    const heartbeatInterval: int
    const stallThreshold: int
    var positiveLagSince: Option<int>
    var lastDurableProgressAt: Option<int>
    var previousCommitted: map<nat, nat>
    var lastHeartbeatAt: Option<int>
    var lastInputAt: Option<int>
    var lastCommit: Option<Completed>
    var committing: bool
    var previousHeartbeatState: Option<HealthState>
    var output: seq<Event>

    function Tracked(): Tracker
      reads this
    {
      Tracker(positiveLagSince, lastDurableProgressAt, previousCommitted)
    }

    /** What the fields remember is what the heartbeats sent so far show. */
    ghost predicate Consistent()
      reads this
    {
      Matches(output, Tracked(), previousHeartbeatState, stallThreshold)
    }

    constructor (interval: int, threshold: int)
      ensures Consistent() && heartbeatInterval == interval && stallThreshold == threshold
      ensures Tracked() == Tracker(None, None, map[]) && lastHeartbeatAt == None && !committing
      ensures previousHeartbeatState == None && output == [] && lastInputAt == None && lastCommit == None
    {
      heartbeatInterval, stallThreshold := interval, threshold;
      positiveLagSince, lastDurableProgressAt, previousCommitted := None, None, map[];
      lastHeartbeatAt, committing, previousHeartbeatState, output := None, false, None, [];
      lastInputAt, lastCommit := None, None;
      new;
      MatchesMeaning([], Tracker(None, None, map[]), None, threshold);
    }

    /** The constructor's argument checks: both durations must be positive. */
    static method Create(interval: int, threshold: int) returns (created: Option<LoaderHealthReporter>)
      ensures created.Some? <==> interval > 0 && threshold > 0
      ensures created.Some? ==> fresh(created.value) && created.value.output == [] && !created.value.committing
                                && created.value.Consistent()
                                && created.value.heartbeatInterval == interval
                                && created.value.stallThreshold == threshold
    {
      if interval <= 0 || threshold <= 0 {
        return None;
      }
      var reporter := new LoaderHealthReporter(interval, threshold);
      return Some(reporter);
    }

    method StartingUp(now: int)
      modifies this`output, this`lastHeartbeatAt
      ensures output == old(output) + [ProcessStarted] && lastHeartbeatAt == Some(now)
      ensures old(Consistent()) ==> Consistent()
    {
      MatchesOther(output, ProcessStarted, Tracked(), previousHeartbeatState, stallThreshold);
      output := output + [ProcessStarted];
      lastHeartbeatAt := Some(now);
    }

    method RecordInput(now: int)
      modifies this`lastInputAt
      ensures lastInputAt == Some(now)
      ensures old(Consistent()) ==> Consistent()
    {
      lastInputAt := Some(now);
    }

    method StartCommit(batch: Batch)
      modifies this`output, this`committing
      ensures committing && output == old(output) + [CommitStarted(|batch|, |Sources(batch)|)]
      ensures old(Consistent()) ==> Consistent()
    {
      committing := true;
      MatchesOther(output, CommitStarted(|batch|, |Sources(batch)|), Tracked(), previousHeartbeatState, stallThreshold);
      output := output + [CommitStarted(|batch|, |Sources(batch)|)];
    }

    method SucceedCommit(completed: Completed)
      modifies this`output, this`committing, this`lastCommit
      ensures !committing && output == old(output) + [CommitSucceeded] && lastCommit == Some(completed)
      ensures old(Consistent()) ==> Consistent()
    {
      committing, lastCommit := false, Some(completed);
      MatchesOther(output, CommitSucceeded, Tracked(), previousHeartbeatState, stallThreshold);
      output := output + [CommitSucceeded];
    }

    method FailCommit(failure: CommitFailure)
      modifies this`output, this`committing
      ensures !committing && output == old(output) + [CommitFailed(failure)]
      ensures old(Consistent()) ==> Consistent()
    {
      committing := false;
      MatchesOther(output, CommitFailed(failure), Tracked(), previousHeartbeatState, stallThreshold);
      output := output + [CommitFailed(failure)];
    }

    method FailLoader()
      modifies this`output
      ensures output == old(output) + [LoaderFailed]
      ensures old(Consistent()) ==> Consistent()
    {
      MatchesOther(output, LoaderFailed, Tracked(), previousHeartbeatState, stallThreshold);
      output := output + [LoaderFailed];
    }

    method UpdateProgress(offsets: seq<PartitionOffsets>, lag: nat, now: int)
      requires lag == Lag(offsets)
      modifies this`positiveLagSince, this`lastDurableProgressAt, this`previousCommitted
      ensures Tracked() == Observe(old(Tracked()), Sample(now, offsets))
    {
      var progressed := Progressed(previousCommitted, offsets);
      previousCommitted := map[];
      for i := 0 to |offsets|
        invariant positiveLagSince == old(positiveLagSince) && lastDurableProgressAt == old(lastDurableProgressAt)
        invariant previousCommitted == CommittedMap(offsets[..i])
      {
        assert offsets[..i + 1][..i] == offsets[..i];
        previousCommitted := previousCommitted[offsets[i].partition := offsets[i].committedOffset];
      }
      assert offsets[..|offsets|] == offsets;
      if lag == 0 {
        positiveLagSince := None;
        lastDurableProgressAt := Some(now);
      } else {
        if positiveLagSince == None {
          positiveLagSince := Some(now);
        }
        if progressed {
          lastDurableProgressAt := Some(now);
        }
      }
    }

    /** `view` is None when asking the broker throws: the sample is dropped, the timer restarts. */
    method MaybeHeartbeat(now: int, view: Option<BrokerView>, bars: nat, sources: nat)
      returns (ghost sent: Option<Report>)
      modifies this
      ensures committing == old(committing) && lastInputAt == old(lastInputAt) && lastCommit == old(lastCommit)
      ensures old(Consistent()) ==> Consistent()
      ensures var due := old(lastHeartbeatAt).None? || now - old(lastHeartbeatAt).value >= heartbeatInterval;
              && lastHeartbeatAt == (if due then Some(now) else old(lastHeartbeatAt))
              && (sent.Some? <==> due && view.Some?)
      ensures sent.Some? ==>
        && (sent.value.state == Starting <==> view.value.assignment == {})
        && (sent.value.state == Committing <==> view.value.assignment != {} && committing)
      ensures sent == None ==> Tracked() == old(Tracked()) && output == old(output)
                               && previousHeartbeatState == old(previousHeartbeatState)
      ensures sent.Some? ==>
        var r := sent.value;
        && IsSampleOf(view.value, r.offsets) && r.now == now && r.lag == Lag(r.offsets)
        && r.bufferedBars == bars && r.bufferedSources == sources
        && r.lastInputAt == lastInputAt && r.lastCommit == lastCommit
        && Tracked() == Observe(old(Tracked()), Sample(now, r.offsets))
        && r.state == StateAfter(Tracked(), Sample(now, r.offsets), committing, bars, sources, stallThreshold)
        && previousHeartbeatState == Some(r.state)
        && output == old(output) + HeartbeatEvents(old(previousHeartbeatState), r)
    {
      sent := None;
      if lastHeartbeatAt.Some? && now - lastHeartbeatAt.value < heartbeatInterval {
        return;
      }
      lastHeartbeatAt := Some(now);
      if view.None? {
        return;
      }
      var sampled := Offsets(view.value);
      EmptySample(view.value, sampled);
      var lag := Lag(sampled);
      UpdateProgress(sampled, lag, now);
      var state := InferState(sampled != [], committing, lag, bars, sources,
                              positiveLagSince, lastDurableProgressAt, now, stallThreshold);
      var report := Report(now, sampled, state, lag, bars, sources, lastInputAt, lastCommit);
      MatchesHeartbeat(output, report, committing, old(Tracked()), previousHeartbeatState, stallThreshold);
      sent := Some(report);
      Emit(report);
    }

    /** Sends the heartbeat, and `stalled` before it when a stall begins. */
    method Emit(report: Report)
      modifies this`output, this`previousHeartbeatState
      ensures output == old(output) + HeartbeatEvents(old(previousHeartbeatState), report)
      ensures previousHeartbeatState == Some(report.state)
    {
      if report.state == Stalled && previousHeartbeatState != Some(Stalled) {
        output := output + [StalledEvent(report)];
      }
      output := output + [Heartbeat(report)];
      previousHeartbeatState := Some(report.state);
    }
  }

  // ----- what the tracked instants mean -----

  /** The tracked fields after a history of samples. */
  function Track(samples: seq<Sample>): Tracker {
    if samples == [] then Tracker(None, None, map[])
    else Observe(Track(samples[..|samples| - 1]), samples[|samples| - 1])
  }

  ghost predicate WellFormed(samples: seq<Sample>) {
    && (forall i, j :: 0 <= i < j < |samples| ==> samples[i].now <= samples[j].now)
    && (forall k, i, j :: 0 <= k < |samples| && 0 <= i < j < |samples[k].offsets|
                          ==> samples[k].offsets[i].partition != samples[k].offsets[j].partition)
  }

  predicate Behind(samples: seq<Sample>, k: nat)
    requires k < |samples|
  {
    Lag(samples[k].offsets) > 0
  }

  /** At sample k some partition assigned at k - 1 and at k has a higher committed offset. */
  ghost predicate Advanced(samples: seq<Sample>, k: nat)
    requires k < |samples|
  {
    k > 0 && exists a, b :: a in samples[k - 1].offsets && b in samples[k].offsets
                            && a.partition == b.partition && b.committedOffset > a.committedOffset
  }

  /** From sample m to n, at least `threshold` apart, lag stays positive and no offset advances. */
  ghost predicate NoProgressSince(samples: seq<Sample>, m: nat, n: nat, threshold: int)
    requires m <= n < |samples|
  {
    && samples[n].now - samples[m].now >= threshold
    && (forall k :: m <= k <= n ==> Behind(samples, k))
    && (forall k :: m < k <= n ==> !Advanced(samples, k))
  }

  lemma {:induction false} CommittedMapMeaning(offsets: seq<PartitionOffsets>, p: nat, value: nat)
    requires forall i, j :: 0 <= i < j < |offsets| ==> offsets[i].partition != offsets[j].partition
    ensures (p in CommittedMap(offsets) && CommittedMap(offsets)[p] == value)
            <==> exists o :: o in offsets && o.partition == p && o.committedOffset == value
  {
    if offsets != [] {
      var init, last := offsets[..|offsets| - 1], offsets[|offsets| - 1];
      CommittedMapMeaning(init, p, value);
      assert offsets == init + [last];
    }
  }

  lemma ProgressedMeaning(samples: seq<Sample>, k: nat)
    requires WellFormed(samples) && k < |samples|
    ensures Progressed(Track(samples[..k]).previousCommitted, samples[k].offsets) <==> Advanced(samples, k)
  {
    if k > 0 {
      assert samples[..k][..k - 1] == samples[..k - 1];
      var before, now := samples[k - 1].offsets, samples[k].offsets;
      assert Track(samples[..k]).previousCommitted == CommittedMap(before);
      forall o | o in now
        ensures o.partition in CommittedMap(before) && o.committedOffset > CommittedMap(before)[o.partition]
                <==> exists a :: a in before && a.partition == o.partition && o.committedOffset > a.committedOffset
      {
        if o.partition in CommittedMap(before) {
          CommittedMapMeaning(before, o.partition, CommittedMap(before)[o.partition]);
        }
        forall a | a in before && a.partition == o.partition
          ensures o.partition in CommittedMap(before) && CommittedMap(before)[o.partition] == a.committedOffset
        {
          CommittedMapMeaning(before, o.partition, a.committedOffset);
        }
      }
    }
  }

  /** While lag is positive: `since` is the first sample of the run of positive lag, `mark` the
      last sample with zero lag or an advance (-1 if there is none). */
  ghost predicate Remembers(samples: seq<Sample>, n: nat, t: Tracker, since: nat, mark: int)
    requires n < |samples|
  {
    && since <= n && -1 <= mark <= n
    && (forall k :: since <= k <= n ==> Behind(samples, k))
    && (since == 0 || !Behind(samples, since - 1))
    && t.positiveLagSince == Some(samples[since].now)
    && t.lastDurableProgressAt == (if mark < 0 then None else Some(samples[mark].now))
    && (mark >= 0 ==> !Behind(samples, mark) || Advanced(samples, mark))
    && (forall k :: mark < k <= n ==> Behind(samples, k) && !Advanced(samples, k))
  }

  /** What the fields hold after sample n, without reference to how they were computed. */
  ghost predicate Means(samples: seq<Sample>, n: nat, t: Tracker, since: nat, mark: int)
    requires n < |samples|
  {
    if Behind(samples, n) then Remembers(samples, n, t, since, mark)
    else t.positiveLagSince == None && t.lastDurableProgressAt == Some(samples[n].now)
  }

  ghost predicate StepsTo(samples: seq<Sample>, n: nat, before: Tracker, after: Tracker)
    requires n < |samples|
  {
    var now := Some(samples[n].now);
    if Behind(samples, n) then
      && after.positiveLagSince == (if before.positiveLagSince == None then now else before.positiveLagSince)
      && after.lastDurableProgressAt == (if Advanced(samples, n) then now else before.lastDurableProgressAt)
    else after.positiveLagSince == None && after.lastDurableProgressAt == now
  }

  lemma TrackStep(samples: seq<Sample>, n: nat)
    requires WellFormed(samples) && n < |samples|
    ensures StepsTo(samples, n, Track(samples[..n]), Track(samples[..n + 1]))
  {
    assert samples[..n + 1][..n] == samples[..n];
    ProgressedMeaning(samples, n);
  }

  lemma MeaningStep(samples: seq<Sample>, n: nat, before: Tracker, after: Tracker, since: nat, mark: int)
    returns (since': nat, mark': int)
    requires 0 < n < |samples| && Means(samples, n - 1, before, since, mark) && StepsTo(samples, n, before, after)
    ensures Means(samples, n, after, since', mark')
  {
    since', mark' := since, mark;
    if !Behind(samples, n - 1) {
      since', mark' := n, n - 1;
    }
    if Advanced(samples, n) {
      mark' := n;
    }
  }

  lemma {:induction false} TrackMeaning(samples: seq<Sample>, n: nat) returns (since: nat, mark: int)
    requires WellFormed(samples) && n < |samples|
    ensures Means(samples, n, Track(samples[..n + 1]), since, mark)
  {
    TrackStep(samples, n);
    if n == 0 {
      since, mark := 0, -1;
    } else {
      since, mark := TrackMeaning(samples, n - 1);
      since, mark := MeaningStep(samples, n, Track(samples[..n]), Track(samples[..n + 1]), since, mark);
    }
  }

  /** The O(1) stall verdict is the history property: stalled exactly when, for at least the
      threshold, lag has been positive and no committed offset has advanced. */
  lemma StallVerdict(samples: seq<Sample>, n: nat, bars: nat, sources: nat, threshold: int)
    requires WellFormed(samples) && n < |samples|
    ensures StateAfter(Track(samples[..n + 1]), samples[n], false, bars, sources, threshold) == Stalled
            <==> exists m: nat :: m <= n && NoProgressSince(samples, m, n, threshold)
  {
    var t := Track(samples[..n + 1]);
    var since, mark := TrackMeaning(samples, n);
    if Behind(samples, n) {
      var m: nat := if mark > since then mark else since;
      assert Later(t.positiveLagSince, t.lastDurableProgressAt) == Some(samples[m].now);
      assert samples[n].offsets != [];
      if samples[n].now - samples[m].now >= threshold {
        assert NoProgressSince(samples, m, n, threshold);
      }
      forall w: nat | w <= n && NoProgressSince(samples, w, n, threshold)
        ensures samples[n].now - samples[m].now >= threshold
      {
        assert w >= since;
        assert w >= mark;
      }
    } else {
      forall w: nat | w <= n
        ensures !NoProgressSince(samples, w, n, threshold)
      {
        assert !Behind(samples, n);
      }
    }
  }

  // ----- one `stalled` event per episode -----

  function StalledEvents(events: seq<Event>): nat {
    if events == [] then 0
    else StalledEvents(events[..|events| - 1]) + (if events[|events| - 1].StalledEvent? then 1 else 0)
  }

  /** The end of the run of stalled heartbeats that starts the series. */
  function RunEnd(states: seq<HealthState>): (end: nat)
    ensures end <= |states|
    ensures forall k :: 0 <= k < end ==> states[k] == Stalled
    ensures end < |states| ==> states[end] != Stalled
  {
    if states == [] || states[0] != Stalled then 0 else 1 + RunEnd(states[1..])
  }

  /** The number of maximal runs of stalled heartbeats. */
  function StalledRuns(states: seq<HealthState>): nat
    decreases |states|
  {
    if states == [] then 0
    else if states[0] != Stalled then StalledRuns(states[1..])
    else 1 + StalledRuns(states[RunEnd(states)..])
  }

  lemma {:induction false} RunEndLast(states: seq<HealthState>, s: HealthState)
    ensures RunEnd(states + [s])
            == if RunEnd(states) == |states| && s == Stalled then |states| + 1 else RunEnd(states)
  {
    if states != [] {
      RunEndLast(states[1..], s);
      assert (states + [s])[1..] == states[1..] + [s];
    }
  }

  /** One more heartbeat starts a new run exactly when it is stalled and the one before it was not. */
  lemma {:induction false} StalledRunsLast(states: seq<HealthState>, s: HealthState)
    ensures StalledRuns(states + [s])
            == StalledRuns(states) + if s == Stalled && (states == [] || states[|states| - 1] != Stalled) then 1 else 0
    decreases |states|
  {
    var all := states + [s];
    if states == [] {
      assert all == [s] && [s][1..] == [];
    } else if states[0] != Stalled {
      StalledRunsLast(states[1..], s);
      assert all[1..] == states[1..] + [s];
    } else {
      var end := RunEnd(states);
      RunEndLast(states, s);
      if end < |states| {
        StalledRunsLast(states[end..], s);
        assert all[end..] == states[end..] + [s];
      } else {
        assert states[end..] == [] && all[|states|..] == [s] && all[|all|..] == [] && [s][1..] == [];
      }
    }
  }

  // ----- what the events of a whole process mean -----

  function LastState(reports: seq<Report>): Option<HealthState> {
    if reports == [] then None else Some(reports[|reports| - 1].state)
  }

  /** Heartbeat k carries the state inferred from all samples up to it. */
  ghost predicate InferredAt(reports: seq<Report>, k: nat, threshold: int)
    requires k < |reports|
  {
    var r := reports[k];
    && Ascending(r.offsets) && r.lag == Lag(r.offsets)
    && (r.state == Committing
        || r.state == StateAfter(Track(Samples(reports[..k + 1])), Sample(r.now, r.offsets), false,
                                 r.bufferedBars, r.bufferedSources, threshold))
  }

  ghost predicate Remembered(output: seq<Event>, tracked: Tracker, previous: Option<HealthState>, threshold: int) {
    var reports := Reports(output);
    && tracked == Track(Samples(reports))
    && previous == LastState(reports)
    && StalledEvents(output) == StalledRuns(States(reports))
    && forall k :: 0 <= k < |reports| ==> InferredAt(reports, k, threshold)
  }

  /** Remembered, said of the whole output as a prefix of itself, so that a proof unfolds it only
      where it calls MatchesMeaning. */
  ghost predicate Matches(output: seq<Event>, tracked: Tracker, previous: Option<HealthState>, threshold: int) {
    forall n :: n == |output| ==> Remembered(output[..n], tracked, previous, threshold)
  }

  lemma MatchesMeaning(output: seq<Event>, tracked: Tracker, previous: Option<HealthState>, threshold: int)
    ensures Matches(output, tracked, previous, threshold) <==> Remembered(output, tracked, previous, threshold)
  {
    assert output[..|output|] == output;
  }

  lemma MatchesOther(output: seq<Event>, e: Event, tracked: Tracker, previous: Option<HealthState>, threshold: int)
    requires !e.Heartbeat? && !e.StalledEvent?
    ensures Matches(output, tracked, previous, threshold) ==> Matches(output + [e], tracked, previous, threshold)
  {
    MatchesMeaning(output, tracked, previous, threshold);
    RememberedOther(output, e, tracked, previous, threshold);
    MatchesMeaning(output + [e], tracked, previous, threshold);
  }

  lemma MatchesHeartbeat(output: seq<Event>, r: Report, committing: bool, before: Tracker,
                         previous: Option<HealthState>, threshold: int)
    requires var sample := Sample(r.now, r.offsets);
             r.state == StateAfter(Observe(before, sample), sample, committing, r.bufferedBars, r.bufferedSources,
                                   threshold)
    requires Ascending(r.offsets) && r.lag == Lag(r.offsets)
    ensures Matches(output, before, previous, threshold) ==>
              Matches(output + HeartbeatEvents(previous, r), Observe(before, Sample(r.now, r.offsets)), Some(r.state),
                      threshold)
  {
    var after := output + HeartbeatEvents(previous, r);
    MatchesMeaning(output, before, previous, threshold);
    RememberedHeartbeat(output, r, committing, before, previous, threshold);
    MatchesMeaning(after, Observe(before, Sample(r.now, r.offsets)), Some(r.state), threshold);
  }

  lemma OtherEvent(output: seq<Event>, e: Event)
    ensures e.Heartbeat? ==> Reports(output + [e]) == Reports(output) + [e.report]
    ensures !e.Heartbeat? ==> Reports(output + [e]) == Reports(output)
    ensures StalledEvents(output + [e]) == StalledEvents(output) + if e.StalledEvent? then 1 else 0
  {
    assert (output + [e])[..|output|] == output;
  }

  lemma RememberedOther(output: seq<Event>, e: Event, tracked: Tracker, previous: Option<HealthState>, threshold: int)
    requires !e.Heartbeat? && !e.StalledEvent?
    ensures Remembered(output, tracked, previous, threshold) ==> Remembered(output + [e], tracked, previous, threshold)
  {
    OtherEvent(output, e);
  }

  lemma ReportsLast(reports: seq<Report>, r: Report)
    ensures Samples(reports + [r]) == Samples(reports) + [Sample(r.now, r.offsets)]
    ensures States(reports + [r]) == States(reports) + [r.state]
    ensures Track(Samples(reports + [r])) == Observe(Track(Samples(reports)), Sample(r.now, r.offsets))
  {
    assert (Samples(reports) + [Sample(r.now, r.offsets)])[..|reports|] == Samples(reports);
  }

  lemma EmittedHeartbeat(output: seq<Event>, previous: Option<HealthState>, r: Report)
    ensures var after := output + HeartbeatEvents(previous, r);
            && Reports(after) == Reports(output) + [r]
            && StalledEvents(after)
               == StalledEvents(output) + if r.state == Stalled && previous != Some(Stalled) then 1 else 0
  {
    if r.state == Stalled && previous != Some(Stalled) {
      OtherEvent(output, StalledEvent(r));
      OtherEvent(output + [StalledEvent(r)], Heartbeat(r));
      assert output + HeartbeatEvents(previous, r) == output + [StalledEvent(r)] + [Heartbeat(r)];
    } else {
      OtherEvent(output, Heartbeat(r));
      assert output + HeartbeatEvents(previous, r) == output + [Heartbeat(r)];
    }
  }

  lemma RememberedHeartbeat(output: seq<Event>, r: Report, committing: bool, before: Tracker,
                            previous: Option<HealthState>, threshold: int)
    requires var sample := Sample(r.now, r.offsets);
             r.state == StateAfter(Observe(before, sample), sample, committing, r.bufferedBars, r.bufferedSources,
                                   threshold)
    requires Ascending(r.offsets) && r.lag == Lag(r.offsets)
    ensures Remembered(output, before, previous, threshold) ==>
              Remembered(output + HeartbeatEvents(previous, r), Observe(before, Sample(r.now, r.offsets)),
                         Some(r.state), threshold)
  {
    if Remembered(output, before, previous, threshold) {
      var reports := Reports(output);
      EmittedHeartbeat(output, previous, r);
      ReportsLast(reports, r);
      StalledRunsLast(States(reports), r.state);
      forall k | 0 <= k < |reports| + 1
        ensures InferredAt(reports + [r], k, threshold)
      {
        InferredLast(reports, r, k, threshold);
      }
    }
  }

  lemma InferredLast(reports: seq<Report>, r: Report, k: nat, threshold: int)
    requires k <= |reports|
    ensures k < |reports| ==> (InferredAt(reports + [r], k, threshold) <==> InferredAt(reports, k, threshold))
    ensures k == |reports| ==> (reports + [r])[..k + 1] == reports + [r]
  {
    if k < |reports| {
      assert (reports + [r])[..k + 1] == reports[..k + 1];
    }
  }

  /** What the heartbeats of a process say: a sampled heartbeat reports a stall exactly when the
      history of samples shows one, and `stalled` was sent once per maximal run of such heartbeats. */
  lemma HeartbeatsTellHistory(output: seq<Event>, tracked: Tracker, previous: Option<HealthState>, threshold: int,
                              k: nat)
    requires Remembered(output, tracked, previous, threshold) && k < |Reports(output)|
    requires var reports := Reports(output);
             reports[k].state != Committing
             && forall i, j :: 0 <= i < j < |reports| ==> reports[i].now <= reports[j].now
    ensures var reports := Reports(output);
            && (reports[k].state == Stalled
                <==> exists m: nat :: m <= k && NoProgressSince(Samples(reports), m, k, threshold))
            && StalledEvents(output) == StalledRuns(States(reports))
  {
    var reports := Reports(output);
    assert InferredAt(reports, k, threshold);
    forall n, i, j | 0 <= n < |reports| && 0 <= i < j < |reports[n].offsets|
      ensures reports[n].offsets[i].partition != reports[n].offsets[j].partition
    {
      assert InferredAt(reports, n, threshold);
    }
    assert WellFormed(Samples(reports));
    assert Samples(reports[..k + 1]) == Samples(reports)[..k + 1];
    StallVerdict(Samples(reports), k, reports[k].bufferedBars, reports[k].bufferedSources, threshold);
  }

  // ----- commits reported as succeeded -----

  lemma SuccessesOther(output: seq<Event>, e: Event)
    requires !e.CommitSucceeded?
    ensures Successes(output + [e]) == Successes(output)
    ensures SuccessFollowsStart(output) ==> SuccessFollowsStart(output + [e])
  {
    assert (output + [e])[..|output|] == output;
  }

  lemma SuccessesFlush(output: seq<Event>, bars: nat, sourceRecords: nat)
    ensures Successes(output + [CommitStarted(bars, sourceRecords), CommitSucceeded])
            == Successes(output) + [Counts(bars, sourceRecords)]
    ensures SuccessFollowsStart(output)
            ==> SuccessFollowsStart(output + [CommitStarted(bars, sourceRecords), CommitSucceeded])
  {
    var started := output + [CommitStarted(bars, sourceRecords)];
    SuccessesOther(output, CommitStarted(bars, sourceRecords));
    assert output + [CommitStarted(bars, sourceRecords), CommitSucceeded] == started + [CommitSucceeded];
    assert (started + [CommitSucceeded])[..|started|] == started;
  }

  lemma CountsLast(batches: seq<Batch>, b: Batch)
    ensures CountsOf(batches + [b]) == CountsOf(batches) + [Counts(|b|, |Sources(b)|)]
  {
  }
}
