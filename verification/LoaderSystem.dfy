/** The loader as a crash-tolerant durable consumer (Main.java, IcebergWriter.java).

    A state is what survives a crash (broker offsets, table) plus one process, called
    an incarnation here.  Steps are the externally visible effects of the poll loop, of
    `flush`, and of a crash at any point, followed by the restart of a new process. */
module LoaderSystem {
  import opened Options
  import opened Batching

  /** A Kafka record value: a frame of bars (possibly none), or bytes that do not decode. */
  datatype Frame = Bars(bars: seq<Bar>) | Malformed

  /** Per partition the records in offset order, including those not produced yet. */
  type Log = seq<seq<Frame>>

  /** An ended incarnation: where it started, what the broker held when it ended, the rows
      it put into the table, and how many of them finished flushes had put there. */
  datatype Epoch = Epoch(start: seq<nat>, end: seq<nat>, rows: seq<Entry>, finished: nat)

  datatype State = State(
    produced: seq<nat>,        // per partition, the end offset
    committed: seq<nat>,       // per partition, the group's committed offset
    table: seq<Entry>,         // rows in commit order
    past: seq<Epoch>,          // incarnations that have ended
    start: seq<nat>,           // offsets this incarnation started from
    position: seq<nat>,        // next offset to poll
    settled: seq<Entry>,       // this incarnation's rows from finished flushes
    syncing: Batch,            // batch appended whose offsets are not committed yet; [] if none
    handed: seq<Batch>,        // full batches not flushed yet
    pending: seq<Entry>)       // BoundedBatch.pending

  datatype Step =
    | Produce(partition: nat)
    | Poll(partition: nat)
    | Drain
    | Append
    | Commit
      // The process ends: `appended` says whether an append that threw took effect,
      // `partial` for which partitions an offset commit that threw took effect.
    | Crash(appended: bool, partial: set<nat>)

  function FrameBars(frame: Frame): seq<Bar> {
    if frame.Malformed? then [] else frame.bars
  }

  predicate AllDecode(log: Log) {
    forall p, o :: 0 <= p < |log| && 0 <= o < |log[p]| ==> log[p][o].Bars?
  }

  /** The offsets `flush` asks the broker to commit: one past the last record of each
      partition whose final bar is in the batch. */
  function FinalOffsets(batch: Batch): map<nat, nat> {
    if batch == [] then map[] else Merge(FinalOffsets(batch[..|batch| - 1]), batch[|batch| - 1])
  }

  /** One iteration of the loop in `flush` that fills the offsets map. */
  function Merge(offsets: map<nat, nat>, e: Entry): map<nat, nat> {
    var p, next := e.source.partition, e.source.offset + 1;
    if !e.finalBar || (p in offsets && offsets[p] >= next) then offsets else offsets[p := next]
  }

  /** The merged map is exactly: per partition with a finished record in the batch, one past the
      largest such offset. */
  lemma {:induction false} FinalOffsetsMeaning(batch: Batch, p: nat)
    ensures forall e :: e in batch && e.finalBar && e.source.partition == p
                        ==> p in FinalOffsets(batch) && FinalOffsets(batch)[p] > e.source.offset
    ensures p in FinalOffsets(batch)
            ==> exists e :: e in batch && e.finalBar && e.source.partition == p
                            && FinalOffsets(batch)[p] == e.source.offset + 1
  {
    if batch != [] {
      var init, last := batch[..|batch| - 1], batch[|batch| - 1];
      FinalOffsetsMeaning(init, p);
      assert batch == init + [last];
      assert last in batch;
    }
  }

  function Advance(committed: seq<nat>, offsets: map<nat, nat>): seq<nat> {
    seq(|committed|, p requires 0 <= p < |committed| => if p in offsets then offsets[p] else committed[p])
  }

  /** The part of an offset commit that took effect. */
  function Restrict(offsets: map<nat, nat>, partial: set<nat>): map<nat, nat> {
    map p | p in partial && p in offsets :: offsets[p]
  }

  function Zeros(n: nat): seq<nat> {
    seq(n, _ => 0)
  }

  function Init(log: Log): State {
    State(Zeros(|log|), Zeros(|log|), [], [], Zeros(|log|), Zeros(|log|), [], [], [], [])
  }

  predicate Enabled(log: Log, s: State, step: Step) {
    match step
    case Produce(p) => p < |log| == |s.produced| && s.produced[p] < |log[p]|
    case Poll(p) =>
      && s.handed == [] && s.syncing == []
      && p < |log| == |s.produced| == |s.position|
      && s.position[p] < s.produced[p] <= |log[p]|
      && log[p][s.position[p]].Bars?
    case Drain => s.handed == [] && s.syncing == [] && s.pending != []
    case Append => s.handed != [] && s.syncing == []
    case Commit => s.syncing != []
    case Crash(appended, partial) =>
      && (appended ==> s.handed != [] && s.syncing == [])
      && partial <= FinalOffsets(s.syncing).Keys
  }

  function Apply(log: Log, max: nat, s: State, step: Step): State
    requires max > 0 && Enabled(log, s, step)
  {
    match step
    case Produce(p) => s.(produced := s.produced[p := s.produced[p] + 1])
    case Poll(p) =>
      var stream := s.pending + Tagged(Source(p, s.position[p]), log[p][s.position[p]].bars);
      s.(position := s.position[p := s.position[p] + 1],
         handed := Blocks(max, stream), pending := Remainder(max, stream))
    case Drain => s.(handed := [s.pending], pending := [])
    case Append => s.(table := s.table + s.handed[0], syncing := s.handed[0], handed := s.handed[1..])
    case Commit =>
      s.(committed := Advance(s.committed, FinalOffsets(s.syncing)),
         settled := s.settled + s.syncing, syncing := [])
    case Crash(appended, partial) =>
      var extra := if appended then s.handed[0] else [];
      var committed := Advance(s.committed, Restrict(FinalOffsets(s.syncing), partial));
      State(s.produced, committed, s.table + extra,
            s.past + [Epoch(s.start, committed, s.settled + s.syncing + extra, |s.settled|)],
            committed, committed, [], [], [], [])
  }

  /** Runs a sequence of steps from the first start; None if a step is not enabled. */
  function Exec(log: Log, max: nat, steps: seq<Step>): Option<State>
    requires max > 0
  {
    if steps == [] then Some(Init(log))
    else
      var before := Exec(log, max, steps[..|steps| - 1]);
      var step := steps[|steps| - 1];
      if before.None? || !Enabled(log, before.value, step) then None
      else Some(Apply(log, max, before.value, step))
  }

  /** Every prefix of the history can be executed, and all of it ends in s. */
  ghost predicate Executes(log: Log, max: nat, steps: seq<Step>, s: State)
    requires max > 0
  {
    forall n :: 0 <= n <= |steps| ==>
      Exec(log, max, steps[..n]).Some? && (n == |steps| ==> Exec(log, max, steps[..n]).value == s)
  }

  lemma ExecutesMeaning(log: Log, max: nat, steps: seq<Step>, s: State)
    requires max > 0
    ensures Executes(log, max, steps, s) <==> Exec(log, max, steps) == Some(s)
  {
    assert steps[..|steps|] == steps;
    if Exec(log, max, steps) == Some(s) {
      PrefixesExecute(log, max, steps);
    }
  }

  lemma {:induction false} PrefixesExecute(log: Log, max: nat, steps: seq<Step>)
    requires max > 0 && Exec(log, max, steps).Some?
    ensures forall n :: 0 <= n <= |steps| ==> Exec(log, max, steps[..n]).Some?
  {
    assert steps[..|steps|] == steps;
    if steps != [] {
      var init := steps[..|steps| - 1];
      PrefixesExecute(log, max, init);
      forall n | 0 <= n < |steps|
        ensures Exec(log, max, steps[..n]).Some?
      {
        assert init[..n] == steps[..n];
      }
    }
  }

  lemma ExecutesStep(log: Log, max: nat, steps: seq<Step>, s: State, step: Step)
    requires max > 0 && Executes(log, max, steps, s) && Enabled(log, s, step)
    ensures Executes(log, max, steps + [step], Apply(log, max, s, step))
  {
    ExecutesMeaning(log, max, steps, s);
    assert (steps + [step])[..|steps|] == steps;
    ExecutesMeaning(log, max, steps + [step], Apply(log, max, s, step));
  }

  /** The batches whose flush finished: appended, and their offsets committed. */
  function Flushed(log: Log, max: nat, steps: seq<Step>): seq<Batch>
    requires max > 0
  {
    if steps == [] then []
    else
      var init := steps[..|steps| - 1];
      var before := Exec(log, max, init);
      Flushed(log, max, init)
      + (if steps[|steps| - 1].Commit? && before.Some? then [before.value.syncing] else [])
  }

  // ----- streams of one partition -----

  /** The tagged entries of records a..b of partition p. */
  function Range(log: Log, p: nat, a: nat, b: nat): seq<Entry>
    requires p < |log| && a <= b <= |log[p]|
    decreases b - a
  {
    if a == b then []
    else Range(log, p, a, b - 1) + Tagged(Source(p, b - 1), FrameBars(log[p][b - 1]))
  }

  /** The entries of partition p, in order. */
  function Of(p: nat, entries: seq<Entry>): seq<Entry> {
    if entries == [] then []
    else
      var e := entries[|entries| - 1];
      Of(p, entries[..|entries| - 1]) + (if e.source.partition == p then [e] else [])
  }

  /** The rows at or above the given offsets, that is, rows a restart there delivers again. */
  function Uncovered(rows: seq<Entry>, offsets: seq<nat>): seq<Entry> {
    if rows == [] then []
    else
      var e := rows[|rows| - 1];
      Uncovered(rows[..|rows| - 1], offsets)
      + (if e.source.partition < |offsets| && e.source.offset >= offsets[e.source.partition] then [e] else [])
  }

  lemma {:induction false} OfAppend(p: nat, a: seq<Entry>, b: seq<Entry>)
    ensures Of(p, a + b) == Of(p, a) + Of(p, b)
  {
    if b == [] {
      assert a + b == a;
    } else {
      OfAppend(p, a, b[..|b| - 1]);
      assert (a + b)[..|a + b| - 1] == a + b[..|b| - 1];
    }
  }

  lemma {:induction false} OfMember(p: nat, s: seq<Entry>, e: Entry)
    ensures e in Of(p, s) <==> e in s && e.source.partition == p
  {
    if s != [] {
      OfMember(p, s[..|s| - 1], e);
      assert s == s[..|s| - 1] + [s[|s| - 1]];
    }
  }

  lemma {:induction false} OfSame(p: nat, s: seq<Entry>, q: nat)
    requires forall e :: e in s ==> e.source.partition == q
    ensures Of(p, s) == if p == q then s else []
  {
    if s != [] {
      OfSame(p, s[..|s| - 1], q);
      assert s == s[..|s| - 1] + [s[|s| - 1]];
    }
  }

  lemma {:induction false} UncoveredAppend(a: seq<Entry>, b: seq<Entry>, offsets: seq<nat>)
    ensures Uncovered(a + b, offsets) == Uncovered(a, offsets) + Uncovered(b, offsets)
  {
    if b == [] {
      assert a + b == a;
    } else {
      var init, last := b[..|b| - 1], b[|b| - 1];
      UncoveredAppend(a, init, offsets);
      assert (a + b)[..|a + b| - 1] == a + init && (a + b)[|a + b| - 1] == last;
    }
  }

  lemma {:induction false} UncoveredShrinks(rows: seq<Entry>, low: seq<nat>, high: seq<nat>)
    requires |low| == |high| && forall p :: 0 <= p < |low| ==> low[p] <= high[p]
    ensures |Uncovered(rows, high)| <= |Uncovered(rows, low)| <= |rows|
  {
    if rows != [] {
      UncoveredShrinks(rows[..|rows| - 1], low, high);
    }
  }

  lemma {:induction false} RangeSplit(log: Log, p: nat, a: nat, b: nat, c: nat)
    requires p < |log| && a <= b <= c <= |log[p]|
    ensures Range(log, p, a, c) == Range(log, p, a, b) + Range(log, p, b, c)
    decreases c
  {
    if b < c {
      RangeSplit(log, p, a, b, c - 1);
    }
  }

  /** Where an entry of a range sits: inside its own record's block, the final tag at the block's end. */
  lemma {:induction false} RangeAt(log: Log, p: nat, a: nat, b: nat, i: nat)
    requires p < |log| && a <= b <= |log[p]| && i < |Range(log, p, a, b)|
    ensures var e := Range(log, p, a, b)[i];
            && e.source.partition == p && a <= e.source.offset < b
            && FrameBars(log[p][e.source.offset]) != []
            && |Range(log, p, a, e.source.offset)| <= i < |Range(log, p, a, e.source.offset + 1)|
            && (e.finalBar <==> i + 1 == |Range(log, p, a, e.source.offset + 1)|)
    decreases b
  {
    if i < |Range(log, p, a, b - 1)| {
      RangeAt(log, p, a, b - 1, i);
    }
  }

  /** Every bar of every record of a range is in it, tagged. */
  lemma {:induction false} RangeHolds(log: Log, p: nat, a: nat, b: nat, o: nat, k: nat)
    requires p < |log| && a <= o < b <= |log[p]| && k < |FrameBars(log[p][o])|
    ensures Tagged(Source(p, o), FrameBars(log[p][o]))[k] in Range(log, p, a, b)
    decreases b
  {
    if o < b - 1 {
      RangeHolds(log, p, a, b - 1, o, k);
    }
  }

  lemma RangeGrows(log: Log, p: nat, a: nat, b: nat, c: nat)
    requires p < |log| && a <= b <= c <= |log[p]|
    ensures |Range(log, p, a, b)| <= |Range(log, p, a, c)|
  {
    RangeSplit(log, p, a, b, c);
  }
}
