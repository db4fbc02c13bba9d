/** Runs that meet the replay bounds of LoaderReplay with equality, whatever the limits, and runs
    that show what the bounds do not promise. */
module LoaderReplayExample {
  import opened Options
  import opened Batching
  import opened LoaderSystem
  import opened LoaderSafety
  import opened LoaderTheorems
  import opened LoaderReplay

  // ----- what is left of n entries cut into full batches -----

  function Rest(n: nat, max: nat): (rest: nat)
    requires max > 0
    ensures rest < max
  {
    if n < max then n else Rest(n - max, max)
  }

  lemma {:induction false} RestAdds(n: nat, more: nat, max: nat)
    requires max > 0 && Rest(n, max) == 0 && more < max
    ensures Rest(n + more, max) == more
    decreases n
  {
    if n >= max {
      RestAdds(n - max, more, max);
    }
  }

  lemma {:induction false} RestFills(n: nat, max: nat)
    requires max > 0
    ensures Rest(n + (max - Rest(n, max)), max) == 0
    decreases n
  {
    if n >= max {
      RestFills(n - max, max);
    }
  }

  // ----- one incarnation polling and flushing one partition -----

  /** A state a process starts from, with nothing of partition p produced yet. */
  ghost predicate StartsAt(log: Log, s: State, p: nat) {
    && p < |log| == |s.start| == |s.produced| && s.start == s.position && s.start[p] == 0 == s.produced[p]
    && s.handed == [] && s.syncing == [] && s.pending == [] && s.settled == []
  }

  /** Started from `base`, the first n records of partition p are polled, nothing is handed out, and
      only full batches are flushed so far. */
  ghost predicate Polled(log: Log, max: nat, steps: seq<Step>, s: State, base: State, p: nat, n: nat)
    requires max > 0
  {
    && Executes(log, max, steps, s) && StartsAt(log, base, p) && s.past == base.past
    && s.handed == [] && s.syncing == []
    && s.start == base.start && s.position == base.start[p := n] && s.produced == base.produced[p := n]
    && Rest(|s.settled|, max) == 0
  }

  lemma FlushSome(log: Log, max: nat, steps: seq<Step>, s: State, k: nat) returns (after: seq<Step>, t: State)
    requires max > 0 && Executes(log, max, steps, s) && s.syncing == []
    requires k <= |s.handed| && forall b :: b in s.handed ==> |b| == max
    ensures Executes(log, max, after, t) && t.syncing == [] && t.handed == s.handed[k..]
    ensures t.past == s.past && t.start == s.start && t.position == s.position && t.produced == s.produced
    ensures t.pending == s.pending && (Rest(|s.settled|, max) == 0 ==> Rest(|t.settled|, max) == 0)
  {
    after, t := steps, s;
    if k > 0 {
      after, t := FlushSome(log, max, steps, s, k - 1);
      assert t.handed[0] == s.handed[k - 1];
      after, t := FlushOne(log, max, after, t);
    }
  }

  lemma FlushOne(log: Log, max: nat, steps: seq<Step>, s: State) returns (after: seq<Step>, t: State)
    requires max > 0 && Executes(log, max, steps, s) && s.syncing == [] && s.handed != [] && s.handed[0] != []
    ensures Executes(log, max, after, t) && t.syncing == [] && t.handed == s.handed[1..]
    ensures t.past == s.past && t.start == s.start && t.position == s.position && t.produced == s.produced
    ensures t.pending == s.pending && |t.settled| == |s.settled| + |s.handed[0]|
  {
    var u := Apply(log, max, s, Append);
    ExecutesStep(log, max, steps, s, Append);
    t := Apply(log, max, u, Commit);
    ExecutesStep(log, max, steps + [Append], u, Commit);
    after := steps + [Append] + [Commit];
  }

  /** The record at the poll position is produced and polled. */
  lemma PollOne(log: Log, max: nat, steps: seq<Step>, s: State, base: State, p: nat, n: nat)
    returns (after: seq<Step>, t: State)
    requires max > 0 && AllDecode(log) && Polled(log, max, steps, s, base, p, n) && n < |log[p]|
    ensures Executes(log, max, after, t) && t.past == base.past && t.syncing == [] && t.settled == s.settled
    ensures t.start == base.start && t.position == base.start[p := n + 1] && t.produced == base.produced[p := n + 1]
    ensures var stream := s.pending + Tagged(Source(p, n), log[p][n].bars);
            t.handed == Blocks(max, stream) && t.pending == Remainder(max, stream)
  {
    var u := s.(produced := base.produced[p := n + 1]);
    assert s.produced[p := n + 1] == u.produced && s.position[p := n + 1] == base.start[p := n + 1];
    ExecutesStep(log, max, steps, s, Produce(p));
    t := Apply(log, max, u, Poll(p));
    ExecutesStep(log, max, steps + [Produce(p)], u, Poll(p));
    after := steps + [Produce(p)] + [Poll(p)];
  }

  lemma {:induction false} PollMany(log: Log, max: nat, before: seq<Step>, base: State, p: nat, n: nat)
    returns (steps: seq<Step>, s: State)
    requires max > 0 && AllDecode(log) && Executes(log, max, before, base) && StartsAt(log, base, p) && n <= |log[p]|
    ensures Polled(log, max, steps, s, base, p, n)
  {
    if n == 0 {
      steps, s := before, base;
      assert base.start[p := 0] == base.start && base.produced[p := 0] == base.produced;
    } else {
      steps, s := PollMany(log, max, before, base, p, n - 1);
      BlockSizes(max, s.pending + Tagged(Source(p, n - 1), log[p][n - 1].bars));
      steps, s := PollOne(log, max, steps, s, base, p, n - 1);
      steps, s := FlushSome(log, max, steps, s, |s.handed|);
    }
  }

  /** This incarnation has polled records of partition p only, from its beginning. */
  ghost predicate PolledOnly(log: Log, s: State, p: nat, n: nat) {
    p < |log| == |s.start| && s.start[p] == 0 && s.position == s.start[p := n] && n <= |log[p]|
  }

  /** Everything polled is settled, being flushed, handed out or pending. */
  lemma AllPolled(log: Log, max: nat, steps: seq<Step>, s: State, p: nat, n: nat)
    requires max > 0 && Executes(log, max, steps, s) && PolledOnly(log, s, p, n)
    ensures Inv(log, max, s) && s.settled + Ahead(s) == Range(log, p, 0, n)
  {
    ExecutesMeaning(log, max, steps, s);
    ReachableInv(log, max, steps);
    OnlyFrom(log, s.start, s.position, s.settled + Ahead(s), p);
  }

  lemma OnlyFrom(log: Log, start: seq<nat>, position: seq<nat>, work: seq<Entry>, p: nat)
    requires |start| == |position| == |log| && forall q :: 0 <= q < |log| ==> start[q] <= position[q] <= |log[q]|
    requires Drawn(log, start, position, work) && p < |log|
    requires forall q :: 0 <= q < |log| && q != p ==> start[q] == position[q]
    ensures work == Range(log, p, start[p], position[p])
  {
    forall e | e in work
      ensures e.source.partition == p
    {
      var q := e.source.partition;
      OfMember(q, work, e);
      assert Of(q, work) == Range(log, q, start[q], position[q]);
    }
    OfSame(p, work, p);
  }

  lemma CountPolled(log: Log, max: nat, steps: seq<Step>, s: State, p: nat, n: nat)
    requires max > 0 && Executes(log, max, steps, s) && PolledOnly(log, s, p, n)
    ensures |s.settled| + |s.syncing| + |Concat(s.handed)| + |s.pending| == |Range(log, p, 0, n)|
  {
    AllPolled(log, max, steps, s, p, n);
  }

  // ----- the bound is met for all limits -----

  /** How many single-bar records make the last bar of a record of `largest` bars the first of a batch. */
  function Lead(max: nat, largest: nat): nat
    requires max > 0 && largest > 0
  {
    if Rest(largest - 1, max) == 0 then 0 else max - Rest(largest - 1, max)
  }

  lemma LeadFits(max: nat, largest: nat)
    requires max > 0 && largest > 0
    ensures Rest(Lead(max, largest) + largest - 1, max) == 0
  {
    RestFills(largest - 1, max);
  }

  function Singles(b: Bar, n: nat): seq<Frame> {
    seq(n, _ => Bars([b]))
  }

  /** In each of `parts` partitions: single-bar records, one record of `largest` bars, and max - 1
      single-bar records. */
  function TightLog(b: Bar, max: nat, largest: nat, parts: nat): Log
    requires max > 0 && largest > 0
  {
    seq(parts, _ => Singles(b, Lead(max, largest)) + [Bars(seq(largest, _ => b))] + Singles(b, max - 1))
  }

  lemma {:induction false} TightLength(b: Bar, max: nat, largest: nat, parts: nat, p: nat, n: nat)
    requires max > 0 && largest > 0 && p < parts && n <= Lead(max, largest) + max
    ensures var log, f := TightLog(b, max, largest, parts), Lead(max, largest);
            |log[p]| == f + max && |Range(log, p, 0, n)| == if n <= f then n else largest + n - 1
  {
    if n > 0 {
      TightLength(b, max, largest, parts, p, n - 1);
    }
  }

  lemma TightDecodes(b: Bar, max: nat, largest: nat, parts: nat)
    requires max > 0 && largest > 0
    ensures AllDecode(TightLog(b, max, largest, parts)) && RecordsUpTo(TightLog(b, max, largest, parts), largest)
  {
  }

  /** Started from `base`: all records of partition p polled, and all batches but the last one flushed. */
  lemma BeforeLastBatch(b: Bar, max: nat, largest: nat, parts: nat, before: seq<Step>, base: State, p: nat)
    returns (steps: seq<Step>, s: State)
    requires max > 0 && largest > 0 && Executes(TightLog(b, max, largest, parts), max, before, base)
    requires StartsAt(TightLog(b, max, largest, parts), base, p)
    ensures Executes(TightLog(b, max, largest, parts), max, steps, s) && s.past == base.past && s.start == base.start
    ensures s.syncing == [] && s.pending == [] && |s.handed| == 1 && |s.handed[0]| == max
    ensures |s.settled| == Lead(max, largest) + largest - 1
    ensures PolledOnly(TightLog(b, max, largest, parts), s, p, Lead(max, largest) + max)
    ensures s.produced == base.produced[p := Lead(max, largest) + max]
  {
    var log, n := TightLog(b, max, largest, parts), Lead(max, largest) + max;
    steps, s := AllRecordsPolled(b, max, largest, parts, before, base, p);
    steps, s := FlushSome(log, max, steps, s, |s.handed| - 1);
    TightLength(b, max, largest, parts, p, n);
    CountPolled(log, max, steps, s, p, n);
    ConcatOne(s.handed[0]);
  }

  lemma AllRecordsPolled(b: Bar, max: nat, largest: nat, parts: nat, before: seq<Step>, base: State, p: nat)
    returns (steps: seq<Step>, s: State)
    requires max > 0 && largest > 0 && Executes(TightLog(b, max, largest, parts), max, before, base)
    requires StartsAt(TightLog(b, max, largest, parts), base, p)
    ensures Executes(TightLog(b, max, largest, parts), max, steps, s) && s.past == base.past && s.start == base.start
    ensures s.syncing == [] && s.pending == [] && s.handed != [] && forall x :: x in s.handed ==> |x| == max
    ensures PolledOnly(TightLog(b, max, largest, parts), s, p, Lead(max, largest) + max)
    ensures s.produced == base.produced[p := Lead(max, largest) + max]
  {
    var log, n := TightLog(b, max, largest, parts), Lead(max, largest) + max - 1;
    TightLength(b, max, largest, parts, p, n);
    TightLength(b, max, largest, parts, p, n + 1);
    TightDecodes(b, max, largest, parts);
    LeadFits(max, largest);
    steps, s := PollMany(log, max, before, base, p, n);
    steps, s := PollLast(log, max, steps, s, base, p, n);
  }

  /** A last record that makes up whole batches with everything before it leaves nothing pending. */
  lemma PollLast(log: Log, max: nat, before: seq<Step>, u: State, base: State, p: nat, n: nat)
    returns (steps: seq<Step>, s: State)
    requires max > 0 && AllDecode(log) && Polled(log, max, before, u, base, p, n) && n < |log[p]|
    requires |Range(log, p, 0, n)| < |Range(log, p, 0, n + 1)| && Rest(|Range(log, p, 0, n + 1)|, max) == 0
    ensures Executes(log, max, steps, s) && s.past == base.past && s.start == base.start
    ensures s.syncing == [] && s.pending == [] && s.handed != [] && forall x :: x in s.handed ==> |x| == max
    ensures PolledOnly(log, s, p, n + 1) && s.produced == base.produced[p := n + 1]
  {
    var stream := u.pending + Tagged(Source(p, n), log[p][n].bars);
    steps, s := PollOne(log, max, before, u, base, p, n);
    CountPolled(log, max, steps, s, p, n + 1);
    WholeCut(max, |s.settled|, stream);
  }

  /** If what came before and everything are whole batches, so is what is cut last. */
  lemma WholeCut(max: nat, before: nat, stream: seq<Entry>)
    requires max > 0 && stream != [] && Rest(before, max) == 0
    requires Rest(before + |Concat(Blocks(max, stream))| + |Remainder(max, stream)|, max) == 0
    ensures Blocks(max, stream) != [] && Remainder(max, stream) == []
    ensures forall x :: x in Blocks(max, stream) ==> |x| == max
  {
    CuttingKeepsStream(max, stream);
    BlockSizes(max, stream);
    WholeBlocks(max, Blocks(max, stream), before);
    RestAdds(before + |Concat(Blocks(max, stream))|, |Remainder(max, stream)|, max);
  }

  lemma {:induction false} WholeBlocks(max: nat, blocks: seq<Batch>, before: nat)
    requires max > 0 && Rest(before, max) == 0 && forall x :: x in blocks ==> |x| == max
    ensures Rest(before + |Concat(blocks)|, max) == 0
  {
    if blocks != [] {
      WholeBlocks(max, blocks[1..], before);
    }
  }

  /** The record of `largest` bars is not finished, so its offset is not committed; and other
      partitions' offsets stay where they were. */
  lemma NotCommitted(b: Bar, max: nat, largest: nat, parts: nat, steps: seq<Step>, s: State, p: nat, n: nat)
    requires max > 0 && largest > 0 && Executes(TightLog(b, max, largest, parts), max, steps, s)
    requires PolledOnly(TightLog(b, max, largest, parts), s, p, n) && |s.settled| <= Lead(max, largest) + largest - 1
    ensures |s.committed| == parts && s.committed[p] <= Lead(max, largest)
    ensures forall q :: 0 <= q < parts && q != p ==> s.committed[q] == s.start[q]
  {
    var log, f := TightLog(b, max, largest, parts), Lead(max, largest);
    ExecutesMeaning(log, max, steps, s);
    SettledPolled(log, max, steps, s, p, n);
    forall q | 0 <= q < parts
      ensures q < |s.committed| == parts && (if q == p then s.committed[p] <= f else s.committed[q] == s.start[q])
    {
      CommittedReachedByFinalBar(log, max, steps, q);
      if s.committed[q] != s.start[q] {
        var e :| e in s.settled && e.finalBar && e.source.partition == q && e.source.offset + 1 == s.committed[q];
        var i :| 0 <= i < |s.settled| && s.settled[i] == e;
        TightLength(b, max, largest, parts, p, f + 1);
        FinalBefore(log, p, f, n, i);
      }
    }
  }

  /** Before the last bar of record f, only bars of earlier records are final. */
  lemma FinalBefore(log: Log, p: nat, f: nat, n: nat, i: nat)
    requires p < |log| && f < |log[p]| && n <= |log[p]|
    requires i < |Range(log, p, 0, n)| && i + 1 < |Range(log, p, 0, f + 1)|
    ensures var e := Range(log, p, 0, n)[i];
            e.source.partition == p && (e.finalBar ==> e.source.offset < f)
  {
    RangeAt(log, p, 0, n, i);
    var o := Range(log, p, 0, n)[i].source.offset;
    if o >= f {
      RangeGrows(log, p, 0, f + 1, o + 1);
    }
  }

  lemma SettledPolled(log: Log, max: nat, steps: seq<Step>, s: State, p: nat, n: nat)
    requires max > 0 && Executes(log, max, steps, s) && PolledOnly(log, s, p, n)
    ensures |s.committed| == |log| && s.settled <= Range(log, p, 0, n)
  {
    AllPolled(log, max, steps, s, p, n);
  }

  /** All rows of this incarnation are of partition p, and all but those below its committed offset
      are at or above the committed offsets. */
  lemma UncoveredAtLeast(log: Log, max: nat, steps: seq<Step>, s: State, p: nat, n: nat)
    requires max > 0 && Executes(log, max, steps, s) && PolledOnly(log, s, p, n)
    ensures |s.committed| == |log| && s.committed[p] <= |log[p]|
            && Of(p, s.settled + s.syncing) == s.settled + s.syncing
    ensures LeftBy(s) >= |s.settled| + |s.syncing| - |Range(log, p, 0, s.committed[p])|
  {
    AllPolled(log, max, steps, s, p, n);
    RegroupAhead(s);
    RowsOfOne(log, p, n, s.settled + s.syncing, Concat(s.handed) + s.pending);
    LeftInPartition(log, max, s, p);
  }

  lemma RegroupAhead(s: State)
    ensures s.settled + s.syncing + (Concat(s.handed) + s.pending) == s.settled + Ahead(s)
  {
  }

  lemma LeftInPartition(log: Log, max: nat, s: State, p: nat)
    requires Inv(log, max, s) && p < |log|
    ensures LeftBy(s) >= |Of(p, s.settled + s.syncing)| - |Range(log, p, s.start[p], s.committed[p])|
  {
    FlushedIsPrefix(log, s, p);
    SplitAtOffset(log, p, s.start[p], s.committed[p], s.position[p], s.settled + s.syncing, s.committed);
    OfAtMost(p, Uncovered(s.settled + s.syncing, s.committed));
  }

  lemma RowsOfOne(log: Log, p: nat, n: nat, rows: seq<Entry>, rest: seq<Entry>)
    requires p < |log| && n <= |log[p]| && rows + rest == Range(log, p, 0, n)
    ensures Of(p, rows) == rows
  {
    forall e | e in rows
      ensures e.source.partition == p
    {
      var i :| 0 <= i < |rows| && rows[i] == e;
      RangeAt(log, p, 0, n, i);
    }
    OfSame(p, rows, p);
  }

  /** What a kill in state s leaves of this incarnation's rows at or above the committed offsets. */
  function LeftBy(s: State): nat {
    |Uncovered(s.settled + s.syncing, s.committed)|
  }

  /** Both bounds are met for all limits: a kill before the last append leaves largest - 1 rows to be
      delivered again, and a kill right after it largest - 1 + max. */
  lemma BoundIsMet(b: Bar, max: nat, largest: nat) returns (steps: seq<Step>, s: State)
    requires max > 0 && largest > 0
    ensures var log := TightLog(b, max, largest, 1);
            && RecordsUpTo(log, largest)
            && Executes(log, max, steps, s) && s.past == [] && s.syncing == [] && LeftBy(s) == largest - 1
            && s.handed != []
            && var t := Apply(log, max, s, Append);
               Executes(log, max, steps + [Append], t) && t.handed == [] && LeftBy(t) == largest - 1 + max
  {
    var log := TightLog(b, max, largest, 1);
    ExecutesMeaning(log, max, [], Init(log));
    steps, s := BeforeLastBatch(b, max, largest, 1, [], Init(log), 0);
    var t := Apply(log, max, s, Append);
    ExecutesStep(log, max, steps, s, Append);
    LeavesExactly(b, max, largest, 1, steps, s, 0);
    LeavesExactly(b, max, largest, 1, steps + [Append], t, 0);
  }

  lemma LeavesExactly(b: Bar, max: nat, largest: nat, parts: nat, steps: seq<Step>, s: State, p: nat)
    requires max > 0 && largest > 0 && Executes(TightLog(b, max, largest, parts), max, steps, s)
    requires PolledOnly(TightLog(b, max, largest, parts), s, p, Lead(max, largest) + max)
    requires |s.settled| == Lead(max, largest) + largest - 1 && |s.syncing| in {0, max}
    ensures RecordsUpTo(TightLog(b, max, largest, parts), largest)
    ensures LeftBy(s) == largest - 1 + |s.syncing|
  {
    var log, f := TightLog(b, max, largest, parts), Lead(max, largest);
    TightDecodes(b, max, largest, parts);
    NotCommitted(b, max, largest, parts, steps, s, p, f + max);
    TightLength(b, max, largest, parts, p, f);
    UncoveredAtLeast(log, max, steps, s, p, f + max);
    RangeGrows(log, p, 0, s.committed[p], f);
    LeftAtMost(log, max, steps, s, largest);
  }

  lemma LeftAtMost(log: Log, max: nat, steps: seq<Step>, s: State, largest: nat)
    requires max > 0 && RecordsUpTo(log, largest) && Executes(log, max, steps, s)
    ensures LeftBy(s) <= largest - 1 + |s.syncing|
  {
    ExecutesMeaning(log, max, steps, s);
    ReachableInv(log, max, steps);
    CrashUncovered(s, [], s.committed);
    SettledUncovered(log, max, s, largest);
    assert s.settled + s.syncing + [] == s.settled + s.syncing;
  }

  // ----- what the bounds do not promise -----

  /** The rows in the table a process starting in state s delivers again. */
  function MetAgain(s: State): nat {
    |Uncovered(s.table, s.committed)|
  }

  lemma KillLeaves(log: Log, max: nat, steps: seq<Step>, s: State) returns (t: State)
    requires max > 0 && Executes(log, max, steps, s)
    ensures Executes(log, max, steps + [Crash(false, {})], t)
    ensures t.table == s.table && t.committed == t.start == t.position == s.committed && t.produced == s.produced
    ensures t.handed == [] && t.syncing == [] && t.pending == [] && t.settled == []
    ensures t.past == s.past + [Epoch(s.start, s.committed, s.settled + s.syncing, |s.settled|)]
  {
    t := Apply(log, max, s, Crash(false, {}));
    assert s.settled + s.syncing + [] == s.settled + s.syncing;
    assert Advance(s.committed, Restrict(FinalOffsets(s.syncing), {})) == s.committed;
    ExecutesStep(log, max, steps, s, Crash(false, {}));
  }

  /** A crash between flushes can make as many rows be delivered again as one inside a flush, if an
      earlier incarnation was interrupted: here the second of two kills in a row. */
  lemma SecondKillMeetsAll(b: Bar, max: nat, largest: nat) returns (steps: seq<Step>, s: State, t: State)
    requires max > 0 && largest > 0
    ensures var log := TightLog(b, max, largest, 1);
            && RecordsUpTo(log, largest)
            && Executes(log, max, steps, s) && s.handed == [] && s.syncing == []
            && Executes(log, max, steps + [Crash(false, {})], t) && MetAgain(t) == largest - 1 + max
  {
    var log := TightLog(b, max, largest, 1);
    steps, s := BoundIsMet(b, max, largest);
    var u := Apply(log, max, s, Append);
    steps := steps + [Append];
    OnlyRows(log, max, steps, u);
    s := KillLeaves(log, max, steps, u);
    steps := steps + [Crash(false, {})];
    t := KillLeaves(log, max, steps, s);
  }

  lemma OnlyRows(log: Log, max: nat, steps: seq<Step>, s: State)
    requires max > 0 && Executes(log, max, steps, s) && s.past == []
    ensures s.table == s.settled + s.syncing
  {
    ReachedTable(log, max, steps, s);
    assert Rows(s.past) == [];
    assert [] + s.settled == s.settled;
  }

  lemma ReachedTable(log: Log, max: nat, steps: seq<Step>, s: State)
    requires max > 0 && Executes(log, max, steps, s)
    ensures s.table == Rows(s.past) + s.settled + s.syncing
  {
    ExecutesMeaning(log, max, steps, s);
    ReachableInv(log, max, steps);
  }

  function Only(b: Bar, p: nat, o: nat): Entry {
    Entry(b, Source(p, o), true)
  }

  lemma Cut(max: nat, full: Batch)
    requires max > 0 && |full| == max
    ensures Blocks(max, full) == [full] && Remainder(max, full) == []
  {
    assert full[..max] == full && full[max..] == [];
  }

  /** Nor is it enough that the offset has advanced since the interrupted flush: two rows are appended
      and the process killed; the next one commits only the first of them again; the second is still
      met again, though no record has more than one bar. */
  lemma AdvanceIsNotEnough(b: Bar) returns (steps: seq<Step>, s: State, t: State)
    ensures var log := TwoSingles(b);
            && RecordsUpTo(log, 1)
            && Executes(log, 2, steps, s) && s.handed == [] && s.syncing == [] && s.start == [0] && s.committed == [1]
            && Executes(log, 2, steps + [Crash(false, {})], t) && MetAgain(t) == 1 > 1 - 1
  {
    var log := TwoSingles(b);
    steps, s := BothAppended(b);
    s := KillLeaves(log, 2, steps, s);
    steps := steps + [Crash(false, {})];
    steps, s := FirstCommitted(b, steps, s);
    t := KillLeaves(log, 2, steps, s);
    OneMetAgain(b);
    assert t.table == [Only(b, 0, 0), Only(b, 0, 1), Only(b, 0, 0)];
  }

  function TwoSingles(b: Bar): Log {
    [[Bars([b]), Bars([b])]]
  }

  lemma OneMetAgain(b: Bar)
    ensures Uncovered([Only(b, 0, 0), Only(b, 0, 1), Only(b, 0, 0)], [1]) == [Only(b, 0, 1)]
  {
    var first, second := Only(b, 0, 0), Only(b, 0, 1);
    UncoveredLast([], first, [1]);
    UncoveredLast([first], second, [1]);
    UncoveredLast([first, second], first, [1]);
    assert [] + [first] == [first] && [first] + [second] == [first, second];
    assert [first, second] + [first] == [first, second, first];
    assert [] + [second] == [second] && [second] + [] == [second];
  }

  lemma UncoveredLast(rows: seq<Entry>, e: Entry, offsets: seq<nat>)
    requires e.source.partition < |offsets|
    ensures Uncovered(rows + [e], offsets)
            == Uncovered(rows, offsets) + (if e.source.offset >= offsets[e.source.partition] then [e] else [])
  {
    assert (rows + [e])[..|rows|] == rows;
  }

  /** Polls record o. */
  lemma TakeSingle(b: Bar, steps: seq<Step>, s: State, o: nat) returns (after: seq<Step>, t: State)
    requires Executes(TwoSingles(b), 2, steps, s) && o < 2 && s.position == [o] && s.produced == [2]
    requires s.handed == [] && s.syncing == []
    ensures Executes(TwoSingles(b), 2, after, t)
    ensures var stream := s.pending + [Only(b, 0, o)];
            t == s.(position := [o + 1], handed := Blocks(2, stream), pending := Remainder(2, stream))
  {
    assert Tagged(Source(0, o), [b]) == [Only(b, 0, o)];
    assert s.position[0 := o + 1] == [o + 1];
    ExecutesStep(TwoSingles(b), 2, steps, s, Poll(0));
    after, t := steps + [Poll(0)], Apply(TwoSingles(b), 2, s, Poll(0));
  }

  lemma BothProduced(b: Bar) returns (steps: seq<Step>, s: State)
    ensures Executes(TwoSingles(b), 2, steps, s) && s == Init(TwoSingles(b)).(produced := [2])
  {
    var log := TwoSingles(b);
    steps, s := [], Init(log);
    ExecutesMeaning(log, 2, steps, s);
    ExecutesStep(log, 2, steps, s, Produce(0));
    steps, s := steps + [Produce(0)], Apply(log, 2, s, Produce(0));
    ExecutesStep(log, 2, steps, s, Produce(0));
    steps, s := steps + [Produce(0)], Apply(log, 2, s, Produce(0));
    assert s.produced == [2];
  }

  lemma BothAppended(b: Bar) returns (steps: seq<Step>, s: State)
    ensures Executes(TwoSingles(b), 2, steps, s) && s.table == [Only(b, 0, 0), Only(b, 0, 1)]
    ensures s.committed == [0] && s.produced == [2]
  {
    var log := TwoSingles(b);
    steps, s := BothProduced(b);
    steps, s := TakeSingle(b, steps, s, 0);
    assert [] + [Only(b, 0, 0)] == [Only(b, 0, 0)];
    steps, s := TakeSingle(b, steps, s, 1);
    assert [Only(b, 0, 0)] + [Only(b, 0, 1)] == [Only(b, 0, 0), Only(b, 0, 1)];
    Cut(2, [Only(b, 0, 0), Only(b, 0, 1)]);
    ExecutesStep(log, 2, steps, s, Append);
    steps, s := steps + [Append], Apply(log, 2, s, Append);
  }

  /** A fresh process flushes the first record by age. */
  lemma FirstCommitted(b: Bar, steps: seq<Step>, s: State) returns (after: seq<Step>, t: State)
    requires Executes(TwoSingles(b), 2, steps, s)
    requires s.position == s.start == s.committed == [0] && s.produced == [2]
    requires s.handed == [] && s.syncing == [] && s.pending == []
    ensures Executes(TwoSingles(b), 2, after, t) && t.table == s.table + [Only(b, 0, 0)]
    ensures t.handed == [] && t.syncing == [] && t.start == [0] && t.committed == [1]
  {
    var log := TwoSingles(b);
    after, t := TakeSingle(b, steps, s, 0);
    assert [] + [Only(b, 0, 0)] == [Only(b, 0, 0)];
    ExecutesStep(log, 2, after, t, Drain);
    after, t := after + [Drain], Apply(log, 2, t, Drain);
    after, t := FlushOneCommits(b, after, t);
  }

  lemma FlushOneCommits(b: Bar, steps: seq<Step>, s: State) returns (after: seq<Step>, t: State)
    requires Executes(TwoSingles(b), 2, steps, s) && s.handed == [[Only(b, 0, 0)]] && s.syncing == []
    requires s.committed == [0]
    ensures Executes(TwoSingles(b), 2, after, t) && t.table == s.table + [Only(b, 0, 0)]
    ensures t.handed == [] && t.syncing == [] && t.start == s.start && t.committed == [1]
  {
    var log := TwoSingles(b);
    ExecutesStep(log, 2, steps, s, Append);
    after, t := steps + [Append], Apply(log, 2, s, Append);
    assert [Only(b, 0, 0)][..0] == [];
    assert FinalOffsets([Only(b, 0, 0)]) == map[0 := 1];
    ExecutesStep(log, 2, after, t, Commit);
    after, t := after + [Commit], Apply(log, 2, t, Commit);
    assert t.committed == [1];
  }

  // ----- partitions add up -----

  /** Partition q's rows reach `reach` bars into its stream, and its offset is at most f. */
  ghost predicate LeftBehind(log: Log, s: State, q: nat, f: nat, reach: nat) {
    && q < |log| == |s.committed| && s.committed[q] <= f <= |log[q]|
    && exists ep :: ep in s.past && Placed(log, q, ep) && To(log, q, ep) >= reach
  }

  /** The state between two incarnations: the first k partitions were polled, appended and killed. */
  ghost predicate FirstKilled(log: Log, s: State, k: nat, f: nat, reach: nat) {
    && |s.start| == |s.produced| == |s.committed| == |log| && s.start == s.position == s.committed
    && s.handed == [] && s.syncing == [] && s.pending == [] && s.settled == []
    && (forall q :: k <= q < |log| ==> s.start[q] == 0 == s.produced[q])
    && (forall q :: 0 <= q < |log| && q < k ==> LeftBehind(log, s, q, f, reach))
  }

  /** How many bars each partition of TightLog holds. */
  function AllBars(max: nat, largest: nat): nat
    requires max > 0 && largest > 0
  {
    Lead(max, largest) + largest - 1 + max
  }

  /** One incarnation polls all of partition p and is killed after its last append. */
  lemma PollThenKill(b: Bar, max: nat, largest: nat, parts: nat, before: seq<Step>, base: State, p: nat)
    returns (steps: seq<Step>, s: State)
    requires max > 0 && largest > 0 && p < parts && Executes(TightLog(b, max, largest, parts), max, before, base)
    requires FirstKilled(TightLog(b, max, largest, parts), base, p, Lead(max, largest), AllBars(max, largest))
    ensures Executes(TightLog(b, max, largest, parts), max, steps, s)
    ensures FirstKilled(TightLog(b, max, largest, parts), s, p + 1, Lead(max, largest), AllBars(max, largest))
  {
    var log, f := TightLog(b, max, largest, parts), Lead(max, largest);
    steps, s := BeforeLastBatch(b, max, largest, parts, before, base, p);
    ExecutesStep(log, max, steps, s, Append);
    steps, s := steps + [Append], Apply(log, max, s, Append);
    NotCommitted(b, max, largest, parts, steps, s, p, f + max);
    UncoveredAtLeast(log, max, steps, s, p, f + max);
    var t := KillLeaves(log, max, steps, s);
    TightLength(b, max, largest, parts, p, f);
    KillKeeps(log, base, s, t, p, f, f + largest - 1 + max);
    steps, s := steps + [Crash(false, {})], t;
  }

  lemma KillKeeps(log: Log, base: State, s: State, t: State, p: nat, f: nat, reach: nat)
    requires p < |log| && f <= |log[p]| && FirstKilled(log, base, p, f, reach)
    requires p < |s.produced| && s.produced == base.produced[p := s.produced[p]]
    requires s.start == base.start && s.past == base.past
    requires |s.committed| == |log| && s.committed[p] <= f && |s.settled| + |s.syncing| >= reach
    requires forall q :: 0 <= q < |log| && q != p ==> s.committed[q] == s.start[q]
    requires Of(p, s.settled + s.syncing) == s.settled + s.syncing
    requires t.start == t.position == t.committed == s.committed && t.produced == s.produced
    requires t.handed == [] && t.syncing == [] && t.pending == [] && t.settled == []
    requires t.past == s.past + [Epoch(s.start, s.committed, s.settled + s.syncing, |s.settled|)]
    ensures FirstKilled(log, t, p + 1, f, reach)
  {
    var ep := Epoch(s.start, s.committed, s.settled + s.syncing, |s.settled|);
    assert ep in t.past && Placed(log, p, ep) && To(log, p, ep) >= reach;
    forall q | 0 <= q < |log| && q < p
      ensures LeftBehind(log, t, q, f, reach)
    {
      assert LeftBehind(log, base, q, f, reach);
      var one :| one in base.past && Placed(log, q, one) && To(log, q, one) >= reach;
      assert one in t.past;
    }
  }

  lemma {:induction false} KillOnEach(b: Bar, max: nat, largest: nat, parts: nat, k: nat)
    returns (steps: seq<Step>, s: State)
    requires max > 0 && largest > 0 && k <= parts
    ensures Executes(TightLog(b, max, largest, parts), max, steps, s)
    ensures FirstKilled(TightLog(b, max, largest, parts), s, k, Lead(max, largest), AllBars(max, largest))
  {
    if k == 0 {
      steps, s := [], Init(TightLog(b, max, largest, parts));
      ExecutesMeaning(TightLog(b, max, largest, parts), max, steps, s);
    } else {
      steps, s := KillOnEach(b, max, largest, parts, k - 1);
      steps, s := PollThenKill(b, max, largest, parts, steps, s, k - 1);
    }
  }

  /** The total bound is met for all limits and any number of partitions: one interrupted incarnation on
      each leaves the full amount of every partition to be met again. */
  lemma TotalIsMet(b: Bar, max: nat, largest: nat, parts: nat) returns (steps: seq<Step>, s: State)
    requires max > 0 && largest > 0
    ensures var log := TightLog(b, max, largest, parts);
            && |log| == parts && RecordsUpTo(log, largest) && Executes(log, max, steps, s)
            && CanCount(log, s) && MetAgainIn(log, s, parts) == parts * (largest - 1 + max)
  {
    var log, f := TightLog(b, max, largest, parts), Lead(max, largest);
    steps, s := KillOnEach(b, max, largest, parts, parts);
    TightDecodes(b, max, largest, parts);
    LeadLengths(b, max, largest, parts);
    KilledIsMet(log, max, largest, steps, s, f);
  }

  lemma LeadLengths(b: Bar, max: nat, largest: nat, parts: nat)
    requires max > 0 && largest > 0
    ensures var log, f := TightLog(b, max, largest, parts), Lead(max, largest);
            forall q :: 0 <= q < parts ==> |Range(log, q, 0, f)| <= f <= |log[q]|
  {
    var log, f := TightLog(b, max, largest, parts), Lead(max, largest);
    forall q | 0 <= q < parts
      ensures |Range(log, q, 0, f)| <= f <= |log[q]|
    {
      TightLength(b, max, largest, parts, q, f);
    }
  }

  lemma KilledIsMet(log: Log, max: nat, largest: nat, steps: seq<Step>, s: State, f: nat)
    requires max > 0 && RecordsUpTo(log, largest) && Executes(log, max, steps, s)
    requires FirstKilled(log, s, |log|, f, f + largest - 1 + max)
    requires forall q :: 0 <= q < |log| ==> f <= |log[q]| && |Range(log, q, 0, f)| <= f
    ensures CanCount(log, s) && MetAgainIn(log, s, |log|) == |log| * (largest - 1 + max)
  {
    TotalOf(log, max, largest, steps, s);
    AllLeftBehind(log, s, f, f + largest - 1 + max);
    assert f + largest - 1 + max - f == largest - 1 + max;
  }

  lemma AllLeftBehind(log: Log, s: State, f: nat, reach: nat)
    requires CanCount(log, s) && FirstKilled(log, s, |log|, f, reach) && f <= reach
    requires forall q :: 0 <= q < |log| ==> f <= |log[q]| && |Range(log, q, 0, f)| <= f
    ensures MetAgainIn(log, s, |log|) >= |log| * (reach - f)
  {
    forall q | 0 <= q < |log|
      ensures MetAgainOf(log, s, q) >= reach - f
    {
      LeftBehindIsMet(log, s, q, f, reach);
    }
    SumAtLeast(log, s, reach - f, |log|);
  }

  lemma LeftBehindIsMet(log: Log, s: State, q: nat, f: nat, reach: nat)
    requires CanCount(log, s) && q < |log| && LeftBehind(log, s, q, f, reach) && |Range(log, q, 0, f)| <= f <= reach
    ensures MetAgainOf(log, s, q) >= reach - f
  {
    var eps := Incarnations(s);
    var ep :| ep in s.past && Placed(log, q, ep) && To(log, q, ep) >= reach;
    assert ep in eps;
    FarthestAtMost(log, q, eps, Farthest(log, q, eps));
    RangeGrows(log, q, 0, s.committed[q], f);
  }

  lemma {:induction false} SumAtLeast(log: Log, s: State, each: nat, n: nat)
    requires CanCount(log, s) && n <= |log| && forall q :: 0 <= q < |log| ==> MetAgainOf(log, s, q) >= each
    ensures MetAgainIn(log, s, n) >= n * each
  {
    if n > 0 {
      SumAtLeast(log, s, each, n - 1);
      assert n * each == (n - 1) * each + each;
    }
  }
}
