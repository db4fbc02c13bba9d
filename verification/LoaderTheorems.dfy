/** Delivery guarantees of the loader: exact accounting, at-least-once delivery and the
    committed offsets, for every run from the first start. */
module LoaderTheorems {
  import opened Options
  import opened Batching
  import opened LoaderSystem
  import opened LoaderSafety

  /** Rows of ended incarnations that were at or above the offsets the next one started from. */
  function Replayed(past: seq<Epoch>): seq<Entry> {
    if past == [] then []
    else
      var ep := past[|past| - 1];
      Replayed(past[..|past| - 1]) + Uncovered(ep.rows, ep.end)
  }

  // ----- splitting an incarnation's rows at an offset -----

  lemma {:induction false} OfUncovered(p: nat, rows: seq<Entry>, offsets: seq<nat>)
    ensures Of(p, Uncovered(rows, offsets)) == Uncovered(Of(p, rows), offsets)
  {
    if rows != [] {
      var init, e := rows[..|rows| - 1], rows[|rows| - 1];
      OfUncovered(p, init, offsets);
      OfAppend(p, Uncovered(init, offsets), Uncovered([e], offsets));
      UncoveredAppend(Of(p, init), Of(p, [e]), offsets);
      SingleEntry(p, e, offsets);
    }
  }

  lemma SingleEntry(p: nat, e: Entry, offsets: seq<nat>)
    ensures Of(p, [e]) == if e.source.partition == p then [e] else []
    ensures Uncovered([e], offsets)
            == if e.source.partition < |offsets| && e.source.offset >= offsets[e.source.partition] then [e] else []
    ensures Of(p, Uncovered([e], offsets)) == Uncovered(Of(p, [e]), offsets)
  {
    assert [e][..0] == [];
  }

  lemma {:induction false} UncoveredAllOrNone(s: seq<Entry>, p: nat, offsets: seq<nat>, above: bool)
    requires p < |offsets|
    requires forall e :: e in s ==> e.source.partition == p && (above <==> e.source.offset >= offsets[p])
    ensures Uncovered(s, offsets) == if above then s else []
  {
    if s != [] {
      UncoveredAllOrNone(s[..|s| - 1], p, offsets, above);
      assert s == s[..|s| - 1] + [s[|s| - 1]];
      assert s[|s| - 1] in s;
    }
  }

  lemma PrefixOffsets(log: Log, p: nat, a: nat, c: nat, b: nat, own: seq<Entry>, i: nat)
    requires p < |log| && a <= c <= b <= |log[p]| && own <= Range(log, p, a, b) && i < |own|
    ensures own[i].source.partition == p
    ensures i < |Range(log, p, a, c)| <==> own[i].source.offset < c
  {
    RangeAt(log, p, a, b, i);
    if own[i].source.offset < c {
      RangeGrows(log, p, a, own[i].source.offset + 1, c);
    } else {
      RangeGrows(log, p, a, c, own[i].source.offset);
    }
  }

  lemma UncoveredConcat(below: seq<Entry>, above: seq<Entry>, p: nat, offsets: seq<nat>)
    requires p < |offsets|
    requires forall e :: e in below ==> e.source.partition == p && e.source.offset < offsets[p]
    requires forall e :: e in above ==> e.source.partition == p && e.source.offset >= offsets[p]
    ensures Uncovered(below + above, offsets) == above
  {
    UncoveredAllOrNone(below, p, offsets, false);
    UncoveredAllOrNone(above, p, offsets, true);
    UncoveredAppend(below, above, offsets);
  }

  /** A prefix of a partition's stream that reaches past `c` is the records below `c`, then
      exactly the rows at or above `c`. */
  lemma SplitAtOffset(log: Log, p: nat, a: nat, c: nat, b: nat, rows: seq<Entry>, offsets: seq<nat>)
    requires p < |log| == |offsets| && a <= c <= b <= |log[p]| && offsets[p] == c
    requires Range(log, p, a, c) <= Of(p, rows) <= Range(log, p, a, b)
    ensures Of(p, rows) == Range(log, p, a, c) + Of(p, Uncovered(rows, offsets))
  {
    var own, n := Of(p, rows), |Range(log, p, a, c)|;
    forall i | 0 <= i < |own|
      ensures own[i].source.partition == p && (i < n <==> own[i].source.offset < c)
    {
      PrefixOffsets(log, p, a, c, b, own, i);
    }
    UncoveredSuffix(own, n, p, offsets);
    OfUncovered(p, rows, offsets);
  }

  lemma UncoveredSuffix(own: seq<Entry>, n: nat, p: nat, offsets: seq<nat>)
    requires p < |offsets| && n <= |own|
    requires forall i :: 0 <= i < |own| ==>
               own[i].source.partition == p && (i < n <==> own[i].source.offset < offsets[p])
    ensures Uncovered(own, offsets) == own[n..]
  {
    var below, above := own[..n], own[n..];
    assert own == below + above;
    UncoveredConcat(below, above, p, offsets);
  }

  lemma EpochSplit(log: Log, ep: Epoch, p: nat)
    requires EpochOk(log, ep) && p < |log|
    ensures Of(p, ep.rows) == Range(log, p, ep.start[p], ep.end[p]) + Of(p, Uncovered(ep.rows, ep.end))
  {
    SplitAtOffset(log, p, ep.start[p], ep.end[p], |log[p]|, ep.rows, ep.end);
  }

  lemma {:induction false} PastAccounting(log: Log, past: seq<Epoch>, start: seq<nat>, p: nat)
    requires p < |log| && Linked(|log|, past, start) && |start| == |log| && start[p] <= |log[p]|
    requires forall ep :: ep in past ==> EpochOk(log, ep)
    ensures multiset(Of(p, Rows(past))) == multiset(Range(log, p, 0, start[p])) + multiset(Of(p, Replayed(past)))
  {
    if past != [] {
      var init, ep := past[..|past| - 1], past[|past| - 1];
      assert ep in past && EpochOk(log, ep);
      PastAccounting(log, init, ep.start, p);
      EpochSplit(log, ep, p);
      OfAppend(p, Rows(init), ep.rows);
      OfAppend(p, Replayed(init), Uncovered(ep.rows, ep.end));
      RangeSplit(log, p, 0, ep.start[p], ep.end[p]);
    }
  }

  // ----- the theorems -----

  /** Within an incarnation, partition by partition and in order: rows appended so far, then
      batches handed out, then pending bars are the records polled since its start offset. */
  lemma IncarnationAccounting(log: Log, max: nat, steps: seq<Step>, p: nat)
    requires max > 0 && p < |log|
    ensures var r := Exec(log, max, steps);
            r.Some? ==>
              var s := r.value;
              && |s.start| == |s.position| == |log| && s.start[p] <= s.position[p] <= |log[p]|
              && Of(p, s.settled + s.syncing) + Of(p, Concat(s.handed)) + Of(p, s.pending)
                 == Range(log, p, s.start[p], s.position[p])
  {
    ReachableInv(log, max, steps);
    var r := Exec(log, max, steps);
    if r.Some? {
      AheadSplits(r.value);
      OfThree(p, r.value.settled + r.value.syncing, Concat(r.value.handed), r.value.pending);
    }
  }

  lemma OfThree(p: nat, a: seq<Entry>, b: seq<Entry>, c: seq<Entry>)
    ensures Of(p, a + (b + c)) == Of(p, a) + Of(p, b) + Of(p, c)
  {
    OfAppend(p, a, b + c);
    OfAppend(p, b, c);
  }

  /** Exact accounting over any number of crashes: of each partition the table holds every bar
      below the committed offset once, and besides only the rows each incarnation put there at
      or above the offsets committed when it ended (or, for the running one, committed now). */
  lemma ExactAccounting(log: Log, max: nat, steps: seq<Step>, p: nat)
    requires max > 0 && p < |log|
    ensures var r := Exec(log, max, steps);
            r.Some? ==>
              var s := r.value;
              && |s.committed| == |log| && s.committed[p] <= |log[p]|
              && multiset(Of(p, s.table))
                 == multiset(Range(log, p, 0, s.committed[p]))
                    + multiset(Of(p, Replayed(s.past)))
                    + multiset(Of(p, Uncovered(s.settled + s.syncing, s.committed)))
  {
    ReachableInv(log, max, steps);
    var r := Exec(log, max, steps);
    if r.Some? {
      AccountingFromInv(log, max, r.value, p);
    }
  }

  lemma AccountingFromInv(log: Log, max: nat, s: State, p: nat)
    requires Inv(log, max, s) && p < |log|
    ensures multiset(Of(p, s.table))
            == multiset(Range(log, p, 0, s.committed[p]))
               + multiset(Of(p, Replayed(s.past)))
               + multiset(Of(p, Uncovered(s.settled + s.syncing, s.committed)))
  {
    TableSplits(s);
    OfAppend(p, Rows(s.past), s.settled + s.syncing);
    PastAccounting(log, s.past, s.start, p);
    FlushedIsPrefix(log, s, p);
    SplitAtOffset(log, p, s.start[p], s.committed[p], s.position[p], s.settled + s.syncing, s.committed);
    RangeSplit(log, p, 0, s.start[p], s.committed[p]);
    SumOfParts(Of(p, Rows(s.past)), Of(p, s.settled + s.syncing), Range(log, p, 0, s.start[p]), Of(p, Replayed(s.past)),
               Range(log, p, s.start[p], s.committed[p]), Of(p, Uncovered(s.settled + s.syncing, s.committed)));
  }

  lemma SumOfParts<T>(old1: seq<T>, new1: seq<T>, a: seq<T>, b: seq<T>, c: seq<T>, d: seq<T>)
    requires multiset(old1) == multiset(a) + multiset(b) && new1 == c + d
    ensures multiset(old1 + new1) == multiset(a + c) + multiset(b) + multiset(d)
  {
  }

  lemma TableSplits(s: State)
    requires s.table == Rows(s.past) + s.settled + s.syncing
    ensures s.table == Rows(s.past) + (s.settled + s.syncing)
  {
  }

  // ----- the table as a whole -----

  /** The rows of partitions 0..n, counted partition by partition. */
  function CountBelow(rows: seq<Entry>, n: nat): nat {
    if n == 0 then 0 else CountBelow(rows, n - 1) + |Of(n - 1, rows)|
  }

  /** All bars below the committed offsets of partitions 0..n. */
  function CommittedBars(log: Log, committed: seq<nat>, n: nat): nat
    requires n <= |log| == |committed| && forall p :: 0 <= p < |log| ==> committed[p] <= |log[p]|
  {
    if n == 0 then 0 else CommittedBars(log, committed, n - 1) + |Range(log, n - 1, 0, committed[n - 1])|
  }

  lemma {:induction false} CountLast(init: seq<Entry>, e: Entry, n: nat)
    ensures CountBelow(init + [e], n) == CountBelow(init, n) + if e.source.partition < n then 1 else 0
  {
    if n > 0 {
      CountLast(init, e, n - 1);
      assert (init + [e])[..|init|] == init;
    }
  }

  lemma {:induction false} CountAll(rows: seq<Entry>, n: nat)
    requires forall e :: e in rows ==> e.source.partition < n
    ensures CountBelow(rows, n) == |rows|
  {
    if rows == [] {
      CountNone(n);
    } else {
      var init, e := rows[..|rows| - 1], rows[|rows| - 1];
      assert rows == init + [e] && e in rows;
      CountAll(init, n);
      CountLast(init, e, n);
    }
  }

  lemma {:induction false} CountNone(n: nat)
    ensures CountBelow([], n) == 0
  {
    if n > 0 {
      CountNone(n - 1);
    }
  }

  lemma {:induction false} UncoveredMembers(rows: seq<Entry>, offsets: seq<nat>, e: Entry)
    requires e in Uncovered(rows, offsets)
    ensures e in rows
  {
    var init := rows[..|rows| - 1];
    if e in Uncovered(init, offsets) {
      UncoveredMembers(init, offsets, e);
    }
  }

  lemma {:induction false} PastInPartitions(log: Log, past: seq<Epoch>)
    requires forall ep :: ep in past ==> EpochOk(log, ep)
    ensures forall e :: e in Rows(past) ==> e.source.partition < |log|
    ensures forall e :: e in Replayed(past) ==> e.source.partition < |log|
  {
    if past != [] {
      var init, ep := past[..|past| - 1], past[|past| - 1];
      assert ep in past && EpochOk(log, ep);
      PastInPartitions(log, init);
      forall e | e in Uncovered(ep.rows, ep.end)
        ensures e in ep.rows
      {
        UncoveredMembers(ep.rows, ep.end, e);
      }
    }
  }

  /** How many rows the table holds, all partitions together: the bars below the committed offsets,
      and what every incarnation left at or above the offsets it ended with. */
  lemma TotalAccounting(log: Log, max: nat, steps: seq<Step>)
    requires max > 0
    ensures var r := Exec(log, max, steps);
            r.Some? ==>
              var s := r.value;
              && |s.committed| == |log| && (forall p :: 0 <= p < |log| ==> s.committed[p] <= |log[p]|)
              && |s.table| == CommittedBars(log, s.committed, |log|) + |Replayed(s.past)|
                              + |Uncovered(s.settled + s.syncing, s.committed)|
  {
    ReachableInv(log, max, steps);
    var r := Exec(log, max, steps);
    if r.Some? {
      TotalFromInv(log, max, r.value);
    }
  }

  lemma TotalFromInv(log: Log, max: nat, s: State)
    requires Inv(log, max, s)
    ensures |s.table| == CommittedBars(log, s.committed, |log|) + |Replayed(s.past)|
                         + |Uncovered(s.settled + s.syncing, s.committed)|
  {
    var left := Uncovered(s.settled + s.syncing, s.committed);
    forall p: nat | p < |log|
      ensures |Of(p, s.table)| == |Range(log, p, 0, s.committed[p])| + |Of(p, Replayed(s.past))| + |Of(p, left)|
    {
      CountFromInv(log, max, s, p);
    }
    SumOverPartitions(log, s.committed, s.table, Replayed(s.past), left, |log|);
    PastInPartitions(log, s.past);
    FlushedInPartitions(log, s);
    forall e | e in left
      ensures e.source.partition < |log|
    {
      UncoveredMembers(s.settled + s.syncing, s.committed, e);
    }
    TableSplits(s);
    CountAll(s.table, |log|);
    CountAll(Replayed(s.past), |log|);
    CountAll(left, |log|);
  }

  lemma CountFromInv(log: Log, max: nat, s: State, p: nat)
    requires Inv(log, max, s) && p < |log|
    ensures |Of(p, s.table)| == |Range(log, p, 0, s.committed[p])| + |Of(p, Replayed(s.past))|
                                + |Of(p, Uncovered(s.settled + s.syncing, s.committed))|
  {
    AccountingFromInv(log, max, s, p);
    SameCount(Of(p, s.table), Range(log, p, 0, s.committed[p]), Of(p, Replayed(s.past)),
              Of(p, Uncovered(s.settled + s.syncing, s.committed)));
  }

  lemma {:induction false} SumOverPartitions(log: Log, committed: seq<nat>, all: seq<Entry>, a: seq<Entry>,
                                             b: seq<Entry>, n: nat)
    requires n <= |log| == |committed| && forall p :: 0 <= p < |log| ==> committed[p] <= |log[p]|
    requires forall p: nat :: p < n ==> |Of(p, all)| == |Range(log, p, 0, committed[p])| + |Of(p, a)| + |Of(p, b)|
    ensures CountBelow(all, n) == CommittedBars(log, committed, n) + CountBelow(a, n) + CountBelow(b, n)
  {
    if n > 0 {
      SumOverPartitions(log, committed, all, a, b, n - 1);
    }
  }

  lemma SameCount<T>(all: seq<T>, a: seq<T>, b: seq<T>, c: seq<T>)
    requires multiset(all) == multiset(a) + multiset(b) + multiset(c)
    ensures |all| == |a| + |b| + |c|
  {
    assert |multiset(all)| == |multiset(a)| + |multiset(b)| + |multiset(c)|;
  }

  lemma FlushedInPartitions(log: Log, s: State)
    requires Shape(log, s) && Accounted(log, s)
    ensures forall e :: e in s.settled + s.syncing ==> e.source.partition < |log|
  {
    forall e | e in s.settled + s.syncing
      ensures e.source.partition < |log|
    {
      assert e in s.settled + Ahead(s);
    }
  }

  // ----- delivery -----

  /** At-least-once delivery: whatever happened, no bar of a record below a committed offset is missing. */
  lemma AtLeastOnce(log: Log, max: nat, steps: seq<Step>, p: nat, o: nat, k: nat)
    requires max > 0 && p < |log|
    ensures var r := Exec(log, max, steps);
            r.Some? ==>
              var s := r.value;
              && |s.committed| == |log| && s.committed[p] <= |log[p]|
              && multiset(Range(log, p, 0, s.committed[p])) <= multiset(s.table)
              && multiset(BarsIn(log[p][..s.committed[p]])) <= multiset(BarsOf(s.table))
              && (o < s.committed[p] && log[p][o].Bars? && k < |log[p][o].bars|
                  ==> exists e :: e in s.table && e.bar == log[p][o].bars[k] && e.source == Source(p, o))
  {
    ExactAccounting(log, max, steps, p);
    var r := Exec(log, max, steps);
    if r.Some? {
      var s := r.value;
      OfIsSubset(p, s.table);
      BarsDelivered(log, p, s.committed[p], s.table);
      if o < s.committed[p] && log[p][o].Bars? && k < |log[p][o].bars| {
        BarDelivered(log, p, s.committed[p], s.table, o, k);
      }
    }
  }

  lemma BarsDelivered(log: Log, p: nat, c: nat, table: seq<Entry>)
    requires p < |log| && c <= |log[p]| && multiset(Range(log, p, 0, c)) <= multiset(table)
    ensures multiset(BarsIn(log[p][..c])) <= multiset(BarsOf(table))
  {
    RangeBars(log, p, c);
    FewerBars(Range(log, p, 0, c), table);
  }

  lemma BarDelivered(log: Log, p: nat, c: nat, table: seq<Entry>, o: nat, k: nat)
    requires p < |log| && c <= |log[p]| && multiset(Range(log, p, 0, c)) <= multiset(table)
    requires o < c && log[p][o].Bars? && k < |log[p][o].bars|
    ensures exists e :: e in table && e.bar == log[p][o].bars[k] && e.source == Source(p, o)
  {
    var e := Tagged(Source(p, o), FrameBars(log[p][o]))[k];
    RangeHolds(log, p, 0, c, o, k);
    assert e in multiset(Range(log, p, 0, c));
    assert e in multiset(table) && e.bar == log[p][o].bars[k];
  }

  /** All bars of some frames, in order. */
  function BarsIn(frames: seq<Frame>): seq<Bar> {
    if frames == [] then []
    else
      BarsIn(frames[..|frames| - 1])
      + match frames[|frames| - 1] case Bars(bars) => bars case Malformed => []
  }

  /** The bars of a range are those of its frames, in order. */
  lemma {:induction false} RangeBars(log: Log, p: nat, b: nat)
    requires p < |log| && b <= |log[p]|
    ensures BarsOf(Range(log, p, 0, b)) == BarsIn(log[p][..b])
  {
    if b > 0 {
      RangeBars(log, p, b - 1);
      BarsAppend(Range(log, p, 0, b - 1), Tagged(Source(p, b - 1), FrameBars(log[p][b - 1])));
      assert log[p][..b][..b - 1] == log[p][..b - 1];
      TaggedBars(Source(p, b - 1), FrameBars(log[p][b - 1]));
    }
  }

  lemma TaggedBars(source: Source, bars: seq<Bar>)
    ensures BarsOf(Tagged(source, bars)) == bars
  {
  }

  /** With fewer entries there are fewer bars, each counted as often as it occurs. */
  lemma {:induction false} FewerBars(a: seq<Entry>, b: seq<Entry>)
    requires multiset(a) <= multiset(b)
    ensures multiset(BarsOf(a)) <= multiset(BarsOf(b))
    decreases |a|
  {
    if a != [] {
      var init, e := a[..|a| - 1], a[|a| - 1];
      assert a == init + [e] && e in multiset(a) && e in multiset(b);
      var i :| 0 <= i < |b| && b[i] == e;
      var rest := b[..i] + b[i + 1..];
      WithoutOne(b, i);
      LessOne(multiset(init), multiset(rest), multiset([e]));
      FewerBars(init, rest);
      BarsAppend(init, [e]);
      assert BarsOf([e]) == [e.bar];
    }
  }

  lemma LessOne<T>(a: multiset<T>, b: multiset<T>, c: multiset<T>)
    requires a + c <= b + c
    ensures a <= b
  {
    forall x
      ensures a[x] <= b[x]
    {
      assert (a + c)[x] == a[x] + c[x] && (b + c)[x] == b[x] + c[x];
    }
  }

  lemma WithoutOne(b: seq<Entry>, i: nat)
    requires i < |b|
    ensures multiset(b) == multiset(b[..i] + b[i + 1..]) + multiset([b[i]])
    ensures multiset(BarsOf(b)) == multiset(BarsOf(b[..i] + b[i + 1..])) + multiset([b[i].bar])
  {
    assert b == b[..i] + [b[i]] + b[i + 1..];
    BarsAppend(b[..i] + [b[i]], b[i + 1..]);
    BarsAppend(b[..i], [b[i]]);
    BarsAppend(b[..i], b[i + 1..]);
    assert BarsOf([b[i]]) == [b[i].bar];
  }

  lemma {:induction false} OfIsSubset(p: nat, s: seq<Entry>)
    ensures multiset(Of(p, s)) <= multiset(s)
  {
    if s != [] {
      OfIsSubset(p, s[..|s| - 1]);
      assert s == s[..|s| - 1] + [s[|s| - 1]];
    }
  }

  // ----- committed offsets -----

  lemma StepAdvances(log: Log, max: nat, s: State, step: Step, p: nat)
    requires max > 0 && Inv(log, max, s) && Enabled(log, s, step) && p < |log|
    ensures |Apply(log, max, s, step).committed| == |log| && s.committed[p] <= Apply(log, max, s, step).committed[p]
  {
    if step.Commit? {
      CommitAdvances(log, max, s);
    } else if step.Crash? {
      AdvanceIsCovered(log, s, step.partial, p);
    }
  }

  /** No step ever moves a partition's committed offset back, not even a crash. */
  lemma CommittedNeverDecreases(log: Log, max: nat, steps: seq<Step>, step: Step, p: nat)
    requires max > 0 && p < |log|
    ensures var r := Exec(log, max, steps);
            r.Some? && Enabled(log, r.value, step) ==>
              && |r.value.committed| == |Apply(log, max, r.value, step).committed| == |log|
              && r.value.committed[p] <= Apply(log, max, r.value, step).committed[p]
  {
    ReachableInv(log, max, steps);
    var r := Exec(log, max, steps);
    if r.Some? && Enabled(log, r.value, step) {
      StepAdvances(log, max, r.value, step, p);
    }
  }

  /** The committed offset of p is one past the last record whose final bar this incarnation
      has flushed, or still the start offset. */
  ghost predicate CommittedAtLastFinished(s: State, p: nat)
    requires p < |s.committed| && p < |s.start|
  {
    && (forall e :: e in s.settled && e.finalBar && e.source.partition == p ==> e.source.offset < s.committed[p])
    && ReachedByFinalBar(s, p)
  }

  lemma FinishedAreCommitted(log: Log, max: nat, s: State, p: nat)
    requires Inv(log, max, s) && p < |log|
    ensures forall e :: e in s.settled && e.finalBar && e.source.partition == p ==> e.source.offset < s.committed[p]
  {
  }

  ghost predicate ReachedByFinalBar(s: State, p: nat)
    requires p < |s.committed| && p < |s.start|
  {
    s.committed[p] == s.start[p]
    || exists e :: e in s.settled && e.finalBar && e.source.partition == p && e.source.offset + 1 == s.committed[p]
  }

  lemma StepReachedByFinalBar(log: Log, max: nat, s: State, step: Step, p: nat)
    requires max > 0 && Enabled(log, s, step) && p < |s.committed| && p < |s.start| && ReachedByFinalBar(s, p)
    ensures var t := Apply(log, max, s, step); p < |t.committed| && p < |t.start| && ReachedByFinalBar(t, p)
  {
    if step.Commit? {
      if p in FinalOffsets(s.syncing) {
        var e := FinalOffsetWitness(s.syncing, p);
        assert e in s.settled + s.syncing;
      } else if s.committed[p] != s.start[p] {
        var e :| e in s.settled && e.finalBar && e.source.partition == p && e.source.offset + 1 == s.committed[p];
        assert e in s.settled + s.syncing;
      }
    }
  }

  lemma {:induction false} CommittedReachedByFinalBar(log: Log, max: nat, steps: seq<Step>, p: nat)
    requires max > 0 && p < |log|
    ensures var r := Exec(log, max, steps);
            r.Some? ==> p < |r.value.committed| && p < |r.value.start| && ReachedByFinalBar(r.value, p)
  {
    if steps != [] {
      var before := Exec(log, max, steps[..|steps| - 1]);
      CommittedReachedByFinalBar(log, max, steps[..|steps| - 1], p);
      if before.Some? && Enabled(log, before.value, steps[|steps| - 1]) {
        StepReachedByFinalBar(log, max, before.value, steps[|steps| - 1], p);
      }
    }
  }

  lemma CommittedIsLastFinished(log: Log, max: nat, steps: seq<Step>, p: nat)
    requires max > 0 && p < |log|
    ensures var r := Exec(log, max, steps);
            r.Some? ==> p < |r.value.committed| && p < |r.value.start| && CommittedAtLastFinished(r.value, p)
  {
    ReachableInv(log, max, steps);
    CommittedReachedByFinalBar(log, max, steps, p);
    var r := Exec(log, max, steps);
    if r.Some? {
      FinishedAreCommitted(log, max, r.value, p);
    }
  }

  /** A record that does not decode is never skipped: its partition is never committed past it. */
  lemma MalformedRecordBlocks(log: Log, max: nat, steps: seq<Step>, p: nat, o: nat)
    requires max > 0 && p < |log| && o < |log[p]| && log[p][o].Malformed?
    ensures var r := Exec(log, max, steps);
            r.Some? ==> |r.value.committed| == |r.value.position| == |log|
                        && r.value.committed[p] <= r.value.position[p] <= o
  {
    ReachableInv(log, max, steps);
  }

  // ----- finished flushes -----

  /** The rows are in the table, besides those being flushed, each as often as given; and the records
      whose final bar is among them are committed. */
  ghost predicate Durable(log: Log, rows: seq<Entry>, s: State) {
    && |s.committed| == |log|
    && multiset(rows) + multiset(s.syncing) <= multiset(s.table)
    && forall e :: e in rows && e.finalBar && e.source.partition < |log|
                   ==> e.source.offset < s.committed[e.source.partition]
  }

  lemma ConcatFlushed(log: Log, max: nat, steps: seq<Step>, s: State, step: Step)
    requires max > 0 && Executes(log, max, steps, s)
    ensures Concat(Flushed(log, max, steps + [step]))
            == Concat(Flushed(log, max, steps)) + if step.Commit? then s.syncing else []
  {
    ExecutesMeaning(log, max, steps, s);
    assert (steps + [step])[..|steps|] == steps;
    if step.Commit? {
      ConcatAppend(Flushed(log, max, steps), [s.syncing]);
      ConcatOne(s.syncing);
    } else {
      assert Flushed(log, max, steps) + [] == Flushed(log, max, steps);
    }
  }

  lemma StepKeepsRows(log: Log, max: nat, rows: seq<Entry>, s: State, step: Step)
    requires max > 0 && Enabled(log, s, step) && multiset(rows) + multiset(s.syncing) <= multiset(s.table)
    ensures var t := Apply(log, max, s, step);
            multiset(rows + if step.Commit? then s.syncing else []) + multiset(t.syncing) <= multiset(t.table)
  {
    assert rows + [] == rows;
  }

  lemma StepCommits(log: Log, max: nat, s: State, e: Entry)
    requires max > 0 && Enabled(log, s, Commit) && e in s.syncing && e.finalBar && e.source.partition < |s.committed|
    ensures e.source.offset < Apply(log, max, s, Commit).committed[e.source.partition]
  {
    FinalOffsetsMeaning(s.syncing, e.source.partition);
  }

  lemma StepIsForward(log: Log, max: nat, steps: seq<Step>, s: State, step: Step)
    requires max > 0 && Executes(log, max, steps, s) && Enabled(log, s, step)
    ensures |s.committed| == |Apply(log, max, s, step).committed| == |log|
    ensures forall p :: 0 <= p < |log| ==> s.committed[p] <= Apply(log, max, s, step).committed[p]
  {
    ExecutesMeaning(log, max, steps, s);
    ReachableInv(log, max, steps);
    StepInv(log, max, s, step);
    forall p | 0 <= p < |log|
      ensures s.committed[p] <= Apply(log, max, s, step).committed[p]
    {
      StepAdvances(log, max, s, step, p);
    }
  }

  lemma StepDurable(log: Log, max: nat, steps: seq<Step>, rows: seq<Entry>, s: State, step: Step)
    requires max > 0 && Executes(log, max, steps, s) && Enabled(log, s, step) && Durable(log, rows, s)
    ensures Durable(log, rows + if step.Commit? then s.syncing else [], Apply(log, max, s, step))
  {
    var t := Apply(log, max, s, step);
    StepKeepsRows(log, max, rows, s, step);
    StepIsForward(log, max, steps, s, step);
    forall e | e in rows + (if step.Commit? then s.syncing else []) && e.finalBar && e.source.partition < |log|
      ensures e.source.offset < t.committed[e.source.partition]
    {
      if e !in rows {
        StepCommits(log, max, s, e);
      }
    }
  }

  /** A finished flush is durable, whatever happens after it: its rows are in the table and the
      records it finished are committed at the broker. */
  lemma {:induction false} FlushedAreDurable(log: Log, max: nat, steps: seq<Step>)
    requires max > 0
    ensures var r := Exec(log, max, steps);
            r.Some? ==> Durable(log, Concat(Flushed(log, max, steps)), r.value)
  {
    if steps != [] {
      var init, step := steps[..|steps| - 1], steps[|steps| - 1];
      var before := Exec(log, max, init);
      assert steps == init + [step];
      FlushedAreDurable(log, max, init);
      if before.Some? && Enabled(log, before.value, step) {
        ExecutesMeaning(log, max, init, before.value);
        ConcatFlushed(log, max, init, before.value, step);
        StepDurable(log, max, init, Concat(Flushed(log, max, init)), before.value, step);
      }
    }
  }
}
