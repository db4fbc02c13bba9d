/** What every step of the loader keeps, over all runs with any number of crashes. */
module LoaderSafety {
  import opened Batching
  import opened LoaderSystem

  /** Entries taken from the log by this incarnation whose offsets are not dealt with yet. */
  function Ahead(s: State): seq<Entry> {
    s.syncing + Concat(s.handed) + s.pending
  }

  function Rows(past: seq<Epoch>): seq<Entry> {
    if past == [] then [] else Rows(past[..|past| - 1]) + past[|past| - 1].rows
  }

  /** An entry that is not its record's last is followed by an entry of the same record. */
  predicate Continues(u: seq<Entry>, i: nat)
    requires i < |u|
  {
    u[i].finalBar || (i + 1 < |u| && u[i + 1].source == u[i].source)
  }

  predicate WellTagged(u: seq<Entry>) {
    forall i :: 0 <= i < |u| ==> Continues(u, i)
  }

  ghost predicate Shape(log: Log, s: State) {
    && |s.produced| == |s.committed| == |s.start| == |s.position| == |log|
    && forall p :: 0 <= p < |log| ==> s.start[p] <= s.committed[p] <= s.position[p] <= s.produced[p] <= |log[p]|
  }

  ghost predicate Sizes(max: nat, s: State) {
    && |s.syncing| <= max && |s.pending| < max
    && forall b :: b in s.handed ==> 0 < |b| <= max
  }

  /** The work is, partition by partition and in order, the records from `start` to `position`,
      all of which decoded. */
  ghost predicate Drawn(log: Log, start: seq<nat>, position: seq<nat>, work: seq<Entry>)
    requires |start| == |position| == |log| && forall p :: 0 <= p < |log| ==> start[p] <= position[p] <= |log[p]|
  {
    && (forall e :: e in work ==> e.source.partition < |log|)
    && (forall p :: 0 <= p < |log| ==> Of(p, work) == Range(log, p, start[p], position[p]))
    && (forall p, o :: 0 <= p < |log| && 0 <= o < position[p] ==> log[p][o].Bars?)
  }

  /** Exact accounting inside one incarnation: what it flushed, is flushing, has handed out
      and holds is what it polled. */
  ghost predicate Accounted(log: Log, s: State)
    requires Shape(log, s)
  {
    Drawn(log, s.start, s.position, s.settled + Ahead(s))
  }

  /** Records below the committed offset are in the rows of finished flushes, and rows of finished
      flushes that are not below it all belong to the record whose next bar is still ahead. */
  ghost predicate CommittedExactly(log: Log, s: State)
    requires Shape(log, s)
  {
    && (forall p :: 0 <= p < |log| ==> Range(log, p, s.start[p], s.committed[p]) <= Of(p, s.settled))
    && (forall e :: e in s.settled ==> e.source.partition < |log|)
    && (forall e :: e in s.settled && e.source.offset >= s.committed[e.source.partition]
                    ==> !e.finalBar && Ahead(s) != [] && Ahead(s)[0].source == e.source)
  }

  ghost predicate Linked(n: nat, past: seq<Epoch>, start: seq<nat>) {
    && (past == [] ==> start == Zeros(n))
    && (past != [] ==> past[0].start == Zeros(n) && past[|past| - 1].end == start)
    && forall k :: 0 <= k < |past| - 1 ==> past[k].end == past[k + 1].start
  }

  /** An ended incarnation: its rows hold all records between its first and last committed
      offset, and of later records only a prefix. */
  ghost predicate EpochOk(log: Log, ep: Epoch) {
    && |ep.start| == |ep.end| == |log| && ep.finished <= |ep.rows|
    && (forall e :: e in ep.rows ==> e.source.partition < |log|)
    && forall p :: 0 <= p < |log| ==>
      && ep.start[p] <= ep.end[p] <= |log[p]|
      && Range(log, p, ep.start[p], ep.end[p]) <= Of(p, ep.rows) <= Range(log, p, ep.start[p], |log[p]|)
  }

  ghost predicate Inv(log: Log, max: nat, s: State) {
    && Shape(log, s)
    && Sizes(max, s)
    && Accounted(log, s)
    && WellTagged(Ahead(s))
    && CommittedExactly(log, s)
    && s.table == Rows(s.past) + s.settled + s.syncing
    && Linked(|log|, s.past, s.start)
    && forall ep :: ep in s.past ==> EpochOk(log, ep)
  }

  lemma InitInv(log: Log, max: nat)
    requires max > 0
    ensures Inv(log, max, Init(log))
  {
  }

  // ----- one lemma per step -----

  /** A state with the same stream split differently: Produce, Drain and Append. */
  lemma RegroupedInv(log: Log, max: nat, s: State, t: State)
    requires Inv(log, max, s)
    requires Shape(log, t) && Sizes(max, t)
    requires t.settled == s.settled && Ahead(t) == Ahead(s)
    requires t.start == s.start && t.position == s.position && t.committed == s.committed && t.past == s.past
    requires t.table == Rows(t.past) + t.settled + t.syncing
    ensures Inv(log, max, t)
  {
  }

  /** The first batch handed out moves from the front of the list to `syncing`. */
  lemma AppendState(log: Log, max: nat, s: State)
    requires max > 0 && Enabled(log, s, Append)
    ensures var t := Apply(log, max, s, Append);
            && t.produced == s.produced && t.start == s.start && t.position == s.position
            && t.committed == s.committed && t.past == s.past && t.settled == s.settled && t.pending == s.pending
            && t.syncing == s.handed[0] && t.handed == s.handed[1..]
            && t.table == s.table + t.syncing && Ahead(t) == Ahead(s)
  {
  }

  lemma AppendSizes(max: nat, s: State, t: State)
    requires Sizes(max, s) && s.handed != [] && t.pending == s.pending
    requires t.syncing == s.handed[0] && t.handed == s.handed[1..]
    ensures Sizes(max, t)
  {
    assert s.handed[0] in s.handed;
  }

  lemma AppendInv(log: Log, max: nat, s: State)
    requires max > 0 && Inv(log, max, s) && Enabled(log, s, Append)
    ensures Inv(log, max, Apply(log, max, s, Append))
  {
    var t := Apply(log, max, s, Append);
    AppendState(log, max, s);
    AppendSizes(max, s, t);
    SameRows(Rows(s.past) + s.settled, s.syncing, t.syncing);
    RegroupedInv(log, max, s, t);
  }

  lemma SameRows(rows: seq<Entry>, none: seq<Entry>, added: seq<Entry>)
    requires none == []
    ensures rows + none + added == rows + added
  {
  }

  lemma DrainInv(log: Log, max: nat, s: State)
    requires max > 0 && Inv(log, max, s) && Enabled(log, s, Drain)
    ensures Inv(log, max, Apply(log, max, s, Drain))
  {
    var t := Apply(log, max, s, Drain);
    ConcatOne(s.pending);
    assert Ahead(t) == Ahead(s);
    RegroupedInv(log, max, s, t);
  }

  lemma PollStream(log: Log, max: nat, s: State, p: nat)
    requires max > 0 && Enabled(log, s, Poll(p))
    ensures var t := Apply(log, max, s, Poll(p));
            var added := Tagged(Source(p, s.position[p]), log[p][s.position[p]].bars);
            Ahead(t) == Ahead(s) + added && t.settled + Ahead(t) == s.settled + Ahead(s) + added
  {
    var added := Tagged(Source(p, s.position[p]), log[p][s.position[p]].bars);
    CuttingKeepsStream(max, s.pending + added);
    var t := Apply(log, max, s, Poll(p));
    assert Ahead(s) == s.pending && Ahead(t) == s.pending + added;
  }

  lemma PollRange(log: Log, p: nat, o: nat, q: nat, a: nat, b: nat, next: nat, work: seq<Entry>, added: seq<Entry>)
    requires p < |log| && q < |log| && o < |log[p]| && a <= b <= |log[q]| && (p == q ==> b == o)
    requires log[p][o].Bars? && Of(q, work) == Range(log, q, a, b)
    requires added == Tagged(Source(p, o), log[p][o].bars) && next == if p == q then o + 1 else b
    ensures Of(q, work + added) == Range(log, q, a, next)
  {
    OfAppend(q, work, added);
    OfSame(q, added, p);
  }

  lemma PollDrawn(log: Log, start: seq<nat>, position: seq<nat>, work: seq<Entry>, p: nat)
    requires |start| == |position| == |log| && forall q :: 0 <= q < |log| ==> start[q] <= position[q] <= |log[q]|
    requires Drawn(log, start, position, work) && p < |log| && position[p] < |log[p]| && log[p][position[p]].Bars?
    ensures Drawn(log, start, position[p := position[p] + 1],
                  work + Tagged(Source(p, position[p]), log[p][position[p]].bars))
  {
    PollRanges(log, start, position, work, p);
    assert forall e :: e in Tagged(Source(p, position[p]), log[p][position[p]].bars) ==> e.source.partition == p;
  }

  lemma PollRanges(log: Log, start: seq<nat>, position: seq<nat>, work: seq<Entry>, p: nat)
    requires |start| == |position| == |log| && forall q :: 0 <= q < |log| ==> start[q] <= position[q] <= |log[q]|
    requires forall q :: 0 <= q < |log| ==> Of(q, work) == Range(log, q, start[q], position[q])
    requires p < |log| && position[p] < |log[p]| && log[p][position[p]].Bars?
    ensures forall q :: 0 <= q < |log| ==>
              Of(q, work + Tagged(Source(p, position[p]), log[p][position[p]].bars))
              == Range(log, q, start[q], position[p := position[p] + 1][q])
  {
    var added := Tagged(Source(p, position[p]), log[p][position[p]].bars);
    forall q | 0 <= q < |log|
      ensures Of(q, work + added) == Range(log, q, start[q], position[p := position[p] + 1][q])
    {
      PollRange(log, p, position[p], q, start[q], position[q], position[p := position[p] + 1][q], work, added);
    }
  }

  lemma PollAccounted(log: Log, max: nat, s: State, p: nat)
    requires max > 0 && Shape(log, s) && Accounted(log, s) && Enabled(log, s, Poll(p))
    ensures var t := Apply(log, max, s, Poll(p)); Shape(log, t) && Accounted(log, t)
  {
    PollStream(log, max, s, p);
    PollDrawn(log, s.start, s.position, s.settled + Ahead(s), p);
  }

  lemma TaggedKeepsWellTagged(u: seq<Entry>, source: Source, bars: seq<Bar>)
    requires WellTagged(u)
    ensures WellTagged(u + Tagged(source, bars))
  {
    forall i | 0 <= i < |u + Tagged(source, bars)|
      ensures Continues(u + Tagged(source, bars), i)
    {
      assert i < |u| ==> Continues(u, i);
    }
  }

  lemma WellTaggedSuffix(u: seq<Entry>, k: nat)
    requires WellTagged(u) && k <= |u|
    ensures WellTagged(u[k..])
  {
    forall i | 0 <= i < |u| - k
      ensures Continues(u[k..], i)
    {
      assert Continues(u, k + i);
    }
  }

  lemma PollInv(log: Log, max: nat, s: State, p: nat)
    requires max > 0 && Inv(log, max, s) && Enabled(log, s, Poll(p))
    ensures Inv(log, max, Apply(log, max, s, Poll(p)))
  {
    var t := Apply(log, max, s, Poll(p));
    PollStream(log, max, s, p);
    PollAccounted(log, max, s, p);
    BlockSizes(max, s.pending + Tagged(Source(p, s.position[p]), log[p][s.position[p]].bars));
    TaggedKeepsWellTagged(Ahead(s), Source(p, s.position[p]), log[p][s.position[p]].bars);
    assert CommittedExactly(log, t);
  }

  lemma OfIndex(p: nat, a: seq<Entry>, b: seq<Entry>, e: Entry) returns (i: nat)
    requires e in b && e.source.partition == p
    ensures |Of(p, a)| <= i < |Of(p, a + b)| && Of(p, a + b)[i] == e
  {
    OfAppend(p, a, b);
    OfMember(p, b, e);
    var j :| 0 <= j < |Of(p, b)| && Of(p, b)[j] == e;
    i := |Of(p, a)| + j;
  }

  /** Entries of a partition's polled stream past what is settled are above the committed offset. */
  lemma PastSettledIsAbove(log: Log, p: nat, start: nat, committed: nat, position: nat, settled: seq<Entry>, i: nat)
    requires p < |log| && start <= committed <= position <= |log[p]|
    requires Range(log, p, start, committed) <= settled
    requires |settled| <= i < |Range(log, p, start, position)|
    ensures var e := Range(log, p, start, position)[i];
            committed <= e.source.offset < position && FrameBars(log[p][e.source.offset]) != []
  {
    RangeAt(log, p, start, position, i);
    var o := Range(log, p, start, position)[i].source.offset;
    RangeGrows(log, p, start, if o < committed then o + 1 else committed, committed);
  }

  /** A final bar found at index i of a partition's polled stream, above what is committed
      and below what is flushed: its record is not committed, and flushed to its end. */
  lemma FinalBarCompletes(log: Log, p: nat, start: nat, committed: nat, position: nat,
                          settled: seq<Entry>, flushed: seq<Entry>, i: nat)
    requires p < |log| && start <= committed <= position <= |log[p]|
    requires flushed <= Range(log, p, start, position)
    requires Range(log, p, start, committed) <= settled
    requires |settled| <= i < |flushed| && flushed[i].finalBar
    ensures committed <= flushed[i].source.offset < position
    ensures Range(log, p, start, flushed[i].source.offset + 1) <= flushed
  {
    RangeAt(log, p, start, position, i);
    var o := flushed[i].source.offset;
    RangeSplit(log, p, start, o + 1, position);
    PastSettledIsAbove(log, p, start, committed, position, settled, i);
  }

  lemma OfPrefixes(p: nat, a: seq<Entry>, b: seq<Entry>, c: seq<Entry>)
    ensures Of(p, a) <= Of(p, a + b) <= Of(p, a + b + c)
  {
    OfAppend(p, a, b);
    OfAppend(p, a + b, c);
  }

  lemma AheadSplits(s: State)
    ensures s.settled + Ahead(s) == s.settled + s.syncing + (Concat(s.handed) + s.pending)
  {
  }

  /** What is flushed or being flushed is a prefix of what was polled. */
  lemma FlushedIsPrefix(log: Log, s: State, p: nat)
    requires Shape(log, s) && Accounted(log, s) && p < |log|
    ensures Of(p, s.settled) <= Of(p, s.settled + s.syncing) <= Range(log, p, s.start[p], s.position[p])
  {
    AheadSplits(s);
    OfPrefixes(p, s.settled, s.syncing, Concat(s.handed) + s.pending);
  }

  /** Advancing any subset of the offsets `flush` sends, as a successful or a failed commit may. */
  lemma AdvanceIsCovered(log: Log, s: State, partial: set<nat>, p: nat)
    requires Shape(log, s) && Accounted(log, s) && CommittedExactly(log, s)
    requires partial <= FinalOffsets(s.syncing).Keys && p < |log|
    ensures var committed := AdvancePart(s, partial);
            && s.committed[p] <= committed[p] <= s.position[p]
            && (p in partial ==> s.committed[p] < committed[p])
            && Range(log, p, s.start[p], committed[p]) <= Of(p, s.settled + s.syncing)
  {
    FlushedIsPrefix(log, s, p);
    if p in partial {
      AdvanceOneIsCovered(log, s, p);
    }
  }

  lemma FinalOffsetWitness(batch: Batch, p: nat) returns (e: Entry)
    requires p in FinalOffsets(batch)
    ensures e in batch && e.finalBar && e.source.partition == p && FinalOffsets(batch)[p] == e.source.offset + 1
  {
    FinalOffsetsMeaning(batch, p);
    e :| e in batch && e.finalBar && e.source.partition == p && FinalOffsets(batch)[p] == e.source.offset + 1;
  }

  lemma AdvanceOneIsCovered(log: Log, s: State, p: nat)
    requires Shape(log, s) && Accounted(log, s) && CommittedExactly(log, s)
    requires p in FinalOffsets(s.syncing) && p < |log|
    ensures s.committed[p] < FinalOffsets(s.syncing)[p] <= s.position[p]
    ensures Range(log, p, s.start[p], FinalOffsets(s.syncing)[p]) <= Of(p, s.settled + s.syncing)
  {
    FlushedIsPrefix(log, s, p);
    var e := FinalOffsetWitness(s.syncing, p);
    var i := OfIndex(p, s.settled, s.syncing, e);
    FinalBarCompletes(log, p, s.start[p], s.committed[p], s.position[p],
                      Of(p, s.settled), Of(p, s.settled + s.syncing), i);
  }

  /** The committed offsets after an offset commit that took effect for the partitions in `partial`. */
  function AdvancePart(s: State, partial: set<nat>): seq<nat> {
    Advance(s.committed, Restrict(FinalOffsets(s.syncing), partial))
  }

  lemma AdvanceAll(s: State)
    ensures AdvancePart(s, FinalOffsets(s.syncing).Keys) == Advance(s.committed, FinalOffsets(s.syncing))
  {
    assert Restrict(FinalOffsets(s.syncing), FinalOffsets(s.syncing).Keys) == FinalOffsets(s.syncing);
  }

  /** A record that starts before position k and has no final bar before it goes on at k. */
  lemma {:induction false} UnfinishedGoesOn(u: seq<Entry>, i: nat, k: nat)
    requires WellTagged(u) && i < k <= |u|
    requires forall j :: i <= j < k && u[j].source == u[i].source ==> !u[j].finalBar
    ensures k < |u| && u[k].source == u[i].source
    decreases k - i
  {
    assert Continues(u, i);
    if i + 1 < k {
      UnfinishedGoesOn(u, i + 1, k);
    }
  }

  /** A row of `batch` whose record has no final bar in `batch` is continued right after it. */
  lemma BatchEndsInsideRecord(batch: Batch, rest: seq<Entry>, source: Source)
    requires WellTagged(batch + rest)
    requires exists e :: e in batch && e.source == source
    requires forall e :: e in batch && e.source == source ==> !e.finalBar
    ensures rest != [] && rest[0].source == source
  {
    var i :| 0 <= i < |batch| && batch[i].source == source;
    var u := batch + rest;
    forall j | i <= j < |batch| && u[j].source == u[i].source
      ensures !u[j].finalBar
    {
      assert u[j] == batch[j];
    }
    UnfinishedGoesOn(u, i, |batch|);
  }

  lemma UncoveredAfterCommit(log: Log, s: State, e: Entry)
    requires Shape(log, s) && CommittedExactly(log, s) && WellTagged(Ahead(s))
    requires s.syncing != [] && e in s.settled + s.syncing && e.source.partition < |log|
    requires s.committed[e.source.partition] <= Advance(s.committed, FinalOffsets(s.syncing))[e.source.partition]
    requires e.source.offset >= Advance(s.committed, FinalOffsets(s.syncing))[e.source.partition]
    ensures var rest := Concat(s.handed) + s.pending;
            !e.finalBar && rest != [] && rest[0].source == e.source
  {
    assert Ahead(s) == s.syncing + (Concat(s.handed) + s.pending);
    assert Ahead(s)[0] == s.syncing[0];
    FinalOffsetsMeaning(s.syncing, e.source.partition);
    BatchEndsInsideRecord(s.syncing, Concat(s.handed) + s.pending, e.source);
  }

  lemma CommitStream(log: Log, max: nat, s: State)
    requires max > 0 && Enabled(log, s, Commit)
    ensures var t := Apply(log, max, s, Commit);
            && t.settled + Ahead(t) == s.settled + Ahead(s)
            && Ahead(t) == Concat(s.handed) + s.pending && Ahead(t) == Ahead(s)[|s.syncing|..]
  {
  }

  lemma CommitAdvances(log: Log, max: nat, s: State)
    requires max > 0 && Enabled(log, s, Commit)
    requires Shape(log, s) && Accounted(log, s) && CommittedExactly(log, s)
    ensures var t := Apply(log, max, s, Commit);
            forall p :: 0 <= p < |log| ==>
              && s.committed[p] <= t.committed[p] <= s.position[p]
              && Range(log, p, s.start[p], t.committed[p]) <= Of(p, t.settled)
  {
    AdvanceAll(s);
    forall p | 0 <= p < |log| {
      AdvanceIsCovered(log, s, FinalOffsets(s.syncing).Keys, p);
    }
  }

  lemma CommitLeavesOnePartial(log: Log, max: nat, s: State)
    requires max > 0 && Enabled(log, s, Commit)
    requires Shape(log, s) && Accounted(log, s) && CommittedExactly(log, s) && WellTagged(Ahead(s))
    ensures var t := Apply(log, max, s, Commit);
            forall e :: e in t.settled ==>
              && e.source.partition < |log|
              && (e.source.offset >= t.committed[e.source.partition]
                  ==> !e.finalBar && Ahead(t) != [] && Ahead(t)[0].source == e.source)
  {
    var t := Apply(log, max, s, Commit);
    CommitStream(log, max, s);
    CommitAdvances(log, max, s);
    forall e | e in t.settled
      ensures e.source.partition < |log|
      ensures e.source.offset >= t.committed[e.source.partition]
              ==> !e.finalBar && Ahead(t) != [] && Ahead(t)[0].source == e.source
    {
      assert e in s.settled + Ahead(s);
      if e.source.offset >= t.committed[e.source.partition] {
        UncoveredAfterCommit(log, s, e);
      }
    }
  }

  lemma CommitInv(log: Log, max: nat, s: State)
    requires max > 0 && Inv(log, max, s) && Enabled(log, s, Commit)
    ensures Inv(log, max, Apply(log, max, s, Commit))
  {
    var t := Apply(log, max, s, Commit);
    CommitStream(log, max, s);
    CommitAdvances(log, max, s);
    CommitLeavesOnePartial(log, max, s);
    WellTaggedSuffix(Ahead(s), |s.syncing|);
    SameTable(s, t);
    assert Shape(log, t) && CommittedExactly(log, t);
    assert Accounted(log, t);
  }

  lemma SameTable(s: State, t: State)
    requires t.settled == s.settled + s.syncing && t.syncing == [] && t.past == s.past
    ensures Rows(t.past) + t.settled + t.syncing == Rows(s.past) + s.settled + s.syncing
  {
  }

  /** What a crash leaves of this incarnation in the table. */
  function CrashRows(s: State, appended: bool): seq<Entry>
    requires appended ==> s.handed != []
  {
    s.settled + s.syncing + (if appended then s.handed[0] else [])
  }

  lemma CrashRowsArePrefix(log: Log, s: State, appended: bool, p: nat)
    requires Shape(log, s) && Accounted(log, s) && p < |log|
    requires appended ==> s.handed != []
    ensures Of(p, s.settled + s.syncing) <= Of(p, CrashRows(s, appended)) <= Range(log, p, s.start[p], s.position[p])
  {
    var extra := if appended then s.handed[0] else [];
    var rest := (if appended then Concat(s.handed[1..]) else Concat(s.handed)) + s.pending;
    CrashRowsSplit(s, appended);
    OfPrefixes(p, s.settled + s.syncing, extra, rest);
  }

  lemma CrashRowsSplit(s: State, appended: bool)
    requires appended ==> s.handed != []
    ensures s.settled + Ahead(s)
            == CrashRows(s, appended) + ((if appended then Concat(s.handed[1..]) else Concat(s.handed)) + s.pending)
  {
  }

  lemma CrashEpochOk(log: Log, max: nat, s: State, appended: bool, partial: set<nat>)
    requires max > 0 && Enabled(log, s, Crash(appended, partial))
    requires Shape(log, s) && Accounted(log, s) && CommittedExactly(log, s)
    ensures EpochOk(log, Epoch(s.start, AdvancePart(s, partial), CrashRows(s, appended), |s.settled|))
    ensures forall p :: 0 <= p < |log| ==> AdvancePart(s, partial)[p] <= s.position[p]
  {
    CrashRowsSplit(s, appended);
    forall p | 0 <= p < |log|
      ensures s.start[p] <= AdvancePart(s, partial)[p] <= s.position[p]
      ensures Range(log, p, s.start[p], AdvancePart(s, partial)[p])
              <= Of(p, CrashRows(s, appended)) <= Range(log, p, s.start[p], |log[p]|)
    {
      AdvanceIsCovered(log, s, partial, p);
      CrashRowsArePrefix(log, s, appended, p);
      RangeSplit(log, p, s.start[p], s.position[p], |log[p]|);
    }
  }

  lemma CrashTable(s: State, appended: bool, ep: Epoch)
    requires appended ==> s.handed != []
    requires ep.rows == CrashRows(s, appended) && s.table == Rows(s.past) + s.settled + s.syncing
    ensures Rows(s.past + [ep]) == s.table + (if appended then s.handed[0] else [])
  {
    assert (s.past + [ep])[..|s.past|] == s.past;
  }

  lemma CrashInv(log: Log, max: nat, s: State, appended: bool, partial: set<nat>)
    requires max > 0 && Inv(log, max, s) && Enabled(log, s, Crash(appended, partial))
    ensures Inv(log, max, Apply(log, max, s, Crash(appended, partial)))
  {
    var ep := Epoch(s.start, AdvancePart(s, partial), CrashRows(s, appended), |s.settled|);
    CrashState(log, max, s, appended, partial);
    CrashEpochOk(log, max, s, appended, partial);
    CrashTable(s, appended, ep);
    CrashLinked(|log|, s.past, ep);
    FreshInv(log, max, Apply(log, max, s, Crash(appended, partial)));
  }

  lemma CrashState(log: Log, max: nat, s: State, appended: bool, partial: set<nat>)
    requires max > 0 && Enabled(log, s, Crash(appended, partial))
    ensures var t := Apply(log, max, s, Crash(appended, partial));
            && t.past == s.past + [Epoch(s.start, AdvancePart(s, partial), CrashRows(s, appended), |s.settled|)]
            && t.start == t.committed == t.position == AdvancePart(s, partial) && t.produced == s.produced
            && t.settled == [] && t.syncing == [] && t.handed == [] && t.pending == []
            && t.table == s.table + (if appended then s.handed[0] else [])
  {
  }

  lemma CrashLinked(n: nat, past: seq<Epoch>, ep: Epoch)
    requires Linked(n, past, ep.start)
    ensures Linked(n, past + [ep], ep.end)
  {
  }

  lemma FreshInv(log: Log, max: nat, t: State)
    requires max > 0 && Shape(log, t) && t.start == t.committed == t.position
    requires t.settled == [] && t.syncing == [] && t.handed == [] && t.pending == []
    requires forall p, o :: 0 <= p < |log| && 0 <= o < t.position[p] ==> log[p][o].Bars?
    requires t.table == Rows(t.past)
    requires Linked(|log|, t.past, t.start) && forall ep :: ep in t.past ==> EpochOk(log, ep)
    ensures Inv(log, max, t)
  {
    assert Ahead(t) == [];
  }

  lemma StepInv(log: Log, max: nat, s: State, step: Step)
    requires max > 0 && Inv(log, max, s) && Enabled(log, s, step)
    ensures Inv(log, max, Apply(log, max, s, step))
  {
    match step
    case Produce(p) => RegroupedInv(log, max, s, Apply(log, max, s, step));
    case Poll(p) => PollInv(log, max, s, p);
    case Drain => DrainInv(log, max, s);
    case Append => AppendInv(log, max, s);
    case Commit => CommitInv(log, max, s);
    case Crash(appended, partial) => CrashInv(log, max, s, appended, partial);
  }

  /** Every reachable state satisfies the invariant. */
  lemma {:induction false} ReachableInv(log: Log, max: nat, steps: seq<Step>)
    requires max > 0
    ensures var r := Exec(log, max, steps); r.Some? ==> Inv(log, max, r.value)
  {
    if steps == [] {
      InitInv(log, max);
    } else {
      var before := Exec(log, max, steps[..|steps| - 1]);
      ReachableInv(log, max, steps[..|steps| - 1]);
      if before.Some? && Enabled(log, before.value, steps[|steps| - 1]) {
        StepInv(log, max, before.value, steps[|steps| - 1]);
      }
    }
  }
}
