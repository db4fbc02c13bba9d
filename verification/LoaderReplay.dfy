/** What a restart delivers again: how the rows of all incarnations lie in a partition's stream,
    and how far they reach beyond the committed offset. */
module LoaderReplay {
  import opened Options
  import opened Batching
  import opened LoaderSystem
  import opened LoaderSafety
  import opened LoaderTheorems

  ghost predicate RecordsUpTo(log: Log, largest: nat) {
    && largest > 0
    && forall p, o :: 0 <= p < |log| && 0 <= o < |log[p]| ==> |FrameBars(log[p][o])| <= largest
  }

  /** The source of each entry. */
  function Origins(s: seq<Entry>): seq<Source> {
    seq(|s|, i requires 0 <= i < |s| => s[i].source)
  }

  function CountOf(s: seq<Entry>, source: Source): nat {
    multiset(Origins(s))[source]
  }

  lemma CountAppend(a: seq<Entry>, b: seq<Entry>, source: Source)
    ensures CountOf(a + b, source) == CountOf(a, source) + CountOf(b, source)
  {
    assert Origins(a + b) == Origins(a) + Origins(b);
  }

  lemma CountSingle(e: Entry, source: Source)
    ensures CountOf([], source) == 0
    ensures CountOf([e], source) == if e.source == source then 1 else 0
  {
    assert Origins([]) == [] && Origins([e]) == [e.source];
  }

  lemma CountLastOrigin(s: seq<Entry>, source: Source)
    ensures s == [] ==> CountOf(s, source) == 0
    ensures s != [] ==>
              CountOf(s, source) == CountOf(s[..|s| - 1], source) + if s[|s| - 1].source == source then 1 else 0
  {
    if s == [] {
      assert Origins(s) == [];
    } else {
      assert s == s[..|s| - 1] + [s[|s| - 1]];
      CountAppend(s[..|s| - 1], [s[|s| - 1]], source);
      CountSingle(s[|s| - 1], source);
    }
  }

  lemma {:induction false} CountInPartition(s: seq<Entry>, source: Source)
    ensures CountOf(Of(source.partition, s), source) == CountOf(s, source)
  {
    CountLastOrigin(s, source);
    if s != [] {
      var init, e := s[..|s| - 1], s[|s| - 1];
      CountInPartition(init, source);
      CountAppend(Of(source.partition, init), if e.source.partition == source.partition then [e] else [], source);
      CountSingle(e, source);
    }
  }

  lemma {:induction false} CountAllOrNone(s: seq<Entry>, source: Source, other: Source)
    requires forall e :: e in s ==> e.source == other
    ensures CountOf(s, source) == if source == other then |s| else 0
  {
    CountLastOrigin(s, source);
    if s != [] {
      CountAllOrNone(s[..|s| - 1], source, other);
      assert s[|s| - 1] in s;
    }
  }

  lemma {:induction false} CountInRange(log: Log, p: nat, a: nat, b: nat, source: Source)
    requires p < |log| && a <= b <= |log[p]|
    ensures CountOf(Range(log, p, a, b), source)
            == if source.partition == p && a <= source.offset < b then |FrameBars(log[p][source.offset])| else 0
    decreases b
  {
    if a < b {
      CountInRange(log, p, a, b - 1, source);
      CountBlock(Range(log, p, a, b), Range(log, p, a, b - 1), source, Source(p, b - 1), FrameBars(log[p][b - 1]));
    }
  }

  lemma CountBlock(all: seq<Entry>, before: seq<Entry>, source: Source, other: Source, bars: seq<Bar>)
    requires all == before + Tagged(other, bars)
    ensures CountOf(all, source) == CountOf(before, source) + if source == other then |bars| else 0
  {
    CountAppend(before, Tagged(other, bars), source);
    CountAllOrNone(Tagged(other, bars), source, other);
  }

  lemma {:induction false} UncoveredCount(rows: seq<Entry>, offsets: seq<nat>, source: Source)
    requires forall e :: e in rows && e.source.partition < |offsets| && e.source.offset >= offsets[e.source.partition]
                         ==> e.source == source
    ensures |Uncovered(rows, offsets)| <= CountOf(rows, source)
  {
    CountLastOrigin(rows, source);
    if rows != [] {
      UncoveredCount(rows[..|rows| - 1], offsets, source);
      assert rows[|rows| - 1] in rows;
    }
  }

  lemma {:induction false} UncoveredNone(rows: seq<Entry>, offsets: seq<nat>)
    requires forall e :: e in rows && e.source.partition < |offsets| ==> e.source.offset < offsets[e.source.partition]
    ensures Uncovered(rows, offsets) == []
  {
    if rows != [] {
      UncoveredNone(rows[..|rows| - 1], offsets);
      assert rows[|rows| - 1] in rows;
    }
  }

  /** Rows of finished flushes at or above the committed offsets: at most one record's worth, less a bar. */
  lemma SettledUncovered(log: Log, max: nat, s: State, largest: nat)
    requires Inv(log, max, s) && RecordsUpTo(log, largest)
    ensures |Uncovered(s.settled, s.committed)| <= largest - 1
  {
    var ahead := Ahead(s);
    if ahead == [] {
      UncoveredNone(s.settled, s.committed);
    } else {
      var source := ahead[0].source;
      var p := source.partition;
      assert ahead[0] in s.settled + ahead;
      UncoveredCount(s.settled, s.committed, source);
      CountAppend(s.settled, ahead, source);
      CountInPartition(s.settled + ahead, source);
      CountInRange(log, p, s.start[p], s.position[p], source);
      CountHead(ahead);
    }
  }

  lemma CountHead(s: seq<Entry>)
    requires s != []
    ensures CountOf(s, s[0].source) >= 1
  {
    assert s == [s[0]] + s[1..];
    CountAppend([s[0]], s[1..], s[0].source);
    CountSingle(s[0], s[0].source);
  }

  lemma {:induction false} UncoveredAtMost(rows: seq<Entry>, offsets: seq<nat>)
    ensures |Uncovered(rows, offsets)| <= |rows|
  {
    if rows != [] {
      UncoveredAtMost(rows[..|rows| - 1], offsets);
    }
  }

  /** Of the rows an incarnation wrote itself, a crash at any point leaves fewer than
      largest + maximumRecords to be delivered again, and fewer than `largest` when it falls
      between completed flushes. */
  lemma OwnReplayBound(log: Log, max: nat, largest: nat, steps: seq<Step>, appended: bool, partial: set<nat>)
    requires max > 0 && RecordsUpTo(log, largest)
    ensures var r := Exec(log, max, steps);
            r.Some? && Enabled(log, r.value, Crash(appended, partial)) ==>
              var s := r.value;
              var ep := Apply(log, max, s, Crash(appended, partial)).past[|s.past|];
              && |Uncovered(ep.rows, ep.end)| <= largest - 1 + max
              && (s.syncing == [] && !appended ==> |Uncovered(ep.rows, ep.end)| <= largest - 1)
  {
    ReachableInv(log, max, steps);
    var r := Exec(log, max, steps);
    if r.Some? && Enabled(log, r.value, Crash(appended, partial)) {
      CrashBound(log, max, r.value, largest, appended, partial);
    }
  }

  lemma CrashBound(log: Log, max: nat, s: State, largest: nat, appended: bool, partial: set<nat>)
    requires appended ==> s.handed != []
    requires partial <= FinalOffsets(s.syncing).Keys && (appended ==> s.syncing == [])
    requires Inv(log, max, s) && RecordsUpTo(log, largest)
    ensures |Uncovered(CrashRows(s, appended), AdvancePart(s, partial))| <= largest - 1 + max
    ensures s.syncing == [] && !appended ==> |Uncovered(CrashRows(s, appended), AdvancePart(s, partial))| <= largest - 1
  {
    forall p | 0 <= p < |log|
      ensures s.committed[p] <= AdvancePart(s, partial)[p]
    {
      AdvanceIsCovered(log, s, partial, p);
    }
    CrashUncovered(s, if appended then s.handed[0] else [], AdvancePart(s, partial));
    SettledUncovered(log, max, s, largest);
  }

  lemma CrashUncovered(s: State, extra: seq<Entry>, end: seq<nat>)
    requires |end| == |s.committed| && forall p :: 0 <= p < |end| ==> s.committed[p] <= end[p]
    ensures |Uncovered(s.settled + s.syncing + extra, end)|
            <= |Uncovered(s.settled, s.committed)| + |s.syncing| + |extra|
  {
    UncoveredAppend(s.settled + s.syncing, extra, end);
    UncoveredAppend(s.settled, s.syncing, end);
    UncoveredShrinks(s.settled, s.committed, end);
    UncoveredAtMost(s.syncing, end);
    UncoveredAtMost(extra, end);
  }

  // ----- all incarnations together -----

  /** How far into partition p's stream, in bars from the first record, an incarnation's rows reach. */
  function Reach(log: Log, p: nat, start: nat, rows: seq<Entry>): nat
    requires p < |log| && start <= |log[p]|
  {
    |Range(log, p, 0, start)| + |Of(p, rows)|
  }

  lemma {:induction false} OfAtMost(p: nat, s: seq<Entry>)
    ensures |Of(p, s)| <= |s|
  {
    if s != [] {
      OfAtMost(p, s[..|s| - 1]);
    }
  }

  lemma ReachFromUncovered(log: Log, p: nat, start: nat, end: nat, limit: nat, rows: seq<Entry>, offsets: seq<nat>)
    requires p < |log| == |offsets| && start <= end <= limit <= |log[p]| && offsets[p] == end
    requires Range(log, p, start, end) <= Of(p, rows) <= Range(log, p, start, limit)
    ensures Reach(log, p, start, rows) <= |Range(log, p, 0, end)| + |Uncovered(rows, offsets)|
  {
    SplitAtOffset(log, p, start, end, limit, rows, offsets);
    OfAtMost(p, Uncovered(rows, offsets));
    RangeSplit(log, p, 0, start, end);
  }

  /** All incarnations so far; the running one as if it ended now. */
  function Incarnations(s: State): seq<Epoch> {
    s.past + [Epoch(s.start, s.committed, s.settled + s.syncing, |s.settled|)]
  }

  predicate Placed(log: Log, p: nat, ep: Epoch) {
    p < |log| && p < |ep.start| && ep.start[p] <= |log[p]| && ep.finished <= |ep.rows|
  }

  /** Where incarnation ep's rows of partition p begin and end in the partition's stream, and where
      those of its finished flushes end. */
  function From(log: Log, p: nat, ep: Epoch): nat
    requires Placed(log, p, ep)
  {
    |Range(log, p, 0, ep.start[p])|
  }

  function To(log: Log, p: nat, ep: Epoch): nat
    requires Placed(log, p, ep)
  {
    Reach(log, p, ep.start[p], ep.rows)
  }

  function FinishedTo(log: Log, p: nat, ep: Epoch): nat
    requires Placed(log, p, ep)
  {
    Reach(log, p, ep.start[p], ep.rows[..ep.finished])
  }

  ghost predicate AllPlaced(log: Log, p: nat, eps: seq<Epoch>) {
    forall ep :: ep in eps ==> Placed(log, p, ep)
  }

  function Max(a: nat, b: nat): nat {
    if a < b then b else a
  }

  ghost function Farthest(log: Log, p: nat, eps: seq<Epoch>): nat
    requires AllPlaced(log, p, eps)
  {
    if eps == [] then 0 else Max(Farthest(log, p, eps[..|eps| - 1]), To(log, p, eps[|eps| - 1]))
  }

  ghost function FarthestFinished(log: Log, p: nat, eps: seq<Epoch>): nat
    requires AllPlaced(log, p, eps)
  {
    if eps == [] then 0 else Max(FarthestFinished(log, p, eps[..|eps| - 1]), FinishedTo(log, p, eps[|eps| - 1]))
  }

  /** Position i of partition p's stream was written by one of the incarnations. */
  ghost predicate Written(log: Log, p: nat, eps: seq<Epoch>, i: nat)
    requires AllPlaced(log, p, eps)
  {
    exists k :: 0 <= k < |eps| && From(log, p, eps[k]) <= i < To(log, p, eps[k])
  }

  ghost predicate AllInside(log: Log, p: nat, eps: seq<Epoch>)
    requires p < |log| && AllPlaced(log, p, eps)
  {
    forall ep :: ep in eps ==> From(log, p, ep) <= To(log, p, ep) <= |Range(log, p, 0, |log[p]|)|
  }

  /** One contiguous piece of partition p's stream per incarnation, one after the other. */
  ghost function Pieces(log: Log, p: nat, eps: seq<Epoch>): seq<Entry>
    requires p < |log| && AllPlaced(log, p, eps) && AllInside(log, p, eps)
  {
    if eps == [] then []
    else
      var ep := eps[|eps| - 1];
      Pieces(log, p, eps[..|eps| - 1]) + Range(log, p, 0, |log[p]|)[From(log, p, ep)..To(log, p, ep)]
  }

  lemma RowsArePiece(log: Log, p: nat, ep: Epoch)
    requires EpochOk(log, ep) && p < |log|
    ensures Placed(log, p, ep)
    ensures |Range(log, p, 0, ep.end[p])| <= To(log, p, ep)
    ensures var stream := Range(log, p, 0, |log[p]|);
            From(log, p, ep) <= To(log, p, ep) <= |stream|
            && Of(p, ep.rows) == stream[From(log, p, ep)..To(log, p, ep)]
  {
    RangeSplit(log, p, 0, ep.start[p], |log[p]|);
    RangeSplit(log, p, 0, ep.start[p], ep.end[p]);
    PrefixIsSlice(Range(log, p, 0, ep.start[p]), Range(log, p, ep.start[p], |log[p]|), Of(p, ep.rows));
  }

  lemma PrefixIsSlice<T>(a: seq<T>, b: seq<T>, c: seq<T>)
    requires c <= b
    ensures (a + b)[|a|..|a| + |c|] == c
  {
  }

  lemma {:induction false} RowsArePieces(log: Log, p: nat, eps: seq<Epoch>)
    requires p < |log| && forall ep :: ep in eps ==> EpochOk(log, ep)
    ensures AllPlaced(log, p, eps) && AllInside(log, p, eps) && Of(p, Rows(eps)) == Pieces(log, p, eps)
  {
    if eps != [] {
      var init, ep := eps[..|eps| - 1], eps[|eps| - 1];
      assert ep in eps && forall x :: x in eps ==> x in init || x == ep;
      RowsArePieces(log, p, init);
      RowsArePiece(log, p, ep);
      OfAppend(p, Rows(init), ep.rows);
    }
  }

  /** The pieces leave no gap: together they are everything up to the farthest row. */
  lemma {:induction false} NoGaps(log: Log, p: nat, eps: seq<Epoch>, end: seq<nat>)
    requires p < |log| == |end| && end[p] <= |log[p]| && Linked(|log|, eps, end)
    requires forall ep :: ep in eps ==> EpochOk(log, ep)
    ensures AllPlaced(log, p, eps)
    ensures forall i: nat :: Written(log, p, eps, i) <==> i < Farthest(log, p, eps)
    ensures |Range(log, p, 0, end[p])| <= Farthest(log, p, eps)
  {
    forall ep | ep in eps
      ensures Placed(log, p, ep)
    {
      RowsArePiece(log, p, ep);
    }
    if eps != [] {
      var init, ep := eps[..|eps| - 1], eps[|eps| - 1];
      assert ep in eps && EpochOk(log, ep);
      NoGaps(log, p, init, ep.start);
      RowsArePiece(log, p, ep);
      forall i: nat
        ensures Written(log, p, eps, i) <==> Written(log, p, init, i) || From(log, p, ep) <= i < To(log, p, ep)
      {
        WrittenSnoc(log, p, eps, i);
      }
    }
  }

  lemma WrittenSnoc(log: Log, p: nat, eps: seq<Epoch>, i: nat)
    requires eps != [] && AllPlaced(log, p, eps)
    ensures var init, ep := eps[..|eps| - 1], eps[|eps| - 1];
            Written(log, p, eps, i) <==> Written(log, p, init, i) || From(log, p, ep) <= i < To(log, p, ep)
  {
    var init, ep := eps[..|eps| - 1], eps[|eps| - 1];
    if Written(log, p, init, i) {
      var k :| 0 <= k < |init| && From(log, p, init[k]) <= i < To(log, p, init[k]);
      assert eps[k] == init[k];
    }
    if Written(log, p, eps, i) {
      var k :| 0 <= k < |eps| && From(log, p, eps[k]) <= i < To(log, p, eps[k]);
      assert k < |init| ==> init[k] == eps[k];
    }
  }

  // ----- how far beyond the committed offset -----

  /** What incarnation ep's finished flushes and its interrupted one reach. */
  ghost predicate Within(log: Log, p: nat, ep: Epoch, largest: nat, max: nat) {
    && EpochOk(log, ep) && p < |log|
    && |ep.rows| <= ep.finished + max
    && FinishedTo(log, p, ep) <= |Range(log, p, 0, ep.end[p])| + largest - 1
  }

  lemma InterruptedReach(log: Log, p: nat, ep: Epoch, largest: nat, max: nat)
    requires Within(log, p, ep, largest, max)
    ensures FinishedTo(log, p, ep) <= To(log, p, ep) <= FinishedTo(log, p, ep) + max
    ensures ep.finished == |ep.rows| ==> To(log, p, ep) == FinishedTo(log, p, ep)
  {
    var done, rest := ep.rows[..ep.finished], ep.rows[ep.finished..];
    assert ep.rows == done + rest;
    OfAppend(p, done, rest);
    OfAtMost(p, rest);
  }

  lemma {:induction false} FarthestWithin(log: Log, p: nat, eps: seq<Epoch>, end: nat, largest: nat, max: nat)
    requires p < |log| && end <= |log[p]| && largest > 0
    requires forall ep :: ep in eps ==> Within(log, p, ep, largest, max) && ep.end[p] <= end
    ensures AllPlaced(log, p, eps)
    ensures FarthestFinished(log, p, eps) <= |Range(log, p, 0, end)| + largest - 1
    ensures FarthestFinished(log, p, eps) <= Farthest(log, p, eps) <= FarthestFinished(log, p, eps) + max
  {
    if eps != [] {
      var init, ep := eps[..|eps| - 1], eps[|eps| - 1];
      assert ep in eps && forall x :: x in init ==> x in eps;
      FarthestWithin(log, p, init, end, largest, max);
      InterruptedReach(log, p, ep, largest, max);
      RangeGrows(log, p, 0, ep.end[p], end);
    }
  }

  /** Finished flushes, which reach `finished`, have got as far as every incarnation that was
      interrupted inside a flush. */
  ghost predicate Overtaken(log: Log, p: nat, eps: seq<Epoch>, finished: nat)
    requires AllPlaced(log, p, eps)
  {
    forall ep :: ep in eps && ep.finished < |ep.rows| ==> To(log, p, ep) <= finished
  }

  lemma {:induction false} FarthestAtMost(log: Log, p: nat, eps: seq<Epoch>, bound: nat)
    requires AllPlaced(log, p, eps)
    ensures Farthest(log, p, eps) <= bound <==> forall ep :: ep in eps ==> To(log, p, ep) <= bound
  {
    if eps != [] {
      var init, ep := eps[..|eps| - 1], eps[|eps| - 1];
      assert eps == init + [ep];
      FarthestAtMost(log, p, init, bound);
    }
  }

  lemma {:induction false} FinishedIsFarthest(log: Log, p: nat, eps: seq<Epoch>, ep: Epoch)
    requires AllPlaced(log, p, eps) && ep in eps
    ensures FinishedTo(log, p, ep) <= FarthestFinished(log, p, eps)
  {
    var init := eps[..|eps| - 1];
    if ep in init {
      FinishedIsFarthest(log, p, init, ep);
    }
  }

  lemma OvertakenMeaning(log: Log, p: nat, eps: seq<Epoch>, largest: nat, max: nat)
    requires AllPlaced(log, p, eps) && forall ep :: ep in eps ==> Within(log, p, ep, largest, max)
    requires FarthestFinished(log, p, eps) <= Farthest(log, p, eps)
    ensures Overtaken(log, p, eps, FarthestFinished(log, p, eps))
            <==> Farthest(log, p, eps) == FarthestFinished(log, p, eps)
  {
    var finished := FarthestFinished(log, p, eps);
    FarthestAtMost(log, p, eps, finished);
    forall ep | ep in eps && ep.finished == |ep.rows|
      ensures To(log, p, ep) <= finished
    {
      InterruptedReach(log, p, ep, largest, max);
      FinishedIsFarthest(log, p, eps, ep);
    }
  }

  ghost predicate PastWithin(log: Log, s: State, p: nat, largest: nat, max: nat)
    requires Shape(log, s)
  {
    p < |log| && forall ep :: ep in s.past ==> Within(log, p, ep, largest, max) && ep.end[p] <= s.committed[p]
  }

  lemma SettledWithin(log: Log, max: nat, largest: nat, s: State, p: nat)
    requires Inv(log, max, s) && RecordsUpTo(log, largest) && p < |log|
    ensures |Range(log, p, 0, s.committed[p])| <= Reach(log, p, s.start[p], s.settled)
            <= |Range(log, p, 0, s.committed[p])| + largest - 1
  {
    SettledIsPrefix(log, s, p);
    ReachFromUncovered(log, p, s.start[p], s.committed[p], s.position[p], s.settled, s.committed);
    SettledUncovered(log, max, s, largest);
    RangeSplit(log, p, 0, s.start[p], s.committed[p]);
  }

  lemma SettledIsPrefix(log: Log, s: State, p: nat)
    requires Shape(log, s) && Accounted(log, s) && CommittedExactly(log, s) && p < |log|
    ensures Range(log, p, s.start[p], s.committed[p]) <= Of(p, s.settled) <= Range(log, p, s.start[p], s.position[p])
  {
    OfAppend(p, s.settled, Ahead(s));
  }

  lemma RunningWithin(log: Log, max: nat, largest: nat, s: State, p: nat)
    requires Inv(log, max, s) && RecordsUpTo(log, largest) && p < |log|
    ensures Within(log, p, Epoch(s.start, s.committed, s.settled + s.syncing, |s.settled|), largest, max)
  {
    RunningOk(log, max, s);
    SettledWithin(log, max, largest, s, p);
    assert (s.settled + s.syncing)[..|s.settled|] == s.settled;
  }

  lemma RunningOk(log: Log, max: nat, s: State)
    requires Inv(log, max, s)
    ensures EpochOk(log, Epoch(s.start, s.committed, s.settled + s.syncing, |s.settled|))
  {
    forall p | 0 <= p < |log|
      ensures Range(log, p, s.start[p], s.committed[p]) <= Of(p, s.settled + s.syncing)
              <= Range(log, p, s.start[p], |log[p]|)
    {
      FlushedIsPrefix(log, s, p);
      RangeSplit(log, p, s.start[p], s.position[p], |log[p]|);
    }
    FlushedInPartitions(log, s);
  }

  lemma CrashWithin(log: Log, max: nat, largest: nat, s: State, appended: bool, partial: set<nat>, p: nat)
    requires appended ==> s.handed != [] && s.syncing == []
    requires max > 0 && Enabled(log, s, Crash(appended, partial)) && p < |log|
    requires Inv(log, max, s) && RecordsUpTo(log, largest)
    ensures var ep := Epoch(s.start, AdvancePart(s, partial), CrashRows(s, appended), |s.settled|);
            Within(log, p, ep, largest, max)
  {
    CrashEpochOk(log, max, s, appended, partial);
    AdvanceIsCovered(log, s, partial, p);
    SettledWithin(log, max, largest, s, p);
    RangeGrows(log, p, 0, s.committed[p], AdvancePart(s, partial)[p]);
    CrashRowsCount(max, s, appended);
  }

  lemma CrashRowsCount(max: nat, s: State, appended: bool)
    requires Sizes(max, s) && (appended ==> s.handed != [] && s.syncing == [])
    ensures |CrashRows(s, appended)| <= |s.settled| + max && CrashRows(s, appended)[..|s.settled|] == s.settled
  {
    assert appended ==> s.handed[0] in s.handed;
  }

  lemma StepWithin(log: Log, max: nat, largest: nat, s: State, step: Step, p: nat)
    requires max > 0 && Inv(log, max, s) && RecordsUpTo(log, largest) && Enabled(log, s, step) && p < |log|
    requires PastWithin(log, s, p, largest, max)
    ensures var t := Apply(log, max, s, step); Inv(log, max, t) && PastWithin(log, t, p, largest, max)
  {
    StepInv(log, max, s, step);
    StepAdvances(log, max, s, step, p);
    if step.Crash? {
      CrashState(log, max, s, step.appended, step.partial);
      CrashWithin(log, max, largest, s, step.appended, step.partial, p);
      CrashMore(log, s, Apply(log, max, s, step),
                Epoch(s.start, AdvancePart(s, step.partial), CrashRows(s, step.appended), |s.settled|),
                p, largest, max);
    } else {
      SamePast(log, max, s, step);
      MoreWithin(log, s, Apply(log, max, s, step), [], p, largest, max);
    }
  }

  lemma CrashMore(log: Log, s: State, t: State, ep: Epoch, p: nat, largest: nat, max: nat)
    requires Shape(log, s) && Shape(log, t) && PastWithin(log, s, p, largest, max)
    requires t.past == s.past + [ep] && s.committed[p] <= t.committed[p]
    requires Within(log, p, ep, largest, max) && ep.end == t.committed
    ensures PastWithin(log, t, p, largest, max)
  {
    MoreWithin(log, s, t, [ep], p, largest, max);
  }

  lemma MoreWithin(log: Log, s: State, t: State, ended: seq<Epoch>, p: nat, largest: nat, max: nat)
    requires Shape(log, s) && Shape(log, t) && PastWithin(log, s, p, largest, max)
    requires t.past == s.past + ended && s.committed[p] <= t.committed[p]
    requires forall ep :: ep in ended ==> Within(log, p, ep, largest, max) && ep.end[p] <= t.committed[p]
    ensures PastWithin(log, t, p, largest, max)
  {
  }

  lemma SamePast(log: Log, max: nat, s: State, step: Step)
    requires max > 0 && Enabled(log, s, step) && !step.Crash?
    ensures Apply(log, max, s, step).past == s.past + []
  {
  }

  lemma {:induction false} ReachableWithin(log: Log, max: nat, largest: nat, steps: seq<Step>, p: nat)
    requires max > 0 && RecordsUpTo(log, largest) && p < |log|
    ensures var r := Exec(log, max, steps);
            r.Some? ==> Inv(log, max, r.value) && PastWithin(log, r.value, p, largest, max)
  {
    if steps == [] {
      InitInv(log, max);
    } else {
      var init := steps[..|steps| - 1];
      ReachableWithin(log, max, largest, init, p);
      var before := Exec(log, max, init);
      if before.Some? && Enabled(log, before.value, steps[|steps| - 1]) {
        StepWithin(log, max, largest, before.value, steps[|steps| - 1], p);
      }
    }
  }

  // ----- the theorems -----

  /** A partition's rows, in table order, are one contiguous piece of its stream per incarnation, and
      the pieces leave no gap: the table holds each position up to the farthest, and none beyond. */
  lemma TableIsPieces(log: Log, max: nat, steps: seq<Step>, p: nat)
    requires max > 0 && p < |log|
    ensures var r := Exec(log, max, steps);
            r.Some? ==>
              var eps := Incarnations(r.value);
              && AllPlaced(log, p, eps) && AllInside(log, p, eps)
              && Of(p, r.value.table) == Pieces(log, p, eps)
              && (forall i: nat :: Written(log, p, eps, i) <==> i < Farthest(log, p, eps))
  {
    ReachableInv(log, max, steps);
    var r := Exec(log, max, steps);
    if r.Some? {
      IncarnationsOk(log, max, r.value);
      RowsArePieces(log, p, Incarnations(r.value));
      NoGaps(log, p, Incarnations(r.value), r.value.committed);
    }
  }

  lemma IncarnationsOk(log: Log, max: nat, s: State)
    requires Inv(log, max, s)
    ensures Linked(|log|, Incarnations(s), s.committed) && Rows(Incarnations(s)) == s.table
    ensures forall ep :: ep in Incarnations(s) ==> EpochOk(log, ep)
  {
    var running := Epoch(s.start, s.committed, s.settled + s.syncing, |s.settled|);
    RunningOk(log, max, s);
    CrashLinked(|log|, s.past, running);
    assert (s.past + [running])[..|s.past|] == s.past;
    TableSplits(s);
  }

  /** The positions a restart meets again are those from the committed offset to the farthest row.
      Finished flushes reach at most one record less a bar beyond the committed offset, and
      interrupted ones at most a batch beyond finished ones: nothing beyond them, exactly when finished
      flushes have overtaken every interrupted one. */
  lemma ReplayBound(log: Log, max: nat, largest: nat, steps: seq<Step>, p: nat)
    requires max > 0 && RecordsUpTo(log, largest) && p < |log|
    ensures var r := Exec(log, max, steps);
            r.Some? ==>
              var s, eps := r.value, Incarnations(r.value);
              && |s.committed| == |log| && s.committed[p] <= |log[p]| && AllPlaced(log, p, eps)
              && var covered, finished, farthest :=
                   |Range(log, p, 0, s.committed[p])|, FarthestFinished(log, p, eps), Farthest(log, p, eps);
                 && covered <= finished <= covered + largest - 1
                 && finished <= farthest <= finished + max
                 && (Overtaken(log, p, eps, finished) <==> farthest == finished)
                 && (Overtaken(log, p, eps, finished) ==> farthest <= covered + largest - 1)
  {
    ReachableWithin(log, max, largest, steps, p);
    var r := Exec(log, max, steps);
    if r.Some? {
      ReplayFromInv(log, max, largest, r.value, p);
    }
  }

  lemma ReplayFromInv(log: Log, max: nat, largest: nat, s: State, p: nat)
    requires max > 0 && Inv(log, max, s) && RecordsUpTo(log, largest) && p < |log|
    requires PastWithin(log, s, p, largest, max)
    ensures var eps := Incarnations(s);
            && AllPlaced(log, p, eps)
            && var covered, finished, farthest :=
                 |Range(log, p, 0, s.committed[p])|, FarthestFinished(log, p, eps), Farthest(log, p, eps);
               && covered <= finished <= covered + largest - 1
               && finished <= farthest <= finished + max
               && (Overtaken(log, p, eps, finished) <==> farthest == finished)
  {
    RunningWithin(log, max, largest, s, p);
    FarthestWithin(log, p, Incarnations(s), s.committed[p], largest, max);
    OvertakenMeaning(log, p, Incarnations(s), largest, max);
    SettledWithin(log, max, largest, s, p);
    RunningFinished(log, s, p);
  }

  /** The running incarnation's finished flushes are among those of all incarnations. */
  lemma RunningFinished(log: Log, s: State, p: nat)
    requires p < |log| && AllPlaced(log, p, Incarnations(s)) && p < |s.start| && s.start[p] <= |log[p]|
    ensures Reach(log, p, s.start[p], s.settled) <= FarthestFinished(log, p, Incarnations(s))
  {
    var running := Epoch(s.start, s.committed, s.settled + s.syncing, |s.settled|);
    assert Incarnations(s)[|s.past|] == running && running.rows[..|s.settled|] == s.settled;
  }

  // ----- all partitions together -----

  ghost predicate CanCount(log: Log, s: State) {
    && |s.committed| == |log|
    && forall p :: 0 <= p < |log| ==> s.committed[p] <= |log[p]| && AllPlaced(log, p, Incarnations(s))
  }

  /** How many bars of partition p a restart meets again that are in the table already. */
  ghost function MetAgainOf(log: Log, s: State, p: nat): nat
    requires CanCount(log, s) && p < |log|
  {
    var covered, farthest := |Range(log, p, 0, s.committed[p])|, Farthest(log, p, Incarnations(s));
    if farthest > covered then farthest - covered else 0
  }

  ghost function MetAgainIn(log: Log, s: State, n: nat): nat
    requires CanCount(log, s) && n <= |log|
  {
    if n == 0 then 0 else MetAgainIn(log, s, n - 1) + MetAgainOf(log, s, n - 1)
  }

  /** Whatever happened, a restart meets at most (largest - 1 + maximumRecords) bars of each partition
      again. */
  lemma TotalReplay(log: Log, max: nat, largest: nat, steps: seq<Step>)
    requires max > 0 && RecordsUpTo(log, largest)
    ensures var r := Exec(log, max, steps);
            r.Some? ==> CanCount(log, r.value) && MetAgainIn(log, r.value, |log|) <= |log| * (largest - 1 + max)
  {
    var r := Exec(log, max, steps);
    if r.Some? {
      ExecutesMeaning(log, max, steps, r.value);
      TotalOf(log, max, largest, steps, r.value);
    }
  }

  lemma TotalOf(log: Log, max: nat, largest: nat, steps: seq<Step>, s: State)
    requires max > 0 && RecordsUpTo(log, largest) && Executes(log, max, steps, s)
    ensures CanCount(log, s) && MetAgainIn(log, s, |log|) <= |log| * (largest - 1 + max)
  {
    CommittedLength(log, max, steps, s);
    forall p | 0 <= p < |log|
      ensures s.committed[p] <= |log[p]| && AllPlaced(log, p, Incarnations(s))
      ensures Farthest(log, p, Incarnations(s)) <= |Range(log, p, 0, s.committed[p])| + largest - 1 + max
    {
      FarthestOf(log, max, largest, steps, s, p);
    }
    SumAtMost(log, s, largest - 1 + max, |log|);
  }

  lemma FarthestOf(log: Log, max: nat, largest: nat, steps: seq<Step>, s: State, p: nat)
    requires max > 0 && RecordsUpTo(log, largest) && Executes(log, max, steps, s) && p < |log|
    ensures |s.committed| == |log| && s.committed[p] <= |log[p]| && AllPlaced(log, p, Incarnations(s))
    ensures Farthest(log, p, Incarnations(s)) <= |Range(log, p, 0, s.committed[p])| + largest - 1 + max
  {
    ExecutesMeaning(log, max, steps, s);
    ReplayBound(log, max, largest, steps, p);
  }

  lemma CommittedLength(log: Log, max: nat, steps: seq<Step>, s: State)
    requires max > 0 && Executes(log, max, steps, s)
    ensures |s.committed| == |log|
  {
    ExecutesMeaning(log, max, steps, s);
    ReachableInv(log, max, steps);
  }

  lemma {:induction false} SumAtMost(log: Log, s: State, each: nat, n: nat)
    requires CanCount(log, s) && n <= |log| && forall p :: 0 <= p < |log| ==> MetAgainOf(log, s, p) <= each
    ensures MetAgainIn(log, s, n) <= n * each
  {
    if n > 0 {
      SumAtMost(log, s, each, n - 1);
      assert n * each == (n - 1) * each + each;
    }
  }
}
