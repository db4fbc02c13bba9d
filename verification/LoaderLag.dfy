/** What the loader's lag figure counts: the heartbeat compares broker lag with the
    distinct records buffered in the batch. */
module LoaderLag {
  import opened Batching
  import opened LoaderSystem
  import opened LoaderSafety

  function Sum(xs: seq<nat>): nat {
    if xs == [] then 0 else Sum(xs[..|xs| - 1]) + xs[|xs| - 1]
  }

  /** A heartbeat is sampled between loop passes: nothing handed out, no flush running. */
  predicate BetweenPasses(s: State) {
    s.handed == [] && s.syncing == []
  }

  /** Records of p in a..b that carry no bars. */
  function EmptyRecords(log: Log, p: nat, a: nat, b: nat): nat
    requires p < |log| && a <= b <= |log[p]|
    decreases b - a
  {
    if a == b then 0
    else EmptyRecords(log, p, a, b - 1) + (if FrameBars(log[p][b - 1]) == [] then 1 else 0)
  }

  function LagPerPartition(log: Log, s: State): seq<nat>
    requires |s.committed| == |s.produced| == |log|
  {
    seq(|log|, p requires 0 <= p < |log| =>
      if s.produced[p] > s.committed[p] then s.produced[p] - s.committed[p] else 0)
  }

  function UnreadPerPartition(log: Log, s: State): seq<nat>
    requires |s.position| == |s.produced| == |log|
  {
    seq(|log|, p requires 0 <= p < |log| =>
      if s.produced[p] > s.position[p] then s.produced[p] - s.position[p] else 0)
  }

  /** Polled records above the committed offset that have no bars to carry a final tag. */
  ghost function EmptyPerPartition(log: Log, s: State): seq<nat>
    requires Shape(log, s)
  {
    seq(|log|, p requires 0 <= p < |log| => EmptyRecords(log, p, s.committed[p], s.position[p]))
  }

  /** The non-empty records of p in a..b. */
  function FullSources(log: Log, p: nat, a: nat, b: nat): set<Source>
    requires p < |log| && a <= b <= |log[p]|
    decreases b - a
  {
    if a == b then {}
    else FullSources(log, p, a, b - 1) + (if FrameBars(log[p][b - 1]) == [] then {} else {Source(p, b - 1)})
  }

  lemma {:induction false} FullSourcesMember(log: Log, p: nat, a: nat, b: nat, source: Source)
    requires p < |log| && a <= b <= |log[p]|
    ensures source in FullSources(log, p, a, b)
            <==> source.partition == p && a <= source.offset < b && FrameBars(log[p][source.offset]) != []
    decreases b
  {
    if a < b {
      FullSourcesMember(log, p, a, b - 1, source);
    }
  }

  lemma {:induction false} FullSourcesCount(log: Log, p: nat, a: nat, b: nat)
    requires p < |log| && a <= b <= |log[p]|
    ensures |FullSources(log, p, a, b)| + EmptyRecords(log, p, a, b) == b - a
    decreases b
  {
    if a < b {
      FullSourcesCount(log, p, a, b - 1);
      FullSourcesMember(log, p, a, b - 1, Source(p, b - 1));
    }
  }

  /** A record is buffered exactly when it is polled, not committed, and not empty. */
  lemma BufferedExactly(log: Log, max: nat, s: State, source: Source)
    requires Inv(log, max, s) && BetweenPasses(s)
    ensures source in Sources(s.pending) <==>
              && source.partition < |log|
              && s.committed[source.partition] <= source.offset < s.position[source.partition]
              && FrameBars(log[source.partition][source.offset]) != []
  {
    AheadIsPending(s);
    if source in Sources(s.pending) {
      var e :| e in s.pending && e.source == source;
      BufferedIsOutstanding(log, max, s, e);
    }
    if && source.partition < |log|
       && s.committed[source.partition] <= source.offset < s.position[source.partition]
       && FrameBars(log[source.partition][source.offset]) != [] {
      OutstandingIsBuffered(log, max, s, source);
    }
  }

  lemma AheadIsPending(s: State)
    requires BetweenPasses(s)
    ensures Ahead(s) == s.pending
  {
  }

  lemma BufferedIsOutstanding(log: Log, max: nat, s: State, e: Entry)
    requires Inv(log, max, s) && Ahead(s) == s.pending && e in s.pending
    ensures var p := e.source.partition;
            p < |log| && s.committed[p] <= e.source.offset < s.position[p] && FrameBars(log[p][e.source.offset]) != []
  {
    var p := e.source.partition;
    assert e in s.settled + Ahead(s);
    var i := OfIndex(p, s.settled, s.pending, e);
    PastSettledIsAbove(log, p, s.start[p], s.committed[p], s.position[p], Of(p, s.settled), i);
  }

  lemma OutstandingIsBuffered(log: Log, max: nat, s: State, source: Source)
    requires Inv(log, max, s) && Ahead(s) == s.pending && source.partition < |log|
    requires s.committed[source.partition] <= source.offset < s.position[source.partition]
    requires FrameBars(log[source.partition][source.offset]) != []
    ensures source in Sources(s.pending)
  {
    var p, o := source.partition, source.offset;
    var last := FinalEntry(log, p, s.start[p], o, s.position[p]);
    OfMember(p, s.settled + s.pending, last);
    assert last !in s.settled;
  }

  lemma FinalEntry(log: Log, p: nat, a: nat, o: nat, b: nat) returns (e: Entry)
    requires p < |log| && a <= o < b <= |log[p]| && FrameBars(log[p][o]) != []
    ensures e in Range(log, p, a, b) && e.finalBar && e.source == Source(p, o)
  {
    var bars := FrameBars(log[p][o]);
    e := Tagged(Source(p, o), bars)[|bars| - 1];
    RangeHolds(log, p, a, b, o, |bars| - 1);
  }

  ghost function FullUpTo(log: Log, s: State, n: nat): set<Source>
    requires Shape(log, s) && n <= |log|
  {
    if n == 0 then {}
    else FullUpTo(log, s, n - 1) + FullSources(log, n - 1, s.committed[n - 1], s.position[n - 1])
  }

  lemma {:induction false} FullUpToMember(log: Log, s: State, n: nat, source: Source)
    requires Shape(log, s) && n <= |log|
    ensures source in FullUpTo(log, s, n) <==>
              && source.partition < n
              && s.committed[source.partition] <= source.offset < s.position[source.partition]
              && FrameBars(log[source.partition][source.offset]) != []
  {
    if n > 0 {
      FullUpToMember(log, s, n - 1, source);
      FullSourcesMember(log, n - 1, s.committed[n - 1], s.position[n - 1], source);
    }
  }

  lemma DisjointCount<T>(a: set<T>, b: set<T>)
    requires a !! b
    ensures |a + b| == |a| + |b|
  {
  }

  lemma {:induction false} FullUpToCount(log: Log, s: State, n: nat)
    requires Shape(log, s) && n <= |log|
    ensures |FullUpTo(log, s, n)| + Sum(UnreadPerPartition(log, s)[..n]) + Sum(EmptyPerPartition(log, s)[..n])
            == Sum(LagPerPartition(log, s)[..n])
  {
    if n > 0 {
      FullUpToCount(log, s, n - 1);
      var p := n - 1;
      var added := FullSources(log, p, s.committed[p], s.position[p]);
      FullSourcesCount(log, p, s.committed[p], s.position[p]);
      forall source | source in added
        ensures source !in FullUpTo(log, s, p)
      {
        FullUpToMember(log, s, p, source);
        FullSourcesMember(log, p, s.committed[p], s.position[p], source);
      }
      DisjointCount(FullUpTo(log, s, p), added);
      SumStep(UnreadPerPartition(log, s), p);
      SumStep(EmptyPerPartition(log, s), p);
      SumStep(LagPerPartition(log, s), p);
    }
  }

  lemma SumStep(xs: seq<nat>, i: nat)
    requires i < |xs|
    ensures Sum(xs[..i + 1]) == Sum(xs[..i]) + xs[i]
  {
    assert xs[..i + 1][..i] == xs[..i];
  }

  lemma BufferedSources(log: Log, max: nat, s: State)
    requires Inv(log, max, s) && BetweenPasses(s)
    ensures Sources(s.pending) == FullUpTo(log, s, |log|)
  {
    forall source
      ensures source in Sources(s.pending) <==> source in FullUpTo(log, s, |log|)
    {
      BufferedExactly(log, max, s, source);
      FullUpToMember(log, s, |log|, source);
    }
  }

  /** Lag identity: aggregate lag is the buffered records, plus the records not polled yet, plus
      the empty records between the committed offsets and the poll positions. */
  lemma LagIdentity(log: Log, max: nat, s: State)
    requires Inv(log, max, s) && BetweenPasses(s)
    ensures Sum(LagPerPartition(log, s))
            == |Sources(s.pending)| + Sum(UnreadPerPartition(log, s)) + Sum(EmptyPerPartition(log, s))
  {
    FullUpToCount(log, s, |log|);
    BufferedSources(log, max, s);
    var u, e, l := UnreadPerPartition(log, s), EmptyPerPartition(log, s), LagPerPartition(log, s);
    assert u[..|log|] == u && e[..|log|] == e && l[..|log|] == l;
  }

  /** The lag identity at every heartbeat point of every run. */
  lemma LagInEveryRun(log: Log, max: nat, steps: seq<Step>)
    requires max > 0
    ensures var r := Exec(log, max, steps);
            r.Some? && BetweenPasses(r.value) ==>
              && Shape(log, r.value)
              && Sum(LagPerPartition(log, r.value))
                 == |Sources(r.value.pending)| + Sum(UnreadPerPartition(log, r.value))
                 + Sum(EmptyPerPartition(log, r.value))
  {
    ReachableInv(log, max, steps);
    var r := Exec(log, max, steps);
    if r.Some? && BetweenPasses(r.value) {
      LagIdentity(log, max, r.value);
    }
  }
}
