/** What a heartbeat's state says about the loader, for every reachable state. */
module LoaderHeartbeat {
  import opened Options
  import opened Batching
  import opened LoaderSystem
  import opened LoaderSafety
  import opened LoaderLag
  import opened LoaderHealth

  /** The broker's answers in state s, all partitions assigned to the one consumer.  A partition
      nothing was committed for may be missing from `committed`; its beginning offset is 0. */
  ghost predicate Sees(log: Log, s: State, view: BrokerView)
    requires Shape(log, s)
  {
    && (forall p: nat :: p in view.assignment <==> p < |log|)
    && forall p :: 0 <= p < |log| ==>
      && (p in view.committed ==> view.committed[p] == s.committed[p])
      && (p !in view.committed ==> s.committed[p] == 0)
      && (p !in view.committed && p in view.beginning ==> view.beginning[p] == 0)
      && (p in view.end ==> view.end[p] == s.produced[p])
      && (p !in view.end ==> s.produced[p] == s.committed[p])
  }

  /** A sample that shows state s: every partition's offsets, in order. */
  ghost predicate Shows(log: Log, s: State, offsets: seq<PartitionOffsets>)
    requires Shape(log, s)
  {
    && |offsets| == |log|
    && forall p :: 0 <= p < |log| ==>
      offsets[p] == PartitionOffsets(p, s.committed[p], s.produced[p], s.produced[p] - s.committed[p])
  }

  predicate Lists(offsets: seq<PartitionOffsets>, p: nat) {
    exists o :: o in offsets && o.partition == p
  }

  /** Strictly increasing numbers that are exactly those below n are 0, 1, ..., n - 1. */
  lemma {:induction false} InOrderBelow(offsets: seq<PartitionOffsets>, n: nat)
    requires Ascending(offsets) && (forall o :: o in offsets ==> o.partition < n)
    requires forall p: nat :: p < n ==> Lists(offsets, p)
    ensures |offsets| == n && forall p :: 0 <= p < n ==> offsets[p].partition == p
  {
    assert offsets != [] ==> offsets[0] in offsets;
    if n > 0 {
      assert Lists(offsets, n - 1);
      var init, last := offsets[..|offsets| - 1], offsets[|offsets| - 1];
      assert last in offsets && last.partition == n - 1;
      forall p: nat | p < n - 1
        ensures Lists(init, p)
      {
        assert Lists(offsets, p) && offsets == init + [last];
      }
      forall o | o in init
        ensures o.partition < n - 1
      {
        assert o in offsets;
      }
      InOrderBelow(init, n - 1);
    }
  }

  /** What the loader samples of the broker shows the state. */
  lemma SampleShows(log: Log, s: State, view: BrokerView, offsets: seq<PartitionOffsets>)
    requires Shape(log, s) && Sees(log, s, view) && IsSampleOf(view, offsets)
    ensures Shows(log, s, offsets)
  {
    forall p: nat | p < |log|
      ensures Lists(offsets, p)
    {
      assert OffsetsOf(view, p) in offsets;
    }
    InOrderBelow(offsets, |log|);
    forall p | 0 <= p < |log|
      ensures offsets[p] == PartitionOffsets(p, s.committed[p], s.produced[p], s.produced[p] - s.committed[p])
    {
      assert offsets[p] in offsets;
    }
  }

  lemma {:induction false} ShownLag(log: Log, s: State, offsets: seq<PartitionOffsets>, n: nat)
    requires Shape(log, s) && Shows(log, s, offsets) && n <= |log|
    ensures Lag(offsets[..n]) == Sum(LagPerPartition(log, s)[..n])
  {
    if n > 0 {
      ShownLag(log, s, offsets, n - 1);
      SumStep(LagPerPartition(log, s), n - 1);
      assert offsets[..n][..n - 1] == offsets[..n - 1];
    }
  }

  /** Records not polled yet, and polled empty records above the committed offsets. */
  ghost function Unread(log: Log, s: State): nat
    requires Shape(log, s)
  {
    Sum(UnreadPerPartition(log, s))
  }

  ghost function EmptyOutstanding(log: Log, s: State): nat
    requires Shape(log, s)
  {
    Sum(EmptyPerPartition(log, s))
  }

  /** The state a heartbeat reports for s with the remembered instants in t. */
  function ReportedState(s: State, offsets: seq<PartitionOffsets>, t: Tracker, now: int, threshold: int): HealthState {
    StateAfter(t, Sample(now, offsets), false, |s.pending|, |Sources(s.pending)|, threshold)
  }

  /** Catching up means some record is unread or empty-and-uncommitted, buffering that everything
      outstanding is in the batch, idle that nothing is outstanding; a stall that something is. */
  ghost predicate Tells(log: Log, s: State, state: HealthState)
    requires Shape(log, s)
  {
    var missing := Unread(log, s) + EmptyOutstanding(log, s);
    && state in {Stalled, CatchingUp, Buffering, Idle}
    && (state == Stalled ==> missing > 0 || s.pending != [])
    && (state != Stalled ==>
          && (state == CatchingUp <==> missing > 0)
          && (state == Buffering <==> missing == 0 && s.pending != [])
          && (state == Idle <==> missing == 0 && s.pending == []))
  }

  lemma StateMeaning(log: Log, max: nat, s: State, offsets: seq<PartitionOffsets>, t: Tracker, now: int, threshold: int)
    requires Inv(log, max, s) && BetweenPasses(s) && Shows(log, s, offsets) && |log| > 0
    ensures Tells(log, s, ReportedState(s, offsets, t, now, threshold))
  {
    LagIdentity(log, max, s);
    WholeLag(log, s, offsets);
    LagTells(log, s, offsets, t, now, threshold);
  }

  lemma WholeLag(log: Log, s: State, offsets: seq<PartitionOffsets>)
    requires Shape(log, s) && Shows(log, s, offsets)
    ensures Lag(offsets) == Sum(LagPerPartition(log, s))
  {
    ShownLag(log, s, offsets, |log|);
    assert offsets[..|log|] == offsets;
    assert LagPerPartition(log, s)[..|log|] == LagPerPartition(log, s);
  }

  lemma LagTells(log: Log, s: State, offsets: seq<PartitionOffsets>, t: Tracker, now: int, threshold: int)
    requires Shape(log, s) && offsets != []
    requires Lag(offsets) == |Sources(s.pending)| + Unread(log, s) + EmptyOutstanding(log, s)
    ensures Tells(log, s, ReportedState(s, offsets, t, now, threshold))
  {
    if s.pending != [] {
      assert s.pending[0].source in Sources(s.pending);
    }
  }

  /** Catching up exactly when records are unread: true if and only if no empty record is
      outstanding or some record is unread anyway. */
  lemma CatchingUpMeansUnread(log: Log, max: nat, s: State, offsets: seq<PartitionOffsets>, t: Tracker, now: int,
                              threshold: int)
    requires Inv(log, max, s) && BetweenPasses(s) && Shows(log, s, offsets) && |log| > 0
    requires ReportedState(s, offsets, t, now, threshold) != Stalled
    ensures (ReportedState(s, offsets, t, now, threshold) == CatchingUp <==> Unread(log, s) > 0)
            <==> (EmptyOutstanding(log, s) == 0 || Unread(log, s) > 0)
  {
    StateMeaning(log, max, s, offsets, t, now, threshold);
  }

  // ----- the heartbeats of a process -----

  /** State s was reached by some run from the first start. */
  ghost predicate Reachable(log: Log, max: nat, s: State)
    requires max > 0
  {
    exists steps :: Executes(log, max, steps, s)
  }

  /** State s with these end offsets: records may have been produced that no step has polled yet. */
  function WithEnds(s: State, ends: seq<nat>): State {
    s.(produced := ends)
  }

  predicate EndsFor(log: Log, s: State, ends: seq<nat>) {
    && |ends| == |s.position| == |log|
    && forall p :: 0 <= p < |log| ==> s.position[p] <= ends[p] <= |log[p]|
  }

  lemma EndsKeepInv(log: Log, max: nat, s: State, ends: seq<nat>)
    requires Inv(log, max, s) && EndsFor(log, s, ends)
    ensures Inv(log, max, WithEnds(s, ends))
  {
    RegroupedInv(log, max, s, WithEnds(s, ends));
  }

  /** Heartbeat k tells what is outstanding in the state it was sent in, with whatever end offsets
      its sample shows. */
  ghost predicate TellsAnyEnds(log: Log, s: State, offsets: seq<PartitionOffsets>, state: HealthState)
    requires Shape(log, s)
  {
    forall ends :: EndsFor(log, s, ends) && Shows(log, WithEnds(s, ends), offsets)
                   ==> Tells(log, WithEnds(s, ends), state)
  }

  lemma TellsWithEnds(log: Log, max: nat, s: State, offsets: seq<PartitionOffsets>, t: Tracker, now: int,
                      threshold: int)
    requires Inv(log, max, s) && BetweenPasses(s) && |log| > 0
    ensures TellsAnyEnds(log, s, offsets, ReportedState(s, offsets, t, now, threshold))
  {
    forall ends | EndsFor(log, s, ends) && Shows(log, WithEnds(s, ends), offsets)
      ensures Tells(log, WithEnds(s, ends), ReportedState(s, offsets, t, now, threshold))
    {
      EndsKeepInv(log, max, s, ends);
      StateMeaning(log, max, WithEnds(s, ends), offsets, t, now, threshold);
    }
  }

  /** A heartbeat sent between passes with the counts of what is buffered then tells what is outstanding,
      however many records the broker has received by then. */
  lemma HeartbeatTellsState(log: Log, max: nat, output: seq<Event>, tracked: Tracker, previous: Option<HealthState>,
                            threshold: int, k: nat, s: State)
    requires max > 0 && |log| > 0 && Remembered(output, tracked, previous, threshold) && k < |Reports(output)|
    requires Reports(output)[k].state != Committing && Reachable(log, max, s) && BetweenPasses(s)
    requires Reports(output)[k].bufferedBars == |s.pending|
             && Reports(output)[k].bufferedSources == |Sources(s.pending)|
    ensures Shape(log, s)
    ensures TellsAnyEnds(log, s, Reports(output)[k].offsets, Reports(output)[k].state)
  {
    var r := Reports(output)[k];
    assert InferredAt(Reports(output), k, threshold);
    var steps :| Executes(log, max, steps, s);
    ExecutesMeaning(log, max, steps, s);
    ReachableInv(log, max, steps);
    TellsWithEnds(log, max, s, r.offsets, Track(Samples(Reports(output)[..k + 1])), r.now, threshold);
  }

  /** The same where the consumer's answers are those of the broker in that state, with whatever end
      offsets it has by then. */
  lemma ViewTellsState(log: Log, s: State, view: BrokerView, offsets: seq<PartitionOffsets>, state: HealthState,
                       ends: seq<nat>)
    requires Shape(log, s) && TellsAnyEnds(log, s, offsets, state) && IsSampleOf(view, offsets)
    requires EndsFor(log, s, ends) && Shape(log, WithEnds(s, ends)) && Sees(log, WithEnds(s, ends), view)
    ensures Tells(log, WithEnds(s, ends), state)
  {
    SampleShows(log, WithEnds(s, ends), view, offsets);
  }

  // ----- an empty frame at the tail -----

  /** With one empty frame at the end of the topic, everything polled and nothing buffered, the
      loader reports a stall as soon as two samples are `threshold` apart. */
  lemma EmptyTailStalls(max: nat, threshold: int)
    requires max > 0 && threshold > 0
    ensures var r := Exec([[Bars([])]], max, [Produce(0), Poll(0)]);
            && r.Some? && r.value.position == r.value.produced == [1]
            && r.value.pending == [] && r.value.handed == [] && r.value.syncing == []
            && var offsets := [PartitionOffsets(0, 0, 1, 1)];
               && Shape([[Bars([])]], r.value) && Shows([[Bars([])]], r.value, offsets)
               && ReportedState(r.value, offsets, Track([Sample(0, offsets), Sample(threshold, offsets)]), threshold,
                                threshold)
                  == Stalled
  {
    var log: Log := [[Bars([])]];
    var steps := [Produce(0), Poll(0)];
    assert steps[..1] == [Produce(0)] && steps[..1][..0] == [];
    var s0 := Init(log);
    var s1 := s0.(produced := [1]);
    assert Exec(log, max, []) == Some(s0);
    assert Apply(log, max, s0, Produce(0)) == s1;
    assert Exec(log, max, steps[..1]) == Some(s1);
    assert Tagged(Source(0, 0), []) == [];
    StuckSampleStalls(Exec(log, max, steps).value, threshold);
  }

  lemma StuckSampleStalls(s: State, threshold: int)
    requires threshold > 0 && s.pending == []
    ensures var offsets := [PartitionOffsets(0, 0, 1, 1)];
            ReportedState(s, offsets, Track([Sample(0, offsets), Sample(threshold, offsets)]), threshold, threshold)
            == Stalled
  {
    var offsets := [PartitionOffsets(0, 0, 1, 1)];
    var samples := [Sample(0, offsets), Sample(threshold, offsets)];
    assert Sources([]) == {} && samples[..2] == samples;
    assert Lag(offsets) == 1;
    assert NoProgressSince(samples, 0, 1, threshold);
    StallVerdict(samples, 1, 0, 0, threshold);
  }
}
