/** The quiet-window check before a compaction (submit_compaction.py `require_quiet_snapshot`). */
module QuietWindow {

  datatype Snapshot = Snapshot(metadataVersion: nat, snapshotId: nat)

  /** What the outside does: what the table is at every instant of the monotonic clock, how long read
      k takes and how far into it the table is looked at, and by how much each sleep overshoots. */
  datatype World = World(table: real -> Snapshot, readTime: nat -> real, looksAfter: nat -> real,
                         overshoot: nat -> real)

  ghost predicate Causal(w: World) {
    && (forall k :: 0.0 <= w.looksAfter(k) <= w.readTime(k))
    && (forall k :: w.overshoot(k) >= 0.0)
  }

  /** Metadata versions never decrease, and a version is one snapshot. */
  ghost predicate Versioned(w: World) {
    forall s, t :: s <= t ==>
      && w.table(s).metadataVersion <= w.table(t).metadataVersion
      && (w.table(s).metadataVersion == w.table(t).metadataVersion ==> w.table(s) == w.table(t))
  }

  /** ceil(window / interval) */
  function Turns(window: nat, interval: nat): nat
    requires interval > 0
  {
    (window + interval - 1) / interval
  }

  lemma TurnsCoverWindow(window: nat, interval: nat)
    requires interval > 0
    ensures window <= Turns(window, interval) * interval < window + interval
  {
    var n := Turns(window, interval);
    assert window + interval - 1 == n * interval + (window + interval - 1) % interval;
  }

  lemma FewerTurns(k: nat, turns: nat, interval: nat, window: nat)
    requires k * interval < window <= turns * interval
    ensures k < turns
  {
    MulKeepsOrder(turns, k, interval);
  }

  lemma MulKeepsOrder(a: nat, b: nat, c: nat)
    ensures a <= b ==> a * c <= b * c
  {
  }

  /** The table is one snapshot all the time. */
  ghost predicate Unchanged(w: World, first: real, last: real) {
    first <= last && forall t :: first <= t <= last ==> w.table(t) == w.table(first)
  }

  /** A newer metadata version has appeared. */
  predicate Committed(w: World, first: real, last: real) {
    first <= last && w.table(last).metadataVersion > w.table(first).metadataVersion
  }

  function Deadline(w: World, start: real, window: nat): real {
    start + w.readTime(0) + window as real
  }

  /** When sample k (counted from the first read) ends. */
  function EndOf(w: World, start: real, window: nat, interval: nat, k: nat): real
    decreases k, 1
  {
    BeginOf(w, start, window, interval, k) + w.readTime(k)
  }

  /** When sample k begins: the first at the start, a later one after a sleep of one interval, or of
      what is left of the window. */
  function BeginOf(w: World, start: real, window: nat, interval: nat, k: nat): real
    decreases k, 0
  {
    if k == 0 then start
    else
      var clock := EndOf(w, start, window, interval, k - 1);
      var left := Deadline(w, start, window) - clock;
      clock + (if interval as real < left then interval as real else if left > 0.0 then left else 0.0)
      + w.overshoot(k - 1)
  }

  /** The instant whose table sample k returns. */
  function LooksAt(w: World, start: real, window: nat, interval: nat, k: nat): real {
    BeginOf(w, start, window, interval, k) + w.looksAfter(k)
  }

  function Observed(w: World, start: real, window: nat, interval: nat, k: nat): Snapshot {
    w.table(LooksAt(w, start, window, interval, k))
  }

  /** Until the deadline every turn takes an interval at least. */
  lemma {:induction false} TurnsTakeTime(w: World, start: real, window: nat, interval: nat, k: nat)
    requires Causal(w)
    ensures var end, deadline := EndOf(w, start, window, interval, k), Deadline(w, start, window);
            end >= deadline || end >= start + w.readTime(0) + (k * interval) as real
  {
    if k > 0 {
      TurnsTakeTime(w, start, window, interval, k - 1);
      assert k * interval == (k - 1) * interval + interval;
    }
  }

  lemma TurnsLeft(w: World, start: real, window: nat, interval: nat, k: nat)
    requires Causal(w) && interval > 0 && EndOf(w, start, window, interval, k) < Deadline(w, start, window)
    ensures k < Turns(window, interval)
  {
    TurnsTakeTime(w, start, window, interval, k);
    TurnsCoverWindow(window, interval);
    FewerTurns(k, Turns(window, interval), interval, window);
  }

  /** No sample looks at the table before the first one does. */
  lemma {:induction false} SamplesInOrder(w: World, start: real, window: nat, interval: nat, k: nat)
    requires Causal(w)
    ensures LooksAt(w, start, window, interval, 0) <= LooksAt(w, start, window, interval, k)
    ensures LooksAt(w, start, window, interval, 0) <= EndOf(w, start, window, interval, k)
  {
    if k > 0 {
      SamplesInOrder(w, start, window, interval, k - 1);
    }
  }

  /** Sample k equals the first one exactly when the table was one snapshot from the first look to
      sample k's; otherwise a newer version was committed in between. */
  lemma SamplesTell(w: World, start: real, window: nat, interval: nat, k: nat)
    requires Causal(w)
    ensures var first, last := LooksAt(w, start, window, interval, 0), LooksAt(w, start, window, interval, k);
            Versioned(w) ==>
              if w.table(last) == w.table(first) then Unchanged(w, first, last) else Committed(w, first, last)
  {
    SamplesInOrder(w, start, window, interval, k);
  }

  /** The check; `samples` counts the reads after the first. */
  method RequireQuietSnapshot(w: World, runNow: bool, window: nat, interval: nat, start: real)
    returns (quiet: bool, snapshot: Snapshot, samples: nat)
    requires Causal(w) && interval > 0
    ensures snapshot == Observed(w, start, window, interval, 0)
    ensures runNow || window == 0 ==> quiet && samples == 0
    ensures samples <= Turns(window, interval)
    ensures forall k :: 0 <= k < samples ==>
              Observed(w, start, window, interval, k) == snapshot
              && EndOf(w, start, window, interval, k) < Deadline(w, start, window)
    ensures quiet <==> Observed(w, start, window, interval, samples) == snapshot
    ensures quiet && !runNow ==> EndOf(w, start, window, interval, samples) >= Deadline(w, start, window)
    ensures Versioned(w) ==>
              var first, last := LooksAt(w, start, window, interval, 0), LooksAt(w, start, window, interval, samples);
              if quiet then Unchanged(w, first, last) else Committed(w, first, last)
    ensures quiet && !runNow && window > 0 ==>
              && samples > 0
              && (w.readTime(samples) == 0.0
                  ==> BeginOf(w, start, window, interval, samples) >= Deadline(w, start, window))
  {
    snapshot := w.table(start + w.looksAfter(0));
    quiet, samples := true, 0;
    if !runNow {
      quiet, samples := SampleUntilDeadline(w, snapshot, window, interval, start);
    }
    SamplesTell(w, start, window, interval, samples);
  }

  /** The sampling loop. */
  method SampleUntilDeadline(w: World, expected: Snapshot, window: nat, interval: nat, start: real)
    returns (quiet: bool, samples: nat)
    requires Causal(w) && interval > 0 && expected == Observed(w, start, window, interval, 0)
    ensures samples <= Turns(window, interval) && (samples == 0 <==> window == 0)
    ensures forall k :: 0 <= k < samples ==>
              Observed(w, start, window, interval, k) == expected
              && EndOf(w, start, window, interval, k) < Deadline(w, start, window)
    ensures quiet <==> Observed(w, start, window, interval, samples) == expected
    ensures quiet ==> EndOf(w, start, window, interval, samples) >= Deadline(w, start, window)
  {
    quiet, samples := true, 0;
    var clock := start + w.readTime(0);
    var deadline := clock + window as real;
    while clock < deadline
      invariant samples <= Turns(window, interval) && deadline == Deadline(w, start, window)
      invariant clock == EndOf(w, start, window, interval, samples)
      invariant forall k :: 0 <= k < samples ==>
                  Observed(w, start, window, interval, k) == expected && EndOf(w, start, window, interval, k) < deadline
      invariant Observed(w, start, window, interval, samples) == expected
      decreases Turns(window, interval) - samples
    {
      TurnsLeft(w, start, window, interval, samples);
      var left := if deadline - clock > 0.0 then deadline - clock else 0.0;
      var asked := if interval as real < left then interval as real else left;
      clock := clock + asked + w.overshoot(samples);
      samples := samples + 1;
      var observed := w.table(clock + w.looksAfter(samples));
      clock := clock + w.readTime(samples);
      if observed != expected {
        quiet := false;
        return;
      }
    }
  }

  /** The loop sleeps an interval, or what is left of the window if that is less: never beyond the
      deadline, which is a window after the first read. */
  lemma SleepsAreCut(w: World, start: real, window: nat, interval: nat, k: nat)
    requires Causal(w) && k > 0 && EndOf(w, start, window, interval, k - 1) < start + w.readTime(0) + window as real
    ensures var deadline := start + w.readTime(0) + window as real;
            var clock := EndOf(w, start, window, interval, k - 1);
            var slept := BeginOf(w, start, window, interval, k) - clock - w.overshoot(k - 1);
            && slept <= interval as real && slept <= deadline - clock
            && (slept == interval as real || slept == deadline - clock)
  {
  }

  /** The last sample begins at or after the deadline if and only if the last sleep covered what was
      left of the window. */
  lemma LastSampleBegins(w: World, start: real, window: nat, interval: nat, k: nat)
    requires Causal(w) && k > 0 && EndOf(w, start, window, interval, k - 1) < Deadline(w, start, window)
    ensures BeginOf(w, start, window, interval, k) >= Deadline(w, start, window)
            <==> EndOf(w, start, window, interval, k - 1) + interval as real + w.overshoot(k - 1)
                 >= Deadline(w, start, window)
  {
  }

  /** It may not: with a read longer than the interval the loop accepts a last sample that began
      before the deadline. */
  lemma SlowReadBeginsEarly(version: Snapshot)
    ensures var w := World(_ => version, k => if k == 0 then 0.0 else 2.0, _ => 0.0, _ => 0.0);
            && Causal(w)
            && EndOf(w, 0.0, 2, 1, 0) < Deadline(w, 0.0, 2) <= EndOf(w, 0.0, 2, 1, 1)
            && BeginOf(w, 0.0, 2, 1, 1) < Deadline(w, 0.0, 2)
  {
  }
}
