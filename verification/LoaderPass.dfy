/** One pass of the loader's poll loop as far as memory goes: the pending batch and its age
    window (BatchWindow.java, the loop body of Main.java), and how old a bar can get. */
module LoaderPass {
  import opened Options
  import opened Batching

  /** BatchWindow.CLOSED, also a value System.nanoTime() may return. */
  const CLOSED: int := -1

  const TWO_TO_63: int := 0x8000_0000_0000_0000
  const TWO_TO_64: int := 0x1_0000_0000_0000_0000

  /** The Java `long` that equals x modulo 2^64. */
  function Wrap64(x: int): int {
    (x + TWO_TO_63) % TWO_TO_64 - TWO_TO_63
  }

  lemma WrapMeaning(x: int)
    ensures -0x8000_0000_0000_0000 <= Wrap64(x) < 0x8000_0000_0000_0000
    ensures (x - Wrap64(x)) % 0x1_0000_0000_0000_0000 == 0
  {
  }

  class BatchWindow {
    var openedAt: int

    constructor ()
      ensures openedAt == CLOSED
    {
      openedAt := CLOSED;
    }

    method Open(reading: int)
      modifies this
      ensures openedAt == if old(openedAt) == -1 then reading else old(openedAt)
    {
      if openedAt == CLOSED {
        openedAt := reading;
      }
    }

    method Reset(hasRemainder: bool, reading: int)
      modifies this
      ensures openedAt == if hasRemainder then reading else -1
    {
      openedAt := if hasRemainder then reading else CLOSED;
    }

    method Close()
      modifies this
      ensures openedAt == -1
    {
      openedAt := CLOSED;
    }

    predicate Expired(reading: int, maximumAge: int)
      reads this
    {
      IsExpired(openedAt, reading, maximumAge)
    }
  }

  predicate IsExpired(openedAt: int, reading: int, maximumAge: int) {
    openedAt != CLOSED && Wrap64(reading - openedAt) >= maximumAge
  }

  /** What the loop keeps in memory between passes. */
  datatype Held = Held(pending: seq<Entry>, openedAt: int)

  datatype PassResult = PassResult(flushed: seq<Batch>, held: Held)

  /** The part of a pass that takes in one polled record. */
  function TakeRecord(max: nat, held: Held, source: Source, bars: seq<Bar>, openReading: int,
                      resetReading: int): PassResult
    requires max > 0
  {
    var window := if held.pending == [] && bars != [] && held.openedAt == CLOSED then openReading else held.openedAt;
    var stream := held.pending + Tagged(source, bars);
    var full, rest := Blocks(max, stream), Remainder(max, stream);
    PassResult(full, Held(rest, if full == [] then window else if rest != [] then resetReading else CLOSED))
  }

  /** The part of a pass that flushes a partial batch by age. */
  function CheckAge(maxWait: int, r: PassResult, reading: int): PassResult {
    if r.held.pending != [] && IsExpired(r.held.openedAt, reading, maxWait)
    then PassResult(r.flushed + [r.held.pending], Held([], CLOSED))
    else r
  }

  /** The window is open exactly when bars are pending. */
  predicate WindowFits(held: Held) {
    held.pending != [] <==> held.openedAt != CLOSED
  }

  lemma {:induction false} RemainderIsSuffix(size: nat, stream: seq<Entry>)
    requires size > 0
    ensures |Remainder(size, stream)| <= |stream|
    ensures Remainder(size, stream) == stream[|stream| - |Remainder(size, stream)|..]
    decreases |stream|
  {
    if |stream| >= size {
      RemainderIsSuffix(size, stream[size..]);
    }
  }

  lemma RemainderAfterFull(size: nat, before: seq<Entry>, added: seq<Entry>)
    requires size > 0 && |before| < size && Blocks(size, before + added) != []
    ensures |Remainder(size, before + added)| < |added|
    ensures Remainder(size, before + added) == added[|added| - |Remainder(size, before + added)|..]
  {
    RemainderIsSuffix(size, before + added);
    var cut := (before + added)[size..];
    RemainderIsSuffix(size, cut);
  }

  /** After any full batch everything left over belongs to the record just polled. */
  lemma RemainderIsOneSource(max: nat, held: Held, source: Source, bars: seq<Bar>, openReading: int, resetReading: int)
    requires max > 0 && |held.pending| < max
    ensures var r := TakeRecord(max, held, source, bars, openReading, resetReading);
            r.flushed != [] ==> |r.held.pending| < |bars| && forall e :: e in r.held.pending ==> e.source == source
  {
    if Blocks(max, held.pending + Tagged(source, bars)) != [] {
      RemainderAfterFull(max, held.pending, Tagged(source, bars));
    }
  }

  /** A pass keeps window and batch in step if and only if the clock reading it stores, if it
      stores one for a batch that stays pending, is not the CLOSED sentinel. */
  lemma WindowFitsExactly(max: nat, held: Held, source: Source, bars: seq<Bar>, openReading: int, resetReading: int)
    requires max > 0 && |held.pending| < max && WindowFits(held)
    ensures var r := TakeRecord(max, held, source, bars, openReading, resetReading);
            var opens := held.pending == [] && bars != [] && r.flushed == [];
            var resets := r.flushed != [] && r.held.pending != [];
            WindowFits(r.held) <==> !(opens && openReading == CLOSED) && !(resets && resetReading == CLOSED)
  {
    var stream := held.pending + Tagged(source, bars);
    if |stream| < max {
      assert Remainder(max, stream) == stream;
    }
  }

  lemma WrapDifference(a: int, b: int)
    requires -TWO_TO_63 <= a - b < TWO_TO_63
    ensures Wrap64(Wrap64(a) - Wrap64(b)) == a - b
  {
    var i, j := (a + TWO_TO_63) / TWO_TO_64, (b + TWO_TO_63) / TWO_TO_64;
    assert Wrap64(a) == a - i * TWO_TO_64 && Wrap64(b) == b - j * TWO_TO_64;
    var d := a - b + TWO_TO_63;
    assert (d + (j - i) * TWO_TO_64) % TWO_TO_64 == d;
  }

  // ----- how old a pending bar can get -----

  /** A pass with the true times of its clock readings, in nanoseconds of some common clock;
      nanoTime reads that clock plus an arbitrary origin, as a `long`. */
  datatype TimedPass = TimedPass(record: Option<(Source, seq<Bar>)>, polledAt: int, openAt: int, resetAt: int,
                                 checkAt: int)

  /** What is held, and beside it when each pending bar was polled. */
  datatype Aged = Aged(held: Held, stamps: seq<int>)

  /** The pass up to its age check. */
  function TakenUp(max: nat, origin: int, held: Held, pass: TimedPass): PassResult
    requires max > 0
  {
    if pass.record == None then PassResult([], held)
    else TakeRecord(max, held, pass.record.value.0, pass.record.value.1,
                    Wrap64(origin + pass.openAt), Wrap64(origin + pass.resetAt))
  }

  /** When each bar held so far was polled, those of the pass's record last. */
  function StampsWith(stamps: seq<int>, pass: TimedPass): seq<int> {
    stamps + (if pass.record == None then [] else seq(|pass.record.value.1|, _ => pass.polledAt))
  }

  function AgedPass(max: nat, maxWait: int, origin: int, a: Aged, pass: TimedPass): Aged
    requires max > 0
  {
    var held := CheckAge(maxWait, TakenUp(max, origin, a.held, pass), Wrap64(origin + pass.checkAt)).held;
    var stamps := StampsWith(a.stamps, pass);
    Aged(held, if |held.pending| <= |stamps| then stamps[|stamps| - |held.pending|..] else [])
  }

  function AgedPasses(max: nat, maxWait: int, origin: int, passes: seq<TimedPass>): Aged
    requires max > 0
  {
    if passes == [] then Aged(Held([], CLOSED), [])
    else AgedPass(max, maxWait, origin, AgedPasses(max, maxWait, origin, passes[..|passes| - 1]), passes[|passes| - 1])
  }

  /** Times do not run backwards, the run is shorter than 2^63 ns, a pass takes at most `longest`
      up to its window reset, and the window is never stored as the sentinel. */
  ghost predicate Timely(origin: int, longest: int, passes: seq<TimedPass>) {
    && (forall k :: 0 <= k < |passes| ==>
          && passes[k].polledAt <= passes[k].openAt <= passes[k].resetAt <= passes[k].checkAt
          && passes[k].resetAt - passes[k].polledAt <= longest
          && Wrap64(origin + passes[k].openAt) != CLOSED && Wrap64(origin + passes[k].resetAt) != CLOSED)
    && (forall i, j :: 0 <= i < j < |passes| ==> passes[i].checkAt <= passes[j].polledAt)
    && (forall i, j :: 0 <= i <= j < |passes| ==> passes[j].checkAt - passes[i].polledAt < TWO_TO_63)
  }

  /** The window was opened at `at`, at most `longest` after the oldest pending bar was polled. */
  ghost predicate OpenedAt(origin: int, longest: int, a: Aged, at: int) {
    && |a.stamps| == |a.held.pending| > 0
    && a.held.openedAt == Wrap64(origin + at)
    && a.stamps[0] <= at <= a.stamps[0] + longest
  }

  /** Where the oldest bar of what stays pending comes from, and which reading its window holds. */
  lemma OldestAfterRecord(max: nat, held: Held, source: Source, bars: seq<Bar>, openReading: int, resetReading: int,
                          stamps: seq<int>, polledAt: int)
    requires max > 0 && |held.pending| < max && |stamps| == |held.pending| && WindowFits(held)
    requires openReading != CLOSED && resetReading != CLOSED
    ensures var r := TakeRecord(max, held, source, bars, openReading, resetReading);
            var all := stamps + seq(|bars|, _ => polledAt);
            var kept := |r.held.pending|;
            && kept <= |all| && kept < max && WindowFits(r.held)
            && (kept > 0 ==>
                  if r.flushed == [] && held.pending != []
                  then all[|all| - kept] == stamps[0] && r.held.openedAt == held.openedAt
                  else all[|all| - kept] == polledAt
                       && r.held.openedAt == if r.flushed == [] then openReading else resetReading)
  {
    var added := Tagged(source, bars);
    var r := TakeRecord(max, held, source, bars, openReading, resetReading);
    WindowFitsExactly(max, held, source, bars, openReading, resetReading);
    RemainderIsSuffix(max, held.pending + added);
    if r.flushed != [] {
      RemainderAfterFull(max, held.pending, added);
    } else {
      assert r.held.pending == held.pending + added;
    }
  }

  lemma UnexpiredIsYoung(origin: int, at: int, checkAt: int, maxWait: int)
    requires at <= checkAt < at + TWO_TO_63 && Wrap64(origin + at) != CLOSED
    requires !IsExpired(Wrap64(origin + at), Wrap64(origin + checkAt), maxWait)
    ensures checkAt - at < maxWait
  {
    WrapDifference(origin + checkAt, origin + at);
  }

  /** What AgeBound keeps from pass to pass. */
  ghost predicate Young(max: nat, maxWait: int, origin: int, longest: int, a: Aged, at: int, checkAt: int) {
    && |a.held.pending| < max && |a.stamps| == |a.held.pending| && WindowFits(a.held)
    && (a.held.pending != [] ==> OpenedAt(origin, longest, a, at) && at <= checkAt && checkAt - at < maxWait)
  }

  /** A polled record keeps the window in step with the oldest bar. */
  lemma RecordKeepsOpen(max: nat, maxWait: int, origin: int, longest: int, a: Aged, pass: TimedPass, at: int,
                        since: int)
    returns (at': int)
    requires max > 0 && Young(max, maxWait, origin, longest, a, at, since) && since <= pass.polledAt
    requires pass.polledAt <= pass.openAt <= pass.resetAt <= pass.checkAt && pass.resetAt <= pass.polledAt + longest
    requires Wrap64(origin + pass.openAt) != CLOSED && Wrap64(origin + pass.resetAt) != CLOSED && pass.record.Some?
    ensures var r := TakeRecord(max, a.held, pass.record.value.0, pass.record.value.1,
                                Wrap64(origin + pass.openAt), Wrap64(origin + pass.resetAt)).held;
            var all := a.stamps + seq(|pass.record.value.1|, _ => pass.polledAt);
            var kept := |r.pending|;
            && kept <= |all| && kept < max && WindowFits(r)
            && (kept > 0 ==>
                  r.openedAt == Wrap64(origin + at') && all[|all| - kept] <= at' <= all[|all| - kept] + longest)
            && (a.held.pending == [] && kept > 0 ==> pass.polledAt <= at' <= pass.checkAt)
    ensures at' == at || pass.polledAt <= at' <= pass.checkAt
  {
    at' := at;
    var (source, bars) := pass.record.value;
    var open, reset := Wrap64(origin + pass.openAt), Wrap64(origin + pass.resetAt);
    OldestAfterRecord(max, a.held, source, bars, open, reset, a.stamps, pass.polledAt);
    var r := TakeRecord(max, a.held, source, bars, open, reset);
    if r.flushed != [] {
      at' := pass.resetAt;
    } else if a.held.pending == [] {
      at' := pass.openAt;
    }
  }

  lemma PassKeepsYoung(max: nat, maxWait: int, origin: int, longest: int, a: Aged, pass: TimedPass, at: int, since: int)
    returns (at': int)
    requires max > 0 && Young(max, maxWait, origin, longest, a, at, since) && since <= pass.polledAt
    requires pass.polledAt <= pass.openAt <= pass.resetAt <= pass.checkAt && pass.resetAt <= pass.polledAt + longest
    requires Wrap64(origin + pass.openAt) != CLOSED && Wrap64(origin + pass.resetAt) != CLOSED
    requires pass.checkAt - pass.polledAt < TWO_TO_63
    requires a.held.pending != [] ==> pass.checkAt - at < TWO_TO_63
    ensures Young(max, maxWait, origin, longest, AgedPass(max, maxWait, origin, a, pass), at', pass.checkAt)
    ensures at' == at || pass.polledAt <= at' <= pass.checkAt
    ensures a.held.pending == [] && AgedPass(max, maxWait, origin, a, pass).held.pending != [] ==> at' >= pass.polledAt
  {
    at' := at;
    if pass.record.Some? {
      at' := RecordKeepsOpen(max, maxWait, origin, longest, a, pass, at, since);
    }
    if AgedPass(max, maxWait, origin, a, pass).held.pending != [] {
      UnexpiredIsYoung(origin, at', pass.checkAt, maxWait);
    }
  }

  /** Age bound: at every age check that leaves bars pending, the oldest of them was polled less
      than maxWait plus one pass earlier. */
  lemma AgeBound(max: nat, maxWait: int, origin: int, longest: int, passes: seq<TimedPass>)
    requires max > 0 && Timely(origin, longest, passes) && passes != []
    ensures var a := AgedPasses(max, maxWait, origin, passes);
            && WindowFits(a.held) && |a.stamps| == |a.held.pending| < max
            && (a.held.pending != [] ==> passes[|passes| - 1].checkAt - a.stamps[0] < maxWait + longest)
  {
    var at := WindowTime(max, maxWait, origin, longest, passes);
  }

  lemma {:induction false} WindowTime(max: nat, maxWait: int, origin: int, longest: int, passes: seq<TimedPass>)
    returns (at: int)
    requires max > 0 && Timely(origin, longest, passes) && passes != []
    ensures var a := AgedPasses(max, maxWait, origin, passes);
            && Young(max, maxWait, origin, longest, a, at, passes[|passes| - 1].checkAt)
            && (a.held.pending != [] ==> passes[0].polledAt <= at)
  {
    var init, pass := passes[..|passes| - 1], passes[|passes| - 1];
    var before := AgedPasses(max, maxWait, origin, init);
    TimelyPrefix(origin, longest, passes);
    if init == [] {
      at := PassKeepsYoung(max, maxWait, origin, longest, before, pass, 0, pass.polledAt);
    } else {
      at := WindowTime(max, maxWait, origin, longest, init);
      at := PassKeepsYoung(max, maxWait, origin, longest, before, pass, at, init[|init| - 1].checkAt);
    }
  }

  /** A flush by age is due: the window was opened at `at`, and maxWait has passed since. */
  lemma FlushedIsOld(maxWait: int, origin: int, r: PassResult, at: int, checkAt: int)
    requires r.held.openedAt == Wrap64(origin + at) && at <= checkAt < at + TWO_TO_63
    requires CheckAge(maxWait, r, Wrap64(origin + checkAt)) != r
    ensures checkAt - at >= maxWait
  {
    WrapDifference(origin + checkAt, origin + at);
  }

  /** What is pending at the age check of a pass was opened at or after its oldest bar was polled. */
  lemma OpenAtCheck(max: nat, maxWait: int, origin: int, longest: int, a: Aged, pass: TimedPass, at: int, since: int)
    returns (at': int)
    requires max > 0 && Young(max, maxWait, origin, longest, a, at, since) && since <= pass.polledAt
    requires pass.polledAt <= pass.openAt <= pass.resetAt <= pass.checkAt && pass.resetAt <= pass.polledAt + longest
    requires Wrap64(origin + pass.openAt) != CLOSED && Wrap64(origin + pass.resetAt) != CLOSED
    requires pass.checkAt - pass.polledAt < TWO_TO_63
    requires a.held.pending != [] ==> pass.checkAt - at < TWO_TO_63
    ensures var r, all := TakenUp(max, origin, a.held, pass).held, StampsWith(a.stamps, pass);
            r.pending != [] ==>
              && |r.pending| <= |all| && r.openedAt == Wrap64(origin + at')
              && all[|all| - |r.pending|] <= at' <= pass.checkAt < at' + TWO_TO_63
  {
    at' := at;
    if pass.record.Some? {
      at' := RecordKeepsOpen(max, maxWait, origin, longest, a, pass, at, since);
    }
  }

  lemma PassFlushIsDue(max: nat, maxWait: int, origin: int, longest: int, a: Aged, pass: TimedPass, at: int, since: int)
    requires max > 0 && Young(max, maxWait, origin, longest, a, at, since) && since <= pass.polledAt
    requires pass.polledAt <= pass.openAt <= pass.resetAt <= pass.checkAt && pass.resetAt <= pass.polledAt + longest
    requires Wrap64(origin + pass.openAt) != CLOSED && Wrap64(origin + pass.resetAt) != CLOSED
    requires pass.checkAt - pass.polledAt < TWO_TO_63
    requires a.held.pending != [] ==> pass.checkAt - at < TWO_TO_63
    ensures DueIfFlushed(maxWait, TakenUp(max, origin, a.held, pass).held.pending,
                         AgedPass(max, maxWait, origin, a, pass).held.pending, StampsWith(a.stamps, pass), pass.checkAt)
  {
    var at' := OpenAtCheck(max, maxWait, origin, longest, a, pass, at, since);
    var r := TakenUp(max, origin, a.held, pass);
    if r.held.pending != [] && AgedPass(max, maxWait, origin, a, pass).held.pending != r.held.pending {
      FlushedIsOld(maxWait, origin, r, at', pass.checkAt);
    }
  }

  /** If an age check leaves other bars pending than it found, the oldest it found, the first of which
      was polled at the first of the last stamps, had waited maxWait. */
  predicate DueIfFlushed(maxWait: int, found: seq<Entry>, left: seq<Entry>, stamps: seq<int>, checkAt: int) {
    found != [] && left != found ==> |found| <= |stamps| && checkAt - stamps[|stamps| - |found|] >= maxWait
  }

  /** No flush by age comes early: if a pass's age check flushes what is pending, the oldest of it was
      polled at least maxWait before. */
  lemma AgeFlushIsDue(max: nat, maxWait: int, origin: int, longest: int, passes: seq<TimedPass>)
    requires max > 0 && Timely(origin, longest, passes) && passes != []
    ensures var pass, a := passes[|passes| - 1], AgedPasses(max, maxWait, origin, passes[..|passes| - 1]);
            DueIfFlushed(maxWait, TakenUp(max, origin, a.held, pass).held.pending,
                         AgedPasses(max, maxWait, origin, passes).held.pending,
                         StampsWith(a.stamps, pass), pass.checkAt)
  {
    var init, pass := passes[..|passes| - 1], passes[|passes| - 1];
    var a := AgedPasses(max, maxWait, origin, init);
    TimelyPrefix(origin, longest, passes);
    if init == [] {
      PassFlushIsDue(max, maxWait, origin, longest, a, pass, 0, pass.polledAt);
    } else {
      var at := WindowTime(max, maxWait, origin, longest, init);
      PassFlushIsDue(max, maxWait, origin, longest, a, pass, at, init[|init| - 1].checkAt);
    }
  }

  lemma TimelyPrefix(origin: int, longest: int, passes: seq<TimedPass>)
    requires Timely(origin, longest, passes) && passes != []
    ensures var init, pass := passes[..|passes| - 1], passes[|passes| - 1];
            && Timely(origin, longest, init)
            && pass.polledAt <= pass.openAt <= pass.resetAt <= pass.checkAt && pass.resetAt <= pass.polledAt + longest
            && Wrap64(origin + pass.openAt) != CLOSED && Wrap64(origin + pass.resetAt) != CLOSED
            && pass.checkAt - passes[0].polledAt < TWO_TO_63 && pass.checkAt - pass.polledAt < TWO_TO_63
            && (init != [] ==> init[0] == passes[0] && init[|init| - 1].checkAt <= pass.polledAt
                               && passes[0].polledAt <= pass.polledAt)
  {
    TimelyFirst(origin, longest, passes, |passes| - 1);
  }

  // ----- what a process holds after each of its passes -----

  /** helds[k] is what is held after pass k. */
  ghost predicate HeldsAre(max: nat, maxWait: int, origin: int, passes: seq<TimedPass>, helds: seq<Held>)
    requires max > 0
  {
    && |helds| == |passes|
    && forall k :: 0 <= k < |passes| ==> AgedPasses(max, maxWait, origin, passes[..k + 1]).held == helds[k]
  }

  /** After every pass, the oldest bar a process holds was polled less than maxWait plus one pass
      before the age check. */
  lemma HeldIsYoung(max: nat, maxWait: int, origin: int, longest: int, passes: seq<TimedPass>, helds: seq<Held>, k: nat)
    requires max > 0 && HeldsAre(max, maxWait, origin, passes, helds) && k < |passes| && Timely(origin, longest, passes)
    ensures var a := AgedPasses(max, maxWait, origin, passes[..k + 1]);
            && a.held == helds[k] && WindowFits(helds[k]) && |a.stamps| == |helds[k].pending| < max
            && (helds[k].pending != [] ==> passes[k].checkAt - a.stamps[0] < maxWait + longest)
  {
    TimelyFirst(origin, longest, passes, k + 1);
    AgeBound(max, maxWait, origin, longest, passes[..k + 1]);
  }

  lemma TimelyFirst(origin: int, longest: int, passes: seq<TimedPass>, n: nat)
    requires n <= |passes| && Timely(origin, longest, passes)
    ensures Timely(origin, longest, passes[..n])
  {
    var first := passes[..n];
    assert forall k :: 0 <= k < n ==> first[k] == passes[k];
  }
}
