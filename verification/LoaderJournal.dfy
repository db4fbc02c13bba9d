/** What one pass of a loader process does, from one state between passes to the next, and the
    journal of a process's passes. */
module LoaderJournal {
  import opened Options
  import opened Batching
  import opened LoaderSystem
  import opened LoaderLag
  import opened LoaderPass
  import opened LoaderHealth
  import opened LoaderHeartbeat
  import opened LoaderFlush

  /** What a process is started with; `origin` is what its nanoTime adds to the true time. */
  datatype Setup = Setup(log: Log, max: nat, maxWait: int, origin: int, interval: int)

  /** What one poll gives; `takenAt` is when its record is taken in. */
  datatype Polled = NoRecord | Record(partition: nat, takenAt: int) | PollThrows

  /** What the environment does during one pass of the loop, with the true times of its readings of
      nanoTime.  `outcomes` answers the flushes of full batches in order, `ageOutcomes` the flush by
      age; the process is killed where they run out. */
  datatype PassInput = PassInput(
    polled: Polled, polledAt: int, openAt: int, resetAt: int, checkAt: int,
    outcomes: seq<FlushOutcome>, ageOutcomes: seq<FlushOutcome>, now: int, view: Option<BrokerView>)

  // ----- what one pass does -----

  /** Whether the poll of this pass returns a record. */
  predicate Takes(u: Setup, position: seq<nat>, input: PassInput) {
    && input.polled.Record? && input.polled.partition < |u.log| && input.polled.partition < |position|
    && position[input.polled.partition] < |u.log[input.polled.partition]|
  }

  /** What nanoTime returns at a given true time. */
  function Reading(u: Setup, at: int): int {
    Wrap64(u.origin + at)
  }

  function RecordEffect(u: Setup, position: seq<nat>, held: Held, input: PassInput): PassResult
    requires u.max > 0
  {
    if !Takes(u, position, input) then PassResult([], held)
    else
      var p := input.polled.partition;
      TakeRecord(u.max, held, Source(p, position[p]), FrameBars(u.log[p][position[p]]),
                 Reading(u, input.openAt), Reading(u, input.resetAt))
  }

  /** The pass as LoaderPass describes it. */
  function PassEffect(u: Setup, position: seq<nat>, held: Held, input: PassInput): PassResult
    requires u.max > 0
  {
    CheckAge(u.maxWait, RecordEffect(u, position, held, input), Reading(u, input.checkAt))
  }

  function PositionAfter(u: Setup, position: seq<nat>, input: PassInput): seq<nat> {
    if !Takes(u, position, input) then position
    else position[input.polled.partition := position[input.polled.partition] + 1]
  }

  function TimedOf(u: Setup, position: seq<nat>, input: PassInput): TimedPass {
    var record :=
      if !Takes(u, position, input) then None
      else
        var p := input.polled.partition;
        Some((Source(p, position[p]), FrameBars(u.log[p][position[p]])));
    TimedPass(record, input.polledAt, input.openAt, input.resetAt, input.checkAt)
  }

  // ----- the journal -----

  /** A moment between passes: after `mark` steps of the whole history the loader system is in `state`,
      the process holds `held`, and the reporter remembers the last heartbeat and the last input. */
  datatype Moment = Moment(mark: nat, state: State, held: Held, heartbeatAt: Option<int>, inputAt: Option<int>)

  /** The completed passes: their inputs, the moments before the first and after each, and the
      heartbeat each sent, if any. */
  datatype Journal = Journal(inputs: seq<PassInput>, moments: seq<Moment>, sents: seq<Option<Report>>)

  /** The heartbeat at the end of a pass is sent exactly when one is due and the broker answers, and
      carries the sample and what is buffered at that moment. */
  ghost predicate BeatLink(u: Setup, before: Moment, input: PassInput, after: Moment, sent: Option<Report>) {
    var due := Due(before.heartbeatAt, input.now, u.interval);
    && after.heartbeatAt == (if due then Some(input.now) else before.heartbeatAt)
    && (sent.Some? <==> due && input.view.Some?)
    && (sent.Some? ==>
          && IsSampleOf(input.view.value, sent.value.offsets) && sent.value.now == input.now
          && sent.value.bufferedBars == |after.held.pending|
          && sent.value.bufferedSources == |Sources(after.held.pending)|
          && sent.value.lastInputAt == after.inputAt)
  }

  /** One completed pass, up to its heartbeat. */
  ghost predicate PassLink(u: Setup, before: Moment, input: PassInput, after: Moment, sent: Option<Report>)
    requires u.max > 0
  {
    WorkLink(u, before, input, after) && BeatLink(u, before, input, after, sent)
  }

  /** What a pass does in memory and at the table. */
  ghost predicate WorkLink(u: Setup, before: Moment, input: PassInput, after: Moment)
    requires u.max > 0
  {
    var position := before.state.position;
    var r := PassEffect(u, position, before.held, input);
    && before.mark <= after.mark && BetweenPasses(after.state)
    && after.state.past == before.state.past
    && after.state.position == PositionAfter(u, position, input)
    && after.held == r.held && after.state.pending == r.held.pending
    && after.state.table == before.state.table + Concat(r.flushed)
    && after.inputAt == (if Takes(u, position, input) then Some(input.polled.takenAt) else before.inputAt)
  }

  ghost predicate JournalOk(u: Setup, j: Journal)
    requires u.max > 0
  {
    && |j.moments| == |j.inputs| + 1 == |j.sents| + 1
    && forall k :: 0 <= k < |j.inputs| ==> PassLink(u, j.moments[k], j.inputs[k], j.moments[k + 1], j.sents[k])
  }

  /** The moments are states of the given history. */
  ghost predicate OnSteps(log: Log, max: nat, steps: seq<Step>, moments: seq<Moment>)
    requires max > 0
  {
    forall k :: 0 <= k < |moments| ==>
      moments[k].mark <= |steps| && Executes(log, max, steps[..moments[k].mark], moments[k].state)
  }

  lemma OnMoreSteps(log: Log, max: nat, steps: seq<Step>, more: seq<Step>, moments: seq<Moment>)
    requires max > 0 && OnSteps(log, max, steps, moments) && steps <= more
    ensures OnSteps(log, max, more, moments)
  {
    forall k | 0 <= k < |moments|
      ensures Executes(log, max, more[..moments[k].mark], moments[k].state)
    {
      assert more[..moments[k].mark] == steps[..moments[k].mark];
    }
  }

  function OnePassMore(j: Journal, input: PassInput, after: Moment, sent: Option<Report>): Journal {
    Journal(j.inputs + [input], j.moments + [after], j.sents + [sent])
  }

  lemma JournalGrows(u: Setup, j: Journal, steps: seq<Step>, more: seq<Step>, input: PassInput, after: Moment,
                     sent: Option<Report>)
    requires u.max > 0 && JournalOk(u, j) && OnSteps(u.log, u.max, steps, j.moments) && steps <= more
    requires PassLink(u, j.moments[|j.inputs|], input, after, sent)
    requires after.mark == |more| && Executes(u.log, u.max, more, after.state)
    ensures JournalOk(u, OnePassMore(j, input, after, sent))
    ensures OnSteps(u.log, u.max, more, OnePassMore(j, input, after, sent).moments)
  {
    LinksGrow(u, j, input, after, sent);
    MomentsGrow(u.log, u.max, steps, more, j.moments, after);
  }

  lemma LinksGrow(u: Setup, j: Journal, input: PassInput, after: Moment, sent: Option<Report>)
    requires u.max > 0 && JournalOk(u, j) && PassLink(u, j.moments[|j.inputs|], input, after, sent)
    ensures JournalOk(u, OnePassMore(j, input, after, sent))
  {
    var more := OnePassMore(j, input, after, sent);
    forall k | 0 <= k < |more.inputs|
      ensures PassLink(u, more.moments[k], more.inputs[k], more.moments[k + 1], more.sents[k])
    {
      LinkAt(u, j, input, after, sent, k);
    }
  }

  lemma LinkAt(u: Setup, j: Journal, input: PassInput, after: Moment, sent: Option<Report>, k: nat)
    requires u.max > 0 && JournalOk(u, j) && PassLink(u, j.moments[|j.inputs|], input, after, sent) && k <= |j.inputs|
    ensures var more := OnePassMore(j, input, after, sent);
            PassLink(u, more.moments[k], more.inputs[k], more.moments[k + 1], more.sents[k])
  {
    var more := OnePassMore(j, input, after, sent);
    assert more.moments[k] == j.moments[k];
    if k < |j.inputs| {
      assert more.inputs[k] == j.inputs[k] && more.sents[k] == j.sents[k] && more.moments[k + 1] == j.moments[k + 1];
    } else {
      assert more.inputs[k] == input && more.sents[k] == sent && more.moments[k + 1] == after;
    }
  }

  lemma MomentsGrow(log: Log, max: nat, steps: seq<Step>, more: seq<Step>, moments: seq<Moment>, after: Moment)
    requires max > 0 && OnSteps(log, max, steps, moments) && steps <= more
    requires after.mark == |more| && Executes(log, max, more, after.state)
    ensures OnSteps(log, max, more, moments + [after])
  {
    OnMoreSteps(log, max, steps, more, moments);
    assert more[..|more|] == more;
  }

  /** The journal is right about a history; said of the whole history as a prefix of itself, so that a
      proof unfolds it only where it calls RightMeaning. */
  ghost predicate Right(u: Setup, steps: seq<Step>, j: Journal)
    requires u.max > 0
  {
    forall n :: n == |steps| ==> JournalOk(u, j) && OnSteps(u.log, u.max, steps[..n], j.moments)
  }

  lemma RightMeaning(u: Setup, steps: seq<Step>, j: Journal)
    requires u.max > 0
    ensures Right(u, steps, j) <==> JournalOk(u, j) && OnSteps(u.log, u.max, steps, j.moments)
  {
    assert steps[..|steps|] == steps;
  }

  lemma RightStarts(u: Setup, steps: seq<Step>, first: Moment)
    requires u.max > 0 && first.mark == |steps| && Executes(u.log, u.max, steps, first.state)
    ensures Right(u, steps, Journal([], [first], []))
  {
    assert steps[..|steps|] == steps;
    RightMeaning(u, steps, Journal([], [first], []));
  }

  lemma RightMoreSteps(u: Setup, steps: seq<Step>, more: seq<Step>, j: Journal)
    requires u.max > 0 && Right(u, steps, j) && steps <= more
    ensures Right(u, more, j)
  {
    RightMeaning(u, steps, j);
    OnMoreSteps(u.log, u.max, steps, more, j.moments);
    RightMeaning(u, more, j);
  }

  lemma RightGrows(u: Setup, j: Journal, steps: seq<Step>, more: seq<Step>, input: PassInput, before: Moment,
                   after: Moment, sent: Option<Report>)
    requires u.max > 0 && Right(u, steps, j) && steps <= more
    requires |j.moments| == |j.inputs| + 1 && j.moments[|j.inputs|] == before && PassLink(u, before, input, after, sent)
    requires after.mark == |more| && Executes(u.log, u.max, more, after.state)
    ensures Right(u, more, OnePassMore(j, input, after, sent))
    ensures var grown := OnePassMore(j, input, after, sent);
            |grown.moments| == |grown.inputs| + 1 && grown.moments[|grown.inputs|] == after
            && grown.moments[..|j.moments|] == j.moments
            && Somes(grown.sents) == Somes(j.sents) + if sent.Some? then [sent.value] else []
  {
    RightMeaning(u, steps, j);
    JournalGrows(u, j, steps, more, input, after, sent);
    SomesLast(j.sents, sent);
    RightMeaning(u, more, OnePassMore(j, input, after, sent));
  }

  /** How many of the polls returned a record of partition p. */
  function RecordsOf(inputs: seq<PassInput>, p: nat): nat {
    if inputs == [] then 0
    else
      var last := inputs[|inputs| - 1].polled;
      RecordsOf(inputs[..|inputs| - 1], p) + (if last.Record? && last.partition == p then 1 else 0)
  }

  /** A polled record is taken in: its partition's position moves by one unless the log is exhausted, and
      no other does. */
  lemma RecordIsTaken(u: Setup, before: Moment, input: PassInput, after: Moment, sent: Option<Report>, p: nat)
    requires u.max > 0 && PassLink(u, before, input, after, sent)
    requires p < |u.log| == |before.state.position|
    ensures |after.state.position| == |u.log|
    ensures after.state.position[p]
            == if input.polled.Record? && input.polled.partition == p && before.state.position[p] < |u.log[p]|
               then before.state.position[p] + 1 else before.state.position[p]
  {
  }

  /** Every poll that returned a record moved its partition's position, up to the end of the log. */
  lemma {:induction false} PositionsCount(u: Setup, j: Journal, n: nat, p: nat)
    requires u.max > 0 && JournalOk(u, j) && n <= |j.inputs|
    requires p < |u.log| == |j.moments[0].state.position| && j.moments[0].state.position[p] <= |u.log[p]|
    ensures |j.moments[n].state.position| == |u.log|
    ensures var taken := j.moments[0].state.position[p] + RecordsOf(j.inputs[..n], p);
            j.moments[n].state.position[p] == if taken < |u.log[p]| then taken else |u.log[p]|
  {
    if n > 0 {
      PositionsCount(u, j, n - 1, p);
      assert j.inputs[..n][..n - 1] == j.inputs[..n - 1];
      RecordIsTaken(u, j.moments[n - 1], j.inputs[n - 1], j.moments[n], j.sents[n - 1], p);
    }
  }

  /** A pass an interval or more after the last heartbeat sends one if the broker answers; an earlier
      one sends none, and the last heartbeat stays the last. */
  lemma HeartbeatWhenDue(u: Setup, j: Journal, k: nat, last: int)
    requires u.max > 0 && JournalOk(u, j) && k < |j.inputs| && j.moments[k].heartbeatAt == Some(last)
    ensures j.inputs[k].now - last >= u.interval ==>
              (j.sents[k].Some? <==> j.inputs[k].view.Some?) && j.moments[k + 1].heartbeatAt == Some(j.inputs[k].now)
    ensures j.inputs[k].now - last < u.interval ==> j.sents[k] == None && j.moments[k + 1].heartbeatAt == Some(last)
  {
    assert PassLink(u, j.moments[k], j.inputs[k], j.moments[k + 1], j.sents[k]);
  }

  // ----- the heartbeats of a journal -----

  /** The heartbeats that were sent, in order. */
  function Somes(sents: seq<Option<Report>>): seq<Report> {
    if sents == [] then []
    else
      var last := sents[|sents| - 1];
      Somes(sents[..|sents| - 1]) + (if last.Some? then [last.value] else [])
  }

  lemma SomesLast(sents: seq<Option<Report>>, last: Option<Report>)
    ensures Somes(sents + [last]) == Somes(sents) + if last.Some? then [last.value] else []
  {
    assert (sents + [last])[..|sents|] == sents;
  }

  /** The heartbeat of pass k is the one at its place among those sent. */
  lemma {:induction false} SomesAt(sents: seq<Option<Report>>, k: nat)
    requires k < |sents| && sents[k].Some?
    ensures |Somes(sents[..k])| < |Somes(sents)| && Somes(sents)[|Somes(sents[..k])|] == sents[k].value
  {
    var init := sents[..|sents| - 1];
    if k < |init| {
      SomesAt(init, k);
      assert init[..k] == sents[..k];
    }
  }

  /** Each heartbeat sent is that of some pass, in order. */
  lemma {:induction false} SomesFrom(sents: seq<Option<Report>>, i: nat) returns (k: nat)
    requires i < |Somes(sents)|
    ensures k < |sents| && sents[k] == Some(Somes(sents)[i]) && |Somes(sents[..k])| == i
  {
    var init := sents[..|sents| - 1];
    if i < |Somes(init)| {
      k := SomesFrom(init, i);
      assert init[..k] == sents[..k];
    } else {
      k := |sents| - 1;
    }
  }

  lemma SomesGrow(sents: seq<Option<Report>>, a: nat, b: nat)
    requires a <= b <= |sents|
    ensures |Somes(sents[..a])| <= |Somes(sents[..b])|
    decreases b
  {
    if a < b {
      SomesGrow(sents, a, b - 1);
      assert sents[..b] == sents[..b - 1] + [sents[b - 1]];
      SomesLast(sents[..b - 1], sents[b - 1]);
    }
  }

  // ----- what a process holds -----

  function Passes(u: Setup, j: Journal): seq<TimedPass>
    requires |j.moments| == |j.inputs| + 1
  {
    seq(|j.inputs|, k requires 0 <= k < |j.inputs| => TimedOf(u, j.moments[k].state.position, j.inputs[k]))
  }

  function Helds(j: Journal): seq<Held>
    requires |j.moments| == |j.inputs| + 1
  {
    seq(|j.inputs|, k requires 0 <= k < |j.inputs| => j.moments[k + 1].held)
  }

  /** The passes of a process that started with nothing held leave what it held after each of them. */
  lemma {:induction false} HeldFollows(u: Setup, j: Journal, n: nat)
    requires u.max > 0 && JournalOk(u, j) && n <= |j.inputs| && j.moments[0].held == Held([], CLOSED)
    ensures AgedPasses(u.max, u.maxWait, u.origin, Passes(u, j)[..n]).held == j.moments[n].held
  {
    if n > 0 {
      HeldFollows(u, j, n - 1);
      assert Passes(u, j)[..n][..n - 1] == Passes(u, j)[..n - 1];
      PassHeld(u, j.moments[n - 1], j.inputs[n - 1], j.moments[n], j.sents[n - 1],
               AgedPasses(u.max, u.maxWait, u.origin, Passes(u, j)[..n - 1]));
    }
  }

  lemma PassHeld(u: Setup, before: Moment, input: PassInput, after: Moment, sent: Option<Report>, a: Aged)
    requires u.max > 0 && PassLink(u, before, input, after, sent) && a.held == before.held
    ensures AgedPass(u.max, u.maxWait, u.origin, a, TimedOf(u, before.state.position, input)).held == after.held
  {
  }

  lemma HeldsFollow(u: Setup, j: Journal)
    requires u.max > 0 && JournalOk(u, j) && j.moments[0].held == Held([], CLOSED)
    ensures HeldsAre(u.max, u.maxWait, u.origin, Passes(u, j), Helds(j))
  {
    forall k | 0 <= k < |j.inputs|
      ensures AgedPasses(u.max, u.maxWait, u.origin, Passes(u, j)[..k + 1]).held == Helds(j)[k]
    {
      HeldFollows(u, j, k + 1);
    }
  }
}
