/** The loader process itself (Main.java): the poll loop as imperative code, proved to take only
    steps of the loader system. */
module LoaderMain {
  import opened Options
  import opened Batching
  import opened LoaderSystem
  import opened LoaderSafety
  import opened LoaderPass
  import opened LoaderHealth
  import opened LoaderLag
  import opened LoaderHeartbeat
  import opened LoaderFlush
  import opened LoaderJournal
  import LoaderReplay

  /** How a process ends: `main` returns, a flush throws, a record does not decode, the poll throws, or
      it was killed. */
  datatype Ending = Finished | FlushFailed(failure: CommitFailure) | Undecodable | PollFailed | WasKilled

  predicate Succeeds(outcome: FlushOutcome) {
    outcome.append.AppendSucceeds? && outcome.sync.SyncSucceeds?
  }

  predicate AllSucceed(outcomes: seq<FlushOutcome>) {
    forall o :: o in outcomes ==> Succeeds(o)
  }

  /** Nothing goes wrong in the pass: whatever it has to flush is answered, and answered with success.
      A record completes at most one batch per bar. */
  predicate GoesWell(log: Log, input: PassInput) {
    && !input.polled.PollThrows?
    && AllSucceed(input.outcomes) && AllSucceed(input.ageOutcomes) && input.ageOutcomes != []
    && forall p, o :: 0 <= p < |log| && 0 <= o < |log[p]| ==> |FrameBars(log[p][o])| <= |input.outcomes|
  }

  /** Nothing goes wrong at all: every record decodes, every flush succeeds, the process is not killed. */
  predicate AllGoesWell(log: Log, script: seq<PassInput>, graceful: bool, lastOutcomes: seq<FlushOutcome>) {
    && graceful && AllDecode(log) && (forall i :: i in script ==> GoesWell(log, i))
    && AllSucceed(lastOutcomes) && lastOutcomes != []
  }

  /** Everything polled that has bars is committed, and no row was written beyond what is committed. */
  ghost predicate AllSettled(log: Log, position: seq<nat>, committed: seq<nat>, rows: seq<Entry>) {
    && |position| == |committed| == |log| && Uncovered(rows, committed) == []
    && forall p, o :: 0 <= p < |log| && 0 <= o < position[p] && o < |log[p]| && FrameBars(log[p][o]) != []
                      ==> o < committed[p]
  }

  /** Where nothing is held any more, everything is settled. */
  lemma NothingHeld(log: Log, max: nat, steps: seq<Step>, s: State)
    requires max > 0 && Executes(log, max, steps, s) && BetweenPasses(s) && s.pending == []
    ensures AllSettled(log, s.position, s.committed, s.settled + s.syncing)
  {
    ExecutesMeaning(log, max, steps, s);
    ReachableInv(log, max, steps);
    assert Ahead(s) == [] && s.settled + s.syncing == s.settled;
    LoaderReplay.UncoveredNone(s.settled, s.committed);
    forall p, o | 0 <= p < |log| && 0 <= o < s.position[p] && o < |log[p]| && FrameBars(log[p][o]) != []
      ensures o < s.committed[p]
    {
      BufferedExactly(log, max, s, Source(p, o));
    }
  }

  lemma NoBarsNoEntries(log: Log, p: nat, a: nat, b: nat)
    requires p < |log| && a <= b <= |log[p]| && forall o :: a <= o < b ==> FrameBars(log[p][o]) == []
    ensures Range(log, p, a, b) == []
  {
    if Range(log, p, a, b) != [] {
      RangeAt(log, p, a, b, 0);
    }
  }

  /** Where nothing is held any more, every bar polled is in the table. */
  lemma AllDelivered(log: Log, max: nat, steps: seq<Step>, s: State)
    requires max > 0 && Executes(log, max, steps, s) && BetweenPasses(s) && s.pending == []
    ensures |log| > 0 ==> Delivered(log, s.position, s.table)
  {
    NothingHeld(log, max, steps, s);
    ExecutedIsDelivered(log, max, steps, s);
    PositionsInLog(log, max, steps, s);
    forall p | 0 <= p < |log|
      ensures multiset(Range(log, p, 0, s.position[p])) <= multiset(s.table)
    {
      NoBarsNoEntries(log, p, s.committed[p], s.position[p]);
      RangeSplit(log, p, 0, s.committed[p], s.position[p]);
    }
  }

  lemma PositionsInLog(log: Log, max: nat, steps: seq<Step>, s: State)
    requires max > 0 && Executes(log, max, steps, s)
    ensures |s.position| == |s.committed| == |log|
    ensures forall p :: 0 <= p < |log| ==> s.committed[p] <= s.position[p] <= |log[p]|
  {
    ExecutesMeaning(log, max, steps, s);
    ReachableInv(log, max, steps);
  }

  /** The state a process is started in: nothing polled that is not committed, nothing in memory. */
  ghost predicate StartsFresh(log: Log, s: State) {
    && s.position == s.committed && s.handed == [] && s.syncing == [] && s.pending == [] && s.settled == []
    && |s.produced| == |s.committed| == |log|
    && forall p :: 0 <= p < |log| ==> s.committed[p] <= s.produced[p] <= |log[p]|
  }

  /** One incarnation more than before. */
  predicate OneMore(before: seq<Epoch>, after: seq<Epoch>) {
    |after| == |before| + 1 && after[..|before|] == before
  }

  /** One loader process: the loop's local state, the systems it talks to, and as ghost state
      the steps of the loader system taken since the first process started. */
  class LoaderProcess {
    const log: Log
    const max: nat
    const maxWait: int
    const origin: int                    // what nanoTime adds to the true time
    const batch: BoundedBatch
    const window: BatchWindow
    const broker: Broker
    const writer: IcebergWriter
    const health: LoaderHealthReporter
    var position: seq<nat>
    ghost var steps: seq<Step>
    ghost var state: State
    ghost const earlier: seq<Batch>      // finished flushes of earlier processes
    ghost var flushed: seq<Batch>        // finished flushes of this one
    ghost const start: State             // the state it was started in
    ghost var reports: seq<Report>       // its sampled heartbeats
    ghost var journal: Journal           // its completed passes

    ghost predicate Tracks()
      reads this, batch, broker, writer
    {
      && max > 0 && batch.maximumRecords == max && batch.Valid()
      && Executes(log, max, steps, state) && FlushedAre(log, max, steps, earlier + flushed)
      && broker.committed == state.committed && writer.table == state.table
    }

    /** What the process has reported is true of its flushes, and `reports` are its heartbeats. */
    ghost predicate Told()
      reads this`flushed, this`reports, health
    {
      ToldWith(flushed)
    }

    ghost predicate ToldWith(finished: seq<Batch>)
      reads this`reports, health
    {
      health.Consistent() && Reported(health.output, finished, reports)
    }

    /** The same, and no flush is running. */
    ghost predicate Reporting()
      reads this`flushed, this`reports, health
    {
      Told() && !health.committing
    }

    /** Between flushes the object's fields are the process part of `state`. */
    ghost predicate Running()
      reads this, batch, broker, writer
    {
      && Tracks()
      && state.syncing == [] && state.pending == batch.pending && state.position == position && state.past == start.past
      && |position| == |state.produced| == |log|
      && forall p :: 0 <= p < |log| ==> position[p] <= state.produced[p] <= |log[p]|
    }

    /** The process has ended; `state` is that of a fresh process started in its place. */
    ghost predicate Ended()
      reads this, batch, broker, writer
    {
      && Tracks()
      && steps != [] && steps[|steps| - 1].Crash? && OneMore(start.past, state.past)
    }

    function Sheet(): Setup {
      Setup(log, max, maxWait, origin, health.heartbeatInterval)
    }

    /** The present moment, between passes. */
    ghost function Now(): Moment
      reads this, batch, window, health
    {
      Moment(|steps|, state, Held(batch.pending, window.openedAt), health.lastHeartbeatAt, health.lastInputAt)
    }

    /** The journal is right about the passes completed so far and the heartbeats they sent. */
    ghost predicate Journaled()
      reads this`journal, this`steps, this`reports
    {
      && max > 0 && Right(Sheet(), steps, journal) && |journal.moments| == |journal.inputs| + 1
      && Somes(journal.sents) == reports
    }

    /** The loop is between two passes, the journal is up to date. */
    ghost predicate AtRest()
      reads this, batch, window, broker, writer, health
    {
      && Running() && state.handed == [] && Reporting() && Journaled()
      && journal.moments[|journal.inputs|] == Now()
    }

    constructor (log: Log, max: nat, maxWait: int, origin: int, broker: Broker, writer: IcebergWriter,
                 health: LoaderHealthReporter, ghost history: seq<Step>, ghost before: State)
      requires max > 0 && Executes(log, max, history, before) && StartsFresh(log, before)
      requires before.committed == broker.committed && before.table == writer.table
      requires health.output == [] && !health.committing && health.Consistent()
      ensures Running() && Reporting() && state == before && start == before && steps == history && state.handed == []
      ensures earlier == Flushed(log, max, history) && flushed == [] && reports == []
      ensures this.log == log && this.max == max && this.maxWait == maxWait && this.origin == origin
      ensures this.broker == broker && this.writer == writer && this.health == health
      ensures fresh(batch) && fresh(window) && batch.pending == [] && window.openedAt == CLOSED
    {
      this.log, this.max, this.maxWait, this.origin := log, max, maxWait, origin;
      this.broker, this.writer, this.health := broker, writer, health;
      position := broker.committed;
      batch := new BoundedBatch(max);
      window := new BatchWindow();
      steps, state := history, before;
      start, earlier, flushed, reports := before, Flushed(log, max, history), [], [];
      journal := Journal([], [], []);
      FlushedMeaning(log, max, history, Flushed(log, max, history) + []);
      ReportedMeaning([], [], []);
    }

    ghost method Take(step: Step)
      requires max > 0 && Executes(log, max, steps, state) && Enabled(log, state, step)
      requires FlushedAre(log, max, steps, earlier + flushed)
      modifies this`steps, this`state, this`flushed
      ensures steps == old(steps) + [step] && state == Apply(log, max, old(state), step)
      ensures flushed == old(flushed) + if step.Commit? then [old(state).syncing] else []
      ensures Executes(log, max, steps, state) && FlushedAre(log, max, steps, earlier + flushed)
    {
      ExecutesStep(log, max, steps, state, step);
      FlushedStep(log, max, steps, state, step, earlier + flushed);
      flushed := flushed + if step.Commit? then [state.syncing] else [];
      state := Apply(log, max, state, step);
      steps := steps + [step];
    }

    /** `flush`, with what it reports: one more finished flush, a failure, or nothing more. */
    method FlushReported(next: Batch, outcome: FlushOutcome) returns (call: Completion<()>)
      requires Reporting() && next != []
      modifies broker, writer, health`output, health`committing, health`lastCommit
      ensures call == FlushCall(next, outcome)
      ensures writer.table == old(writer.table) + (if Applied(outcome.append) then next else [])
      ensures broker.committed
              == if Sends(next, outcome) then Advance(old(broker.committed), CommittedBy(next, outcome))
                 else old(broker.committed)
      ensures ToldWith(if call.Returned? then flushed + [next] else flushed)
      ensures health.committing == call.Killed?
    {
      ReportedFlush(health.output, next, FlushCall(next, outcome), flushed, reports);
      call := Flush(broker, writer, health, next, outcome);
    }

    /** The steps of a flush: append then commit, or a crash in between. */
    ghost method TakeFlush(next: Batch, outcome: FlushOutcome)
      requires max > 0 && Executes(log, max, steps, state) && FlushedAre(log, max, steps, earlier + flushed)
      requires state.handed != [] && state.handed[0] == next && state.syncing == [] && next != []
      modifies this`steps, this`state, this`flushed
      ensures Executes(log, max, steps, state) && FlushedAre(log, max, steps, earlier + flushed)
      ensures old(steps) < steps
      ensures FlushCall(next, outcome).Returned? ==>
        && steps == old(steps) + [Append, Commit] && flushed == old(flushed) + [next]
        && state == old(state).(
             table := old(state).table + next, handed := old(state).handed[1..], settled := old(state).settled + next,
             committed := Advance(old(state).committed, FinalOffsets(next)))
      ensures !FlushCall(next, outcome).Returned? ==>
        && steps[|steps| - 1].Crash? && flushed == old(flushed) && OneMore(old(state).past, state.past)
        && state.table == old(state).table + (if Applied(outcome.append) then next else [])
        && state.committed == if Sends(next, outcome) then Advance(old(state).committed, CommittedBy(next, outcome))
                              else old(state).committed
    {
      AdvanceByNothing(state.committed, FinalOffsets(state.syncing));
      if !outcome.append.AppendSucceeds? {
        Take(Crash(Applied(outcome.append), {}));
        return;
      }
      Take(Append);
      if FlushCall(next, outcome).Returned? {
        Take(Commit);
        assert steps == old(steps) + [Append, Commit];
      } else {
        FailedCommitStep(log, max, state, outcome.sync.partial);
        Take(Crash(false, outcome.sync.partial * FinalOffsets(next).Keys));
      }
    }

    /** Flushes the next batch handed out. */
    method FlushNext(next: Batch, outcome: FlushOutcome) returns (end: Option<Ending>)
      requires Running() && state.handed != [] && state.handed[0] == next && next != []
      requires Reporting()
      modifies this`steps, this`state, this`flushed, broker, writer, health`output, health`committing, health`lastCommit
      ensures Told() && flushed == old(flushed) + if end == None then [next] else []
      ensures end == match FlushCall(next, outcome)
                     case Returned(_) => None
                     case Threw(failure) => Some(FlushFailed(failure))
                     case Killed => Some(WasKilled)
      ensures end == None ==> Running() && Reporting() && state == old(state).(
                table := old(state).table + next, handed := old(state).handed[1..],
                settled := old(state).settled + next,
                committed := Advance(old(state).committed, FinalOffsets(next)))
      ensures end == None ==> steps == old(steps) + [Append, Commit]
      ensures old(steps) <= steps
      ensures end != None ==> Ended()
    {
      AdvanceByNothing(state.committed, FinalOffsets(next));
      var call := FlushReported(next, outcome);
      TakeFlush(next, outcome);
      match call
      case Returned(_) => end := None;
      case Threw(failure) => end := Some(FlushFailed(failure));
      case Killed => end := Some(WasKilled);
    }

    /** The same, as far as the loops around it need to know. */
    method FlushFirst(next: Batch, outcome: FlushOutcome) returns (end: Option<Ending>)
      requires Running() && state.handed != [] && state.handed[0] == next && next != [] && Reporting()
      modifies this`steps, this`state, this`flushed, broker, writer, health`output, health`committing, health`lastCommit
      ensures Told() && old(steps) <= steps
      ensures end != None ==> Ended() && end != Some(Finished) && end != Some(Undecodable)
      ensures Succeeds(outcome) ==> end == None
      ensures end == None ==> Running() && Reporting() && batch.pending == old(batch.pending)
                              && state.handed == old(state).handed[1..]
                              && writer.table == old(writer.table) + next
    {
      end := FlushNext(next, outcome);
    }

    /** The process dies here without another effect. */
    ghost method Die()
      requires Running()
      modifies this`steps, this`state, this`flushed
      ensures Ended() && old(steps) <= steps && flushed == old(flushed)
      ensures state.committed == old(state).committed && state.table == old(state).table
      ensures state.past == old(state).past + [Epoch(old(state).start, old(state).committed,
                                                     old(state).settled + old(state).syncing, |old(state).settled|)]
    {
      AdvanceByNothing(state.committed, FinalOffsets(state.syncing));
      assert state.settled + state.syncing + [] == state.settled + state.syncing;
      Take(Crash(false, {}));
    }

    /** Flushes the next batch with answer i; the process is killed where the answers run out. */
    method FlushOrDie(next: Batch, outcomes: seq<FlushOutcome>, i: nat) returns (end: Option<Ending>)
      requires Running() && state.handed != [] && state.handed[0] == next && next != [] && Reporting()
      modifies this`steps, this`state, this`flushed, broker, writer, health`output, health`committing, health`lastCommit
      ensures Told() && old(steps) <= steps
      ensures end != None ==> Ended() && end != Some(Finished) && end != Some(Undecodable)
      ensures AllSucceed(outcomes) && i < |outcomes| ==> end == None
      ensures end == None ==> Running() && Reporting() && batch.pending == old(batch.pending)
                              && state.handed == old(state).handed[1..]
                              && writer.table == old(writer.table) + next
    {
      if i >= |outcomes| {
        Die();
        return Some(WasKilled);
      }
      assert outcomes[i] in outcomes;
      end := FlushFirst(next, outcomes[i]);
    }

    /** The loop over `fullBatches`. */
    method FlushFull(full: seq<Batch>, outcomes: seq<FlushOutcome>) returns (end: Option<Ending>)
      requires Running() && state.handed == full && forall b :: b in full ==> b != []
      requires Reporting()
      modifies this`steps, this`state, this`flushed, broker, writer, health`output, health`committing, health`lastCommit
      ensures Told() && old(steps) <= steps
      ensures end != None ==> Ended() && end != Some(Finished) && end != Some(Undecodable)
      ensures AllSucceed(outcomes) && |full| <= |outcomes| ==> end == None
      ensures end == None ==> Running() && Reporting() && state.handed == []
                              && writer.table == old(writer.table) + Concat(full)
    {
      for i := 0 to |full|
        invariant Running() && state.handed == full[i..]
        invariant writer.table == old(writer.table) + Concat(full[..i])
        invariant Reporting()
        invariant old(steps) <= steps
      {
        assert full[i] in full;
        end := FlushOrDie(full[i], outcomes, i);
        if end != None {
          return;
        }
        ConcatSnoc(full, i);
      }
      assert full[..|full|] == full;
      return None;
    }

    /** Takes in one polled record: the body of the loop over `records`. */
    method TakePolled(p: nat, takenAt: int, openReading: int, resetReading: int, outcomes: seq<FlushOutcome>)
      returns (end: Option<Ending>)
      requires Running() && state.handed == [] && p < |log| && position[p] < |log[p]|
      requires Reporting()
      modifies this`position, this`steps, this`state, this`flushed, batch, window
      modifies broker, writer, health`output, health`committing, health`lastCommit, health`lastInputAt
      ensures Told() && old(steps) <= steps
      ensures health.lastInputAt == Some(takenAt)
      ensures end != None ==> Ended() && end != Some(Finished)
                              && position in {old(position), old(position)[p := old(position)[p] + 1]}
      ensures AllSucceed(outcomes) && log[p][old(position)[p]].Bars? && |log[p][old(position)[p]].bars| <= |outcomes|
              ==> end == None
      ensures end == None ==>
        && Running() && Reporting() && state.handed == []
        && position == old(position)[p := old(position)[p] + 1]
        && log[p][old(position)[p]].Bars?
        && var r := TakeRecord(max, Held(old(batch.pending), old(window.openedAt)), Source(p, old(position)[p]),
                               log[p][old(position)[p]].bars, openReading, resetReading);
           Held(batch.pending, window.openedAt) == r.held && writer.table == old(writer.table) + Concat(r.flushed)
    {
      health.RecordInput(takenAt);
      var frame := log[p][position[p]];
      if frame.Malformed? {
        ReportedOther(health.output, LoaderFailed, flushed, reports);
        health.FailLoader();
        Die();
        return Some(Undecodable);
      }
      end := TakeDecoded(p, frame.bars, openReading, resetReading, outcomes);
    }

    method TakeDecoded(p: nat, bars: seq<Bar>, openReading: int, resetReading: int, outcomes: seq<FlushOutcome>)
      returns (end: Option<Ending>)
      requires Running() && state.handed == [] && p < |log| && position[p] < |log[p]|
               && log[p][position[p]] == Bars(bars)
      requires Reporting()
      modifies this`position, this`steps, this`state, this`flushed, batch, window
      modifies broker, writer, health`output, health`committing, health`lastCommit
      ensures Told() && old(steps) <= steps
      ensures end != None ==> Ended() && end != Some(Finished)
                              && position == old(position)[p := old(position)[p] + 1]
      ensures AllSucceed(outcomes) && |bars| <= |outcomes| ==> end == None
      ensures end == None ==>
        Running() && Reporting() && state.handed == [] && position == old(position)[p := old(position)[p] + 1]
      ensures end == None ==>
        var r := TakeRecord(max, Held(old(batch.pending), old(window.openedAt)), Source(p, old(position)[p]),
                            bars, openReading, resetReading);
        Held(batch.pending, window.openedAt) == r.held && writer.table == old(writer.table) + Concat(r.flushed)
    {
      if batch.IsEmpty() && bars != [] {
        window.Open(openReading);
      }
      var full := AddPolled(p, bars);
      FullAreNonEmpty(max, old(batch.pending) + Tagged(Source(p, old(position)[p]), bars), full);
      BlocksAtMost(max, old(batch.pending) + Tagged(Source(p, old(position)[p]), bars));
      end := FlushFull(full, outcomes);
      if end == None && full != [] {
        window.Reset(!batch.IsEmpty(), resetReading);
      }
    }

    /** Adds the polled record to the batch. */
    method AddPolled(p: nat, bars: seq<Bar>) returns (full: seq<Batch>)
      requires Running() && state.handed == [] && p < |log| && position[p] < |log[p]|
               && log[p][position[p]] == Bars(bars)
      modifies this`position, this`steps, this`state, this`flushed, batch
      ensures Running() && state.handed == full && state.table == old(state).table
      ensures old(steps) <= steps && flushed == old(flushed)
      ensures position == old(position)[p := old(position)[p] + 1]
      ensures var stream := old(batch.pending) + Tagged(Source(p, old(position)[p]), bars);
              full == Blocks(max, stream) && batch.pending == Remainder(max, stream)
    {
      if state.produced[p] == position[p] {
        Take(Produce(p));
      }
      Take(Poll(p));
      full := AddToBatch(Source(p, position[p]), bars);
      position := position[p := position[p] + 1];
    }

    method AddToBatch(source: Source, bars: seq<Bar>) returns (full: seq<Batch>)
      requires batch.Valid()
      modifies batch
      ensures batch.Valid()
      ensures var stream := old(batch.pending) + Tagged(source, bars);
              full == Blocks(batch.maximumRecords, stream) && batch.pending == Remainder(batch.maximumRecords, stream)
    {
      full := batch.Add(source, bars);
    }

    /** Flushes what is pending: by age, or once at a graceful shutdown. */
    method FlushPending(outcomes: seq<FlushOutcome>) returns (end: Option<Ending>)
      requires Running() && state.handed == [] && batch.pending != []
      requires Reporting()
      modifies this`steps, this`state, this`flushed, batch
      modifies broker, writer, health`output, health`committing, health`lastCommit
      ensures Told() && old(steps) <= steps
      ensures end != None ==> Ended() && end != Some(Finished)
      ensures AllSucceed(outcomes) && outcomes != [] ==> end == None
      ensures end == None ==> Running() && Reporting() && state.handed == [] && batch.pending == []
                              && writer.table == old(writer.table) + old(batch.pending)
    {
      var drained := HandOver();
      end := FlushOrDie(drained, outcomes, 0);
    }

    /** Hands the pending bars over as one batch. */
    method HandOver() returns (drained: Batch)
      requires Running() && state.handed == [] && batch.pending != []
      modifies this`steps, this`state, this`flushed, batch
      ensures Running() && state.handed == [drained] && drained == old(batch.pending) && batch.pending == []
      ensures old(steps) <= steps && flushed == old(flushed) && writer.table == old(writer.table)
    {
      var batched := batch.Drain();
      Take(Drain);
      drained := batched.value;
    }

    /** One pass of `while (running.get())`; a completed one is written to the journal. */
    method Pass(input: PassInput) returns (end: Option<Ending>)
      requires AtRest()
      modifies this`position, this`steps, this`state, this`flushed, this`reports, this`journal
      modifies batch, window, broker, writer, health
      ensures Told() && Journaled() && old(steps) <= steps
      ensures end != None ==> Ended() && end != Some(Finished) && journal == old(journal)
                              && position in {old(position), PositionAfter(Sheet(), old(position), input)}
      ensures AllDecode(log) && GoesWell(log, input) ==> end == None
      ensures end == None && input.polled.Record? && input.polled.partition < |log|
              && old(position)[input.polled.partition] < |log[input.polled.partition]|
              ==> position == old(position)[input.polled.partition := old(position)[input.polled.partition] + 1]
      ensures end == None ==>
        && AtRest() && journal.inputs == old(journal).inputs + [input]
        && journal.moments[..|old(journal).moments|] == old(journal).moments
    {
      ghost var sent;
      ghost var before, history := Now(), steps;
      end, sent := PassOnce(input);
      if end == None {
        RightGrows(Sheet(), journal, history, steps, input, before, Now(), sent);
        journal := OnePassMore(journal, input, Now(), sent);
      } else {
        RightMoreSteps(Sheet(), history, steps, journal);
      }
    }

    method PassOnce(input: PassInput) returns (end: Option<Ending>, ghost sent: Option<Report>)
      requires Running() && state.handed == []
      requires Reporting()
      modifies this`position, this`steps, this`state, this`flushed, this`reports, batch, window, broker, writer, health
      ensures Told() && old(steps) <= steps
      ensures end != None ==> Ended() && end != Some(Finished) && reports == old(reports)
                              && position in {old(position), PositionAfter(Sheet(), old(position), input)}
      ensures AllDecode(log) && GoesWell(log, input) ==> end == None
      ensures end == None ==> Running() && Reporting() && state.handed == []
                              && PassLink(Sheet(), old(Now()), input, Now(), sent)
                              && reports == old(reports) + if sent.Some? then [sent.value] else []
    {
      sent := None;
      if input.polled.PollThrows? {
        FailOutside();
        return Some(PollFailed), None;
      }
      end := Work(input);
      if end == None {
        sent := Beat(input.now, input.view);
      }
    }

    /** A pass up to its heartbeat: the polled record, then the age check. */
    method Work(input: PassInput) returns (end: Option<Ending>)
      requires Running() && state.handed == []
      requires Reporting()
      modifies this`position, this`steps, this`state, this`flushed, batch, window
      modifies broker, writer, health`output, health`committing, health`lastCommit, health`lastInputAt
      ensures Told() && old(steps) <= steps
      ensures end != None ==> Ended() && end != Some(Finished)
                              && position in {old(position), PositionAfter(Sheet(), old(position), input)}
      ensures AllDecode(log) && GoesWell(log, input) ==> end == None
      ensures end == None ==> Running() && Reporting() && state.handed == []
                              && WorkLink(Sheet(), old(Now()), input, Now())
    {
      ghost var before := Now();
      end := None;
      if Takes(Sheet(), position, input) {
        end := TakePolled(input.polled.partition, input.polled.takenAt, Reading(Sheet(), input.openAt),
                          Reading(Sheet(), input.resetAt), input.outcomes);
      }
      if end == None {
        end := FlushExpired(Reading(Sheet(), input.checkAt), input.ageOutcomes,
                            RecordEffect(Sheet(), before.state.position, before.held, input));
      }
    }

    /** An exception outside `flush` ends the process with `loader_failed`. */
    method FailOutside()
      requires Running() && Reporting()
      modifies this`steps, this`state, this`flushed, health`output
      ensures Ended() && Told() && old(steps) <= steps
    {
      ReportedOther(health.output, LoaderFailed, flushed, reports);
      health.FailLoader();
      Die();
    }

    /** The heartbeat at the end of a pass. */
    method Beat(now: int, view: Option<BrokerView>) returns (ghost sent: Option<Report>)
      requires Running() && state.handed == [] && Reporting()
      modifies this`reports, health
      ensures Reporting() && Running() && health.lastInputAt == old(health.lastInputAt)
      ensures reports == old(reports) + if sent.Some? then [sent.value] else []
      ensures var due := Due(old(health.lastHeartbeatAt), now, health.heartbeatInterval);
              && health.lastHeartbeatAt == (if due then Some(now) else old(health.lastHeartbeatAt))
              && (sent.Some? <==> due && view.Some?)
      ensures sent.Some? ==>
        && IsSampleOf(view.value, sent.value.offsets) && sent.value.now == now
        && sent.value.bufferedBars == |batch.pending| && sent.value.bufferedSources == |Sources(batch.pending)|
        && sent.value.lastInputAt == health.lastInputAt
    {
      ghost var before, previous := health.output, health.previousHeartbeatState;
      sent := health.MaybeHeartbeat(now, view, batch.BarCount(), batch.SourceRecordCount());
      if sent.Some? {
        ReportedHeartbeat(before, previous, sent.value, flushed, reports);
        reports := reports + [sent.value];
      }
    }

    /** The age check of a pass; `before` is what the pass did up to it. */
    method FlushExpired(checkReading: int, outcomes: seq<FlushOutcome>, ghost before: PassResult)
      returns (end: Option<Ending>)
      requires Running() && state.handed == [] && Held(batch.pending, window.openedAt) == before.held
      requires Reporting()
      modifies this`steps, this`state, this`flushed, batch, window
      modifies broker, writer, health`output, health`committing, health`lastCommit
      ensures Told() && old(steps) <= steps
      ensures end != None ==> Ended() && end != Some(Finished)
      ensures AllSucceed(outcomes) && outcomes != [] ==> end == None
      ensures end == None ==> Running() && Reporting() && state.handed == []
      ensures end == None ==>
        var r := CheckAge(maxWait, before, checkReading);
        && Held(batch.pending, window.openedAt) == r.held
        && forall rows ::
             old(writer.table) == rows + Concat(before.flushed) ==> writer.table == rows + Concat(r.flushed)
    {
      end := None;
      if !batch.IsEmpty() && window.Expired(checkReading, maxWait) {
        ConcatAppend(before.flushed, [batch.pending]);
        ConcatOne(batch.pending);
        end := FlushPending(outcomes);
        if end == None {
          window.Close();
        }
      }
    }

    /** `main` from the first poll to the end of the process, however it ends: by a failed flush, an
        undecodable record, a kill anywhere, or a graceful shutdown with its final flush.  A shutdown
        that finishes leaves nothing to deliver again. */
    method Run(startedAt: int, script: seq<PassInput>, graceful: bool, lastOutcomes: seq<FlushOutcome>)
      returns (ending: Ending)
      requires Running() && state.handed == [] && Reporting() && reports == []
      modifies this`position, this`steps, this`state, this`flushed, this`reports, this`journal
      modifies batch, window, broker, writer, health
      ensures Ended() && old(steps) <= steps && Told() && Journaled() && Follows(journal, script)
      ensures |log| > 0 ==> Delivered(log, broker.committed, writer.table)
      ensures journal.moments[0] == old(Now()).(heartbeatAt := Some(startedAt))
      ensures position in EndPositions(Sheet(), journal, script)
      ensures ending == Finished ==>
        && graceful && |journal.inputs| == |script| && position == LastPosition(journal)
        && state.past[|state.past| - 1].end == broker.committed
        && AllSettled(log, position, broker.committed, state.past[|state.past| - 1].rows)
        && (|log| > 0 ==> Delivered(log, position, writer.table))
      ensures AllGoesWell(log, script, graceful, lastOutcomes) ==> ending == Finished
    {
      ReportedOther(health.output, ProcessStarted, flushed, reports);
      health.StartingUp(startedAt);
      StartJournal();
      ghost var first := journal.moments;
      ending := RunToEnd(script, graceful, lastOutcomes);
      assert journal.moments[..1] == first;
      ExecutedIsDelivered(log, max, steps, state);
    }

    ghost method StartJournal()
      requires Running() && state.handed == [] && Reporting() && reports == []
      modifies this`journal
      ensures AtRest() && journal == Journal([], [Now()], [])
    {
      journal := Journal([], [Now()], []);
      RightStarts(Sheet(), steps, Now());
    }

    method RunToEnd(script: seq<PassInput>, graceful: bool, lastOutcomes: seq<FlushOutcome>) returns (ending: Ending)
      requires AtRest() && journal.inputs == []
      modifies this`position, this`steps, this`state, this`flushed, this`reports, this`journal
      modifies batch, window, broker, writer, health
      ensures Ended() && old(steps) <= steps && Told() && Journaled() && Follows(journal, script)
      ensures journal.moments[..1] == old(journal).moments
      ensures position in EndPositions(Sheet(), journal, script)
      ensures ending == Finished ==>
        && graceful && |journal.inputs| == |script| && position == LastPosition(journal)
        && state.past[|state.past| - 1].end == broker.committed
        && AllSettled(log, position, broker.committed, state.past[|state.past| - 1].rows)
        && (|log| > 0 ==> Delivered(log, position, writer.table))
      ensures AllGoesWell(log, script, graceful, lastOutcomes) ==> ending == Finished
    {
      var end := Loop(script);
      if end != None {
        return end.value;
      }
      ghost var history := steps;
      ending := Close(graceful, lastOutcomes);
      RightMoreSteps(Sheet(), history, steps, journal);
    }

    /** The loop itself. */
    method Loop(script: seq<PassInput>) returns (end: Option<Ending>)
      requires AtRest() && journal.inputs == []
      modifies this`position, this`steps, this`state, this`flushed, this`reports, this`journal
      modifies batch, window, broker, writer, health
      ensures Told() && Journaled() && old(steps) <= steps && Follows(journal, script)
      ensures journal.moments[..1] == old(journal).moments
      ensures position in EndPositions(Sheet(), journal, script)
      ensures end != None ==> Ended() && end != Some(Finished)
      ensures end == None ==> AtRest() && |journal.inputs| == |script| && position == LastPosition(journal)
      ensures AllDecode(log) && (forall i :: i in script ==> GoesWell(log, i)) ==> end == None
    {
      for i := 0 to |script|
        invariant AtRest() && old(steps) <= steps
        invariant journal.inputs == script[..i] && journal.moments[..1] == old(journal).moments
      {
        assert script[i] in script && script[..i + 1] == script[..i] + [script[i]];
        end := Pass(script[i]);
        if end != None {
          return;
        }
      }
      return None;
    }

    /** After the loop: the final flush of a graceful shutdown, unless the process is killed first. */
    method Close(graceful: bool, lastOutcomes: seq<FlushOutcome>) returns (ending: Ending)
      requires Running() && state.handed == [] && Reporting()
      modifies this`steps, this`state, this`flushed, batch
      modifies broker, writer, health`output, health`committing, health`lastCommit
      ensures Ended() && old(steps) <= steps && Told()
      ensures ending == Finished ==>
        && graceful && state.past[|state.past| - 1].end == broker.committed
        && AllSettled(log, position, broker.committed, state.past[|state.past| - 1].rows)
        && (|log| > 0 ==> Delivered(log, position, writer.table))
      ensures graceful && AllSucceed(lastOutcomes) && lastOutcomes != [] ==> ending == Finished
    {
      if !graceful {
        Die();
        return WasKilled;
      }
      if !batch.IsEmpty() {
        var end := FlushPending(lastOutcomes);
        if end != None {
          return end.value;
        }
      }
      NothingHeld(log, max, steps, state);
      AllDelivered(log, max, steps, state);
      Die();
      return Finished;
    }
  }

  /** The completed passes are the first ones of the script. */
  predicate Follows(journal: Journal, script: seq<PassInput>) {
    journal.inputs <= script
  }

  /** Where the last completed pass left the poll position. */
  function LastPosition(journal: Journal): seq<nat> {
    if |journal.moments| != |journal.inputs| + 1 then [] else journal.moments[|journal.inputs|].state.position
  }

  /** A process that ends in a pass may have taken in that pass's record. */
  function EndPositions(u: Setup, journal: Journal, script: seq<PassInput>): set<seq<nat>> {
    var last, n := LastPosition(journal), |journal.inputs|;
    if n < |script| then {last, PositionAfter(u, last, script[n])} else {last}
  }
}
