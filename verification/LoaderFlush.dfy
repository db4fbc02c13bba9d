/** `flush` of Main.java and IcebergWriter.append as imperative code, the table and the broker they
    talk to, and what a process's events say about its flushes. */
module LoaderFlush {
  import opened Options
  import opened Batching
  import opened LoaderSystem
  import opened LoaderHealth
  import opened LoaderLag
  import opened LoaderHeartbeat
  import LoaderTheorems

  /** How the table answers one append; `applied` when a commit that threw, or one during which the
      process was killed, took effect anyway. */
  datatype AppendOutcome =
    | AppendSucceeds | FileFails
    | CommitFails(applied: bool) | CommitUnknown(applied: bool) | AppendKilled(applied: bool)

  /** How the broker answers one offset commit; `partial` is where one that threw, or one during
      which the process was killed, took effect. */
  datatype SyncOutcome = SyncSucceeds | SyncFails(partial: set<nat>) | SyncKilled(partial: set<nat>)

  /** `completed` is what the clock shows of a flush that succeeds. */
  datatype FlushOutcome = FlushOutcome(append: AppendOutcome, sync: SyncOutcome, completed: Completed)

  /** How a call ends: it returns, it throws, or the process is killed in it. */
  datatype Completion<+T> = Returned(value: T) | Threw(failure: CommitFailure) | Killed

  predicate Applied(outcome: AppendOutcome) {
    match outcome
    case AppendSucceeds => true
    case FileFails => false
    case CommitFails(applied) => applied
    case CommitUnknown(applied) => applied
    case AppendKilled(applied) => applied
  }

  class IcebergWriter {
    /** Rows in commit order; a row is kept with the source it came from. */
    var table: seq<Entry>

    constructor (rows: seq<Entry>)
      ensures table == rows
    {
      table := rows;
    }

    /** Returns the number of rows inserted. */
    method Append(input: seq<Entry>, outcome: AppendOutcome) returns (call: Completion<nat>)
      modifies this
      ensures input == [] ==> call == Returned(0) && table == old(table)
      ensures input != [] ==> table == old(table) + (if Applied(outcome) then input else [])
      ensures input != [] ==>
        match outcome
        case AppendSucceeds => table == old(table) + input
        case FileFails => table == old(table)
        case CommitFails(applied) => table == if applied then old(table) + input else old(table)
        case CommitUnknown(applied) => table == if applied then old(table) + input else old(table)
        case AppendKilled(applied) => table == if applied then old(table) + input else old(table)
      ensures input != [] ==>
        match outcome
        case AppendSucceeds => call == Returned(|input|)
        case FileFails => call == Threw(DataFileWriteFailed)
        case CommitFails(_) => call == Threw(IcebergCommitFailed)
        case CommitUnknown(_) => call == Threw(IcebergCommitStateUnknown)
        case AppendKilled(_) => call == Killed
    {
      if input == [] {
        return Returned(0);
      }
      var file: seq<Entry> := [];
      for i := 0 to |input|
        invariant file == input[..i] && table == old(table)
      {
        file := file + [input[i]];
      }
      if outcome.FileFails? {
        return Threw(DataFileWriteFailed);
      }
      if Applied(outcome) {
        table := table + file;
      }
      match outcome
      case AppendSucceeds => call := Returned(|input|);
      case CommitFails(_) => call := Threw(IcebergCommitFailed);
      case CommitUnknown(_) => call := Threw(IcebergCommitStateUnknown);
      case AppendKilled(_) => call := Killed;
    }
  }

  /** The group's offsets at the broker, and the offset commits it was sent. */
  class Broker {
    var committed: seq<nat>
    var requests: seq<map<nat, nat>>

    constructor (offsets: seq<nat>)
      ensures committed == offsets && requests == []
    {
      committed, requests := offsets, [];
    }

    /** An offset commit that succeeds moves every partition it names and no other; one that does not, the
        part of them that took effect. */
    method CommitSync(offsets: map<nat, nat>, outcome: SyncOutcome) returns (call: Completion<()>)
      modifies this
      ensures |committed| == |old(committed)|
      ensures forall p: nat :: p < |committed| ==>
                committed[p] == if p in offsets && (outcome.SyncSucceeds? || p in outcome.partial) then offsets[p]
                                else old(committed)[p]
      ensures requests == old(requests) + [offsets]
      ensures call == match outcome
                      case SyncSucceeds => Returned(())
                      case SyncFails(_) => Threw(OffsetCommitFailed)
                      case SyncKilled(_) => Killed
      ensures committed == Advance(old(committed),
                                   if outcome.SyncSucceeds? then offsets else Restrict(offsets, outcome.partial))
    {
      requests := requests + [offsets];
      if outcome.SyncSucceeds? {
        committed := Advance(committed, offsets);
        return Returned(());
      }
      committed := Advance(committed, Restrict(offsets, outcome.partial));
      call := if outcome.SyncFails? then Threw(OffsetCommitFailed) else Killed;
    }
  }

  /** The loop of `flush` that collects the offsets to commit. */
  method OffsetsToCommit(batch: Batch) returns (offsets: map<nat, nat>)
    ensures offsets == FinalOffsets(batch)
  {
    offsets := map[];
    for i := 0 to |batch|
      invariant offsets == FinalOffsets(batch[..i])
    {
      assert batch[..i + 1][..i] == batch[..i];
      var entry := batch[i];
      if entry.finalBar {
        var p, next := entry.source.partition, entry.source.offset + 1;
        offsets := offsets[p := if p in offsets && offsets[p] >= next then offsets[p] else next];
      }
    }
    assert batch[..|batch|] == batch;
  }

  /** An offset commit is sent only after a successful append, and only if some record finished. */
  predicate Sends(batch: Batch, outcome: FlushOutcome) {
    outcome.append.AppendSucceeds? && FinalOffsets(batch) != map[]
  }

  /** The batch holds the final bar of some record. */
  predicate Finishes(batch: Batch) {
    exists e :: e in batch && e.finalBar
  }

  lemma FinishesMeaning(batch: Batch)
    ensures FinalOffsets(batch) != map[] <==> Finishes(batch)
  {
    if Finishes(batch) {
      var e :| e in batch && e.finalBar;
      FinalOffsetsMeaning(batch, e.source.partition);
    }
    if FinalOffsets(batch) != map[] {
      var p :| p in FinalOffsets(batch);
      FinalOffsetsMeaning(batch, p);
    }
  }

  /** How a flush ends. */
  function FlushCall(batch: Batch, outcome: FlushOutcome): Completion<()> {
    match outcome.append
    case FileFails => Threw(DataFileWriteFailed)
    case CommitFails(_) => Threw(IcebergCommitFailed)
    case CommitUnknown(_) => Threw(IcebergCommitStateUnknown)
    case AppendKilled(_) => Killed
    case AppendSucceeds =>
      if !Sends(batch, outcome) || outcome.sync.SyncSucceeds? then Returned(())
      else if outcome.sync.SyncFails? then Threw(OffsetCommitFailed)
      else Killed
  }

  /** The events of a flush; a kill leaves only the first. */
  function FlushEvents(batch: Batch, call: Completion<()>): seq<Event> {
    [CommitStarted(|batch|, |Sources(batch)|)]
    + match call case Returned(_) => [CommitSucceeded] case Threw(failure) => [CommitFailed(failure)] case Killed => []
  }

  /** The part of the offsets of `batch` that is committed by a flush with this outcome. */
  function CommittedBy(batch: Batch, outcome: FlushOutcome): map<nat, nat> {
    if !Sends(batch, outcome) then map[]
    else if outcome.sync.SyncSucceeds? then FinalOffsets(batch)
    else Restrict(FinalOffsets(batch), outcome.sync.partial)
  }

  /** What `flush` reports, and what it leaves at the table and the broker: rows first, offsets
      only after them and only of finished records, nothing sent when no record finished. */
  method Flush(broker: Broker, writer: IcebergWriter, health: LoaderHealthReporter, batch: Batch, outcome: FlushOutcome)
    returns (call: Completion<()>)
    requires batch != []
    modifies broker, writer, health`output, health`committing, health`lastCommit
    ensures call == FlushCall(batch, outcome)
    ensures match outcome.append
            case FileFails => call == Threw(DataFileWriteFailed)
            case CommitFails(_) => call == Threw(IcebergCommitFailed)
            case CommitUnknown(_) => call == Threw(IcebergCommitStateUnknown)
            case AppendKilled(_) => call == Killed
            case AppendSucceeds =>
              match outcome.sync
              case SyncSucceeds => call == Returned(())
              case SyncFails(_) => call == if Finishes(batch) then Threw(OffsetCommitFailed) else Returned(())
              case SyncKilled(_) => call == if Finishes(batch) then Killed else Returned(())
    ensures var started := CommitStarted(|batch|, |Sources(batch)|);
            match call
            case Returned(_) => health.output == old(health.output) + [started, CommitSucceeded]
            case Threw(failure) => health.output == old(health.output) + [started, CommitFailed(failure)]
            case Killed => health.output == old(health.output) + [started]
    ensures health.lastCommit == if call.Returned? then Some(outcome.completed) else old(health.lastCommit)
    ensures health.committing == call.Killed? && (old(health.Consistent()) ==> health.Consistent())
    ensures health.output == old(health.output) + FlushEvents(batch, call)
    ensures writer.table == old(writer.table) + (if Applied(outcome.append) then batch else [])
    ensures broker.requests == old(broker.requests) + (if Sends(batch, outcome) then [FinalOffsets(batch)] else [])
    ensures broker.committed
            == if Sends(batch, outcome) then Advance(old(broker.committed), CommittedBy(batch, outcome))
               else old(broker.committed)
  {
    FinishesMeaning(batch);
    health.StartCommit(batch);
    var append := writer.Append(batch, outcome.append);
    if append.Killed? {
      return Killed;
    }
    if append.Threw? {
      health.FailCommit(append.failure);
      return Threw(append.failure);
    }
    var sync := CommitFinished(broker, batch, outcome.sync);
    if sync.Killed? {
      return Killed;
    }
    if sync.Threw? {
      health.FailCommit(sync.failure);
      return sync;
    }
    health.SucceedCommit(outcome.completed);
    return Returned(());
  }

  /** The offset commit of a flush, sent only if some record finished. */
  method CommitFinished(broker: Broker, batch: Batch, outcome: SyncOutcome) returns (sync: Completion<()>)
    modifies broker
    ensures broker.requests
            == old(broker.requests) + (if FinalOffsets(batch) != map[] then [FinalOffsets(batch)] else [])
    ensures FinalOffsets(batch) == map[] ==> sync == Returned(()) && broker.committed == old(broker.committed)
    ensures FinalOffsets(batch) != map[] ==>
      && sync == (match outcome
                  case SyncSucceeds => Returned(())
                  case SyncFails(_) => Threw(OffsetCommitFailed)
                  case SyncKilled(_) => Killed)
      && broker.committed == Advance(old(broker.committed),
                                     if outcome.SyncSucceeds? then FinalOffsets(batch)
                                     else Restrict(FinalOffsets(batch), outcome.partial))
  {
    sync := Returned(());
    var offsets := OffsetsToCommit(batch);
    if offsets != map[] {
      sync := broker.CommitSync(offsets, outcome);
    }
  }

  lemma AdvanceByNothing(committed: seq<nat>, offsets: map<nat, nat>)
    ensures Advance(committed, map[]) == committed && Advance(committed, Restrict(offsets, {})) == committed
  {
  }

  /** The crash step that matches a flush that failed after its append. */
  lemma FailedCommitStep(log: Log, max: nat, s: State, partial: set<nat>)
    requires max > 0
    ensures var reached := partial * FinalOffsets(s.syncing).Keys;
            && Enabled(log, s, Crash(false, reached))
            && Apply(log, max, s, Crash(false, reached)).committed
               == Advance(s.committed, Restrict(FinalOffsets(s.syncing), partial))
            && Apply(log, max, s, Crash(false, reached)).table == s.table
  {
    var offsets := FinalOffsets(s.syncing);
    assert Restrict(offsets, partial * offsets.Keys) == Restrict(offsets, partial);
  }

  lemma ConcatSnoc(batches: seq<Batch>, i: nat)
    requires i < |batches|
    ensures Concat(batches[..i + 1]) == Concat(batches[..i]) + batches[i]
  {
    ConcatAppend(batches[..i], [batches[i]]);
    ConcatOne(batches[i]);
    assert batches[..i + 1] == batches[..i] + [batches[i]];
  }

  lemma FullAreNonEmpty(max: nat, stream: seq<Entry>, full: seq<Batch>)
    requires max > 0 && full == Blocks(max, stream)
    ensures forall b :: b in full ==> b != []
  {
    BlockSizes(max, stream);
  }

  /** Every bar below a committed offset is in the table, with its multiplicity. */
  ghost predicate Delivered(log: Log, committed: seq<nat>, table: seq<Entry>) {
    |committed| == |log|
    && forall p :: 0 <= p < |log| ==>
         committed[p] <= |log[p]| && multiset(Range(log, p, 0, committed[p])) <= multiset(table)
  }

  lemma ExecutedIsDelivered(log: Log, max: nat, steps: seq<Step>, s: State)
    requires max > 0 && Executes(log, max, steps, s)
    ensures |log| > 0 ==> Delivered(log, s.committed, s.table)
  {
    ExecutesMeaning(log, max, steps, s);
    forall p | 0 <= p < |log|
      ensures |s.committed| == |log| && s.committed[p] <= |log[p]|
      ensures multiset(Range(log, p, 0, s.committed[p])) <= multiset(s.table)
    {
      LoaderTheorems.AtLeastOnce(log, max, steps, p, 0, 0);
    }
    if |log| > 0 {
      LoaderTheorems.AtLeastOnce(log, max, steps, 0, 0, 0);
    }
  }

  /** No heartbeat reports the state `committing`, every commit reported as succeeded is the one
      reported as started right before, and these are the given flushes, in order, with their counts. */
  ghost predicate SoundOutput(output: seq<Event>, flushed: seq<Batch>) {
    && (forall r :: r in Reports(output) ==> r.state != Committing)
    && SuccessFollowsStart(output)
    && Successes(output) == CountsOf(flushed)
  }

  lemma OtherIsSound(output: seq<Event>, e: Event, flushed: seq<Batch>)
    requires !e.Heartbeat? && !e.CommitSucceeded?
    ensures Reports(output + [e]) == Reports(output)
    ensures SoundOutput(output, flushed) ==> SoundOutput(output + [e], flushed)
  {
    OtherEvent(output, e);
    SuccessesOther(output, e);
  }

  lemma SuccessIsSound(output: seq<Event>, flushed: seq<Batch>, b: Batch)
    ensures var after := output + [CommitStarted(|b|, |Sources(b)|), CommitSucceeded];
            Reports(after) == Reports(output) && (SoundOutput(output, flushed) ==> SoundOutput(after, flushed + [b]))
  {
    var started := CommitStarted(|b|, |Sources(b)|);
    OtherEvent(output, started);
    OtherEvent(output + [started], CommitSucceeded);
    SuccessesFlush(output, |b|, |Sources(b)|);
    CountsLast(flushed, b);
    assert output + [started, CommitSucceeded] == output + [started] + [CommitSucceeded];
  }

  /** The events of one flush, however it ends. */
  lemma FlushIsSound(output: seq<Event>, flushed: seq<Batch>, b: Batch, call: Completion<()>)
    ensures Reports(output + FlushEvents(b, call)) == Reports(output)
    ensures SoundOutput(output, flushed)
            ==> SoundOutput(output + FlushEvents(b, call), if call.Returned? then flushed + [b] else flushed)
  {
    var started := CommitStarted(|b|, |Sources(b)|);
    OtherIsSound(output, started, flushed);
    match call
    case Returned(_) =>
      SuccessIsSound(output, flushed, b);
      assert output + FlushEvents(b, call) == output + [started, CommitSucceeded];
    case Threw(failure) =>
      OtherIsSound(output + [started], CommitFailed(failure), flushed);
      assert output + FlushEvents(b, call) == output + [started] + [CommitFailed(failure)];
    case Killed =>
      assert output + FlushEvents(b, call) == output + [started];
  }

  lemma HeartbeatIsSound(output: seq<Event>, previous: Option<HealthState>, r: Report, flushed: seq<Batch>)
    requires r.state != Committing
    ensures var after := output + HeartbeatEvents(previous, r);
            Reports(after) == Reports(output) + [r] && (SoundOutput(output, flushed) ==> SoundOutput(after, flushed))
  {
    EmittedHeartbeat(output, previous, r);
    HeartbeatNoSuccess(output, previous, r);
  }

  lemma HeartbeatNoSuccess(output: seq<Event>, previous: Option<HealthState>, r: Report)
    ensures var after := output + HeartbeatEvents(previous, r);
            Successes(after) == Successes(output) && (SuccessFollowsStart(output) ==> SuccessFollowsStart(after))
  {
    if r.state == Stalled && previous != Some(Stalled) {
      SuccessesOther(output, StalledEvent(r));
      SuccessesOther(output + [StalledEvent(r)], Heartbeat(r));
      assert output + HeartbeatEvents(previous, r) == output + [StalledEvent(r)] + [Heartbeat(r)];
    } else {
      SuccessesOther(output, Heartbeat(r));
      assert output + HeartbeatEvents(previous, r) == output + [Heartbeat(r)];
    }
  }

  /** The finished flushes of the whole history; like Executes, said of a prefix. */
  ghost predicate FlushedAre(log: Log, max: nat, steps: seq<Step>, finished: seq<Batch>)
    requires max > 0
  {
    forall n :: n == |steps| ==> Flushed(log, max, steps[..n]) == finished
  }

  lemma FlushedMeaning(log: Log, max: nat, steps: seq<Step>, finished: seq<Batch>)
    requires max > 0
    ensures FlushedAre(log, max, steps, finished) <==> Flushed(log, max, steps) == finished
  {
    assert steps[..|steps|] == steps;
  }

  lemma FlushedStep(log: Log, max: nat, steps: seq<Step>, s: State, step: Step, finished: seq<Batch>)
    requires max > 0 && Executes(log, max, steps, s) && FlushedAre(log, max, steps, finished)
    ensures FlushedAre(log, max, steps + [step], finished + if step.Commit? then [s.syncing] else [])
  {
    FlushedMeaning(log, max, steps, finished);
    ExecutesMeaning(log, max, steps, s);
    assert (steps + [step])[..|steps|] == steps;
    FlushedMeaning(log, max, steps + [step], finished + if step.Commit? then [s.syncing] else []);
  }

  /** What a process has reported is true of its finished flushes, and its sampled heartbeats are the
      given ones. */
  ghost predicate Reported(output: seq<Event>, finished: seq<Batch>, reports: seq<Report>) {
    forall n :: n == |output| ==> SoundOutput(output[..n], finished) && Reports(output[..n]) == reports
  }

  lemma ReportedMeaning(output: seq<Event>, finished: seq<Batch>, reports: seq<Report>)
    ensures Reported(output, finished, reports) <==> SoundOutput(output, finished) && Reports(output) == reports
  {
    assert output[..|output|] == output;
  }

  lemma ReportedOther(output: seq<Event>, e: Event, finished: seq<Batch>, reports: seq<Report>)
    requires Reported(output, finished, reports) && !e.Heartbeat? && !e.CommitSucceeded?
    ensures Reported(output + [e], finished, reports)
  {
    ReportedMeaning(output, finished, reports);
    OtherIsSound(output, e, finished);
    ReportedMeaning(output + [e], finished, reports);
  }

  lemma ReportedFlush(output: seq<Event>, b: Batch, call: Completion<()>, finished: seq<Batch>, reports: seq<Report>)
    requires Reported(output, finished, reports)
    ensures Reported(output + FlushEvents(b, call), if call.Returned? then finished + [b] else finished, reports)
  {
    ReportedMeaning(output, finished, reports);
    FlushIsSound(output, finished, b, call);
    ReportedMeaning(output + FlushEvents(b, call), if call.Returned? then finished + [b] else finished, reports);
  }

  lemma ReportedHeartbeat(output: seq<Event>, previous: Option<HealthState>, r: Report, finished: seq<Batch>,
                          reports: seq<Report>)
    requires Reported(output, finished, reports) && r.state != Committing
    ensures Reported(output + HeartbeatEvents(previous, r), finished, reports + [r])
  {
    ReportedMeaning(output, finished, reports);
    HeartbeatIsSound(output, previous, r, finished);
    ReportedMeaning(output + HeartbeatEvents(previous, r), finished, reports + [r]);
  }
}
