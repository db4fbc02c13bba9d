/** Loader processes one after another (the service restarts the loader when it fails), and what the
    dashboard shows of them. */
module LoaderRuns {
  import opened Options
  import opened Batching
  import opened LoaderSystem
  import opened LoaderSafety
  import opened LoaderTheorems
  import opened LoaderHealth
  import opened LoaderPass
  import opened LoaderHeartbeat
  import opened LoaderLag
  import opened LoaderFlush
  import opened LoaderJournal
  import opened LoaderMain
  import CommitPairing

  /** What the environment does during the life of one process; `origin` is what its nanoTime adds
      to the true time. */
  datatype Life = Life(
    startedAt: int, origin: int, script: seq<PassInput>, graceful: bool, lastOutcomes: seq<FlushOutcome>)

  function SetupOf(log: Log, max: nat, maxWait: int, interval: int, life: Life): Setup {
    Setup(log, max, maxWait, life.origin, interval)
  }

  /** A process's events are true of the flushes it finished and of the heartbeats its passes sent. */
  ghost predicate Honest(threshold: int, output: seq<Event>, flushed: seq<Batch>, journal: Journal) {
    && Reported(output, flushed, Somes(journal.sents))
    && exists tracked, previous :: Matches(output, tracked, previous, threshold)
  }

  function Joined(parts: seq<seq<Batch>>): seq<Batch> {
    if parts == [] then [] else Joined(parts[..|parts| - 1]) + parts[|parts| - 1]
  }

  lemma InitStartsFresh(log: Log, max: nat)
    requires max > 0
    ensures Executes(log, max, [], Init(log)) && StartsFresh(log, Init(log)) && FlushedAre(log, max, [], [])
  {
    ExecutesMeaning(log, max, [], Init(log));
    FlushedMeaning(log, max, [], []);
  }

  /** The state after a crash is one a process can be started in. */
  lemma CrashStartsFresh(log: Log, max: nat, steps: seq<Step>, s: State)
    requires max > 0 && Executes(log, max, steps, s) && steps != [] && steps[|steps| - 1].Crash?
    ensures StartsFresh(log, s)
  {
    ReachedShape(log, max, steps, s);
    ExecutesMeaning(log, max, steps, s);
    var before := Exec(log, max, steps[..|steps| - 1]).value;
    AfterCrash(log, max, before, steps[|steps| - 1]);
  }

  lemma AfterCrash(log: Log, max: nat, s: State, step: Step)
    requires max > 0 && step.Crash? && Enabled(log, s, step)
    ensures var t := Apply(log, max, s, step);
            t.position == t.committed && t.handed == [] && t.syncing == [] && t.pending == [] && t.settled == []
  {
  }

  lemma ReachedShape(log: Log, max: nat, steps: seq<Step>, s: State)
    requires max > 0 && Executes(log, max, steps, s)
    ensures Shape(log, s)
  {
    ExecutesMeaning(log, max, steps, s);
    ReachableInv(log, max, steps);
  }

  lemma JoinedLast(parts: seq<seq<Batch>>, last: seq<Batch>)
    ensures Joined(parts + [last]) == Joined(parts) + last
  {
    assert (parts + [last])[..|parts|] == parts;
  }

  /** The journal of a process: its passes are the first ones of the script, all of them if it finished;
      before the first one nothing was held and `starting()` had set the heartbeat timer. */
  ghost predicate JournalOf(u: Setup, life: Life, journal: Journal, ending: Ending)
    requires u.max > 0
  {
    && JournalOk(u, journal) && journal.inputs <= life.script
    && (ending == Finished ==> journal.inputs == life.script)
    && var first := journal.moments[0];
       && StartsFresh(u.log, first.state) && first.held == Held([], CLOSED)
       && first.heartbeatAt == Some(life.startedAt) && first.inputAt == None
  }

  /** Everything proved of one process. */
  ghost predicate LifeOk(u: Setup, threshold: int, life: Life, output: seq<Event>, ending: Ending,
                         flushed: seq<Batch>, journal: Journal)
    requires u.max > 0
  {
    && Honest(threshold, output, flushed, journal)
    && JournalOf(u, life, journal, ending)
    && (AllGoesWell(u.log, life.script, life.graceful, life.lastOutcomes) ==> ending == Finished)
  }

  /** One process, started on what the broker and the table hold. */
  method Live(u: Setup, threshold: int, life: Life, broker: Broker, writer: IcebergWriter,
              ghost history: seq<Step>, ghost before: State, ghost earlier: seq<Batch>)
    returns (output: seq<Event>, ending: Ending, ghost steps: seq<Step>, ghost state: State,
             ghost flushed: seq<Batch>, ghost journal: Journal)
    requires u.max > 0 && Executes(u.log, u.max, history, before) && StartsFresh(u.log, before)
    requires FlushedAre(u.log, u.max, history, earlier) && u.origin == life.origin
    requires broker.committed == before.committed && writer.table == before.table
    modifies broker, writer
    ensures history <= steps && Executes(u.log, u.max, steps, state) && StartsFresh(u.log, state)
    ensures FlushedAre(u.log, u.max, steps, earlier + flushed)
    ensures broker.committed == state.committed && writer.table == state.table
    ensures LifeOk(u, threshold, life, output, ending, flushed, journal)
    ensures OnSteps(u.log, u.max, steps, journal.moments) && journal.moments[0].state == before
    ensures OneMore(before.past, state.past)
    ensures ending == Finished ==> LeavesNothing(state.past[|state.past| - 1])
    ensures ending == Finished && |u.log| > 0 ==> Delivered(u.log, LastPosition(journal), writer.table)
  {
    var health := new LoaderHealthReporter(u.interval, threshold);
    var process := new LoaderProcess(u.log, u.max, u.maxWait, life.origin, broker, writer, health, history, before);
    FlushedMeaning(u.log, u.max, history, earlier);
    ending := process.Run(life.startedAt, life.script, life.graceful, life.lastOutcomes);
    steps, state, journal := process.steps, process.state, process.journal;
    CrashStartsFresh(u.log, u.max, steps, state);
    RightMeaning(u, steps, journal);
    output, flushed := health.output, process.flushed;
  }

  /** An incarnation that left no row at or above the offsets it ended with. */
  predicate LeavesNothing(ep: Epoch) {
    Uncovered(ep.rows, ep.end) == []
  }

  /** Any number of processes, each started on what the one before it left at the table and the
      broker: every committed bar is in the table, together they finished exactly the flushes they
      reported, and the passes in the journal of each are what it did at that point of the history. */
  method Supervise(log: Log, max: nat, maxWait: int, interval: int, threshold: int, lives: seq<Life>)
    returns (table: seq<Entry>, committed: seq<nat>, outputs: seq<seq<Event>>, endings: seq<Ending>,
             ghost steps: seq<Step>, ghost flushed: seq<seq<Batch>>, ghost journals: seq<Journal>)
    requires max > 0
    ensures |outputs| == |endings| == |flushed| == |journals| == |lives|
    ensures Exec(log, max, steps).Some?
    ensures Exec(log, max, steps).value.table == table && Exec(log, max, steps).value.committed == committed
    ensures StartsFresh(log, Exec(log, max, steps).value)
    ensures |log| > 0 ==> Delivered(log, committed, table)
    ensures Flushed(log, max, steps) == Joined(flushed)
    ensures forall k :: 0 <= k < |lives| ==>
              LifeOk(SetupOf(log, max, maxWait, interval, lives[k]), threshold, lives[k], outputs[k], endings[k],
                     flushed[k], journals[k])
    ensures JournalsOn(log, max, steps, journals)
    ensures EndingsTold(endings, Exec(log, max, steps).value.past)
    ensures |log| > 0 ==> FinishedDelivered(log, endings, journals, table)
  {
    var broker := new Broker(Zeros(|log|));
    var writer := new IcebergWriter([]);
    ghost var state := Init(log);
    steps, flushed, journals := [], [], [];
    outputs, endings := [], [];
    InitStartsFresh(log, max);
    for k := 0 to |lives|
      invariant |outputs| == |endings| == |flushed| == |journals| == k == |state.past|
      invariant Executes(log, max, steps, state) && StartsFresh(log, state)
      invariant FlushedAre(log, max, steps, Joined(flushed))
      invariant broker.committed == state.committed && writer.table == state.table
      invariant forall i :: 0 <= i < k ==>
                  LifeOk(SetupOf(log, max, maxWait, interval, lives[i]), threshold, lives[i], outputs[i], endings[i],
                         flushed[i], journals[i])
      invariant JournalsOn(log, max, steps, journals)
      invariant EndingsTold(endings, state.past)
      invariant |log| > 0 ==> FinishedDelivered(log, endings, journals, writer.table)
    {
      var output, ending;
      ghost var flush, journal, more;
      ghost var before, rows := state, writer.table;
      output, ending, more, state, flush, journal :=
        Live(SetupOf(log, max, maxWait, interval, lives[k]), threshold, lives[k], broker, writer,
             steps, state, Joined(flushed));
      JoinedLast(flushed, flush);
      OneMoreJournal(log, max, steps, more, journals, journal);
      OneMoreEnding(endings, ending, before.past, state.past);
      TableGrows(log, max, steps, before, more, state);
      if |log| > 0 {
        OneMoreDelivered(log, endings, ending, journals, journal, rows, writer.table);
      }
      steps := more;
      outputs, endings := outputs + [output], endings + [ending];
      flushed, journals := flushed + [flush], journals + [journal];
    }
    ExecutesMeaning(log, max, steps, state);
    ExecutedIsDelivered(log, max, steps, state);
    FlushedMeaning(log, max, steps, Joined(flushed));
    table, committed := writer.table, broker.committed;
  }

  /** Every journal is of this history, the k-th of the incarnation after k others. */
  ghost predicate JournalsOn(log: Log, max: nat, steps: seq<Step>, journals: seq<Journal>)
    requires max > 0
  {
    forall i :: 0 <= i < |journals| ==>
      && OnSteps(log, max, steps, journals[i].moments)
      && journals[i].moments != [] && |journals[i].moments[0].state.past| == i
  }

  lemma OneMoreJournal(log: Log, max: nat, steps: seq<Step>, more: seq<Step>, journals: seq<Journal>, journal: Journal)
    requires max > 0 && JournalsOn(log, max, steps, journals) && steps <= more
    requires OnSteps(log, max, more, journal.moments)
    requires journal.moments != [] && |journal.moments[0].state.past| == |journals|
    ensures JournalsOn(log, max, more, journals + [journal])
  {
    forall i | 0 <= i < |journals|
      ensures OnSteps(log, max, more, journals[i].moments)
    {
      OnMoreSteps(log, max, steps, more, journals[i].moments);
    }
  }

  /** What a process that finished has polled is in the table. */
  ghost predicate FinishedDelivered(log: Log, endings: seq<Ending>, journals: seq<Journal>, table: seq<Entry>) {
    |endings| == |journals|
    && forall i :: 0 <= i < |endings| && endings[i] == Finished ==> Delivered(log, LastPosition(journals[i]), table)
  }

  lemma OneMoreDelivered(log: Log, endings: seq<Ending>, ending: Ending, journals: seq<Journal>, journal: Journal,
                         table: seq<Entry>, more: seq<Entry>)
    requires FinishedDelivered(log, endings, journals, table) && table <= more
    requires ending == Finished ==> Delivered(log, LastPosition(journal), more)
    ensures FinishedDelivered(log, endings + [ending], journals + [journal], more)
  {
    assert more == table + more[|table|..];
  }

  /** Rows are never removed. */
  lemma {:induction false} TableGrows(log: Log, max: nat, steps: seq<Step>, s: State, more: seq<Step>, t: State)
    requires max > 0 && Executes(log, max, steps, s) && Executes(log, max, more, t) && steps <= more
    ensures s.table <= t.table
    decreases |more|
  {
    ExecutesMeaning(log, max, steps, s);
    ExecutesMeaning(log, max, more, t);
    if |steps| < |more| {
      var init := more[..|more| - 1];
      var before := Exec(log, max, init).value;
      ExecutesMeaning(log, max, init, before);
      TableGrows(log, max, steps, s, init, before);
      StepKeepsTable(log, max, before, more[|more| - 1]);
    } else {
      assert steps == more;
    }
  }

  lemma StepKeepsTable(log: Log, max: nat, s: State, step: Step)
    requires max > 0 && Enabled(log, s, step)
    ensures s.table <= Apply(log, max, s, step).table
  {
  }

  /** A process that finished took in every record its polls returned and delivered every bar of them,
      whatever happened later: what its polls returned counts from where the group's offset stood. */
  lemma FinishedDeliversAll(u: Setup, life: Life, journal: Journal, table: seq<Entry>, p: nat, o: nat, k: nat)
    requires u.max > 0 && JournalOf(u, life, journal, Finished) && p < |u.log|
    requires Delivered(u.log, LastPosition(journal), table)
    ensures var start := journal.moments[0].state.committed[p];
            var taken := start + RecordsOf(life.script, p);
            && LastPosition(journal)[p] == (if taken < |u.log[p]| then taken else |u.log[p]|)
            && (o < taken && o < |u.log[p]| && u.log[p][o].Bars? && k < |u.log[p][o].bars|
                ==> exists e :: e in table && e.bar == u.log[p][o].bars[k] && e.source == Source(p, o))
  {
    var n := |journal.inputs|;
    PositionsCount(u, journal, n, p);
    assert journal.inputs[..n] == life.script;
    if o < LastPosition(journal)[p] && u.log[p][o].Bars? && k < |u.log[p][o].bars| {
      BarDelivered(u.log, p, LastPosition(journal)[p], table, o, k);
    }
  }

  /** There is one incarnation per process, and one that finished left nothing to deliver again. */
  ghost predicate EndingsTold(endings: seq<Ending>, past: seq<Epoch>) {
    |endings| == |past| && forall i :: 0 <= i < |endings| && endings[i] == Finished ==> LeavesNothing(past[i])
  }

  lemma OneMoreEnding(endings: seq<Ending>, ending: Ending, before: seq<Epoch>, after: seq<Epoch>)
    requires EndingsTold(endings, before) && OneMore(before, after)
    requires ending == Finished ==> LeavesNothing(after[|after| - 1])
    ensures EndingsTold(endings + [ending], after)
  {
    forall i | 0 <= i < |endings| && endings[i] == Finished
      ensures LeavesNothing(after[i])
    {
      assert after[..|before|][i] == before[i];
    }
  }

  /** Exactly once: if every process finished, the table holds every bar below the committed offsets
      once and nothing else. */
  lemma AllFinishedExactlyOnce(log: Log, max: nat, steps: seq<Step>, endings: seq<Ending>, p: nat)
    requires max > 0 && Exec(log, max, steps).Some? && p < |log|
    requires StartsFresh(log, Exec(log, max, steps).value) && EndingsTold(endings, Exec(log, max, steps).value.past)
    requires forall k :: 0 <= k < |endings| ==> endings[k] == Finished
    ensures var s := Exec(log, max, steps).value;
            |s.committed| == |log| && s.committed[p] <= |log[p]|
            && multiset(Of(p, s.table)) == multiset(Range(log, p, 0, s.committed[p]))
  {
    var s := Exec(log, max, steps).value;
    ExactAccounting(log, max, steps, p);
    NothingReplayed(s.past);
    assert s.settled + s.syncing == [];
  }

  lemma {:induction false} NothingReplayed(past: seq<Epoch>)
    requires forall k :: 0 <= k < |past| ==> LeavesNothing(past[k])
    ensures Replayed(past) == []
  {
    if past != [] {
      NothingReplayed(past[..|past| - 1]);
    }
  }

  /** Age bound of every process: after each of its passes the oldest bar it holds was polled less than
      maxWait plus one pass before the age check. */
  lemma BarsStayYoung(u: Setup, life: Life, journal: Journal, ending: Ending, longest: int, k: nat)
    requires u.max > 0 && JournalOf(u, life, journal, ending) && k < |journal.inputs|
    requires Timely(u.origin, longest, Passes(u, journal))
    ensures var a := AgedPasses(u.max, u.maxWait, u.origin, Passes(u, journal)[..k + 1]);
            var held := journal.moments[k + 1].held;
            && held.pending == journal.moments[k + 1].state.pending && a.held == held
            && WindowFits(held) && |a.stamps| == |held.pending| < u.max
            && (held.pending != [] ==> life.script[k].checkAt - a.stamps[0] < u.maxWait + longest)
  {
    HeldsFollow(u, journal);
    HeldIsYoung(u.max, u.maxWait, u.origin, longest, Passes(u, journal), Helds(journal), k);
    assert PassLink(u, journal.moments[k], journal.inputs[k], journal.moments[k + 1], journal.sents[k]);
  }

  /** No flush by age of a process comes early: if the age check of pass k leaves other bars pending than
      it found, the oldest it found had waited maxWait. */
  lemma AgeFlushesAreDue(u: Setup, life: Life, journal: Journal, ending: Ending, longest: int, k: nat)
    requires u.max > 0 && JournalOf(u, life, journal, ending) && k < |journal.inputs|
    requires Timely(u.origin, longest, Passes(u, journal))
    ensures var before, after := journal.moments[k], journal.moments[k + 1];
            var found := RecordEffect(u, before.state.position, before.held, life.script[k]).held.pending;
            var a := AgedPasses(u.max, u.maxWait, u.origin, Passes(u, journal)[..k]);
            var stamps := StampsWith(a.stamps, Passes(u, journal)[k]);
            && before.held.pending == a.held.pending
            && DueIfFlushed(u.maxWait, found, after.state.pending, stamps, life.script[k].checkAt)
  {
    var passes := Passes(u, journal);
    HeldFollows(u, journal, k);
    HeldFollows(u, journal, k + 1);
    TimelyFirst(u.origin, longest, passes, k + 1);
    LastFlushIsDue(u, longest, passes, k);
    TakenIsEffect(u, journal.moments[k].state.position, journal.moments[k].held, journal.inputs[k]);
    PendingIsHeld(u, journal, k);
  }

  lemma LastFlushIsDue(u: Setup, longest: int, passes: seq<TimedPass>, k: nat)
    requires u.max > 0 && k < |passes| && Timely(u.origin, longest, passes[..k + 1])
    ensures var a := AgedPasses(u.max, u.maxWait, u.origin, passes[..k]);
            DueIfFlushed(u.maxWait, TakenUp(u.max, u.origin, a.held, passes[k]).held.pending,
                         AgedPasses(u.max, u.maxWait, u.origin, passes[..k + 1]).held.pending,
                         StampsWith(a.stamps, passes[k]), passes[k].checkAt)
  {
    AgeFlushIsDue(u.max, u.maxWait, u.origin, longest, passes[..k + 1]);
    assert passes[..k + 1][..k] == passes[..k];
  }

  lemma TakenIsEffect(u: Setup, position: seq<nat>, held: Held, input: PassInput)
    requires u.max > 0
    ensures TakenUp(u.max, u.origin, held, TimedOf(u, position, input)) == RecordEffect(u, position, held, input)
  {
  }

  lemma PendingIsHeld(u: Setup, j: Journal, k: nat)
    requires u.max > 0 && JournalOk(u, j) && k < |j.inputs|
    ensures j.moments[k + 1].state.pending == j.moments[k + 1].held.pending
  {
    assert PassLink(u, j.moments[k], j.inputs[k], j.moments[k + 1], j.sents[k]);
  }

  // ----- what the dashboard shows -----

  /** A log that holds what the exporter accepts of each process's events, in any interleaving; the
      processes are told apart by their start times. */
  ghost predicate Merges(entries: seq<CommitPairing.LogEntry>, outputs: seq<seq<Event>>) {
    forall p :: 0 <= p < |outputs| ==> CommitPairing.Project(entries, p) == CommitPairing.ExportedLog(outputs[p], p)
  }

  /** For all loader processes together: the commits the dashboard pairs for each are exactly its
      finished flushes, these are all there were, and each is durable. */
  lemma DashboardShowsFlushes(log: Log, max: nat, threshold: int, steps: seq<Step>, outputs: seq<seq<Event>>,
                              flushed: seq<seq<Batch>>, journals: seq<Journal>, entries: seq<CommitPairing.LogEntry>)
    requires max > 0 && |outputs| == |flushed| == |journals| && Exec(log, max, steps).Some?
    requires Flushed(log, max, steps) == Joined(flushed)
    requires forall k :: 0 <= k < |outputs| ==> Honest(threshold, outputs[k], flushed[k], journals[k])
    requires Merges(entries, outputs)
    ensures forall p :: 0 <= p < |outputs| ==>
              CommitPairing.ShowsFlushes(CommitPairing.CommitsOf(entries, p), flushed[p])
    ensures Durable(log, Concat(Joined(flushed)), Exec(log, max, steps).value)
  {
    FlushedAreDurable(log, max, steps);
    forall p | 0 <= p < |outputs|
      ensures CommitPairing.ShowsFlushes(CommitPairing.CommitsOf(entries, p), flushed[p])
    {
      ReportedMeaning(outputs[p], flushed[p], Somes(journals[p].sents));
      CommitPairing.PairingRecoversFlushes(entries, p, outputs[p], flushed[p]);
    }
  }

  // ----- what the heartbeats mean -----

  predicate TimesInOrder(inputs: seq<PassInput>) {
    forall a, b :: 0 <= a <= b < |inputs| ==> inputs[a].now <= inputs[b].now
  }

  lemma ReportsInOrder(u: Setup, j: Journal, a: nat, b: nat)
    requires u.max > 0 && JournalOk(u, j) && TimesInOrder(j.inputs) && a < b < |Somes(j.sents)|
    ensures Somes(j.sents)[a].now <= Somes(j.sents)[b].now
  {
    var k := SomesFrom(j.sents, a);
    var l := SomesFrom(j.sents, b);
    if k > l {
      SomesGrow(j.sents, l, k);
    }
    assert PassLink(u, j.moments[k], j.inputs[k], j.moments[k + 1], j.sents[k]);
    assert PassLink(u, j.moments[l], j.inputs[l], j.moments[l + 1], j.sents[l]);
  }

  lemma AllInOrder(u: Setup, j: Journal)
    requires u.max > 0 && JournalOk(u, j) && TimesInOrder(j.inputs)
    ensures forall a, b :: 0 <= a < b < |Somes(j.sents)| ==> Somes(j.sents)[a].now <= Somes(j.sents)[b].now
  {
    forall a, b | 0 <= a < b < |Somes(j.sents)|
      ensures Somes(j.sents)[a].now <= Somes(j.sents)[b].now
    {
      ReportsInOrder(u, j, a, b);
    }
  }

  /** The verdict of heartbeat i is the history's, and `stalled` was sent once per run of stalled ones. */
  ghost predicate StallIsHistory(output: seq<Event>, i: nat, threshold: int)
    requires i < |Reports(output)|
  {
    var reports := Reports(output);
    && (reports[i].state == Stalled <==> exists m: nat :: m <= i && NoProgressSince(Samples(reports), m, i, threshold))
    && StalledEvents(output) == StalledRuns(States(reports))
  }

  /** What the heartbeat of pass k means: it is sent with the sample of that pass; it is stalled exactly
      when the history of samples shows it, and `stalled` is sent once per run; and if the broker's answer
      was that of the moment it was sent, with whatever end offsets, it tells what is outstanding then. */
  lemma HeartbeatsAreTrue(u: Setup, threshold: int, life: Life, output: seq<Event>, ending: Ending, flushed: seq<Batch>,
                          journal: Journal, steps: seq<Step>, k: nat)
    requires u.max > 0 && |u.log| > 0 && LifeOk(u, threshold, life, output, ending, flushed, journal)
    requires OnSteps(u.log, u.max, steps, journal.moments) && TimesInOrder(journal.inputs)
    requires k < |journal.inputs| && journal.sents[k].Some?
    ensures var i, r, after := |Somes(journal.sents[..k])|, journal.sents[k].value, journal.moments[k + 1];
            && i < |Reports(output)| && Reports(output)[i] == r && StallIsHistory(output, i, threshold)
            && r.now == life.script[k].now && IsSampleOf(life.script[k].view.value, r.offsets)
            && Shape(u.log, after.state)
            && forall ends :: EndsFor(u.log, after.state, ends)
                              && Sees(u.log, WithEnds(after.state, ends), life.script[k].view.value)
                              ==> Tells(u.log, WithEnds(after.state, ends), r.state)
  {
    var i, r, after := |Somes(journal.sents[..k])|, journal.sents[k].value, journal.moments[k + 1];
    SomesAt(journal.sents, k);
    ReportedMeaning(output, flushed, Somes(journal.sents));
    SentBetweenPasses(u, journal, steps, k);
    var tracked, previous :| Matches(output, tracked, previous, threshold);
    MatchesMeaning(output, tracked, previous, threshold);
    AllInOrder(u, journal);
    assert Reports(output)[i] in Reports(output);
    HeartbeatsTellHistory(output, tracked, previous, threshold, i);
    HeartbeatTellsState(u.log, u.max, output, tracked, previous, threshold, i, after.state);
    ViewTellsAny(u.log, after.state, life.script[k].view.value, r.offsets, r.state);
  }

  lemma ViewTellsAny(log: Log, s: State, view: BrokerView, offsets: seq<PartitionOffsets>, state: HealthState)
    requires Shape(log, s) && TellsAnyEnds(log, s, offsets, state) && IsSampleOf(view, offsets)
    ensures forall ends :: EndsFor(log, s, ends) && Sees(log, WithEnds(s, ends), view)
                           ==> Tells(log, WithEnds(s, ends), state)
  {
    forall ends | EndsFor(log, s, ends) && Sees(log, WithEnds(s, ends), view)
      ensures Tells(log, WithEnds(s, ends), state)
    {
      ViewTellsState(log, s, view, offsets, state, ends);
    }
  }

  lemma SentBetweenPasses(u: Setup, j: Journal, steps: seq<Step>, k: nat)
    requires u.max > 0 && JournalOk(u, j) && OnSteps(u.log, u.max, steps, j.moments)
    requires k < |j.inputs| && j.sents[k].Some?
    ensures var r, s := j.sents[k].value, j.moments[k + 1].state;
            && Reachable(u.log, u.max, s) && BetweenPasses(s) && j.inputs[k].view.Some?
            && r.bufferedBars == |s.pending| && r.bufferedSources == |Sources(s.pending)|
            && r.now == j.inputs[k].now && IsSampleOf(j.inputs[k].view.value, r.offsets)
  {
    assert PassLink(u, j.moments[k], j.inputs[k], j.moments[k + 1], j.sents[k]);
    assert Executes(u.log, u.max, steps[..j.moments[k + 1].mark], j.moments[k + 1].state);
  }
}
