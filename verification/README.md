# Verified model of the streaming lakehouse

This project models, in Dafny, the parts of the repository whose correctness
depends on order, crashes and history, and proves properties of them. It has
three main parts and three smaller ones.

**The loader** (`iceberg-loader-java`) polls one Kafka record at a time,
explodes it into bars, cuts the bars into bounded batches, appends each batch to
an Iceberg table and only then commits the offsets of the records whose final
bar was in the batch.

- `Batching` is the batch itself, as a class, and what cutting means.
- `LoaderPass` is one pass of the poll loop in memory, with the age window, and
  how old a bar can get. Clock readings are 64-bit and wrap around.
- `LoaderSystem` is the loader with the broker and the table as a state machine:
  records are produced, polled, drained, appended, committed, and the process
  may end at any point, with a failed append or offset commit that took effect
  or not, for all partitions or some.
- `LoaderSafety` is the invariant every step keeps; `LoaderTheorems` the
  delivery guarantees over all runs; `LoaderReplay` how the rows of all
  incarnations lie in a partition's stream, and how far a restart goes over them
  again; `LoaderReplayExample` runs that meet these bounds for all limits, and
  runs that show what they do not promise; `LoaderLag` what lag counts.
- `LoaderFlush` is `flush` and the append as imperative code, with kills inside
  them; `LoaderJournal` what one pass does from one state between passes to the
  next, and the journal of a process's passes; `LoaderMain` the process as
  imperative code (the poll loop, the final flush): every process it can run,
  however it ends, is a run of the state machine, and its journal is right.
- `LoaderHealth` is the health reporter as a class and the history its few
  remembered instants stand for; `LoaderHeartbeat` joins it with the loader.
- `LoaderRuns` starts one process after another on what the last one left, and
  proves that the dashboard shows exactly the flushes they finished, that each
  heartbeat tells of the state at the end of the pass that sent it, and that
  processes that all finish deliver exactly once.

**The extractor** (`websocket-extractor-rust`) is a websocket task and a producer
task joined by a bounded channel. `Extractor` is their interleaving, with
cancellation, retries and teardown; `ExtractorTheorems` proves conservation,
bounds, order, and that shutdown terminates; `ExtractorLoops` has the retry loop
and the enqueue loop as methods, and `ExtractorRetries` shows that the retries of
any interleaving are those of the loop; `ExtractorCounts` says what the counters
count, and that the pipeline can deliver whatever it is sent.

**The dashboard and compaction** (`dashboard/export_metrics.py`,
`scripts/submit_compaction.py`): `CommitPairing` proves that pairing commit
events recovers the loader's finished flushes, `DashboardHealth` that the verdict
is a join, `MarketCalendar` that the next opening is the least one, `QuietWindow`
what the quiet-window loop guarantees.

## How the model reads

- The log of a partition is fixed for a run and holds everything ever produced;
  `produced` says how much of it exists so far.
- A table row keeps the source record and final tag of its bar. The bars alone
  are what the real table holds; keeping the source makes "which row" precise.
- The loader subscribes to one topic, so a partition number stands for a
  topic-partition. Offsets start at 0 and nothing is trimmed.
- Network, disk, clock and broker answers are parameters of the methods and
  choices of the steps. A reading of nanoTime is the true time plus an unknown
  origin, wrapped to 64 bits.
- `LoaderSafety.Inv` holds in every reachable state (`ReachableInv`), so the
  lemmas that assume it hold in every reachable state too.

## Where the code does not do what one might expect

- A frame without bars carries no final tag, so its offset is committed only by
  a later non-empty record. At the tail of a topic it keeps lag positive with
  nothing buffered: the loader reports `catching_up`, and after the threshold
  `stalled` (`LoaderHeartbeat.EmptyTailStalls`). `catching_up` means unread
  records if and only if no empty record is outstanding or something is unread
  anyway (`CatchingUpMeansUnread`).
- A crash between flushes can make more than (largest record - 1) bars be met
  again: rows of a flush that was interrupted earlier stay in the table. Two
  kills in a row leave the full (largest record - 1) + maximumRecords, for all
  limits (`LoaderReplayExample.SecondKillMeetsAll`). What is met again is, exactly,
  from the committed offset to the farthest row of any incarnation; it is at most
  (largest record - 1) as far as finished flushes reach, and nothing lies beyond
  that if and only if finished flushes have got as far as every interrupted one
  (`LoaderReplay.ReplayBound`). That the offset has advanced since the interrupted
  flush is not enough (`AdvanceIsNotEnough`).
- The replay bound is per partition. Over several partitions and several crashes
  the bounds add up, to the number of partitions times the bound and not less
  (`LoaderReplay.TotalReplay`, `LoaderReplayExample.TotalIsMet`); only the rows of one
  incarnation are bounded for all its partitions together
  (`LoaderReplay.OwnReplayBound`).
- The age window uses -1 for "closed", which is also a possible clock reading.
  Window and batch agree if and only if no stored reading is -1
  (`LoaderPass.WindowFitsExactly`).
- A record that does not decode ends the process each time it is polled; its
  partition is never committed past it (`LoaderTheorems.MalformedRecordBlocks`).
- The runbook says an offset commit that failed did not happen. The model lets
  it have happened for any subset of the partitions.
- The retry schedule is min(2^(n-1), limit) if and only if the limit is at least
  one second or n > 1; the first sleep is always one second
  (`ExtractorLoops.DelayClosedForm`).
- The last quiet-window sample ends at or after the deadline, but begins there
  only if the last sleep covered the rest of the window
  (`QuietWindow.LastSampleBegins`, `SlowReadBeginsEarly`).
- The state `committing` is never reported by a heartbeat, because heartbeats
  are taken only between flushes (`LoaderMain.LoaderProcess.Run`).

## Model

| member | source | states |
|---|---|---|
| Batching.BoundedBatch.Create | iceberg-loader-java/src/main/java/io/gcehcatalog/loader/BoundedBatch.java:23-26 | a batch exists exactly for a positive limit |
| Batching.BoundedBatch.Add | iceberg-loader-java/src/main/java/io/gcehcatalog/loader/BoundedBatch.java:28-36 | full batches and rest are, in order, what was pending and then the record's bars, each bar once with its source, the last one final; every batch handed out is full |
| Batching.BoundedBatch.Drain | iceberg-loader-java/src/main/java/io/gcehcatalog/loader/BoundedBatch.java:46-51 | hands out everything pending and empties the batch; an error on an empty batch |
| Batching.CuttingKeepsStream | iceberg-loader-java/src/main/java/io/gcehcatalog/loader/BoundedBatch.java:28-36 | blocks followed by the rest are the stream: no entry lost, repeated or moved |
| Batching.BlocksAreSlices | iceberg-loader-java/src/main/java/io/gcehcatalog/loader/BoundedBatch.java:28-36 | block k is the k-th slice of exactly maximumRecords entries |
| Batching.BlocksCount | iceberg-loader-java/src/main/java/io/gcehcatalog/loader/BoundedBatch.java:28-36 | how many blocks there are, in terms of stream length and rest |
| Batching.AddsRefineChunking | iceberg-loader-java/src/main/java/io/gcehcatalog/loader/BoundedBatch.java:28-36 | any series of adds yields the same batches and rest as chunking the whole tagged stream at once |
| Batching.DrainsKeepStream | iceberg-loader-java/src/main/java/io/gcehcatalog/loader/BoundedBatch.java:28-51 | with drains anywhere between adds, batches plus pending are still the stream |
| Batching.BatchSizes | iceberg-loader-java/src/main/java/io/gcehcatalog/loader/BoundedBatch.java:28-51 | no batch of any history is empty or larger than maximumRecords |
| Batching.OneFinalPerSource | iceberg-loader-java/src/main/java/io/gcehcatalog/loader/BoundedBatch.java:6-13 | every non-empty record has exactly one final-tagged entry in the stream, its last entry |
| LoaderPass.RemainderIsOneSource | iceberg-loader-java/src/main/java/io/gcehcatalog/loader/Main.java:63-77 | after any full batch the remainder consists of bars of the record just polled only, and not all of them |
| LoaderPass.WindowFitsExactly | iceberg-loader-java/src/main/java/io/gcehcatalog/loader/Main.java:65-76 | the window is open exactly when bars are pending if and only if no stored reading is the sentinel |
| LoaderPass.WrapDifference | iceberg-loader-java/src/main/java/io/gcehcatalog/loader/BatchWindow.java:33-36 | the wrapped difference of two wrapped clock readings is the true elapsed time for spans below 2^63 ns |
| LoaderPass.AgeBound | iceberg-loader-java/src/main/java/io/gcehcatalog/loader/Main.java:61-83 | over any series of passes, at every age check that leaves bars pending the oldest was polled less than maxWait plus one pass earlier |
| LoaderPass.AgeFlushIsDue | iceberg-loader-java/src/main/java/io/gcehcatalog/loader/BatchWindow.java:33-36 | no flush by age comes early: what an age check flushes has an oldest bar polled at least maxWait before |
| LoaderPass.WrapMeaning | iceberg-loader-java/src/main/java/io/gcehcatalog/loader/BatchWindow.java:33-36 | a wrapped reading is the 64-bit value congruent to the true one |
| LoaderPass.HeldIsYoung | iceberg-loader-java/src/main/java/io/gcehcatalog/loader/Main.java:61-83 | the same of what a process holds after each of its passes |
| LoaderRuns.BarsStayYoung | iceberg-loader-java/src/main/java/io/gcehcatalog/loader/Main.java:61-83 | the age bound for every pass of every process, for the bars pending in the state after it and the polls that led there |
| LoaderRuns.AgeFlushesAreDue | iceberg-loader-java/src/main/java/io/gcehcatalog/loader/Main.java:79-83 | no flush by age of any pass of any process comes early |
| LoaderSystem.FinalOffsetsMeaning | iceberg-loader-java/src/main/java/io/gcehcatalog/loader/Main.java:109-118 | the merged offsets are, per partition, one past the largest record whose final bar is in the batch, and absent otherwise |
| LoaderSafety.ReachableInv | iceberg-loader-java/src/main/java/io/gcehcatalog/loader/Main.java:61-138 | the loader invariant holds after any sequence of polls, flushes, failures and restarts |
| LoaderSafety.CommitInv | iceberg-loader-java/src/main/java/io/gcehcatalog/loader/Main.java:109-129 | an offset commit keeps the invariant: only records entirely in the table are covered, the rest belongs to one record |
| LoaderSafety.CrashInv | iceberg-loader-java/src/main/java/io/gcehcatalog/loader/Main.java:105-137 | ending at any point, with unknown effects, leaves a state from which a restart keeps the invariant |
| LoaderSafety.UnfinishedGoesOn | iceberg-loader-java/src/main/java/io/gcehcatalog/loader/BoundedBatch.java:6-10 | a record cut by a batch boundary continues right after it |
| LoaderTheorems.IncarnationAccounting | iceberg-loader-java/src/main/java/io/gcehcatalog/loader/Main.java:61-88 | rows appended, batches handed out and bars pending are, in order, exactly the records polled since the start offset |
| LoaderTheorems.ExactAccounting | iceberg-loader-java/src/main/java/io/gcehcatalog/loader/Main.java:61-137 | over any number of crashes the table holds every bar below the committed offset once, plus exactly the rows each incarnation wrote at or above where it ended |
| LoaderTheorems.TotalAccounting | iceberg-loader-java/src/main/java/io/gcehcatalog/loader/Main.java:61-137 | the number of rows in the whole table: all bars below the committed offsets plus what every incarnation left at or above the offsets it ended with |
| LoaderTheorems.AtLeastOnce | iceberg-loader-java/src/main/java/io/gcehcatalog/loader/Main.java:98-137 | no bar of a record below a committed offset is ever missing from the table: bar k of record o is there with its source, and the bars of the committed frames are all there, counted with multiplicity |
| LoaderTheorems.FlushedAreDurable | iceberg-loader-java/src/main/java/io/gcehcatalog/loader/Main.java:98-137 | whatever happens later, the rows of every finished flush stay in the table and the records it finished stay committed |
| LoaderReplay.TableIsPieces | iceberg-loader-java/src/main/java/io/gcehcatalog/loader/Main.java:61-137 | in every reachable state a partition's rows, in table order, are one contiguous piece of its stream per incarnation, and the pieces together are everything up to the farthest, without a gap |
| LoaderReplay.ReplayBound | iceberg-loader-java/src/main/java/io/gcehcatalog/loader/Main.java:106-129 | over all incarnations: finished flushes reach at most (largest record - 1) bars of a partition beyond its committed offset, interrupted ones at most maximumRecords beyond finished ones, so a restart meets at most the sum again, and only the first part if and only if finished flushes have got as far as every interrupted one |
| LoaderReplay.TotalReplay | iceberg-loader-java/src/main/java/io/gcehcatalog/loader/Main.java:106-129 | over all partitions and incarnations a restart meets at most the number of partitions times that sum again |
| LoaderReplay.OwnReplayBound | iceberg-loader-java/src/main/java/io/gcehcatalog/loader/Main.java:106-129 | of the crashing incarnation's own rows, over all partitions, at most (largest record - 1) + maximumRecords are delivered again, and at most largest record - 1 between flushes |
| LoaderReplayExample.BoundIsMet | iceberg-loader-java/src/main/java/io/gcehcatalog/loader/Main.java:106-129 | for all limits a run meets both of these bounds with equality |
| LoaderReplayExample.SecondKillMeetsAll | iceberg-loader-java/src/main/java/io/gcehcatalog/loader/Main.java:98-137 | for all limits, a crash between flushes after an interrupted one leaves (largest record - 1) + maximumRecords rows to be delivered again |
| LoaderReplayExample.TotalIsMet | iceberg-loader-java/src/main/java/io/gcehcatalog/loader/Main.java:98-137 | for all limits and any number of partitions a run meets the total with equality |
| LoaderReplayExample.AdvanceIsNotEnough | iceberg-loader-java/src/main/java/io/gcehcatalog/loader/Main.java:98-137 | an offset that advanced after an interrupted flush does not restore the smaller bound |
| LoaderTheorems.CommittedNeverDecreases | iceberg-loader-java/src/main/java/io/gcehcatalog/loader/Main.java:109-129 | no step, crash or partial commit moves a partition's committed offset back |
| LoaderTheorems.CommittedIsLastFinished | iceberg-loader-java/src/main/java/io/gcehcatalog/loader/Main.java:109-129 | a partition's committed offset is one past its last record whose final bar this incarnation flushed, or the start offset |
| LoaderTheorems.MalformedRecordBlocks | iceberg-loader-java/src/main/java/io/gcehcatalog/loader/Main.java:68-95 | an undecodable record is never skipped in any run |
| LoaderLag.LagIdentity | iceberg-loader-java/src/main/java/io/gcehcatalog/loader/LoaderHealthReporter.java:173-202 | lag summed over partitions is buffered records plus unread records plus empty records between commit and poll position |
| LoaderLag.LagInEveryRun | iceberg-loader-java/src/main/java/io/gcehcatalog/loader/LoaderHealthReporter.java:173-202 | the lag identity at every heartbeat point of every run, with any crashes before it |
| LoaderLag.BufferedExactly | iceberg-loader-java/src/main/java/io/gcehcatalog/loader/BoundedBatch.java:42-44 | a record is buffered exactly when it is polled, not committed and not empty |
| LoaderHeartbeat.StateMeaning | iceberg-loader-java/src/main/java/io/gcehcatalog/loader/LoaderHealthReporter.java:225-246 | without a stall, catching up, buffering and idle mean exactly what is outstanding and where |
| LoaderHeartbeat.CatchingUpMeansUnread | iceberg-loader-java/src/main/java/io/gcehcatalog/loader/LoaderHealthReporter.java:243-245 | catching up equals "some record is unread" if and only if no empty record is outstanding or one is unread anyway |
| LoaderHeartbeat.SampleShows | iceberg-loader-java/src/main/java/io/gcehcatalog/loader/LoaderHealthReporter.java:173-202 | the sorted sample of the one consumer lists every partition's committed and end offset in order |
| LoaderHeartbeat.HeartbeatTellsState | iceberg-loader-java/src/main/java/io/gcehcatalog/loader/LoaderHealthReporter.java:134-171 | a heartbeat sent between passes with the counts of what is buffered then tells what is outstanding there, whatever end offsets its sample shows, so also of records produced but not polled |
| LoaderHeartbeat.EmptyTailStalls | iceberg-loader-java/src/main/java/io/gcehcatalog/loader/LoaderHealthReporter.java:237-242 | one empty frame at the tail is reported as a stall although everything is polled and nothing is buffered |
| LoaderHealth.Offsets | iceberg-loader-java/src/main/java/io/gcehcatalog/loader/LoaderHealthReporter.java:173-202 | one entry per assigned partition, sorted, with the fallbacks for missing committed, beginning and end offsets |
| LoaderHealth.SampleEntry | iceberg-loader-java/src/main/java/io/gcehcatalog/loader/LoaderHealthReporter.java:186-197 | the entry of a partition: committed offset, else beginning, else 0; end offset, else the committed one; lag never negative |
| LoaderHealth.LoaderHealthReporter.Create | iceberg-loader-java/src/main/java/io/gcehcatalog/loader/LoaderHealthReporter.java:68-86 | a reporter exists exactly for positive interval and threshold |
| LoaderHealth.LoaderHealthReporter.UpdateProgress | iceberg-loader-java/src/main/java/io/gcehcatalog/loader/LoaderHealthReporter.java:204-223 | the three remembered fields after a sample, tied to the function the history lemmas are about |
| LoaderHealth.LoaderHealthReporter.MaybeHeartbeat | iceberg-loader-java/src/main/java/io/gcehcatalog/loader/LoaderHealthReporter.java:134-171 | when a heartbeat is due, what it remembers and sends (state, offsets, lag, buffered counts, last input and last commit), that a failed sample changes only the timer, and that the fields keep matching what was sent |
| LoaderHealth.TrackMeaning | iceberg-loader-java/src/main/java/io/gcehcatalog/loader/LoaderHealthReporter.java:204-223 | the remembered instants are the start of the current run of lag and the last zero-lag sample or offset advance |
| LoaderHealth.StallVerdict | iceberg-loader-java/src/main/java/io/gcehcatalog/loader/LoaderHealthReporter.java:225-252 | stalled exactly when some earlier sample is at least the threshold away with positive lag and no offset advance since |
| LoaderHealth.StalledRunsLast | iceberg-loader-java/src/main/java/io/gcehcatalog/loader/LoaderHealthReporter.java:161-165 | a heartbeat begins a maximal run of stalled ones exactly when it is stalled and the one before was not |
| LoaderHealth.HeartbeatsTellHistory | iceberg-loader-java/src/main/java/io/gcehcatalog/loader/LoaderHealthReporter.java:134-171 | of everything a reporter has sent: a heartbeat is stalled exactly when its history of samples shows it, and `stalled` events are as many as maximal runs of stalled heartbeats |
| LoaderFlush.IcebergWriter.Append | iceberg-loader-java/src/main/java/io/gcehcatalog/loader/IcebergWriter.java:60-100 | the file holds the input in order; for each outcome, whether the table gets it as a whole or not at all, and the failure type |
| LoaderFlush.Broker.CommitSync | iceberg-loader-java/src/main/java/io/gcehcatalog/loader/Main.java:119-129 | a commit that succeeds moves every partition it names and no other, one that throws the part that took effect |
| LoaderFlush.OffsetsToCommit | iceberg-loader-java/src/main/java/io/gcehcatalog/loader/Main.java:109-118 | the merge loop computes the offsets FinalOffsetsMeaning characterizes |
| LoaderFlush.Flush | iceberg-loader-java/src/main/java/io/gcehcatalog/loader/Main.java:98-138 | append first, offsets only after it and only if a record finished; for every outcome the table, the broker, the reported events, the failure type and how it ends |
| LoaderMain.LoaderProcess.TakePolled | iceberg-loader-java/src/main/java/io/gcehcatalog/loader/Main.java:63-77 | one polled record: batches flushed in order, window restarted, or the process ends |
| LoaderMain.LoaderProcess.Pass | iceberg-loader-java/src/main/java/io/gcehcatalog/loader/Main.java:61-85 | a completed pass is one journal entry: from the state between passes before it to the one after it, in memory, at the table and in the steps taken, with the heartbeat sent exactly when due and carrying that state's counts |
| LoaderJournal.HeldsFollow | iceberg-loader-java/src/main/java/io/gcehcatalog/loader/Main.java:61-83 | what a journal says was held after each pass is what the passes leave by themselves |
| LoaderJournal.RecordIsTaken | iceberg-loader-java/src/main/java/io/gcehcatalog/loader/Main.java:62-70 | a polled record moves its partition's position by one, up to the end of the log, and no other partition's |
| LoaderJournal.PositionsCount | iceberg-loader-java/src/main/java/io/gcehcatalog/loader/Main.java:61-77 | after any number of passes a position is its start plus the records polled of that partition, up to the end of the log |
| LoaderJournal.HeartbeatWhenDue | iceberg-loader-java/src/main/java/io/gcehcatalog/loader/LoaderHealthReporter.java:137-143 | a pass an interval or more after the last heartbeat sends one if the broker answers, an earlier one none |
| LoaderMain.LoaderProcess.FlushNext | iceberg-loader-java/src/main/java/io/gcehcatalog/loader/Main.java:98-137 | a flush that succeeds is one append and one commit step and one more reported success with its counts; one that fails or is killed ends the process and reports none |
| LoaderMain.LoaderProcess.Run | iceberg-loader-java/src/main/java/io/gcehcatalog/loader/Main.java:53-95 | any process, ended by a failed flush, an undecodable record, a poll that throws, a kill anywhere or a graceful shutdown, is a run of the state machine, leaves every committed bar in the table, has reported as succeeded exactly the flushes it finished, and has a right journal of its passes and heartbeats; one in which nothing goes wrong finishes, and one that finishes leaves nothing uncommitted that has bars and no row beyond what is committed |
| LoaderRuns.Live | iceberg-loader-java/src/main/java/io/gcehcatalog/loader/Main.java:53-95 | one process started on what the broker and the table hold leaves what the next one can start on |
| LoaderRuns.Supervise | deployment/native/systemd/iceberg-loader.service:13-14 | any number of processes, each started on what the last one left, are one run with one incarnation each; committed bars are in the table, their reported successes are all flushes finished in it, their journals are of it, and those that finished left nothing to deliver again |
| LoaderRuns.AllFinishedExactlyOnce | iceberg-loader-java/src/main/java/io/gcehcatalog/loader/Main.java:53-95 | if every process finished, the table holds every bar below the committed offsets once and nothing else |
| LoaderRuns.FinishedDeliversAll | iceberg-loader-java/src/main/java/io/gcehcatalog/loader/Main.java:61-88 | a process that finished took in every record its polls returned, and every bar of them is in the table, whatever happened later |
| LoaderRuns.DashboardShowsFlushes | dashboard/export_metrics.py:444-465 | however the processes' events are merged, the commits paired for each are exactly the flushes it finished, with bar and source counts, and all of them are durable |
| LoaderRuns.HeartbeatsAreTrue | iceberg-loader-java/src/main/java/io/gcehcatalog/loader/LoaderHealthReporter.java:134-171 | the heartbeat of each pass of each process carries that pass's sample, is stalled exactly by the history, is reported as stalled once per run, and where the broker answered for the state after that pass, with any end offsets, tells what is outstanding in it |
| Extractor.StepInv | websocket-extractor-rust/src/kafka.rs:82-168 | every step of either task keeps order, places, bounds and phases |
| Extractor.LeadsInv | websocket-extractor-rust/src/kafka.rs:82-168 | so does every interleaving |
| ExtractorTheorems.Conservation | websocket-extractor-rust/src/ws.rs:294-304 | received frames are waiting, in the channel, being enqueued, in flight, sent, failed or refused; at producer exit nothing is in flight |
| ExtractorTheorems.MemoryBound | websocket-extractor-rust/src/kafka.rs:118-131 | undelivered frames held never exceed channel capacity + max_inflight + 1 |
| ExtractorTheorems.InOrder | websocket-extractor-rust/src/kafka.rs:119-168 | the k-th frame handed to librdkafka is the k-th received, in exactly one place, and rejected only if counted failed |
| ExtractorTheorems.ChannelInOrder | websocket-extractor-rust/src/ws.rs:294-304 | the channel holds the received frames next in order |
| ExtractorTheorems.ChannelOpenUntilCancelled | websocket-extractor-rust/src/main.rs:36-53 | neither end of the channel closes before shutdown, because the emitter keeps a sender |
| ExtractorTheorems.CleanEndNeedsCancel | websocket-extractor-rust/src/ws.rs:254-292 | the websocket task closes without error only on shutdown; an idle stream is a transient error |
| ExtractorCounts.CountersAreTrue | websocket-extractor-rust/src/kafka.rs:95-168 | messages_sent counts the acknowledged deliveries and delivery_failures the failed ones and the rejected frames, which frames these are, and that the frames received are those read |
| ExtractorCounts.AllCanBeDelivered | websocket-extractor-rust/src/kafka.rs:82-168 | for all positive limits any frames can be received and delivered, all of them |
| ExtractorCounts.CanReconnect | websocket-extractor-rust/src/ws.rs:107-121 | after a backoff the task can connect again with its attempts reset |
| ExtractorTheorems.RankDecreases | websocket-extractor-rust/src/kafka.rs:86-137 | after cancellation every step of every task lowers a bound on the steps left |
| ExtractorTheorems.NeverStuck | websocket-extractor-rust/src/ws.rs:254-304 | after cancellation some task can always move, also with the websocket task blocked on a full channel |
| ExtractorTheorems.ShutdownTerminates | websocket-extractor-rust/src/main.rs:72-86 | from a cancelled state runs are bounded and can only stop with every task joined and nothing in flight |
| ExtractorTheorems.ShutdownFromStart | websocket-extractor-rust/src/main.rs:72-86 | the same for whatever happened from process start to cancellation |
| ExtractorLoops.RunRetries | websocket-extractor-rust/src/ws.rs:57-123 | every sleep, the error count and the result, for every sequence of attempt outcomes |
| ExtractorLoops.StreakMeaning | websocket-extractor-rust/src/ws.rs:84-90 | a failure's place in its streak counts from the last dropped stream, or from the start |
| ExtractorLoops.ScheduleWrittenOut | websocket-extractor-rust/src/ws.rs:107-121 | one second after the first failure of a streak, then twice the sleep before up to the limit |
| ExtractorLoops.OutcomeWrittenOut | websocket-extractor-rust/src/ws.rs:92-121 | when the loop returns a fatal error, is exhausted, ends cleanly or goes on, in terms of the attempts |
| ExtractorLoops.ExhaustionMeaning | websocket-extractor-rust/src/ws.rs:84-105 | exhaustion is reported exactly when the last max_retries attempts all failed during setup |
| ExtractorRetries.RetriesAreTheLoop | websocket-extractor-rust/src/ws.rs:57-123 | in every interleaving of the tasks, retry counter and result are those of the retry loop on the attempts so far; exhaustion is exactly max_retries setup failures in a row |
| ExtractorLoops.ProducerQueue.Enqueue | websocket-extractor-rust/src/kafka.rs:142-168 | after any number of full-queue answers the same bytes are accepted once, or one failure is counted |
| CommitPairing.RecentCommits | dashboard/export_metrics.py:444-465 | the loop yields the commits of all successes in order; with a limit, the last ones up to it |
| CommitPairing.CommitOf | dashboard/export_metrics.py:444-465 | the commit of each success with a process is there, at its place among them |
| CommitPairing.PairedWith | dashboard/export_metrics.py:450-463 | a success carries the counts of the start of its process with nothing of that process after it, or none |
| CommitPairing.OpenStartMeaning | dashboard/export_metrics.py:444-465 | the open start is the latest one of the process with no start, success or failure of it after |
| CommitPairing.StartUsedOnce | dashboard/export_metrics.py:453-455 | no start is paired with two successes |
| CommitPairing.InterleavingIrrelevant | dashboard/export_metrics.py:446-465 | a process's commits do not depend on how other processes interleave |
| CommitPairing.PairingRecoversFlushes | dashboard/export_metrics.py:444-465 | in any merged log, the commits of a process whose successes are its finished flushes are these flushes with bar and source counts |
| DashboardHealth.ApplyFreshness | dashboard/export_metrics.py:807-821 | one freshness check keeps status the join of the reasons and reports what holds |
| DashboardHealth.SessionChecks | dashboard/export_metrics.py:767-783 | the checks that depend on market state, exactly |
| DashboardHealth.Health | dashboard/export_metrics.py:759-804 | status is the maximum severity of the reasons, healthy exactly without reasons, and the join of everything that holds |
| DashboardHealth.VerdictWrittenOut | dashboard/export_metrics.py:759-821 | when the status is unhealthy, at least warning, and healthy, with every comparison written out |
| DashboardHealth.OnlyWorsens | dashboard/export_metrics.py:807-821 | with inputs and market state fixed, a later time never gives a lower severity |
| MarketCalendar.OpeningDay | dashboard/export_metrics.py:95-98 | the first weekday at or after the candidate, in at most two steps |
| MarketCalendar.MarketStateAt | dashboard/export_metrics.py:75-92 | the session state, and the least weekday 09:30 strictly after the instant |
| QuietWindow.RequireQuietSnapshot | scripts/submit_compaction.py:112-132 | at most ceil(window / interval) samples, the last ends at or after the deadline, and, with never-decreasing versions, the loop accepts exactly if the table was one snapshot from the first look to the last |
| QuietWindow.SamplesTell | scripts/submit_compaction.py:112-132 | with never-decreasing versions, a sample equal to the first means no change in between, a different one a newer version |
| QuietWindow.SleepsAreCut | scripts/submit_compaction.py:121-125 | every sleep asks for the interval or what is left of the window, whichever is less |
| QuietWindow.SlowReadBeginsEarly | scripts/submit_compaction.py:123-125 | a read longer than the interval lets an earlier sample end the window |

## Left out

- Kafka group rebalances: the loader is the only member of its group and holds all partitions throughout.
- Log retention and topics with more than one name: offsets start at 0 and a partition number identifies a topic-partition.
- Iceberg, Parquet, GCS, librdkafka, tokio and tungstenite: their answers are choices of the steps and parameters of the methods.
- JSON decoding, field values, hashes and timestamps as text: a bar is opaque, a frame decodes or does not.
- LoaderFlush.IcebergWriter.Append: rows keep their source record; the ingestion time column and file names are not modelled.
- LoaderMain.LoaderProcess.Run: an unclassified exception inside flush is not modelled as an answer; its durable effects are those of a kill there. Exceptions before the loop, while consumer and writer are opened, are left out too.
- The topic name in events, and on commit events the repeated times of the last input and the last commit.
- LoaderHealth.StallVerdict: sample times do not run backwards; the reporter reads the wall clock, which could.
- Extractor.StepInv: one poll of a select is split at the shutdown token only, and completions do not take priority over receives, which allows more runs than the code.
- ExtractorTheorems.ShutdownTerminates: librdkafka answers "queue full" only finitely often, and setups, socket writes and deliveries resolve.
- The watchdog task, which only cancels; the metrics emitter beyond the sender it holds; `producer.flush` after the join.
- The final frame of a producer panic or a poisoned task.
- CommitPairing.PairingRecoversFlushes: the query limits on log entries, and loss of log entries, are not modelled.
- The dashboard does not count classified commit failures, because the loader emits `commit_failed` while the exporter filters on the failure types; no property relies on it.
- MarketCalendar.MarketStateAt: local wall-clock time only; time zone and daylight-saving conversion are left out.
- Configuration parsing, alert codes, cost and table summaries, receipts, command building, catalog migration, synthetic producers, Terraform, systemd units and the TypeScript page: no state or order to prove anything about.
- The Spark compaction job body: straight-line checks around foreign calls.
