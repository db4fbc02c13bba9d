/** Conservation, bounds, order and shutdown of the extractor's pipeline, for every interleaving. */
module ExtractorTheorems {
  import opened Extractor

  function Below(n: nat): set<nat> {
    if n == 0 then {} else Below(n - 1) + {n - 1}
  }

  lemma {:induction false} BelowMeaning(n: nat)
    ensures |Below(n)| == n && forall i: nat :: i in Below(n) <==> i < n
  {
    if n > 0 {
      BelowMeaning(n - 1);
    }
  }

  lemma PlacedCount(n: nat, inflight: set<nat>, delivered: set<nat>, failed: set<nat>)
    requires Placed(n, inflight, delivered, failed)
    ensures |inflight| + |delivered| + |failed| == n
  {
    BelowMeaning(n);
    assert inflight + delivered + failed == Below(n);
    assert |inflight + delivered| == |inflight| + |delivered|;
    assert |inflight + delivered + failed| == |inflight + delivered| + |failed|;
  }

  /** Message conservation: every frame counted as received is waiting for the channel, in it, being
      enqueued, in flight, counted as sent, counted as failed, or was refused by the closed channel. */
  lemma Conservation(c: Config, full: nat, actions: seq<Action>, s: State)
    requires Leads(c, Init(full), actions, s)
    ensures |s.received| == |Waiting(s)| + |s.channel| + |BeingEnqueued(s)| + |s.inflight|
                            + s.sentCount + s.failureCount + |s.refused|
    ensures s.producer == Exited ==>
              s.inflight == {}
              && |s.received| == s.sentCount + s.failureCount + |s.channel| + |Waiting(s)| + |s.refused|
  {
    InitInv(c, full);
    LeadsInv(c, Init(full), actions, s);
    PlacedCount(|s.taken|, s.inflight, s.delivered, s.failed);
  }

  /** Frames held but not yet delivered never exceed channel capacity plus in-flight limit plus one. */
  lemma MemoryBound(c: Config, full: nat, actions: seq<Action>, s: State)
    requires Leads(c, Init(full), actions, s)
    ensures |s.channel| + |s.inflight| + |BeingEnqueued(s)| + |Waiting(s)| <= c.capacity + c.maxInflight + 1
    ensures |s.channel| <= c.capacity && |s.inflight| <= c.maxInflight
  {
    InitInv(c, full);
    LeadsInv(c, Init(full), actions, s);
  }

  /** Order: the k-th frame the producer disposed of is the k-th frame received, bytes unchanged; it was
      accepted by librdkafka and is in flight, delivered or failed, or was rejected and counted failed. */
  lemma InOrder(c: Config, full: nat, actions: seq<Action>, s: State, k: nat)
    requires Leads(c, Init(full), actions, s) && k < |s.taken|
    ensures k < |s.received| && s.taken[k].frame == s.received[k]
    ensures !s.taken[k].accepted ==> k in s.failed
    ensures (k in s.inflight && k !in s.delivered && k !in s.failed)
            || (k !in s.inflight && k in s.delivered && k !in s.failed)
            || (k !in s.inflight && k !in s.delivered && k in s.failed)
    ensures s.sentCount == |s.delivered| && s.failureCount == |s.failed|
  {
    InitInv(c, full);
    LeadsInv(c, Init(full), actions, s);
    assert Frames(s.taken)[k] == s.taken[k].frame;
    assert k in s.inflight || k in s.delivered || k in s.failed;
  }

  /** The frames still in the channel are the ones received right after those taken and being enqueued. */
  lemma ChannelInOrder(c: Config, full: nat, actions: seq<Action>, s: State)
    requires Leads(c, Init(full), actions, s)
    ensures s.received == Frames(s.taken) + BeingEnqueued(s) + s.channel + Waiting(s) + s.refused
  {
    InitInv(c, full);
    LeadsInv(c, Init(full), actions, s);
  }

  /** The channel closes on neither side before shutdown: the emitter's sender keeps it open for the
      producer, and the producer stops receiving only to drain. */
  lemma ChannelOpenUntilCancelled(c: Config, full: nat, actions: seq<Action>, s: State)
    requires Leads(c, Init(full), actions, s)
    ensures ChannelClosed(s) || s.producer == Exited ==> s.cancelled
    ensures ProducerEnabled(c, s, RecvClosed) || WsEnabled(c, s, SendFails) ==> s.cancelled
  {
    InitInv(c, full);
    LeadsInv(c, Init(full), actions, s);
    ClosedNeedsCancel(c, s);
  }

  lemma ClosedNeedsCancel(c: Config, s: State)
    requires Phases(s)
    ensures ChannelClosed(s) || s.producer == Exited ==> s.cancelled
    ensures ProducerEnabled(c, s, RecvClosed) || WsEnabled(c, s, SendFails) ==> s.cancelled
  {
  }

  /** The websocket task ends cleanly only on shutdown; an idle or dropped stream reconnects. */
  lemma CleanEndNeedsCancel(c: Config, full: nat, actions: seq<Action>, s: State)
    requires Leads(c, Init(full), actions, s)
    ensures s.ws == Stopped(Clean) || s.ws == Closing(false) ==> s.cancelled
  {
    InitInv(c, full);
    LeadsInv(c, Init(full), actions, s);
  }

  // ----- shutdown -----

  function RetriesLeft(c: Config, attempt: nat): nat {
    if attempt < c.maxRetries then 2 * (c.maxRetries - attempt) else 0
  }

  function WsRank(c: Config, s: State): nat {
    match s.ws
    case Connecting => 3 + RetriesLeft(c, s.attempt)
    case Streaming(armed) => if armed then 5 + RetriesLeft(c, 0) else 2
    case Sending(_) => 3
    case Closing(idle) => if idle then 3 + RetriesLeft(c, 0) else 1
    case Backoff => 2 + RetriesLeft(c, s.attempt)
    case Stopped(_) => 0
  }

  function ProducerRank(s: State): nat {
    match s.producer
    case Exited => 0
    case Enqueuing(_) => 4 + |s.inflight|
    case Selecting(armed) => (if s.draining then 1 else if armed then 5 else 2) + |s.inflight|
  }

  function OthersRank(s: State): nat {
    s.fullAnswers + (if s.emitterRunning then 1 else 0)
    + (match s.main case AwaitingWs => 2 case TornDown => 1 case Joined => 0)
  }

  /** An upper bound on the steps left once shutdown is signalled. */
  function Rank(c: Config, s: State): nat {
    WsRank(c, s) + ProducerRank(s) + OthersRank(s)
  }

  ghost predicate BackoffRetries(c: Config, s: State) {
    s.ws == Backoff ==> s.attempt < c.maxRetries
  }

  lemma WsRankDecreases(c: Config, s: State, a: WsAction)
    requires Phases(s) && BackoffRetries(c, s) && s.cancelled && WsEnabled(c, s, a)
    ensures WsRank(c, WsApply(c, s, a)) < WsRank(c, s)
  {
  }

  lemma ProducerRankDecreases(c: Config, s: State, a: ProducerAction)
    requires Phases(s) && s.cancelled && ProducerEnabled(c, s, a)
    ensures var t := ProducerApply(c, s, a); ProducerRank(t) + t.fullAnswers < ProducerRank(s) + s.fullAnswers
  {
    if a.Complete? {
      RemoveCount(s.inflight, a.index);
    } else if a.EnqueueAccepted? {
      AddCount(s.inflight, |s.taken|);
    }
  }

  lemma ProducerLeavesOthers(c: Config, s: State, a: ProducerAction)
    requires ProducerEnabled(c, s, a)
    ensures var t := ProducerApply(c, s, a);
            t.ws == s.ws && t.attempt == s.attempt && t.cancelled == s.cancelled
            && t.emitterRunning == s.emitterRunning && t.main == s.main
  {
  }

  lemma SystemRankDecreases(c: Config, s: State, a: SystemAction)
    requires s.cancelled && SystemEnabled(s, a)
    ensures OthersRank(SystemApply(s, a)) < OthersRank(s) && SystemApply(s, a).cancelled
  {
  }

  /** After cancellation every step of every task brings shutdown closer. */
  lemma RankDecreases(c: Config, s: State, a: Action)
    requires Phases(s) && BackoffRetries(c, s) && s.cancelled && Enabled(c, s, a)
    ensures var t := Apply(c, s, a); t.cancelled && Rank(c, t) < Rank(c, s)
  {
    match a
    case OfWs(w) =>
      WsRankDecreases(c, s, w);
      WsLeavesProducer(c, s, w);
    case OfProducer(p) =>
      ProducerRankDecreases(c, s, p);
      ProducerLeavesOthers(c, s, p);
    case OfSystem(m) =>
      SystemRankDecreases(c, s, m);
  }

  lemma {:induction false} LeadsBackoff(c: Config, s: State, actions: seq<Action>, t: State)
    requires Inv(c, s) && BackoffRetries(c, s) && Leads(c, s, actions, t)
    ensures BackoffRetries(c, t)
    decreases |actions|
  {
    if actions != [] {
      StepInv(c, s, actions[0]);
      StepBackoff(c, s, actions[0]);
      LeadsBackoff(c, Apply(c, s, actions[0]), actions[1..], t);
    }
  }

  lemma WsStepBackoff(c: Config, s: State, a: WsAction)
    requires BackoffRetries(c, s) && WsEnabled(c, s, a)
    ensures BackoffRetries(c, WsApply(c, s, a))
  {
  }

  lemma StepBackoff(c: Config, s: State, a: Action)
    requires BackoffRetries(c, s) && Enabled(c, s, a)
    ensures BackoffRetries(c, Apply(c, s, a))
  {
    match a
    case OfWs(w) => WsStepBackoff(c, s, w);
    case OfProducer(p) => ProducerLeavesOthers(c, s, p);
    case OfSystem(_) =>
  }

  /** Some task can take a step; the environment's part is that setups, socket writes, deliveries
      and a full librdkafka queue resolve. */
  ghost predicate CanMove(c: Config, s: State) {
    exists a :: Enabled(c, s, a)
  }

  lemma ProducerMoves(c: Config, s: State)
    requires s.cancelled && s.producer != Exited
    ensures CanMove(c, s)
  {
    var a := ElseBreak;
    if s.producer.Enqueuing? {
      a := EnqueueAccepted;
    } else if !s.draining {
      a := if s.producer.armed then SeeToken else PollToken;
    } else if s.inflight != {} {
      var i :| i in s.inflight;
      a := Complete(i, true);
    }
    assert Enabled(c, s, OfProducer(a));
  }

  /** Shutdown never deadlocks: once cancelled, some task can move until main has joined the others,
      also while the websocket task is blocked sending into a full channel. */
  lemma NeverStuck(c: Config, s: State)
    requires s.cancelled && s.main != Joined && (s.main == TornDown ==> s.ws.Stopped?)
    ensures CanMove(c, s)
  {
    if s.producer != Exited {
      ProducerMoves(c, s);
    } else {
      var a :=
        match s.ws
        case Connecting => OfWs(SetupTransient)
        case Streaming(armed) => OfWs(if armed then SeeCancel else Poll)
        case Closing(_) => OfWs(CloseDone)
        case Backoff => OfWs(BackoffCancelled)
        case Sending(_) => OfWs(SendFails)
        case Stopped(_) =>
          OfSystem(if s.main == AwaitingWs then MainTearsDown else if s.emitterRunning then EmitterStops
                   else MainJoins);
      assert Enabled(c, s, a);
    }
  }

  /** Shutdown terminates: from any reachable cancelled state at most Rank more steps happen, and
      when no step is possible main has joined everything with nothing in flight. */
  lemma {:induction false} ShutdownTerminates(c: Config, s: State, actions: seq<Action>, t: State)
    requires Inv(c, s) && BackoffRetries(c, s) && s.cancelled && Leads(c, s, actions, t)
    ensures |actions| + Rank(c, t) <= Rank(c, s)
    ensures t.main != Joined ==> CanMove(c, t)
    ensures t.main == Joined ==> t.producer == Exited && t.inflight == {} && t.ws.Stopped? && !t.emitterRunning
    decreases |actions|
  {
    if actions == [] {
      if s.main != Joined {
        NeverStuck(c, s);
      }
    } else {
      StepInv(c, s, actions[0]);
      StepBackoff(c, s, actions[0]);
      RankDecreases(c, s, actions[0]);
      ShutdownTerminates(c, Apply(c, s, actions[0]), actions[1..], t);
    }
  }

  /** The same from process start: whatever happened before and at cancellation. */
  lemma ShutdownFromStart(c: Config, full: nat, before: seq<Action>, s: State, after: seq<Action>, t: State)
    requires Leads(c, Init(full), before, s) && s.cancelled && Leads(c, s, after, t)
    ensures |after| + Rank(c, t) <= Rank(c, s)
    ensures t.main != Joined ==> CanMove(c, t)
    ensures t.main == Joined ==> t.producer == Exited && t.inflight == {} && t.ws.Stopped? && !t.emitterRunning
  {
    InitInv(c, full);
    LeadsInv(c, Init(full), before, s);
    LeadsBackoff(c, Init(full), before, s);
    ShutdownTerminates(c, s, after, t);
  }
}
