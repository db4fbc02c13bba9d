/** The extractor's pipeline: the websocket task, the bounded channel, the Kafka producer task
    and the teardown in `main`, as interleaved steps (ws.rs, kafka.rs, main.rs, metrics.rs). */
module Extractor {

  /** The bytes of one websocket data frame. */
  type Frame(==, !new)

  datatype Config = Config(capacity: nat, maxInflight: nat, maxRetries: nat)

  datatype WsResult = Clean | Fatal | Exhausted

  /** Where `ws::run` is.  `armed`: this pass through the select has already polled the shutdown
      token and found it not cancelled. */
  datatype Ws =
    | Connecting
    | Streaming(armed: bool)
    | Sending(frame: Frame)      // in `forward`, frame counted, `tx.send` pending
    | Closing(idle: bool)        // sending a close frame, on idle timeout or on shutdown
    | Backoff
    | Stopped(result: WsResult)

  datatype Producer =
    | Selecting(armed: bool)
    | Enqueuing(frame: Frame)
    | Exited

  datatype Main = AwaitingWs | TornDown | Joined

  /** A frame the producer took from the channel, and whether librdkafka accepted it. */
  datatype Taken = Taken(frame: Frame, accepted: bool)

  datatype State = State(
    cancelled: bool,
    ws: Ws, attempt: nat,
    producer: Producer, draining: bool,
    channel: seq<Frame>,
    emitterRunning: bool, main: Main,
    received: seq<Frame>,        // every data frame counted in messages_received
    refused: seq<Frame>,         // a frame whose channel send failed
    taken: seq<Taken>,
    inflight: set<nat>, delivered: set<nat>, failed: set<nat>,   // indices into taken
    sentCount: nat, failureCount: nat,                           // the metrics counters
    fullAnswers: nat)            // how often librdkafka will still answer QueueFull

  datatype WsAction =
    | SetupOk | SetupTransient | SetupFatal
    | Poll | SeeCancel | ReadFrame(frame: Frame) | ReadOther | StreamError | IdleTimeout | CloseDone
    | Send | SendFails
    | BackoffElapsed | BackoffCancelled

  datatype ProducerAction =
    | PollToken | SeeToken | Complete(index: nat, ok: bool) | Recv | RecvClosed | ElseBreak
    | EnqueueAccepted | EnqueueFull | EnqueueRejected

  /** A signal or the watchdog cancels; the emitter task and `main` follow. */
  datatype SystemAction = Cancel | EmitterStops | MainTearsDown | MainJoins

  datatype Action = OfWs(ws: WsAction) | OfProducer(producer: ProducerAction) | OfSystem(system: SystemAction)

  function Init(fullAnswers: nat): State {
    State(false, Connecting, 1, Selecting(false), false, [], true, AwaitingWs, [], [], [], {}, {}, {}, 0, 0,
          fullAnswers)
  }

  /** All senders are gone: the one moved into `ws::run`, main's, and the metrics emitter's clone. */
  predicate ChannelClosed(s: State) {
    s.ws.Stopped? && s.main != AwaitingWs && !s.emitterRunning
  }

  predicate WsEnabled(c: Config, s: State, a: WsAction) {
    match a
    case SetupOk => s.ws == Connecting
    case SetupTransient => s.ws == Connecting
    case SetupFatal => s.ws == Connecting
    case Poll => s.ws == Streaming(false)
    case SeeCancel => s.ws == Streaming(true) && s.cancelled
    case ReadFrame(_) => s.ws == Streaming(true)
    case ReadOther => s.ws == Streaming(true)
    case StreamError => s.ws == Streaming(true)
    case IdleTimeout => s.ws == Streaming(true)
    case CloseDone => s.ws.Closing?
    case Send => s.ws.Sending? && s.producer != Exited && |s.channel| < c.capacity
    case SendFails => s.ws.Sending? && s.producer == Exited
    case BackoffElapsed => s.ws == Backoff
    case BackoffCancelled => s.ws == Backoff && s.cancelled
  }

  /** A transient error of the running attempt: give up after max_retries, else back off. */
  function AfterTransient(c: Config, s: State): State {
    s.(ws := if s.attempt >= c.maxRetries then Stopped(Exhausted) else Backoff)
  }

  function WsApply(c: Config, s: State, a: WsAction): State
    requires WsEnabled(c, s, a)
  {
    match a
    case SetupOk => s.(ws := Streaming(false), attempt := 0)
    case SetupTransient => AfterTransient(c, s)
    case SetupFatal => s.(ws := Stopped(Fatal))
    case Poll => s.(ws := if s.cancelled then Closing(false) else Streaming(true))
    case SeeCancel => s.(ws := Closing(false))
    case ReadFrame(frame) => s.(ws := Sending(frame), received := s.received + [frame])
    case ReadOther => s.(ws := Streaming(false))
    case StreamError => AfterTransient(c, s)
    case IdleTimeout => s.(ws := Closing(true))
    case CloseDone => if s.ws.idle then AfterTransient(c, s) else s.(ws := Stopped(Clean))
    case Send => s.(channel := s.channel + [s.ws.frame], ws := Streaming(false))
    case SendFails => s.(refused := s.refused + [s.ws.frame], ws := Stopped(Fatal))
    case BackoffElapsed => s.(ws := Connecting, attempt := s.attempt + 1)
    case BackoffCancelled => s.(ws := Stopped(Clean))
  }

  predicate ProducerEnabled(c: Config, s: State, a: ProducerAction) {
    match a
    case PollToken => s.producer == Selecting(false) && !s.draining
    case SeeToken => s.producer == Selecting(true) && !s.draining && s.cancelled
    case Complete(i, _) => s.producer.Selecting? && (s.producer.armed || s.draining) && i in s.inflight
    case Recv => s.producer == Selecting(true) && !s.draining && |s.inflight| < c.maxInflight && s.channel != []
    case RecvClosed =>
      s.producer == Selecting(true) && !s.draining && |s.inflight| < c.maxInflight && s.channel == []
      && ChannelClosed(s)
    case ElseBreak => s.producer.Selecting? && s.draining && s.inflight == {}
    case EnqueueAccepted => s.producer.Enqueuing?
    case EnqueueFull => s.producer.Enqueuing? && s.fullAnswers > 0
    case EnqueueRejected => s.producer.Enqueuing?
  }

  function ProducerApply(c: Config, s: State, a: ProducerAction): State
    requires ProducerEnabled(c, s, a)
  {
    match a
    case PollToken => if s.cancelled then s.(draining := true) else s.(producer := Selecting(true))
    case SeeToken => s.(draining := true, producer := Selecting(false))
    case Complete(i, ok) =>
      var left := s.inflight - {i};
      var next := if s.draining && left == {} then Exited else Selecting(false);
      if ok then s.(inflight := left, delivered := s.delivered + {i}, sentCount := s.sentCount + 1, producer := next)
      else s.(inflight := left, failed := s.failed + {i}, failureCount := s.failureCount + 1, producer := next)
    case Recv => s.(producer := Enqueuing(s.channel[0]), channel := s.channel[1..])
    case RecvClosed => s.(draining := true, producer := if s.inflight == {} then Exited else Selecting(false))
    case ElseBreak => s.(producer := Exited)
    case EnqueueAccepted =>
      s.(taken := s.taken + [Taken(s.producer.frame, true)], inflight := s.inflight + {|s.taken|},
         producer := Selecting(false))
    case EnqueueFull => s.(fullAnswers := s.fullAnswers - 1)
    case EnqueueRejected =>
      s.(taken := s.taken + [Taken(s.producer.frame, false)], failed := s.failed + {|s.taken|},
         failureCount := s.failureCount + 1, producer := Selecting(false))
  }

  predicate SystemEnabled(s: State, a: SystemAction) {
    match a
    case Cancel => !s.cancelled
    case EmitterStops => s.emitterRunning && s.cancelled
    case MainTearsDown => s.main == AwaitingWs && s.ws.Stopped?
    case MainJoins => s.main == TornDown && s.producer == Exited && !s.emitterRunning
  }

  function SystemApply(s: State, a: SystemAction): State
    requires SystemEnabled(s, a)
  {
    match a
    case Cancel => s.(cancelled := true)
    case EmitterStops => s.(emitterRunning := false)
    case MainTearsDown => s.(cancelled := true, main := TornDown)
    case MainJoins => s.(main := Joined)
  }

  predicate Enabled(c: Config, s: State, a: Action) {
    match a
    case OfWs(w) => WsEnabled(c, s, w)
    case OfProducer(p) => ProducerEnabled(c, s, p)
    case OfSystem(m) => SystemEnabled(s, m)
  }

  function Apply(c: Config, s: State, a: Action): State
    requires Enabled(c, s, a)
  {
    match a
    case OfWs(w) => WsApply(c, s, w)
    case OfProducer(p) => ProducerApply(c, s, p)
    case OfSystem(m) => SystemApply(s, m)
  }

  // ----- where frames are -----

  function Frames(taken: seq<Taken>): seq<Frame> {
    seq(|taken|, i requires 0 <= i < |taken| => taken[i].frame)
  }

  /** The frame being handed to librdkafka, if any. */
  function BeingEnqueued(s: State): seq<Frame> {
    if s.producer.Enqueuing? then [s.producer.frame] else []
  }

  /** The frame waiting for room in the channel, if any. */
  function Waiting(s: State): seq<Frame> {
    if s.ws.Sending? then [s.ws.frame] else []
  }

  /** Every index below n is in exactly one of the three sets, and no other is in any. */
  ghost predicate Placed(n: nat, inflight: set<nat>, delivered: set<nat>, failed: set<nat>) {
    && (forall i: nat :: i < n <==> i in inflight || i in delivered || i in failed)
    && inflight !! delivered && inflight !! failed && delivered !! failed
  }

  ghost predicate RejectedFailed(taken: seq<Taken>, failed: set<nat>) {
    forall i :: 0 <= i < |taken| && !taken[i].accepted ==> i in failed
  }

  /** Every frame taken is in flight, delivered or failed, and the counters count the last two. */
  ghost predicate Disposed(taken: seq<Taken>, inflight: set<nat>, delivered: set<nat>, failed: set<nat>,
                           sentCount: nat, failureCount: nat) {
    && Placed(|taken|, inflight, delivered, failed)
    && RejectedFailed(taken, failed)
    && sentCount == |delivered| && failureCount == |failed|
  }

  ghost predicate Dispositions(s: State) {
    Disposed(s.taken, s.inflight, s.delivered, s.failed, s.sentCount, s.failureCount)
  }

  /** Received frames, in order: taken by the producer, being enqueued, in the channel, waiting,
      and last a frame the closed channel refused. */
  ghost predicate Fifo(s: State) {
    s.received == Frames(s.taken) + BeingEnqueued(s) + s.channel + Waiting(s) + s.refused
  }

  ghost predicate Bounded(c: Config, s: State) {
    && |s.channel| <= c.capacity
    && |s.inflight| + |BeingEnqueued(s)| <= c.maxInflight
    && |Waiting(s)| + |s.refused| <= 1
  }

  ghost predicate Phases(s: State) {
    && (s.producer == Exited ==> s.inflight == {} && s.draining)
    && (s.producer.Enqueuing? ==> !s.draining)
    && (s.draining ==> s.cancelled)
    && (!s.emitterRunning ==> s.cancelled)
    && (s.main != AwaitingWs ==> s.ws.Stopped? && s.cancelled)
    && (s.main == Joined ==> s.producer == Exited && !s.emitterRunning)
    && (s.refused != [] ==> s.ws == Stopped(Fatal) && s.producer == Exited)
    && (s.ws == Closing(false) || s.ws == Stopped(Clean) ==> s.cancelled)
    && (s.ws == Connecting ==> s.attempt > 0)
    && (s.ws.Streaming? || s.ws.Sending? || s.ws.Closing? ==> s.attempt == 0)
  }

  ghost predicate Inv(c: Config, s: State) {
    Dispositions(s) && Fifo(s) && Bounded(c, s) && Phases(s)
  }

  lemma InitInv(c: Config, fullAnswers: nat)
    ensures Inv(c, Init(fullAnswers))
  {
  }

  lemma PlacedComplete(n: nat, inflight: set<nat>, delivered: set<nat>, failed: set<nat>, i: nat)
    requires Placed(n, inflight, delivered, failed) && i in inflight
    ensures Placed(n, inflight - {i}, delivered + {i}, failed) && |delivered + {i}| == |delivered| + 1
    ensures Placed(n, inflight - {i}, delivered, failed + {i}) && |failed + {i}| == |failed| + 1
  {
  }

  lemma PlacedTake(n: nat, inflight: set<nat>, delivered: set<nat>, failed: set<nat>)
    requires Placed(n, inflight, delivered, failed)
    ensures Placed(n + 1, inflight + {n}, delivered, failed) && |inflight + {n}| == |inflight| + 1
    ensures Placed(n + 1, inflight, delivered, failed + {n}) && |failed + {n}| == |failed| + 1
  {
    assert n !in inflight && n !in delivered && n !in failed;
  }

  lemma FramesAppend(taken: seq<Taken>, t: Taken)
    ensures Frames(taken + [t]) == Frames(taken) + [t.frame]
  {
  }

  lemma WsStepInv(c: Config, s: State, a: WsAction)
    requires Inv(c, s) && WsEnabled(c, s, a)
    ensures Inv(c, WsApply(c, s, a))
  {
    WsFifo(c, s, a);
    WsPhases(c, s, a);
    WsBounded(c, s, a);
    WsLeavesProducer(c, s, a);
  }

  /** The websocket task changes its own place and the channel's tail, nothing of the producer's. */
  lemma WsLeavesProducer(c: Config, s: State, a: WsAction)
    requires WsEnabled(c, s, a)
    ensures var t := WsApply(c, s, a);
            && t.producer == s.producer && t.draining == s.draining && t.fullAnswers == s.fullAnswers
            && t.taken == s.taken && t.inflight == s.inflight && t.delivered == s.delivered && t.failed == s.failed
            && t.sentCount == s.sentCount && t.failureCount == s.failureCount
            && t.cancelled == s.cancelled && t.main == s.main && t.emitterRunning == s.emitterRunning
  {
  }

  lemma WsBounded(c: Config, s: State, a: WsAction)
    requires Bounded(c, s) && (s.refused != [] ==> s.ws.Stopped?) && WsEnabled(c, s, a)
    ensures Bounded(c, WsApply(c, s, a))
  {
  }

  lemma RegroupSend(before: seq<Frame>, channel: seq<Frame>, frame: Frame)
    ensures before + channel + [frame] + [] == before + (channel + [frame]) + [] + []
    ensures before + channel + [] + [] + [frame] == before + channel + [frame] + []
    ensures before + channel + [frame] + [] == before + channel + [] + ([] + [frame])
  {
  }

  lemma WsFifo(c: Config, s: State, a: WsAction)
    requires Fifo(s) && (s.refused != [] ==> s.ws.Stopped?) && WsEnabled(c, s, a)
    ensures Fifo(WsApply(c, s, a))
  {
    var t := WsApply(c, s, a);
    assert t.taken == s.taken && BeingEnqueued(t) == BeingEnqueued(s);
    if a.ReadFrame? || a.Send? || a.SendFails? {
      RegroupSend(Frames(s.taken) + BeingEnqueued(s), s.channel, if a.ReadFrame? then a.frame else s.ws.frame);
    } else {
      assert t.received == s.received && t.channel == s.channel && t.refused == s.refused && Waiting(t) == Waiting(s);
    }
  }

  lemma WsPhases(c: Config, s: State, a: WsAction)
    requires Phases(s) && WsEnabled(c, s, a)
    ensures Phases(WsApply(c, s, a))
  {
  }

  lemma DisposedComplete(taken: seq<Taken>, x: set<nat>, delivered: set<nat>, failed: set<nat>, m: nat, n: nat, i: nat)
    requires Disposed(taken, x, delivered, failed, m, n) && i in x
    ensures Disposed(taken, x - {i}, delivered + {i}, failed, m + 1, n)
    ensures Disposed(taken, x - {i}, delivered, failed + {i}, m, n + 1)
  {
    PlacedComplete(|taken|, x, delivered, failed, i);
  }

  lemma DisposedTake(taken: seq<Taken>, x: set<nat>, delivered: set<nat>, failed: set<nat>, m: nat, n: nat,
                     frame: Frame)
    requires Disposed(taken, x, delivered, failed, m, n)
    ensures Disposed(taken + [Taken(frame, true)], x + {|taken|}, delivered, failed, m, n)
    ensures Disposed(taken + [Taken(frame, false)], x, delivered, failed + {|taken|}, m, n + 1)
  {
    PlacedTake(|taken|, x, delivered, failed);
  }

  lemma CompleteDispositions(c: Config, s: State, i: nat, ok: bool)
    requires Dispositions(s) && ProducerEnabled(c, s, Complete(i, ok))
    ensures Dispositions(ProducerApply(c, s, Complete(i, ok)))
  {
    DisposedComplete(s.taken, s.inflight, s.delivered, s.failed, s.sentCount, s.failureCount, i);
  }

  lemma EnqueueDispositions(c: Config, s: State, a: ProducerAction)
    requires Dispositions(s) && ProducerEnabled(c, s, a) && (a.EnqueueAccepted? || a.EnqueueRejected?)
    ensures Dispositions(ProducerApply(c, s, a))
  {
    DisposedTake(s.taken, s.inflight, s.delivered, s.failed, s.sentCount, s.failureCount, s.producer.frame);
  }

  lemma ProducerDispositions(c: Config, s: State, a: ProducerAction)
    requires Dispositions(s) && ProducerEnabled(c, s, a)
    ensures Dispositions(ProducerApply(c, s, a))
  {
    if a.Complete? {
      CompleteDispositions(c, s, a.index, a.ok);
    } else if a.EnqueueAccepted? || a.EnqueueRejected? {
      EnqueueDispositions(c, s, a);
    }
  }

  lemma RegroupRecv(frames: seq<Frame>, channel: seq<Frame>, rest: seq<Frame>, last: seq<Frame>)
    requires channel != []
    ensures frames + [] + channel + rest + last == frames + [channel[0]] + channel[1..] + rest + last
  {
    assert channel == [channel[0]] + channel[1..];
  }

  lemma ProducerFifo(c: Config, s: State, a: ProducerAction)
    requires Fifo(s) && ProducerEnabled(c, s, a)
    ensures Fifo(ProducerApply(c, s, a))
  {
    var t := ProducerApply(c, s, a);
    assert t.received == s.received && t.refused == s.refused && Waiting(t) == Waiting(s);
    if a.Recv? {
      RegroupRecv(Frames(s.taken), s.channel, Waiting(s), s.refused);
    } else if a.EnqueueAccepted? || a.EnqueueRejected? {
      FramesAppend(s.taken, Taken(s.producer.frame, a.EnqueueAccepted?));
      assert Frames(t.taken) + BeingEnqueued(t) == Frames(s.taken) + BeingEnqueued(s);
    } else {
      assert t.taken == s.taken && t.channel == s.channel && BeingEnqueued(t) == BeingEnqueued(s);
    }
  }

  lemma ProducerBounded(c: Config, s: State, a: ProducerAction)
    requires Bounded(c, s) && ProducerEnabled(c, s, a) && Phases(s)
    ensures Bounded(c, ProducerApply(c, s, a)) && Phases(ProducerApply(c, s, a))
  {
    if a.EnqueueAccepted? {
      AddCount(s.inflight, |s.taken|);
    } else if a.Complete? {
      RemoveCount(s.inflight, a.index);
    }
  }

  lemma RemoveCount(x: set<nat>, i: nat)
    requires i in x
    ensures |x - {i}| == |x| - 1
  {
  }

  lemma AddCount(x: set<nat>, i: nat)
    ensures |x + {i}| <= |x| + 1
  {
  }

  lemma StepInv(c: Config, s: State, a: Action)
    requires Inv(c, s) && Enabled(c, s, a)
    ensures Inv(c, Apply(c, s, a))
  {
    match a
    case OfWs(w) => WsStepInv(c, s, w);
    case OfProducer(p) =>
      ProducerDispositions(c, s, p);
      ProducerFifo(c, s, p);
      ProducerBounded(c, s, p);
    case OfSystem(m) => SystemStepInv(c, s, m);
  }

  lemma SystemStepInv(c: Config, s: State, a: SystemAction)
    requires Inv(c, s) && SystemEnabled(s, a)
    ensures Inv(c, SystemApply(s, a))
  {
  }

  /** Taking the actions one after another from s, each enabled when its turn comes, ends in t. */
  ghost predicate Leads(c: Config, s: State, actions: seq<Action>, t: State)
    decreases |actions|
  {
    if actions == [] then s == t
    else Enabled(c, s, actions[0]) && Leads(c, Apply(c, s, actions[0]), actions[1..], t)
  }

  lemma {:induction false} LeadsInv(c: Config, s: State, actions: seq<Action>, t: State)
    requires Inv(c, s) && Leads(c, s, actions, t)
    ensures Inv(c, t)
    decreases |actions|
  {
    if actions != [] {
      StepInv(c, s, actions[0]);
      LeadsInv(c, Apply(c, s, actions[0]), actions[1..], t);
    }
  }
}
