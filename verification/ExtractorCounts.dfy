/** What the extractor's counters and frames are in terms of the actions taken, and that its pipeline
    can deliver any frames it is sent. */
module ExtractorCounts {
  import opened Extractor

  predicate IsAcknowledged(a: Action) {
    a.OfProducer? && a.producer.Complete? && a.producer.ok
  }

  predicate IsLost(a: Action) {
    a.OfProducer? && a.producer.Complete? && !a.producer.ok
  }

  predicate IsAccepted(a: Action) {
    a == OfProducer(EnqueueAccepted)
  }

  predicate IsRejected(a: Action) {
    a == OfProducer(EnqueueRejected)
  }

  function Count(actions: seq<Action>, kind: Action -> bool): nat
    decreases |actions|
  {
    if actions == [] then 0 else (if kind(actions[0]) then 1 else 0) + Count(actions[1..], kind)
  }

  /** The data frames read from the stream, in order. */
  function ReadIn(actions: seq<Action>): seq<Frame>
    decreases |actions|
  {
    if actions == [] then []
    else
      (if actions[0].OfWs? && actions[0].ws.ReadFrame? then [actions[0].ws.frame] else []) + ReadIn(actions[1..])
  }

  /** How many of the frames handed to librdkafka it accepted. */
  function AcceptedIn(taken: seq<Taken>): nat {
    if taken == [] then 0
    else AcceptedIn(taken[..|taken| - 1]) + (if taken[|taken| - 1].accepted then 1 else 0)
  }

  /** Only the producer moves frames and counters of deliveries. */
  lemma OthersLeave(c: Config, s: State, a: Action)
    requires Enabled(c, s, a) && !a.OfProducer?
    ensures var t := Apply(c, s, a);
            && t.sentCount == s.sentCount && t.failureCount == s.failureCount && t.taken == s.taken
            && t.delivered == s.delivered && t.failed == s.failed
  {
    if a.OfWs? {
      WsLeavesProducer(c, s, a.ws);
    }
  }

  lemma ProducerCounts(c: Config, s: State, a: ProducerAction)
    requires ProducerEnabled(c, s, a)
    ensures var t := ProducerApply(c, s, a);
            && t.sentCount == s.sentCount + (if a.Complete? && a.ok then 1 else 0)
            && t.failureCount
               == s.failureCount + (if a.Complete? && !a.ok then 1 else 0) + (if a.EnqueueRejected? then 1 else 0)
  {
  }

  lemma StepCounts(c: Config, s: State, a: Action)
    requires Enabled(c, s, a)
    ensures var t := Apply(c, s, a);
            && t.sentCount == s.sentCount + (if IsAcknowledged(a) then 1 else 0)
            && t.failureCount == s.failureCount + (if IsLost(a) then 1 else 0) + (if IsRejected(a) then 1 else 0)
  {
    if a.OfProducer? {
      ProducerCounts(c, s, a.producer);
    } else {
      OthersLeave(c, s, a);
    }
  }

  lemma ProducerTakes(c: Config, s: State, a: ProducerAction)
    requires ProducerEnabled(c, s, a)
    ensures var t := ProducerApply(c, s, a);
            if a.EnqueueAccepted? || a.EnqueueRejected?
            then |t.taken| == |s.taken| + 1 && t.taken[..|s.taken|] == s.taken
                 && (t.taken[|s.taken|].accepted <==> a.EnqueueAccepted?)
            else t.taken == s.taken
  {
  }

  lemma StepTaken(c: Config, s: State, a: Action)
    requires Enabled(c, s, a)
    ensures var t := Apply(c, s, a);
            if IsAccepted(a) || IsRejected(a)
            then |t.taken| == |s.taken| + 1 && t.taken[..|s.taken|] == s.taken
                 && (t.taken[|s.taken|].accepted <==> IsAccepted(a))
            else t.taken == s.taken
  {
    if a.OfProducer? {
      ProducerTakes(c, s, a.producer);
    } else {
      OthersLeave(c, s, a);
    }
  }

  lemma ProducerPlaces(c: Config, s: State, a: ProducerAction, i: nat)
    requires ProducerEnabled(c, s, a)
    ensures var t := ProducerApply(c, s, a);
            && (i in t.delivered <==> i in s.delivered || a == Complete(i, true))
            && (i in t.failed <==> i in s.failed || a == Complete(i, false) || (a.EnqueueRejected? && i == |s.taken|))
  {
  }

  lemma StepPlaces(c: Config, s: State, a: Action, i: nat)
    requires Enabled(c, s, a)
    ensures var t := Apply(c, s, a);
            && (i in t.delivered <==> i in s.delivered || a == OfProducer(Complete(i, true)))
            && (i in t.failed
                <==> i in s.failed || a == OfProducer(Complete(i, false)) || (IsRejected(a) && i == |s.taken|))
  {
    if a.OfProducer? {
      ProducerPlaces(c, s, a.producer, i);
    } else {
      OthersLeave(c, s, a);
    }
  }

  lemma WsReceives(c: Config, s: State, a: WsAction)
    requires WsEnabled(c, s, a)
    ensures WsApply(c, s, a).received == s.received + if a.ReadFrame? then [a.frame] else []
  {
  }

  lemma ProducerReceivesNone(c: Config, s: State, a: ProducerAction)
    requires ProducerEnabled(c, s, a)
    ensures ProducerApply(c, s, a).received == s.received
  {
  }

  lemma StepReceived(c: Config, s: State, a: Action)
    requires Enabled(c, s, a)
    ensures Apply(c, s, a).received == s.received + if a.OfWs? && a.ws.ReadFrame? then [a.ws.frame] else []
  {
    match a
    case OfWs(w) => WsReceives(c, s, w);
    case OfProducer(p) => ProducerReceivesNone(c, s, p);
    case OfSystem(_) =>
  }

  lemma {:induction false} LeadsCounts(c: Config, s: State, actions: seq<Action>, t: State)
    requires Leads(c, s, actions, t)
    ensures t.sentCount == s.sentCount + Count(actions, IsAcknowledged)
    ensures t.failureCount == s.failureCount + Count(actions, IsLost) + Count(actions, IsRejected)
    decreases |actions|
  {
    if actions != [] {
      StepCounts(c, s, actions[0]);
      LeadsCounts(c, Apply(c, s, actions[0]), actions[1..], t);
    }
  }

  lemma {:induction false} LeadsReceived(c: Config, s: State, actions: seq<Action>, t: State)
    requires Leads(c, s, actions, t)
    ensures t.received == s.received + ReadIn(actions)
    decreases |actions|
  {
    if actions != [] {
      StepReceived(c, s, actions[0]);
      LeadsReceived(c, Apply(c, s, actions[0]), actions[1..], t);
    }
  }

  lemma AcceptedStep(first: seq<Taken>, next: seq<Taken>)
    requires next == first || (|next| == |first| + 1 && next[..|first|] == first)
    ensures first <= next
    ensures AcceptedIn(next) == AcceptedIn(first) + if |next| > |first| && next[|first|].accepted then 1 else 0
  {
  }

  lemma {:induction false} LeadsTaken(c: Config, s: State, actions: seq<Action>, t: State)
    requires Leads(c, s, actions, t)
    ensures s.taken <= t.taken
    ensures |t.taken| == |s.taken| + Count(actions, IsAccepted) + Count(actions, IsRejected)
    ensures AcceptedIn(t.taken) == AcceptedIn(s.taken) + Count(actions, IsAccepted)
    decreases |actions|
  {
    if actions != [] {
      var u := Apply(c, s, actions[0]);
      StepTaken(c, s, actions[0]);
      LeadsTaken(c, u, actions[1..], t);
      AcceptedStep(s.taken, u.taken);
    }
  }

  lemma {:induction false} LeadsDelivered(c: Config, s: State, actions: seq<Action>, t: State, i: nat)
    requires Leads(c, s, actions, t)
    ensures i in t.delivered <==> i in s.delivered || OfProducer(Complete(i, true)) in actions
    decreases |actions|
  {
    if actions != [] {
      StepPlaces(c, s, actions[0], i);
      LeadsDelivered(c, Apply(c, s, actions[0]), actions[1..], t, i);
      assert actions == [actions[0]] + actions[1..];
    }
  }

  lemma {:induction false} LeadsFailed(c: Config, s: State, actions: seq<Action>, t: State, i: nat)
    requires Leads(c, s, actions, t)
    ensures i in t.failed <==> i in s.failed || OfProducer(Complete(i, false)) in actions
                               || (|s.taken| <= i < |t.taken| && !t.taken[i].accepted)
    decreases |actions|
  {
    if actions != [] {
      var u := Apply(c, s, actions[0]);
      StepPlaces(c, s, actions[0], i);
      StepTaken(c, s, actions[0]);
      LeadsTaken(c, u, actions[1..], t);
      LeadsFailed(c, u, actions[1..], t, i);
      FirstOrLater(actions, OfProducer(Complete(i, false)));
      SameRejected(s.taken, u.taken, t.taken);
    }
  }

  lemma FirstOrLater(actions: seq<Action>, a: Action)
    requires actions != []
    ensures a in actions <==> a == actions[0] || a in actions[1..]
  {
    assert actions == [actions[0]] + actions[1..];
  }

  lemma SameRejected(first: seq<Taken>, next: seq<Taken>, last: seq<Taken>)
    requires next <= last && (next == first || (|next| == |first| + 1 && next[..|first|] == first))
    ensures |next| > |first| ==> last[|first|] == next[|first|]
  {
  }

  /** What the counters count: messages_sent the deliveries that were acknowledged, delivery_failures
      those that were not and the frames librdkafka rejected; and which frames these are. */
  lemma CountersAreTrue(c: Config, full: nat, actions: seq<Action>, s: State)
    requires Leads(c, Init(full), actions, s)
    ensures s.sentCount == Count(actions, IsAcknowledged)
    ensures s.failureCount == Count(actions, IsLost) + Count(actions, IsRejected)
    ensures |s.taken| == Count(actions, IsAccepted) + Count(actions, IsRejected)
    ensures AcceptedIn(s.taken) == Count(actions, IsAccepted)
    ensures s.received == ReadIn(actions)
    ensures forall i: nat :: i in s.delivered <==> OfProducer(Complete(i, true)) in actions
    ensures forall i: nat :: i in s.failed
                             <==> OfProducer(Complete(i, false)) in actions || (i < |s.taken| && !s.taken[i].accepted)
  {
    LeadsCounts(c, Init(full), actions, s);
    LeadsTaken(c, Init(full), actions, s);
    LeadsReceived(c, Init(full), actions, s);
    forall i: nat
      ensures i in s.delivered <==> OfProducer(Complete(i, true)) in actions
      ensures i in s.failed
              <==> OfProducer(Complete(i, false)) in actions || (i < |s.taken| && !s.taken[i].accepted)
    {
      LeadsDelivered(c, Init(full), actions, s, i);
      LeadsFailed(c, Init(full), actions, s, i);
    }
  }

  // ----- every frame can be delivered -----

  lemma {:induction false} LeadsOn(c: Config, s: State, first: seq<Action>, t: State, then_: seq<Action>, u: State)
    requires Leads(c, s, first, t) && Leads(c, t, then_, u)
    ensures Leads(c, s, first + then_, u)
    decreases |first|
  {
    if first == [] {
      assert first + then_ == then_;
    } else {
      LeadsOn(c, Apply(c, s, first[0]), first[1..], t, then_, u);
      assert (first + then_)[1..] == first[1..] + then_;
    }
  }

  lemma LeadsOne(c: Config, s: State, a: Action)
    requires Enabled(c, s, a)
    ensures Leads(c, s, [a], Apply(c, s, a))
  {
    assert [a][1..] == [];
  }

  /** Streaming, with all frames so far received and delivered and nothing on its way. */
  ghost predicate AllDelivered(s: State, frames: seq<Frame>) {
    && !s.cancelled && !s.draining && s.ws == Streaming(false) && s.producer == Selecting(false)
    && s.channel == [] && s.inflight == {} && s.received == frames
    && |s.taken| == |frames| == s.sentCount && s.failureCount == 0
  }

  /** Reading one frame and putting it into the channel. */
  lemma ReadOne(c: Config, s: State, frames: seq<Frame>, frame: Frame) returns (actions: seq<Action>, t: State)
    requires c.capacity > 0 && AllDelivered(s, frames)
    ensures Leads(c, s, actions, t)
    ensures t == s.(received := frames + [frame], channel := [frame])
  {
    var u := s.(ws := Streaming(true));
    LeadsOne(c, s, OfWs(Poll));
    LeadsOne(c, u, OfWs(ReadFrame(frame)));
    LeadsOn(c, s, [OfWs(Poll)], u, [OfWs(ReadFrame(frame))], WsApply(c, u, ReadFrame(frame)));
    var v := WsApply(c, u, ReadFrame(frame));
    t := WsApply(c, v, Send);
    LeadsOne(c, v, OfWs(Send));
    LeadsOn(c, s, [OfWs(Poll)] + [OfWs(ReadFrame(frame))], v, [OfWs(Send)], t);
    actions := [OfWs(Poll)] + [OfWs(ReadFrame(frame))] + [OfWs(Send)];
    assert [] + [frame] == [frame];
  }

  /** Taking it from the channel and having it acknowledged. */
  lemma DeliverOne(c: Config, s: State, frame: Frame) returns (actions: seq<Action>, t: State)
    requires c.maxInflight > 0 && !s.cancelled && !s.draining && s.producer == Selecting(false)
    requires s.channel == [frame] && s.inflight == {}
    ensures Leads(c, s, actions, t)
    ensures t == s.(channel := [], taken := s.taken + [Taken(frame, true)], sentCount := s.sentCount + 1,
                    delivered := s.delivered + {|s.taken|})
  {
    var u := s.(producer := Selecting(true));
    LeadsOne(c, s, OfProducer(PollToken));
    LeadsOne(c, u, OfProducer(Recv));
    var v := ProducerApply(c, u, Recv);
    LeadsOn(c, s, [OfProducer(PollToken)], u, [OfProducer(Recv)], v);
    var first := [OfProducer(PollToken)] + [OfProducer(Recv)];
    var w := ProducerApply(c, v, EnqueueAccepted);
    LeadsOne(c, v, OfProducer(EnqueueAccepted));
    LeadsOn(c, s, first, v, [OfProducer(EnqueueAccepted)], w);
    first := first + [OfProducer(EnqueueAccepted)];
    var x := w.(producer := Selecting(true));
    LeadsOne(c, w, OfProducer(PollToken));
    LeadsOn(c, s, first, w, [OfProducer(PollToken)], x);
    first := first + [OfProducer(PollToken)];
    var last := Complete(|s.taken|, true);
    t := ProducerApply(c, x, last);
    LeadsOne(c, x, OfProducer(last));
    LeadsOn(c, s, first, x, [OfProducer(last)], t);
    actions := first + [OfProducer(last)];
    assert s.inflight + {|s.taken|} - {|s.taken|} == s.inflight;
  }

  /** Any frames can be received and delivered, all of them, whatever the limits. */
  lemma {:induction false} AllCanBeDelivered(c: Config, full: nat, frames: seq<Frame>)
    returns (actions: seq<Action>, s: State)
    requires c.capacity > 0 && c.maxInflight > 0
    ensures Leads(c, Init(full), actions, s) && AllDelivered(s, frames)
  {
    if frames == [] {
      actions, s := [OfWs(SetupOk)], WsApply(c, Init(full), SetupOk);
      LeadsOne(c, Init(full), OfWs(SetupOk));
    } else {
      var init, frame := frames[..|frames| - 1], frames[|frames| - 1];
      var before, u := AllCanBeDelivered(c, full, init);
      var read, v := ReadOne(c, u, init, frame);
      LeadsOn(c, Init(full), before, u, read, v);
      var delivered, w := DeliverOne(c, v, frame);
      LeadsOn(c, Init(full), before + read, v, delivered, w);
      actions, s := before + read + delivered, w;
      assert frames == init + [frame];
    }
  }

  /** After the backoff the websocket task can connect again, with its counters reset. */
  lemma CanReconnect(c: Config, s: State) returns (actions: seq<Action>)
    requires s.ws == Backoff
    ensures Leads(c, s, actions, s.(ws := Streaming(false), attempt := 0))
  {
    var u := WsApply(c, s, BackoffElapsed);
    LeadsOne(c, s, OfWs(BackoffElapsed));
    LeadsOne(c, u, OfWs(SetupOk));
    actions := [OfWs(BackoffElapsed)] + [OfWs(SetupOk)];
    LeadsOn(c, s, [OfWs(BackoffElapsed)], u, [OfWs(SetupOk)], WsApply(c, u, SetupOk));
  }
}
