/** Two sequential loops of the extractor: the websocket retry loop (ws.rs `run`) and the
    enqueue loop around a full librdkafka queue (kafka.rs `enqueue`). */
module ExtractorLoops {

  // ----- reconnecting with backoff -----

  /** How one connection attempt ended. */
  datatype Ending = SetupFailed | SetupRejected | StreamDropped | StreamFatal | ShutdownSeen

  /** One turn of the loop; `cancelled` tells whether shutdown cuts the backoff sleep short. */
  datatype Attempt = Attempt(ending: Ending, cancelled: bool)

  datatype RunResult = StillRunning | ReturnedOk | ReturnedFatal | ReturnedExhausted

  predicate Transient(ending: Ending) {
    ending == SetupFailed || ending == StreamDropped
  }

  function Pow2(n: nat): nat {
    if n == 0 then 1 else 2 * Pow2(n - 1)
  }

  function Min(a: nat, b: nat): nat {
    if a < b then a else b
  }

  /** How many attempts up to and including k failed during setup in a row. */
  function SetupFailures(attempts: seq<Attempt>, k: nat): nat
    requires k < |attempts|
  {
    if attempts[k].ending != SetupFailed then 0
    else if k == 0 then 1 else 1 + SetupFailures(attempts, k - 1)
  }

  /** The number of failure k within its streak; a streak starts at process start or when a
      connected stream drops. */
  function StreakPosition(attempts: seq<Attempt>, k: nat): nat
    requires k < |attempts|
  {
    if k == 0 || attempts[k].ending == StreamDropped then 1 else 1 + StreakPosition(attempts, k - 1)
  }

  /** It counts the failures since the last dropped stream, which is the first of its streak, or since
      the start. */
  lemma {:induction false} StreakMeaning(attempts: seq<Attempt>, k: nat)
    requires k < |attempts|
    ensures var first := k + 1 - StreakPosition(attempts, k);
            && 0 <= first <= k
            && (first == 0 || attempts[first].ending == StreamDropped)
            && forall j :: first < j <= k ==> attempts[j].ending != StreamDropped
  {
    if k > 0 && attempts[k].ending != StreamDropped {
      StreakMeaning(attempts, k - 1);
    }
  }

  /** The sleep after the n-th failure of a streak. */
  function Delay(n: nat, backoffMax: nat): nat
    requires n > 0
  {
    if n == 1 then 1 else Min(Pow2(n - 1), backoffMax)
  }

  /** Whether the loop goes on after attempt k. */
  predicate GoesOn(attempts: seq<Attempt>, k: nat, maxRetries: nat)
    requires k < |attempts|
  {
    Transient(attempts[k].ending) && SetupFailures(attempts, k) < maxRetries && !attempts[k].cancelled
  }

  function Outcome(attempts: seq<Attempt>, k: nat, maxRetries: nat): RunResult
    requires k < |attempts|
  {
    match attempts[k].ending
    case SetupRejected => ReturnedFatal
    case StreamFatal => ReturnedFatal
    case ShutdownSeen => ReturnedOk
    case _ =>
      if SetupFailures(attempts, k) >= maxRetries then ReturnedExhausted
      else if attempts[k].cancelled then ReturnedOk else StillRunning
  }

  lemma {:induction false} StreakIsPositive(attempts: seq<Attempt>, k: nat)
    requires k < |attempts|
    ensures StreakPosition(attempts, k) > 0
  {
  }

  /** With a backoff limit of at least a second the schedule is the closed form throughout. */
  lemma DelayClosedForm(n: nat, backoffMax: nat)
    requires n > 0
    ensures (Delay(n, backoffMax) == Min(Pow2(n - 1), backoffMax)) <==> (backoffMax >= 1 || n > 1)
  {
  }

  lemma DoubledDelay(n: nat, backoffMax: nat, backoff: nat)
    requires n > 0 && backoff == Delay(n, backoffMax)
    ensures Min(backoff * 2, backoffMax) == Delay(n + 1, backoffMax)
  {
  }

  /** The retry loop: how long it slept after each attempt and what it returned. */
  method RunRetries(maxRetries: nat, backoffMax: nat, attempts: seq<Attempt>)
    returns (sleeps: seq<nat>, errors: nat, result: RunResult)
    ensures |sleeps| <= |attempts|
    ensures forall k :: 0 <= k < |sleeps| ==>
              GoesOn(attempts, k, maxRetries) && StreakPosition(attempts, k) > 0
              && sleeps[k] == Delay(StreakPosition(attempts, k), backoffMax)
    ensures result == StillRunning <==> |sleeps| == |attempts|
    ensures result != StillRunning ==> result == Outcome(attempts, |sleeps|, maxRetries)
    ensures errors == |sleeps| + (if result != StillRunning && Transient(attempts[|sleeps|].ending) then 1 else 0)
  {
    sleeps, errors, result := [], 0, StillRunning;
    var backoff, attempt := 1, 0;
    for k := 0 to |attempts|
      invariant |sleeps| == k && errors == k && result == StillRunning
      invariant forall j :: 0 <= j < k ==>
                  GoesOn(attempts, j, maxRetries) && StreakPosition(attempts, j) > 0
                  && sleeps[j] == Delay(StreakPosition(attempts, j), backoffMax)
      invariant attempt == if k == 0 then 0 else SetupFailures(attempts, k - 1)
      invariant backoff == if k == 0 then 1 else Delay(StreakPosition(attempts, k - 1) + 1, backoffMax)
    {
      attempt := attempt + 1;
      var ending := attempts[k].ending;
      var connected := ending != SetupFailed && ending != SetupRejected;
      if connected {
        backoff := 1;
        attempt := 0;
      }
      if ending == ShutdownSeen {
        return sleeps, errors, ReturnedOk;
      }
      if ending == SetupRejected || ending == StreamFatal {
        return sleeps, errors, ReturnedFatal;
      }
      errors := errors + 1;
      if attempt >= maxRetries {
        return sleeps, errors, ReturnedExhausted;
      }
      if attempts[k].cancelled {
        return sleeps, errors, ReturnedOk;
      }
      StreakIsPositive(attempts, k);
      DoubledDelay(StreakPosition(attempts, k), backoffMax, backoff);
      sleeps := sleeps + [backoff];
      backoff := Min(backoff * 2, backoffMax);
    }
  }

  /** The schedule: one second after the first failure of a streak, then twice the sleep before, up to the
      limit. */
  lemma ScheduleWrittenOut(attempts: seq<Attempt>, k: nat, backoffMax: nat)
    requires k < |attempts|
    ensures StreakPosition(attempts, k) > 0
    ensures k == 0 || attempts[k].ending == StreamDropped ==> Delay(StreakPosition(attempts, k), backoffMax) == 1
    ensures k > 0 && attempts[k].ending != StreamDropped ==>
              var before := Delay(StreakPosition(attempts, k - 1), backoffMax);
              Delay(StreakPosition(attempts, k), backoffMax)
              == if 2 * before < backoffMax then 2 * before else backoffMax
  {
    StreakIsPositive(attempts, k);
    if k > 0 {
      DoubledDelay(StreakPosition(attempts, k - 1), backoffMax, Delay(StreakPosition(attempts, k - 1), backoffMax));
    }
  }

  /** What the loop does after attempt k: fatal errors are returned; on shutdown, also during the backoff,
      it ends cleanly; a transient error after too many setup failures in a row exhausts it, and else it
      goes on. */
  lemma OutcomeWrittenOut(attempts: seq<Attempt>, k: nat, maxRetries: nat)
    requires k < |attempts|
    ensures var a, result := attempts[k], Outcome(attempts, k, maxRetries);
            var exhausted := a.ending in {SetupFailed, StreamDropped} && maxRetries <= k + 1
                             && forall j :: k + 1 - maxRetries <= j <= k ==> attempts[j].ending == SetupFailed;
            && (result == ReturnedFatal <==> a.ending in {SetupRejected, StreamFatal})
            && (result == ReturnedExhausted <==> exhausted)
            && (result == ReturnedOk
                <==> a.ending == ShutdownSeen
                     || (a.ending in {SetupFailed, StreamDropped} && !exhausted && a.cancelled))
            && (result == StillRunning <==> a.ending in {SetupFailed, StreamDropped} && !exhausted && !a.cancelled)
            && (result == StillRunning <==> GoesOn(attempts, k, maxRetries))
  {
    if Transient(attempts[k].ending) {
      ExhaustionMeaning(attempts, k, maxRetries);
    }
  }

  /** The loop reports exhaustion at attempt k exactly when k is transient and the last maxRetries
      attempts up to k all failed during setup. */
  lemma ExhaustionMeaning(attempts: seq<Attempt>, k: nat, maxRetries: nat)
    requires k < |attempts| && Transient(attempts[k].ending)
    ensures Outcome(attempts, k, maxRetries) == ReturnedExhausted
            <==> maxRetries <= k + 1 && forall j :: k + 1 - maxRetries <= j <= k ==> attempts[j].ending == SetupFailed
  {
    SetupFailuresMeaning(attempts, k);
    var n := SetupFailures(attempts, k);
    if maxRetries > n && maxRetries <= k + 1 {
      assert attempts[k - n].ending != SetupFailed;
    }
  }

  lemma {:induction false} SetupFailuresMeaning(attempts: seq<Attempt>, k: nat)
    requires k < |attempts|
    ensures var n := SetupFailures(attempts, k);
            && n <= k + 1
            && (forall j :: k + 1 - n <= j <= k ==> attempts[j].ending == SetupFailed)
            && (n <= k ==> attempts[k - n].ending != SetupFailed)
  {
    if attempts[k].ending == SetupFailed && k > 0 {
      SetupFailuresMeaning(attempts, k - 1);
    }
  }

  // ----- enqueueing into librdkafka -----

  type Payload = seq<bv8>

  datatype Answer = Accepted | QueueFull | OtherError

  /** What librdkafka has accepted, and the extractor's failure counter. */
  class ProducerQueue {
    var accepted: seq<Payload>
    var deliveryFailures: nat

    constructor ()
      ensures accepted == [] && deliveryFailures == 0
    {
      accepted, deliveryFailures := [], 0;
    }

    /** send_result: a full queue hands the record back unchanged. */
    method SendResult(payload: Payload, answer: Answer) returns (returned: Payload)
      modifies this`accepted
      ensures returned == payload
      ensures accepted == old(accepted) + (if answer == Accepted then [payload] else [])
    {
      if answer == Accepted {
        accepted := accepted + [payload];
      }
      return payload;
    }

    /** Retries while the queue is full, each time with a fresh copy of the record handed back.
        `answers` are librdkafka's; `queued` is None while they are all QueueFull. */
    method Enqueue(payload: Payload, answers: seq<Answer>) returns (queued: bool, tries: nat)
      modifies this
      ensures tries <= |answers| && forall k :: 0 <= k < tries ==> answers[k] == QueueFull
      ensures queued <==> tries < |answers| && answers[tries] == Accepted
      ensures tries < |answers| ==> answers[tries] != QueueFull
      ensures accepted == old(accepted) + (if queued then [payload] else [])
      ensures deliveryFailures
              == old(deliveryFailures) + (if tries < |answers| && answers[tries] == OtherError then 1 else 0)
    {
      var current := payload;
      tries := 0;
      while tries < |answers|
        invariant tries <= |answers| && forall k :: 0 <= k < tries ==> answers[k] == QueueFull
        invariant current == payload && accepted == old(accepted) && deliveryFailures == old(deliveryFailures)
      {
        var returned := SendResult(current, answers[tries]);
        match answers[tries]
        case Accepted =>
          return true, tries;
        case OtherError =>
          deliveryFailures := deliveryFailures + 1;
          return false, tries;
        case QueueFull =>
          var copy: Payload := [];
          for i := 0 to |returned|
            invariant copy == returned[..i] && accepted == old(accepted) && deliveryFailures == old(deliveryFailures)
          {
            copy := copy + [returned[i]];
          }
          current := copy;
          tries := tries + 1;
      }
      return false, tries;
    }
  }
}
