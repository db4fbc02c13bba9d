/** The websocket task of the interleaved system and the retry loop on its own are the same loop: the
    attempts of any run give the loop's outcome. */
module ExtractorRetries {
  import opened Extractor
  import opened ExtractorLoops

  /** How the finished attempts grow with one action: an attempt ends with a failed setup, a dropped or
      fatal stream, or a close; shutdown during the backoff cancels the sleep of the last one. */
  function AfterAction(s: State, a: Action, attempts: seq<Attempt>): seq<Attempt> {
    if !a.OfWs? then attempts
    else
      match a.ws
      case SetupTransient => attempts + [Attempt(SetupFailed, false)]
      case SetupFatal => attempts + [Attempt(SetupRejected, false)]
      case StreamError => attempts + [Attempt(StreamDropped, false)]
      case CloseDone =>
        attempts + [Attempt(if s.ws.Closing? && s.ws.idle then StreamDropped else ShutdownSeen, false)]
      case SendFails => attempts + [Attempt(StreamFatal, false)]
      case BackoffCancelled => CancelLast(attempts)
      case _ => attempts
  }

  function CancelLast(attempts: seq<Attempt>): seq<Attempt> {
    if attempts == [] then []
    else attempts[..|attempts| - 1] + [attempts[|attempts| - 1].(cancelled := true)]
  }

  /** The finished attempts of a run, after those before it. */
  function AttemptsOf(c: Config, s: State, actions: seq<Action>, before: seq<Attempt>): seq<Attempt>
    decreases |actions|
  {
    if actions == [] || !Enabled(c, s, actions[0]) then before
    else AttemptsOf(c, Apply(c, s, actions[0]), actions[1..], AfterAction(s, actions[0], before))
  }

  function ResultOf(result: WsResult): RunResult {
    match result
    case Clean => ReturnedOk
    case Fatal => ReturnedFatal
    case Exhausted => ReturnedExhausted
  }

  ghost predicate AllGoOn(attempts: seq<Attempt>, n: nat, maxRetries: nat)
    requires n <= |attempts|
  {
    forall k :: 0 <= k < n ==> GoesOn(attempts, k, maxRetries)
  }

  /** Setup failures in a row at the end. */
  function FailuresNow(attempts: seq<Attempt>): nat {
    if attempts == [] then 0 else SetupFailures(attempts, |attempts| - 1)
  }

  /** Where the task is in the loop, and its counter, are those of the finished attempts. */
  ghost predicate Tied(c: Config, s: State, attempts: seq<Attempt>) {
    match s.ws
    case Connecting => AllGoOn(attempts, |attempts|, c.maxRetries) && s.attempt == FailuresNow(attempts) + 1
    case Backoff =>
      AllGoOn(attempts, |attempts|, c.maxRetries) && attempts != [] && s.attempt == FailuresNow(attempts)
    case Stopped(result) =>
      && attempts != [] && AllGoOn(attempts, |attempts| - 1, c.maxRetries)
      && Outcome(attempts, |attempts| - 1, c.maxRetries) == ResultOf(result)
    case _ => AllGoOn(attempts, |attempts|, c.maxRetries) && s.attempt == 0
  }

  /** Later attempts and the cancelling of sleeps do not change earlier counts. */
  lemma {:induction false} SameFailures(a: seq<Attempt>, b: seq<Attempt>, k: nat)
    requires k < |a| && k < |b| && forall j :: 0 <= j <= k ==> a[j].ending == b[j].ending
    ensures SetupFailures(a, k) == SetupFailures(b, k)
  {
    if k > 0 {
      SameFailures(a, b, k - 1);
    }
  }

  lemma OneMoreAttempt(attempts: seq<Attempt>, next: Attempt, maxRetries: nat)
    requires AllGoOn(attempts, |attempts|, maxRetries)
    ensures AllGoOn(attempts + [next], |attempts|, maxRetries)
    ensures FailuresNow(attempts + [next]) == if next.ending == SetupFailed then FailuresNow(attempts) + 1 else 0
  {
    var all := attempts + [next];
    forall k | 0 <= k < |attempts|
      ensures GoesOn(all, k, maxRetries)
    {
      SameFailures(all, attempts, k);
      assert GoesOn(attempts, k, maxRetries);
    }
    if attempts != [] {
      SameFailures(all, attempts, |attempts| - 1);
    }
  }

  lemma LastCancelled(attempts: seq<Attempt>, maxRetries: nat)
    requires attempts != [] && AllGoOn(attempts, |attempts|, maxRetries)
    ensures AllGoOn(CancelLast(attempts), |attempts| - 1, maxRetries)
    ensures Outcome(CancelLast(attempts), |attempts| - 1, maxRetries) == ReturnedOk
  {
    var all, last := CancelLast(attempts), |attempts| - 1;
    assert forall j :: 0 <= j < |attempts| ==> all[j].ending == attempts[j].ending;
    forall k | 0 <= k < last
      ensures GoesOn(all, k, maxRetries)
    {
      SameFailures(all, attempts, k);
      assert all[k] == attempts[k] && GoesOn(attempts, k, maxRetries);
    }
    SameFailures(all, attempts, last);
    assert GoesOn(attempts, last, maxRetries);
  }

  lemma StepTied(c: Config, s: State, a: Action, attempts: seq<Attempt>)
    requires Enabled(c, s, a) && Tied(c, s, attempts)
    ensures Tied(c, Apply(c, s, a), AfterAction(s, a, attempts))
  {
    if a.OfWs? {
      WsTied(c, s, a.ws, attempts);
    }
  }

  lemma WsTied(c: Config, s: State, a: WsAction, attempts: seq<Attempt>)
    requires WsEnabled(c, s, a) && Tied(c, s, attempts)
    ensures Tied(c, WsApply(c, s, a), AfterAction(s, OfWs(a), attempts))
  {
    match a
    case SetupTransient => OneMoreAttempt(attempts, Attempt(SetupFailed, false), c.maxRetries);
    case SetupFatal => OneMoreAttempt(attempts, Attempt(SetupRejected, false), c.maxRetries);
    case StreamError => OneMoreAttempt(attempts, Attempt(StreamDropped, false), c.maxRetries);
    case CloseDone =>
      OneMoreAttempt(attempts, Attempt(if s.ws.idle then StreamDropped else ShutdownSeen, false), c.maxRetries);
    case SendFails => OneMoreAttempt(attempts, Attempt(StreamFatal, false), c.maxRetries);
    case BackoffCancelled => LastCancelled(attempts, c.maxRetries);
    case _ =>
  }

  lemma {:induction false} LeadsTied(c: Config, s: State, actions: seq<Action>, t: State, attempts: seq<Attempt>)
    requires Leads(c, s, actions, t) && Tied(c, s, attempts)
    ensures Tied(c, t, AttemptsOf(c, s, actions, attempts))
    decreases |actions|
  {
    if actions != [] {
      StepTied(c, s, actions[0], attempts);
      LeadsTied(c, Apply(c, s, actions[0]), actions[1..], t, AfterAction(s, actions[0], attempts));
    }
  }

  /** In every interleaving the task's retry counter and result are those of the retry loop on its
      finished attempts; it gives up exactly when the last max_retries of them all failed during setup. */
  lemma RetriesAreTheLoop(c: Config, full: nat, actions: seq<Action>, s: State)
    requires Leads(c, Init(full), actions, s)
    ensures var attempts := AttemptsOf(c, Init(full), actions, []);
            && Tied(c, s, attempts)
            && (s.ws.Stopped? && Transient(attempts[|attempts| - 1].ending) ==>
                  (s.ws.result == Exhausted
                   <==> c.maxRetries <= |attempts|
                        && forall j :: |attempts| - c.maxRetries <= j < |attempts|
                                       ==> attempts[j].ending == SetupFailed))
  {
    var attempts := AttemptsOf(c, Init(full), actions, []);
    LeadsTied(c, Init(full), actions, s, []);
    if s.ws.Stopped? && Transient(attempts[|attempts| - 1].ending) {
      ExhaustionMeaning(attempts, |attempts| - 1, c.maxRetries);
    }
  }
}
