/** The dashboard's overall health verdict (export_metrics.py `_health`, `_apply_freshness`). */
module DashboardHealth {
  import opened Options
  import opened MarketCalendar

  datatype Status = Healthy | Unknown | Warning | Unhealthy

  datatype Signal = ExtractorBar | LoaderCommit | LoaderHeartbeat

  datatype Reason =
    | Missing(signal: Signal) | Stale(signal: Signal) | Aging(signal: Signal)
    | AwaitingCleanShutdown | NoRecentSession | LoaderStalled | RecentError

  /** Only loader alerts are settled by a later commit. */
  datatype Alert = Alert(at: int, isError: bool, fromLoader: bool)

  datatype Inputs = Inputs(
    market: MarketState,
    lastBar: Option<int>, finalMetricsAt: Option<int>, noRecentSession: bool,
    lastCommit: Option<int>, latestHeartbeat: Option<int>, stalled: bool,
    alerts: seq<Alert>)

  /** Age limits per signal, in the unit of the timestamps. */
  datatype Limits = Limits(warning: map<Signal, int>, unhealthy: map<Signal, int>)

  predicate Complete(limits: Limits) {
    forall s: Signal :: s in limits.warning && s in limits.unhealthy
  }

  function Rank(status: Status): nat {
    match status case Healthy => 0 case Unknown => 1 case Warning => 2 case Unhealthy => 3
  }

  function Worse(a: Status, b: Status): Status {
    if Rank(a) >= Rank(b) then a else b
  }

  function SeverityOf(reason: Reason): Status {
    match reason
    case Aging(_) => Warning
    case AwaitingCleanShutdown => Warning
    case NoRecentSession => Unknown
    case _ => Unhealthy
  }

  /** The maximum severity of a list of reasons. */
  function WorstOf(reasons: seq<Reason>): Status {
    if reasons == [] then Healthy
    else Worse(WorstOf(reasons[..|reasons| - 1]), SeverityOf(reasons[|reasons| - 1]))
  }

  function ValueOf(x: Inputs, signal: Signal): Option<int> {
    match signal
    case ExtractorBar => x.lastBar
    case LoaderCommit => x.lastCommit
    case LoaderHeartbeat => x.latestHeartbeat
  }

  /** Bars and commits are expected only while the market is open, heartbeats always. */
  predicate Expected(x: Inputs, signal: Signal) {
    signal == LoaderHeartbeat || x.market == MarketOpen
  }

  predicate OlderThan(x: Inputs, signal: Signal, now: int, limit: int) {
    ValueOf(x, signal).Some? && now - ValueOf(x, signal).value > limit
  }

  predicate Unresolved(alert: Alert, lastCommit: Option<int>) {
    alert.isError && (!alert.fromLoader || lastCommit == None || alert.at > lastCommit.value)
  }

  predicate HasUnresolved(x: Inputs) {
    exists a :: a in x.alerts && Unresolved(a, x.lastCommit)
  }

  /** When a reason holds of the inputs, whatever else is wrong. */
  predicate Holds(reason: Reason, x: Inputs, now: int, limits: Limits)
    requires Complete(limits)
  {
    match reason
    case Missing(s) => Expected(x, s) && ValueOf(x, s) == None
    case Stale(s) => Expected(x, s) && OlderThan(x, s, now, limits.unhealthy[s])
    case Aging(s) =>
      Expected(x, s) && OlderThan(x, s, now, limits.warning[s]) && !OlderThan(x, s, now, limits.unhealthy[s])
    case AwaitingCleanShutdown => x.market == Settling && x.finalMetricsAt == None
    case NoRecentSession => x.market in {Closed, Weekend, PreOpen} && x.noRecentSession
    case LoaderStalled => x.stalled
    case RecentError => HasUnresolved(x)
  }

  /** The status as a join over everything that holds. */
  ghost predicate IsVerdict(status: Status, x: Inputs, now: int, limits: Limits)
    requires Complete(limits)
  {
    && (forall r: Reason :: Holds(r, x, now, limits) ==> Rank(SeverityOf(r)) <= Rank(status))
    && (status == Healthy || exists r: Reason :: Holds(r, x, now, limits) && SeverityOf(r) == status)
  }

  /** What the status says, written out: unhealthy if something expected is missing or over its limit,
      the loader is stalled, or an error is not settled by a later commit of the loader. */
  lemma VerdictWrittenOut(status: Status, x: Inputs, now: int, limits: Limits)
    requires Complete(limits) && IsVerdict(status, x, now, limits)
    ensures status == Unhealthy
            <==> || x.latestHeartbeat == None || now - x.latestHeartbeat.value > limits.unhealthy[LoaderHeartbeat]
                 || (x.market == MarketOpen
                     && (|| x.lastBar == None || now - x.lastBar.value > limits.unhealthy[ExtractorBar]
                         || x.lastCommit == None || now - x.lastCommit.value > limits.unhealthy[LoaderCommit]))
                 || x.stalled
                 || exists a :: a in x.alerts && a.isError
                                && (!a.fromLoader || x.lastCommit == None || a.at > x.lastCommit.value)
    ensures status in {Warning, Unhealthy}
            <==> || status == Unhealthy
                 || now - x.latestHeartbeat.value > limits.warning[LoaderHeartbeat]
                 || (x.market == MarketOpen
                     && (|| now - x.lastBar.value > limits.warning[ExtractorBar]
                         || now - x.lastCommit.value > limits.warning[LoaderCommit]))
                 || (x.market == Settling && x.finalMetricsAt == None)
    ensures status == Healthy
            <==> status !in {Warning, Unhealthy} && !(x.market in {Closed, Weekend, PreOpen} && x.noRecentSession)
  {
    SignalWrittenOut(LoaderHeartbeat, x.latestHeartbeat, true, x, now, limits);
    SignalWrittenOut(ExtractorBar, x.lastBar, x.market == MarketOpen, x, now, limits);
    SignalWrittenOut(LoaderCommit, x.lastCommit, x.market == MarketOpen, x, now, limits);
    assert Holds(LoaderStalled, x, now, limits) <==> x.stalled;
    assert Holds(AwaitingCleanShutdown, x, now, limits) <==> x.market == Settling && x.finalMetricsAt == None;
    assert Holds(NoRecentSession, x, now, limits) <==> x.market in {Closed, Weekend, PreOpen} && x.noRecentSession;
    ErrorWrittenOut(x, now, limits);
  }

  lemma SignalWrittenOut(s: Signal, value: Option<int>, expected: bool, x: Inputs, now: int, limits: Limits)
    requires Complete(limits) && value == ValueOf(x, s) && (expected <==> Expected(x, s))
    ensures Holds(Missing(s), x, now, limits) <==> expected && value == None
    ensures Holds(Stale(s), x, now, limits) <==> expected && value.Some? && now - value.value > limits.unhealthy[s]
    ensures Holds(Aging(s), x, now, limits)
            <==> expected && value.Some? && now - value.value > limits.warning[s]
                 && now - value.value <= limits.unhealthy[s]
  {
  }

  lemma ErrorWrittenOut(x: Inputs, now: int, limits: Limits)
    requires Complete(limits)
    ensures Holds(RecentError, x, now, limits)
            <==> exists a :: a in x.alerts && a.isError
                             && (!a.fromLoader || x.lastCommit == None || a.at > x.lastCommit.value)
  {
    if HasUnresolved(x) {
      var a :| a in x.alerts && Unresolved(a, x.lastCommit);
      assert a.isError && (!a.fromLoader || x.lastCommit == None || a.at > x.lastCommit.value);
    }
    if a :| a in x.alerts && a.isError && (!a.fromLoader || x.lastCommit == None || a.at > x.lastCommit.value) {
      assert Unresolved(a, x.lastCommit);
    }
  }

  /** Where in the function a reason is checked. */
  function Stage(reason: Reason): nat {
    match reason
    case RecentError => 5
    case LoaderStalled => 4
    case AwaitingCleanShutdown => 2
    case NoRecentSession => 2
    case Missing(s) => SignalStage(s)
    case Stale(s) => SignalStage(s)
    case Aging(s) => SignalStage(s)
  }

  function SignalStage(signal: Signal): nat {
    match signal case ExtractorBar => 1 case LoaderCommit => 2 case LoaderHeartbeat => 3
  }

  /** What is true after the checks up to a stage: reported reasons hold, the status is their join,
      and only aging signals go unreported, once the status is already unhealthy. */
  ghost predicate Consistent(reasons: seq<Reason>, status: Status, stage: nat, x: Inputs, now: int, limits: Limits)
    requires Complete(limits)
  {
    && status == WorstOf(reasons)
    && (forall r :: r in reasons ==> Stage(r) <= stage && Holds(r, x, now, limits))
    && (forall r :: Stage(r) <= stage && Holds(r, x, now, limits) ==> r in reasons || (r.Aging? && status == Unhealthy))
  }

  lemma {:induction false} WorstOfMeaning(reasons: seq<Reason>)
    ensures forall r :: r in reasons ==> Rank(SeverityOf(r)) <= Rank(WorstOf(reasons))
    ensures WorstOf(reasons) == Healthy <==> reasons == []
    ensures WorstOf(reasons) != Healthy ==> exists r :: r in reasons && SeverityOf(r) == WorstOf(reasons)
  {
    if reasons != [] {
      var init, last := reasons[..|reasons| - 1], reasons[|reasons| - 1];
      WorstOfMeaning(init);
      assert reasons == init + [last];
      assert last in reasons;
    }
  }

  lemma WorstOfSnoc(reasons: seq<Reason>, r: Reason)
    ensures WorstOf(reasons + [r]) == Worse(WorstOf(reasons), SeverityOf(r))
  {
    assert (reasons + [r])[..|reasons|] == reasons;
  }

  /** Reporting the one new reason that holds at the next stage, or none. */
  lemma Report(reasons: seq<Reason>, status: Status, stage: nat, r: Reason, x: Inputs, now: int, limits: Limits)
    requires Complete(limits) && Consistent(reasons, status, stage, x, now, limits)
    requires Stage(r) == stage + 1 && Holds(r, x, now, limits)
    requires forall q :: Stage(q) == stage + 1 && Holds(q, x, now, limits) ==> q == r
    ensures Consistent(reasons + [r], Worse(status, SeverityOf(r)), stage + 1, x, now, limits)
  {
    WorstOfSnoc(reasons, r);
  }

  lemma ReportNone(reasons: seq<Reason>, status: Status, stage: nat, x: Inputs, now: int, limits: Limits)
    requires Complete(limits) && Consistent(reasons, status, stage, x, now, limits)
    requires forall q :: Stage(q) == stage + 1 && Holds(q, x, now, limits) ==> q.Aging? && status == Unhealthy
    ensures Consistent(reasons, status, stage + 1, x, now, limits)
  {
  }

  lemma FreshnessReasons(signal: Signal, q: Reason, x: Inputs, now: int, limits: Limits)
    requires Complete(limits) && Expected(x, signal) && (signal == LoaderCommit ==> x.market == MarketOpen)
    requires Stage(q) == SignalStage(signal) && Holds(q, x, now, limits)
    ensures q == if ValueOf(x, signal) == None then Missing(signal)
                 else if now - ValueOf(x, signal).value > limits.unhealthy[signal] then Stale(signal)
                 else Aging(signal)
    ensures q.Aging? ==> now - ValueOf(x, signal).value > limits.warning[signal]
  {
  }

  method ApplyFreshness(reasons: seq<Reason>, status: Status, signal: Signal, x: Inputs, now: int, limits: Limits)
    returns (reasons': seq<Reason>, status': Status)
    requires Complete(limits) && Expected(x, signal)
    requires Consistent(reasons, status, SignalStage(signal) - 1, x, now, limits)
    ensures Consistent(reasons', status', SignalStage(signal), x, now, limits)
    ensures reasons' == reasons
            || reasons' in {reasons + [Missing(signal)], reasons + [Stale(signal)], reasons + [Aging(signal)]}
  {
    forall q | Stage(q) == SignalStage(signal) && Holds(q, x, now, limits) {
      FreshnessReasons(signal, q, x, now, limits);
    }
    reasons', status' := reasons, status;
    ghost var stage := SignalStage(signal) - 1;
    var value := ValueOf(x, signal);
    if value == None {
      Report(reasons, status, stage, Missing(signal), x, now, limits);
      return reasons + [Missing(signal)], Unhealthy;
    }
    var age := now - value.value;
    if age > limits.unhealthy[signal] {
      Report(reasons, status, stage, Stale(signal), x, now, limits);
      return reasons + [Stale(signal)], Unhealthy;
    }
    if age > limits.warning[signal] && status != Unhealthy {
      Report(reasons, status, stage, Aging(signal), x, now, limits);
      return reasons + [Aging(signal)], Warning;
    }
    ReportNone(reasons, status, stage, x, now, limits);
  }

  /** Outside market hours: what the session checks may report. */
  lemma SessionReasons(q: Reason, x: Inputs, now: int, limits: Limits)
    requires Complete(limits) && x.market != MarketOpen && Stage(q) <= 2 && Holds(q, x, now, limits)
    ensures q == if x.market == Settling then AwaitingCleanShutdown else NoRecentSession
  {
  }

  /** The checks that depend on the market state. */
  method SessionChecks(x: Inputs, now: int, limits: Limits) returns (reasons: seq<Reason>, status: Status)
    requires Complete(limits)
    ensures Consistent(reasons, status, 2, x, now, limits)
  {
    reasons, status := [], Healthy;
    if x.market == MarketOpen {
      reasons, status := ApplyFreshness(reasons, status, ExtractorBar, x, now, limits);
      reasons, status := ApplyFreshness(reasons, status, LoaderCommit, x, now, limits);
    } else {
      forall q | Stage(q) <= 2 && Holds(q, x, now, limits) {
        SessionReasons(q, x, now, limits);
      }
      if x.market == Settling && x.finalMetricsAt == None {
        WorstOfSnoc([], AwaitingCleanShutdown);
        status, reasons := Warning, [AwaitingCleanShutdown];
      } else if x.market in {Closed, Weekend, PreOpen} && x.noRecentSession {
        WorstOfSnoc([], NoRecentSession);
        status, reasons := Unknown, [NoRecentSession];
      }
    }
  }

  /** The verdict: the status is the maximum severity of the reasons listed, healthy exactly when
      there are none, and also the join of everything that holds, listed or not. */
  method Health(x: Inputs, now: int, limits: Limits) returns (status: Status, reasons: seq<Reason>)
    requires Complete(limits)
    ensures status == WorstOf(reasons) && (status == Healthy <==> reasons == [])
    ensures IsVerdict(status, x, now, limits)
    ensures forall r :: r in reasons ==> Holds(r, x, now, limits)
    ensures forall r: Reason :: Holds(r, x, now, limits) ==> r in reasons || (r.Aging? && status == Unhealthy)
  {
    reasons, status := SessionChecks(x, now, limits);
    reasons, status := ApplyFreshness(reasons, status, LoaderHeartbeat, x, now, limits);
    StalledChecked(reasons, status, x, now, limits);
    if x.stalled {
      status, reasons := Unhealthy, reasons + [LoaderStalled];
    }
    ErrorsChecked(reasons, status, x, now, limits);
    if HasUnresolved(x) {
      status, reasons := Unhealthy, reasons + [RecentError];
    }
    AllChecked(reasons, status, x, now, limits);
  }

  lemma StalledChecked(reasons: seq<Reason>, status: Status, x: Inputs, now: int, limits: Limits)
    requires Complete(limits) && Consistent(reasons, status, 3, x, now, limits)
    ensures if x.stalled then Consistent(reasons + [LoaderStalled], Unhealthy, 4, x, now, limits)
            else Consistent(reasons, status, 4, x, now, limits)
  {
    assert forall q :: Stage(q) == 4 ==> q == LoaderStalled;
    if x.stalled {
      Report(reasons, status, 3, LoaderStalled, x, now, limits);
    } else {
      ReportNone(reasons, status, 3, x, now, limits);
    }
  }

  lemma ErrorsChecked(reasons: seq<Reason>, status: Status, x: Inputs, now: int, limits: Limits)
    requires Complete(limits) && Consistent(reasons, status, 4, x, now, limits)
    ensures if HasUnresolved(x) then Consistent(reasons + [RecentError], Unhealthy, 5, x, now, limits)
            else Consistent(reasons, status, 5, x, now, limits)
  {
    assert forall q :: Stage(q) == 5 ==> q == RecentError;
    if HasUnresolved(x) {
      Report(reasons, status, 4, RecentError, x, now, limits);
    } else {
      ReportNone(reasons, status, 4, x, now, limits);
    }
  }

  lemma AllChecked(reasons: seq<Reason>, status: Status, x: Inputs, now: int, limits: Limits)
    requires Complete(limits) && Consistent(reasons, status, 5, x, now, limits)
    ensures IsVerdict(status, x, now, limits) && (status == Healthy <==> reasons == [])
    ensures forall r: Reason :: Holds(r, x, now, limits) ==> r in reasons || (r.Aging? && status == Unhealthy)
  {
    WorstOfMeaning(reasons);
    forall r: Reason
      ensures Stage(r) <= 5
    {
    }
  }

  /** With the same inputs and market state, health never improves as time passes; at one time there is
      one verdict. */
  lemma OnlyWorsens(earlier: Status, later: Status, x: Inputs, now: int, after: int, limits: Limits)
    requires Complete(limits) && now <= after
    requires IsVerdict(earlier, x, now, limits) && IsVerdict(later, x, after, limits)
    ensures Rank(earlier) <= Rank(later) && (now == after ==> earlier == later)
  {
    if earlier != Healthy {
      var r: Reason :| Holds(r, x, now, limits) && SeverityOf(r) == earlier;
      if r.Aging? {
        assert Holds(r, x, after, limits) || Holds(Stale(r.signal), x, after, limits);
      } else {
        assert Holds(r, x, after, limits);
      }
    }
  }
}
