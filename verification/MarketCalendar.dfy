/** Market state and next opening (export_metrics.py `market_state`, `_opening_utc`), in local
    wall-clock terms: a day number, where day % 7 is the weekday counted from Monday, and the
    microsecond of the day. */
module MarketCalendar {

  datatype MarketState = PreOpen | MarketOpen | Settling | Closed | Weekend

  const SECOND: int := 1_000_000
  const DAY: int := 86_400 * SECOND
  const OPEN: int := (9 * 3600 + 30 * 60) * SECOND
  const CLOSE: int := 16 * 3600 * SECOND
  const SETTLED: int := 17 * 3600 * SECOND

  predicate IsTradingDay(day: int) {
    day % 7 < 5
  }

  /** An opening is 09:30 of a weekday. */
  function OpeningOf(day: int): int {
    day * DAY + OPEN
  }

  /** The first weekday at or after the candidate, after at most two steps. */
  method OpeningDay(candidate: int) returns (day: int, stepsTaken: nat)
    ensures IsTradingDay(day) && day >= candidate
    ensures forall d :: candidate <= d < day ==> !IsTradingDay(d)
    ensures stepsTaken == day - candidate && stepsTaken <= 2
  {
    day, stepsTaken := candidate, 0;
    while day % 7 >= 5
      invariant day == candidate + stepsTaken
      invariant forall d :: candidate <= d < day ==> !IsTradingDay(d)
      invariant stepsTaken > 0 ==> candidate % 7 >= 5
      invariant stepsTaken <= 2 && (stepsTaken == 2 ==> day % 7 < 5)
      decreases 2 - stepsTaken
    {
      day, stepsTaken := day + 1, stepsTaken + 1;
    }
  }

  /** The state of the session, and the least opening strictly after the given instant. */
  method MarketStateAt(day: int, tick: int) returns (state: MarketState, openingDay: int)
    requires 0 <= tick < DAY
    ensures state == Weekend <==> day % 7 >= 5
    ensures day % 7 < 5 ==>
      && (state == PreOpen <==> tick < 34_200_000_000)
      && (state == MarketOpen <==> 34_200_000_000 <= tick < 57_600_000_000)
      && (state == Settling <==> 57_600_000_000 <= tick < 61_200_000_000)
    ensures openingDay % 7 < 5
            && openingDay * 86_400_000_000 + 34_200_000_000 > day * 86_400_000_000 + tick
    ensures state == Weekend <==> !IsTradingDay(day)
    ensures IsTradingDay(day) ==>
      && (state == PreOpen <==> tick < OPEN)
      && (state == MarketOpen <==> OPEN <= tick < CLOSE)
      && (state == Settling <==> CLOSE <= tick < SETTLED)
      && (state == Closed <==> SETTLED <= tick)
    ensures IsTradingDay(openingDay) && OpeningOf(openingDay) > day * DAY + tick
    ensures forall d :: IsTradingDay(d) && OpeningOf(d) > day * DAY + tick ==> openingDay <= d
  {
    var weekday := day % 7;
    var stepsTaken: nat;
    if weekday >= 5 {
      openingDay, stepsTaken := OpeningDay(day + 7 - weekday);
      SkippedWeekend(day, openingDay);
      return Weekend, openingDay;
    }
    if tick < OPEN {
      openingDay, stepsTaken := OpeningDay(day);
      return PreOpen, openingDay;
    }
    openingDay, stepsTaken := OpeningDay(day + 1);
    state := if tick < CLOSE then MarketOpen else if tick < SETTLED then Settling else Closed;
  }

  /** From a weekend day, no trading day comes before the Monday after it. */
  lemma SkippedWeekend(day: int, openingDay: int)
    requires day % 7 >= 5 && openingDay >= day + 7 - day % 7
    requires forall d :: day + 7 - day % 7 <= d < openingDay ==> !IsTradingDay(d)
    ensures forall d :: day <= d < openingDay ==> !IsTradingDay(d)
  {
  }
}
