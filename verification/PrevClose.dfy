/** The two searches for an A-share's previous close: the order management system's walk over day
    keys and the broker's walk over trading days. Days count from the epoch, a Thursday; closes are
    exact reals. */
module PrevClose {
  import opened Domain

  const DAY_KEYS := 40
  const CLOSED_RUN := 30
  const MAX_LOOKBACK := 30

  function Weekday(day: int): int { (day + 3) % 7 }

  predicate IsWeekend(day: int) { Weekday(day) >= 5 }

  predicate IsTradingDay(holidays: set<int>, day: int) { !IsWeekend(day) && day !in holidays }

  // --- the trading-day walk ---------------------------------------------------------------------

  /** The nearest trading day before `day`, unless the 30 days before it are all closed. */
  ghost predicate IsPrevious(holidays: set<int>, day: int, r: Option<int>) {
    match r
    case Some(p) => day - CLOSED_RUN <= p < day && IsTradingDay(holidays, p) && Closed(holidays, p + 1, day)
    case None => Closed(holidays, day - CLOSED_RUN, day)
  }

  ghost predicate Closed(holidays: set<int>, lo: int, hi: int) {
    forall d :: lo <= d < hi ==> !IsTradingDay(holidays, d)
  }

  method PreviousSessionDate(holidays: set<int>, day: int) returns (r: Option<int>)
    ensures IsPrevious(holidays, day, r)
  {
    var d := day - 1;
    for i := 0 to CLOSED_RUN
      invariant d == day - 1 - i && Closed(holidays, d + 1, day)
    {
      if IsTradingDay(holidays, d) {
        return Some(d);
      }
      d := d - 1;
    }
    return None;
  }

  /** Trading days from `lo` up to, not including, `hi`. */
  function TradingDays(holidays: set<int>, lo: int, hi: int): nat
    decreases hi - lo
  {
    if lo >= hi then 0 else TradingDays(holidays, lo + 1, hi) + if IsTradingDay(holidays, lo) then 1 else 0
  }

  ghost predicate ClosedRun(holidays: set<int>, x: int) { Closed(holidays, x, x + CLOSED_RUN) }

  /** No 30 consecutive days strictly between `lo` and `hi` are all closed. */
  ghost predicate Walkable(holidays: set<int>, lo: int, hi: int) {
    forall x :: lo < x && x + CLOSED_RUN <= hi ==> !ClosedRun(holidays, x)
  }

  ghost predicate NoneBetween(closes: map<int, real>, holidays: set<int>, lo: int, hi: int) {
    forall e :: lo < e < hi && IsTradingDay(holidays, e) ==> e !in closes
  }

  /** `d` is the latest trading day before `day` that has a close, within `n` trading days, and no
      closed run interrupts the walk. */
  ghost predicate WalkFinds(closes: map<int, real>, holidays: set<int>, day: int, n: nat, d: int) {
    && d < day && IsTradingDay(holidays, d) && d in closes && NoneBetween(closes, holidays, d, day)
    && TradingDays(holidays, d, day) <= n && Walkable(holidays, d, day)
  }

  lemma WalkFindsOne(closes: map<int, real>, holidays: set<int>, day: int, n: nat, d: int, e: int)
    requires WalkFinds(closes, holidays, day, n, d) && WalkFinds(closes, holidays, day, n, e)
    ensures d == e
  {
  }

  /** The broker's previous close. */
  ghost function Resolved(closes: map<int, real>, holidays: set<int>, day: int, n: nat): Option<real> {
    if d :| WalkFinds(closes, holidays, day, n, d) then Some(closes[d]) else None
  }

  method ResolvePrevClose(closes: map<int, real>, holidays: set<int>, day: int, n: nat) returns (r: Option<real>)
    ensures r == Resolved(closes, holidays, day, n)
    ensures r.Some? ==> exists d :: WalkFinds(closes, holidays, day, n, d) && r.value == closes[d]
    ensures r.None? ==> forall d :: !WalkFinds(closes, holidays, day, n, d)
  {
    var d := PreviousSessionDate(holidays, day);
    ghost var at := day;
    for k := 0 to n
      invariant at <= day && (at == day || IsTradingDay(holidays, at)) && IsPrevious(holidays, at, d)
      invariant TradingDays(holidays, at, day) == k
      invariant NoneBetween(closes, holidays, at - 1, day) && Walkable(holidays, at - 1, day)
    {
      if d.None? {
        StuckWalk(closes, holidays, day, n, at);
        return None;
      }
      StepBack(closes, holidays, day, at, d.value);
      if d.value in closes {
        assert WalkFinds(closes, holidays, day, n, d.value);
        forall e | WalkFinds(closes, holidays, day, n, e)
          ensures e == d.value
        {
          WalkFindsOne(closes, holidays, day, n, d.value, e);
        }
        return Some(closes[d.value]);
      }
      at := d.value;
      d := PreviousSessionDate(holidays, d.value);
    }
    forall e
      ensures !WalkFinds(closes, holidays, day, n, e)
    {
      if e < at && IsTradingDay(holidays, e) {
        CountSplits(holidays, e, at, day);
      }
    }
    return None;
  }

  lemma {:induction false} CountSplits(holidays: set<int>, lo: int, mid: int, hi: int)
    requires lo <= mid <= hi
    ensures TradingDays(holidays, lo, hi) == TradingDays(holidays, lo, mid) + TradingDays(holidays, mid, hi)
    decreases mid - lo
  {
    if lo < mid {
      CountSplits(holidays, lo + 1, mid, hi);
    }
  }

  lemma {:induction false} ClosedCount(holidays: set<int>, lo: int, hi: int)
    requires Closed(holidays, lo, hi)
    ensures TradingDays(holidays, lo, hi) == 0
    decreases hi - lo
  {
    if lo < hi {
      ClosedCount(holidays, lo + 1, hi);
    }
  }

  /** One step of the walk keeps the count, the empty stretch and the walkability. */
  lemma StepBack(closes: map<int, real>, holidays: set<int>, day: int, at: int, p: int)
    requires at <= day && (at == day || IsTradingDay(holidays, at)) && IsPrevious(holidays, at, Some(p))
    requires NoneBetween(closes, holidays, at - 1, day) && Walkable(holidays, at - 1, day)
    ensures TradingDays(holidays, p, day) == TradingDays(holidays, at, day) + 1
    ensures NoneBetween(closes, holidays, p, day) && Walkable(holidays, p, day)
    ensures p !in closes ==> NoneBetween(closes, holidays, p - 1, day)
    ensures Walkable(holidays, p - 1, day)
  {
    CountSplits(holidays, p, at, day);
    ClosedCount(holidays, p + 1, at);
    forall x | p - 1 < x && x + CLOSED_RUN <= day
      ensures !ClosedRun(holidays, x)
    {
      if x <= p {
        assert IsTradingDay(holidays, p);
      } else if x < at {
        assert IsTradingDay(holidays, at);
      }
    }
  }

  lemma StuckWalk(closes: map<int, real>, holidays: set<int>, day: int, n: nat, at: int)
    requires at <= day && IsPrevious(holidays, at, None) && NoneBetween(closes, holidays, at - 1, day)
    ensures forall d :: !WalkFinds(closes, holidays, day, n, d)
  {
    forall d
      ensures !WalkFinds(closes, holidays, day, n, d)
    {
      assert ClosedRun(holidays, at - CLOSED_RUN);
    }
  }

  // --- the day-key search -------------------------------------------------------------------------

  /** `d` is the latest day key of the 40 before `day` that holds a positive close. */
  ghost predicate KeysFind(closes: map<int, real>, day: nat, d: int) {
    && 0 <= d < day <= d + DAY_KEYS && d in closes && closes[d] > 0.0
    && forall e :: d < e < day && e in closes ==> closes[e] <= 0.0
  }

  method PrevCloseFor(closes: map<int, real>, day: nat) returns (r: Option<real>)
    ensures r.Some? ==> exists d :: KeysFind(closes, day, d) && r.value == closes[d]
    ensures r.None? ==> forall d :: !KeysFind(closes, day, d)
  {
    for back := 1 to DAY_KEYS + 1
      invariant forall e :: day - back < e < day && e in closes && e >= 0 ==> closes[e] <= 0.0
    {
      if day < back {
        break;
      }
      if day - back in closes && closes[day - back] > 0.0 {
        assert KeysFind(closes, day, day - back);
        return Some(closes[day - back]);
      }
    }
    return None;
  }

  // --- agreement ----------------------------------------------------------------------------------

  lemma {:induction false} TradingAtMostDays(holidays: set<int>, lo: int, hi: int)
    requires lo <= hi
    ensures TradingDays(holidays, lo, hi) <= hi - lo
    decreases hi - lo
  {
    if lo < hi {
      TradingAtMostDays(holidays, lo + 1, hi);
    }
  }

  /** A week holds at most five trading days. */
  lemma WeekHoldsFive(holidays: set<int>, lo: int)
    ensures TradingDays(holidays, lo, lo + 7) <= 5
  {
    hide TradingDays;
    var w := Weekday(lo);
    if w == 6 {
      CountSplits(holidays, lo, lo + 1, lo + 7);
      CountSplits(holidays, lo + 1, lo + 6, lo + 7);
      ClosedCount(holidays, lo, lo + 1);
      TradingAtMostDays(holidays, lo + 1, lo + 6);
      ClosedCount(holidays, lo + 6, lo + 7);
    } else {
      var sat := lo + 5 - w;
      assert Weekday(sat) == 5 && Weekday(sat + 1) == 6;
      CountSplits(holidays, lo, sat, lo + 7);
      CountSplits(holidays, sat, sat + 2, lo + 7);
      TradingAtMostDays(holidays, lo, sat);
      ClosedCount(holidays, sat, sat + 2);
      TradingAtMostDays(holidays, sat + 2, lo + 7);
    }
  }

  /** Forty consecutive days hold at most thirty trading days: five full weeks and five days. */
  lemma FortyHoldThirty(holidays: set<int>, lo: int, hi: int)
    requires lo <= hi <= lo + DAY_KEYS
    ensures TradingDays(holidays, lo, hi) <= MAX_LOOKBACK
    decreases hi - lo
  {
    WeeksHold(holidays, lo, hi);
  }

  lemma {:induction false} WeeksHold(holidays: set<int>, lo: int, hi: int)
    requires lo <= hi
    ensures TradingDays(holidays, lo, hi) <= (hi - lo) / 7 * 5 + Min((hi - lo) % 7, 5)
    decreases hi - lo
  {
    if hi - lo >= 7 {
      CountSplits(holidays, lo, lo + 7, hi);
      WeekHoldsFive(holidays, lo);
      WeeksHold(holidays, lo + 7, hi);
    } else if hi - lo == 6 {
      CountSplits(holidays, lo, hi, lo + 7);
      WeekHoldsFive(holidays, lo);
    } else {
      TradingAtMostDays(holidays, lo, hi);
    }
  }

  /** Whenever the day-key search finds a close, the broker's walk finds the same one exactly when it
      is a trading day's, no closed run lies between, and no trading day in between carries a
      non-positive close. */
  lemma SearchesAgreeIff(closes: map<int, real>, holidays: set<int>, day: nat, d: int)
    requires KeysFind(closes, day, d)
    ensures WalkFinds(closes, holidays, day, MAX_LOOKBACK, d) <==>
      && IsTradingDay(holidays, d) && Walkable(holidays, d, day) && NoneBetween(closes, holidays, d, day)
  {
    FortyHoldThirty(holidays, d, day);
  }

  /** Positive closes on trading days only, as both tables are meant to be kept. */
  ghost predicate Clean(closes: map<int, real>, holidays: set<int>) {
    forall d :: d in closes ==> closes[d] > 0.0 && IsTradingDay(holidays, d)
  }

  /** On a clean table and a calendar without a 30-day closed run, the searches find the same close,
      except that the walk also reaches closes more than 40 days old. */
  lemma SearchesAgree(closes: map<int, real>, holidays: set<int>, day: nat, d: int)
    requires Clean(closes, holidays) && Walkable(holidays, day - DAY_KEYS - 1, day)
    ensures KeysFind(closes, day, d) <==>
      0 <= d && day <= d + DAY_KEYS && WalkFinds(closes, holidays, day, MAX_LOOKBACK, d)
  {
    if 0 <= d < day <= d + DAY_KEYS {
      FortyHoldThirty(holidays, d, day);
      assert Walkable(holidays, d, day);
    }
  }

  /** A print on a Saturday is taken by the day-key search and skipped by the walk. */
  lemma StaleSaturdayPrint()
    ensures var fri, sat, mon := 1, 2, 4; var closes := map[fri := 100.0, sat := 110.0];
      && IsWeekend(sat) && IsTradingDay({}, fri) && IsTradingDay({}, mon)
      && KeysFind(closes, mon, sat) && WalkFinds(closes, {}, mon, MAX_LOOKBACK, fri)
  {
    FortyHoldThirty({}, 1, 4);
  }
}
