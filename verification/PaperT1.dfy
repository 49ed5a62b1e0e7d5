/** T+1 in the paper broker: which calls keep it. The broker judges every fill on one session day, set
    by `set_session_day` or by the last bar of any listing, so what matters is the day each call is
    judged on, and that is a function of the calls alone. */
module PaperT1 {
  import D = Domain
  import opened Money
  import PrevClose
  import opened PaperBroker
  import opened PaperLaws

  // --- T+1 ----------------------------------------------------------------------------------------

  /** A listing's fills are judged on days that never go back. */
  ghost predicate DaysAscend(fs: seq<Fill>, l: Listing) {
    forall j, k :: 0 <= j < k < |fs| && fs[j].listing == l && fs[k].listing == l ==> fs[j].day <= fs[k].day
  }

  /** While no fill is later than `day`, the position is what was carried in plus the day's trades. */
  lemma {:induction false} NetSplits(fs: seq<Fill>, l: Listing, day: Day)
    requires forall k :: 0 <= k < |fs| && fs[k].listing == l ==> fs[k].day <= day
    ensures NetOf(fs, l) == HeldInto(fs, l, day) + TradedOn(fs, l, day, D.Buy) - TradedOn(fs, l, day, D.Sell)
  {
    if fs != [] {
      NetSplits(fs[..|fs| - 1], l, day);
    }
  }

  /** Settled sales never exceed what was carried into the day. */
  lemma {:induction false} SalesWithinHeld(c: Config, fs: seq<Fill>, l: Listing, day: Day)
    requires c.T1(l) && AllSettled(c, fs) && DaysAscend(fs, l)
    ensures 0.0 <= TradedOn(fs, l, day, D.Sell) <= HeldInto(fs, l, day)
  {
    if fs != [] {
      var n := |fs| - 1;
      var past, f := fs[..n], fs[n];
      assert forall k :: 0 <= k < n ==> past[..k] == fs[..k];
      assert Settled(c, fs[..n], fs[n]);
      SalesWithinHeld(c, past, l, day);
      if f.listing == l && f.side.Sell? {
        assert forall k :: 0 <= k < n && past[k].listing == l ==> past[k].day <= f.day;
        NetSplits(past, l, f.day);
        if f.day < day {
          NetSplits(past, l, day);
          NothingYet(past, l, day);
          SalesWithinHeld(c, past, l, f.day);
          BoughtOnIsPositive(c, past, l, f.day);
        }
      }
    }
  }

  lemma {:induction false} NothingYet(fs: seq<Fill>, l: Listing, day: Day)
    requires forall k :: 0 <= k < |fs| && fs[k].listing == l ==> fs[k].day < day
    ensures TradedOn(fs, l, day, D.Buy) == 0.0 && TradedOn(fs, l, day, D.Sell) == 0.0
  {
    if fs != [] {
      NothingYet(fs[..|fs| - 1], l, day);
    }
  }

  lemma {:induction false} BoughtOnIsPositive(c: Config, fs: seq<Fill>, l: Listing, day: Day)
    requires AllSettled(c, fs)
    ensures TradedOn(fs, l, day, D.Buy) >= 0.0
  {
    if fs != [] {
      var n := |fs| - 1;
      assert forall k :: 0 <= k < n ==> fs[..n][..k] == fs[..k];
      assert Settled(c, fs[..n], fs[n]);
      BoughtOnIsPositive(c, fs[..n], l, day);
    }
  }

  /** A day's sales never exceed the position carried into it. */
  ghost predicate KeepsT1(fs: seq<Fill>, l: Listing) {
    forall day :: TradedOn(fs, l, day, D.Sell) <= HeldInto(fs, l, day)
  }

  // --- the days calls are judged on -----------------------------------------------------------------

  /** The session day a call sets before it does anything else. */
  function SessionIn(c: Config, before: D.Option<Day>, op: Op): D.Option<Day> {
    match op
    case SessionDay(day) => D.Some(day)
    case Bar(l, _, _, _, ts) => if c.enforceT1 then D.Some(c.sessionDate(ts, l.venue)) else before
    case _ => before
  }

  /** The broker's session day after these calls: the last one set, by the caller or by a bar of any
      listing. */
  function SessionAfter(c: Config, ops: seq<Op>): D.Option<Day> {
    if ops == [] then D.None else SessionIn(c, SessionAfter(c, ops[..|ops| - 1]), ops[|ops| - 1])
  }

  /** Calls that may fill orders of a listing. */
  predicate Trades(op: Op, l: Listing) { (op.Mark? || op.Bar? || op.Market? || op.Limit?) && op.listing == l }

  function TimeOf(op: Op): int
    requires op.Mark? || op.Bar? || op.Market? || op.Limit?
  {
    if op.Bar? then op.ts else op.now
  }

  /** The day the last call is judged on. */
  function Judged(c: Config, ops: seq<Op>, l: Listing): Day
    requires ops != [] && Trades(ops[|ops| - 1], l)
  {
    var day := SessionAfter(c, ops);
    if day.Some? then day.value else c.sessionDate(TimeOf(ops[|ops| - 1]), l.venue)
  }

  /** The days on which the calls for a listing are judged, in order. */
  function CallDays(c: Config, ops: seq<Op>, l: Listing): seq<Day> {
    if ops == [] then [] else
      var before := CallDays(c, ops[..|ops| - 1], l);
      if Trades(ops[|ops| - 1], l) then before + [Judged(c, ops, l)] else before
  }

  // --- fills are judged on the day of their call ------------------------------------------------------

  /** A step that concerns one listing: the fills it adds are for that listing and judged on one day,
      and so are the orders it adds; marks, the session day and the identity of orders stay. */
  ghost predicate Within(s: State, s': State, l: Listing, day: Day) {
    && s'.sessionDay == s.sessionDay && s'.marks == s.marks
    && |s.fills| <= |s'.fills| && s'.fills[..|s.fills|] == s.fills
    && (forall i :: |s.fills| <= i < |s'.fills| ==> s'.fills[i].listing == l && s'.fills[i].day == day)
    && |s.orders| <= |s'.orders|
    && (forall i :: 0 <= i < |s.orders| ==> s'.orders[i].listing == s.orders[i].listing)
    && (forall i :: |s.orders| <= i < |s'.orders| ==> s'.orders[i].listing == l)
  }

  lemma WithinTrans(a: State, b: State, c: State, l: Listing, day: Day)
    requires Within(a, b, l, day) && Within(b, c, l, day)
    ensures Within(a, c, l, day)
  {
    assert c.fills[..|a.fills|] == c.fills[..|b.fills|][..|a.fills|];
    assert forall i :: 0 <= i < |b.fills| ==> c.fills[i] == c.fills[..|b.fills|][i];
  }

  lemma BookWithin(c: Config, s: State, f: Fill)
    requires f.order < |s.orders| && s.orders[f.order].listing == f.listing
    ensures Within(s, Book(c, s, f), f.listing, f.day)
  {
    hide Flow, Shares;
  }

  lemma StatusWithin(s: State, i: nat, status: Status, l: Listing, day: Day)
    requires i < |s.orders|
    ensures Within(s, SetStatus(s, i, status), l, day) && Within(s, s, l, day)
  {
  }

  lemma FillWithin(c: Config, s: State, i: nat, px: real, qty: real, ts: int)
    requires i < |s.orders|
    ensures var l := s.orders[i].listing; Within(s, FillOrder(c, s, i, px, qty, ts), l, DayOf(c, s, l, ts))
  {
    hide Covered, Within, Book, SetStatus, Notional, DayOf;
    var l := s.orders[i].listing;
    StatusWithin(s, i, Rejected, l, DayOf(c, s, l, ts));
    BookWithin(c, s, Report(c, s, i, px, qty, ts));
  }

  lemma MatchAtWithin(c: Config, s: State, i: nat, l: Listing, low: real, high: real, ts: int)
    requires i < |s.orders|
    ensures Within(s, MatchAt(c, s, i, l, low, high, ts), l, DayOf(c, s, l, ts))
  {
    hide Within, FillOrder, DayOf;
    var o := s.orders[i];
    SameWithin(s, l, DayOf(c, s, l, ts));
    if Hit(o, l, low, high) {
      FillWithin(c, s, i, o.limit.value, o.qty - o.filled, ts);
    }
  }

  lemma SameDay(c: Config, s: State, s': State, l: Listing, day: Day, ts: int)
    requires Within(s, s', l, day)
    ensures DayOf(c, s', l, ts) == DayOf(c, s, l, ts)
  {
  }

  lemma {:induction false} MatchWithin(c: Config, s: State, l: Listing, low: real, high: real, ts: int, k: nat)
    requires k <= |s.orders|
    ensures Within(s, Match(c, s, l, low, high, ts, k), l, DayOf(c, s, l, ts))
  {
    hide Within, MatchAt, DayOf;
    var day := DayOf(c, s, l, ts);
    if k == 0 {
      SameWithin(s, l, day);
    } else {
      MatchWithin(c, s, l, low, high, ts, k - 1);
      var s1 := Match(c, s, l, low, high, ts, k - 1);
      SameDay(c, s, s1, l, day, ts);
      MatchAtWithin(c, s1, k - 1, l, low, high, ts);
      WithinTrans(s, s1, MatchAt(c, s1, k - 1, l, low, high, ts), l, day);
    }
  }

  lemma SameWithin(s: State, l: Listing, day: Day)
    ensures Within(s, s, l, day)
  {
  }

  lemma NewOrderWithin(s: State, l: Listing, side: D.Side, qty: real, limit: D.Option<real>, status: Status, day: Day)
    ensures Within(s, NewOrder(s, l, side, qty, limit, status), l, day)
  {
  }

  lemma MarketWithin(c: Config, s: State, l: Listing, side: D.Side, qty: real, now: int)
    ensures Within(s, SubmitMarket(c, s, l, side, qty, now), l, DayOf(c, s, l, now))
  {
    hide Within, FillOrder, CheckPrice;
    var day, s1 := DayOf(c, s, l, now), NewOrder(s, l, side, qty, D.None, Accepted);
    SameWithin(s, l, day);
    NewOrderWithin(s, l, side, qty, D.None, Rejected, day);
    NewOrderWithin(s, l, side, qty, D.None, Accepted, day);
    if l in s.marks {
      var px := CheckPrice(c, s, l, side, s.marks[l], true);
      if px.Some? {
        FillWithin(c, s1, |s.orders|, px.value, qty, now);
        WithinTrans(s, s1, FillOrder(c, s1, |s.orders|, px.value, qty, now), l, day);
      }
    }
  }

  lemma LimitWithin(c: Config, s: State, l: Listing, side: D.Side, qty: real, price: real, now: int)
    ensures Within(s, SubmitLimit(c, s, l, side, qty, price, now), l, DayOf(c, s, l, now))
  {
    hide Within, Match, CheckPrice;
    var day, px := DayOf(c, s, l, now), CheckPrice(c, s, l, side, price, false);
    var s1 := NewOrder(s, l, side, qty, px, Accepted);
    SameWithin(s, l, day);
    NewOrderWithin(s, l, side, qty, D.Some(price), Rejected, day);
    NewOrderWithin(s, l, side, qty, px, Accepted, day);
    if l in s.marks {
      MatchWithin(c, s1, l, s.marks[l], s.marks[l], now, |s1.orders|);
      WithinTrans(s, s1, Match(c, s1, l, s.marks[l], s.marks[l], now, |s1.orders|), l, day);
    }
  }

  /** What one call adds: nothing, or fills and orders of its listing, judged on the day of the call. */
  ghost predicate CallAdds(c: Config, s: State, s': State, op: Op) {
    var day := SessionIn(c, s.sessionDay, op);
    && s'.sessionDay == day && |s.fills| <= |s'.fills| && s'.fills[..|s.fills|] == s.fills
    && (forall i :: |s.fills| <= i < |s'.fills| ==>
          && Trades(op, s'.fills[i].listing)
          && s'.fills[i].day == if day.Some? then day.value else c.sessionDate(TimeOf(op), s'.fills[i].listing.venue))
    && |s.orders| <= |s'.orders|
    && (forall i :: 0 <= i < |s.orders| ==> s'.orders[i].listing == s.orders[i].listing)
    && (forall i :: |s.orders| <= i < |s'.orders| ==> Trades(op, s'.orders[i].listing))
    && (forall l :: l in s'.marks ==> l in s.marks || Trades(op, l))
  }

  /** A trading call is a step within its listing, up to the fields that judge no fill. */
  lemma WithinAdds(c: Config, s: State, s1: State, s2: State, s': State, op: Op)
    requires op.Mark? || op.Bar? || op.Market? || op.Limit?
    requires s1.orders == s.orders && s1.fills == s.fills && s1.sessionDay == SessionIn(c, s.sessionDay, op)
    requires forall l :: l in s1.marks ==> l in s.marks || l == op.listing
    requires Within(s1, s2, op.listing, DayOf(c, s1, op.listing, TimeOf(op)))
    requires s'.orders == s2.orders && s'.fills == s2.fills && s'.sessionDay == s2.sessionDay
    requires forall l :: l in s'.marks ==> l in s2.marks || l == op.listing
    ensures CallAdds(c, s, s', op)
  {
  }

  lemma BarAdds(c: Config, s: State, op: Op)
    requires op.Bar?
    ensures CallAdds(c, s, Apply(c, s, op), op)
  {
    hide Match, Within, CallAdds, PrevClose.Resolved;
    var s1 := Rolled(c, s, op.listing, op.ts);
    MatchWithin(c, s1, op.listing, op.low, op.high, op.ts, |s.orders|);
    WithinAdds(c, s, s1, Match(c, s1, op.listing, op.low, op.high, op.ts, |s.orders|), Apply(c, s, op), op);
  }

  lemma ApplyAdds(c: Config, s: State, op: Op)
    ensures CallAdds(c, s, Apply(c, s, op), op)
  {
    match op
    case Mark(l, px, now) =>
      hide Match, Within, CallAdds;
      var s1 := s.(marks := s.marks[l := px]);
      MatchWithin(c, s1, l, px, px, now, |s.orders|);
      WithinAdds(c, s, s1, Apply(c, s, op), Apply(c, s, op), op);
    case Bar(l, high, low, close, ts) =>
      hide CallAdds, Apply;
      BarAdds(c, s, op);
    case Market(l, side, qty, now) =>
      hide SubmitMarket, Within, CallAdds;
      MarketWithin(c, s, l, side, qty, now);
      WithinAdds(c, s, s, Apply(c, s, op), Apply(c, s, op), op);
    case Limit(l, side, qty, price, now) =>
      hide SubmitLimit, Within, CallAdds;
      LimitWithin(c, s, l, side, qty, price, now);
      WithinAdds(c, s, s, Apply(c, s, op), Apply(c, s, op), op);
    case _ =>
  }

  // --- the first call for a listing cannot fill ---------------------------------------------------------

  ghost predicate Unfilled(s: State, l: Listing) { forall i :: 0 <= i < |s.fills| ==> s.fills[i].listing != l }

  /** Nothing is known of the listing: no mark, no order, no fill. */
  ghost predicate Unknown(s: State, l: Listing) {
    l !in s.marks && (forall i :: 0 <= i < |s.orders| ==> s.orders[i].listing != l) && Unfilled(s, l)
  }

  lemma {:induction false} MatchSkips(c: Config, s: State, l: Listing, low: real, high: real, ts: int, k: nat)
    requires k <= |s.orders| && forall i :: 0 <= i < |s.orders| ==> !Hit(s.orders[i], l, low, high)
    ensures Match(c, s, l, low, high, ts, k) == s
  {
    if k > 0 {
      MatchSkips(c, s, l, low, high, ts, k - 1);
    }
  }

  lemma ElsewhereKeepsUnknown(c: Config, s: State, op: Op, l: Listing)
    requires Unknown(s, l) && !Trades(op, l)
    ensures Unknown(Apply(c, s, op), l)
  {
    hide Apply;
    ApplyAdds(c, s, op);
    assert forall i :: 0 <= i < |s.fills| ==> Apply(c, s, op).fills[i] == s.fills[i];
  }

  lemma FirstCallFillsNothing(c: Config, s: State, op: Op, l: Listing)
    requires Unknown(s, l) && Trades(op, l)
    ensures Unfilled(Apply(c, s, op), l)
  {
    hide Match, FillOrder, CheckPrice, PrevClose.Resolved;
    match op
    case Mark(_, px, now) => MatchSkips(c, s.(marks := s.marks[l := px]), l, px, px, now, |s.orders|);
    case Bar(_, high, low, close, ts) => MatchSkips(c, Rolled(c, s, l, ts), l, low, high, ts, |s.orders|);
    case _ =>
  }

  // --- from the calls to the fill log -------------------------------------------------------------------

  /** Every fill of the listing was judged on the day of some call but the first. */
  ghost predicate Dated(fs: seq<Fill>, ds: seq<Day>, l: Listing) {
    forall i :: 0 <= i < |fs| && fs[i].listing == l ==> exists k :: 1 <= k < |ds| && ds[k] == fs[i].day
  }

  /** From the second call on, the days never go back. */
  ghost predicate NeverBack(ds: seq<Day>) { forall j, k :: 1 <= j < k < |ds| ==> ds[j] <= ds[k] }

  lemma {:induction false} SessionIs(c: Config, ops: seq<Op>)
    ensures Run(c, ops).sessionDay == SessionAfter(c, ops)
  {
    hide Apply;
    if ops != [] {
      SessionIs(c, ops[..|ops| - 1]);
      ApplyAdds(c, Run(c, ops[..|ops| - 1]), ops[|ops| - 1]);
    }
  }

  lemma {:induction false} FillsAreDated(c: Config, ops: seq<Op>, l: Listing)
    ensures var s, ds := Run(c, ops), CallDays(c, ops, l);
      && (ds == [] ==> Unknown(s, l)) && Dated(s.fills, ds, l) && (NeverBack(ds) ==> DaysAscend(s.fills, l))
  {
    hide Apply, Judged;
    if ops != [] {
      var n := |ops| - 1;
      var s, s', op, ds := Run(c, ops[..n]), Run(c, ops), ops[n], CallDays(c, ops[..n], l);
      FillsAreDated(c, ops[..n], l);
      ApplyAdds(c, s, op);
      SessionIs(c, ops);
      if !Trades(op, l) {
        SameFills(s.fills, s'.fills, ds, l);
        if ds == [] {
          ElsewhereKeepsUnknown(c, s, op, l);
        }
      } else if ds == [] {
        FirstCallFillsNothing(c, s, op, l);
      } else {
        JudgedIs(c, ops, l);
        NewFills(s.fills, s'.fills, ds, Judged(c, ops, l), l);
      }
    }
  }

  lemma JudgedIs(c: Config, ops: seq<Op>, l: Listing)
    requires ops != [] && Trades(ops[|ops| - 1], l)
    ensures var day := SessionAfter(c, ops);
      Judged(c, ops, l) == if day.Some? then day.value else c.sessionDate(TimeOf(ops[|ops| - 1]), l.venue)
  {
  }

  lemma SameFills(fs: seq<Fill>, fs': seq<Fill>, ds: seq<Day>, l: Listing)
    requires |fs| <= |fs'| && fs'[..|fs|] == fs
    requires forall i :: |fs| <= i < |fs'| ==> fs'[i].listing != l
    ensures Dated(fs, ds, l) ==> Dated(fs', ds, l)
    ensures DaysAscend(fs, l) ==> DaysAscend(fs', l)
  {
    assert forall i :: 0 <= i < |fs| ==> fs'[i] == fs[i];
  }

  lemma NewFills(fs: seq<Fill>, fs': seq<Fill>, ds: seq<Day>, day: Day, l: Listing)
    requires ds != [] && |fs| <= |fs'| && fs'[..|fs|] == fs && Dated(fs, ds, l)
    requires forall i :: |fs| <= i < |fs'| && fs'[i].listing == l ==> fs'[i].day == day
    ensures Dated(fs', ds + [day], l)
    ensures NeverBack(ds + [day]) && (NeverBack(ds) ==> DaysAscend(fs, l)) ==> DaysAscend(fs', l)
  {
    var all := ds + [day];
    assert forall i :: 0 <= i < |fs| ==> fs'[i] == fs[i];
    forall i | 0 <= i < |fs'| && fs'[i].listing == l
      ensures exists k :: 1 <= k < |all| && all[k] == fs'[i].day
    {
      if i < |fs| {
        var k :| 1 <= k < |ds| && ds[k] == fs[i].day;
        assert all[k] == fs'[i].day;
      } else {
        assert all[|ds|] == day;
      }
    }
    if NeverBack(all) {
      assert forall k :: 0 <= k < |ds| ==> all[k] == ds[k];
      forall j, k | 0 <= j < k < |fs'| && fs'[j].listing == l && fs'[k].listing == l && k >= |fs| > j
        ensures fs'[j].day <= fs'[k].day
      {
        var d :| 1 <= d < |ds| && ds[d] == fs[j].day;
        assert all[d] <= all[|ds|];
      }
    }
  }

  /** T+1 from the calls alone: if the days on which a listing's calls are judged never go back from
      the second on, a day's sales never exceed the position held when the day began. */
  lemma NoSameDaySale(c: Config, ops: seq<Op>, l: Listing)
    requires c.T1(l) && NeverBack(CallDays(c, ops, l))
    ensures KeepsT1(Run(c, ops).fills, l)
  {
    hide Run, Balanced, AllWhole, AllSettled, DaysAscend, TradedOn, HeldInto, CallDays, NeverBack, Dated, Unknown;
    RunConserves(c, ops);
    FillsAreDated(c, ops, l);
    forall day
      ensures TradedOn(Run(c, ops).fills, l, day, D.Sell) <= HeldInto(Run(c, ops).fills, l, day)
    {
      SalesWithinHeld(c, Run(c, ops).fills, l, day);
    }
  }

  // --- and when the days do go back -------------------------------------------------------------------

  /** A market order on a marked listing, with no band in force. */
  lemma MarketFills(c: Config, s: State, l: Listing, side: D.Side, qty: real, now: int)
    requires s.connected && qty > 0.0 && l in s.marks && !c.enforceLimits
    ensures var s1, n := NewOrder(s, l, side, qty, D.None, Accepted), |s.orders|;
      var f := Report(c, s1, n, s.marks[l], qty, now);
      Covered(c, s1, f) ==> SubmitMarket(c, s, l, side, qty, now) == Book(c, s1, f)
  {
    hide Book, Covered, Report;
  }

  /** Free of fees and bands; the listing's venue is a T+1 venue a day ahead of the others. */
  function Exchange(l: Listing): Config {
    Config(map[0 := 100.0], true, false, false, v => 0, x => 0.0, v => v == l.venue, (x, px) => D.None,
           (ts, v) => if v == l.venue then 2 else 1, v => {})
  }

  function Bought(l: Listing, day: Day): Fill { Fill(0, l, D.Buy, 10.0, 1.0, 0.0, 0, day) }
  function Sold(l: Listing, day: Day): Fill { Fill(1, l, D.Sell, 10.0, 1.0, 0.0, 0, day) }

  ghost predicate AllDone(s: State) { forall i :: 0 <= i < |s.orders| ==> s.orders[i].status.Terminal() }

  /** Before the purchase, between purchase and sale, and after the sale. */
  ghost predicate Fresh(s: State) {
    && s.connected && s.orders == [] && s.fills == []
    && s.positions == map[] && s.bought == map[] && s.cash == map[0 := 100.0]
  }

  ghost predicate Holding(s: State, l: Listing, bought: Day) {
    && s.connected && |s.orders| == 1 && AllDone(s) && s.fills == [Bought(l, bought)]
    && Get(s.positions, l) == 10.0 && s.bought == map[(l, bought) := 10.0]
  }

  ghost predicate Closed(s: State, l: Listing, bought: Day, sold: Day) {
    AllDone(s) && s.fills == [Bought(l, bought), Sold(l, sold)]
  }

  lemma BuyPasses(s: State, l: Listing, day: Day)
    requires Fresh(s) && l in s.marks && s.marks[l] == 1.0 && s.sessionDay == D.Some(day)
    ensures var s' := SubmitMarket(Exchange(l), s, l, D.Buy, 10.0, 0);
      Holding(s', l, day) && s'.marks == s.marks && s'.closes == s.closes
  {
    var c := Exchange(l);
    MarketFills(c, s, l, D.Buy, 10.0, 0);
    assert Times(1.0, 10.0) == 10.0 && Times(0.0, 10.0) == 0.0;
    hide Times;
    var s1 := NewOrder(s, l, D.Buy, 10.0, D.None, Accepted);
    assert Report(c, s1, 0, 1.0, 10.0, 0) == Bought(l, day);
  }

  /** On any other day than that of the purchase the shares count as settled. */
  lemma SellPasses(s: State, l: Listing, bought: Day, day: Day)
    requires Holding(s, l, bought) && l in s.marks && s.marks[l] == 1.0 && s.sessionDay == D.Some(day) && day != bought
    ensures Closed(SubmitMarket(Exchange(l), s, l, D.Sell, 10.0, 0), l, bought, day)
  {
    var c := Exchange(l);
    MarketFills(c, s, l, D.Sell, 10.0, 0);
    assert Times(1.0, 10.0) == 10.0 && Times(0.0, 10.0) == 0.0;
    hide Times;
    var s1 := NewOrder(s, l, D.Sell, 10.0, D.None, Accepted);
    assert Report(c, s1, 1, 1.0, 10.0, 0) == Sold(l, day);
  }

  lemma BackwardsBreaks(l: Listing, bought: Day, sold: Day)
    requires sold < bought
    ensures !KeepsT1([Bought(l, bought), Sold(l, sold)], l)
  {
    var fs := [Bought(l, bought), Sold(l, sold)];
    assert fs[..1] == [Bought(l, bought)] && fs[..1][..0] == [];
    assert TradedOn(fs[..1], l, sold, D.Sell) == 0.0 && HeldInto(fs[..1], l, sold) == 0.0;
    assert TradedOn(fs, l, sold, D.Sell) == 10.0 && HeldInto(fs, l, sold) == 0.0;
  }

  lemma DaysStep(c: Config, ops: seq<Op>, op: Op, l: Listing)
    ensures CallDays(c, ops + [op], l) == CallDays(c, ops, l) + if Trades(op, l) then [Judged(c, ops + [op], l)] else []
    ensures SessionAfter(c, ops + [op]) == SessionIn(c, SessionAfter(c, ops), op)
  {
    hide Judged;
    assert (ops + [op])[..|ops|] == ops;
  }

  /** One more call, by the kinds of call used here. */
  lemma RunStep(c: Config, ops: seq<Op>, op: Op)
    ensures var s, s' := Run(c, ops), Run(c, ops + [op]);
      && (op.Connect? ==> s' == s.(connected := true))
      && (op.SessionDay? ==> s' == s.(sessionDay := D.Some(op.day)))
      && (op.Mark? ==> s' == SetMark(c, s, op.listing, op.px, op.now))
      && (op.Bar? ==> s' == OnBar(c, s, op.listing, op.high, op.low, op.close, op.ts))
      && (op.Market? ==> s' == SubmitMarket(c, s, op.listing, op.side, op.qty, op.now))
  {
    hide SetMark, OnBar, SubmitMarket, SubmitLimit, Cancel;
    assert (ops + [op])[..|ops|] == ops;
  }

  /** A call on each day: the purchase on the `j`-th, the sale on the `k`-th, marks otherwise. */
  function Call(l: Listing, i: nat, j: nat, k: nat): Op {
    if i == j then Market(l, D.Buy, 10.0, 0) else if i == k then Market(l, D.Sell, 10.0, 0) else Mark(l, 1.0, 0)
  }

  function Schedule(l: Listing, ds: seq<Day>, j: nat, k: nat): seq<Op> {
    if ds == [] then [Connect] else
      var n := |ds| - 1;
      Schedule(l, ds[..n], j, k) + [SessionDay(ds[n])] + [Call(l, n, j, k)]
  }

  lemma {:induction false} ScheduleDays(l: Listing, ds: seq<Day>, j: nat, k: nat)
    ensures CallDays(Exchange(l), Schedule(l, ds, j, k), l) == ds
  {
    var c := Exchange(l);
    if ds == [] {
      DaysStep(c, [], Connect, l);
      assert [] + [Connect] == [Connect];
    } else {
      var n := |ds| - 1;
      var before := Schedule(l, ds[..n], j, k);
      ScheduleDays(l, ds[..n], j, k);
      hide CallDays, SessionAfter;
      DaysStep(c, before, SessionDay(ds[n]), l);
      DaysStep(c, before + [SessionDay(ds[n])], Call(l, n, j, k), l);
      assert ds[..n] + [ds[n]] == ds;
    }
  }

  lemma QuietMark(c: Config, s: State, l: Listing)
    requires AllDone(s)
    ensures SetMark(c, s, l, 1.0, 0) == s.(marks := s.marks[l := 1.0])
  {
    MatchSkips(c, s.(marks := s.marks[l := 1.0]), l, 1.0, 1.0, 0, |s.orders|);
  }

  /** Where the run of the schedule stands after `n` calls. */
  ghost predicate Stands(s: State, l: Listing, n: nat, j: nat, k: nat, bought: Day, sold: Day) {
    && (n > 0 ==> l in s.marks && s.marks[l] == 1.0)
    && (n <= j ==> Fresh(s)) && (j < n <= k ==> Holding(s, l, bought)) && (k < n ==> Closed(s, l, bought, sold))
  }

  /** One day of the schedule. */
  lemma CallStands(l: Listing, s0: State, day: Day, n: nat, j: nat, k: nat, bought: Day, sold: Day)
    requires 1 <= j < k && sold != bought && Stands(s0, l, n, j, k, bought, sold)
    requires (n == j ==> day == bought) && (n == k ==> day == sold)
    ensures var c, s := Exchange(l), s0.(sessionDay := D.Some(day));
      var s' := if n == j then SubmitMarket(c, s, l, D.Buy, 10.0, 0)
                else if n == k then SubmitMarket(c, s, l, D.Sell, 10.0, 0) else SetMark(c, s, l, 1.0, 0);
      Stands(s', l, n + 1, j, k, bought, sold)
  {
    hide SubmitMarket, SetMark;
    var c, s := Exchange(l), s0.(sessionDay := D.Some(day));
    if n == j {
      BuyPasses(s, l, bought);
    } else if n == k {
      SellPasses(s, l, bought, sold);
      MarketWithin(c, s, l, D.Sell, 10.0, 0);
    } else {
      QuietMark(c, s, l);
    }
  }

  /** The run of one more day. */
  lemma DayRuns(l: Listing, before: seq<Op>, day: Day, n: nat, j: nat, k: nat)
    ensures var c := Exchange(l); var s := Run(c, before).(sessionDay := D.Some(day));
      Run(c, before + [SessionDay(day)] + [Call(l, n, j, k)]) ==
        if n == j then SubmitMarket(c, s, l, D.Buy, 10.0, 0)
        else if n == k then SubmitMarket(c, s, l, D.Sell, 10.0, 0) else SetMark(c, s, l, 1.0, 0)
  {
    hide Run, SubmitMarket, SetMark, OnBar, Exchange;
    RunStep(Exchange(l), before, SessionDay(day));
    RunStep(Exchange(l), before + [SessionDay(day)], Call(l, n, j, k));
  }

  lemma {:induction false} ScheduleRun(l: Listing, ds: seq<Day>, j: nat, k: nat, bought: Day, sold: Day)
    requires 1 <= j < k && sold != bought
    requires (j < |ds| ==> ds[j] == bought) && (k < |ds| ==> ds[k] == sold)
    ensures Stands(Run(Exchange(l), Schedule(l, ds, j, k)), l, |ds|, j, k, bought, sold)
  {
    var c := Exchange(l);
    if ds == [] {
      RunStep(c, [], Connect);
      assert [] + [Connect] == [Connect];
    } else {
      hide Run, SubmitMarket, SetMark, Stands, Call, Exchange;
      var n := |ds| - 1;
      var before := Schedule(l, ds[..n], j, k);
      ScheduleRun(l, ds[..n], j, k, bought, sold);
      DayRuns(l, before, ds[n], n, j, k);
      CallStands(l, Run(c, before), ds[n], n, j, k, bought, sold);
    }
  }

  /** T+1 on a given schedule of days: every run of every broker whose calls for the listing are
      judged on these days keeps it if and only if the days never go back from the second call on.
      (The first call finds no mark and no order, so it cannot fill.) */
  lemma T1IffDaysNeverBack(l: Listing, ds: seq<Day>)
    ensures NeverBack(ds) <==>
      forall c: Config, ops :: c.T1(l) && CallDays(c, ops, l) == ds ==> KeepsT1(Run(c, ops).fills, l)
  {
    hide Run, CallDays, KeepsT1;
    if NeverBack(ds) {
      forall c: Config, ops | c.T1(l) && CallDays(c, ops, l) == ds
        ensures KeepsT1(Run(c, ops).fills, l)
      {
        NoSameDaySale(c, ops, l);
      }
    } else {
      var j, k :| 1 <= j < k < |ds| && ds[k] < ds[j];
      var c, ops := Exchange(l), Schedule(l, ds, j, k);
      ScheduleDays(l, ds, j, k);
      ScheduleRun(l, ds, j, k, ds[j], ds[k]);
      BackwardsBreaks(l, ds[j], ds[k]);
      assert c.T1(l) && CallDays(c, ops, l) == ds && !KeepsT1(Run(c, ops).fills, l);
    }
  }

  lemma NoCloseKnown(holidays: set<Day>, day: Day, n: nat)
    ensures PrevClose.Resolved(map[], holidays, day, n).None?
  {
  }

  lemma QuietBar(home: Listing, s: State, l: Listing)
    requires AllDone(s) && l !in s.closes
    ensures var c := Exchange(home);
      var s', day := OnBar(c, s, l, 1.0, 1.0, 1.0, 0), c.sessionDate(0, l.venue);
      s' == s.(sessionDay := D.Some(day), marks := s.marks[l := 1.0], closes := s.closes[l := map[day := 1.0]])
  {
    var c := Exchange(home);
    NoCloseKnown(c.holidays(l.venue), c.sessionDate(0, l.venue), PrevClose.MAX_LOOKBACK);
    hide PrevClose.Resolved;
    MatchSkips(c, Rolled(c, s, l, 0), l, 1.0, 1.0, 0, |s.orders|);
  }

  function BarOf(l: Listing): Op { Bar(l, 1.0, 1.0, 1.0, 0) }

  /** Bar and purchase on the listing, then a bar of another venue. */
  function TwoBars(l: Listing, other: Listing): seq<Op> {
    [] + [Connect] + [BarOf(l)] + [Market(l, D.Buy, 10.0, 0)] + [BarOf(other)]
  }

  lemma TwoBarsDays(l: Listing, other: Listing)
    requires other.venue != l.venue
    ensures CallDays(Exchange(l), TwoBars(l, other), l) == [2, 2]
        && SessionAfter(Exchange(l), TwoBars(l, other)) == D.Some(1)
  {
    var c, buy := Exchange(l), Market(l, D.Buy, 10.0, 0);
    DaysStep(c, [], Connect, l);
    DaysStep(c, [] + [Connect], BarOf(l), l);
    DaysStep(c, [] + [Connect] + [BarOf(l)], buy, l);
    DaysStep(c, [] + [Connect] + [BarOf(l)] + [buy], BarOf(other), l);
  }

  lemma TwoBarsRun(l: Listing, other: Listing)
    requires other.venue != l.venue
    ensures var s := Run(Exchange(l), TwoBars(l, other));
      Holding(s, l, 2) && l in s.marks && s.marks[l] == 1.0 && s.sessionDay == D.Some(1)
  {
    var c, buy := Exchange(l), Market(l, D.Buy, 10.0, 0);
    assert Run(c, []) == Start(c);
    hide Run, SubmitMarket, SetMark, OnBar;
    RunStep(c, [], Connect);
    RunStep(c, [] + [Connect], BarOf(l));
    QuietBar(l, Start(c).(connected := true), l);
    RunStep(c, [] + [Connect] + [BarOf(l)], buy);
    BuyPasses(Run(c, [] + [Connect] + [BarOf(l)]), l, 2);
    RunStep(c, [] + [Connect] + [BarOf(l)] + [buy], BarOf(other));
    QuietBar(l, Run(c, [] + [Connect] + [BarOf(l)] + [buy]), other);
  }

  /** The session day is one for all listings. A bar of a venue that is a day behind lets shares
      bought today be sold, although the listing's own session date never moved. */
  lemma OtherVenuesBarBreaksT1(l: Listing, other: Listing)
    requires other.venue != l.venue
    ensures var c, ops := Exchange(l), TwoBars(l, other) + [Market(l, D.Sell, 10.0, 0)];
      c.T1(l) && CallDays(c, ops, l) == [2, 2, 1] && !KeepsT1(Run(c, ops).fills, l)
  {
    var c, sell := Exchange(l), Market(l, D.Sell, 10.0, 0);
    TwoBarsDays(l, other);
    TwoBarsRun(l, other);
    hide Run, CallDays, SessionAfter, SubmitMarket, KeepsT1, TwoBars;
    DaysStep(c, TwoBars(l, other), sell, l);
    RunStep(c, TwoBars(l, other), sell);
    SellPasses(Run(c, TwoBars(l, other)), l, 2, 1);
    BackwardsBreaks(l, 2, 1);
  }
}
