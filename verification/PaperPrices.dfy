/** At what price the paper broker deals and what it refuses, stated from the price band, the cash and
    the shares alone. */
module PaperPrices {
  import D = Domain
  import opened Money
  import opened PaperBroker
  import opened PaperLaws

  // --- the price band -----------------------------------------------------------------------------

  /** The band in force, if limits are enforced and the listing has a previous close and a band. */
  predicate Banded(c: Config, s: State, l: Listing) {
    c.enforceLimits && l in s.prevClose && c.band(l, s.prevClose[l]).Some?
  }

  /** A buy above the upper limit or a sell below the lower one. */
  predicate Outside(c: Config, s: State, l: Listing, side: D.Side, px: real) {
    Banded(c, s, l) &&
    var b := c.band(l, s.prevClose[l]).value;
    if side.Buy? then px > b.up else px < b.down
  }

  /** What an order asking for `asked` may deal at: that price, unless it is outside the band; then a
      limit order is refused, and a market order is refused or, with clamping, moved to the near
      edge. (On an inverted band the upper edge wins.) */
  predicate PricedAs(c: Config, s: State, l: Listing, side: D.Side, asked: real, market: bool, px: D.Option<real>) {
    if !Outside(c, s, l, side, asked) then px == D.Some(asked)
    else if !market || !c.clamp then px.None?
    else
      var b := c.band(l, s.prevClose[l]).value;
      px == D.Some(if side.Buy? || b.up < b.down then b.up else b.down)
  }

  lemma PriceIsChecked(c: Config, s: State, l: Listing, side: D.Side, asked: real, market: bool)
    ensures PricedAs(c, s, l, side, asked, market, CheckPrice(c, s, l, side, asked, market))
  {
  }

  // --- one deal -----------------------------------------------------------------------------------

  /** The fee is the listing's rate on the absolute value of the deal. */
  function FeeOn(c: Config, l: Listing, px: real, qty: real): (fee: real)
    ensures fee == c.feeRate(l) * AbsR(px * qty) && Notional(px, qty) == AbsR(px * qty)
  {
    Times(c.feeRate(l), Notional(px, qty))
  }

  /** The cash covers the notional and the fee of a buy; a sell needs the shares, on a T+1 listing less
      those bought on the day it is judged on. */
  predicate Affordable(c: Config, s: State, l: Listing, side: D.Side, qty: real, px: real, day: Day) {
    if side.Buy? then Get(s.cash, c.currency(l.venue)) >= Notional(px, qty) + FeeOn(c, l, px, qty)
    else Get(s.positions, l) - (if c.T1(l) then Get(s.bought, (l, day)) else 0.0) >= qty
  }

  /** Cash, shares and the day's purchases after order `i` dealt in full at `px`, and its fill. */
  predicate Dealt(c: Config, s: State, s': State, i: nat, o: Order, px: real, now: int) {
    var day := if s.sessionDay.Some? then s.sessionDay.value else c.sessionDate(now, o.listing.venue);
    var notional, fee := Notional(px, o.qty), FeeOn(c, o.listing, px, o.qty);
    var ccy, l := c.currency(o.listing.venue), o.listing;
    var f := Fill(i, l, o.side, o.qty, px, fee, now, day);
    && s'.fills == s.fills + [f]
    && (o.side.Buy? ==>
          && s'.cash == s.cash[ccy := Get(s.cash, ccy) - notional - fee]
          && s'.positions == s.positions[l := Get(s.positions, l) + o.qty]
          && s'.bought == if c.T1(l) then s.bought[(l, day) := Get(s.bought, (l, day)) + o.qty] else s.bought)
    && (o.side.Sell? ==>
          && s'.cash == s.cash[ccy := Get(s.cash, ccy) + notional - fee]
          && s'.positions == s.positions[l := Get(s.positions, l) - o.qty]
          && s'.bought == s.bought)
  }

  /** The parts no deal touches. */
  predicate SameTables(s: State, s': State) {
    && s'.marks == s.marks && s'.prevClose == s.prevClose && s'.closes == s.closes
    && s'.sessionDay == s.sessionDay && s'.connected == s.connected
  }

  predicate SameMoney(s: State, s': State) {
    s'.fills == s.fills && s'.cash == s.cash && s'.positions == s.positions && s'.bought == s.bought
  }

  /** An open order dealt with at a price: filled whole if that can be afforded, otherwise rejected and
      nothing moves. */
  predicate DealtWith(c: Config, s: State, s': State, i: nat, px: real, now: int)
    requires i < |s.orders|
  {
    var o := s.orders[i];
    var day := if s.sessionDay.Some? then s.sessionDay.value else c.sessionDate(now, o.listing.venue);
    && SameTables(s, s')
    && if Affordable(c, s, o.listing, o.side, o.qty, px, day)
       then
         && s'.orders == s.orders[i := o.(status := Filled, filled := o.qty, avg := px)]
         && Dealt(c, s, s', i, o, px, now)
       else s'.orders == s.orders[i := o.(status := Rejected)] && SameMoney(s, s')
  }

  lemma CoveredIsAffordable(c: Config, s: State, i: nat, px: real, now: int)
    requires i < |s.orders| && s.orders[i].qty > 0.0
    ensures var o := s.orders[i]; var f := Report(c, s, i, px, o.qty, now);
      Covered(c, s, f) <==> Affordable(c, s, o.listing, o.side, o.qty, px, f.day)
  {
    hide Times, Notional;
  }

  lemma BookDeals(c: Config, s: State, i: nat, px: real, now: int)
    requires i < |s.orders| && s.orders[i].qty > 0.0 && s.orders[i].filled == 0.0
    ensures var o := s.orders[i]; var s' := Book(c, s, Report(c, s, i, px, o.qty, now));
      && SameTables(s, s') && Dealt(c, s, s', i, o, px, now)
      && s'.orders == s.orders[i := o.(status := Filled, filled := o.qty, avg := px)]
  {
    hide Times, Notional;
  }

  /** `_fill` for a whole open order. */
  lemma FillDealsWith(c: Config, s: State, i: nat, px: real, now: int)
    requires i < |s.orders| && s.orders[i].qty > 0.0 && s.orders[i].filled == 0.0 && !s.orders[i].status.Terminal()
    ensures DealtWith(c, s, FillOrder(c, s, i, px, s.orders[i].qty, now), i, px, now)
  {
    hide Book, Covered, Dealt, Affordable;
    CoveredIsAffordable(c, s, i, px, now);
    BookDeals(c, s, i, px, now);
  }

  // --- market orders ------------------------------------------------------------------------------

  /** The price a market order would deal at: none without a mark. */
  predicate DealPrice(c: Config, s: State, l: Listing, side: D.Side, px: D.Option<real>) {
    if l in s.marks then PricedAs(c, s, l, side, s.marks[l], true, px) else px.None?
  }

  /** A market order is placed last and dealt with at once: without a mark, or refused by the band, it is
      rejected and nothing moves; otherwise it is resolved at the price the band leaves. */
  ghost predicate MarketDecided(c: Config, s: State, s': State, l: Listing, side: D.Side, qty: real, now: int) {
    exists px :: DealPrice(c, s, l, side, px) && MarketAt(c, s, s', l, side, qty, px, now)
  }

  predicate MarketAt(c: Config, s: State, s': State, l: Listing, side: D.Side, qty: real, px: D.Option<real>, now: int)
  {
    var o := Order(l, side, qty, D.None, Accepted, 0.0, 0.0);
    if px.None? then s' == s.(orders := s.orders + [o.(status := Rejected)])
    else DealtWith(c, s.(orders := s.orders + [o]), s', |s.orders|, px.value, now)
  }

  lemma MarketIsDecided(c: Config, s: State, l: Listing, side: D.Side, qty: real, now: int)
    requires SubmitError(s, qty).None?
    ensures MarketDecided(c, s, SubmitMarket(c, s, l, side, qty, now), l, side, qty, now)
  {
    hide FillOrder, CheckPrice, PricedAs, DealtWith;
    var s' := SubmitMarket(c, s, l, side, qty, now);
    var px := if l in s.marks then CheckPrice(c, s, l, side, s.marks[l], true) else D.None;
    if l in s.marks {
      PriceIsChecked(c, s, l, side, s.marks[l], true);
      if px.Some? {
        FillDealsWith(c, NewOrder(s, l, side, qty, D.None, Accepted), |s.orders|, px.value, now);
      }
    }
    assert DealPrice(c, s, l, side, px) && MarketAt(c, s, s', l, side, qty, px, now);
  }

  /** So it is decided at once, and no other order changes. */
  lemma DecidedIsTerminal(c: Config, s: State, s': State, l: Listing, side: D.Side, qty: real, now: int)
    requires MarketDecided(c, s, s', l, side, qty, now)
    ensures |s'.orders| == |s.orders| + 1 && s'.orders[..|s.orders|] == s.orders
    ensures var o := s'.orders[|s.orders|];
      o.listing == l && o.side == side && o.qty == qty && (o.status.Filled? || o.status.Rejected?)
  {
    var px :| DealPrice(c, s, l, side, px) && MarketAt(c, s, s', l, side, qty, px, now);
    hide MarketDecided, DealtWith, DealPrice;
    if px.Some? {
      var s1 := s.(orders := s.orders + [Order(l, side, qty, D.None, Accepted, 0.0, 0.0)]);
      DealtDecides(c, s1, s', |s.orders|, px.value, now);
    }
  }

  lemma DealtDecides(c: Config, s: State, s': State, i: nat, px: real, now: int)
    requires i < |s.orders| && DealtWith(c, s, s', i, px, now)
    ensures |s'.orders| == |s.orders| && forall j :: 0 <= j < |s.orders| && j != i ==> s'.orders[j] == s.orders[j]
    ensures var o, o' := s.orders[i], s'.orders[i];
      && o'.listing == o.listing && o'.side == o.side && o'.qty == o.qty
      && (o'.status.Filled? || o'.status.Rejected?)
  {
    hide Dealt, Affordable, SameTables, SameMoney;
  }

  // --- rounds of matching and limit orders --------------------------------------------------------

  lemma ExchangeKeepsTables(c: Config, s: State, f: Fill)
    ensures SameTables(s, Exchanged(c, s, f))
  {
    hide Flow, Shares, Get;
  }

  lemma FillKeepsTables(c: Config, s: State, i: nat, px: real, qty: real, ts: int)
    requires i < |s.orders|
    ensures SameTables(s, FillOrder(c, s, i, px, qty, ts))
  {
    hide Covered, Book, DayOf, Notional, Times;
    BookKeepsTables(c, s, Report(c, s, i, px, qty, ts));
  }

  lemma BookKeepsTables(c: Config, s: State, f: Fill)
    requires f.order < |s.orders|
    ensures SameTables(s, Book(c, s, f))
  {
    hide Exchanged, Execute;
    ExchangeKeepsTables(c, s, f);
  }

  lemma {:induction false} MatchKeepsTables(c: Config, s: State, l: Listing, low: real, high: real, ts: int, k: nat)
    requires k <= |s.orders|
    ensures SameTables(s, Match(c, s, l, low, high, ts, k))
  {
    hide FillOrder;
    if k > 0 {
      MatchKeepsTables(c, s, l, low, high, ts, k - 1);
      var s1 := Match(c, s, l, low, high, ts, k - 1);
      var o := s1.orders[k - 1];
      if Hit(o, l, low, high) {
        FillKeepsTables(c, s1, k - 1, o.limit.value, o.qty - o.filled, ts);
      }
    }
  }

  /** A round of matching over all orders, read order by order. */
  ghost predicate Decided(before: seq<Order>, after: seq<Order>, l: Listing, low: real, high: real) {
    && |after| == |before|
    && forall i :: 0 <= i < |before| ==>
         if Reached(before[i], l, low, high) then after[i].status.Filled? || after[i].status.Rejected?
         else after[i] == before[i]
  }

  lemma MatchIsDecided(c: Config, s: State, l: Listing, low: real, high: real, ts: int)
    requires Inv(c, s)
    ensures Decided(s.orders, Match(c, s, l, low, high, ts, |s.orders|).orders, l, low, high)
  {
    hide Inv, Match, Reached;
    forall i | 0 <= i < |s.orders|
      ensures var o, o' := s.orders[i], Match(c, s, l, low, high, ts, |s.orders|).orders[i];
        if Reached(o, l, low, high) then o'.status.Filled? || o'.status.Rejected? else o' == o
    {
      MatchDecides(c, s, l, low, high, ts, |s.orders|, i);
    }
  }

  /** A limit order is placed last, at the price asked for. Outside the band it is rejected and nothing
      else happens; otherwise it rests, and a known mark decides exactly the orders it reaches. */
  ghost predicate LimitDecided(c: Config, s: State, s': State, l: Listing, side: D.Side, qty: real, price: real) {
    var o := Order(l, side, qty, D.Some(price), Accepted, 0.0, 0.0);
    if Outside(c, s, l, side, price) then s' == s.(orders := s.orders + [o.(status := Rejected)])
    else if l !in s.marks then s' == s.(orders := s.orders + [o])
    else Decided(s.orders + [o], s'.orders, l, s.marks[l], s.marks[l]) && SameTables(s, s')
  }

  lemma LimitIsDecided(c: Config, s: State, l: Listing, side: D.Side, qty: real, price: real, now: int)
    requires Inv(c, s) && SubmitError(s, qty).None?
    ensures LimitDecided(c, s, SubmitLimit(c, s, l, side, qty, price, now), l, side, qty, price)
  {
    hide Inv, Match, CheckPrice, Decided, Outside;
    PriceIsChecked(c, s, l, side, price, false);
    var s1 := NewOrder(s, l, side, qty, D.Some(price), Accepted);
    if l in s.marks && !Outside(c, s, l, side, price) {
      NewOrderKeeps(c, s, l, side, qty, D.Some(price), Accepted);
      MatchIsDecided(c, s1, l, s.marks[l], s.marks[l], now);
      MatchKeepsTables(c, s1, l, s.marks[l], s.marks[l], now, |s1.orders|);
    }
  }
}
