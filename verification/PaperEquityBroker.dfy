/** The paper broker as the object it is: dictionaries and lists updated call by call. Its state is at
    all times that of the state machine after the calls made so far, so every law of the state
    machine's runs is a law of the object. */
module PaperEquityBroker {
  import D = Domain
  import opened PaperBroker
  import opened PaperLaws
  import opened PaperPrices
  import PaperT1
  import PrevClose

  lemma SamePriceCheck(c: Config, s: State, s': State, l: Listing, side: D.Side, px: real, market: bool)
    requires s'.prevClose == s.prevClose
    ensures CheckPrice(c, s, l, side, px, market) == CheckPrice(c, s', l, side, px, market)
  {
  }

  /** One more call: the laws of the run, and what it may not undo. */
  lemma Called(c: Config, calls: seq<Op>, op: Op)
    ensures var s, s' := Run(c, calls), Run(c, calls + [op]);
      s' == Apply(c, s, op) && Inv(c, s) && Inv(c, s') && Onward(s, s')
  {
    hide Inv, Apply, Onward;
    assert (calls + [op])[..|calls|] == calls;
    RunConserves(c, calls);
    RunConserves(c, calls + [op]);
    ApplyKeeps(c, Run(c, calls), op);
  }

  /** What a submission leaves behind: one more order, as asked for, accepted, filled or rejected. */
  ghost predicate Placed(before: seq<Order>, after: seq<Order>, l: Listing, side: D.Side, qty: real) {
    |after| == |before| + 1 &&
    var o := after[|before|];
    && o.listing == l && o.side == side && o.qty == qty
    && (o.status.Accepted? || o.status.Filled? || o.status.Rejected?)
  }

  lemma LimitPlaces(c: Config, s: State, l: Listing, side: D.Side, qty: real, price: real, now: int)
    requires Inv(c, s) && SubmitError(s, qty).None?
    ensures Placed(s.orders, SubmitLimit(c, s, l, side, qty, price, now).orders, l, side, qty)
  {
    hide Inv, Match, CheckPrice, Reached;
    var px := CheckPrice(c, s, l, side, price, false);
    var s1 := NewOrder(s, l, side, qty, px, Accepted);
    if px.Some? && l in s.marks {
      NewOrderKeeps(c, s, l, side, qty, px, Accepted);
      MatchIsDecided(c, s1, l, s.marks[l], s.marks[l], now);
      MatchKeeps(c, s1, l, s.marks[l], s.marks[l], now, |s1.orders|);
      var s' := Match(c, s1, l, s.marks[l], s.marks[l], now, |s1.orders|);
      assert Evolves(s1.orders[|s.orders|], s'.orders[|s.orders|]);
    }
  }

  lemma RolledIsDecided(c: Config, s: State, l: Listing, high: real, low: real, close: real, ts: int)
    requires Inv(c, s)
    ensures Decided(s.orders, OnBar(c, s, l, high, low, close, ts).orders, l, low, high)
  {
    hide Inv, Match, Decided, PrevClose.Resolved;
    SameBooksKeep(c, s, Rolled(c, s, l, ts));
    MatchIsDecided(c, Rolled(c, s, l, ts), l, low, high, ts);
  }

  /** What a bar leaves in the tables: its close as the mark and as the close of its session day, that day
      as the session under T+1, and as previous close the latest earlier one, if there is one. */
  ghost predicate Recorded(c: Config, s: State, s': State, l: Listing, close: real, ts: int) {
    var day := c.sessionDate(ts, l.venue);
    var before: map<Day, real> := if l in s.closes then s.closes[l] else map[];
    var pc := PrevClose.Resolved(before, c.holidays(l.venue), day, PrevClose.MAX_LOOKBACK);
    && s'.marks == s.marks[l := close] && s'.closes == s.closes[l := before[day := close]]
    && s'.sessionDay == (if c.enforceT1 then D.Some(day) else s.sessionDay) && s'.connected == s.connected
    && s'.prevClose == if pc.Some? then s.prevClose[l := pc.value] else s.prevClose
  }

  lemma BarRecords(c: Config, s: State, l: Listing, high: real, low: real, close: real, ts: int)
    ensures Recorded(c, s, OnBar(c, s, l, high, low, close, ts), l, close, ts)
  {
    hide Match, PrevClose.Resolved;
    MatchKeepsTables(c, Rolled(c, s, l, ts), l, low, high, ts, |s.orders|);
  }

  lemma RollKeepsLists(c: Config, s: State, l: Listing, ts: int)
    ensures Rolled(c, s, l, ts).fills == s.fills && Rolled(c, s, l, ts).orders == s.orders
  {
    hide PrevClose.Resolved;
  }

  class PaperEquityBroker {
    const c: Config
    var orders: seq<Order>
    var fills: seq<Fill>
    var cash: map<Currency, real>
    var positions: map<Listing, real>
    var bought: map<(Listing, Day), real>
    var marks: map<Listing, real>
    var prevClose: map<Listing, real>
    var closes: map<Listing, map<Day, real>>
    var sessionDay: D.Option<Day>
    var connected: bool
    ghost var calls: seq<Op>

    ghost predicate Valid()
      reads this
    {
      View() == Run(c, calls)
    }

    function View(): State
      reads this
    {
      State(orders, fills, cash, positions, bought, marks, prevClose, closes, sessionDay, connected)
    }

    constructor (c: Config)
      ensures this.c == c && Valid() && calls == []
    {
      this.c, calls := c, [];
      orders, fills, cash, positions, bought := [], [], c.start, map[], map[];
      marks, prevClose, closes, sessionDay, connected := map[], map[], map[], D.None, false;
    }

    function SellableQty(l: Listing, day: Day): real
      reads this
    {
      Sellable(c, View(), l, day)
    }

    /** Move money and shares, unless the cash or the sellable shares do not cover the fill. */
    method Exchange(f: Fill) returns (ok: bool)
      modifies this
      ensures ok == Covered(c, old(View()), f) && calls == old(calls)
      ensures View() == if ok then Exchanged(c, old(View()), f) else old(View())
    {
      hide Covered, Exchanged;
      if f.side.Buy? {
        ok := Acquire(f);
      } else {
        ok := Dispose(f);
      }
    }

    method Acquire(f: Fill) returns (ok: bool)
      requires f.side.Buy?
      modifies this
      ensures ok == Covered(c, old(View()), f) && calls == old(calls)
      ensures View() == if ok then Exchanged(c, old(View()), f) else old(View())
    {
      hide Notional, Get;
      var ccy, key := c.currency(f.listing.venue), (f.listing, f.day);
      var cost := Notional(f.px, f.qty) + f.fee;
      if Get(cash, ccy) < cost {
        return false;
      }
      cash := cash[ccy := Get(cash, ccy) - cost];
      positions := positions[f.listing := Get(positions, f.listing) + f.qty];
      if c.T1(f.listing) {
        bought := bought[key := Get(bought, key) + f.qty];
      }
      return true;
    }

    method Dispose(f: Fill) returns (ok: bool)
      requires f.side.Sell?
      modifies this
      ensures ok == Covered(c, old(View()), f) && calls == old(calls)
      ensures View() == if ok then Exchanged(c, old(View()), f) else old(View())
    {
      hide Notional, Get, Sellable;
      var ccy := c.currency(f.listing.venue);
      if SellableQty(f.listing, f.day) < f.qty {
        return false;
      }
      cash := cash[ccy := Get(cash, ccy) + Notional(f.px, f.qty) - f.fee];
      positions := positions[f.listing := Get(positions, f.listing) - f.qty];
      return true;
    }

    method FillOne(i: nat, px: real, qty: real, ts: int)
      requires i < |orders|
      modifies this
      ensures View() == FillOrder(c, old(View()), i, px, qty, ts) && calls == old(calls)
    {
      hide Notional, Covered, Exchanged, Execute, DayOf;
      var o := orders[i];
      if qty <= 0.0 || o.status.Terminal() {
        return;
      }
      var f := Report(c, View(), i, px, qty, ts);
      var ok := Exchange(f);
      if !ok {
        orders := orders[i := o.(status := Rejected)];
        return;
      }
      assert orders == old(orders) && fills == old(fills) by {
        ExchangeKeepsLists(c, old(View()), f);
      }
      orders := orders[i := Execute(o, px, qty)];
      fills := fills + [f];
    }

    method MatchLimits(l: Listing, low: real, high: real, ts: int)
      modifies this
      ensures View() == Match(c, old(View()), l, low, high, ts, old(|orders|)) && calls == old(calls)
    {
      hide FillOrder;
      for i := 0 to |orders|
        invariant |orders| == old(|orders|) && calls == old(calls)
        invariant View() == Match(c, old(View()), l, low, high, ts, i)
      {
        var o := orders[i];
        if Hit(o, l, low, high) {
          FillOne(i, o.limit.value, o.qty - o.filled, ts);
        }
      }
    }

    method SetConnected(up: bool)
      requires Valid()
      modifies this
      ensures Valid() && Inv(c, View()) && calls == old(calls) + [if up then Connect else Disconnect]
      ensures SameBooks(old(View()), View()) && connected == up
    {
      hide Run, Inv, Onward, SetMark, OnBar, SubmitMarket, SubmitLimit, Cancel;
      ghost var op := if up then Connect else Disconnect;
      Called(c, calls, op);
      connected, calls := up, calls + [op];
    }

    method SetSessionDay(day: Day)
      requires Valid()
      modifies this
      ensures Valid() && Inv(c, View()) && calls == old(calls) + [SessionDay(day)]
      ensures SameBooks(old(View()), View()) && View() == old(View()).(sessionDay := D.Some(day))
    {
      hide Run, Inv, Onward, SetMark, OnBar, SubmitMarket, SubmitLimit, Cancel;
      Called(c, calls, SessionDay(day));
      sessionDay, calls := D.Some(day), calls + [SessionDay(day)];
    }

    method SetPrevClose(l: Listing, px: real)
      requires Valid()
      modifies this
      ensures Valid() && Inv(c, View()) && calls == old(calls) + [PrevClosing(l, px)]
      ensures SameBooks(old(View()), View()) && View() == old(View()).(prevClose := old(prevClose)[l := px])
    {
      hide Run, Inv, Onward, SetMark, OnBar, SubmitMarket, SubmitLimit, Cancel;
      Called(c, calls, PrevClosing(l, px));
      prevClose, calls := prevClose[l := px], calls + [PrevClosing(l, px)];
    }

    /** The orders the mark reaches are filled or rejected, no other changes, and the books stay
        balanced and solvent. */
    method Mark(l: Listing, px: real, now: int)
      requires Valid()
      modifies this
      ensures Valid() && Inv(c, View()) && calls == old(calls) + [Op.Mark(l, px, now)]
      ensures Onward(old(View()), View()) && Decided(old(orders), orders, l, px, px)
      ensures SameTables(old(View()).(marks := old(marks)[l := px]), View())
    {
      hide Match, Run, Inv, Onward, Reached;
      Called(c, calls, Op.Mark(l, px, now));
      marks := marks[l := px];
      SameBooksKeep(c, old(View()), View());
      MatchIsDecided(c, View(), l, px, px, now);
      MatchKeepsTables(c, View(), l, px, px, now, |orders|);
      MatchLimits(l, px, px, now);
      calls := calls + [Op.Mark(l, px, now)];
    }

    /** The same for the range of a bar, under the session day and previous close of the bar; the
        fills it caused are returned. */
    method Bar(l: Listing, high: real, low: real, close: real, ts: int) returns (out: seq<Fill>)
      requires Valid()
      modifies this
      ensures Valid() && Inv(c, View()) && calls == old(calls) + [Op.Bar(l, high, low, close, ts)]
      ensures Onward(old(View()), View()) && Decided(old(orders), orders, l, low, high) && old(fills) + out == fills
      ensures Recorded(c, old(View()), View(), l, close, ts)
    {
      hide Match, Run, Inv, Onward, Reached, Decided, PrevClose.Resolved;
      ghost var s := View();
      Called(c, calls, Op.Bar(l, high, low, close, ts));
      BarRecords(c, s, l, high, low, close, ts);
      out := RollAndMatch(l, high, low, close, ts);
      RolledIsDecided(c, s, l, high, low, close, ts);
      calls := calls + [Op.Bar(l, high, low, close, ts)];
    }

    /** The session day and the previous close roll to those of the bar. */
    method Roll(l: Listing, ts: int)
      modifies this
      ensures View() == Rolled(c, old(View()), l, ts) && calls == old(calls)
    {
      hide PrevClose.Resolved;
      var sess := c.sessionDate(ts, l.venue);
      var byDay := if l in closes then closes[l] else map[];
      var pc := PrevClose.ResolvePrevClose(byDay, c.holidays(l.venue), sess, PrevClose.MAX_LOOKBACK);
      if c.enforceT1 {
        sessionDay := D.Some(sess);
      }
      if pc.Some? {
        prevClose := prevClose[l := pc.value];
      }
    }

    method RollAndMatch(l: Listing, high: real, low: real, close: real, ts: int) returns (out: seq<Fill>)
      modifies this
      ensures View() == OnBar(c, old(View()), l, high, low, close, ts) && calls == old(calls)
      ensures old(fills) + out == fills
    {
      hide Match, Rolled;
      var before := |fills|;
      Roll(l, ts);
      ghost var s1 := View();
      assert s1.fills == old(fills) && s1.orders == old(orders) by {
        RollKeepsLists(c, old(View()), l, ts);
      }
      MatchLimits(l, low, high, ts);
      assert old(fills) <= fills;
      marks := marks[l := close];
      closes := closes[l := (if l in closes then closes[l] else map[])[c.sessionDate(ts, l.venue) := close]];
      out := fills[before..];
    }

    /** A market order is decided at once, at the price the band leaves, and touches no other order. */
    method Market(l: Listing, side: D.Side, qty: real, now: int) returns (error: D.Option<Error>)
      requires Valid()
      modifies this
      ensures Valid() && Inv(c, View()) && calls == old(calls) + [Op.Market(l, side, qty, now)]
      ensures error == SubmitError(old(View()), qty) && (error.Some? ==> View() == old(View()))
      ensures error.None? ==>
        && Placed(old(orders), orders, l, side, qty) && orders[|old(orders)|].status.Terminal()
        && orders[..|old(orders)|] == old(orders)
        && MarketDecided(c, old(View()), View(), l, side, qty, now)
    {
      hide Run, Inv, MarketDecided, SubmitMarket;
      ghost var s := View();
      Called(c, calls, Op.Market(l, side, qty, now));
      error := PlaceMarket(l, side, qty, now);
      if error.None? {
        MarketIsDecided(c, s, l, side, qty, now);
        DecidedIsTerminal(c, s, View(), l, side, qty, now);
      }
      calls := calls + [Op.Market(l, side, qty, now)];
    }

    /** `_new_order`: a pending order at the end of the book. */
    method NewPending(l: Listing, side: D.Side, qty: real, limit: D.Option<real>) returns (i: nat)
      modifies this
      ensures View() == NewOrder(old(View()), l, side, qty, limit, Pending) && i == |old(orders)| && calls == old(calls)
    {
      i := |orders|;
      orders := orders + [Order(l, side, qty, limit, Pending, 0.0, 0.0)];
    }

    method Resolve(i: nat, limit: D.Option<real>, status: Status, ghost s: State)
      requires i == |s.orders| && |orders| == i + 1
      requires View() == NewOrder(s, orders[i].listing, orders[i].side, orders[i].qty, orders[i].limit, Pending)
      modifies this
      ensures calls == old(calls)
      ensures var o := old(orders[i]); View() == NewOrder(s, o.listing, o.side, o.qty, limit, status)
    {
      orders := orders[i := orders[i].(limit := limit, status := status)];
    }

    method PlaceMarket(l: Listing, side: D.Side, qty: real, now: int) returns (error: D.Option<Error>)
      modifies this
      ensures error == SubmitError(old(View()), qty) && calls == old(calls)
      ensures error.Some? ==> View() == old(View())
      ensures View() == SubmitMarket(c, old(View()), l, side, qty, now)
    {
      hide FillOrder, CheckPrice;
      ghost var s := View();
      error := SubmitError(View(), qty);
      if error.Some? {
        return;
      }
      var i := NewPending(l, side, qty, D.None);
      var px := if l in marks then CheckPrice(c, View(), l, side, marks[l], true) else D.None;
      if l in marks {
        SamePriceCheck(c, s, View(), l, side, marks[l], true);
      }
      if px.None? {
        Resolve(i, D.None, Rejected, s);
        return;
      }
      Resolve(i, D.None, Accepted, s);
      FillOne(i, px.value, qty, now);
    }

    /** A limit order is placed as asked for, or rejected by the band; a known mark then decides the orders
        it reaches; what that moves keeps the books. */
    method Limit(l: Listing, side: D.Side, qty: real, price: real, now: int) returns (error: D.Option<Error>)
      requires Valid()
      modifies this
      ensures Valid() && Inv(c, View()) && calls == old(calls) + [Op.Limit(l, side, qty, price, now)]
      ensures error == SubmitError(old(View()), qty) && (error.Some? ==> View() == old(View()))
      ensures Onward(old(View()), View())
      ensures error.None? ==>
        && Placed(old(orders), orders, l, side, qty)
        && LimitDecided(c, old(View()), View(), l, side, qty, price)
    {
      hide Run, Inv, Placed, Onward, LimitDecided, SubmitLimit;
      ghost var s := View();
      Called(c, calls, Op.Limit(l, side, qty, price, now));
      error := PlaceLimit(l, side, qty, price, now);
      if error.None? {
        LimitPlaces(c, s, l, side, qty, price, now);
        LimitIsDecided(c, s, l, side, qty, price, now);
      }
      calls := calls + [Op.Limit(l, side, qty, price, now)];
    }

    method PlaceLimit(l: Listing, side: D.Side, qty: real, price: real, now: int) returns (error: D.Option<Error>)
      modifies this
      ensures error == SubmitError(old(View()), qty) && calls == old(calls)
      ensures error.Some? ==> View() == old(View())
      ensures View() == SubmitLimit(c, old(View()), l, side, qty, price, now)
    {
      hide Match, CheckPrice;
      ghost var s := View();
      error := SubmitError(View(), qty);
      if error.Some? {
        return;
      }
      var i := NewPending(l, side, qty, D.Some(price));
      var px := CheckPrice(c, View(), l, side, price, false);
      SamePriceCheck(c, s, View(), l, side, price, false);
      if px.None? {
        Resolve(i, D.Some(price), Rejected, s);
        return;
      }
      Resolve(i, px, Accepted, s);
      if l in marks {
        MatchLimits(l, marks[l], marks[l], now);
      }
    }

    /** The order is terminal afterwards; no fill, balance or other order changes. */
    method CancelOrder(id: nat) returns (error: D.Option<Error>)
      requires Valid()
      modifies this
      ensures Valid() && Inv(c, View()) && calls == old(calls) + [Op.CancelOrder(id)]
      ensures error == CancelError(old(View()), id) && (error.Some? ==> View() == old(View()))
      ensures error.None? ==>
        && |orders| == |old(orders)| && orders[id].status.Terminal()
        && (old(orders[id].status.Terminal()) ==> orders == old(orders))
        && (forall i :: 0 <= i < |orders| && i != id ==> orders[i] == old(orders)[i])
      ensures fills == old(fills) && cash == old(cash) && positions == old(positions) && bought == old(bought)
    {
      hide Run, Inv, Onward, SetMark, OnBar, SubmitMarket, SubmitLimit;
      Called(c, calls, Op.CancelOrder(id));
      error := CancelError(View(), id);
      if error.None? && !orders[id].status.Terminal() {
        orders := orders[id := orders[id].(status := Canceled)];
      }
      calls := calls + [Op.CancelOrder(id)];
    }

    /** T+1 for the object: from its calls alone. */
    lemma SalesAreSettled(l: Listing)
      requires Valid() && c.T1(l) && PaperT1.NeverBack(PaperT1.CallDays(c, calls, l))
      ensures PaperT1.KeepsT1(fills, l)
    {
      hide Run, PaperT1.NeverBack, PaperT1.CallDays, PaperT1.KeepsT1;
      PaperT1.NoSameDaySale(c, calls, l);
    }
  }
}
