/** What every sequence of calls to the paper broker keeps. */
module PaperLaws {
  import D = Domain
  import opened Money
  import opened PaperBroker

  // --- sums over a fill history -------------------------------------------------------------------

  function CashOf(c: Config, fs: seq<Fill>, ccy: Currency): real {
    if fs == [] then 0.0 else
      var n := |fs| - 1;
      CashOf(c, fs[..n], ccy) + if c.currency(fs[n].listing.venue) == ccy then Flow(fs[n]) else 0.0
  }

  function NetOf(fs: seq<Fill>, l: Listing): real {
    if fs == [] then 0.0 else
      var n := |fs| - 1;
      NetOf(fs[..n], l) + if fs[n].listing == l then Shares(fs[n]) else 0.0
  }

  /** Bought, and sold, on one day. */
  function TradedOn(fs: seq<Fill>, l: Listing, day: Day, side: D.Side): real {
    if fs == [] then 0.0 else
      var n := |fs| - 1;
      TradedOn(fs[..n], l, day, side) + if fs[n].listing == l && fs[n].day == day
          && fs[n].side == side then fs[n].qty else 0.0
  }

  /** The position carried into a day: the net of all fills judged on earlier days. */
  function HeldInto(fs: seq<Fill>, l: Listing, day: Day): real {
    if fs == [] then 0.0 else
      var n := |fs| - 1;
      HeldInto(fs[..n], l, day) + if fs[n].listing == l && fs[n].day < day then Shares(fs[n]) else 0.0
  }

  function FillsOf(fs: seq<Fill>, i: nat): seq<Fill> {
    if fs == [] then [] else
      var n := |fs| - 1;
      FillsOf(fs[..n], i) + if fs[n].order == i then [fs[n]] else []
  }

  lemma SumsSnoc(c: Config, fs: seq<Fill>, f: Fill, ccy: Currency, l: Listing, day: Day, i: nat)
    ensures CashOf(c, fs + [f], ccy) == CashOf(c, fs, ccy) + if c.currency(f.listing.venue) == ccy then Flow(f) else 0.0
    ensures NetOf(fs + [f], l) == NetOf(fs, l) + if f.listing == l then Shares(f) else 0.0
    ensures TradedOn(fs + [f], l, day, D.Buy) == TradedOn(fs, l, day, D.Buy)
      + if f.listing == l && f.day == day && f.side.Buy? then f.qty else 0.0
    ensures FillsOf(fs + [f], i) == FillsOf(fs, i) + if f.order == i then [f] else []
  {
    hide Flow, Shares;
    assert (fs + [f])[..|fs|] == fs;
  }

  // --- the invariant ------------------------------------------------------------------------------

  /** Cash, positions and the day ledger are sums over the fill history. */
  ghost predicate Balanced(c: Config, s: State) {
    && (forall ccy :: Get(s.cash, ccy) == Get(c.start, ccy) + CashOf(c, s.fills, ccy))
    && (forall l :: Get(s.positions, l) == NetOf(s.fills, l))
    && (forall l, day :: Get(s.bought, (l, day)) == if c.T1(l) then TradedOn(s.fills, l, day, D.Buy) else 0.0)
  }

  ghost predicate Solvent(s: State) {
    && (forall ccy :: Get(s.cash, ccy) >= 0.0)
    && (forall l :: Get(s.positions, l) >= 0.0)
    && (forall l, day :: Get(s.bought, (l, day)) >= 0.0)
  }

  /** Balances that start non-negative, and fees that do not exceed the notional. */
  ghost predicate Fair(c: Config) {
    && (forall ccy :: Get(c.start, ccy) >= 0.0)
    && (forall l :: c.feeRate(l) <= 1.0)
  }

  /** The one fill of a filled order: in full, at its average price, at its limit if it had one. */
  predicate FillFits(c: Config, o: Order, f: Fill) {
    && f.listing == o.listing && f.side == o.side && f.qty == o.qty && f.px == o.avg
    && (o.limit.Some? ==> f.px == o.limit.value)
    && f.fee == Times(c.feeRate(f.listing), Notional(f.px, f.qty))
  }

  /** An order has been filled in full by one fill, or not at all. */
  ghost predicate Whole(c: Config, fs: seq<Fill>, i: nat, o: Order) {
    && o.qty > 0.0 && !o.status.Partial?
    && (if o.status.Filled?
        then o.filled == o.qty && |FillsOf(fs, i)| == 1 && FillFits(c, o, FillsOf(fs, i)[0])
        else o.filled == 0.0 && FillsOf(fs, i) == [])
  }

  ghost predicate AllWhole(c: Config, s: State) {
    && (forall i :: 0 <= i < |s.orders| ==> Whole(c, s.fills, i, s.orders[i]))
    && (forall i: nat :: i >= |s.orders| ==> FillsOf(s.fills, i) == [])
  }

  /** Every sale was of shares held, and on a T+1 listing of shares not bought on the day it was
      judged on. */
  predicate Settled(c: Config, past: seq<Fill>, f: Fill) {
    && f.qty > 0.0
    && (f.side.Sell? ==>
      f.qty <= NetOf(past, f.listing) - if c.T1(f.listing) then TradedOn(past, f.listing, f.day, D.Buy) else 0.0)
  }

  ghost predicate AllSettled(c: Config, fs: seq<Fill>) {
    forall k :: 0 <= k < |fs| ==> Settled(c, fs[..k], fs[k])
  }

  ghost predicate Inv(c: Config, s: State) {
    && Balanced(c, s) && (Fair(c) ==> Solvent(s)) && AllWhole(c, s) && AllSettled(c, s.fills)
  }

  /** Parts of the state that the invariant does not mention. */
  ghost predicate SameBooks(s: State, s': State) {
    s'.orders == s.orders && s'.fills == s.fills && s'.cash == s.cash && s'.positions == s.positions
        && s'.bought == s.bought
  }

  lemma SameBooksKeep(c: Config, s: State, s': State)
    requires Inv(c, s) && SameBooks(s, s')
    ensures Inv(c, s')
  {
    hide CashOf, NetOf, TradedOn, FillsOf, Whole, Settled;
  }

  // --- one fill -----------------------------------------------------------------------------------

  lemma FeeWithinNotional(rate: real, n: real)
    requires rate <= 1.0 && n >= 0.0
    ensures Times(rate, n) <= n
  {
  }

  lemma BookBalances(c: Config, s: State, f: Fill)
    requires Balanced(c, s) && f.order < |s.orders|
    ensures Balanced(c, Book(c, s, f))
  {
    hide Times, Flow, Shares, CashOf, NetOf, TradedOn, FillsOf;
    var s' := Book(c, s, f);
    forall ccy
      ensures Get(s'.cash, ccy) == Get(c.start, ccy) + CashOf(c, s'.fills, ccy)
    {
      SumsSnoc(c, s.fills, f, ccy, f.listing, 0, 0);
    }
    forall l
      ensures Get(s'.positions, l) == NetOf(s'.fills, l)
    {
      SumsSnoc(c, s.fills, f, 0, l, 0, 0);
    }
    forall l, day
      ensures Get(s'.bought, (l, day)) == if c.T1(l) then TradedOn(s'.fills, l, day, D.Buy) else 0.0
    {
      SumsSnoc(c, s.fills, f, 0, l, day, 0);
    }
  }

  lemma BookStaysSolvent(c: Config, s: State, f: Fill)
    requires Solvent(s) && f.order < |s.orders| && Covered(c, s, f) && f.qty > 0.0
    requires f.fee <= Notional(f.px, f.qty)
    ensures Solvent(Book(c, s, f))
  {
    hide Times, Notional, Execute;
    var s', ccy := Book(c, s, f), c.currency(f.listing.venue);
    assert Get(s.bought, (f.listing, f.day)) >= 0.0 && Get(s.cash, ccy) >= 0.0 && Get(s.positions, f.listing) >= 0.0;
    assert forall other :: other != ccy ==> Get(s'.cash, other) == Get(s.cash, other);
    assert forall other :: other != f.listing ==> Get(s'.positions, other) == Get(s.positions, other);
    assert forall l, day :: (l, day) != (f.listing, f.day) ==> Get(s'.bought, (l, day)) == Get(s.bought, (l, day));
  }

  lemma BookStaysWhole(c: Config, s: State, i: nat, px: real, ts: int)
    requires AllWhole(c, s) && i < |s.orders| && !s.orders[i].status.Terminal()
    requires s.orders[i].limit.Some? ==> px == s.orders[i].limit.value
    ensures AllWhole(c, Book(c, s, Report(c, s, i, px, s.orders[i].qty, ts)))
  {
    hide Times, Flow, Shares, CashOf, NetOf, TradedOn, FillsOf, Notional;
    var o, f := s.orders[i], Report(c, s, i, px, s.orders[i].qty, ts);
    assert Whole(c, s.fills, i, o);
    var s' := Book(c, s, f);
    forall j: nat
      ensures FillsOf(s'.fills, j) == FillsOf(s.fills, j) + if j == i then [f] else []
    {
      SumsSnoc(c, s.fills, f, 0, f.listing, 0, j);
    }
    assert FillFits(c, s'.orders[i], f);
    forall j | 0 <= j < |s'.orders|
      ensures Whole(c, s'.fills, j, s'.orders[j])
    {
      assert Whole(c, s.fills, j, s.orders[j]);
    }
  }

  lemma BookStaysSettled(c: Config, s: State, f: Fill)
    requires Balanced(c, s) && AllSettled(c, s.fills) && Covered(c, s, f) && f.qty > 0.0
    ensures AllSettled(c, s.fills + [f])
  {
    hide Times, Flow, Shares, NetOf, TradedOn, Notional;
    var fs := s.fills + [f];
    assert Get(s.bought, (f.listing, f.day)) == if c.T1(f.listing) then TradedOn(s.fills, f.listing, f.day, D.Buy)
        else 0.0;
    forall k | 0 <= k < |fs|
      ensures Settled(c, fs[..k], fs[k])
    {
      assert fs[..k] == s.fills[..k];
    }
  }

  lemma StatusKeeps(c: Config, s: State, i: nat, status: Status)
    requires Inv(c, s) && i < |s.orders| && !s.orders[i].status.Terminal() && !status.Partial? && !status.Filled?
    ensures Inv(c, SetStatus(s, i, status))
  {
    hide CashOf, NetOf, TradedOn, FillsOf, Settled;
    var s' := SetStatus(s, i, status);
    forall j | 0 <= j < |s'.orders|
      ensures Whole(c, s'.fills, j, s'.orders[j])
    {
      assert Whole(c, s.fills, j, s.orders[j]);
    }
  }

  lemma BookedIsFilled(c: Config, s: State, f: Fill)
    requires f.order < |s.orders|
    ensures var s', o := Book(c, s, f), s.orders[f.order];
      && s'.fills == s.fills + [f] && |s'.orders| == |s.orders|
      && s'.orders[f.order] == Execute(o, f.px, f.qty)
  {
    hide Flow, Shares, Execute;
  }

  /** `_fill` for the open quantity of an order keeps everything, and leaves the order terminal. */
  lemma FillKeeps(c: Config, s: State, i: nat, px: real, qty: real, ts: int)
    requires Inv(c, s) && i < |s.orders| && qty == s.orders[i].qty - s.orders[i].filled
    requires s.orders[i].limit.Some? ==> px == s.orders[i].limit.value
    ensures Inv(c, FillOrder(c, s, i, px, qty, ts))
    ensures FillOrder(c, s, i, px, qty, ts).orders[i].status.Terminal()
  {
    assert Whole(c, s.fills, i, s.orders[i]);
    hide CashOf, NetOf, TradedOn, FillsOf, Balanced, Solvent, AllWhole, AllSettled, Times, Notional, Covered, Book,
        DayOf;
    if !s.orders[i].status.Terminal() {
      var f := Report(c, s, i, px, qty, ts);
      if Covered(c, s, f) {
        BookBalances(c, s, f);
        BookedIsFilled(c, s, f);
        BookStaysWhole(c, s, i, px, ts);
        BookStaysSettled(c, s, f);
        if Fair(c) {
          FeeWithinNotional(c.feeRate(f.listing), Notional(px, qty));
          BookStaysSolvent(c, s, f);
        }
      } else {
        StatusKeeps(c, s, i, Rejected);
      }
    }
  }

  // --- absorbing statuses -------------------------------------------------------------------------

  /** Orders are only added; identities and terminal orders never change; fills are only appended. */
  ghost predicate Onward(s: State, s': State) {
    && |s.orders| <= |s'.orders| && s.fills <= s'.fills
    && forall i :: 0 <= i < |s.orders| ==> Evolves(s.orders[i], s'.orders[i])
  }

  predicate Evolves(o: Order, o': Order) {
    && o'.listing == o.listing && o'.side == o.side && o'.qty == o.qty && o'.limit == o.limit
    && (o.status.Terminal() ==> o' == o)
  }

  lemma OnwardTrans(a: State, b: State, c: State)
    requires Onward(a, b) && Onward(b, c)
    ensures Onward(a, c)
  {
    forall i | 0 <= i < |a.orders|
      ensures Evolves(a.orders[i], c.orders[i])
    {
      assert Evolves(a.orders[i], b.orders[i]) && Evolves(b.orders[i], c.orders[i]);
    }
  }

  lemma BookOnward(c: Config, s: State, f: Fill)
    requires f.order < |s.orders| && !s.orders[f.order].status.Terminal()
    ensures Onward(s, Book(c, s, f))
  {
    hide Flow, Shares;
  }

  lemma StatusOnward(s: State, i: nat, status: Status)
    requires i < |s.orders| && !s.orders[i].status.Terminal()
    ensures Onward(s, SetStatus(s, i, status))
  {
  }

  lemma FillOnward(c: Config, s: State, i: nat, px: real, qty: real, ts: int)
    requires i < |s.orders|
    ensures Onward(s, FillOrder(c, s, i, px, qty, ts))
  {
    hide Covered, Onward, Book, SetStatus;
    OnwardRefl(s);
    if !s.orders[i].status.Terminal() {
      BookOnward(c, s, Report(c, s, i, px, qty, ts));
      StatusOnward(s, i, Rejected);
    }
  }

  // --- every call, every run ----------------------------------------------------------------------

  lemma {:induction false} MatchKeeps(c: Config, s: State, l: Listing, low: real, high: real, ts: int, k: nat)
    requires Inv(c, s) && k <= |s.orders|
    ensures Inv(c, Match(c, s, l, low, high, ts, k)) && Onward(s, Match(c, s, l, low, high, ts, k))
  {
    hide Inv, FillOrder, Onward;
    if k == 0 {
      OnwardRefl(s);
    } else {
      var s1 := Match(c, s, l, low, high, ts, k - 1);
      MatchKeeps(c, s, l, low, high, ts, k - 1);
      var o := s1.orders[k - 1];
      if Hit(o, l, low, high) {
        FillKeeps(c, s1, k - 1, o.limit.value, o.qty - o.filled, ts);
        FillOnward(c, s1, k - 1, o.limit.value, o.qty - o.filled, ts);
        OnwardTrans(s, s1, Match(c, s, l, low, high, ts, k));
      }
    }
  }

  lemma OnwardRefl(s: State)
    ensures Onward(s, s)
  {
  }

  lemma NewOrderKeeps(c: Config, s: State, l: Listing, side: D.Side, qty: real, limit: D.Option<real>, status: Status)
    requires Inv(c, s) && qty > 0.0 && !status.Partial? && !status.Filled?
    ensures Inv(c, NewOrder(s, l, side, qty, limit, status)) && Onward(s, NewOrder(s, l, side, qty, limit, status))
  {
    hide CashOf, NetOf, TradedOn, FillsOf, Settled;
    var s' := NewOrder(s, l, side, qty, limit, status);
    forall j | 0 <= j < |s'.orders|
      ensures Whole(c, s'.fills, j, s'.orders[j])
    {
      assert j < |s.orders| ==> Whole(c, s.fills, j, s.orders[j]);
    }
  }

  lemma MarketKeeps(c: Config, s: State, l: Listing, side: D.Side, qty: real, now: int)
    requires Inv(c, s)
    ensures var s' := SubmitMarket(c, s, l, side, qty, now);
      && Inv(c, s') && Onward(s, s')
      && (SubmitError(s, qty).None? ==> |s'.orders| == |s.orders| + 1 && s'.orders[|s.orders|].status.Terminal())
  {
    hide Inv, Onward, FillOrder, CheckPrice;
    var px := CheckPrice(c, s, l, side, Get(s.marks, l), true);
    if SubmitError(s, qty).Some? {
      OnwardRefl(s);
    } else if l !in s.marks || px.None? {
      NewOrderKeeps(c, s, l, side, qty, D.None, Rejected);
    } else {
      var s1 := NewOrder(s, l, side, qty, D.None, Accepted);
      NewOrderKeeps(c, s, l, side, qty, D.None, Accepted);
      FillKeeps(c, s1, |s.orders|, px.value, qty, now);
      FillOnward(c, s1, |s.orders|, px.value, qty, now);
      OnwardTrans(s, s1, FillOrder(c, s1, |s.orders|, px.value, qty, now));
    }
  }

  lemma LimitKeeps(c: Config, s: State, l: Listing, side: D.Side, qty: real, price: real, now: int)
    requires Inv(c, s)
    ensures var s' := SubmitLimit(c, s, l, side, qty, price, now); Inv(c, s') && Onward(s, s')
  {
    hide Inv, Onward, Match, CheckPrice;
    var px := CheckPrice(c, s, l, side, price, false);
    if SubmitError(s, qty).Some? {
      OnwardRefl(s);
    } else if px.None? {
      NewOrderKeeps(c, s, l, side, qty, D.Some(price), Rejected);
    } else {
      var s1 := NewOrder(s, l, side, qty, px, Accepted);
      NewOrderKeeps(c, s, l, side, qty, px, Accepted);
      if l in s.marks {
        MatchKeeps(c, s1, l, s.marks[l], s.marks[l], now, |s1.orders|);
        OnwardTrans(s, s1, Match(c, s1, l, s.marks[l], s.marks[l], now, |s1.orders|));
      }
    }
  }

  lemma CancelKeeps(c: Config, s: State, id: nat)
    requires Inv(c, s)
    ensures Inv(c, Cancel(s, id)) && Onward(s, Cancel(s, id))
  {
    if CancelError(s, id).None? && !s.orders[id].status.Terminal() {
      hide Inv;
      StatusKeeps(c, s, id, Canceled);
    }
  }

  /** A call that leaves the books alone, then a round of matching, then another such call. */
  lemma MatchBetween(c: Config, s: State, s1: State, l: Listing, low: real, high: real, ts: int, s2: State)
    requires Inv(c, s) && SameBooks(s, s1) && SameBooks(Match(c, s1, l, low, high, ts, |s1.orders|), s2)
    ensures Inv(c, s2) && Onward(s, s2)
  {
    hide Inv, Match;
    SameBooksKeep(c, s, s1);
    MatchKeeps(c, s1, l, low, high, ts, |s1.orders|);
    SameBooksKeep(c, Match(c, s1, l, low, high, ts, |s1.orders|), s2);
  }

  lemma ApplyKeeps(c: Config, s: State, op: Op)
    requires Inv(c, s)
    ensures Inv(c, Apply(c, s, op)) && Onward(s, Apply(c, s, op))
  {
    hide Inv, Match, SubmitMarket, SubmitLimit, Cancel, PrevClose.Resolved;
    match op
    case Mark(l, px, now) => MatchBetween(c, s, s.(marks := s.marks[l := px]), l, px, px, now, Apply(c, s, op));
    case Bar(l, high, low, close, ts) => MatchBetween(c, s, Rolled(c, s, l, ts), l, low, high, ts, Apply(c, s, op));
    case Market(l, side, qty, now) => MarketKeeps(c, s, l, side, qty, now);
    case Limit(l, side, qty, price, now) => LimitKeeps(c, s, l, side, qty, price, now);
    case CancelOrder(id) => CancelKeeps(c, s, id);
    case _ => SameBooksKeep(c, s, Apply(c, s, op));
  }

  lemma StartInv(c: Config)
    ensures Inv(c, Start(c))
  {
  }

  /** Over any sequence of calls: cash and positions are the start plus signed fills less fees, both
      stay non-negative, every order is filled at most once and then in full, and every sale was of
      settled shares. */
  lemma {:induction false} RunConserves(c: Config, ops: seq<Op>)
    ensures Inv(c, Run(c, ops))
  {
    hide Inv, Apply;
    if ops == [] {
      StartInv(c);
    } else {
      RunConserves(c, ops[..|ops| - 1]);
      ApplyKeeps(c, Run(c, ops[..|ops| - 1]), ops[|ops| - 1]);
    }
  }

  /** Terminal statuses are absorbing and the fill log only grows, however the run goes on. */
  lemma {:induction false} RunOnward(c: Config, ops: seq<Op>, k: nat)
    requires k <= |ops|
    ensures Onward(Run(c, ops[..k]), Run(c, ops))
  {
    hide Inv, Apply, Onward;
    if k == |ops| {
      assert ops[..k] == ops;
      OnwardRefl(Run(c, ops));
    } else {
      var n := |ops| - 1;
      assert ops[..n][..k] == ops[..k];
      RunOnward(c, ops[..n], k);
      RunConserves(c, ops[..n]);
      ApplyKeeps(c, Run(c, ops[..n]), ops[n]);
      OnwardTrans(Run(c, ops[..k]), Run(c, ops[..n]), Run(c, ops));
    }
  }

  // --- which orders a round of matching decides ---------------------------------------------------

  lemma FillTouchesOne(c: Config, s: State, i: nat, px: real, qty: real, ts: int, j: nat)
    requires i < |s.orders| && j < |s.orders| && i != j
    ensures FillOrder(c, s, i, px, qty, ts).orders[j] == s.orders[j]
  {
    hide Covered, Execute, Exchanged, DayOf;
    ExchangeKeepsLists(c, s, Report(c, s, i, px, qty, ts));
  }

  /** A working limit order of the listing whose price the range reaches. */
  predicate Reached(o: Order, l: Listing, low: real, high: real) {
    && o.listing == l && o.limit.Some? && (o.status.Accepted? || o.status.Partial?)
    && (o.side.Buy? ==> low <= o.limit.value) && (o.side.Sell? ==> o.limit.value <= high)
  }

  /** A round of matching decides exactly the orders the range reaches: each of them ends filled or
      rejected, and no other order changes. */
  lemma {:induction false} MatchDecides(c: Config, s: State, l: Listing, low: real, high: real, ts: int, k: nat, i: nat)
    requires Inv(c, s) && k <= |s.orders| && i < |s.orders|
    ensures var o, o' := s.orders[i], Match(c, s, l, low, high, ts, k).orders[i];
      if i < k && Reached(o, l, low, high) then o'.status.Filled? || o'.status.Rejected? else o' == o
  {
    hide Inv, FillOrder;
    if k > 0 {
      MatchDecides(c, s, l, low, high, ts, k - 1, i);
      MatchKeeps(c, s, l, low, high, ts, k - 1);
      var s1 := Match(c, s, l, low, high, ts, k - 1);
      var o := s1.orders[k - 1];
      if Hit(o, l, low, high) {
        if i == k - 1 {
          FillResolves(c, s1, i, o.limit.value, ts);
        } else {
          FillTouchesOne(c, s1, k - 1, o.limit.value, o.qty - o.filled, ts, i);
        }
      }
    }
  }

  lemma FillResolves(c: Config, s: State, i: nat, px: real, ts: int)
    requires Inv(c, s) && i < |s.orders| && !s.orders[i].status.Terminal()
    ensures var o' := FillOrder(c, s, i, px, s.orders[i].qty - s.orders[i].filled, ts).orders[i];
      o'.status.Filled? || o'.status.Rejected?
  {
    assert Whole(c, s.fills, i, s.orders[i]);
    hide Covered, Exchanged, DayOf, Inv, Whole;
  }
}
