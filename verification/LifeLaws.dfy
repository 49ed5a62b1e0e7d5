/** Laws of a single order's life, and what they say of every reachable venue state:
    the report protocol, quantity conservation and price safety. */
module LifeLaws {
  import opened Domain
  import opened Brokerage
  import opened Venue
  import opened OrderLife

  function Executed(items: seq<Item>): nat {
    if items == [] then 0
    else
      var last := items[|items| - 1].what;
      Executed(items[..|items| - 1]) + if last.Exec? then last.qty else 0
  }

  lemma ExecutedSnoc(items: seq<Item>, x: Item)
    ensures Executed(items + [x]) == Executed(items) + if x.what.Exec? then x.what.qty else 0
  {
    assert (items + [x])[..|items|] == items;
  }

  /** One acknowledgement, then executions, then at most one cancellation and nothing after it. */
  ghost predicate Protocol(items: seq<Item>) {
    && items != [] && items[0].what.Ack?
    && (forall i :: 0 < i < |items| ==> !items[i].what.Ack?)
    && (forall i :: 0 <= i < |items| - 1 ==> !items[i].what.Cxl?)
  }

  predicate Canceled(items: seq<Item>) { items != [] && items[|items| - 1].what.Cxl? }

  /** The instructions under which `id` was accepted. */
  function Accepted(ops: seq<Op>, id: OrderId): (o: Option<Order>)
    ensures o.None? <==> forall i :: 0 <= i < |ops| ==> !Submits(ops[i], id)
  {
    if ops == [] then None
    else if Submits(ops[|ops| - 1], id) then Some(ops[|ops| - 1].order)
    else Accepted(ops[..|ops| - 1], id)
  }

  /** What the venue may have changed about an order while it rests. */
  predicate SameOrder(o: Order, r: Order) {
    && r.id == o.id && r.inst == o.inst && r.side == o.side && r.quantity == o.quantity && r.price == o.price
    && (r.kind == o.kind || (o.kind.StopLimit? && r.kind.Limit?))
    && (r.trigger == o.trigger || o.kind.TrailingStopMarket?)
  }

  /** The law of a life that began with order `o`. */
  ghost predicate Lawful(l: Life, o: Order) {
    && Protocol(l.items) && Executed(l.items) <= o.quantity
    && (l.entry.Some? ==>
          && SameOrder(o, l.entry.value.order)
          && !Canceled(l.items)
          && Executed(l.items) + l.entry.value.remaining == o.quantity
          && (l.entry.value.remaining > 0 || o.quantity == 0))
    && (l.entry.None? && !Canceled(l.items) ==> Executed(l.items) == o.quantity)
    && (Canceled(l.items) ==> l.entry.None? && (Executed(l.items) < o.quantity || o.quantity == 0))
  }

  lemma SteppedFacts(m: BrokerageModel, lot: nat, r: Resting, t: Tick)
    ensures var r', d := Stepped(m, lot, r, t), Decide(m, lot, r, t);
      && SameOrder(r.order, r'.order)
      && (d.Some? ==> r'.remaining == r.remaining - d.value.qty)
      && (d.None? ==> r'.remaining == r.remaining)
  {
  }

  lemma LiveLawful(m: BrokerageModel, now: Time, lot: nat, t: Tick, r: Resting, items: seq<Item>, o: Order)
    requires Lawful(Life(Some(r), items), o)
    ensures Lawful(Live(m, now, lot, t, r, items), o)
  {
    SteppedFacts(m, lot, r, t);
    var l := Live(m, now, lot, t, r, items);
    if |l.items| > |items| {
      ExecutedSnoc(items, l.items[|items|]);
    }
  }

  lemma StepLawful(m: BrokerageModel, l: Life, id: OrderId, op: Op, o: Order)
    requires Lawful(l, o) && !Submits(op, id)
    ensures Lawful(Step(m, l, id, op), o)
  {
    match op
    case Match(now, view, ev) =>
      if Step(m, l, id, op) != l {
        LiveLawful(m, now, view.instruments[ev.inst].lot, TickOf(ev).value, l.entry.value, l.items, o);
      }
    case Cancel(now, c) =>
      ExecutedSnoc(l.items, Item(Later(now, m.cancelLatency), Cxl));
    case _ =>
  }

  lemma BirthLawful(m: BrokerageModel, id: OrderId, op: Op)
    requires Submits(op, id)
    ensures Lawful(Step(m, UNBORN, id, op), op.order)
  {
    ExecutedSnoc([], Item(Later(op.now, m.submitLatency), Ack));
    assert [] + [Item(Later(op.now, m.submitLatency), Ack)] == [Item(Later(op.now, m.submitLatency), Ack)];
  }

  /** Every life is lawful, whatever the latencies and the clock. */
  lemma {:induction false} LifeLawful(m: BrokerageModel, ops: seq<Op>, id: OrderId)
    requires Fresh(ops)
    ensures Accepted(ops, id).None? ==> LifeOf(m, ops, id) == UNBORN
    ensures Accepted(ops, id).Some? ==> Lawful(LifeOf(m, ops, id), Accepted(ops, id).value)
    decreases |ops|
  {
    if Accepted(ops, id).None? {
      Unborn(m, ops, id);
    } else {
      var n := |ops| - 1;
      FreshPrefix(ops);
      if Submits(ops[n], id) {
        Unborn(m, ops[..n], id);
        BirthLawful(m, id, ops[n]);
      } else {
        LifeLawful(m, ops[..n], id);
        StepLawful(m, LifeOf(m, ops[..n], id), id, ops[n], Accepted(ops, id).value);
      }
    }
  }

  /** Quantity conservation in every reachable venue state: a resting order has executed what it
      no longer has remaining, one that left the book by filling has executed exactly its quantity,
      and a cancelled one strictly less. */
  lemma QuantityConserved(m: BrokerageModel, ops: seq<Op>, id: OrderId)
    requires Fresh(ops) && Accepted(ops, id).Some?
    ensures var o, s := Accepted(ops, id).value, Run(m, ops);
      var items, entry := Items(s.issued, id), Find(s.resting, id);
      && (entry.Some? ==> Executed(items) + entry.value.remaining == o.quantity)
      && (entry.None? && !Canceled(items) ==> Executed(items) == o.quantity)
      && (Canceled(items) ==> entry.None? && (Executed(items) < o.quantity || o.quantity == 0))
  {
    LifeLawful(m, ops, id);
    VenueIsComposition(m, ops, id);
  }

  // --- price safety -------------------------------------------------------------------------

  /** Orders whose price is a limit on every fill: not the market stops, which ignore it. */
  predicate Limited(o: Order) {
    o.price.Some? && (o.kind.Market? || o.kind.Limit? || o.kind.StopLimit?)
  }

  ghost predicate AllWithin(side: Side, items: seq<Item>, limit: Price) {
    forall i :: 0 <= i < |items| && items[i].what.Exec? ==> Within(side, items[i].what.px, limit)
  }

  lemma DecisionWithinLimit(m: BrokerageModel, lot: nat, r: Resting, t: Tick)
    requires Limited(r.order) && Decide(m, lot, r, t).Some?
    ensures Within(r.order.side, Decide(m, lot, r, t).value.px, r.order.price.value)
  {
  }

  /** Over its whole life, through deferral to the open, activation and partial fills, a priced
      order never fills worse than its limit. */
  lemma {:induction false} LimitNeverWorse(m: BrokerageModel, ops: seq<Op>, id: OrderId)
    requires Fresh(ops) && Accepted(ops, id).Some? && Limited(Accepted(ops, id).value)
    ensures var o := Accepted(ops, id).value;
      AllWithin(o.side, Items(Run(m, ops).issued, id), o.price.value)
    decreases |ops|
  {
    hide Run, Find, Items, Step, Within, Limited;
    VenueIsComposition(m, ops, id);
    LifeWithin(m, ops, id);
  }

  lemma {:induction false} LifeWithin(m: BrokerageModel, ops: seq<Op>, id: OrderId)
    requires Fresh(ops) && Accepted(ops, id).Some? && Limited(Accepted(ops, id).value)
    ensures var o := Accepted(ops, id).value; AllWithin(o.side, LifeOf(m, ops, id).items, o.price.value)
    decreases |ops|
  {
    var n := |ops| - 1;
    var o := Accepted(ops, id).value;
    FreshPrefix(ops);
    var l := LifeOf(m, ops[..n], id);
    if Submits(ops[n], id) {
      hide Rest;
      Unborn(m, ops[..n], id);
    } else {
      hide Step, Within, Limited, Lawful;
      LifeWithin(m, ops[..n], id);
      LifeLawful(m, ops[..n], id);
      LiveStepWithin(m, l, id, ops[n], o);
    }
  }

  lemma LiveStepWithin(m: BrokerageModel, l: Life, id: OrderId, op: Op, o: Order)
    requires Lawful(l, o) && Limited(o) && !Submits(op, id) && AllWithin(o.side, l.items, o.price.value)
    ensures AllWithin(o.side, Step(m, l, id, op).items, o.price.value)
  {
    hide Decide, Exhausted, Stepped, Rest, Within;
    if op.Match? && Step(m, l, id, op) != l {
      var r, t, lot := l.entry.value, TickOf(op.ev).value, op.view.instruments[op.ev.inst].lot;
      if Decide(m, lot, r, t).Some? {
        DecisionWithinLimit(m, lot, r, t);
      }
    }
  }

  predicate Sane(t: Tick) { 0 <= t.low && 0 <= t.high && 0 <= t.open && 0 <= t.close }

  /** A market stop that fills fills no better than the trigger in force. */
  lemma StopNoBetter(m: BrokerageModel, lot: nat, r: Resting, t: Tick)
    requires m.Adverse() && Sane(t)
    requires !r.pendingOpen && (r.order.kind.StopMarket? || r.order.kind.TrailingStopMarket?)
    requires Decide(m, lot, r, t).Some?
    ensures NoBetter(r.order.side, Decide(m, lot, r, t).value.px, r.order.trigger.value)
  {
    FillPriceBounds(m, r.order.side, StopReference(r.order.side, r.order.trigger.value, t), t.low, t.high);
  }

  ghost predicate SaneRun(ops: seq<Op>) {
    forall i :: 0 <= i < |ops| && ops[i].Match? && TickOf(ops[i].ev).Some? ==> Sane(TickOf(ops[i].ev).value)
  }

  /** Over its whole life a stop-market order never fills better than its trigger. */
  lemma {:induction false} StopMarketNeverBetter(m: BrokerageModel, ops: seq<Op>, id: OrderId)
    requires Fresh(ops) && SaneRun(ops) && m.Adverse()
    requires Accepted(ops, id).Some? && Accepted(ops, id).value.kind.StopMarket?
    requires Accepted(ops, id).value.trigger.Some?
    ensures var o, items := Accepted(ops, id).value, LifeOf(m, ops, id).items;
      forall i :: 0 <= i < |items| && items[i].what.Exec? ==> NoBetter(o.side, items[i].what.px, o.trigger.value)
    ensures var l := LifeOf(m, ops, id); l.entry.Some? ==> !l.entry.value.pendingOpen
    decreases |ops|
  {
    var n := |ops| - 1;
    FreshPrefix(ops);
    if Submits(ops[n], id) {
      Unborn(m, ops[..n], id);
    } else {
      StopMarketNeverBetter(m, ops[..n], id);
      LifeLawful(m, ops[..n], id);
      var l, op := LifeOf(m, ops[..n], id), ops[n];
      if op.Match? && Step(m, l, id, op) != l {
        var r, t, lot := l.entry.value, TickOf(op.ev).value, op.view.instruments[op.ev.inst].lot;
        if Decide(m, lot, r, t).Some? {
          StopNoBetter(m, lot, r, t);
        }
      }
    }
  }

  /** An unpriced market order takes the event's open while pending and the close afterwards; the
      fill is adverse to that reference, yet no worse than the worse of the base-slipped reference
      and the bar's extreme. */
  lemma MarketFillBounds(m: BrokerageModel, lot: nat, r: Resting, t: Tick)
    requires m.Adverse() && Sane(t)
    requires r.order.kind.Market? && r.order.price.None? && Decide(m, lot, r, t).Some?
    ensures var ref, px := if r.pendingOpen then t.open else t.close, Decide(m, lot, r, t).value.px;
      && NoBetter(r.order.side, px, ref)
      && (NoBetter(r.order.side, BasePrice(m, r.order.side, ref), px)
          || NoBetter(r.order.side, if r.order.side.Buy? then t.high else t.low, px))
  {
    FillPriceBounds(m, r.order.side, if r.pendingOpen then t.open else t.close, t.low, t.high);
  }

  // --- the same over runs -------------------------------------------------------------------------

  /** Operation `q` of the run scheduled the execution `x` for the order. */
  ghost predicate Executes(m: BrokerageModel, ops: seq<Op>, q: nat, id: OrderId, x: Item)
    requires q < |ops|
  {
    x.what.Exec? && Items(Run(m, ops[..q + 1]).issued, id) == Items(Run(m, ops[..q]).issued, id) + [x]
  }

  lemma {:induction false} AcceptedStays(ops: seq<Op>, q: nat, id: OrderId)
    requires Fresh(ops) && q <= |ops| && Accepted(ops[..q], id).Some?
    ensures Accepted(ops, id) == Accepted(ops[..q], id)
    decreases |ops|
  {
    var n := |ops| - 1;
    if q == |ops| {
      assert ops[..q] == ops;
    } else {
      FreshPrefix(ops);
      assert ops[..n][..q] == ops[..q];
      AcceptedStays(ops[..n], q, id);
      var i :| 0 <= i < q && Submits(ops[..q][i], id);
      assert Submits(ops[i], id);
      assert !Submits(ops[n], id);
    }
  }

  lemma StepExecutes(m: BrokerageModel, l: Life, id: OrderId, op: Op, x: Item)
    requires x.what.Exec? && Step(m, l, id, op).items == l.items + [x]
    ensures l.entry.Some? && op.Match? && TickOf(op.ev).Some? && op.ev.inst in op.view.instruments
    ensures var d := Decide(m, op.view.instruments[op.ev.inst].lot, l.entry.value, TickOf(op.ev).value);
      d.Some? && d.value.px == x.what.px && d.value.qty == x.what.qty
  {
    hide Decide, Exhausted, Stepped, Rest;
    assert (l.items + [x])[|l.items|] == x;
  }

  /** An execution is the decision of a matching operation on the entry that rests before it. */
  lemma ExecutionIsDecision(m: BrokerageModel, ops: seq<Op>, q: nat, id: OrderId, x: Item)
    requires Fresh(ops) && q < |ops| && Executes(m, ops, q, id, x)
    ensures var e, op := Find(Run(m, ops[..q]).resting, id), ops[q];
      && e.Some? && op.Match? && TickOf(op.ev).Some? && op.ev.inst in op.view.instruments
      && (var d := Decide(m, op.view.instruments[op.ev.inst].lot, e.value, TickOf(op.ev).value);
          d.Some? && d.value.px == x.what.px && d.value.qty == x.what.qty)
      && LifeOf(m, ops[..q], id).entry == e
      && Accepted(ops, id).Some? && Accepted(ops[..q], id) == Accepted(ops, id)
      && SameOrder(Accepted(ops, id).value, e.value.order)
  {
    assert Fresh(ops[..q]) && Fresh(ops[..q + 1]) && ops[..q + 1][..q] == ops[..q];
    var l := LifeOf(m, ops[..q], id);
    assert LifeOf(m, ops[..q + 1], id) == Step(m, l, id, ops[q]);
    hide Decide, Run, Step, LifeOf, Find, Items;
    VenueIsComposition(m, ops[..q], id);
    VenueIsComposition(m, ops[..q + 1], id);
    StepExecutes(m, l, id, ops[q], x);
    LifeLawful(m, ops[..q], id);
    AcceptedStays(ops, q, id);
  }

  /** Stop orders are never deferred to an open. */
  lemma {:induction false} StopsNeverPend(m: BrokerageModel, ops: seq<Op>, id: OrderId)
    requires Fresh(ops) && Accepted(ops, id).Some?
    requires !Accepted(ops, id).value.kind.Market? && !Accepted(ops, id).value.kind.Limit?
    ensures var e := LifeOf(m, ops, id).entry; e.Some? ==> !e.value.pendingOpen
    decreases |ops|
  {
    hide Decide;
    var n := |ops| - 1;
    FreshPrefix(ops);
    if !Submits(ops[n], id) {
      StopsNeverPend(m, ops[..n], id);
    }
  }

  /** In every run, every execution of an unpriced market order is adverse to its reference at the
      event that scheduled it, the open it waited for or else the close, yet no worse than the worse
      of the base-slipped reference and the bar's extreme. */
  lemma MarketExecutionBounds(m: BrokerageModel, ops: seq<Op>, q: nat, id: OrderId, x: Item)
    requires m.Adverse() && SaneRun(ops) && Fresh(ops) && q < |ops| && Executes(m, ops, q, id, x)
    requires Accepted(ops, id).Some? && Accepted(ops, id).value.kind.Market? && Accepted(ops, id).value.price.None?
    ensures var e, side := Find(Run(m, ops[..q]).resting, id), Accepted(ops, id).value.side;
      && e.Some? && ops[q].Match? && TickOf(ops[q].ev).Some?
      && var t := TickOf(ops[q].ev).value; var ref := if e.value.pendingOpen then t.open else t.close;
         && NoBetter(side, x.what.px, ref)
         && (NoBetter(side, BasePrice(m, side, ref), x.what.px)
             || NoBetter(side, if side.Buy? then t.high else t.low, x.what.px))
  {
    hide Decide, Run, BasePrice;
    ExecutionIsDecision(m, ops, q, id, x);
    var e, op := Find(Run(m, ops[..q]).resting, id), ops[q];
    MarketFillBounds(m, op.view.instruments[op.ev.inst].lot, e.value, TickOf(op.ev).value);
  }

  lemma DecidedStopIsArmed(m: BrokerageModel, lot: nat, r: Resting, t: Tick)
    requires !r.pendingOpen && !r.order.kind.Market? && !r.order.kind.Limit? && Decide(m, lot, r, t).Some?
    ensures r.order.trigger.Some?
  {
  }

  /** In every run, every execution of a stop-market or trailing order is no better than the trigger
      in force at the event that scheduled it. */
  lemma StopExecutionNoBetter(m: BrokerageModel, ops: seq<Op>, q: nat, id: OrderId, x: Item)
    requires m.Adverse() && SaneRun(ops) && Fresh(ops) && q < |ops| && Executes(m, ops, q, id, x)
    requires Accepted(ops, id).Some?
    requires Accepted(ops, id).value.kind.StopMarket? || Accepted(ops, id).value.kind.TrailingStopMarket?
    ensures var e := Find(Run(m, ops[..q]).resting, id);
      && e.Some? && e.value.order.trigger.Some?
      && NoBetter(Accepted(ops, id).value.side, x.what.px, e.value.order.trigger.value)
  {
    hide Run, Find, Decide, LifeOf;
    ExecutionIsDecision(m, ops, q, id, x);
    var e, op := Find(Run(m, ops[..q]).resting, id), ops[q];
    assert Fresh(ops[..q]);
    StopsNeverPend(m, ops[..q], id);
    DecidedStopIsArmed(m, op.view.instruments[op.ev.inst].lot, e.value, TickOf(op.ev).value);
    StopNoBetter(m, op.view.instruments[op.ev.inst].lot, e.value, TickOf(op.ev).value);
  }
}
