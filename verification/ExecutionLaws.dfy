/** When, and at what price and size, an order executes: in every run, an operation schedules an
    execution for an order exactly when its resting entry and the tick meet `Fills`. The condition
    is stated from the order's instructions and the tick alone; the matching functions of the venue
    appear in the proofs only. */
module ExecutionLaws {
  import opened Domain
  import opened Brokerage
  import opened Venue
  import opened OrderLife
  import opened LifeLaws

  /** How much of `left` the tick offers: without a volume everything, on a bar the brokerage's share. */
  function Offered(m: BrokerageModel, lot: nat, left: nat, t: Tick): nat {
    match t.volume
    case None => left
    case Some(volume) => FillableQty(m, left, volume, lot)
  }

  /** The best price of the tick for this side: what a resting order can hope for. */
  function Best(side: Side, t: Tick): Price { if side.Buy? then t.low else t.high }

  /** The tick trades at or beyond the trigger: up to it for a buy, down to it for a sell. */
  predicate Reaches(side: Side, trigger: Price, t: Tick) {
    if side.Buy? then trigger <= t.high else t.low <= trigger
  }

  /** Volume still ahead of the order: the estimate carried, or a fresh one on its first touch. */
  function Ahead(m: BrokerageModel, r: Resting, volume: nat): nat {
    match r.queueAhead
    case Some(queue) => queue
    case None => InitialQueue(m, volume)
  }

  /** A deferred order takes the open, unless its limit forbids it, at the slipped price or its limit
      if that is better for it. */
  predicate FillsAtOpen(m: BrokerageModel, lot: nat, r: Resting, t: Tick, x: What)
    requires x.Exec?
  {
    var raw := FillPrice(m, r.order.side, t.open, t.low, t.high);
    && x.liquidity.Taker? && x.qty == Offered(m, lot, r.remaining, t)
    && match r.order.price
       case None => x.px == raw
       case Some(limit) =>
         && Within(r.order.side, t.open, limit)
         && x.px == if Within(r.order.side, raw, limit) then raw else limit
  }

  /** An unpriced remainder takes the close of a bar. */
  predicate FillsAtClose(m: BrokerageModel, lot: nat, r: Resting, t: Tick, x: What)
    requires x.Exec?
  {
    && t.volume.Some? && x.liquidity.Taker? && x.qty == Offered(m, lot, r.remaining, t)
    && x.px == FillPrice(m, r.order.side, t.close, t.low, t.high)
  }

  /** A passive limit provides liquidity at its limit. A tick that trades through it fills its share;
      one that only touches it fills what is left of the share after the queue ahead. */
  predicate FillsAtLimit(m: BrokerageModel, lot: nat, r: Resting, t: Tick, x: What)
    requires x.Exec?
  {
    && r.order.price.Some? && x.px == r.order.price.value && x.liquidity.Maker?
    && Within(r.order.side, Best(r.order.side, t), x.px)
    && x.qty + (if t.volume.Some? && Best(r.order.side, t) == x.px then Ahead(m, r, t.volume.value) else 0)
       == Offered(m, lot, r.remaining, t)
  }

  /** An armed market stop that is reached takes liquidity from its trigger, or from the near edge of
      the tick where the price gapped past the trigger. */
  predicate FillsAtStop(m: BrokerageModel, lot: nat, r: Resting, t: Tick, x: What)
    requires x.Exec?
  {
    && r.order.trigger.Some? && (r.order.kind.StopMarket? || (r.order.kind.TrailingStopMarket? && r.trail.Some?))
    && Reaches(r.order.side, r.order.trigger.value, t)
    && x.liquidity.Taker? && x.qty == Offered(m, lot, r.remaining, t)
    && var edge := Best(r.order.side, t);
       var gapped := !Within(r.order.side, edge, r.order.trigger.value);
       x.px == FillPrice(m, r.order.side, if gapped then edge else r.order.trigger.value, t.low, t.high)
  }

  /** What a tick executes of a resting entry. */
  predicate Fills(m: BrokerageModel, lot: nat, r: Resting, t: Tick, x: What) {
    x.Exec? && x.qty > 0 &&
    if r.pendingOpen then FillsAtOpen(m, lot, r, t, x)
    else if !r.order.kind.Market? && !r.order.kind.Limit? then FillsAtStop(m, lot, r, t, x)
    else if r.order.price.None? then FillsAtClose(m, lot, r, t, x)
    else FillsAtLimit(m, lot, r, t, x)
  }

  lemma DecidesIffFills(m: BrokerageModel, lot: nat, r: Resting, t: Tick, x: What)
    requires x.Exec?
    ensures var d := Decide(m, lot, r, t);
      d.Some? && d.value.qty > 0 && x == Exec(d.value.px, d.value.qty, d.value.liquidity)
      <==> Fills(m, lot, r, t, x)
  {
    hide FillPrice, FillableQty, InitialQueue;
  }

  /** The entry and the tick an operation brings together, if it matches the order's instrument. */
  predicate Meets(e: Option<Resting>, op: Op) {
    e.Some? && op.Match? && op.ev.inst == e.value.order.inst && op.ev.inst in op.view.instruments && TickOf(op.ev).Some?
  }

  predicate FillsBy(m: BrokerageModel, e: Option<Resting>, op: Op, x: Item) {
    && Meets(e, op) && x.due == Later(op.now, m.submitLatency)
    && Fills(m, op.view.instruments[op.ev.inst].lot, e.value, TickOf(op.ev).value, x.what)
  }

  lemma StepExecutesIff(m: BrokerageModel, l: Life, id: OrderId, op: Op, x: Item)
    requires x.what.Exec?
    ensures Step(m, l, id, op).items == l.items + [x] <==> FillsBy(m, l.entry, op, x)
  {
    hide Decide, Exhausted, Stepped, Rest, Fills;
    assert (l.items + [x])[|l.items|] == x;
    if Meets(l.entry, op) {
      DecidesIffFills(m, op.view.instruments[op.ev.inst].lot, l.entry.value, TickOf(op.ev).value, x.what);
    }
  }

  lemma PrefixStep(m: BrokerageModel, ops: seq<Op>, q: nat, id: OrderId)
    requires Fresh(ops) && q < |ops|
    ensures Project(Run(m, ops[..q]), id) == LifeOf(m, ops[..q], id)
    ensures Project(Run(m, ops[..q + 1]), id) == Step(m, Project(Run(m, ops[..q]), id), id, ops[q])
  {
    assert Fresh(ops[..q]) && Fresh(ops[..q + 1]) && ops[..q + 1][..q] == ops[..q];
    assert LifeOf(m, ops[..q + 1], id) == Step(m, LifeOf(m, ops[..q], id), id, ops[q]);
    hide Run, Step, LifeOf, Project;
    VenueIsComposition(m, ops[..q], id);
    VenueIsComposition(m, ops[..q + 1], id);
  }

  /** In every run: operation `q` schedules the execution `x` for an order if and only if the entry
      that rests before it and the tick it brings fill `x`. */
  lemma ExecutesIff(m: BrokerageModel, ops: seq<Op>, q: nat, id: OrderId, x: Item)
    requires Fresh(ops) && q < |ops| && x.what.Exec?
    ensures Executes(m, ops, q, id, x) <==> FillsBy(m, Find(Run(m, ops[..q]).resting, id), ops[q], x)
  {
    hide Run, Step, LifeOf, Find, Items, FillsBy;
    PrefixStep(m, ops, q, id);
    StepExecutesIff(m, Project(Run(m, ops[..q]), id), id, ops[q], x);
  }

  predicate MarketStop(o: Order) { o.kind.StopMarket? || o.kind.TrailingStopMarket? }

  /** A stop-market or trailing order rests armed at the trigger in force. */
  predicate ArmedStop(e: Option<Resting>, op: Op) {
    && Meets(e, op) && e.value.order.trigger.Some?
    && (e.value.order.kind.StopMarket? || (e.value.order.kind.TrailingStopMarket? && e.value.trail.Some?))
  }

  /** The only execution a reached stop can have. */
  function StopExecution(m: BrokerageModel, e: Resting, op: Op, ref: Price): Item
    requires Meets(Some(e), op)
  {
    var t := TickOf(op.ev).value;
    var qty := Offered(m, op.view.instruments[op.ev.inst].lot, e.remaining, t);
    Item(Later(op.now, m.submitLatency), Exec(FillPrice(m, e.order.side, ref, t.low, t.high), qty, Taker))
  }

  /** In every run, an armed market stop executes at a tick if and only if the tick reaches its
      trigger and offers anything. It then executes all that is offered: from the trigger when the
      tick's range holds it, and from the near edge, the low for a buy and the high for a sell, when
      the price gapped past it. */
  lemma StopExecutesIff(m: BrokerageModel, ops: seq<Op>, q: nat, id: OrderId)
    requires Fresh(ops) && q < |ops| && LifeLaws.Accepted(ops[..q], id).Some?
    requires MarketStop(LifeLaws.Accepted(ops[..q], id).value)
    requires ArmedStop(Find(Run(m, ops[..q]).resting, id), ops[q])
    ensures var e, op := Find(Run(m, ops[..q]).resting, id).value, ops[q];
      var t, trigger := TickOf(op.ev).value, e.order.trigger.value;
      && ((exists x :: Executes(m, ops, q, id, x)) <==>
            && Offered(m, op.view.instruments[op.ev.inst].lot, e.remaining, t) > 0
            && if e.order.side.Buy? then t.high >= trigger else t.low <= trigger)
      && forall x :: Executes(m, ops, q, id, x) ==>
          && (t.low <= trigger <= t.high ==> x == StopExecution(m, e, op, trigger))
          && (e.order.side.Buy? && trigger < t.low ==> x == StopExecution(m, e, op, t.low))
          && (e.order.side.Sell? && t.high < trigger ==> x == StopExecution(m, e, op, t.high))
  {
    var e, op := Find(Run(m, ops[..q]).resting, id), ops[q];
    var t, lot, trigger := TickOf(op.ev).value, op.view.instruments[op.ev.inst].lot, e.value.order.trigger.value;
    assert Fresh(ops[..q]);
    VenueIsComposition(m, ops[..q], id);
    StopsNeverPend(m, ops[..q], id);
    hide Run, Find, Items, LifeOf, LifeLaws.Accepted, Executes, FillPrice, FillableQty;
    forall x: Item | Executes(m, ops, q, id, x)
      ensures x.what.Exec? && FillsBy(m, e, op, x)
    {
      assert x.what.Exec? by { IsExecution(m, ops, q, id, x); }
      ExecutesIff(m, ops, q, id, x);
    }
    var edge := Best(e.value.order.side, t);
    var x := StopExecution(m, e.value, op, if Within(e.value.order.side, edge, trigger) then trigger else edge);
    ExecutesIff(m, ops, q, id, x);
  }

  lemma IsExecution(m: BrokerageModel, ops: seq<Op>, q: nat, id: OrderId, x: Item)
    requires q < |ops| && Executes(m, ops, q, id, x)
    ensures x.what.Exec?
  {
  }

  /** Without slippage a stop fills exactly at its trigger whenever the tick's range holds it. */
  lemma StopFillsAtTrigger(m: BrokerageModel, ops: seq<Op>, q: nat, id: OrderId)
    requires Fresh(ops) && q < |ops| && LifeLaws.Accepted(ops[..q], id).Some?
    requires MarketStop(LifeLaws.Accepted(ops[..q], id).value)
    requires ArmedStop(Find(Run(m, ops[..q]).resting, id), ops[q])
    requires m.slippageBps == 0.0 && m.rangeImpact == 0.0
    requires Offered(m, ops[q].view.instruments[ops[q].ev.inst].lot, Find(Run(m, ops[..q]).resting, id).value.remaining,
                     TickOf(ops[q].ev).value) > 0
    requires var t := TickOf(ops[q].ev).value;
      t.low <= Find(Run(m, ops[..q]).resting, id).value.order.trigger.value <= t.high
    ensures exists x :: Executes(m, ops, q, id, x)
    ensures forall x :: Executes(m, ops, q, id, x) ==>
      x.what.Exec? && x.what.px == Find(Run(m, ops[..q]).resting, id).value.order.trigger.value
  {
    hide Run, Find, LifeLaws.Accepted, Executes, FillPrice, FillableQty;
    StopExecutesIff(m, ops, q, id);
    var e, t := Find(Run(m, ops[..q]).resting, id).value, TickOf(ops[q].ev).value;
    NoSlippage(m, e.order.side, e.order.trigger.value, t.low, t.high);
  }

  // --- how an entry starts and what a tick makes of it ---------------------------------------------

  /** A market order waits for the next open, and so does a limit order that crosses the quote on its
      side, or the mark when there is no quote; every other order rests at once. */
  predicate Crosses(view: View, o: Order) {
    o.kind.Market? ||
    (&& o.kind.Limit? && o.price.Some?
     && if o.inst in view.quotes
        then if o.side.Buy? then view.quotes[o.inst].1 <= o.price.value else view.quotes[o.inst].0 >= o.price.value
        else o.inst in view.marks && Within(o.side, view.marks[o.inst], o.price.value))
  }

  /** How far a trailing stop starts behind the mark; only a positive distance that fits a price trails. */
  predicate Behind(view: View, o: Order, distance: int) {
    && o.kind.TrailingStopMarket? && o.trigger.Some? && o.inst in view.marks && 0 < distance <= I64_MAX
    && view.marks[o.inst] == if o.side.Sell? then o.trigger.value + distance else o.trigger.value - distance
  }

  /** In every run, an accepted order rests whole, deferred exactly when it crosses, with nothing
      assumed ahead of it, and trailing exactly when it starts behind the mark. */
  lemma SubmissionRests(m: BrokerageModel, ops: seq<Op>, q: nat, id: OrderId)
    requires Fresh(ops) && q < |ops| && Submits(ops[q], id)
    ensures var e, op := Find(Run(m, ops[..q + 1]).resting, id), ops[q];
      && e.Some? && e.value.order == op.order && e.value.remaining == op.order.quantity && e.value.queueAhead.None?
      && (e.value.pendingOpen <==> Crosses(op.view, op.order))
      && (forall distance, extreme :: e.value.trail == Some(Trail(distance, extreme)) <==>
            Behind(op.view, op.order, distance) && extreme == op.view.marks[op.order.inst])
  {
    hide Run, LifeOf, Items, Find;
    PrefixStep(m, ops, q, id);
  }

  /** A stop-limit whose trigger the tick reaches. */
  predicate StopLimitReached(r: Resting, t: Tick) {
    r.order.kind.StopLimit? && r.order.trigger.Some? && Reaches(r.order.side, r.order.trigger.value, t)
  }

  lemma SteppedKind(m: BrokerageModel, lot: nat, r: Resting, t: Tick)
    requires r.pendingOpen ==> r.order.kind.Market? || r.order.kind.Limit?
    ensures var r' := Stepped(m, lot, r, t);
      && !r'.pendingOpen
      && r'.order.kind == (if StopLimitReached(r, t) then Limit else r.order.kind)
  {
    hide Decide;
  }

  lemma {:induction false} OnlyCrossersPend(m: BrokerageModel, ops: seq<Op>, id: OrderId)
    requires Fresh(ops)
    ensures var e := LifeOf(m, ops, id).entry;
      e.Some? && e.value.pendingOpen ==> e.value.order.kind.Market? || e.value.order.kind.Limit?
    decreases |ops|
  {
    hide Decide;
    if ops != [] {
      FreshPrefix(ops);
      OnlyCrossersPend(m, ops[..|ops| - 1], id);
    }
  }

  lemma StepKind(m: BrokerageModel, l: Life, id: OrderId, op: Op)
    requires Meets(l.entry, op)
    requires l.entry.value.pendingOpen ==> l.entry.value.order.kind.Market? || l.entry.value.order.kind.Limit?
    ensures var e' := Step(m, l, id, op).entry;
      e'.Some? ==>
        && !e'.value.pendingOpen
        && e'.value.order.kind == (if StopLimitReached(l.entry.value, TickOf(op.ev).value) then Limit
                                   else l.entry.value.order.kind)
  {
    hide Decide, Exhausted, Stepped, StopLimitReached;
    SteppedKind(m, op.view.instruments[op.ev.inst].lot, l.entry.value, TickOf(op.ev).value);
  }

  /** In every run, a tick ends a deferral, and turns a stop-limit order into a limit order exactly
      when it reaches the trigger; no other order changes its kind. */
  lemma TickActivates(m: BrokerageModel, ops: seq<Op>, q: nat, id: OrderId)
    requires Fresh(ops) && q < |ops| && Meets(Find(Run(m, ops[..q]).resting, id), ops[q])
    ensures var e, e' := Find(Run(m, ops[..q]).resting, id).value, Find(Run(m, ops[..q + 1]).resting, id);
      e'.Some? ==>
        && !e'.value.pendingOpen
        && e'.value.order.kind == (if StopLimitReached(e, TickOf(ops[q].ev).value) then Limit else e.order.kind)
  {
    PrefixStep(m, ops, q, id);
    assert Fresh(ops[..q]);
    OnlyCrossersPend(m, ops[..q], id);
    hide Run, Step, LifeOf, Find, Items, StopLimitReached;
    StepKind(m, Project(Run(m, ops[..q]), id), id, ops[q]);
  }
}
