/** Laws of a resting order over whole runs of ticks: the queue estimate in closed form, bounded
    progress, and the trailing stop as the running extreme it stands for. */
module TickLaws {
  import opened Domain
  import opened Brokerage
  import opened Venue
  import opened OrderLife

  /** A tick on the order's instrument, with the instrument's lot size at that time. */
  datatype Beat = Beat(lot: nat, tick: Tick)

  function FollowOne(m: BrokerageModel, e: Option<Resting>, b: Beat): Option<Resting> {
    if e.None? || Exhausted(m, b.lot, e.value, b.tick) then None else Some(Stepped(m, b.lot, e.value, b.tick))
  }

  /** The book entry after the beats, or none once it is exhausted. */
  function Follow(m: BrokerageModel, r: Resting, bs: seq<Beat>): Option<Resting> {
    if bs == [] then Some(r) else FollowOne(m, Follow(m, r, bs[..|bs| - 1]), bs[|bs| - 1])
  }

  /** The ticks on `inst` seen from operation `from` on. */
  function Beats(ops: seq<Op>, from: nat, inst: InstrumentId): seq<Beat>
    requires from <= |ops|
    decreases |ops|
  {
    if from == |ops| then []
    else
      var op, before := ops[|ops| - 1], Beats(ops[..|ops| - 1], from, inst);
      if op.Match? && op.ev.inst == inst && inst in op.view.instruments && TickOf(op.ev).Some?
      then before + [Beat(op.view.instruments[inst].lot, TickOf(op.ev).value)]
      else before
  }

  /** One operation that neither submits nor cancels the order moves its entry by at most one tick. */
  lemma StepFollows(m: BrokerageModel, l: Life, id: OrderId, op: Op, inst: InstrumentId)
    requires !Submits(op, id) && !(op.Cancel? && op.id == id) && (l.entry.Some? ==> l.entry.value.order.inst == inst)
    ensures Step(m, l, id, op).entry ==
      if op.Match? && op.ev.inst == inst && inst in op.view.instruments && TickOf(op.ev).Some?
      then FollowOne(m, l.entry, Beat(op.view.instruments[inst].lot, TickOf(op.ev).value)) else l.entry
  {
    hide Decide, Stepped, Exhausted;
  }

  lemma SubmitBegins(m: BrokerageModel, l: Life, id: OrderId, op: Op)
    requires Submits(op, id)
    ensures Step(m, l, id, op).entry == Some(Rest(op.view, op.order, 0))
  {
    hide Rest;
  }

  /** In the venue, an order that is not cancelled is its first entry followed over the ticks
      since its submission, so every law below is a law of reachable venue states. */
  lemma {:induction false} EntryFollowsTicks(m: BrokerageModel, ops: seq<Op>, k: nat, id: OrderId)
    requires Fresh(ops) && k < |ops| && Submits(ops[k], id)
    requires forall i :: k < i < |ops| ==> !(ops[i].Cancel? && ops[i].id == id)
    ensures var r := Rest(ops[k].view, ops[k].order, 0);
      Find(Run(m, ops).resting, id) == Follow(m, r, Beats(ops, k + 1, ops[k].order.inst))
    decreases |ops|
  {
    hide Step, Run, Find, FollowOne, SeedTrail, Marketable;
    VenueIsComposition(m, ops, id);
    var n := |ops| - 1;
    var before := LifeOf(m, ops[..n], id);
    if k == n {
      SubmitBegins(m, before, id, ops[n]);
    } else {
      FreshPrefix(ops);
      VenueIsComposition(m, ops[..n], id);
      EntryFollowsTicks(m, ops[..n], k, id);
      assert ops[..n][k] == ops[k];
      assert !Submits(ops[n], id);
      var inst := ops[k].order.inst;
      var bs := Beats(ops[..n], k + 1, inst);
      FollowKeepsInstrument(m, Rest(ops[k].view, ops[k].order, 0), bs);
      StepFollows(m, before, id, ops[n], inst);
      if Beats(ops, k + 1, inst) != bs {
        var b := Beat(ops[n].view.instruments[inst].lot, TickOf(ops[n].ev).value);
        assert (bs + [b])[..|bs|] == bs;
      }
    }
  }

  lemma {:induction false} FollowKeepsInstrument(m: BrokerageModel, r: Resting, bs: seq<Beat>)
    ensures var e := Follow(m, r, bs);
      e.Some? ==> e.value.order.inst == r.order.inst && e.value.order.side == r.order.side
  {
    if bs != [] {
      FollowKeepsInstrument(m, r, bs[..|bs| - 1]);
    }
  }

  // --- the queue estimate -------------------------------------------------------------------

  /** A limit that rests passively. */
  predicate Passive(r: Resting, limit: Price) {
    !r.pendingOpen && (r.order.kind.Limit? || r.order.kind.Market?) && r.order.price == Some(limit)
  }

  ghost predicate TouchBars(side: Side, limit: Price, bs: seq<Beat>) {
    forall i :: 0 <= i < |bs| ==> bs[i].tick.volume.Some? && Touch(side, limit, bs[i].tick)
  }

  ghost predicate CrossingBars(side: Side, limit: Price, bs: seq<Beat>) {
    forall i :: 0 <= i < |bs| ==>
      bs[i].lot > 0 && bs[i].tick.volume.Some? && (Through(side, limit, bs[i].tick) || Touch(side, limit, bs[i].tick))
  }

  /** The participation budget the order was offered over the beats while it rested. */
  function Shares(m: BrokerageModel, r: Resting, bs: seq<Beat>): nat {
    if bs == [] then 0
    else
      var b, e := bs[|bs| - 1], Follow(m, r, bs[..|bs| - 1]);
      Shares(m, r, bs[..|bs| - 1]) + if e.Some? then Cap(m, b.lot, e.value, b.tick) else 0
  }

  function FilledOver(m: BrokerageModel, r: Resting, bs: seq<Beat>): nat {
    if bs == [] then 0
    else
      var b, e := bs[|bs| - 1], Follow(m, r, bs[..|bs| - 1]);
      FilledOver(m, r, bs[..|bs| - 1])
      + if e.Some? && Decide(m, b.lot, e.value, b.tick).Some? then Decide(m, b.lot, e.value, b.tick).value.qty else 0
  }

  /** One touching bar: the share pays the queue first and fills the order with the rest. */
  lemma TouchBarStep(m: BrokerageModel, r: Resting, limit: Price, b: Beat)
    requires Passive(r, limit) && b.tick.volume.Some? && Touch(r.order.side, limit, b.tick)
    ensures var d, r', share, q :=
        Decide(m, b.lot, r, b.tick), Stepped(m, b.lot, r, b.tick), Cap(m, b.lot, r, b.tick),
        QueueBefore(m, r, b.tick.volume.value);
      && d.Some? && d.value.qty == Max(0, share - q)
      && r' == r.(remaining := r.remaining - d.value.qty, queueAhead := Some(Max(0, q - share)))
  {
  }

  /** Over any run of bars that only touch the level, a queue that starts at `q0` holds
      `max(0, q0 - shares)` and the order has filled `max(0, shares - q0)`. */
  lemma {:induction false} QueueClosedForm(m: BrokerageModel, r: Resting, limit: Price, bs: seq<Beat>, q0: nat)
    requires Passive(r, limit) && TouchBars(r.order.side, limit, bs)
    requires bs != [] ==> q0 == QueueBefore(m, r, bs[0].tick.volume.value)
    ensures FilledOver(m, r, bs) == Max(0, Shares(m, r, bs) - q0)
    ensures var e := Follow(m, r, bs);
      e.Some? ==>
        && Passive(e.value, limit) && e.value.order.side == r.order.side
        && e.value.remaining + FilledOver(m, r, bs) == r.remaining
        && (bs != [] ==> e.value.queueAhead == Some(Max(0, q0 - Shares(m, r, bs))))
        && (bs == [] ==> e.value == r)
    ensures Follow(m, r, bs).None? ==> FilledOver(m, r, bs) == r.remaining
  {
    hide Decide, Stepped;
    if bs != [] {
      var n := |bs| - 1;
      QueueClosedForm(m, r, limit, bs[..n], q0);
      var e := Follow(m, r, bs[..n]);
      if e.Some? {
        TouchBarStep(m, e.value, limit, bs[n]);
      }
    }
  }

  ghost predicate Bars(bs: seq<Beat>) {
    forall i :: 0 <= i < |bs| ==> bs[i].tick.volume.Some? && bs[i].tick.volume.value > 0
  }

  /** The sum of the bars' caps. */
  function Budget(m: BrokerageModel, bs: seq<Beat>): real {
    if bs == [] then 0.0
    else
      var b := bs[|bs| - 1];
      Budget(m, bs[..|bs| - 1]) + if b.tick.volume.Some? then BarCap(m, b.tick.volume.value, b.lot) else 0.0
  }

  lemma DecisionWithinCap(m: BrokerageModel, r: Resting, b: Beat)
    requires b.tick.volume.Some? && b.tick.volume.value > 0 && m.participation > 0.0
    ensures var d := Decide(m, b.lot, r, b.tick);
      && BarCap(m, b.tick.volume.value, b.lot) >= 0.0
      && (d.Some? ==> d.value.qty as real <= BarCap(m, b.tick.volume.value, b.lot))
  {
    hide BarCap, FillPrice, FillableQty;
    var v := b.tick.volume.value;
    LargestThatFits(m, r.remaining, v, b.lot);
    assert Decide(m, b.lot, r, b.tick).Some? ==> Decide(m, b.lot, r, b.tick).value.qty <= Cap(m, b.lot, r, b.tick);
  }

  /** Whatever its kind, over any run of bars an order takes no more than participation allows: per
      bar the share of its volume, or one lot where that is more. */
  lemma {:induction false} ParticipationHolds(m: BrokerageModel, r: Resting, bs: seq<Beat>)
    requires Bars(bs) && m.participation > 0.0
    ensures FilledOver(m, r, bs) as real <= Budget(m, bs)
  {
    hide Decide, BarCap, FollowOne;
    if bs != [] {
      var n := |bs| - 1;
      ParticipationHolds(m, r, bs[..n]);
      var e := Follow(m, r, bs[..n]);
      DecisionWithinCap(m, if e.Some? then e.value else r, bs[n]);
    }
  }

  /** What a crossing bar must still consume before the order is done. */
  function Work(m: BrokerageModel, e: Option<Resting>, volume: nat): nat {
    if e.None? then 0 else QueueBefore(m, e.value, volume) + e.value.remaining
  }

  lemma CrossingBarProgresses(m: BrokerageModel, r: Resting, limit: Price, b: Beat)
    requires Passive(r, limit) && r.remaining > 0 && b.tick.volume.Some? && CrossingBars(r.order.side, limit, [b])
    ensures var v := b.tick.volume.value; var e := FollowOne(m, Some(r), b);
      && (forall w: nat :: Work(m, e, w) < Work(m, Some(r), v))
      && (e.Some? ==> Passive(e.value, limit) && e.value.remaining > 0 && e.value.order.side == r.order.side)
  {
    assert b == [b][0];
  }

  /** Each crossing bar strictly decreases queue plus remaining, so an order that keeps being
      crossed is finished after at most that many bars. */
  lemma {:induction false} CrossedOrderFinishes(m: BrokerageModel, r: Resting, limit: Price, bs: seq<Beat>)
    requires Passive(r, limit) && r.remaining > 0 && CrossingBars(r.order.side, limit, bs) && bs != []
    ensures var e, w := Follow(m, r, bs), Work(m, Some(r), bs[0].tick.volume.value);
      && (e.Some? ==> Passive(e.value, limit) && e.value.remaining > 0 && e.value.order.side == r.order.side)
      && (forall v: nat :: e.Some? ==> Work(m, e, v) + |bs| <= w)
      && (|bs| >= w ==> e.None?)
    decreases |bs|
  {
    var n := |bs| - 1;
    var before := Follow(m, r, bs[..n]);
    if n > 0 {
      CrossedOrderFinishes(m, r, limit, bs[..n]);
    }
    if before.Some? {
      CrossingBarProgresses(m, before.value, limit, bs[n]);
    }
    var e := Follow(m, r, bs);
    if e.Some? {
      assert Work(m, e, 0) > 0;
    }
  }

  // --- trailing stops -----------------------------------------------------------------------

  predicate InRange(t: Tick) { I64_MIN <= t.low && t.high <= I64_MAX }

  function Stop(side: Side, offset: int, extreme: Price): Price {
    if side.Sell? then extreme - offset else extreme + offset
  }

  /** A trailing stop whose trigger stands exactly `offset` off its extreme. */
  predicate Trailing(r: Resting) {
    && !r.pendingOpen && r.order.kind.TrailingStopMarket? && r.trail.Some? && r.trail.value.offset > 0
    && r.order.trigger == Some(Stop(r.order.side, r.trail.value.offset, r.trail.value.extreme))
    && I64_MIN <= r.order.trigger.value <= I64_MAX
  }

  /** The best price seen: the highest high for a sell, the lowest low for a buy. */
  function Extreme(side: Side, start: Price, bs: seq<Beat>): Price {
    if bs == [] then start
    else
      var e, t := Extreme(side, start, bs[..|bs| - 1]), bs[|bs| - 1].tick;
      if side.Sell? then Max(e, t.high) else Min(e, t.low)
  }

  /** Stated on the ticks alone: none of them reaches the stop that stands when it arrives. */
  ghost predicate NeverHit(side: Side, offset: int, start: Price, bs: seq<Beat>) {
    forall i :: 0 <= i < |bs| ==> !Triggered(side, Stop(side, offset, Extreme(side, start, bs[..i])), bs[i].tick)
  }

  ghost predicate AllInRange(bs: seq<Beat>) { forall i :: 0 <= i < |bs| ==> InRange(bs[i].tick) }

  /** A freshly submitted trailing stop with a mark trails from that mark. */
  lemma SubmittedTrails(view: View, o: Order, v: nat)
    requires o.kind.TrailingStopMarket? && SeedTrail(view, o).Some? && I64_MIN <= o.trigger.value <= I64_MAX
    ensures Trailing(Rest(view, o, v)) && Rest(view, o, v).trail.value.extreme == view.Mark(o.inst).value
  {
  }

  lemma TrailStep(m: BrokerageModel, lot: nat, r: Resting, t: Tick)
    requires Trailing(r) && InRange(t) && !Triggered(r.order.side, r.order.trigger.value, t)
    ensures var x := if r.order.side.Sell? then Max(r.trail.value.extreme, t.high)
        else Min(r.trail.value.extreme, t.low);
      && Decide(m, lot, r, t).None?
      && Stepped(m, lot, r, t) == Trailed(r, x, Stop(r.order.side, r.trail.value.offset, x))
      && Trailing(Stepped(m, lot, r, t))
  {
  }

  /** Until first hit, the incremental trail is the running extreme, and nothing else of the
      order moves. */
  lemma {:induction false} TrailIsRunningExtreme(m: BrokerageModel, r: Resting, bs: seq<Beat>)
    requires Trailing(r) && AllInRange(bs)
    requires NeverHit(r.order.side, r.trail.value.offset, r.trail.value.extreme, bs)
    ensures var x := Extreme(r.order.side, r.trail.value.extreme, bs);
      && Follow(m, r, bs) == Some(Trailed(r, x, Stop(r.order.side, r.trail.value.offset, x)))
      && Trailing(Follow(m, r, bs).value)
  {
    if bs != [] {
      var n := |bs| - 1;
      assert forall i :: 0 <= i < n ==> bs[..n][i] == bs[i] && bs[..n][..i] == bs[..i];
      TrailIsRunningExtreme(m, r, bs[..n]);
      TrailStep(m, bs[n].lot, Follow(m, r, bs[..n]).value, bs[n].tick);
    }
  }

  /** `a` is at least as tight a stop as `b`. */
  predicate Tighter(side: Side, a: Price, b: Price) { if side.Sell? then a >= b else a <= b }

  lemma TickTightens(m: BrokerageModel, lot: nat, r: Resting, t: Tick)
    requires Trailing(r)
    ensures var r' := Stepped(m, lot, r, t);
      && Trailing(r') && r'.order.side == r.order.side
      && Tighter(r.order.side, r'.order.trigger.value, r.order.trigger.value)
  {
  }

  /** Over the order's whole life, hit or not, the trigger only tightens. */
  lemma {:induction false} TriggerOnlyTightens(m: BrokerageModel, r: Resting, bs: seq<Beat>)
    requires Trailing(r)
    ensures var e := Follow(m, r, bs);
      e.Some? ==>
        && Trailing(e.value) && e.value.order.side == r.order.side
        && Tighter(r.order.side, e.value.order.trigger.value, r.order.trigger.value)
  {
    if bs != [] {
      var before, b := Follow(m, r, bs[..|bs| - 1]), bs[|bs| - 1];
      TriggerOnlyTightens(m, r, bs[..|bs| - 1]);
      if before.Some? {
        TickTightens(m, b.lot, before.value, b.tick);
      }
    }
  }
}
