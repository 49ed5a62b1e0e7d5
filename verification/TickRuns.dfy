/** The tick laws as laws of the venue: what the book holds for an order, and what has been executed of
    it, after any run in which it was submitted and not cancelled. */
module TickRuns {
  import opened Domain
  import opened Brokerage
  import opened Venue
  import opened OrderLife
  import opened LifeLaws
  import opened TickLaws

  /** Operation `k` submitted the order and no later one cancels it. */
  ghost predicate Stands(ops: seq<Op>, k: nat, id: OrderId) {
    && Fresh(ops) && k < |ops| && Submits(ops[k], id)
    && forall i :: k < i < |ops| ==> !(ops[i].Cancel? && ops[i].id == id)
  }

  /** Its first entry, and the ticks on its instrument since. */
  function FirstEntry(ops: seq<Op>, k: nat): Resting
    requires k < |ops| && ops[k].Submit?
  {
    Rest(ops[k].view, ops[k].order, 0)
  }

  function TicksSince(ops: seq<Op>, k: nat): seq<Beat>
    requires k < |ops| && ops[k].Submit?
  {
    Beats(ops, k + 1, ops[k].order.inst)
  }

  /** What has been executed of the order. */
  function Done(m: BrokerageModel, ops: seq<Op>, id: OrderId): nat { Executed(Items(Run(m, ops).issued, id)) }

  /** What an order fills over the ticks is what it no longer has remaining. */
  lemma {:induction false} FollowConserves(m: BrokerageModel, r: Resting, bs: seq<Beat>)
    ensures var e := Follow(m, r, bs);
      FilledOver(m, r, bs) + (if e.Some? then e.value.remaining else 0) == r.remaining
  {
    hide Decide;
    if bs != [] {
      var n := |bs| - 1;
      FollowConserves(m, r, bs[..n]);
      var e := Follow(m, r, bs[..n]);
      if e.Some? {
        SteppedFacts(m, bs[n].lot, e.value, bs[n].tick);
      }
    }
  }

  lemma {:induction false} NotCanceled(m: BrokerageModel, ops: seq<Op>, k: nat, id: OrderId)
    requires Stands(ops, k, id)
    ensures !LifeLaws.Canceled(LifeOf(m, ops, id).items)
  {
    hide Decide, Exhausted, Stepped, Rest;
    var n := |ops| - 1;
    FreshPrefix(ops);
    if k == n {
      Unborn(m, ops[..n], id);
    } else {
      assert ops[..n][k] == ops[k];
      NotCanceled(m, ops[..n], k, id);
      assert !Submits(ops[n], id);
    }
  }

  lemma AcceptedIs(ops: seq<Op>, k: nat, id: OrderId)
    requires Stands(ops, k, id)
    ensures LifeLaws.Accepted(ops, id) == Some(ops[k].order)
  {
    assert ops[..k + 1][k] == ops[k];
    AcceptedStays(ops, k + 1, id);
  }

  /** In the venue: the entry is the first one followed over the ticks, and the executed quantity is
      what it filled over them. */
  lemma RunFollows(m: BrokerageModel, ops: seq<Op>, k: nat, id: OrderId)
    requires Stands(ops, k, id)
    ensures var r, bs := FirstEntry(ops, k), TicksSince(ops, k);
      && Find(Run(m, ops).resting, id) == Follow(m, r, bs) && Done(m, ops, id) == FilledOver(m, r, bs)
  {
    var r, bs := FirstEntry(ops, k), TicksSince(ops, k);
    assert r.remaining == ops[k].order.quantity;
    hide Run, Find, Items, Executed, Follow, FilledOver, Beats, Rest, LifeOf;
    EntryFollowsTicks(m, ops, k, id);
    VenueIsComposition(m, ops, id);
    AcceptedIs(ops, k, id);
    QuantityConserved(m, ops, id);
    NotCanceled(m, ops, k, id);
    FollowConserves(m, r, bs);
  }

  /** Participation: of an order of any kind, never more has been executed than its bars allow. */
  lemma ExecutedWithinBudget(m: BrokerageModel, ops: seq<Op>, k: nat, id: OrderId)
    requires Stands(ops, k, id) && Bars(TicksSince(ops, k)) && m.participation > 0.0
    ensures Done(m, ops, id) as real <= Budget(m, TicksSince(ops, k))
  {
    hide Run, Find, Done, Follow, FilledOver, Beats, Rest, Budget, Bars;
    RunFollows(m, ops, k, id);
    ParticipationHolds(m, FirstEntry(ops, k), TicksSince(ops, k));
  }

  lemma RestsPassively(view: View, o: Order)
    requires o.kind.Limit? && o.price.Some? && !Marketable(view, o)
    ensures Passive(Rest(view, o, 0), o.price.value) && Rest(view, o, 0).order == o && Rest(view, o, 0).queueAhead.None?
    ensures Rest(view, o, 0).remaining == o.quantity
  {
  }

  /** A limit that was not marketable, while bars only touch its level: with the queue seeded from the
      first of them, `max(0, shares - q0)` has been executed and `max(0, q0 - shares)` is still ahead. */
  lemma QueueInTheVenue(m: BrokerageModel, ops: seq<Op>, k: nat, id: OrderId)
    requires Stands(ops, k, id) && ops[k].order.kind.Limit? && ops[k].order.price.Some?
    requires !Marketable(ops[k].view, ops[k].order)
    requires var bs := TicksSince(ops, k); bs != [] && TouchBars(ops[k].order.side, ops[k].order.price.value, bs)
    ensures var r, bs, e := FirstEntry(ops, k), TicksSince(ops, k), Find(Run(m, ops).resting, id);
      var q0, shares := InitialQueue(m, bs[0].tick.volume.value), Shares(m, r, bs);
      && Done(m, ops, id) == Max(0, shares - q0)
      && (e.Some? ==> e.value.queueAhead == Some(Max(0, q0 - shares)))
      && (e.None? ==> Done(m, ops, id) == ops[k].order.quantity)
  {
    hide Run, Find, Done, Follow, FilledOver, Shares, Beats, Rest, InitialQueue, Marketable, TouchBars, Passive, Fresh;
    RestsPassively(ops[k].view, ops[k].order);
    RunFollows(m, ops, k, id);
    QueueFrom(m, FirstEntry(ops, k), ops[k].order.price.value, TicksSince(ops, k));
  }

  /** The closed form from a fresh entry, whose queue the first bar seeds. */
  lemma QueueFrom(m: BrokerageModel, r: Resting, limit: Price, bs: seq<Beat>)
    requires Passive(r, limit) && r.queueAhead.None? && bs != [] && TouchBars(r.order.side, limit, bs)
    ensures var e, q0, shares := Follow(m, r, bs), InitialQueue(m, bs[0].tick.volume.value), Shares(m, r, bs);
      && FilledOver(m, r, bs) == Max(0, shares - q0)
      && (e.Some? ==> e.value.queueAhead == Some(Max(0, q0 - shares)))
      && (e.None? ==> FilledOver(m, r, bs) == r.remaining)
  {
    hide Follow, FilledOver, Shares, InitialQueue, Passive;
    QueueClosedForm(m, r, limit, bs, InitialQueue(m, bs[0].tick.volume.value));
  }

  /** A limit that keeps being crossed is executed in full, and leaves the book, after at most its
      quantity plus the seeded queue in bars. */
  lemma CrossedLimitIsExecuted(m: BrokerageModel, ops: seq<Op>, k: nat, id: OrderId)
    requires Stands(ops, k, id) && ops[k].order.kind.Limit? && ops[k].order.price.Some? && ops[k].order.quantity > 0
    requires !Marketable(ops[k].view, ops[k].order)
    requires var bs := TicksSince(ops, k); bs != [] && CrossingBars(ops[k].order.side, ops[k].order.price.value, bs)
    requires var bs := TicksSince(ops, k);
      |bs| >= InitialQueue(m, bs[0].tick.volume.value) + ops[k].order.quantity
    ensures Find(Run(m, ops).resting, id).None? && Done(m, ops, id) == ops[k].order.quantity
  {
    var r, bs := FirstEntry(ops, k), TicksSince(ops, k);
    RestsPassively(ops[k].view, ops[k].order);
    assert Work(m, Some(r), bs[0].tick.volume.value) == InitialQueue(m, bs[0].tick.volume.value) + r.remaining;
    hide Run, Find, Done, Follow, FilledOver, Beats, Rest, InitialQueue, Marketable, Work;
    RunFollows(m, ops, k, id);
    CrossedOrderFinishes(m, r, ops[k].order.price.value, bs);
    FollowConserves(m, r, bs);
  }

  /** A trailing stop with a mark, until a tick reaches the stop that stands when it arrives: the book
      holds the running extreme since the mark, and the trigger one offset off it. */
  lemma TrailInTheVenue(m: BrokerageModel, ops: seq<Op>, k: nat, id: OrderId)
    requires Stands(ops, k, id) && ops[k].order.kind.TrailingStopMarket? && SeedTrail(ops[k].view, ops[k].order).Some?
    requires I64_MIN <= ops[k].order.trigger.value <= I64_MAX && AllInRange(TicksSince(ops, k))
    requires var t := SeedTrail(ops[k].view, ops[k].order).value;
      NeverHit(ops[k].order.side, t.offset, t.extreme, TicksSince(ops, k))
    ensures var o, t, e := ops[k].order, SeedTrail(ops[k].view, ops[k].order).value, Find(Run(m, ops).resting, id);
      var x := Extreme(o.side, ops[k].view.Mark(o.inst).value, TicksSince(ops, k));
      && e.Some? && e.value.trail == Some(t.(extreme := x)) && e.value.order.trigger == Some(Stop(o.side, t.offset, x))
      && Done(m, ops, id) == 0
  {
    var r, bs := FirstEntry(ops, k), TicksSince(ops, k);
    SubmittedTrails(ops[k].view, ops[k].order, 0);
    assert r.trail == SeedTrail(ops[k].view, ops[k].order) && r.order == ops[k].order;
    hide Run, Find, Done, Follow, FilledOver, Beats, Rest, SeedTrail, Extreme, NeverHit, AllInRange;
    RunFollows(m, ops, k, id);
    TrailIsRunningExtreme(m, r, bs);
    FollowConserves(m, r, bs);
  }

  /** And over its whole life, hit or not and whatever the ticks, its trigger only tightens. */
  lemma TriggerTightensInTheVenue(m: BrokerageModel, ops: seq<Op>, k: nat, id: OrderId)
    requires Stands(ops, k, id) && ops[k].order.kind.TrailingStopMarket? && SeedTrail(ops[k].view, ops[k].order).Some?
    requires I64_MIN <= ops[k].order.trigger.value <= I64_MAX
    ensures var o, e := ops[k].order, Find(Run(m, ops).resting, id);
      e.Some? ==> e.value.order.trigger.Some? && Tighter(o.side, e.value.order.trigger.value, o.trigger.value)
  {
    var r, bs := FirstEntry(ops, k), TicksSince(ops, k);
    SubmittedTrails(ops[k].view, ops[k].order, 0);
    assert r.order == ops[k].order;
    hide Run, Find, Done, Follow, FilledOver, Beats, Rest, SeedTrail;
    RunFollows(m, ops, k, id);
    TriggerOnlyTightens(m, r, bs);
  }
}
