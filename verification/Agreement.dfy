/** Where the order management system and the venue agree on an order, and where they cannot.

    In every kernel run whose cancels are no faster than its submits, the FSM status of an order is
    determined by the reports delivered for it up to pending cancels, and a delivered fill is
    refused by the FSM exactly when a cancel is pending - never for any other reason. */
module Agreement {
  import opened Domain
  import opened Brokerage
  import Venue
  import opened OrderLife
  import LifeLaws
  import Delivery
  import Clock
  import Oms
  import opened Kernel
  import KernelSteps
  import opened KernelLaws

  // --- what the venue puts into its reports ---------------------------------------------------

  /** Only three kinds of reports, only real fills, and every trade number once. */
  ghost predicate Genuine(issued: seq<Venue.Scheduled>, tradeSeq: nat) {
    && (forall x :: x in issued ==> x.report.Accepted? || x.report.Filled? || x.report.Canceled?)
    && (forall x :: x in issued && x.report.Filled? ==> x.report.fill.qty > 0 && x.report.fill.trade <= tradeSeq)
    && (forall x, y :: x in issued && y in issued && x.report.Filled? && y.report.Filled? && x != y ==>
          x.report.fill.trade != y.report.fill.trade)
  }

  lemma GenuineGrows(issued: seq<Venue.Scheduled>, tradeSeq: nat, x: Venue.Scheduled)
    requires Genuine(issued, tradeSeq) && (x.report.Accepted? || x.report.Filled? || x.report.Canceled?)
    requires x.report.Filled? ==> x.report.fill.qty > 0 && x.report.fill.trade == tradeSeq + 1
    ensures Genuine(issued + [x], tradeSeq + if x.report.Filled? then 1 else 0)
  {
  }

  lemma {:induction false} MatchAllGenuine(m: BrokerageModel, s: Venue.State, now: Time, iid: InstrumentId,
      inst: Instrument, t: Tick, rs: seq<Venue.Resting>)
    requires Genuine(s.issued, s.tradeSeq)
    ensures var s' := Venue.MatchAll(m, s, now, iid, inst, t, rs); Genuine(s'.issued, s'.tradeSeq)
    decreases |rs|
  {
    if rs != [] {
      var r, s1 := rs[0], Venue.MatchOne(m, s, now, iid, inst, t, rs[0]);
      var d := Venue.Decide(m, inst.lot, r, t);
      if r.order.inst == iid && d.Some? && d.value.qty > 0 {
        var at := Later(now, m.submitLatency);
        var x := Venue.Scheduled(at, s.seqNo + 1, Report.Filled(Venue.FillOf(s, inst, r, d.value, at)));
        GenuineGrows(s.issued, s.tradeSeq, x);
        assert s1.issued == s.issued + [x] && s1.tradeSeq == s.tradeSeq + 1;
      } else {
        assert s1.issued == s.issued && s1.tradeSeq == s.tradeSeq;
      }
      MatchAllGenuine(m, s1, now, iid, inst, t, rs[1..]);
    }
  }

  lemma {:induction false} DrainKeepsTrades(s: Venue.State, frontier: Time)
    ensures Venue.DrainDue(s, frontier).tradeSeq == s.tradeSeq
    decreases |s.queue|
  {
    if s.queue != [] && s.queue[0].due <= frontier {
      DrainKeepsTrades(Venue.Pop(s), frontier);
    }
  }

  lemma ApplyGenuine(m: BrokerageModel, s: Venue.State, op: Venue.Op)
    requires Genuine(s.issued, s.tradeSeq)
    ensures var s' := Venue.Apply(m, s, op); Genuine(s'.issued, s'.tradeSeq)
  {
    match op
    case Submit(now, view, o) =>
      if o.inst in view.instruments {
        GenuineGrows(s.issued, s.tradeSeq,
            Venue.Scheduled(Later(now, m.submitLatency), s.seqNo + 1, Report.Accepted(o.id, s.venueSeq + 1)));
      }
    case Cancel(now, c) =>
      GenuineGrows(s.issued, s.tradeSeq, Venue.Scheduled(Later(now, m.cancelLatency), s.seqNo + 1, Report.Canceled(c)));
    case Match(now, view, ev) =>
      if ev.inst in view.instruments && TickOf(ev).Some? {
        MatchAllGenuine(m, s.(resting := []), now, ev.inst, view.instruments[ev.inst], TickOf(ev).value, s.resting);
      }
    case Drain(_, frontier) =>
      DrainKeeps(s, frontier);
      DrainKeepsTrades(s, frontier);
  }

  lemma {:induction false} RunGenuine(m: BrokerageModel, ops: seq<Venue.Op>)
    ensures Genuine(Venue.Run(m, ops).issued, Venue.Run(m, ops).tradeSeq)
  {
    if ops != [] {
      RunGenuine(m, ops[..|ops| - 1]);
      ApplyGenuine(m, Venue.Run(m, ops[..|ops| - 1]), ops[|ops| - 1]);
    }
  }

  // --- the relation -------------------------------------------------------------------------

  /** How the tracked order stands after the reports `items` were delivered for it. */
  ghost predicate Fits(t: Oms.Tracked, items: seq<Item>) {
    var done := LifeLaws.Executed(items);
    if items == [] then t.status.Submitted? && t.filled == 0 else
      match t.status
      case Accepted => t.filled == done == 0 && !LifeLaws.Canceled(items)
      case PartiallyFilled => 0 < t.filled == done < t.order.quantity && !LifeLaws.Canceled(items)
      case Filled => 0 < t.filled == done == t.order.quantity && !LifeLaws.Canceled(items)
      case PendingCancel => t.filled <= done && !LifeLaws.Canceled(items)
      case Canceled => t.filled <= done && LifeLaws.Canceled(items)
      case _ => false
  }

  /** The reports of `id` folded so far. */
  function FoldedItems(k: State, id: OrderId): seq<Item>
    requires k.applied <= |k.venue.delivered|
  {
    Items(k.venue.delivered[..k.applied], id)
  }

  ghost predicate Agrees(k: State, id: OrderId)
    requires k.applied <= |k.venue.delivered|
  {
    LifeLaws.Accepted(k.log, id).Some? ==>
      && id in k.oms.orders && k.oms.orders[id].order == LifeLaws.Accepted(k.log, id).value
      && Fits(k.oms.orders[id], FoldedItems(k, id))
  }

  predicate Carries(x: Venue.Scheduled, trade: nat) { x.report.Filled? && x.report.fill.trade == trade }

  ghost predicate SeenIsFolded(k: State)
    requires k.applied <= |k.venue.delivered|
  {
    forall t :: t in k.oms.seen ==> exists i :: 0 <= i < k.applied && Carries(k.venue.delivered[i], t)
  }

  ghost predicate Agreed(k: State) {
    k.applied <= |k.venue.delivered| && SeenIsFolded(k) && forall id :: Agrees(k, id)
  }

  // --- a delivered report against the law of the order's life -----------------------------------

  lemma {:induction false} ExecutedPrefix(all: seq<Item>, n: nat)
    requires n <= |all|
    ensures LifeLaws.Executed(all[..n]) <= LifeLaws.Executed(all)
    decreases |all|
  {
    if n < |all| {
      assert all[..|all| - 1][..n] == all[..n];
      ExecutedPrefix(all[..|all| - 1], n);
    } else {
      assert all[..n] == all;
    }
  }

  /** What a nonempty prefix of a lawful life looks like. */
  ghost predicate Plausible(items: seq<Item>, quantity: nat) {
    && LifeLaws.Protocol(items) && LifeLaws.Executed(items) <= quantity
    && (LifeLaws.Canceled(items) ==> LifeLaws.Executed(items) < quantity || quantity == 0)
  }

  lemma PrefixPlausible(l: Life, o: Order, items: seq<Item>)
    requires LifeLaws.Lawful(l, o) && items <= l.items && items != []
    ensures Plausible(items, o.quantity)
  {
    ExecutedPrefix(l.items, |items|);
    assert items == l.items[..|items|];
    if LifeLaws.Canceled(items) {
      assert items[|items| - 1] == l.items[|items| - 1];
      assert items == l.items;
    }
  }

  lemma DeliveredPlausible(m: BrokerageModel, log: seq<Venue.Op>, id: OrderId, n: nat)
    requires Venue.Timed(log) && Venue.Fresh(log) && m.submitLatency <= m.cancelLatency
    requires n <= |Venue.Run(m, log).delivered|
    ensures var items := Items(Venue.Run(m, log).delivered[..n], id);
      && (LifeLaws.Accepted(log, id).None? ==> items == [])
      && (items != [] ==>
            LifeLaws.Accepted(log, id).Some? && Plausible(items, LifeLaws.Accepted(log, id).value.quantity))
  {
    var xs := Venue.Run(m, log).delivered;
    Delivery.DeliveredIsPrefix(m, log, id);
    Delivery.ItemsAppend(xs[..n], xs[n..], id);
    assert xs[..n] + xs[n..] == xs;
    LifeLaws.LifeLawful(m, log, id);
    if Items(xs[..n], id) != [] {
      PrefixPlausible(LifeOf(m, log, id), LifeLaws.Accepted(log, id).value, Items(xs[..n], id));
    }
  }

  /** The event the OMS offers to the FSM for a venue report. */
  function EventOf(t: Oms.Tracked, r: Report): Oms.OrderEvent {
    match r
    case Accepted(_, v) => Oms.EvAccepted(v)
    case Filled(f) => if f.qty >= t.Leaves() then Oms.EvFilled(f) else Oms.EvPartiallyFilled(f)
    case Canceled(_) => Oms.EvCanceled
    case _ => Oms.EvInitialized
  }

  /** One more delivered report: the FSM takes it unless it is a fill and a cancel is pending, and
      the order still fits. */
  lemma ReportFits(t: Oms.Tracked, items: seq<Item>, x: Venue.Scheduled)
    requires x.report.Accepted? || x.report.Filled? || x.report.Canceled?
    requires x.report.Filled? ==> x.report.fill.qty > 0
    requires Fits(t, items) && Plausible(items + [ItemOf(x)], t.order.quantity)
    ensures var t' := Oms.Transition(t, EventOf(t, x.report));
      && (t'.None? <==> x.report.Filled? && t.status.PendingCancel?)
      && Fits(if t'.Some? then t'.value else t, items + [ItemOf(x)])
      && (t'.Some? ==> t'.value.order == t.order)
  {
    var items' := items + [ItemOf(x)];
    LifeLaws.ExecutedSnoc(items, ItemOf(x));
    assert items'[|items|] == ItemOf(x);
    if items != [] {
      assert items'[|items| - 1] == items[|items| - 1];
    }
  }

  // --- the steps ----------------------------------------------------------------------------

  lemma AcceptedSnoc(log: seq<Venue.Op>, op: Venue.Op, id: OrderId)
    ensures LifeLaws.Accepted(log + [op], id) == if Venue.Submits(op, id) then Some(op.order)
        else LifeLaws.Accepted(log, id)
  {
    assert (log + [op])[..|log|] == log;
  }

  /** The report about to be folded is genuine and its trade, if any, is new. */
  lemma NextReportIsNew(c: Config, k: State)
    requires Safe(c, k) && Agreed(k) && k.applied < |k.venue.delivered|
    ensures var r := k.venue.delivered[k.applied].report;
      && (r.Accepted? || r.Filled? || r.Canceled?)
      && (r.Filled? ==> r.fill.qty > 0 && r.fill.trade !in k.oms.seen)
  {
    var s := k.venue;
    var x := s.delivered[k.applied];
    RunGenuine(c.model, k.log);
    Delivery.DeliveryOrder(c.model, k.log);
    DeliveredIssued(c.model, k.log);
    if x.report.Filled? {
      forall i | 0 <= i < k.applied && s.delivered[i].report.Filled?
        ensures s.delivered[i].report.fill.trade != x.report.fill.trade
      {
        assert Venue.Earlier(s.delivered[i], x);
        assert s.delivered[i] in s.delivered;
      }
    }
  }

  lemma DeliveredIssued(m: BrokerageModel, log: seq<Venue.Op>)
    requires Venue.Timed(log) && Venue.Fresh(log)
    ensures forall x :: x in Venue.Run(m, log).delivered ==> x in Venue.Run(m, log).issued
  {
    Delivery.RunPunctual(m, log);
    assert forall x :: x in Venue.Run(m, log).delivered ==> x in Delivery.Agenda(Venue.Run(m, log));
  }

  /** Folding a genuine, new report offers exactly its event to the order. */
  lemma FoldedOrder(insts: Oms.Instruments, o: Oms.State, r: Report)
    requires (r.Accepted? || r.Filled? || r.Canceled?) && (r.Filled? ==> r.fill.trade !in o.seen)
        && r.Order() in o.orders
    ensures var o', t := Oms.ApplyReport(insts, o, r).oms, o.orders[r.Order()];
      var t' := Oms.Transition(t, EventOf(t, r));
      && o'.orders == o.orders[r.Order() := if t'.Some? then t'.value else t]
      && (Oms.ApplyReport(insts, o, r).events == [] <==> t'.None?)
  {
  }

  lemma UntrackedKeepsOrders(insts: Oms.Instruments, o: Oms.State, r: Report)
    requires r.Order() !in o.orders
    ensures Oms.ApplyReport(insts, o, r).oms.orders == o.orders
  {
  }

  /** The orders after folding the next report. */
  lemma FoldedOrders(c: Config, k: State)
    requires Safe(c, k) && Agreed(k) && k.applied < |k.venue.delivered|
    ensures var r := k.venue.delivered[k.applied].report;
      var o' := Oms.ApplyReport(k.view.instruments, k.oms, r).oms;
      && (forall id :: id != r.Order() && id in k.oms.orders ==> id in o'.orders && o'.orders[id] == k.oms.orders[id])
      && (r.Order() in k.oms.orders ==>
            var t := k.oms.orders[r.Order()]; var t' := Oms.Transition(t, EventOf(t, r));
            r.Order() in o'.orders && o'.orders[r.Order()] == if t'.Some? then t'.value else t)
  {
    NextReportIsNew(c, k);
    var r := k.venue.delivered[k.applied].report;
    if r.Order() in k.oms.orders {
      FoldedOrder(k.view.instruments, k.oms, r);
    } else {
      UntrackedKeepsOrders(k.view.instruments, k.oms, r);
    }
  }

  /** The order the next report is about still fits once the report is folded. */
  lemma OwnReportFits(c: Config, k: State, id: OrderId)
    requires Safe(c, k) && Agreed(k) && c.model.submitLatency <= c.model.cancelLatency
        && k.applied < |k.venue.delivered|
    requires k.venue.delivered[k.applied].report.Order() == id && LifeLaws.Accepted(k.log, id).Some?
    ensures var r, t := k.venue.delivered[k.applied].report, k.oms.orders[id];
      var t' := Oms.Transition(t, EventOf(t, r));
      && (t'.None? <==> r.Filled? && t.status.PendingCancel?)
      && Fits(if t'.Some? then t'.value else t, Items(k.venue.delivered[..k.applied + 1], id))
      && (t'.Some? ==> t'.value.order == t.order)
  {
    var x, items := k.venue.delivered[k.applied], FoldedItems(k, id);
    NextReportIsNew(c, k);
    NextItems(c, k, id);
    assert Agrees(k, id);
    ReportFits(k.oms.orders[id], items, x);
  }

  lemma NextItems(c: Config, k: State, id: OrderId)
    requires Safe(c, k) && c.model.submitLatency <= c.model.cancelLatency && k.applied < |k.venue.delivered|
    requires k.venue.delivered[k.applied].report.Order() == id && LifeLaws.Accepted(k.log, id).Some?
    ensures var items := FoldedItems(k, id) + [ItemOf(k.venue.delivered[k.applied])];
      && Items(k.venue.delivered[..k.applied + 1], id) == items
      && Plausible(items, LifeLaws.Accepted(k.log, id).value.quantity)
  {
    var x, before := k.venue.delivered[k.applied], k.venue.delivered[..k.applied];
    assert k.venue.delivered[..k.applied + 1] == before + [x];
    ItemsSnoc(before, x, id);
    DeliveredPlausible(c.model, k.log, id, k.applied + 1);
  }

  lemma OtherReportFits(k: State, id: OrderId)
    requires k.applied < |k.venue.delivered| && k.venue.delivered[k.applied].report.Order() != id
    ensures Items(k.venue.delivered[..k.applied + 1], id) == FoldedItems(k, id)
  {
    var x, before := k.venue.delivered[k.applied], k.venue.delivered[..k.applied];
    assert k.venue.delivered[..k.applied + 1] == before + [x];
    ItemsSnoc(before, x, id);
  }

  lemma FoldedAgrees(c: Config, k: State, id: OrderId)
    requires Safe(c, k) && Agreed(k) && c.model.submitLatency <= c.model.cancelLatency
        && k.applied < |k.venue.delivered|
    ensures Agrees(KernelSteps.FoldNext(k), id)
  {
    FoldedOrders(c, k);
    assert Agrees(k, id);
    if LifeLaws.Accepted(k.log, id).Some? {
      if k.venue.delivered[k.applied].report.Order() == id {
        OwnReportFits(c, k, id);
      } else {
        OtherReportFits(k, id);
      }
    }
  }

  lemma FoldedSeen(k: State)
    requires Agreed(k) && k.applied < |k.venue.delivered|
    ensures SeenIsFolded(KernelSteps.FoldNext(k))
  {
    var k' := KernelSteps.FoldNext(k);
    var r := k.venue.delivered[k.applied].report;
    Oms.ReportKeeps(k.view.instruments, k.oms, r);
    forall t | t in k'.oms.seen
      ensures exists i :: 0 <= i < k'.applied && Carries(k'.venue.delivered[i], t)
    {
      if t in k.oms.seen {
        var i :| 0 <= i < k.applied && Carries(k.venue.delivered[i], t);
        assert Carries(k'.venue.delivered[i], t);
      } else {
        assert Carries(k'.venue.delivered[k.applied], t);
      }
    }
  }

  /** Steps that fold nothing: the folded reports stay, and orders change only as stated. */
  lemma QuietAgrees(k: State, k': State)
    requires Agreed(k) && k'.applied == k.applied && k.venue.delivered <= k'.venue.delivered
        && k'.oms.seen == k.oms.seen
    requires forall id :: LifeLaws.Accepted(k'.log, id) == LifeLaws.Accepted(k.log, id)
    requires forall id :: id in k.oms.orders && LifeLaws.Accepted(k.log, id).Some? ==>
      id in k'.oms.orders && k'.oms.orders[id].order == k.oms.orders[id].order &&
      (Fits(k.oms.orders[id], FoldedItems(k, id)) ==> Fits(k'.oms.orders[id], FoldedItems(k, id)))
    ensures Agreed(k')
  {
    assert k'.venue.delivered[..k'.applied] == k.venue.delivered[..k.applied];
    forall id
      ensures Agrees(k', id)
    {
      assert Agrees(k, id);
    }
  }

  lemma RoutedAgrees(c: Config, es: seq<Event>, k: State, k': State, order: Order)
    requires Safe(c, k) && Agreed(k) && c.model.submitLatency <= c.model.cancelLatency
    requires KernelSteps.Takes(c, es, k, KernelSteps.Step.Routed(order), k')
    ensures Agreed(k')
  {
    var op := Venue.Submit(k.clock.now, k.view, order);
    assert k'.log == k.log + [op] && k'.venue.delivered == k.venue.delivered && k'.oms.seen == k.oms.seen;
    assert k'.oms.orders == k.oms.orders[order.id := Oms.Tracked(order, Oms.Status.Submitted, 0)];
    DeliveredPlausible(c.model, k.log, order.id, k.applied);
    forall id
      ensures Agrees(k', id)
    {
      AcceptedSnoc(k.log, op, id);
      assert Agrees(k, id);
    }
  }

  lemma CancelAgrees(c: Config, es: seq<Event>, k: State, k': State, id: OrderId)
    requires Agreed(k) && KernelSteps.Takes(c, es, k, KernelSteps.CancelAsked(id), k')
    ensures Agreed(k')
  {
    hide Venue.Apply, LifeLaws.Accepted, Agreed;
    var op := Venue.Cancel(k.clock.now, id);
    forall i
      ensures LifeLaws.Accepted(k'.log, i) == LifeLaws.Accepted(k.log, i)
    {
      AcceptedSnoc(k.log, op, i);
    }
    QuietAgrees(k, k');
  }

  lemma OtherAgrees(k: State, k': State)
    requires Agreed(k) && k'.applied == k.applied && k.venue.delivered <= k'.venue.delivered
    requires k'.oms.seen == k.oms.seen
    requires forall id :: id in k.oms.orders ==> id in k'.oms.orders && k'.oms.orders[id] == k.oms.orders[id]
    requires k'.log == k.log || (|k'.log| == |k.log| + 1 && k'.log[..|k.log|] == k.log && !k'.log[|k.log|].Submit?)
    ensures Agreed(k')
  {
    forall id
      ensures LifeLaws.Accepted(k'.log, id) == LifeLaws.Accepted(k.log, id)
    {
    }
    QuietAgrees(k, k');
  }

  lemma StepAgrees(c: Config, es: seq<Event>, k: State, s: KernelSteps.Step, k': State)
    requires Safe(c, k) && Agreed(k) && c.model.submitLatency <= c.model.cancelLatency
    requires KernelSteps.Takes(c, es, k, s, k')
    ensures Agreed(k')
  {
    hide Venue.Apply, Oms.ApplyReport;
    match s
    case Routed(order) => RoutedAgrees(c, es, k, k', order);
    case CancelAsked(id) => CancelAgrees(c, es, k, k', id);
    case Folded =>
      FoldedSeen(k);
      forall id
        ensures Agrees(k', id)
      {
        FoldedAgrees(c, k, id);
      }
    case Matched =>
      assert k'.log[..|k.log|] == k.log && k'.venue.delivered == k.venue.delivered;
      OtherAgrees(k, k');
    case Drained(frontier) =>
      assert k'.log[..|k.log|] == k.log;
      OtherAgrees(k, k');
    case _ => OtherAgrees(k, k');
  }

  ghost predicate Accordant(c: Config, es: seq<Event>, k: State) { Sound(c, es, k) && Agreed(k) }

  lemma StepsAccord(c: Config, es: seq<Event>)
    requires c.model.submitLatency <= c.model.cancelLatency
    ensures KernelSteps.Kept(c, es, k => Accordant(c, es, k))
  {
    var inv := k => Accordant(c, es, k);
    forall k, s, k' | inv(k) && KernelSteps.Takes(c, es, k, s, k')
      ensures inv(k')
    {
      StepSound(c, es, k, s, k');
      StepAgrees(c, es, k, s, k');
    }
  }

  lemma ReachableAgreed(c: Config, es: seq<Event>, start: Time, insts: Oms.Instruments, n: nat)
    requires c.model.submitLatency <= c.model.cancelLatency
    ensures var k := After(c, es, Initial(start, insts), n); Accordant(c, es, k) && Caught(k)
  {
    var k0 := Initial(start, insts);
    assert Accordant(c, es, k0);
    hide After, Accordant;
    StepsAccord(c, es);
    KernelSteps.RunKeeps(c, es, k => Accordant(c, es, k), k0, n);
  }

  // --- the states in the middle of a delivery ---------------------------------------------------

  /** The kernel once the reports due at its frontier have left the venue, and those reports. */
  function Opened(c: Config, k: State, f: Time): State {
    Do(c, k.(clock := Clock.AdvanceTo(k.clock, f)), Venue.Drain(Clock.AdvanceTo(k.clock, f).now, f))
  }

  function DueReports(c: Config, k: State, f: Time): seq<Venue.Scheduled> {
    Opened(c, k, f).venue.delivered[|k.venue.delivered|..]
  }

  /** The kernel when `i` of them have been folded and the strategy has heard of each. */
  function Folding(c: Config, k: State, f: Time, i: nat): (k': State)
    requires i <= |DueReports(c, k, f)|
    ensures k'.venue == Opened(c, k, f).venue && k'.applied == k.applied + i
  {
    Deliver(c, Opened(c, k, f), DueReports(c, k, f)[..i])
  }

  lemma {:induction false} DeliverSnoc(c: Config, k: State, xs: seq<Venue.Scheduled>, x: Venue.Scheduled)
    ensures Deliver(c, k, xs + [x]) == DeliverOne(c, Deliver(c, k, xs), x.report)
    decreases |xs|
  {
    hide DeliverOne;
    if xs == [] {
      assert [x][1..] == [];
    } else {
      assert (xs + [x])[1..] == xs[1..] + [x];
      DeliverSnoc(c, DeliverOne(c, k, xs[0].report), xs[1..], x);
    }
  }

  /** The delivery of an iteration is these states in a row: from one to the next the next due report
      is folded, and after the last the outbox is drained. */
  lemma DeliveryIsFoldings(c: Config, k: State, f: Time, i: nat)
    requires i <= |DueReports(c, k, f)|
    ensures var xs := DueReports(c, k, f);
      && (i < |xs| ==> Folding(c, k, f, i + 1) == DeliverOne(c, Folding(c, k, f, i), xs[i].report))
      && DrainReports(c, k.(clock := Clock.AdvanceTo(k.clock, f)), f) == ProcessOutbox(c, Folding(c, k, f, |xs|))
  {
    hide DeliverOne, ProcessOutbox, Deliver, Do;
    var xs := DueReports(c, k, f);
    assert xs[..|xs|] == xs;
    if i < |xs| {
      assert xs[..i + 1] == xs[..i] + [xs[i]];
      DeliverSnoc(c, Opened(c, k, f), xs[..i], xs[i]);
    }
  }

  lemma FoldingAccordant(c: Config, es: seq<Event>, k: State, f: Time, i: nat)
    requires Accordant(c, es, k) && Caught(k) && c.model.submitLatency <= c.model.cancelLatency
    requires i <= |DueReports(c, k, f)|
    ensures Accordant(c, es, Folding(c, k, f, i))
  {
    hide Accordant, Deliver;
    var inv, k0, k1 := k => Accordant(c, es, k), k.(clock := Clock.AdvanceTo(k.clock, f)), Opened(c, k, f);
    StepsAccord(c, es);
    assert KernelSteps.Takes(c, es, k, KernelSteps.Advanced(f), k0);
    assert KernelSteps.Takes(c, es, k0, KernelSteps.Drained(f), k1);
    KernelSteps.DeliverKeeps(c, es, inv, k1, DueReports(c, k, f)[..i]);
  }

  // --- the theorems -------------------------------------------------------------------------

  /** In every kernel run, every order the venue accepted is tracked, and its status and filled
      quantity are those of the reports delivered for it; unless a cancel was requested after its
      acknowledgement the OMS has booked exactly what the venue delivered. */
  lemma OmsTracksVenue(c: Config, es: seq<Event>, start: Time, insts: Oms.Instruments, n: nat, id: OrderId)
    requires c.model.submitLatency <= c.model.cancelLatency
    requires LifeLaws.Accepted(After(c, es, Initial(start, insts), n).log, id).Some?
    ensures var k := After(c, es, Initial(start, insts), n); var items := Items(k.venue.delivered, id);
      && id in k.oms.orders && Fits(k.oms.orders[id], items)
      && (!k.oms.orders[id].status.PendingCancel? && !k.oms.orders[id].status.Canceled? ==>
            k.oms.orders[id].filled == LifeLaws.Executed(items))
  {
    hide After;
    ReachableAgreed(c, es, start, insts, n);
    var k := After(c, es, Initial(start, insts), n);
    assert k.venue.delivered[..k.applied] == k.venue.delivered;
    assert Agrees(k, id);
    FitsMeans(k.oms.orders[id], Items(k.venue.delivered, id));
  }

  lemma FitsMeans(t: Oms.Tracked, items: seq<Item>)
    requires Fits(t, items)
    ensures !t.status.PendingCancel? && !t.status.Canceled? ==> t.filled == LifeLaws.Executed(items)
  {
  }

  lemma NextFillDropped(c: Config, es: seq<Event>, k: State)
    requires Accordant(c, es, k) && c.model.submitLatency <= c.model.cancelLatency
    requires k.applied < |k.venue.delivered| && k.venue.delivered[k.applied].report.Filled?
    ensures var f := k.venue.delivered[k.applied].report.fill;
      && f.order in k.oms.orders
      && (Oms.ApplyFill(k.view.instruments, k.oms, f).events == [] <==> k.oms.orders[f.order].status.PendingCancel?)
  {
    hide Oms.Transition, Oms.Settle, SeenIsFolded, Venue.Run;
    var x := k.venue.delivered[k.applied];
    var id := x.report.fill.order;
    NextReportIsNew(c, k);
    DeliveredPlausible(c.model, k.log, id, k.applied + 1);
    assert k.venue.delivered[..k.applied + 1] == k.venue.delivered[..k.applied] + [x];
    ItemsSnoc(k.venue.delivered[..k.applied], x, id);
    assert Agrees(k, id);
    OwnReportFits(c, k, id);
    FoldedOrder(k.view.instruments, k.oms, x.report);
  }

  /** In every iteration of every kernel run: when the `i`-th due report is a fill, the OMS, in the
      state in which it folds it, drops it exactly when a cancel of its order is pending. */
  lemma FillDroppedIffCancelPending(c: Config, es: seq<Event>, start: Time, insts: Oms.Instruments, n: nat, i: nat)
    requires c.model.submitLatency <= c.model.cancelLatency
    requires var k := After(c, es, Initial(start, insts), n);
      && Frontier(c, es, k).Some? && i < |DueReports(c, k, Frontier(c, es, k).value)|
      && DueReports(c, k, Frontier(c, es, k).value)[i].report.Filled?
    ensures var k := After(c, es, Initial(start, insts), n); var f := Frontier(c, es, k).value;
      var mid, fill := Folding(c, k, f, i), DueReports(c, k, f)[i].report.fill;
      && fill.order in mid.oms.orders
      && (Oms.ApplyFill(mid.view.instruments, mid.oms, fill).events == []
          <==> mid.oms.orders[fill.order].status.PendingCancel?)
  {
    hide After, Frontier, Accordant, Folding, Oms.ApplyFill;
    var k := After(c, es, Initial(start, insts), n);
    var f := Frontier(c, es, k).value;
    ReachableAgreed(c, es, start, insts, n);
    FoldingAccordant(c, es, k, f, i);
    var mid := Folding(c, k, f, i);
    assert mid.venue.delivered[mid.applied] == DueReports(c, k, f)[i];
    NextFillDropped(c, es, mid);
  }
}
