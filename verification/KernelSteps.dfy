/** An induction principle for kernel runs: the loop is made of ten kinds of small steps, so a
    predicate that every small step keeps holds in every reachable state. */
module KernelSteps {
  import opened Domain
  import Venue
  import Clock
  import Oms
  import OmsRuns
  import opened Kernel

  datatype Step =
    | Heard(input: Input)        // a handler other than the market handlers ran
    | Filed                      // counters, outbox, expiry cursor or equity curve changed
    | Routed(order: Order)       // an order passed every check and reached the venue
    | Refused(order: Order)      // an order was denied
    | CancelAsked(id: OrderId)
    | Drained(frontier: Time)
    | Folded                     // the next delivered report was applied
    | Popped(frontier: Time)
    | Advanced(frontier: Time)
    | Closed(id: InstrumentId, px: Price, ts: Time)
    | Matched                    // the next market event was matched, then shown to the strategy

  function File(k: State, k': State): State {
    k.(outbox := k'.outbox, submitted := k'.submitted, denied := k'.denied, curve := k'.curve,
       expiryCursor := k'.expiryCursor)
  }

  ghost predicate Takes(c: Config, events: seq<Event>, k: State, s: Step, k': State) {
    match s
    case Heard(input) => !input.Market? && k' == Notify(c, k, input)
    case Filed => k' == File(k, k')
    case Routed(order) =>
      Judge(c, k, order).Routed? &&
      k' == Do(c, Passed(k, order, Judge(c, k, order).oms), Venue.Submit(k.clock.now, k.view, order))
    case Refused(order) => Judge(c, k, order).Refused? && k' == Denied(k, order, Judge(c, k, order).oms)
    case CancelAsked(id) =>
      k' == Do(c, Called(k, Oms.Fire(k.oms, id, Oms.EvPendingCancel).oms, OmsRuns.Cancel(id)),
          Venue.Cancel(k.clock.now, id))
    case Drained(frontier) => frontier <= k.clock.now && k' == Do(c, k, Venue.Drain(k.clock.now, frontier))
    case Folded => k.applied < |k.venue.delivered| && k' == FoldNext(k)
    case Popped(frontier) => k' == k.(clock := Clock.PopDue(k.clock, frontier).c)
    case Advanced(frontier) => k' == k.(clock := Clock.AdvanceTo(k.clock, frontier))
    case Closed(id, px, ts) =>
      OmsRuns.Open(k.view.instruments, k.oms, id) && k' == Flattened(k, id, px, ts)
    case Matched => k.cursor < |events| && k' == Show(c, k, events[k.cursor])
  }

  function FoldNext(k: State): State
    requires k.applied < |k.venue.delivered|
  {
    FoldReport(k, k.venue.delivered[k.applied].report)
  }

  function Show(c: Config, k: State, ev: Event): State {
    var k1 := k.(cursor := k.cursor + 1, view := k.view.Observe(ev));
    Notify(c, Do(c, k1, Venue.Match(k1.clock.now, k1.view, ev)), Input.Market(ev))
  }

  /** Every small step keeps the predicate. */
  ghost predicate Kept(c: Config, events: seq<Event>, inv: State -> bool) {
    forall k, s, k' :: inv(k) && Takes(c, events, k, s, k') ==> inv(k')
  }

  // --- from small steps to iterations ---------------------------------------------------------

  lemma NotifyKeeps(c: Config, es: seq<Event>, inv: State -> bool, k: State, input: Input)
    requires Kept(c, es, inv) && inv(k) && !input.Market?
    ensures inv(Notify(c, k, input))
  {
    assert Takes(c, es, k, Heard(input), Notify(c, k, input));
  }

  lemma FileKeeps(c: Config, es: seq<Event>, inv: State -> bool, k: State, k': State)
    requires Kept(c, es, inv) && inv(k) && k' == File(k, k')
    ensures inv(k')
  {
    assert Takes(c, es, k, Filed, k');
  }

  lemma NotifyEventKeeps(c: Config, es: seq<Event>, inv: State -> bool, k: State, ev: Oms.OrderEvent)
    requires Kept(c, es, inv) && inv(k)
    ensures inv(NotifyEvent(c, k, ev))
  {
    if ev.IsFill() {
      NotifyKeeps(c, es, inv, k, OrderFilled(ev.fill));
      NotifyKeeps(c, es, inv, Notify(c, k, OrderFilled(ev.fill)), OrderUpdate(ev));
    } else {
      NotifyKeeps(c, es, inv, k, OrderUpdate(ev));
    }
  }

  lemma {:induction false} NotifyEventsKeeps(c: Config, es: seq<Event>, inv: State -> bool, k: State,
      evs: seq<Oms.OrderEvent>)
    requires Kept(c, es, inv) && inv(k)
    ensures inv(NotifyEvents(c, k, evs))
    decreases |evs|
  {
    if evs != [] {
      NotifyEventKeeps(c, es, inv, k, evs[0]);
      NotifyEventsKeeps(c, es, inv, NotifyEvent(c, k, evs[0]), evs[1..]);
    }
  }

  lemma SubmitKeeps(c: Config, es: seq<Event>, inv: State -> bool, k: State, order: Order)
    requires Kept(c, es, inv) && inv(k)
    ensures inv(SubmitOrder(c, k, order))
  {
    var k1 := k.(submitted := k.submitted + 1);
    FileKeeps(c, es, inv, k, k1);
    assert Judge(c, k1, order) == Judge(c, k, order);
    match Judge(c, k, order)
    case Ignored =>
    case Refused(o) =>
      var k2 := Denied(k1, order, o);
      assert Takes(c, es, k1, Step.Refused(order), k2);
      var k3 := k2.(denied := k.denied + 1);
      FileKeeps(c, es, inv, k2, k3);
      NotifyEventKeeps(c, es, inv, k3, Oms.EvDenied);
    case Routed(o) =>
      var k2 := Do(c, Passed(k1, order, o), Venue.Submit(k.clock.now, k.view, order));
      assert Takes(c, es, k1, Step.Routed(order), k2);
      NotifyEventKeeps(c, es, inv, k2, Oms.EvSubmitted);
  }

  lemma CancelKeeps(c: Config, es: seq<Event>, inv: State -> bool, k: State, id: OrderId)
    requires Kept(c, es, inv) && inv(k)
    ensures inv(RequestCancel(c, k, id))
  {
    var out := Oms.Fire(k.oms, id, Oms.EvPendingCancel);
    var k1 := Do(c, Called(k, out.oms, OmsRuns.Cancel(id)), Venue.Cancel(k.clock.now, id));
    assert Takes(c, es, k, CancelAsked(id), k1);
    NotifyEventsKeeps(c, es, inv, k1, out.events);
  }

  lemma {:induction false} CommandsKeep(c: Config, es: seq<Event>, inv: State -> bool, k: State, cmds: seq<Command>)
    requires Kept(c, es, inv) && inv(k)
    ensures inv(ProcessCommands(c, k, cmds))
    decreases |cmds|
  {
    if cmds != [] {
      match cmds[0] {
        case Submit(order) => SubmitKeeps(c, es, inv, k, order);
        case Cancel(id) => CancelKeeps(c, es, inv, k, id);
        case Modify(_) =>
      }
      CommandsKeep(c, es, inv, ProcessCommand(c, k, cmds[0]), cmds[1..]);
    }
  }

  lemma OutboxKeeps(c: Config, es: seq<Event>, inv: State -> bool, k: State)
    requires Kept(c, es, inv) && inv(k)
    ensures inv(ProcessOutbox(c, k))
  {
    FileKeeps(c, es, inv, k, k.(outbox := []));
    CommandsKeep(c, es, inv, k.(outbox := []), k.outbox);
  }

  lemma DeliverOneKeeps(c: Config, es: seq<Event>, inv: State -> bool, k: State)
    requires Kept(c, es, inv) && inv(k) && k.applied < |k.venue.delivered|
    ensures inv(DeliverOne(c, k, k.venue.delivered[k.applied].report))
  {
    var r := k.venue.delivered[k.applied].report;
    assert Takes(c, es, k, Folded, FoldReport(k, r));
    NotifyEventsKeeps(c, es, inv, FoldReport(k, r), Oms.ApplyReport(k.view.instruments, k.oms, r).events);
  }

  lemma {:induction false} DeliverKeeps(c: Config, es: seq<Event>, inv: State -> bool, k: State,
      xs: seq<Venue.Scheduled>)
    requires Kept(c, es, inv) && inv(k) && k.applied <= |k.venue.delivered| && xs <= k.venue.delivered[k.applied..]
    ensures inv(Deliver(c, k, xs))
    decreases |xs|
  {
    if xs != [] {
      DeliverOneKeeps(c, es, inv, k);
      DeliverKeeps(c, es, inv, DeliverOne(c, k, xs[0].report), xs[1..]);
    }
  }

  lemma DrainReportsKeeps(c: Config, es: seq<Event>, inv: State -> bool, k: State, f: Time)
    requires Kept(c, es, inv) && inv(k) && Caught(k) && f <= k.clock.now
    ensures inv(DrainReports(c, k, f))
  {
    var k1 := Do(c, k, Venue.Drain(k.clock.now, f));
    assert Takes(c, es, k, Drained(f), k1);
    var xs := k1.venue.delivered[|k.venue.delivered|..];
    DeliverKeeps(c, es, inv, k1, xs);
    OutboxKeeps(c, es, inv, Deliver(c, k1, xs));
  }

  lemma {:induction false} FireTimersKeeps(c: Config, es: seq<Event>, inv: State -> bool, k: State,
      ts: seq<Clock.Timer>)
    requires Kept(c, es, inv) && inv(k)
    ensures inv(FireTimers(c, k, ts))
    decreases |ts|
  {
    if ts != [] {
      var k1 := Notify(c, k, Input.Timer(ts[0]));
      NotifyKeeps(c, es, inv, k, Input.Timer(ts[0]));
      OutboxKeeps(c, es, inv, k1);
      FireTimersKeeps(c, es, inv, ProcessOutbox(c, k1), ts[1..]);
    }
  }

  lemma PopTimersKeeps(c: Config, es: seq<Event>, inv: State -> bool, k: State, f: Time)
    requires Kept(c, es, inv) && inv(k)
    ensures inv(PopTimers(c, k, f))
  {
    var p := Clock.PopDue(k.clock, f);
    assert Takes(c, es, k, Popped(f), k.(clock := p.c));
    FireTimersKeeps(c, es, inv, k.(clock := p.c), p.fired);
  }

  lemma CloseKeeps(c: Config, es: seq<Event>, inv: State -> bool, k: State, id: InstrumentId, px: Price, ts: Time,
      cause: Cause)
    requires Kept(c, es, inv) && inv(k)
    ensures inv(ClosePosition(c, k, id, px, ts, cause))
  {
    if OmsRuns.Open(k.view.instruments, k.oms, id) {
      var fill := OmsRuns.Closing(k.oms, id, px, ts);
      var close := Close(id, fill.side, fill.qty, px, cause);
      var k1 := Flattened(k, id, px, ts);
      assert Takes(c, es, k, Closed(id, px, ts), k1);
      NotifyKeeps(c, es, inv, k1, CloseFilled(close));
      var k2 := Notify(c, k1, CloseFilled(close));
      NotifyKeeps(c, es, inv, k2, CloseUpdate(close));
      OutboxKeeps(c, es, inv, Notify(c, k2, CloseUpdate(close)));
    }
  }

  lemma {:induction false} CancelAllKeeps(c: Config, es: seq<Event>, inv: State -> bool, k: State, ids: seq<OrderId>)
    requires Kept(c, es, inv) && inv(k)
    ensures inv(CancelAll(c, k, ids))
    decreases |ids|
  {
    if ids != [] {
      CancelKeeps(c, es, inv, k, ids[0]);
      CancelAllKeeps(c, es, inv, RequestCancel(c, k, ids[0]), ids[1..]);
    }
  }

  lemma SettleContractKeeps(c: Config, es: seq<Event>, inv: State -> bool, k: State, id: InstrumentId, f: Time)
    requires Kept(c, es, inv) && inv(k)
    ensures inv(SettleContract(c, k, id, f))
  {
    if id in k.view.instruments {
      var px := c.settlePx(id, k.view);
      var k1 := if px.Some? then ClosePosition(c, k, id, px.value, f, Settlement) else k;
      if px.Some? {
        CloseKeeps(c, es, inv, k, id, px.value, f, Settlement);
      }
      CancelAllKeeps(c, es, inv, k1, OpenOrders(k1.oms, k1.oms.ids, id));
    }
  }

  lemma {:induction false} SettleExpiriesKeeps(c: Config, es: seq<Event>, inv: State -> bool, k: State, f: Time)
    requires Kept(c, es, inv) && inv(k)
    ensures inv(SettleExpiries(c, k, f))
    decreases if k.expiryCursor < |c.expiries| then |c.expiries| - k.expiryCursor else 0
  {
    hide SettleContract;
    if k.expiryCursor < |c.expiries| && c.expiries[k.expiryCursor].0 <= f {
      var k0, id := k.(expiryCursor := k.expiryCursor + 1), c.expiries[k.expiryCursor].1;
      FileKeeps(c, es, inv, k, k0);
      SettleContractKeeps(c, es, inv, k0, id, f);
      SettleExpiriesKeeps(c, es, inv, SettleContract(c, k0, id, f), f);
    }
  }

  lemma {:induction false} LiquidateKeeps(c: Config, es: seq<Event>, inv: State -> bool, k: State,
      ids: seq<InstrumentId>, f: Time)
    requires Kept(c, es, inv) && inv(k)
    ensures inv(Liquidate(c, k, ids, f))
    decreases |ids|
  {
    if ids != [] {
      var k1 := if ids[0] in k.view.marks
                then ClosePosition(c, k, ids[0], k.view.marks[ids[0]], f, Liquidation) else k;
      if ids[0] in k.view.marks {
        CloseKeeps(c, es, inv, k, ids[0], k.view.marks[ids[0]], f, Liquidation);
      }
      LiquidateKeeps(c, es, inv, k1, ids[1..], f);
    }
  }

  lemma ConsumeKeeps(c: Config, es: seq<Event>, inv: State -> bool, k: State, f: Time)
    requires Kept(c, es, inv) && inv(k) && k.cursor < |es|
    ensures inv(ConsumeEvent(c, k, es[k.cursor], f))
  {
    var ev := es[k.cursor];
    var k1 := Show(c, k, ev);
    assert Takes(c, es, k, Matched, k1);
    OutboxKeeps(c, es, inv, k1);
    assert MatchEvent(c, k, ev) == ProcessOutbox(c, k1);
    FileKeeps(c, es, inv, MatchEvent(c, k, ev), ConsumeEvent(c, k, ev, f));
  }

  lemma IterateKeeps(c: Config, es: seq<Event>, inv: State -> bool, k: State, f: Time)
    requires Kept(c, es, inv) && inv(k) && Caught(k)
    ensures inv(Iterate(c, es, k, f)) && Caught(Iterate(c, es, k, f))
  {
    hide SettleExpiries, DrainReports, PopTimers, Liquidate;
    var k0 := k.(clock := Clock.AdvanceTo(k.clock, f));
    assert Takes(c, es, k, Advanced(f), k0);
    DrainReportsKeeps(c, es, inv, k0, f);
    var k1 := DrainReports(c, k0, f);
    PopTimersKeeps(c, es, inv, k1, f);
    var k2 := PopTimers(c, k1, f);
    var k3 := if NextMarket(es, k) == Some(f) then ConsumeEvent(c, k2, es[k2.cursor], f) else k2;
    if NextMarket(es, k) == Some(f) {
      ConsumeKeeps(c, es, inv, k2, f);
    }
    SettleExpiriesKeeps(c, es, inv, k3, f);
    var k4 := SettleExpiries(c, k3, f);
    if c.liquidates(k4.oms, k4.view) {
      LiquidateKeeps(c, es, inv, k4, OpenPositions(k4.oms, k4.oms.held), f);
    }
  }

  lemma NextKeeps(c: Config, es: seq<Event>, inv: State -> bool, k: State)
    requires Kept(c, es, inv) && inv(k) && Caught(k)
    ensures inv(Next(c, es, k)) && Caught(Next(c, es, k))
  {
    hide Iterate;
    if Frontier(c, es, k).Some? {
      IterateKeeps(c, es, inv, k, Frontier(c, es, k).value);
    }
  }

  lemma BeginKeeps(c: Config, es: seq<Event>, inv: State -> bool, k: State)
    requires Kept(c, es, inv) && inv(k) && Caught(k)
    ensures inv(Begin(c, k)) && Caught(Begin(c, k))
  {
    hide Notify, ProcessOutbox;
    NotifyKeeps(c, es, inv, k, Start);
    OutboxKeeps(c, es, inv, Notify(c, k, Start));
  }

  /** The induction principle. */
  lemma {:induction false} RunKeeps(c: Config, es: seq<Event>, inv: State -> bool, k: State, n: nat)
    requires Kept(c, es, inv) && inv(k) && Caught(k)
    ensures inv(After(c, es, k, n)) && Caught(After(c, es, k, n))
  {
    hide Next, Begin;
    if n == 0 {
      BeginKeeps(c, es, inv, k);
    } else {
      RunKeeps(c, es, inv, k, n - 1);
      NextKeeps(c, es, inv, After(c, es, k, n - 1));
    }
  }
}
