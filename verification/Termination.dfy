/** The backtest makes progress: every iteration carries out something the strategy asked for, or
    consumes a market event or an expiry, or shortens the queues, whatever the strategy. */
module Termination {
  import opened Domain
  import Venue
  import Clock
  import Oms
  import OmsRuns
  import opened Kernel

  function Arms(ts: seq<TimerOp>): nat {
    if ts == [] then 0 else (if ts[0].Arm? then 1 else 0) + Arms(ts[1..])
  }

  /** Commands and timers the strategy issued along a history. */
  function Issued(c: Config, h: History): nat {
    if h == [] then 0 else
      Issued(c, h[..|h| - 1]) + |c.strategy(h).commands| + Arms(c.strategy(h).timers)
  }

  /** Those of them that have been carried out: all but the commands waiting in the outbox. */
  function Done(c: Config, k: State): int { Issued(c, k.history) - |k.outbox| }

  ghost function Left(total: nat, cursor: nat): nat { if cursor < total then total - cursor else 0 }

  ghost function DataLeft(c: Config, events: seq<Event>, k: State): nat {
    Left(|events|, k.cursor) + Left(|c.expiries|, k.expiryCursor)
  }

  ghost function Queued(k: State): nat { |k.venue.queue| + |k.clock.timers| }

  /** Either something the strategy asked for was done, or nothing was queued. */
  ghost predicate Calm(c: Config, k: State, k': State) {
    || Done(c, k) < Done(c, k')
    || (Done(c, k) == Done(c, k') && |k'.venue.queue| == |k.venue.queue| && k'.clock.timers == k.clock.timers)
  }

  lemma {:induction false} TimersGrow(c: Clock.State, ts: seq<TimerOp>)
    ensures Arms(ts) == 0 ==> ApplyTimers(c, ts).timers == c.timers
    decreases |ts|
  {
    if ts != [] {
      TimersGrow(ApplyTimer(c, ts[0]), ts[1..]);
    }
  }

  lemma NotifyCalm(c: Config, k: State, input: Input)
    ensures Calm(c, k, Notify(c, k, input))
  {
    var h := k.history + [Observe(k, input)];
    TimersGrow(k.clock, c.strategy(h).timers);
    assert h[..|h| - 1] == k.history;
  }

  lemma NotifyEventCalm(c: Config, k: State, ev: Oms.OrderEvent)
    ensures Calm(c, k, NotifyEvent(c, k, ev))
  {
    var k1 := if ev.IsFill() then Notify(c, k, OrderFilled(ev.fill)) else k;
    if ev.IsFill() {
      NotifyCalm(c, k, OrderFilled(ev.fill));
    }
    NotifyCalm(c, k1, OrderUpdate(ev));
  }

  lemma {:induction false} NotifyEventsCalm(c: Config, k: State, evs: seq<Oms.OrderEvent>)
    ensures Calm(c, k, NotifyEvents(c, k, evs))
    decreases |evs|
  {
    if evs != [] {
      NotifyEventCalm(c, k, evs[0]);
      NotifyEventsCalm(c, NotifyEvent(c, k, evs[0]), evs[1..]);
    }
  }

  lemma CommandSheds(c: Config, k: State, cmd: Command)
    ensures Done(c, k) <= Done(c, ProcessCommand(c, k, cmd))
  {
    match cmd
    case Submit(order) =>
      var k1 := k.(submitted := k.submitted + 1);
      match Judge(c, k, order) {
        case Ignored =>
        case Refused(o) => NotifyEventCalm(c, Denied(k1, order, o).(denied := k.denied + 1), Oms.EvDenied);
        case Routed(o) =>
          NotifyEventCalm(c, Do(c, Passed(k1, order, o), Venue.Submit(k.clock.now, k.view, order)), Oms.EvSubmitted);
      }
    case Cancel(id) => CancelSheds(c, k, id);
    case Modify(_) =>
  }

  lemma CancelSheds(c: Config, k: State, id: OrderId)
    ensures Done(c, k) <= Done(c, RequestCancel(c, k, id))
  {
    var out := Oms.Fire(k.oms, id, Oms.EvPendingCancel);
    NotifyEventsCalm(c, Do(c, Called(k, out.oms, OmsRuns.Cancel(id)), Venue.Cancel(k.clock.now, id)), out.events);
  }

  lemma {:induction false} CommandsShed(c: Config, k: State, cmds: seq<Command>)
    ensures Done(c, k) <= Done(c, ProcessCommands(c, k, cmds))
    decreases |cmds|
  {
    if cmds != [] {
      CommandSheds(c, k, cmds[0]);
      CommandsShed(c, ProcessCommand(c, k, cmds[0]), cmds[1..]);
    }
  }

  /** Draining the outbox sheds every command in it. */
  lemma OutboxCalm(c: Config, k: State)
    ensures Calm(c, k, ProcessOutbox(c, k))
  {
    CommandsShed(c, k.(outbox := []), k.outbox);
    if k.outbox == [] {
      assert k.(outbox := []) == k;
    }
  }

  lemma {:induction false} DeliverCalm(c: Config, k: State, xs: seq<Venue.Scheduled>)
    ensures Calm(c, k, Deliver(c, k, xs))
    decreases |xs|
  {
    if xs != [] {
      var r := xs[0].report;
      NotifyEventsCalm(c, FoldReport(k, r), Oms.ApplyReport(k.view.instruments, k.oms, r).events);
      DeliverCalm(c, DeliverOne(c, k, r), xs[1..]);
    }
  }

  lemma {:induction false} DrainShrinks(s: Venue.State, frontier: Time)
    ensures |Venue.DrainDue(s, frontier).queue| <= |s.queue|
    ensures s.queue != [] && s.queue[0].due <= frontier ==> |Venue.DrainDue(s, frontier).queue| < |s.queue|
    decreases |s.queue|
  {
    if s.queue != [] && s.queue[0].due <= frontier {
      DrainShrinks(Venue.Pop(s), frontier);
    }
  }

  /** Something was done, or fewer things are queued. */
  ghost predicate Shrinks(c: Config, k: State, k': State, strictly: bool) {
    || Done(c, k) < Done(c, k')
    || (Done(c, k) == Done(c, k') && if strictly then Queued(k') < Queued(k) else Queued(k') <= Queued(k))
  }

  lemma DrainReportsShrinks(c: Config, k: State, frontier: Time)
    ensures Shrinks(c, k, DrainReports(c, k, frontier), NextReport(k).Some? && NextReport(k).value <= frontier)
    ensures var k' := DrainReports(c, k, frontier);
      Done(c, k) < Done(c, k') || k'.clock.timers == k.clock.timers
  {
    var k1 := Do(c, k, Venue.Drain(k.clock.now, frontier));
    var xs := k1.venue.delivered[|k.venue.delivered|..];
    DrainShrinks(k.venue, frontier);
    DeliverCalm(c, k1, xs);
    OutboxCalm(c, Deliver(c, k1, xs));
  }

  lemma {:induction false} FireTimersCalm(c: Config, k: State, ts: seq<Clock.Timer>)
    ensures Calm(c, k, FireTimers(c, k, ts))
    decreases |ts|
  {
    if ts != [] {
      var k1 := Notify(c, k, Input.Timer(ts[0]));
      NotifyCalm(c, k, Input.Timer(ts[0]));
      OutboxCalm(c, k1);
      FireTimersCalm(c, ProcessOutbox(c, k1), ts[1..]);
    }
  }

  lemma PopTimersShrinks(c: Config, k: State, frontier: Time)
    ensures Shrinks(c, k, PopTimers(c, k, frontier), k.clock.timers != [] && k.clock.timers[0].at <= frontier)
  {
    var p := Clock.PopDue(k.clock, frontier);
    Clock.PopShrinks(k.clock, frontier);
    FireTimersCalm(c, k.(clock := p.c), p.fired);
  }

  lemma MatchEventSheds(c: Config, k: State, ev: Event)
    ensures var k' := MatchEvent(c, k, ev);
      Done(c, k) <= Done(c, k') && k'.cursor == k.cursor + 1 && k'.expiryCursor == k.expiryCursor
  {
    hide Notify, ProcessOutbox, Venue.Apply;
    var k1 := k.(cursor := k.cursor + 1, view := k.view.Observe(ev));
    var k2 := Do(c, k1, Venue.Match(k1.clock.now, k1.view, ev));
    var k3 := Notify(c, k2, Input.Market(ev));
    NotifyCalm(c, k2, Input.Market(ev));
    OutboxCalm(c, k3);
    assert MatchEvent(c, k, ev) == ProcessOutbox(c, k3);
    assert Done(c, k2) == Done(c, k);
  }

  lemma ConsumeEventSheds(c: Config, k: State, ev: Event, frontier: Time)
    ensures var k' := ConsumeEvent(c, k, ev, frontier);
      Done(c, k) <= Done(c, k') && k'.cursor == k.cursor + 1 && k'.expiryCursor == k.expiryCursor
  {
    MatchEventSheds(c, k, ev);
    var k1, k' := MatchEvent(c, k, ev), ConsumeEvent(c, k, ev, frontier);
    assert k' == k1.(curve := k'.curve);
  }

  lemma CloseCalm(c: Config, k: State, id: InstrumentId, px: Price, ts: Time, cause: Cause)
    ensures Calm(c, k, ClosePosition(c, k, id, px, ts, cause))
  {
    if OmsRuns.Open(k.view.instruments, k.oms, id) {
      var fill := OmsRuns.Closing(k.oms, id, px, ts);
      var close := Close(id, fill.side, fill.qty, px, cause);
      var k1 := Flattened(k, id, px, ts);
      NotifyCalm(c, k1, CloseFilled(close));
      var k2 := Notify(c, k1, CloseFilled(close));
      NotifyCalm(c, k2, CloseUpdate(close));
      OutboxCalm(c, Notify(c, k2, CloseUpdate(close)));
    }
  }

  lemma {:induction false} CancelAllSheds(c: Config, k: State, ids: seq<OrderId>)
    ensures Done(c, k) <= Done(c, CancelAll(c, k, ids))
    decreases |ids|
  {
    if ids != [] {
      CancelSheds(c, k, ids[0]);
      CancelAllSheds(c, RequestCancel(c, k, ids[0]), ids[1..]);
    }
  }

  lemma {:induction false} SettleSheds(c: Config, k: State, frontier: Time)
    ensures var k' := SettleExpiries(c, k, frontier);
      && Done(c, k) <= Done(c, k') && k'.cursor == k.cursor && k.expiryCursor <= k'.expiryCursor
      && (k'.expiryCursor == k.expiryCursor ==> k' == k)
      && (NextExpiry(c, k).Some? && NextExpiry(c, k).value <= frontier ==> k.expiryCursor < k'.expiryCursor)
    decreases Left(|c.expiries|, k.expiryCursor)
  {
    if NextExpiry(c, k).Some? && NextExpiry(c, k).value <= frontier {
      var k0, id := k.(expiryCursor := k.expiryCursor + 1), c.expiries[k.expiryCursor].1;
      if id in k.view.instruments {
        var px := c.settlePx(id, k.view);
        var k1 := if px.Some? then ClosePosition(c, k0, id, px.value, frontier, Settlement) else k0;
        if px.Some? {
          CloseCalm(c, k0, id, px.value, frontier, Settlement);
        }
        CancelAllSheds(c, k1, OpenOrders(k1.oms, k1.oms.ids, id));
      }
      SettleSheds(c, SettleContract(c, k0, id, frontier), frontier);
    }
  }

  lemma {:induction false} LiquidateCalm(c: Config, k: State, ids: seq<InstrumentId>, frontier: Time)
    ensures Calm(c, k, Liquidate(c, k, ids, frontier))
    decreases |ids|
  {
    if ids != [] {
      var k1 := if ids[0] in k.view.marks
                then ClosePosition(c, k, ids[0], k.view.marks[ids[0]], frontier, Liquidation) else k;
      if ids[0] in k.view.marks {
        CloseCalm(c, k, ids[0], k.view.marks[ids[0]], frontier, Liquidation);
      }
      LiquidateCalm(c, k1, ids[1..], frontier);
    }
  }

  lemma {:induction false} PeekedIsHead(ts: seq<Clock.Timer>, cancelled: set<nat>)
    requires Clock.Sorted(ts) && Clock.First(ts, cancelled).Some?
    ensures ts != [] && ts[0].at <= Clock.First(ts, cancelled).value
    decreases |ts|
  {
    if ts[0].id in cancelled {
      Clock.SortedTail(ts);
      PeekedIsHead(ts[1..], cancelled);
      assert ts[1..][0] in ts[1..];
    }
  }

  /** The measure of the loop, compared lexicographically. */
  ghost predicate Below(c: Config, events: seq<Event>, k': State, k: State) {
    || Done(c, k) < Done(c, k')
    || (Done(c, k) == Done(c, k') && DataLeft(c, events, k') < DataLeft(c, events, k))
    || (Done(c, k) == Done(c, k') && DataLeft(c, events, k') == DataLeft(c, events, k) && Queued(k') < Queued(k))
  }

  predicate Due(t: Option<Time>, frontier: Time) { t.Some? && t.value <= frontier }

  /** Reports and timers: whatever is due of either leaves its queue. */
  lemma ReportsAndTimersShrink(c: Config, k: State, f: Time)
    requires Clock.Valid(k.clock)
    ensures var k2 := PopTimers(c, DrainReports(c, k.(clock := Clock.AdvanceTo(k.clock, f)), f), f);
      Shrinks(c, k, k2, Due(NextReport(k), f) || Due(Clock.PeekNext(k.clock), f))
  {
    hide DrainReports, PopTimers;
    var k0 := k.(clock := Clock.AdvanceTo(k.clock, f));
    var k1 := DrainReports(c, k0, f);
    DrainReportsShrinks(c, k0, f);
    PopTimersShrinks(c, k1, f);
    if Clock.PeekNext(k.clock).Some? {
      PeekedIsHead(k.clock.timers, k.clock.cancelled);
    }
  }

  /** Expiries and liquidation: an expiry that is due is consumed; otherwise nothing is queued. */
  lemma ExpiriesProgress(c: Config, k: State, f: Time)
    ensures var k' := CheckLiquidation(c, SettleExpiries(c, k, f), f);
      && k'.cursor == k.cursor && k.expiryCursor <= k'.expiryCursor && Done(c, k) <= Done(c, k')
      && (Due(NextExpiry(c, k), f) ==> k.expiryCursor < k'.expiryCursor)
      && (k'.expiryCursor == k.expiryCursor ==> Calm(c, k, k'))
  {
    var k1 := SettleExpiries(c, k, f);
    SettleSheds(c, k, f);
    if c.liquidates(k1.oms, k1.view) {
      LiquidateCalm(c, k1, OpenPositions(k1.oms, k1.oms.held), f);
    }
  }

  /** Every iteration of the kernel loop makes progress. */
  lemma IterateProgresses(c: Config, events: seq<Event>, k: State)
    requires Clock.Valid(k.clock) && Frontier(c, events, k).Some?
    ensures Below(c, events, Iterate(c, events, k, Frontier(c, events, k).value), k)
  {
    var f := Frontier(c, events, k).value;
    var k2 := PopTimers(c, DrainReports(c, k.(clock := Clock.AdvanceTo(k.clock, f)), f), f);
    ReportsAndTimersShrink(c, k, f);
    assert k2.cursor == k.cursor && k2.expiryCursor == k.expiryCursor;
    var market := NextMarket(events, k) == Some(f);
    var k3 := if market then ConsumeEvent(c, k2, events[k2.cursor], f) else k2;
    if market {
      ConsumeEventSheds(c, k2, events[k2.cursor], f);
    }
    ExpiriesProgress(c, k3, f);
  }
}
