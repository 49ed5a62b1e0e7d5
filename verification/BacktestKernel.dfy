/** `BacktestKernel` in its own form: it owns a clock, a venue and an execution engine, mutates them
    in loops, and is proved to compute the state machine of `Kernel` and to terminate. */
module BacktestKernel {
  import opened Domain
  import Venue
  import Clock
  import Oms
  import OmsRuns
  import opened Kernel
  import KernelLaws
  import KernelSteps
  import Termination
  import SimulatedExchange
  import ExecutionEngine

  /** `on_stop` and the last commands. */
  function Finish(c: Config, k: State): State { ProcessOutbox(c, Notify(c, k, Stop)) }

  lemma JudgeIgnoresCount(c: Config, k: State, order: Order, n: nat)
    ensures Judge(c, k.(submitted := n), order) == Judge(c, k, order)
  {
  }

  class BacktestKernel {
    const config: Config
    const events: seq<Event>
    const clock: Clock.HistoricalClock
    const sim: SimulatedExchange.SimulatedExchange
    const exec: ExecutionEngine.ExecutionEngine
    var view: View
    var history: History
    var outbox: seq<Command>
    var cursor: nat
    var expiryCursor: nat
    var fills: seq<LogRow>
    var curve: seq<(Time, real)>
    var submitted: nat
    var denied: nat
    ghost var log: seq<Venue.Op>
    ghost var calls: seq<OmsRuns.Call>
    ghost var born: map<OrderId, nat>
    ghost var applied: nat

    ghost function K(): State
      reads this, clock, sim, exec
    {
      State(clock.St(), view, exec.St(), sim.St(), history, outbox, cursor, expiryCursor,
            fills, curve, submitted, denied, log, calls, born, applied)
    }

    ghost predicate Wired() { sim.model == config.model }

    constructor (config: Config, events: seq<Event>, start: Time, instruments: Oms.Instruments)
      ensures this.config == config && this.events == events
      ensures Wired() && K() == Initial(start, instruments)
      ensures fresh(clock) && fresh(sim) && fresh(exec)
    {
      this.config, this.events := config, events;
      clock := new Clock.HistoricalClock(start);
      sim := new SimulatedExchange.SimulatedExchange(config.model);
      exec := new ExecutionEngine.ExecutionEngine();
      view := View(instruments, map[], map[]);
      history, outbox, cursor, expiryCursor := [], [], 0, 0;
      fills, curve, submitted, denied := [], [], 0, 0;
      log, calls, born, applied := [], [], map[], 0;
    }

    /** Call a handler; its timer calls act at once, its orders wait in the outbox. */
    method Tell(input: Input)
      requires Wired()
      modifies this, clock
      ensures K() == Notify(config, old(K()), input)
    {
      history := history + [Observation(input, clock.now, view, exec.St(), clock.nextId)];
      var r := config.strategy(history);
      outbox := outbox + r.commands;
      ghost var c0 := clock.St();
      for i := 0 to |r.timers|
        modifies clock
        invariant ApplyTimers(clock.St(), r.timers[i..]) == ApplyTimers(c0, r.timers)
      {
        match r.timers[i] {
          case Arm(name, at) => var _ := clock.Arm(name, at);
          case Disarm(id) => clock.Disarm(id);
        }
      }
    }

    method TellEvent(ev: Oms.OrderEvent)
      requires Wired()
      modifies this, clock
      ensures K() == NotifyEvent(config, old(K()), ev)
    {
      hide Notify;
      if ev.IsFill() {
        Tell(OrderFilled(ev.fill));
      }
      Tell(OrderUpdate(ev));
    }

    method TellEvents(evs: seq<Oms.OrderEvent>)
      requires Wired()
      modifies this, clock
      ensures K() == NotifyEvents(config, old(K()), evs)
    {
      hide NotifyEvent;
      for i := 0 to |evs|
        invariant NotifyEvents(config, K(), evs[i..]) == NotifyEvents(config, old(K()), evs)
      {
        TellEvent(evs[i]);
      }
    }

    /** Check the order and, if it passes, send it to the venue. */
    method Check(order: Order) returns (evs: seq<Oms.OrderEvent>)
      requires Wired()
      modifies this, sim, exec
      ensures match Judge(config, old(K()), order)
        case Ignored => evs == [] && K() == old(K())
        case Refused(o) => evs == [Oms.EvDenied] && K() == Denied(old(K()), order, o).(denied := old(denied) + 1)
        case Routed(o) =>
          && evs == [Oms.EvSubmitted]
          && K() == Do(config, Passed(old(K()), order, o), Venue.Submit(old(clock.now), old(view), order))
    {
      hide Oms.Judge, Venue.OnSubmit, Shown;
      ghost var verdict := Judge(config, K(), order);
      evs := exec.Submit(config.gate, sim, view, order, clock.now);
      if verdict.Routed? {
        born := born[order.id := Shown(history)];
        log := log + [Venue.Submit(clock.now, view, order)];
      }
      if !verdict.Ignored? {
        calls := calls + [OmsRuns.Submit(view, clock.now, order)];
      }
      if evs == [Oms.EvDenied] {
        denied := denied + 1;
      }
    }

    method Route(order: Order)
      requires Wired()
      modifies this, clock, sim, exec
      ensures K() == SubmitOrder(config, old(K()), order)
    {
      hide Do, Judge, NotifyEvent;
      ghost var k0 := K();
      submitted := submitted + 1;
      JudgeIgnoresCount(config, k0, order, submitted);
      assert K() == k0.(submitted := submitted);
      var evs := Check(order);
      if evs != [] {
        TellEvent(evs[0]);
      }
    }

    method AskCancel(id: OrderId)
      requires Wired()
      modifies this, clock, sim, exec
      ensures K() == RequestCancel(config, old(K()), id)
    {
      var evs := exec.Cancel(sim, id, clock.now);
      log, calls := log + [Venue.Cancel(clock.now, id)], calls + [OmsRuns.Cancel(id)];
      TellEvents(evs);
    }

    method DrainOutbox()
      requires Wired()
      modifies this, clock, sim, exec
      ensures K() == ProcessOutbox(config, old(K()))
    {
      var cmds := outbox;
      outbox := [];
      ghost var k0 := K();
      for i := 0 to |cmds|
        invariant ProcessCommands(config, K(), cmds[i..]) == ProcessCommands(config, k0, cmds)
      {
        match cmds[i] {
          case Submit(order) => Route(order);
          case Cancel(id) => AskCancel(id);
          case Modify(_) =>
        }
      }
    }

    method FoldOne(r: Report)
      requires Wired()
      modifies this, clock, exec
      ensures K() == DeliverOne(config, old(K()), r)
    {
      hide NotifyEvents, Oms.ApplyReport;
      ghost var k0 := K();
      var evs := exec.FoldReport(view.instruments, r);
      applied, calls := applied + 1, calls + [OmsRuns.Take(r)];
      if r.Filled? && evs != [] {
        fills := fills + [RowOf(r.fill)];
      }
      assert K() == FoldReport(k0, r);
      TellEvents(evs);
    }

    method DeliverReports(frontier: Time)
      requires Wired()
      modifies this, clock, sim, exec
      ensures K() == DrainReports(config, old(K()), frontier)
    {
      var reports := sim.DrainDue(frontier);
      log := log + [Venue.Drain(clock.now, frontier)];
      ghost var k1 := K();
      ghost var xs := k1.venue.delivered[|old(K()).venue.delivered|..];
      for i := 0 to |reports|
        invariant Deliver(config, K(), xs[i..]) == Deliver(config, k1, xs)
      {
        FoldOne(reports[i]);
      }
      DrainOutbox();
    }

    method FireDue(frontier: Time)
      requires Wired()
      modifies this, clock, sim, exec
      ensures K() == PopTimers(config, old(K()), frontier)
    {
      var ts := clock.Pop(frontier);
      ghost var k1 := K();
      for i := 0 to |ts|
        invariant FireTimers(config, K(), ts[i..]) == FireTimers(config, k1, ts)
      {
        Tell(Input.Timer(ts[i]));
        DrainOutbox();
      }
    }

    /** Cache first, then match, then tell the strategy. */
    method ShowNext()
      requires Wired() && cursor < |events|
      modifies this, clock, sim
      ensures K() == KernelSteps.Show(config, old(K()), events[old(cursor)])
    {
      var ev := events[cursor];
      cursor := cursor + 1;
      view := view.Observe(ev);
      ghost var k1 := K();
      sim.OnMarket(clock.now, view, ev);
      log := log + [Venue.Match(clock.now, view, ev)];
      assert K() == Do(config, k1, Venue.Match(k1.clock.now, k1.view, ev));
      Tell(Input.Market(ev));
    }

    method TakeEvent(frontier: Time)
      requires Wired() && cursor < |events|
      modifies this, clock, sim, exec
      ensures K() == ConsumeEvent(config, old(K()), events[old(cursor)], frontier)
    {
      var ev := events[cursor];
      ghost var k0 := K();
      ShowNext();
      ghost var k1 := K();
      DrainOutbox();
      assert K() == ProcessOutbox(config, k1) == MatchEvent(config, k0, ev);
      if ev.Bar? {
        curve := curve + [(frontier, config.equity(exec.St(), view))];
      }
    }

    method CloseAt(id: InstrumentId, px: Price, ts: Time, cause: Cause)
      requires Wired()
      modifies this, clock, sim, exec
      ensures K() == ClosePosition(config, old(K()), id, px, ts, cause)
    {
      if id !in view.instruments || id !in exec.positions || exec.positions[id].signed == 0 {
        return;
      }
      hide Notify, ProcessOutbox, Oms.BookFill;
      ghost var k0 := K();
      var p := exec.positions[id];
      var fill := OmsRuns.Closing(exec.St(), id, px, ts);
      var close := Close(id, fill.side, fill.qty, px, cause);
      exec.Hold(id, Oms.BookFill(p, fill, view.instruments[id]));
      fills, calls := fills + [RowOf(fill)], calls + [OmsRuns.Flatten(id, px, ts)];
      assert K() == Flattened(k0, id, px, ts);
      Tell(CloseFilled(close));
      Tell(CloseUpdate(close));
      DrainOutbox();
    }

    method Settle(id: InstrumentId, frontier: Time)
      requires Wired()
      modifies this, clock, sim, exec
      ensures K() == SettleContract(config, old(K()), id, frontier)
    {
      if id !in view.instruments {
        return;
      }
      var px := config.settlePx(id, view);
      if px.Some? {
        CloseAt(id, px.value, frontier, Settlement);
      }
      ghost var k1 := K();
      var open := OpenOrders(exec.St(), exec.ids, id);
      for i := 0 to |open|
        invariant CancelAll(config, K(), open[i..]) == CancelAll(config, k1, open)
      {
        AskCancel(open[i]);
      }
    }

    method SettleDue(frontier: Time)
      requires Wired()
      modifies this, clock, sim, exec
      ensures K() == SettleExpiries(config, old(K()), frontier)
    {
      hide SettleContract;
      while expiryCursor < |config.expiries| && config.expiries[expiryCursor].0 <= frontier
        invariant SettleExpiries(config, K(), frontier) == SettleExpiries(config, old(K()), frontier)
        decreases |config.expiries| - expiryCursor
      {
        var id := config.expiries[expiryCursor].1;
        expiryCursor := expiryCursor + 1;
        Settle(id, frontier);
      }
    }

    method LiquidateIfDue(frontier: Time)
      requires Wired()
      modifies this, clock, sim, exec
      ensures K() == CheckLiquidation(config, old(K()), frontier)
    {
      if !config.liquidates(exec.St(), view) {
        return;
      }
      var ids := OpenPositions(exec.St(), exec.held);
      for i := 0 to |ids|
        invariant Liquidate(config, K(), ids[i..], frontier) == Liquidate(config, old(K()), ids, frontier)
      {
        if ids[i] in view.marks {
          CloseAt(ids[i], view.marks[ids[i]], frontier, Liquidation);
        }
      }
    }

    /** The earliest of the next market event, report, timer and expiry. */
    method NextFrontier() returns (f: Option<Time>)
      requires Clock.Valid(clock.St())
      ensures f == Frontier(config, events, K())
    {
      var market := if cursor < |events| then Some(events[cursor].ts) else None;
      var report := if sim.queue != [] then Some(sim.queue[0].due) else None;
      var timer := clock.Peek();
      var expiry := if expiryCursor < |config.expiries| then Some(config.expiries[expiryCursor].0) else None;
      f := Sooner(Sooner(market, report), Sooner(timer, expiry));
    }

    method Turn(frontier: Time)
      requires Wired()
      modifies this, clock, sim, exec
      ensures K() == Iterate(config, events, old(K()), frontier)
    {
      ghost var k := K();
      var market := cursor < |events| && events[cursor].ts == frontier;
      clock.Advance(frontier);
      ghost var k0 := k.(clock := Clock.AdvanceTo(k.clock, frontier));
      assert K() == k0;
      DeliverReports(frontier);
      ghost var k1 := K();
      FireDue(frontier);
      ghost var k2 := K();
      if market {
        TakeEvent(frontier);
      }
      ghost var k3 := K();
      assert k3 == if NextMarket(events, k)
          == Some(frontier) then ConsumeEvent(config, k2, events[k2.cursor], frontier) else k2;
      SettleDue(frontier);
      LiquidateIfDue(frontier);
    }

    /** Run to completion: the kernel reaches a state with an empty frontier, then stops the
        strategy. The bound is what `KernelLaws.RunEndsIff` shows every terminating run to have. */
    method Run(ghost start: Time, ghost instruments: Oms.Instruments, ghost bound: nat) returns (ghost n: nat)
      requires Wired() && K() == Initial(start, instruments)
      requires KernelLaws.Bounded(config, events, start, instruments, bound)
      modifies this, clock, sim, exec
      ensures Frontier(config, events, After(config, events, Initial(start, instruments), n)).None?
      ensures K() == Finish(config, After(config, events, Initial(start, instruments), n))
    {
      Tell(Start);
      DrainOutbox();
      n := 0;
      assert K() == After(config, events, Initial(start, instruments), 0);
      hide After, Iterate, Notify, ProcessOutbox, Frontier, Clock.Valid, KernelLaws.Bounded, KernelLaws.Room;
      KernelLaws.ClockStaysValid(config, events, start, instruments, 0);
      var f := NextFrontier();
      while f.Some?
        invariant K() == After(config, events, Initial(start, instruments), n)
        invariant f == Frontier(config, events, K())
        decreases
          KernelLaws.Room(config, K(), bound), Termination.DataLeft(config, events, K()), Termination.Queued(K())
      {
        KernelLaws.TurnShrinks(config, events, start, instruments, bound, n);
        Turn(f.value);
        n := n + 1;
        KernelLaws.ClockStaysValid(config, events, start, instruments, n);
        f := NextFrontier();
      }
      Tell(Stop);
      DrainOutbox();
    }
  }
}
