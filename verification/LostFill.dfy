/** Two kernel runs, for every latency, that differ in one decision. A market order is submitted, is
    acknowledged and meets a trade. If the strategy cancels on seeing the trade, while the fill is in
    flight, the venue has executed the whole order and the order management system books none of it;
    if it does not, the fill is booked and logged. */
module LostFill {
  import opened Domain
  import opened Brokerage
  import Venue
  import opened OrderLife
  import LifeLaws
  import Clock
  import Oms
  import OmsRuns
  import opened Kernel

  // --- the configuration ------------------------------------------------------------------------

  function Plain(): Instrument { Instrument(1, 0.0, 0.0, 1, false, None, false) }

  /** Submit on start, perhaps cancel on every market event, and nothing else. */
  function Answer(o: Order, cancels: bool, input: Input): seq<Command> {
    if input.Start? then [Submit(o)] else if input.Market? && cancels then [Cancel(o.id)] else []
  }

  function Cfg(m: BrokerageModel, o: Order, cancels: bool): Config {
    Config(m, (h: History) => Response(if h == [] then [] else Answer(o, cancels, h[|h| - 1].input), []),
           (order, s, v, t) => true, (i, v) => None, (s, v) => false, (s, v) => 0.0, [])
  }

  ghost predicate Suits(o: Order) { o.kind.Market? && o.price.None? && o.quantity > 0 }

  // --- the strategy's answers -------------------------------------------------------------------

  lemma NotifyMeans(m: BrokerageModel, o: Order, cancels: bool, k: State, input: Input)
    ensures Notify(Cfg(m, o, cancels), k, input) == k.(
      history := k.history + [Observe(k, input)], outbox := k.outbox + Answer(o, cancels, input))
  {
  }

  /** What the run depends on. */
  ghost predicate At(k: State, now: Time, cursor: nat, oms: Oms.State, venue: Venue.State, insts: Oms.Instruments,
      rows: seq<LogRow>) {
    && k.clock == Clock.State(now, [], {}, 1) && k.cursor == cursor && k.expiryCursor == 0
    && k.oms == oms && k.venue == venue && k.outbox == [] && k.view.instruments == insts
    && k.applied == |venue.delivered| && k.fills == rows
  }

  /** Hearing of an order's event changes nothing but the history. */
  lemma HearEvent(m: BrokerageModel, o: Order, cancels: bool, k: State, ev: Oms.OrderEvent)
    ensures var c := Cfg(m, o, cancels); var k' := NotifyEvent(c, k, ev);
      NotifyEvents(c, k, [ev]) == k' && k' == k.(history := k'.history)
  {
    hide Notify;
    var c := Cfg(m, o, cancels);
    assert [ev][1..] == [] && k.outbox + [] == k.outbox;
    var k1 := if ev.IsFill() then Notify(c, k, OrderFilled(ev.fill)) else k;
    if ev.IsFill() {
      NotifyMeans(m, o, cancels, k, OrderFilled(ev.fill));
    }
    NotifyMeans(m, o, cancels, k1, OrderUpdate(ev));
  }

  // --- the venue's side ---------------------------------------------------------------------------

  function Ack(m: BrokerageModel, o: Order): Venue.Scheduled {
    Venue.Scheduled(m.submitLatency, 1, Report.Accepted(o.id, 1))
  }

  function Resting(o: Order): Venue.Resting { Venue.Resting(o, o.quantity, None, 1, None, true) }

  /** After the submit, after the acknowledgement, after the trade and after the fill. */
  function V1(m: BrokerageModel, o: Order): Venue.State {
    Venue.EMPTY.(resting := [Resting(o)], venueSeq := 1, seqNo := 1, queue := [Ack(m, o)], issued := [Ack(m, o)])
  }
  function V2(m: BrokerageModel, o: Order): Venue.State { V1(m, o).(queue := [], delivered := [Ack(m, o)]) }
  function V3(m: BrokerageModel, o: Order, x: Venue.Scheduled): Venue.State {
    V2(m, o).(resting := [], tradeSeq := 1, seqNo := 2, queue := [x], issued := [Ack(m, o), x])
  }
  function V4(m: BrokerageModel, o: Order, x: Venue.Scheduled): Venue.State {
    V3(m, o, x).(queue := [], delivered := [Ack(m, o), x])
  }

  ghost predicate WholeFill(o: Order, x: Venue.Scheduled, due: Time) {
    && x.due == due && x.report.Filled? && x.report.fill.order == o.id && x.report.fill.qty == o.quantity
    && x.report.fill.inst == o.inst && x.report.fill.side == o.side
  }

  lemma Submitted(m: BrokerageModel, view: View, o: Order)
    requires Suits(o) && o.inst in view.instruments
    ensures Venue.OnSubmit(m, Venue.EMPTY, 0, view, o) == V1(m, o)
  {
  }

  lemma Acknowledged(m: BrokerageModel, o: Order)
    ensures Venue.DrainDue(V1(m, o), m.submitLatency) == V2(m, o)
  {
    assert [Ack(m, o)][1..] == [] && [] + [Ack(m, o)] == [Ack(m, o)];
  }

  lemma Drained(m: BrokerageModel, o: Order, x: Venue.Scheduled)
    ensures Venue.DrainDue(V3(m, o, x), x.due) == V4(m, o, x)
  {
    assert [x][1..] == [] && [Ack(m, o)] + [x] == [Ack(m, o), x];
  }

  /** The next trade fills the order, and a cancel then finds nothing. */
  lemma Traded(m: BrokerageModel, view: View, o: Order, px: Price, now: Time) returns (x: Venue.Scheduled)
    requires Suits(o) && o.inst in view.instruments
    ensures Venue.OnMarket(m, V2(m, o), now, view, Trade(o.inst, px, now)) == V3(m, o, x)
    ensures WholeFill(o, x, Later(now, m.submitLatency))
    ensures Venue.OnCancel(m, V3(m, o, x), now, o.id) == V3(m, o, x)
  {
    var s, ev := V2(m, o), Trade(o.inst, px, now);
    var t, inst, s0, r := TickOf(ev).value, view.instruments[o.inst], s.(resting := []), Resting(o);
    var d := Venue.Decide(m, inst.lot, r, t).value;
    assert d.qty == o.quantity && Venue.Exhausted(m, inst.lot, r, t);
    var s1 := Venue.MatchOne(m, s0, now, o.inst, inst, t, r);
    assert s.resting[1..] == [] && Venue.MatchAll(m, s1, now, o.inst, inst, t, []) == s1;
    assert s1 == Venue.Emit(m, s0, now, inst, r, d);
    x := s1.queue[0];
  }

  // --- the OMS's side -----------------------------------------------------------------------------

  function Book(o: Order, status: Oms.Status): Oms.State {
    Oms.EMPTY.(orders := map[o.id := Oms.Tracked(o, status, 0)], ids := [o.id])
  }

  lemma Judged(m: BrokerageModel, k: State, o: Order, cancels: bool)
    requires k.oms == Oms.EMPTY && k.view.instruments == map[o.inst := Plain()]
    ensures Judge(Cfg(m, o, cancels), k, o) == Oms.Routed(Book(o, Oms.Status.Submitted))
  {
  }

  lemma AckFolded(insts: Oms.Instruments, o: Order)
    ensures Oms.ApplyReport(insts, Book(o, Oms.Status.Submitted), Report.Accepted(o.id, 1))
         == Oms.Outcome(Book(o, Oms.Status.Accepted), [Oms.EvAccepted(1)])
  {
  }

  lemma CancelFired(o: Order)
    ensures Oms.Fire(Book(o, Oms.Status.Accepted), o.id, Oms.EvPendingCancel)
         == Oms.Outcome(Book(o, Oms.Status.PendingCancel), [Oms.EvPendingCancel])
  {
  }

  /** The order as the fill finds it. */
  function Met(o: Order, cancels: bool): Oms.State {
    Book(o, if cancels then Oms.Status.PendingCancel else Oms.Status.Accepted)
  }

  lemma FillRefused(insts: Oms.Instruments, o: Order, r: Report)
    requires r.Filled? && r.fill.order == o.id
    ensures var out := Oms.ApplyReport(insts, Met(o, true), r);
      && out.events == [] && out.oms.positions == map[]
      && o.id in out.oms.orders && out.oms.orders[o.id] == Oms.Tracked(o, Oms.Status.PendingCancel, 0)
  {
  }

  lemma FillTaken(insts: Oms.Instruments, o: Order, r: Report)
    requires r.Filled? && r.fill.order == o.id && r.fill.inst == o.inst && r.fill.qty == o.quantity && o.inst in insts
    ensures var out := Oms.ApplyReport(insts, Met(o, false), r);
      && |out.events| == 1
      && out.oms.positions == map[o.inst := Oms.BookFill(Oms.FLAT, r.fill, insts[o.inst])]
      && o.id in out.oms.orders && out.oms.orders[o.id] == Oms.Tracked(o, Oms.Status.Filled, o.quantity)
  {
    hide Oms.BookFill;
  }

  // --- the run ------------------------------------------------------------------------------------

  /** Without timers, expiries and liquidations an iteration is its reports and its event. */
  lemma IterateMeans(m: BrokerageModel, o: Order, cancels: bool, es: seq<Event>, k: State, f: Time)
    requires var k1 := DrainReports(Cfg(m, o, cancels), k.(clock := Clock.AdvanceTo(k.clock, f)), f);
      k1.clock.timers == []
    ensures var c := Cfg(m, o, cancels); var k1 := DrainReports(c, k.(clock := Clock.AdvanceTo(k.clock, f)), f);
      Iterate(c, es, k, f) == if NextMarket(es, k) == Some(f) then ConsumeEvent(c, k1, es[k1.cursor], f) else k1
  {
    hide DrainReports, ConsumeEvent;
    var k1 := DrainReports(Cfg(m, o, cancels), k.(clock := Clock.AdvanceTo(k.clock, f)), f);
    assert Clock.PopDue(k1.clock, f) == Clock.Popped(k1.clock, []);
  }

  /** Draining when at most one report is due and the strategy hears at most one event of it. */
  lemma DrainsOne(m: BrokerageModel, o: Order, cancels: bool, k: State, f: Time, v: Venue.State, out: Oms.Outcome,
      now: Time,
      cursor: nat, insts: Oms.Instruments)
    requires At(k, now, cursor, k.oms, k.venue, insts, k.fills)
    requires Venue.DrainDue(k.venue, f) == v && |v.delivered| == |k.venue.delivered| + 1
    requires out == Oms.ApplyReport(insts, k.oms, v.delivered[|k.venue.delivered|].report)
    requires |out.events| <= 1
    ensures var r := v.delivered[|k.venue.delivered|].report;
      At(DrainReports(Cfg(m, o, cancels), k, f), now, cursor, out.oms, v, insts,
         if r.Filled? && out.events != [] then k.fills + [RowOf(r.fill)] else k.fills)
  {
    var c := Cfg(m, o, cancels);
    var k1 := Do(c, k, Venue.Drain(k.clock.now, f));
    var x := v.delivered[|k.venue.delivered|];
    assert k1.venue == v && v.delivered[|k.venue.delivered|..] == [x] && [x][1..] == [];
    assert Deliver(c, k1, [x]) == DeliverOne(c, k1, x.report);
    hide Oms.ApplyReport, DeliverOne, ProcessOutbox, Cfg;
    FoldsOne(m, o, cancels, k1, x.report, out);
    NothingToDo(c, DeliverOne(c, k1, x.report));
  }

  lemma FoldsOne(m: BrokerageModel, o: Order, cancels: bool, k: State, r: Report, out: Oms.Outcome)
    requires out == Oms.ApplyReport(k.view.instruments, k.oms, r) && |out.events| <= 1
    ensures var k', k1 := DeliverOne(Cfg(m, o, cancels), k, r), FoldReport(k, r); k' == k1.(history := k'.history)
  {
    hide Oms.ApplyReport, NotifyEvents, NotifyEvent, FoldReport, Cfg;
    if out.events == [] {
      HearNothing(m, o, cancels, FoldReport(k, r));
    } else {
      assert out.events == [out.events[0]];
      HearEvent(m, o, cancels, FoldReport(k, r), out.events[0]);
    }
  }

  lemma HearNothing(m: BrokerageModel, o: Order, cancels: bool, k: State)
    ensures NotifyEvents(Cfg(m, o, cancels), k, []) == k
  {
  }

  lemma NothingToDo(c: Config, k: State)
    requires k.outbox == []
    ensures ProcessOutbox(c, k) == k
  {
  }

  lemma {:induction false} DrainsNone(m: BrokerageModel, o: Order, cancels: bool, k: State, f: Time)
    requires k.venue.queue == [] && k.outbox == []
    ensures DrainReports(Cfg(m, o, cancels), k, f) == k.(log := k.log + [Venue.Drain(k.clock.now, f)])
  {
    var k1 := Do(Cfg(m, o, cancels), k, Venue.Drain(k.clock.now, f));
    assert k1.venue == k.venue && k1.venue.delivered[|k.venue.delivered|..] == [];
    NothingToDo(Cfg(m, o, cancels), k1);
  }

  /** Start: the order is submitted. */
  lemma Begins(m: BrokerageModel, o: Order, cancels: bool)
    requires Suits(o)
    ensures var insts := map[o.inst := Plain()];
      At(Begin(Cfg(m, o, cancels), Initial(0, insts)), 0, 0, Book(o, Oms.Status.Submitted), V1(m, o), insts, [])
  {
    hide Notify, NotifyEvent, Judge, Venue.OnSubmit;
    var c, insts := Cfg(m, o, cancels), map[o.inst := Plain()];
    var k := Initial(0, insts);
    NotifyMeans(m, o, cancels, k, Start);
    var k1 := Notify(c, k, Start);
    assert k1.outbox == [Submit(o)] && [Submit(o)][1..] == [];
    var k2 := k1.(outbox := []);
    Judged(m, k2, o, cancels);
    Submitted(m, k2.view, o);
    var k3 := Do(c, Passed(k2.(submitted := 1), o, Book(o, Oms.Status.Submitted)),
                 Venue.Submit(0, k2.view, o));
    HearEvent(m, o, cancels, k3, Oms.EvSubmitted);
    assert ProcessCommands(c, k2, [Submit(o)]) == ProcessCommands(c, SubmitOrder(c, k2, o), []);
    assert SubmitOrder(c, k2, o) == NotifyEvent(c, k3, Oms.EvSubmitted);
  }

  /** The acknowledgement arrives. */
  lemma Acknowledges(m: BrokerageModel, o: Order, cancels: bool, k: State, es: seq<Event>, insts: Oms.Instruments)
    requires At(k, 0, 0, Book(o, Oms.Status.Submitted), V1(m, o), insts, [])
    requires |es| == 1 && m.submitLatency < es[0].ts
    ensures At(Next(Cfg(m, o, cancels), es, k), m.submitLatency, 0, Book(o, Oms.Status.Accepted), V2(m, o), insts, [])
  {
    hide Iterate, DrainReports, Venue.DrainDue, Oms.ApplyReport;
    var c, f := Cfg(m, o, cancels), m.submitLatency;
    var k0 := k.(clock := Clock.AdvanceTo(k.clock, f));
    Acknowledged(m, o);
    AckFolded(insts, o);
    DrainsOne(m, o, cancels, k0, f, V2(m, o), Oms.Outcome(Book(o, Oms.Status.Accepted), [Oms.EvAccepted(1)]), f, 0,
        insts);
    IterateMeans(m, o, cancels, es, k, f);
    assert Frontier(c, es, k) == Some(f);
  }

  /** The trade fills the order, and perhaps provokes the cancel. */
  lemma Crosses(m: BrokerageModel, o: Order, cancels: bool, k: State, px: Price, t: Time, now: Time,
      insts: Oms.Instruments)
    returns (x: Venue.Scheduled)
    requires Suits(o) && o.inst in insts && now < t && At(k, now, 0, Book(o, Oms.Status.Accepted), V2(m, o), insts, [])
    ensures WholeFill(o, x, Later(t, m.submitLatency))
    ensures At(Next(Cfg(m, o, cancels), [Trade(o.inst, px, t)], k), t, 1, Met(o, cancels), V3(m, o, x), insts, [])
  {
    hide Iterate, DrainReports, ConsumeEvent;
    var c, ev := Cfg(m, o, cancels), Trade(o.inst, px, t);
    var k0 := k.(clock := Clock.AdvanceTo(k.clock, t));
    DrainsNone(m, o, cancels, k0, t);
    var k1 := DrainReports(c, k0, t);
    assert Frontier(c, [ev], k) == Some(t);
    IterateMeans(m, o, cancels, [ev], k, t);
    x := Consumes(m, o, cancels, k1, px, t, insts);
  }

  lemma Consumes(m: BrokerageModel, o: Order, cancels: bool, k: State, px: Price, t: Time, insts: Oms.Instruments)
    returns (x: Venue.Scheduled)
    requires Suits(o) && o.inst in insts && At(k, t, 0, Book(o, Oms.Status.Accepted), V2(m, o), insts, [])
    ensures WholeFill(o, x, Later(t, m.submitLatency))
    ensures At(ConsumeEvent(Cfg(m, o, cancels), k, Trade(o.inst, px, t), t), t, 1, Met(o, cancels), V3(m, o, x),
        insts, [])
  {
    hide Notify, ProcessOutbox, Venue.OnMarket, Venue.OnCancel, Oms.Fire;
    var c, ev := Cfg(m, o, cancels), Trade(o.inst, px, t);
    var k1 := k.(cursor := 1, view := k.view.Observe(ev));
    x := Traded(m, k1.view, o, px, t);
    var k2 := Do(c, k1, Venue.Match(t, k1.view, ev));
    assert k2.venue == V3(m, o, x);
    NotifyMeans(m, o, cancels, k2, Input.Market(ev));
    var k3 := Notify(c, k2, Input.Market(ev));
    assert MatchEvent(c, k, ev) == ProcessOutbox(c, k3);
    assert k3.outbox == Answer(o, cancels, Input.Market(ev));
    if cancels {
      CancelsOnce(m, o, k3);
    } else {
      NothingToDo(c, k3);
    }
  }

  /** The outbox holds the cancel: the FSM takes it, the venue has nothing left to cancel. */
  lemma CancelsOnce(m: BrokerageModel, o: Order, k: State)
    requires k.outbox == [Cancel(o.id)] && k.oms == Book(o, Oms.Status.Accepted)
    requires Venue.OnCancel(m, k.venue, k.clock.now, o.id) == k.venue
    ensures var k' := ProcessOutbox(Cfg(m, o, true), k);
      && k'.oms == Met(o, true) && k'.outbox == []
      && k'.clock == k.clock && k'.cursor == k.cursor && k'.expiryCursor == k.expiryCursor && k'.venue == k.venue
      && k'.view == k.view && k'.applied == k.applied && k'.fills == k.fills
  {
    hide NotifyEvents, Venue.OnCancel, Oms.Fire;
    var c, k4 := Cfg(m, o, true), k.(outbox := []);
    CancelFired(o);
    var k5 := Do(c, Called(k4, Met(o, true), OmsRuns.Cancel(o.id)), Venue.Cancel(k.clock.now, o.id));
    HearEvent(m, o, true, k5, Oms.EvPendingCancel);
    assert RequestCancel(c, k4, o.id) == NotifyEvents(c, k5, [Oms.EvPendingCancel]);
    assert [Cancel(o.id)][1..] == [];
    assert ProcessCommands(c, k4, [Cancel(o.id)]) == ProcessCommands(c, RequestCancel(c, k4, o.id), []);
  }

  /** The fill arrives, and nothing is left to do. */
  lemma Arrives(m: BrokerageModel, o: Order, cancels: bool, k: State, es: seq<Event>, x: Venue.Scheduled, now: Time,
      insts: Oms.Instruments)
    requires |es| == 1 && now <= x.due && WholeFill(o, x, x.due) && o.inst in insts
    requires At(k, now, 1, Met(o, cancels), V3(m, o, x), insts, [])
    ensures var k', out := Next(Cfg(m, o, cancels), es, k), Oms.ApplyReport(insts, Met(o, cancels), x.report);
      && At(k', x.due, 1, out.oms, V4(m, o, x), insts, if cancels then [] else [RowOf(x.report.fill)])
      && Frontier(Cfg(m, o, cancels), es, k').None?
  {
    hide Iterate, DrainReports, Venue.DrainDue, Oms.ApplyReport;
    var c, f, out := Cfg(m, o, cancels), x.due, Oms.ApplyReport(insts, Met(o, cancels), x.report);
    var k0 := k.(clock := Clock.AdvanceTo(k.clock, f));
    Drained(m, o, x);
    if cancels {
      FillRefused(insts, o, x.report);
    } else {
      FillTaken(insts, o, x.report);
    }
    DrainsOne(m, o, cancels, k0, f, V4(m, o, x), out, f, 1, insts);
    assert [] + [RowOf(x.report.fill)] == [RowOf(x.report.fill)];
    assert Frontier(c, es, k) == Some(f);
    IterateMeans(m, o, cancels, es, k, f);
  }

  lemma ExecutedWhole(m: BrokerageModel, o: Order, x: Venue.Scheduled)
    requires WholeFill(o, x, x.due)
    ensures LifeLaws.Executed(Items([Ack(m, o), x], o.id)) == o.quantity
  {
    var a, b := ItemOf(Ack(m, o)), ItemOf(x);
    assert [Ack(m, o)] + [x] == [Ack(m, o), x] && [] + [Ack(m, o)] == [Ack(m, o)] && [] + [a] == [a];
    ItemsSnoc([], Ack(m, o), o.id);
    ItemsSnoc([Ack(m, o)], x, o.id);
    LifeLaws.ExecutedSnoc([], a);
    LifeLaws.ExecutedSnoc([a], b);
  }

  /** The run of either strategy, three iterations long. */
  lemma RunsToTheEnd(m: BrokerageModel, o: Order, cancels: bool, px: Price, t: Time) returns (x: Venue.Scheduled)
    requires Suits(o) && m.submitLatency < t && t + m.submitLatency <= U64_MAX
    ensures WholeFill(o, x, t + m.submitLatency)
    ensures var c, es, insts := Cfg(m, o, cancels), [Trade(o.inst, px, t)], map[o.inst := Plain()];
      var k, out := After(c, es, Initial(0, insts), 3), Oms.ApplyReport(insts, Met(o, cancels), x.report);
      && At(k, x.due, 1, out.oms, V4(m, o, x), insts, if cancels then [] else [RowOf(x.report.fill)])
      && Frontier(c, es, k).None?
  {
    hide Next, Begin, Frontier;
    var c, es, insts := Cfg(m, o, cancels), [Trade(o.inst, px, t)], map[o.inst := Plain()];
    var k := Initial(0, insts);
    Begins(m, o, cancels);
    Acknowledges(m, o, cancels, After(c, es, k, 0), es, insts);
    x := Crosses(m, o, cancels, After(c, es, k, 1), px, t, m.submitLatency, insts);
    Arrives(m, o, cancels, After(c, es, k, 2), es, x, t, insts);
  }

  /** For every latency, quantity and price: submit on start, one trade after the acknowledgement,
      cancel on seeing it. The run ends after three iterations, the venue has delivered the whole
      quantity, and the order management system has booked nothing and waits for a cancellation that
      never comes. */
  lemma InFlightFillIsLost(m: BrokerageModel, o: Order, px: Price, t: Time)
    requires Suits(o) && m.submitLatency < t && t + m.submitLatency <= U64_MAX
    ensures var c, es, insts := Cfg(m, o, true), [Trade(o.inst, px, t)], map[o.inst := Plain()];
      var k := After(c, es, Initial(0, insts), 3);
      && Frontier(c, es, k).None?
      && LifeLaws.Executed(Items(k.venue.delivered, o.id)) == o.quantity
      && o.id in k.oms.orders && k.oms.orders[o.id].status.PendingCancel? && k.oms.orders[o.id].filled == 0
      && k.oms.positions == map[] && k.fills == []
  {
    hide After, Frontier, Oms.ApplyReport;
    var x := RunsToTheEnd(m, o, true, px, t);
    FillRefused(map[o.inst := Plain()], o, x.report);
    ExecutedWhole(m, o, x);
  }

  /** The same run without the cancel: the fill is booked, the position is the order's quantity, and
      the fills log has its row. */
  lemma WithoutCancelItIsBooked(m: BrokerageModel, o: Order, px: Price, t: Time) returns (x: Venue.Scheduled)
    requires Suits(o) && m.submitLatency < t && t + m.submitLatency <= U64_MAX
    ensures var c, es, insts := Cfg(m, o, false), [Trade(o.inst, px, t)], map[o.inst := Plain()];
      var k := After(c, es, Initial(0, insts), 3);
      && Frontier(c, es, k).None? && x.report.Filled? && x.report.fill.qty == o.quantity
      && o.id in k.oms.orders && k.oms.orders[o.id].status.Filled? && k.oms.orders[o.id].filled == o.quantity
      && k.oms.Position(o.inst).signed == o.side.Sign() * o.quantity && k.fills == [RowOf(x.report.fill)]
  {
    hide After, Frontier, Oms.ApplyReport;
    x := RunsToTheEnd(m, o, false, px, t);
    FillTaken(map[o.inst := Plain()], o, x.report);
  }
}
