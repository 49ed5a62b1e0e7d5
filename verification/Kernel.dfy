/** The backtest kernel: a time-frontier merge of market events, delayed reports, timers and
    contract expiries that drives an arbitrary deterministic strategy.

    The strategy is any function of everything it has been shown so far. The risk gate (with the
    price band), the settlement price, the liquidation test and the equity figure are arbitrary
    functions of the state they read in the source. */
module Kernel {
  import opened Domain
  import opened Brokerage
  import Venue
  import Clock
  import Oms
  import OmsRuns

  // --- the strategy -------------------------------------------------------------------------

  datatype Command = Submit(order: Order) | Cancel(id: OrderId) | Modify(id: OrderId)

  datatype TimerOp = Arm(name: string, at: Time) | Disarm(timer: nat)

  datatype Response = Response(commands: seq<Command>, timers: seq<TimerOp>)

  datatype Cause = Settlement | Liquidation

  /** A position closed by the kernel itself. */
  datatype Close = Close(inst: InstrumentId, side: Side, qty: nat, px: Price, cause: Cause)

  datatype Input =
    | Start
    | Market(ev: Event)
    | Timer(timer: Clock.Timer)
    | OrderFilled(fill: Fill)
    | OrderUpdate(event: Oms.OrderEvent)
    | CloseFilled(close: Close)
    | CloseUpdate(close: Close)
    | Stop

  /** One handler call: its argument and all it can read through its context. */
  datatype Observation = Observation(input: Input, now: Time, view: View, oms: Oms.State, nextTimer: nat)

  type History = seq<Observation>

  datatype Config = Config(
    model: BrokerageModel,
    strategy: History -> Response,
    gate: Oms.Gate,
    settlePx: (InstrumentId, View) -> Option<Price>,
    liquidates: (Oms.State, View) -> bool,
    equity: (Oms.State, View) -> real,
    expiries: seq<(Time, InstrumentId)>)

  // --- the kernel's state -------------------------------------------------------------------

  datatype LogRow = LogRow(ts: Time, inst: InstrumentId, side: Side, qty: nat, px: Price)

  /** Four histories: `log` records the venue operations, `calls` what changed the order management
      system, `born` how many market events the strategy had been shown when each order reached the
      venue, and `applied` how many of the delivered reports have been folded. */
  datatype State = State(
    clock: Clock.State, view: View, oms: Oms.State, venue: Venue.State,
    history: History, outbox: seq<Command>,
    cursor: nat, expiryCursor: nat,
    fills: seq<LogRow>, curve: seq<(Time, real)>, submitted: nat, denied: nat,
    log: seq<Venue.Op>, calls: seq<OmsRuns.Call>, born: map<OrderId, nat>, applied: nat)

  function Initial(start: Time, instruments: Oms.Instruments): State {
    State(Clock.State(start, [], {}, 1), View(instruments, map[], map[]), Oms.EMPTY, Venue.EMPTY,
          [], [], 0, 0, [], [], 0, 0, [], [], map[], 0)
  }

  // --- talking to the strategy and the venue ------------------------------------------------

  /** What handlers, commands and reports leave alone: the data cursors, the market view, the
      equity curve and the clock reading. */
  ghost predicate Framed(k: State, k': State) {
    && k'.cursor == k.cursor && k'.expiryCursor == k.expiryCursor && k'.view == k.view && k'.curve == k.curve
    && k'.clock.now == k.clock.now
  }

  /** Every delivered report has been folded. */
  predicate Caught(k: State) { k.applied == |k.venue.delivered| }

  function ApplyTimer(c: Clock.State, t: TimerOp): (c': Clock.State)
    ensures c'.now == c.now
  {
    match t
    case Arm(name, at) => Clock.SetTimer(c, name, at)
    case Disarm(id) => Clock.CancelTimer(c, id)
  }

  function ApplyTimers(c: Clock.State, ts: seq<TimerOp>): (c': Clock.State)
    ensures c'.now == c.now
    decreases |ts|
  {
    if ts == [] then c else ApplyTimers(ApplyTimer(c, ts[0]), ts[1..])
  }

  function Observe(k: State, input: Input): Observation {
    Observation(input, k.clock.now, k.view, k.oms, k.clock.nextId)
  }

  function Notify(c: Config, k: State, input: Input): (k': State)
    ensures Framed(k, k')
    ensures k'.venue == k.venue && k'.oms == k.oms && k'.applied == k.applied
  {
    var h := k.history + [Observe(k, input)];
    var r := c.strategy(h);
    k.(history := h, outbox := k.outbox + r.commands, clock := ApplyTimers(k.clock, r.timers))
  }

  function NotifyEvent(c: Config, k: State, ev: Oms.OrderEvent): (k': State)
    ensures Framed(k, k')
    ensures k'.venue == k.venue && k'.oms == k.oms && k'.applied == k.applied
  {
    Notify(c, if ev.IsFill() then Notify(c, k, OrderFilled(ev.fill)) else k, OrderUpdate(ev))
  }

  function NotifyEvents(c: Config, k: State, evs: seq<Oms.OrderEvent>): (k': State)
    ensures Framed(k, k')
    ensures k'.venue == k.venue && k'.oms == k.oms && k'.applied == k.applied
    decreases |evs|
  {
    if evs == [] then k else NotifyEvents(c, NotifyEvent(c, k, evs[0]), evs[1..])
  }

  function Do(c: Config, k: State, op: Venue.Op): (k': State)
    ensures Framed(k, k')
    ensures !op.Drain? && Caught(k) ==> Caught(k')
  {
    k.(venue := Venue.Apply(c.model, k.venue, op), log := k.log + [op])
  }

  // --- routing commands ---------------------------------------------------------------------

  function Judge(c: Config, k: State, order: Order): Oms.Verdict {
    Oms.Judge(c.gate, k.oms, k.view, k.clock.now, order)
  }

  /** How many market events the strategy has been shown. */
  function Shown(h: History): nat {
    if h == [] then 0 else Shown(h[..|h| - 1]) + if h[|h| - 1].input.Market? then 1 else 0
  }

  /** The order management system takes a call and is now `o`. */
  function Called(k: State, o: Oms.State, call: OmsRuns.Call): (k': State)
    ensures Framed(k, k')
  {
    k.(oms := o, calls := k.calls + [call])
  }

  /** An order passed every check, or one of them failed. */
  function Passed(k: State, order: Order, o: Oms.State): State {
    Called(k, o, OmsRuns.Submit(k.view, k.clock.now, order)).(born := k.born[order.id := Shown(k.history)])
  }

  function Denied(k: State, order: Order, o: Oms.State): State {
    Called(k, o, OmsRuns.Submit(k.view, k.clock.now, order))
  }

  function SubmitOrder(c: Config, k: State, order: Order): (k': State)
    ensures Framed(k, k')
    ensures Caught(k) ==> Caught(k')
  {
    var k1 := k.(submitted := k.submitted + 1);
    match Judge(c, k, order)
    case Ignored => k1
    case Refused(o) => NotifyEvent(c, Denied(k1, order, o).(denied := k.denied + 1), Oms.EvDenied)
    case Routed(o) =>
      NotifyEvent(c, Do(c, Passed(k1, order, o), Venue.Submit(k.clock.now, k.view, order)), Oms.EvSubmitted)
  }

  /** `ExecutionEngine::cancel` followed by the notification of what the FSM took. */
  function RequestCancel(c: Config, k: State, id: OrderId): (k': State)
    ensures Framed(k, k')
    ensures Caught(k) ==> Caught(k')
  {
    var out := Oms.Fire(k.oms, id, Oms.EvPendingCancel);
    NotifyEvents(c, Do(c, Called(k, out.oms, OmsRuns.Cancel(id)), Venue.Cancel(k.clock.now, id)), out.events)
  }

  function ProcessCommand(c: Config, k: State, cmd: Command): (k': State)
    ensures Framed(k, k')
    ensures Caught(k) ==> Caught(k')
  {
    match cmd
    case Submit(order) => SubmitOrder(c, k, order)
    case Cancel(id) => RequestCancel(c, k, id)
    case Modify(_) => k
  }

  function ProcessCommands(c: Config, k: State, cmds: seq<Command>): (k': State)
    ensures Framed(k, k')
    ensures Caught(k) ==> Caught(k')
    decreases |cmds|
  {
    if cmds == [] then k else ProcessCommands(c, ProcessCommand(c, k, cmds[0]), cmds[1..])
  }

  function ProcessOutbox(c: Config, k: State): (k': State)
    ensures Framed(k, k')
    ensures Caught(k) ==> Caught(k')
  {
    ProcessCommands(c, k.(outbox := []), k.outbox)
  }

  // --- reports, timers, market events, expiries, liquidation ---------------------------------

  function RowOf(f: Fill): LogRow { LogRow(f.ts, f.inst, f.side, f.qty, f.px) }

  /** The next report is folded and, if it was a fill that the FSM took, logged. */
  function FoldReport(k: State, r: Report): (k': State)
    ensures Framed(k, k')
  {
    var out := Oms.ApplyReport(k.view.instruments, k.oms, r);
    Called(k, out.oms, OmsRuns.Take(r)).(
      applied := k.applied + 1,
      fills := if r.Filled? && out.events != [] then k.fills + [RowOf(r.fill)] else k.fills)
  }

  function DeliverOne(c: Config, k: State, r: Report): (k': State)
    ensures Framed(k, k')
    ensures k'.applied == k.applied + 1 && k'.venue == k.venue
  {
    NotifyEvents(c, FoldReport(k, r), Oms.ApplyReport(k.view.instruments, k.oms, r).events)
  }

  function Deliver(c: Config, k: State, xs: seq<Venue.Scheduled>): (k': State)
    ensures Framed(k, k')
    ensures k'.applied == k.applied + |xs| && k'.venue == k.venue
    decreases |xs|
  {
    if xs == [] then k else Deliver(c, DeliverOne(c, k, xs[0].report), xs[1..])
  }

  function DrainReports(c: Config, k: State, frontier: Time): (k': State)
    ensures Framed(k, k')
    ensures Caught(k) ==> Caught(k')
  {
    var k1 := Do(c, k, Venue.Drain(k.clock.now, frontier));
    ProcessOutbox(c, Deliver(c, k1, k1.venue.delivered[|k.venue.delivered|..]))
  }

  function FireTimers(c: Config, k: State, ts: seq<Clock.Timer>): (k': State)
    ensures Framed(k, k')
    ensures Caught(k) ==> Caught(k')
    decreases |ts|
  {
    if ts == [] then k else FireTimers(c, ProcessOutbox(c, Notify(c, k, Timer(ts[0]))), ts[1..])
  }

  function PopTimers(c: Config, k: State, frontier: Time): (k': State)
    ensures Framed(k, k')
    ensures Caught(k) ==> Caught(k')
  {
    var p := Clock.PopDue(k.clock, frontier);
    FireTimers(c, k.(clock := p.c), p.fired)
  }

  function MatchEvent(c: Config, k: State, ev: Event): (k': State)
    ensures Framed(k.(cursor := k.cursor + 1, view := k.view.Observe(ev)), k')
    ensures Caught(k) ==> Caught(k')
  {
    var k1 := k.(cursor := k.cursor + 1, view := k.view.Observe(ev));
    ProcessOutbox(c, Notify(c, Do(c, k1, Venue.Match(k1.clock.now, k1.view, ev)), Input.Market(ev)))
  }

  function ConsumeEvent(c: Config, k: State, ev: Event, frontier: Time): State {
    var k1 := MatchEvent(c, k, ev);
    if ev.Bar? then k1.(curve := k1.curve + [(frontier, c.equity(k1.oms, k1.view))]) else k1
  }

  /** The kernel's own fill for a whole open position, booked and logged. */
  function Flattened(k: State, id: InstrumentId, px: Price, ts: Time): (k': State)
    requires OmsRuns.Open(k.view.instruments, k.oms, id)
    ensures Framed(k, k')
  {
    var fill := OmsRuns.Closing(k.oms, id, px, ts);
    Called(k, k.oms.Hold(id, Oms.BookFill(k.oms.Position(id), fill, k.view.instruments[id])),
           OmsRuns.Flatten(id, px, ts)).(fills := k.fills + [RowOf(fill)])
  }

  /** `close_position_at`. */
  function ClosePosition(c: Config, k: State, id: InstrumentId, px: Price, ts: Time, cause: Cause): (k': State)
    ensures Framed(k, k')
    ensures Caught(k) ==> Caught(k')
  {
    if !OmsRuns.Open(k.view.instruments, k.oms, id) then k else
      var fill := OmsRuns.Closing(k.oms, id, px, ts);
      var close := Close(id, fill.side, fill.qty, px, cause);
      ProcessOutbox(c, Notify(c, Notify(c, Flattened(k, id, px, ts), CloseFilled(close)), CloseUpdate(close)))
  }

  function OpenOrders(o: Oms.State, ids: seq<OrderId>, inst: InstrumentId): seq<OrderId> {
    if ids == [] then []
    else
      var rest := OpenOrders(o, ids[1..], inst);
      if ids[0] in o.orders && o.orders[ids[0]].order.inst == inst && !o.orders[ids[0]].status.Terminal()
      then [ids[0]] + rest else rest
  }

  function CancelAll(c: Config, k: State, ids: seq<OrderId>): (k': State)
    ensures Framed(k, k')
    ensures Caught(k) ==> Caught(k')
    decreases |ids|
  {
    if ids == [] then k else CancelAll(c, RequestCancel(c, k, ids[0]), ids[1..])
  }

  function SettleContract(c: Config, k: State, id: InstrumentId, frontier: Time): (k': State)
    ensures Framed(k, k')
    ensures Caught(k) ==> Caught(k')
  {
    if id !in k.view.instruments then k else
      var px := c.settlePx(id, k.view);
      var k1 := if px.Some? then ClosePosition(c, k, id, px.value, frontier, Settlement) else k;
      CancelAll(c, k1, OpenOrders(k1.oms, k1.oms.ids, id))
  }

  function SettleExpiries(c: Config, k: State, frontier: Time): (k': State)
    ensures Framed(k.(expiryCursor := k'.expiryCursor), k') && k.expiryCursor <= k'.expiryCursor
    ensures Caught(k) ==> Caught(k')
    decreases |c.expiries| - k.expiryCursor
  {
    if k.expiryCursor >= |c.expiries| || c.expiries[k.expiryCursor].0 > frontier then k else
      var k1 := SettleContract(c, k.(expiryCursor := k.expiryCursor + 1), c.expiries[k.expiryCursor].1, frontier);
      SettleExpiries(c, k1, frontier)
  }

  function OpenPositions(o: Oms.State, held: seq<InstrumentId>): seq<InstrumentId> {
    if held == [] then []
    else if o.Position(held[0]).signed != 0 then [held[0]] + OpenPositions(o, held[1..])
    else OpenPositions(o, held[1..])
  }

  function Liquidate(c: Config, k: State, ids: seq<InstrumentId>, frontier: Time): (k': State)
    ensures Framed(k, k')
    ensures Caught(k) ==> Caught(k')
    decreases |ids|
  {
    if ids == [] then k else
      var k1 := if ids[0] in k.view.marks
                then ClosePosition(c, k, ids[0], k.view.marks[ids[0]], frontier, Liquidation) else k;
      Liquidate(c, k1, ids[1..], frontier)
  }

  function CheckLiquidation(c: Config, k: State, frontier: Time): (k': State)
    ensures Framed(k, k')
    ensures Caught(k) ==> Caught(k')
  {
    if c.liquidates(k.oms, k.view) then Liquidate(c, k, OpenPositions(k.oms, k.oms.held), frontier) else k
  }

  // --- the loop -----------------------------------------------------------------------------

  function Sooner(a: Option<Time>, b: Option<Time>): Option<Time> {
    if a.None? then b else if b.None? then a else if a.value <= b.value then a else b
  }

  function NextMarket(events: seq<Event>, k: State): Option<Time> {
    if k.cursor < |events| then Some(events[k.cursor].ts) else None
  }

  function NextReport(k: State): Option<Time> {
    if k.venue.queue != [] then Some(k.venue.queue[0].due) else None
  }

  function NextExpiry(c: Config, k: State): Option<Time> {
    if k.expiryCursor < |c.expiries| then Some(c.expiries[k.expiryCursor].0) else None
  }

  function Frontier(c: Config, events: seq<Event>, k: State): Option<Time> {
    Sooner(Sooner(NextMarket(events, k), NextReport(k)), Sooner(Clock.PeekNext(k.clock), NextExpiry(c, k)))
  }

  /** One iteration of the loop at a given frontier. */
  function Iterate(c: Config, events: seq<Event>, k: State, frontier: Time): (k': State)
    ensures k'.clock.now == Clock.AdvanceTo(k.clock, frontier).now
    ensures k'.cursor == k.cursor + (if NextMarket(events, k) == Some(frontier) then 1 else 0)
    ensures k.curve <= k'.curve && |k'.curve| <= |k.curve| + 1
    ensures |k'.curve| > |k.curve| ==> NextMarket(events, k) == Some(frontier) && k'.curve[|k.curve|].0 == frontier
  {
    var market := NextMarket(events, k);
    var k1 := DrainReports(c, k.(clock := Clock.AdvanceTo(k.clock, frontier)), frontier);
    var k2 := PopTimers(c, k1, frontier);
    var k3 := if market == Some(frontier) then ConsumeEvent(c, k2, events[k2.cursor], frontier) else k2;
    CheckLiquidation(c, SettleExpiries(c, k3, frontier), frontier)
  }

  function Begin(c: Config, k: State): State { ProcessOutbox(c, Notify(c, k, Start)) }

  function Next(c: Config, events: seq<Event>, k: State): State {
    match Frontier(c, events, k)
    case Some(frontier) => Iterate(c, events, k, frontier)
    case None => k
  }

  /** The state after `n` iterations, or fewer if the loop has nothing left to do. */
  function After(c: Config, events: seq<Event>, k: State, n: nat): State {
    if n == 0 then Begin(c, k) else Next(c, events, After(c, events, k, n - 1))
  }
}
