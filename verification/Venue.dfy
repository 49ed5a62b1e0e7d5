/** The simulated exchange as a state machine: a book of resting orders and a queue of reports
    that become due `latency` after they are scheduled.

    The `BinaryHeap` of scheduled reports is kept in the order in which it pops. `issued` and
    `delivered` are histories: every report in the order it was scheduled, and every report handed
    out by `drain_due` in the order it was handed out. */
module Venue {
  import opened Domain
  import opened Brokerage

  datatype Trail = Trail(offset: int, extreme: Price)

  datatype Resting = Resting(
    order: Order, remaining: nat, queueAhead: Option<nat>, venueOrder: nat,
    trail: Option<Trail>, pendingOpen: bool)

  datatype Scheduled = Scheduled(due: Time, seqNo: nat, report: Report)

  datatype State = State(
    queue: seq<Scheduled>, seqNo: nat, resting: seq<Resting>, venueSeq: nat, tradeSeq: nat,
    issued: seq<Scheduled>, delivered: seq<Scheduled>)

  const EMPTY := State([], 0, [], 0, 0, [], [])

  datatype Op =
    | Submit(now: Time, view: View, order: Order)
    | Cancel(now: Time, id: OrderId)
    | Match(now: Time, view: View, ev: Event)
    | Drain(now: Time, frontier: Time)

  // --- the delayed-report queue -------------------------------------------------------------

  predicate Earlier(a: Scheduled, b: Scheduled) {
    a.due < b.due || (a.due == b.due && a.seqNo < b.seqNo)
  }

  function Enqueue(q: seq<Scheduled>, x: Scheduled): seq<Scheduled> {
    if q == [] then [x]
    else if Earlier(x, q[0]) then [x] + q
    else [q[0]] + Enqueue(q[1..], x)
  }

  function Push(s: State, due: Time, report: Report): (s': State)
    ensures s'.delivered == s.delivered
  {
    var x := Scheduled(due, s.seqNo + 1, report);
    s.(queue := Enqueue(s.queue, x), seqNo := s.seqNo + 1, issued := s.issued + [x])
  }

  function Pop(s: State): State
    requires s.queue != []
  {
    s.(queue := s.queue[1..], delivered := s.delivered + [s.queue[0]])
  }

  function DrainDue(s: State, frontier: Time): (s': State)
    ensures s.delivered <= s'.delivered
    decreases |s.queue|
  {
    if s.queue == [] || s.queue[0].due > frontier then s else DrainDue(Pop(s), frontier)
  }

  // --- submission and cancellation ----------------------------------------------------------

  predicate Marketable(view: View, o: Order) {
    match o.kind
    case Market => true
    case Limit =>
      var ref := view.Reference(o.inst, o.side);
      o.price.Some? && ref.Some? &&
      (if o.side.Buy? then ref.value <= o.price.value else ref.value >= o.price.value)
    case _ => false
  }

  /** A trailing stop starts at the mark; without a mark, a trigger or a positive distance it is inert. */
  function SeedTrail(view: View, o: Order): Option<Trail> {
    var mark := view.Mark(o.inst);
    if o.kind.TrailingStopMarket? && mark.Some? && o.trigger.Some? then
      match Checked(if o.side.Sell? then mark.value - o.trigger.value else o.trigger.value - mark.value)
      case Some(offset) => if offset > 0 then Some(Trail(offset, mark.value)) else None
      case None => None
    else None
  }

  function Rest(view: View, o: Order, venueOrder: nat): Resting {
    if Marketable(view, o)
    then Resting(o, o.quantity, None, venueOrder, None, true)
    else Resting(o, o.quantity, None, venueOrder, SeedTrail(view, o), false)
  }

  function OnSubmit(m: BrokerageModel, s: State, now: Time, view: View, o: Order): (s': State)
    ensures s'.delivered == s.delivered
  {
    if o.inst !in view.instruments then s else
      var v := s.venueSeq + 1;
      var s1 := Push(s.(venueSeq := v), Later(now, m.submitLatency), Report.Accepted(o.id, v));
      s1.(resting := s1.resting + [Rest(view, o, v)])
  }

  /** Position of the first resting order with this id, or the length of the book. */
  function IndexOf(rs: seq<Resting>, id: OrderId): (i: nat)
    ensures i <= |rs|
    ensures i < |rs| ==> rs[i].order.id == id
    ensures forall j :: 0 <= j < i ==> rs[j].order.id != id
  {
    if rs == [] || rs[0].order.id == id then 0 else 1 + IndexOf(rs[1..], id)
  }

  function OnCancel(m: BrokerageModel, s: State, now: Time, id: OrderId): (s': State)
    ensures s'.delivered == s.delivered
  {
    var i := IndexOf(s.resting, id);
    if i == |s.resting| then s
    else Push(s.(resting := s.resting[..i] + s.resting[i + 1..]),
              Later(now, m.cancelLatency), Report.Canceled(id))
  }

  // --- matching one resting order against one tick ------------------------------------------

  /** A priced quantity and, for a passive limit, the queue estimate to write back. */
  datatype Decision = Decision(px: Price, qty: nat, newQueue: Option<nat>, liquidity: Liquidity)

  function Cap(m: BrokerageModel, lot: nat, r: Resting, t: Tick): (q: nat)
    ensures q <= r.remaining
  {
    if t.volume.Some? then FillableQty(m, r.remaining, t.volume.value, lot) else r.remaining
  }

  /** `p` is at least as good as the limit for this side. */
  predicate Within(side: Side, p: Price, limit: Price) {
    if side.Buy? then p <= limit else p >= limit
  }

  function DecidePending(m: BrokerageModel, lot: nat, r: Resting, t: Tick): Option<Decision> {
    var limit := r.order.price;
    if limit.Some? && !Within(r.order.side, t.open, limit.value) then None else
      var qty := Cap(m, lot, r, t);
      if qty == 0 then None else
        var raw := FillPrice(m, r.order.side, t.open, t.low, t.high);
        var px := match limit
          case None => raw
          case Some(l) => if r.order.side.Buy? then Min(raw, l) else Max(raw, l);
        Some(Decision(px, qty, None, Taker))
  }

  predicate Triggered(side: Side, trigger: Price, t: Tick) {
    if side.Buy? then t.high >= trigger else t.low <= trigger
  }

  predicate Armed(r: Resting) {
    r.order.trigger.Some? && (r.order.kind.TrailingStopMarket? ==> r.trail.Some?)
  }

  /** The trigger, worsened to the bar when the price gapped past it. */
  function StopReference(side: Side, trigger: Price, t: Tick): Price {
    if side.Buy? then Max(trigger, t.low) else Min(trigger, t.high)
  }

  function DecideStop(m: BrokerageModel, lot: nat, r: Resting, t: Tick): Option<Decision> {
    if Armed(r) && (r.order.kind.StopMarket? || r.order.kind.TrailingStopMarket?)
       && Triggered(r.order.side, r.order.trigger.value, t) && Cap(m, lot, r, t) > 0
    then
      var ref := StopReference(r.order.side, r.order.trigger.value, t);
      Some(Decision(FillPrice(m, r.order.side, ref, t.low, t.high), Cap(m, lot, r, t), None, Taker))
    else None
  }

  /** An unpriced remainder takes liquidity on bars only. */
  function DecideAggressive(m: BrokerageModel, lot: nat, r: Resting, t: Tick): Option<Decision> {
    if t.volume.None? || Cap(m, lot, r, t) == 0 then None
    else Some(Decision(FillPrice(m, r.order.side, t.close, t.low, t.high), Cap(m, lot, r, t), None, Taker))
  }

  predicate Through(side: Side, limit: Price, t: Tick) {
    if side.Buy? then t.low < limit else t.high > limit
  }

  predicate Touch(side: Side, limit: Price, t: Tick) {
    if side.Buy? then t.low == limit else t.high == limit
  }

  function QueueBefore(m: BrokerageModel, r: Resting, volume: nat): nat {
    if r.queueAhead.Some? then r.queueAhead.value else InitialQueue(m, volume)
  }

  function DecidePassive(m: BrokerageModel, lot: nat, r: Resting, t: Tick, limit: Price): Option<Decision> {
    var through := Through(r.order.side, limit, t);
    if !through && !Touch(r.order.side, limit, t) then None
    else if t.volume.None? then
      if r.remaining > 0 then Some(Decision(limit, r.remaining, None, Maker)) else None
    else
      var share := Cap(m, lot, r, t);
      var queue := QueueBefore(m, r, t.volume.value);
      if through then Some(Decision(limit, share, Some(0), Maker))
      else
        var paid := Min(share, queue);
        Some(Decision(limit, share - paid, Some(queue - paid), Maker))
  }

  function Decide(m: BrokerageModel, lot: nat, r: Resting, t: Tick): (d: Option<Decision>)
    ensures d.Some? ==> d.value.qty <= r.remaining
  {
    if r.pendingOpen then DecidePending(m, lot, r, t)
    else if !r.order.kind.Market? && !r.order.kind.Limit? then DecideStop(m, lot, r, t)
    else match r.order.price
      case None => DecideAggressive(m, lot, r, t)
      case Some(limit) => DecidePassive(m, lot, r, t, limit)
  }

  /** The ratcheted trail and trigger of a trailing stop that was not hit. */
  function Ratchet(r: Resting, t: Tick): Option<(Price, Price)>
    requires r.trail.Some?
  {
    var extreme := if r.order.side.Sell? then Max(r.trail.value.extreme, t.high) else Min(r.trail.value.extreme, t.low);
    match Checked(if r.order.side.Sell? then extreme - r.trail.value.offset else extreme + r.trail.value.offset)
    case Some(trigger) => Some((extreme, trigger))
    case None => None
  }

  predicate Activates(r: Resting, t: Tick) {
    !r.pendingOpen && r.order.kind.StopLimit? && Armed(r) && Triggered(r.order.side, r.order.trigger.value, t)
  }

  predicate Trails(r: Resting, t: Tick) {
    !r.pendingOpen && r.order.kind.TrailingStopMarket? && Armed(r)
    && !Triggered(r.order.side, r.order.trigger.value, t) && Ratchet(r, t).Some?
  }

  function Trailed(r: Resting, extreme: Price, trigger: Price): Resting {
    r.(order := r.order.(trigger := Some(trigger)),
       trail := if r.trail.Some? then Some(r.trail.value.(extreme := extreme)) else None)
  }

  /** The write-backs that do not depend on a fill. */
  function Adjusted(r: Resting, t: Tick): Resting {
    if r.pendingOpen then r.(pendingOpen := false)
    else if Activates(r, t) then r.(order := r.order.(kind := Limit))
    else if Trails(r, t) then Trailed(r, Ratchet(r, t).value.0, Ratchet(r, t).value.1)
    else r
  }

  function Settled(r: Resting, d: Decision): Resting {
    r.(remaining := if d.qty < r.remaining then r.remaining - d.qty else 0,
       queueAhead := if d.newQueue.Some? then d.newQueue else r.queueAhead)
  }

  /** The order after the tick, decided fill included. */
  function Stepped(m: BrokerageModel, lot: nat, r: Resting, t: Tick): Resting {
    var d := Decide(m, lot, r, t);
    if d.Some? then Settled(Adjusted(r, t), d.value) else Adjusted(r, t)
  }

  /** The order leaves the book: it was decided upon and nothing remains. */
  predicate Exhausted(m: BrokerageModel, lot: nat, r: Resting, t: Tick) {
    Decide(m, lot, r, t).Some? && Stepped(m, lot, r, t).remaining == 0
  }

  // --- matching the whole book --------------------------------------------------------------

  function FillOf(s: State, inst: Instrument, r: Resting, d: Decision, ts: Time): Fill {
    Fill(s.tradeSeq + 1, r.order.id, r.venueOrder, r.order.inst, r.order.side, d.px, d.qty,
         Fee(inst, d.px, d.qty, d.liquidity), d.liquidity, ts)
  }

  function Emit(m: BrokerageModel, s: State, now: Time, inst: Instrument, r: Resting, d: Decision): (s': State)
    ensures s'.delivered == s.delivered
  {
    if d.qty == 0 then s else
      var at := Later(now, m.submitLatency);
      Push(s.(tradeSeq := s.tradeSeq + 1), at, Report.Filled(FillOf(s, inst, r, d, at)))
  }

  /** One book entry; `s.resting` holds the survivors so far. */
  function MatchOne(m: BrokerageModel, s: State, now: Time, id: InstrumentId, inst: Instrument, t: Tick,
      r: Resting): (s': State)
    ensures s'.delivered == s.delivered
  {
    if r.order.inst != id then s.(resting := s.resting + [r]) else
      var d := Decide(m, inst.lot, r, t);
      var s1 := if d.Some? then Emit(m, s, now, inst, r, d.value) else s;
      if Exhausted(m, inst.lot, r, t) then s1
      else s1.(resting := s1.resting + [Stepped(m, inst.lot, r, t)])
  }

  function MatchAll(m: BrokerageModel, s: State, now: Time, id: InstrumentId, inst: Instrument, t: Tick,
      rs: seq<Resting>): (s': State)
    ensures s'.delivered == s.delivered
    decreases |rs|
  {
    if rs == [] then s
    else MatchAll(m, MatchOne(m, s, now, id, inst, t, rs[0]), now, id, inst, t, rs[1..])
  }

  function OnMarket(m: BrokerageModel, s: State, now: Time, view: View, ev: Event): (s': State)
    ensures s'.delivered == s.delivered
  {
    if ev.inst !in view.instruments || TickOf(ev).None? then s
    else MatchAll(m, s.(resting := []), now, ev.inst, view.instruments[ev.inst], TickOf(ev).value, s.resting)
  }

  // --- runs ---------------------------------------------------------------------------------

  function Apply(m: BrokerageModel, s: State, op: Op): (s': State)
    ensures s.delivered <= s'.delivered && (!op.Drain? ==> s'.delivered == s.delivered)
  {
    match op
    case Submit(now, view, o) => OnSubmit(m, s, now, view, o)
    case Cancel(now, id) => OnCancel(m, s, now, id)
    case Match(now, view, ev) => OnMarket(m, s, now, view, ev)
    case Drain(_, frontier) => DrainDue(s, frontier)
  }

  function Run(m: BrokerageModel, ops: seq<Op>): State {
    if ops == [] then EMPTY else Apply(m, Run(m, ops[..|ops| - 1]), ops[|ops| - 1])
  }

  /** The clock never moves back, and reports are drained no further than the clock. */
  predicate Timed(ops: seq<Op>) {
    && (forall i, j :: 0 <= i < j < |ops| ==> ops[i].now <= ops[j].now)
    && (forall i :: 0 <= i < |ops| && ops[i].Drain? ==> ops[i].frontier <= ops[i].now)
  }

  predicate Submits(op: Op, id: OrderId) {
    op.Submit? && op.order.id == id && op.order.inst in op.view.instruments
  }

  /** No client order id reaches the venue twice. */
  ghost predicate Fresh(ops: seq<Op>) {
    forall i, j :: 0 <= i < j < |ops| && ops[j].Submit? && Submits(ops[j], ops[j].order.id)
      ==> !Submits(ops[i], ops[j].order.id)
  }
}
