/** What the order management system makes of a submission, stated from the clock, the books and the
    gate alone; and what market data leaves behind for it to read. */
module Submissions {
  import opened Domain
  import opened Oms
  import opened OmsRuns
  import Kernel
  import KernelBooks
  import Venue

  // --- the session day ------------------------------------------------------------------------------

  const SECOND := 1_000_000_000
  const DAY := 86_400

  /** The day a time falls on: in Shanghai, eight hours ahead, for A-shares, and otherwise in UTC. */
  lemma DayHolds(inst: Instrument, ts: Time)
    ensures var d, shift := DayKey(inst, ts), if inst.ashare then 8 * 3600 else 0;
      d * DAY <= ts / SECOND + shift < (d + 1) * DAY
  {
  }

  // --- one submission -------------------------------------------------------------------------------

  predicate Expired(inst: Instrument, now: Time) { inst.expiry.Some? && inst.expiry.value <= now }

  /** A sell of an A-share for more than the long position less the day's purchases. */
  predicate Unsettled(o: State, inst: Instrument, order: Order, now: Time) {
    var free := o.Position(order.inst).signed - o.Bought(order.inst, DayKey(inst, now));
    inst.ashare && order.side.Sell? && order.quantity > 0 && order.quantity > free
  }

  /** The marks of A-shares are noted under the session day when an order reaches the price check. */
  predicate Notes(o: State, view: View, now: Time, order: Order) {
    && order.id !in o.orders && order.inst in view.instruments
    && var inst := view.instruments[order.inst];
       inst.ashare && !Expired(inst, now) && !Unsettled(o, inst, order, now) && order.inst in view.marks
  }

  /** The closes a submission leaves. */
  function ClosesAfter(o: State, view: View, now: Time, order: Order): map<(InstrumentId, nat), Price> {
    if Notes(o, view, now, order)
    then o.closes[(order.inst, DayKey(view.instruments[order.inst], now)) := view.marks[order.inst]]
    else o.closes
  }

  /** An order is tracked and nothing else but the closes changes. */
  ghost predicate Tracks(o: State, o': State, order: Order, status: Status) {
    && o'.orders == o.orders[order.id := Tracked(order, status, 0)]
    && o'.positions == o.positions && o'.bought == o.bought && o'.seen == o.seen
  }

  /** An order already tracked or on an unknown instrument is ignored. Any other is routed if and only
      if the instrument has not expired, a sell of an A-share is of settled shares, and the gate
      agrees on the closes as just noted; it is then tracked as submitted. Otherwise it is tracked as denied. */
  lemma JudgedIff(gate: Gate, o: State, view: View, now: Time, order: Order)
    ensures var v, closes := Judge(gate, o, view, now, order), ClosesAfter(o, view, now, order);
      && (v.Ignored? <==> order.id in o.orders || order.inst !in view.instruments)
      && (!v.Ignored? ==>
            && (v.Routed? <==>
                  && !Expired(view.instruments[order.inst], now)
                  && !Unsettled(o, view.instruments[order.inst], order, now)
                  && gate(order, o.(closes := closes), view, now))
            && v.oms.closes == closes
            && Tracks(o, v.oms, order, if v.Routed? then Status.Submitted else Status.Denied))
  {
    hide DayKey, Unsettled, Sellable;
    if order.inst in view.instruments {
      UnsettledIff(o, view.instruments[order.inst], order, now);
    }
  }

  lemma UnsettledIff(o: State, inst: Instrument, order: Order, now: Time)
    ensures Unsettled(o, inst, order, now) <==>
      order.side.Sell? && inst.ashare && order.quantity > Sellable(o, inst, order.inst, now)
  {
    hide DayKey;
  }

  // --- the closes over a run ------------------------------------------------------------------------

  /** The last mark noted for an instrument on a session day. */
  function LastMark(gate: Gate, insts: Instruments, calls: seq<Call>, i: InstrumentId, day: nat): Option<Price> {
    if calls == [] then None else
      var n := |calls| - 1;
      var call, before := calls[n], LastMark(gate, insts, calls[..n], i, day);
      if call.Submit? && call.order.inst == i && i in insts && DayKey(insts[i], call.now) == day
         && Notes(OmsRuns.Run(gate, insts, calls[..n]), call.view.(instruments := insts), call.now, call.order)
      then Some(call.view.marks[i]) else before
  }

  lemma ReportKeepsCloses(insts: Instruments, o: State, r: Report)
    ensures ApplyReport(insts, o, r).oms.closes == o.closes
  {
    hide Transition, BookFill, DayKey;
  }

  lemma CallCloses(gate: Gate, insts: Instruments, o: State, call: Call)
    ensures OmsRuns.Apply(gate, insts, o, call).closes ==
      if call.Submit? then ClosesAfter(o, call.view.(instruments := insts), call.now, call.order) else o.closes
  {
    hide Judge, ApplyReport, BookFill, ClosesAfter;
    match call
    case Submit(view, now, order) =>
      JudgedIff(gate, o, view.(instruments := insts), now, order);
      IgnoredNotesNothing(o, view.(instruments := insts), now, order);
    case Take(r) => ReportKeepsCloses(insts, o, r);
    case _ =>
  }

  lemma IgnoredNotesNothing(o: State, view: View, now: Time, order: Order)
    ensures order.id in o.orders || order.inst !in view.instruments ==> ClosesAfter(o, view, now, order) == o.closes
  {
    hide DayKey;
  }

  /** After any run, the close of an instrument on a session day is the last mark noted for it on that day. */
  lemma {:induction false} ClosesAreLastMarks(gate: Gate, insts: Instruments, calls: seq<Call>, i: InstrumentId,
      day: nat)
    ensures var closes := OmsRuns.Run(gate, insts, calls).closes;
      LastMark(gate, insts, calls, i, day) == if (i, day) in closes then Some(closes[(i, day)]) else None
  {
    hide OmsRuns.Apply, DayKey, Expired, Unsettled;
    if calls != [] {
      var n := |calls| - 1;
      ClosesAreLastMarks(gate, insts, calls[..n], i, day);
      CallCloses(gate, insts, OmsRuns.Run(gate, insts, calls[..n]), calls[n]);
    }
  }

  // --- in the kernel --------------------------------------------------------------------------------

  /** In every kernel run, every order that reached the venue is on a known instrument that had not
      expired when it was submitted. */
  lemma VenueOrdersAreLive(c: Kernel.Config, es: seq<Event>, start: Time, insts: Instruments, n: nat, q: nat)
    requires var k := Kernel.After(c, es, Kernel.Initial(start, insts), n); q < |k.log| && k.log[q].Submit?
    ensures var op := Kernel.After(c, es, Kernel.Initial(start, insts), n).log[q];
      op.order.inst in insts && !Expired(insts[op.order.inst], op.now)
  {
    hide Kernel.After, OmsRuns.Run, Judge, Expired;
    KernelBooks.OrdersAreSourced(c, es, start, insts, n);
    var k := Kernel.After(c, es, Kernel.Initial(start, insts), n);
    var op := k.log[q];
    var p: nat :| KernelBooks.RoutedBy(c, insts, k.calls, p, op);
    JudgedIff(c.gate, OmsRuns.Run(c.gate, insts, k.calls[..p]), op.view.(instruments := insts), op.now, op.order);
  }

  // --- market data ----------------------------------------------------------------------------------

  /** What an event says to a resting order: a quote spans bid to ask around the mid, a trade is one
      price, a bar is its range with its volume, and a book delta says nothing. */
  lemma TicksOf(ev: Event)
    ensures TickOf(ev).None? <==> ev.Delta?
    ensures ev.Quote? ==> var t := TickOf(ev).value;
      t.low == ev.bid && t.high == ev.ask && t.open == t.close && t.volume.None?
      && 2 * t.close <= ev.bid + ev.ask < 2 * t.close + 2
    ensures ev.Trade? ==> TickOf(ev).value == Tick(ev.px, ev.px, ev.px, ev.px, None)
    ensures ev.Bar? ==> var t := TickOf(ev).value;
      t.open == ev.open && t.low == ev.low && t.high == ev.high && t.close == ev.close && t.volume == Some(ev.volume)
  {
  }

  /** An event moves the mark of its own instrument, to where its tick closes, and nobody else's; a quote
      is from then on the reference of its side, and without one the mark is. */
  lemma ObservedView(view: View, ev: Event, id: InstrumentId, side: Side)
    ensures var view' := view.Observe(ev);
      && view'.instruments == view.instruments
      && view'.Mark(id) == (if id == ev.inst && TickOf(ev).Some? then Some(TickOf(ev).value.close) else view.Mark(id))
      && view'.Reference(id, side) ==
         if id == ev.inst && ev.Quote? then Some(if side.Buy? then ev.ask else ev.bid)
         else if id in view.quotes then view.Reference(id, side)
         else view'.Mark(id)
  {
  }
}
