/** The order management system: the event-sourced order FSM, and the folding of execution reports
    into orders, positions and the A-share T+1 ledger. */
module Oms {
  import opened Domain

  // --- the order FSM ------------------------------------------------------------------------

  datatype Status =
    | Initialized | Denied | Submitted | Accepted | PendingUpdate | PendingCancel
    | PartiallyFilled | Filled | Canceled | Expired | Rejected
  {
    predicate Terminal() { Denied? || Filled? || Canceled? || Expired? || Rejected? }
  }

  datatype Tracked = Tracked(order: Order, status: Status, filled: nat) {
    /** Saturating: an overfill leaves nothing. */
    function Leaves(): nat { if filled < order.quantity then order.quantity - filled else 0 }
  }

  datatype OrderEvent =
    | EvInitialized | EvSubmitted | EvDenied | EvAccepted(venueOrder: nat) | EvPendingUpdate
    | EvUpdated(quantity: Option<nat>, price: Option<Price>) | EvPendingCancel
    | EvPartiallyFilled(fill: Fill) | EvFilled(fill: Fill) | EvRejected | EvCanceled | EvExpired
  {
    predicate IsFill() { EvPartiallyFilled? || EvFilled? }
  }

  /** `Order::apply`: the new order, or none when the transition is refused. */
  function Transition(t: Tracked, ev: OrderEvent): Option<Tracked> {
    var s := t.status;
    match ev
    case EvInitialized => None
    case EvSubmitted => if s.Initialized? then Some(t.(status := Status.Submitted)) else None
    case EvAccepted(_) => if s.Submitted? then Some(t.(status := Status.Accepted)) else None
    case EvPendingUpdate => if s.Accepted? || s.PartiallyFilled? then Some(t.(status := Status.PendingUpdate)) else None
    case EvUpdated(q, p) =>
      if s.PendingUpdate? then
        Some(t.(order := t.order.(quantity := if q.Some? then q.value else t.order.quantity,
                                  price := if p.Some? then p else t.order.price),
                status := if t.filled > 0 then Status.PartiallyFilled else Status.Accepted))
      else None
    case EvPendingCancel =>
      if s.Accepted? || s.PartiallyFilled? || s.PendingUpdate? then Some(t.(status := Status.PendingCancel)) else None
    case EvPartiallyFilled(f) => FillTransition(t, f)
    case EvFilled(f) => FillTransition(t, f)
    case EvDenied => if s.Initialized? then Some(t.(status := Status.Denied)) else None
    case EvRejected => if s.Submitted? || s.PendingUpdate? then Some(t.(status := Status.Rejected)) else None
    case EvCanceled =>
      if s.Accepted? || s.PartiallyFilled? || s.PendingCancel? then Some(t.(status := Status.Canceled)) else None
    case EvExpired => if s.Accepted? || s.PartiallyFilled? then Some(t.(status := Status.Expired)) else None
  }

  /** A fill is taken while the order is open, and in particular not while a cancel is pending. */
  predicate TakesFills(s: Status) { s.Accepted? || s.PartiallyFilled? || s.PendingUpdate? }

  function FillTransition(t: Tracked, f: Fill): Option<Tracked> {
    if !TakesFills(t.status) then None else
      var t' := t.(filled := t.filled + f.qty);
      Some(t'.(status := if t'.Leaves() == 0 then Status.Filled else Status.PartiallyFilled))
  }

  // --- positions ----------------------------------------------------------------------------

  datatype Position = Position(signed: int, avg: real, realized: real)

  const FLAT := Position(0, 0.0, 0.0)

  /** Profit per unit; an entry price of zero yields none. */
  function PnlPerQty(inst: Instrument, entry: real, exit: real): real {
    if entry == 0.0 then 0.0
    else if !inst.inverse then inst.multiplier as real * (exit - entry)
    else if exit == 0.0 then 0.0
    else inst.multiplier as real * (1.0 / entry - 1.0 / exit)
  }

  /** The price of `a` units at `p` and `b` at `q`. */
  function Average(p: real, a: nat, q: real, b: nat): real
    requires a + b > 0
  {
    (p * a as real + q * b as real) / (a + b) as real
  }

  /** `Position::apply_fill`, in exact arithmetic. */
  function BookFill(p: Position, f: Fill, inst: Instrument): Position {
    var cur, px := p.signed, f.px as real;
    var delta := f.side.Sign() * f.qty;
    var same := cur == 0 || (cur > 0) == (delta > 0);
    var avg :=
      if cur == 0 then px
      else if same then
        if Abs(cur) + f.qty == 0 then px else Average(p.avg, Abs(cur), px, f.qty)
      else if f.qty > Abs(cur) then px
      else p.avg;
    var gain :=
      if same then 0.0
      else (if cur > 0 then 1.0 else -1.0) * Min(Abs(cur), f.qty) as real * PnlPerQty(inst, p.avg, px);
    Position(cur + delta, if cur + delta == 0 then 0.0 else avg, p.realized + gain - f.fee)
  }

  // --- the engine's state -------------------------------------------------------------------

  /** `ids` and `held` list the keys of the hash maps in insertion order. */
  datatype State = State(
    orders: map<OrderId, Tracked>, ids: seq<OrderId>,
    positions: map<InstrumentId, Position>, held: seq<InstrumentId>,
    seen: set<nat>,
    bought: map<(InstrumentId, nat), nat>,
    closes: map<(InstrumentId, nat), Price>)
  {
    function Position(i: InstrumentId): Position { if i in positions then positions[i] else FLAT }
    function Bought(i: InstrumentId, day: nat): nat { if (i, day) in bought then bought[(i, day)] else 0 }

    function Track(t: Tracked): State {
      this.(orders := orders[t.order.id := t], ids := if t.order.id in orders then ids else ids + [t.order.id])
    }

    function Hold(i: InstrumentId, p: Position): State {
      this.(positions := positions[i := p], held := if i in positions then held else held + [i])
    }
  }

  const EMPTY := State(map[], [], map[], [], {}, map[], map[])

  type Instruments = map<InstrumentId, Instrument>

  /** Session day: Shanghai time for A-shares, UTC otherwise. */
  function DayKey(inst: Instrument, ts: Time): nat {
    var secs := ts / 1_000_000_000;
    (if inst.ashare then secs + 8 * 3600 else secs) / 86_400
  }

  datatype Outcome = Outcome(oms: State, events: seq<OrderEvent>)

  /** Offer an event to the tracked order, if there is one. */
  function Fire(o: State, id: OrderId, ev: OrderEvent): Outcome {
    if id in o.orders && Transition(o.orders[id], ev).Some?
    then Outcome(o.(orders := o.orders[id := Transition(o.orders[id], ev).value]), [ev])
    else Outcome(o, [])
  }

  /** Fold an accepted fill into the ledger and the position. */
  function Settle(insts: Instruments, o: State, f: Fill): State {
    if f.inst !in insts then o else
      var inst := insts[f.inst];
      var day := DayKey(inst, f.ts);
      var o1 := if f.side.Buy? && inst.ashare
                then o.(bought := o.bought[(f.inst, day) := o.Bought(f.inst, day) + f.qty]) else o;
      o1.Hold(f.inst, BookFill(o1.Position(f.inst), f, inst))
  }

  function ApplyFill(insts: Instruments, o: State, f: Fill): Outcome {
    if f.trade in o.seen then Outcome(o, []) else
      var o1 := o.(seen := o.seen + {f.trade});
      if f.order !in o1.orders then Outcome(o1, []) else
        var ev := if f.qty >= o1.orders[f.order].Leaves() then EvFilled(f) else EvPartiallyFilled(f);
        var out := Fire(o1, f.order, ev);
        if out.events == [] then out else out.(oms := Settle(insts, out.oms, f))
  }

  function ApplyReport(insts: Instruments, o: State, r: Report): Outcome {
    match r
    case Accepted(id, v) => Fire(o, id, EvAccepted(v))
    case Filled(f) => ApplyFill(insts, o, f)
    case Rejected(id) => Fire(o, id, EvRejected)
    case Canceled(id) => Fire(o, id, EvCanceled)
    case Expired(id) => Fire(o, id, EvExpired)
    case PendingUpdate(id) => Fire(o, id, EvPendingUpdate)
    case Modified(id, q, p) => Fire(o, id, EvUpdated(q, p))
    case PendingCancel(id) => Fire(o, id, EvPendingCancel)
  }

  function Fold(insts: Instruments, o: State, rs: seq<Report>): State {
    if rs == [] then o else ApplyReport(insts, Fold(insts, o, rs[..|rs| - 1]), rs[|rs| - 1]).oms
  }

  // --- submission -----------------------------------------------------------------------------

  /** The price band and the pre-trade risk gate together. */
  type Gate = (Order, State, View, Time) -> bool

  function Sellable(o: State, inst: Instrument, id: InstrumentId, now: Time): nat {
    var long := Max(0, o.Position(id).signed);
    Max(0, long - o.Bought(id, DayKey(inst, now)))
  }

  /** `observe_mark`: the session-day close, for A-shares. */
  function ObserveMark(o: State, inst: Instrument, id: InstrumentId, view: View, now: Time): State {
    if inst.ashare && id in view.marks
    then o.(closes := o.closes[(id, DayKey(inst, now)) := view.marks[id]]) else o
  }

  datatype Verdict = Ignored | Refused(oms: State) | Routed(oms: State)

  /** `ExecutionEngine::submit` up to the call of the venue. */
  function Judge(gate: Gate, o: State, view: View, now: Time, order: Order): Verdict {
    if order.id in o.orders || order.inst !in view.instruments then Ignored else
      var inst := view.instruments[order.inst];
      var denied := Tracked(order, Status.Denied, 0);
      if inst.expiry.Some? && now >= inst.expiry.value then Refused(o.Track(denied))
      else if order.side.Sell? && inst.ashare && order.quantity > Sellable(o, inst, order.inst, now)
      then Refused(o.Track(denied))
      else
        var o1 := ObserveMark(o, inst, order.inst, view, now);
        if gate(order, o1, view, now)
        then Routed(o1.Track(Tracked(order, Status.Submitted, 0)))
        else Refused(o1.Track(denied))
  }

  // --- exactly once -------------------------------------------------------------------------

  function Trades(rs: seq<Report>): set<nat> {
    set r | r in rs && r.Filled? :: r.fill.trade
  }

  lemma ReportKeeps(insts: Instruments, o: State, r: Report)
    ensures var o' := ApplyReport(insts, o, r).oms;
      && o'.seen == o.seen + (if r.Filled? then {r.fill.trade} else {})
      && o'.orders.Keys == o.orders.Keys && o'.ids == o.ids
      && (!r.Filled? ==> o'.positions == o.positions && o'.bought == o.bought)
  {
    hide Transition, BookFill;
  }

  lemma {:induction false} SeenGrows(insts: Instruments, o: State, rs: seq<Report>)
    ensures Fold(insts, o, rs).seen == o.seen + Trades(rs)
  {
    if rs != [] {
      var n := |rs| - 1;
      SeenGrows(insts, o, rs[..n]);
      ReportKeeps(insts, Fold(insts, o, rs[..n]), rs[n]);
      assert rs == rs[..n] + [rs[n]];
      assert Trades(rs) == Trades(rs[..n]) + if rs[n].Filled? then {rs[n].fill.trade} else {};
    }
  }

  /** Inserting a later copy of a fill, even one with different contents, anywhere in any report
      sequence leaves orders, positions, ledger and everything else unchanged. */
  lemma {:induction false} ReplayIsHarmless(insts: Instruments, o: State, before: seq<Report>, copy: Fill,
      after: seq<Report>)
    requires copy.trade in Trades(before)
    ensures Fold(insts, o, before + [Report.Filled(copy)] + after) == Fold(insts, o, before + after)
    decreases |after|
  {
    var dup := Report.Filled(copy);
    if after == [] {
      assert before + [dup] + after == before + [dup] && before + after == before;
      assert (before + [dup])[..|before|] == before;
      SeenGrows(insts, o, before);
    } else {
      var n := |after| - 1;
      assert (before + [dup] + after)[..|before| + 1 + n] == before + [dup] + after[..n];
      assert (before + after)[..|before| + n] == before + after[..n];
      ReplayIsHarmless(insts, o, before, copy, after[..n]);
    }
  }

  /** Drop every fill whose trade id came before. */
  function FirstCopies(rs: seq<Report>): seq<Report> {
    if rs == [] then []
    else
      var n := |rs| - 1;
      if rs[n].Filled? && rs[n].fill.trade in Trades(rs[..n]) then FirstCopies(rs[..n])
      else FirstCopies(rs[..n]) + [rs[n]]
  }

  /** Folding a stream is folding its first copies. */
  lemma {:induction false} FoldsFirstCopies(insts: Instruments, o: State, rs: seq<Report>)
    ensures Fold(insts, o, rs) == Fold(insts, o, FirstCopies(rs))
  {
    if rs != [] {
      var n := |rs| - 1;
      FoldsFirstCopies(insts, o, rs[..n]);
      SeenGrows(insts, o, rs[..n]);
      var kept := FirstCopies(rs[..n]);
      assert (kept + [rs[n]])[..|kept|] == kept;
    }
  }

  // --- what the folded state means ----------------------------------------------------------

  /** The fills the FSM accepted on known instruments, in order. */
  function BookedFills(insts: Instruments, o: State, rs: seq<Report>): seq<Fill> {
    if rs == [] then []
    else
      var n := |rs| - 1;
      var before, r := BookedFills(insts, o, rs[..n]), rs[n];
      if r.Filled? && r.fill.inst in insts && ApplyReport(insts, Fold(insts, o, rs[..n]), r).events != []
      then before + [r.fill] else before
  }

  function Net(fs: seq<Fill>, i: InstrumentId): int {
    if fs == [] then 0
    else
      var f := fs[|fs| - 1];
      Net(fs[..|fs| - 1], i) + if f.inst == i then f.side.Sign() * f.qty else 0
  }

  /** Bought quantity of an A-share on one session day. */
  function BoughtOn(insts: Instruments, fs: seq<Fill>, i: InstrumentId, day: nat): nat {
    if fs == [] then 0
    else
      var f := fs[|fs| - 1];
      BoughtOn(insts, fs[..|fs| - 1], i, day)
      + if f.inst == i && i in insts && insts[i].ashare && f.side.Buy?
          && DayKey(insts[i], f.ts) == day then f.qty else 0
  }

  lemma FillBooks(insts: Instruments, o: State, f: Fill, i: InstrumentId, day: nat)
    ensures var out := ApplyFill(insts, o, f); var booked := out.events != [] && f.inst in insts;
      && out.oms.Position(i).signed
          == o.Position(i).signed + (if booked && f.inst == i then f.side.Sign() * f.qty else 0)
      && out.oms.Bought(i, day) == o.Bought(i, day)
         + (if booked && f.inst == i && insts[i].ashare && f.side.Buy?
             && DayKey(insts[i], f.ts) == day then f.qty else 0)
      && (out.events != [] ==> f.trade !in o.seen)
  {
  }

  /** The net position is the signed sum, and each ledger cell the day's A-share buys, of the
      fills that the FSM accepted. */
  lemma {:induction false} BooksAreSums(insts: Instruments, o: State, rs: seq<Report>, i: InstrumentId, day: nat)
    ensures var fs, o' := BookedFills(insts, o, rs), Fold(insts, o, rs);
      && o'.Position(i).signed == o.Position(i).signed + Net(fs, i)
      && o'.Bought(i, day) == o.Bought(i, day) + BoughtOn(insts, fs, i, day)
  {
    if rs != [] {
      var n := |rs| - 1;
      BooksAreSums(insts, o, rs[..n], i, day);
      var o1, before, fs := Fold(insts, o, rs[..n]), BookedFills(insts, o, rs[..n]), BookedFills(insts, o, rs);
      if rs[n].Filled? {
        FillBooks(insts, o1, rs[n].fill, i, day);
        assert fs == before || (fs == before + [rs[n].fill] && fs[..|before|] == before);
      } else {
        ReportKeeps(insts, o1, rs[n]);
      }
    }
  }

  /** No trade is booked twice. */
  lemma {:induction false} BookedOnce(insts: Instruments, o: State, rs: seq<Report>)
    ensures var fs := BookedFills(insts, o, rs);
      && (forall f :: f in fs ==> f.trade in Trades(rs) && f.trade !in o.seen)
      && (forall j, k :: 0 <= j < k < |fs| ==> fs[j].trade != fs[k].trade)
  {
    if rs != [] {
      var n := |rs| - 1;
      BookedOnce(insts, o, rs[..n]);
      SeenGrows(insts, o, rs[..n]);
      assert rs == rs[..n] + [rs[n]];
      assert forall t :: t in Trades(rs[..n]) ==> t in Trades(rs);
      var before, fs := BookedFills(insts, o, rs[..n]), BookedFills(insts, o, rs);
      if fs != before {
        FillBooks(insts, Fold(insts, o, rs[..n]), rs[n].fill, 0, 0);
        assert fs == before + [rs[n].fill];
        assert forall j :: 0 <= j < |before| ==> before[j] in before;
      }
    }
  }
}
