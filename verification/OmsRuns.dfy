/** The order management system over whole runs: orders submitted and cancelled, reports folded and
    positions flattened by the kernel, in any order. What the books hold after any such run, and what
    that means for the next sale of an A-share. */
module OmsRuns {
  import opened Domain
  import opened Oms

  /** `Flatten` is `close_position_at`, which books on the position without an order. */
  datatype Call =
    | Submit(view: View, now: Time, order: Order)
    | Cancel(id: OrderId)
    | Take(report: Report)
    | Flatten(inst: InstrumentId, px: Price, ts: Time)

  /** The synthetic fill that closes a whole position. */
  function Closing(o: State, i: InstrumentId, px: Price, ts: Time): Fill {
    var p := o.Position(i).signed;
    Fill(0, 0, 0, i, if p > 0 then Sell else Buy, px, Abs(p), 0.0, Taker, ts)
  }

  predicate Open(insts: Instruments, o: State, i: InstrumentId) { i in insts && o.Position(i).signed != 0 }

  function Apply(gate: Gate, insts: Instruments, o: State, call: Call): State {
    match call
    case Submit(view, now, order) =>
      var v := Judge(gate, o, view.(instruments := insts), now, order);
      if v.Ignored? then o else v.oms
    case Cancel(id) => Fire(o, id, EvPendingCancel).oms
    case Take(r) => ApplyReport(insts, o, r).oms
    case Flatten(i, px, ts) =>
      if Open(insts, o, i) then o.Hold(i, BookFill(o.Position(i), Closing(o, i, px, ts), insts[i])) else o
  }

  function Run(gate: Gate, insts: Instruments, calls: seq<Call>): State {
    if calls == [] then EMPTY else Apply(gate, insts, Run(gate, insts, calls[..|calls| - 1]), calls[|calls| - 1])
  }

  // --- what was booked ----------------------------------------------------------------------------

  /** A fill that changed the books; a forced one is the kernel's own and enters no T+1 ledger. */
  datatype Booking = Booking(fill: Fill, forced: bool)

  function Books(insts: Instruments, o: State, call: Call): seq<Booking> {
    match call
    case Take(r) =>
      if r.Filled? && ApplyReport(insts, o, r).events != [] then [Booking(r.fill, false)] else []
    case Flatten(i, px, ts) => if Open(insts, o, i) then [Booking(Closing(o, i, px, ts), true)] else []
    case _ => []
  }

  function Booked(gate: Gate, insts: Instruments, calls: seq<Call>): seq<Booking> {
    if calls == [] then [] else
      var n := |calls| - 1;
      Booked(gate, insts, calls[..n]) + Books(insts, Run(gate, insts, calls[..n]), calls[n])
  }

  /** The booked fills of one instrument, in order. */
  function Of(bs: seq<Booking>, i: InstrumentId): seq<Fill> {
    if bs == [] then [] else
      var n := |bs| - 1;
      if bs[n].fill.inst == i then Of(bs[..n], i) + [bs[n].fill] else Of(bs[..n], i)
  }

  /** The average-cost account of a fill history. */
  function Account(inst: Instrument, fs: seq<Fill>): Position {
    if fs == [] then FLAT else BookFill(Account(inst, fs[..|fs| - 1]), fs[|fs| - 1], inst)
  }

  /** Quantity bought of an A-share on one session day, forced closes aside. */
  function BoughtToday(insts: Instruments, bs: seq<Booking>, i: InstrumentId, day: nat): nat {
    if bs == [] then 0 else
      var n := |bs| - 1;
      BoughtToday(insts, bs[..n], i, day)
      + if !bs[n].forced && LedgerDay(insts, bs[n].fill, i, day) then bs[n].fill.qty else 0
  }

  predicate LedgerDay(insts: Instruments, f: Fill, i: InstrumentId, day: nat) {
    f.inst == i && i in insts && insts[i].ashare && f.side.Buy? && DayKey(insts[i], f.ts) == day
  }

  lemma SumsSnoc(insts: Instruments, bs: seq<Booking>, b: Booking, i: InstrumentId, day: nat)
    ensures Of(bs + [b], i) == if b.fill.inst == i then Of(bs, i) + [b.fill] else Of(bs, i)
    ensures BoughtToday(insts, bs + [b], i, day)
         == BoughtToday(insts, bs, i, day) + if !b.forced && LedgerDay(insts, b.fill, i, day) then b.fill.qty else 0
  {
    hide LedgerDay;
    assert (bs + [b])[..|bs|] == bs;
  }

  lemma AccountSnoc(inst: Instrument, fs: seq<Fill>, f: Fill)
    ensures Account(inst, fs + [f]) == BookFill(Account(inst, fs), f, inst)
  {
    assert (fs + [f])[..|fs|] == fs;
  }

  // --- the books are what was booked ----------------------------------------------------------------

  /** What settling a fill does to one instrument's books. */
  lemma SettleBooks(insts: Instruments, o: State, f: Fill, i: InstrumentId, day: nat)
    requires i in insts
    ensures var o' := Settle(insts, o, f);
      && o'.Position(i) == (if f.inst == i then BookFill(o.Position(i), f, insts[i]) else o.Position(i))
      && o'.Bought(i, day) == o.Bought(i, day) + if LedgerDay(insts, f, i, day) then f.qty else 0
  {
    hide BookFill, DayKey;
  }

  /** The event a fill is offered to its order as. */
  function EventOf(o: State, f: Fill): OrderEvent {
    if f.order in o.orders && f.qty < o.orders[f.order].Leaves() then EvPartiallyFilled(f) else EvFilled(f)
  }

  /** What one report does to one instrument's books. */
  lemma ReportBooks(insts: Instruments, o: State, r: Report, i: InstrumentId, day: nat)
    requires i in insts
    ensures var out := ApplyReport(insts, o, r); var booked := r.Filled? && out.events != [];
      && out.oms.Position(i) ==
         (if booked && r.fill.inst == i then BookFill(o.Position(i), r.fill, insts[i]) else o.Position(i))
      && out.oms.Bought(i, day) ==
         o.Bought(i, day) + if booked && LedgerDay(insts, r.fill, i, day) then r.fill.qty else 0
  {
    hide BookFill, Transition, LedgerDay, Settle;
    if r.Filled? {
      SettleBooks(insts, Fire(o.(seen := o.seen + {r.fill.trade}), r.fill.order, EventOf(o, r.fill)).oms, r.fill, i,
          day);
    } else {
      ReportKeeps(insts, o, r);
    }
  }

  lemma SubmitBooksNothing(gate: Gate, insts: Instruments, o: State, view: View, now: Time, order: Order)
    ensures var o' := Apply(gate, insts, o, Submit(view, now, order));
      o'.positions == o.positions && o'.bought == o.bought && o'.seen == o.seen
  {
  }

  lemma CallBooks(gate: Gate, insts: Instruments, o: State, call: Call, i: InstrumentId, day: nat)
    requires i in insts
    ensures var o', bs := Apply(gate, insts, o, call), Books(insts, o, call);
      && |bs| <= 1
      && o'.Position(i) ==
         (if bs != [] && bs[0].fill.inst == i then BookFill(o.Position(i), bs[0].fill, insts[i]) else o.Position(i))
      && o'.Bought(i, day) ==
         o.Bought(i, day) + if bs != [] && !bs[0].forced
             && LedgerDay(insts, bs[0].fill, i, day) then bs[0].fill.qty else 0
  {
    hide BookFill, ApplyReport, LedgerDay, Judge;
    match call
    case Submit(view, now, order) => SubmitBooksNothing(gate, insts, o, view, now, order);
    case Take(r) => ReportBooks(insts, o, r, i, day);
    case _ =>
  }

  /** After any run: an instrument's position is the average-cost account of its booked fills, and
      each ledger cell the sum of that session day's A-share buys among them. */
  lemma {:induction false} BooksHoldWhatWasBooked(gate: Gate, insts: Instruments, calls: seq<Call>, i: InstrumentId,
      day: nat)
    requires i in insts
    ensures var o, bs := Run(gate, insts, calls), Booked(gate, insts, calls);
      && o.Position(i) == Account(insts[i], Of(bs, i)) && o.Bought(i, day) == BoughtToday(insts, bs, i, day)
  {
    hide BookFill, Apply, Books, LedgerDay;
    if calls != [] {
      var n := |calls| - 1;
      var o, before, call := Run(gate, insts, calls[..n]), Booked(gate, insts, calls[..n]), calls[n];
      BooksHoldWhatWasBooked(gate, insts, calls[..n], i, day);
      CallBooks(gate, insts, o, call, i, day);
      var more := Books(insts, o, call);
      if more == [] {
        assert before + [] == before;
      } else {
        assert more == [more[0]];
        SumsSnoc(insts, before, more[0], i, day);
        AccountSnoc(insts[i], Of(before, i), more[0].fill);
      }
    }
  }

  function NetOf(fs: seq<Fill>): int {
    if fs == [] then 0 else NetOf(fs[..|fs| - 1]) + fs[|fs| - 1].side.Sign() * fs[|fs| - 1].qty
  }

  lemma {:induction false} AccountIsNet(inst: Instrument, fs: seq<Fill>)
    ensures Account(inst, fs).signed == NetOf(fs)
  {
    if fs != [] {
      AccountIsNet(inst, fs[..|fs| - 1]);
    }
  }

  // --- T+1 ----------------------------------------------------------------------------------------

  /** T+1 at submission, in any run: a sell of an A-share that is routed is covered by the net of all
      booked fills less what was bought on the same session day. */
  lemma RoutedSellIsSettled(gate: Gate, insts: Instruments, calls: seq<Call>, view: View, now: Time, order: Order)
    requires order.inst in insts && insts[order.inst].ashare && order.side.Sell? && order.quantity > 0
    requires Judge(gate, Run(gate, insts, calls), view.(instruments := insts), now, order).Routed?
    ensures var bs, i := Booked(gate, insts, calls), order.inst;
      order.quantity <= NetOf(Of(bs, i)) - BoughtToday(insts, bs, i, DayKey(insts[i], now))
  {
    hide Run, Booked, DayKey;
    var i := order.inst;
    BooksHoldWhatWasBooked(gate, insts, calls, i, DayKey(insts[i], now));
    AccountIsNet(insts[i], Of(Booked(gate, insts, calls), i));
  }

  // --- exactly once -------------------------------------------------------------------------------

  /** The trades reported in a run. */
  function Reported(calls: seq<Call>): set<nat> {
    set c | c in calls && c.Take? && c.report.Filled? :: c.report.fill.trade
  }

  lemma {:induction false} SeenIsReported(gate: Gate, insts: Instruments, calls: seq<Call>)
    ensures Run(gate, insts, calls).seen == Reported(calls)
  {
    if calls != [] {
      hide BookFill, Transition, Judge;
      var n := |calls| - 1;
      var o, call := Run(gate, insts, calls[..n]), calls[n];
      SeenIsReported(gate, insts, calls[..n]);
      assert calls == calls[..n] + [call];
      match call
      case Submit(view, now, order) => SubmitBooksNothing(gate, insts, o, view, now, order);
      case Take(r) => ReportKeeps(insts, o, r);
      case _ =>
    }
  }

  /** A later copy of a fill changes nothing, wherever it arrives and whatever is submitted, cancelled
      or flattened in between and afterwards. */
  lemma {:induction false} LateCopyIsHarmless(gate: Gate, insts: Instruments, before: seq<Call>, copy: Fill,
      after: seq<Call>)
    requires copy.trade in Reported(before)
    ensures var late := before + [Take(Report.Filled(copy))] + after;
      && Run(gate, insts, late) == Run(gate, insts, before + after)
      && Booked(gate, insts, late) == Booked(gate, insts, before + after)
    decreases |after|
  {
    hide Apply, Books;
    var replay := before + [Take(Report.Filled(copy))];
    if after == [] {
      SeenIsReported(gate, insts, before);
      assert replay + [] == replay && before + [] == before && replay[..|before|] == before;
      CopyDropped(gate, insts, Run(gate, insts, before), copy);
    } else {
      var n := |after| - 1;
      LateCopyIsHarmless(gate, insts, before, copy, after[..n]);
      assert (replay + after)[..|replay + after| - 1] == replay + after[..n];
      assert (before + after)[..|before + after| - 1] == before + after[..n];
    }
  }

  lemma CopyDropped(gate: Gate, insts: Instruments, o: State, copy: Fill)
    requires copy.trade in o.seen
    ensures Apply(gate, insts, o, Take(Report.Filled(copy))) == o && Books(insts, o, Take(Report.Filled(copy))) == []
  {
  }

  // --- one round trip -----------------------------------------------------------------------------

  function Share(): Instrument { Instrument(1, 0.0, 0.0, 1, false, None, true) }

  const OPEN_GATE: Gate := (order, o, view, now) => true
  const ANY_VIEW := View(map[], map[], map[])
  const SHARES: Instruments := map[0 := Share()]
  const TOMORROW: Time := 86_400_000_000_000

  function Ten(id: OrderId, side: Side): Order { Order(id, 0, side, Market, 10, None, None) }
  function TenAt(id: OrderId, side: Side, px: Price, ts: Time): Fill {
    Fill(id, id, id, 0, side, px, 10, 0.0, Taker, ts)
  }

  /** Ten shares bought at 100 today. */
  function Purchase(): seq<Call> {
    [] + [Submit(ANY_VIEW, 0, Ten(1, Buy))] + [Take(Report.Accepted(1, 1))]
        + [Take(Report.Filled(TenAt(1, Buy, 100, 0)))]
  }

  /** And sold at 110 tomorrow. */
  function RoundTrip(): seq<Call> {
    Purchase() + [Submit(ANY_VIEW, TOMORROW, Ten(2, Sell))] + [Take(Report.Accepted(2, 2))]
    + [Take(Report.Filled(TenAt(2, Sell, 110, TOMORROW)))]
  }

  lemma RunSnoc(calls: seq<Call>, call: Call)
    ensures Run(OPEN_GATE, SHARES, calls + [call]) == Apply(OPEN_GATE, SHARES, Run(OPEN_GATE, SHARES, calls), call)
    ensures Booked(OPEN_GATE, SHARES, calls + [call])
         == Booked(OPEN_GATE, SHARES, calls) + Books(SHARES, Run(OPEN_GATE, SHARES, calls), call)
  {
    hide Apply, Books;
    assert (calls + [call])[..|calls|] == calls;
  }

  /** What is left of the books between the calls of one order. */
  ghost predicate SameBooks(o: State, o': State, id: OrderId, t: Tracked) {
    && o'.orders == o.orders[id := t] && o'.positions == o.positions && o'.bought == o.bought && o'.seen == o.seen
  }

  lemma OrderPasses(o: State, id: OrderId, side: Side, now: Time)
    requires id !in o.orders && (side.Sell? ==> Sellable(o, Share(), 0, now) >= 10)
    ensures var o' := Apply(OPEN_GATE, SHARES, o, Submit(ANY_VIEW, now, Ten(id, side)));
      SameBooks(o, o', id, Tracked(Ten(id, side), Status.Submitted, 0))
  {
    hide Sellable, DayKey;
  }

  lemma OrderAcknowledged(o: State, o1: State, id: OrderId, side: Side)
    requires SameBooks(o, o1, id, Tracked(Ten(id, side), Status.Submitted, 0))
    ensures var o' := Apply(OPEN_GATE, SHARES, o1, Take(Report.Accepted(id, id)));
      SameBooks(o, o', id, Tracked(Ten(id, side), Status.Accepted, 0))
  {
  }

  lemma FillBooked(o: State, o2: State, id: OrderId, side: Side, px: Price, now: Time)
    requires SameBooks(o, o2, id, Tracked(Ten(id, side), Status.Accepted, 0)) && id !in o.seen
    ensures var call, f, day := Take(Report.Filled(TenAt(id, side, px, now))), TenAt(id, side, px, now),
        DayKey(Share(), now);
      var o' := Apply(OPEN_GATE, SHARES, o2, call);
      && Books(SHARES, o2, call) == [Booking(f, false)]
      && o'.Position(0) == BookFill(o.Position(0), f, Share())
      && o'.orders.Keys == o.orders.Keys + {id} && o'.seen == o.seen + {id}
      && o'.bought == if side.Sell? then o.bought else o.bought[(0, day) := o.Bought(0, day) + 10]
  {
    hide BookFill, DayKey;
  }

  /** An order that is routed, acknowledged and filled in full. */
  lemma OrderFills(calls: seq<Call>, id: OrderId, side: Side, px: Price, now: Time)
    requires var o := Run(OPEN_GATE, SHARES, calls);
      && id !in o.orders && id !in o.seen && (side.Sell? ==> Sellable(o, Share(), 0, now) >= 10)
    ensures var all := calls + [Submit(ANY_VIEW, now, Ten(id, side))] + [Take(Report.Accepted(id, id))]
                       + [Take(Report.Filled(TenAt(id, side, px, now)))];
      var o, o', day := Run(OPEN_GATE, SHARES, calls), Run(OPEN_GATE, SHARES, all), DayKey(Share(), now);
      && Booked(OPEN_GATE, SHARES, all) == Booked(OPEN_GATE, SHARES, calls) + [Booking(TenAt(id, side, px, now), false)]
      && o'.Position(0) == BookFill(o.Position(0), TenAt(id, side, px, now), Share())
      && o'.orders.Keys == o.orders.Keys + {id} && o'.seen == o.seen + {id}
      && o'.bought == if side.Sell? then o.bought else o.bought[(0, day) := o.Bought(0, day) + 10]
  {
    hide Run, Booked, BookFill, DayKey, Apply, Sellable, SameBooks;
    var c1 := calls + [Submit(ANY_VIEW, now, Ten(id, side))];
    var c2 := c1 + [Take(Report.Accepted(id, id))];
    RunSnoc(calls, Submit(ANY_VIEW, now, Ten(id, side)));
    RunSnoc(c1, Take(Report.Accepted(id, id)));
    RunSnoc(c2, Take(Report.Filled(TenAt(id, side, px, now))));
    var o := Run(OPEN_GATE, SHARES, calls);
    OrderPasses(o, id, side, now);
    OrderAcknowledged(o, Run(OPEN_GATE, SHARES, c1), id, side);
    FillBooked(o, Run(OPEN_GATE, SHARES, c2), id, side, px, now);
    assert Booked(OPEN_GATE, SHARES, calls) + [] == Booked(OPEN_GATE, SHARES, calls);
  }

  lemma Days()
    ensures DayKey(Share(), 0) == 0 && DayKey(Share(), TOMORROW) == 1
  {
  }

  lemma Prices()
    ensures BookFill(FLAT, TenAt(1, Buy, 100, 0), Share()) == Position(10, 100.0, 0.0)
    ensures BookFill(Position(10, 100.0, 0.0), TenAt(2, Sell, 110, TOMORROW), Share()) == Position(0, 0.0, 100.0)
  {
  }

  lemma NothingRun()
    ensures Run(OPEN_GATE, SHARES, []) == EMPTY && Booked(OPEN_GATE, SHARES, []) == []
  {
  }

  lemma PurchaseBooks()
    ensures var o := Run(OPEN_GATE, SHARES, Purchase());
      && o.Position(0) == Position(10, 100.0, 0.0) && o.bought == map[(0, 0) := 10]
      && o.orders.Keys == {1} && o.seen == {1}
      && Booked(OPEN_GATE, SHARES, Purchase()) == [Booking(TenAt(1, Buy, 100, 0), false)]
  {
    hide Run, Booked, BookFill, DayKey;
    Days();
    Prices();
    NothingRun();
    OrderFills([], 1, Buy, 100, 0);
    assert [] + [Booking(TenAt(1, Buy, 100, 0), false)] == [Booking(TenAt(1, Buy, 100, 0), false)];
  }

  /** Ten shares held, ten of them bought today. */
  lemma SaleIsJudged(o: State)
    requires o.Position(0).signed == 10 && o.bought == map[(0, 0) := 10] && 2 !in o.orders
    ensures var view := ANY_VIEW.(instruments := SHARES);
      && Judge(OPEN_GATE, o, view, 0, Ten(2, Sell)).Refused?
      && Judge(OPEN_GATE, o, view, TOMORROW, Ten(2, Sell)).Routed? && Sellable(o, Share(), 0, TOMORROW) == 10
  {
    hide DayKey;
    Days();
  }

  /** The books of these runs are not empty: the purchase is booked, cannot be sold today, can be sold
      tomorrow, and the sale realises a hundred. */
  lemma RoundTripBooks()
    ensures var o, view := Run(OPEN_GATE, SHARES, Purchase()), ANY_VIEW.(instruments := SHARES);
      && o.Position(0).signed == 10
      && Judge(OPEN_GATE, o, view, 0, Ten(2, Sell)).Refused?
      && Judge(OPEN_GATE, o, view, TOMORROW, Ten(2, Sell)).Routed?
    ensures var o, bs := Run(OPEN_GATE, SHARES, RoundTrip()), Booked(OPEN_GATE, SHARES, RoundTrip());
      && bs == [Booking(TenAt(1, Buy, 100, 0), false), Booking(TenAt(2, Sell, 110, TOMORROW), false)]
      && o.Position(0) == Position(0, 0.0, 100.0)
  {
    hide Run, Booked, BookFill, DayKey, Judge, Sellable, Purchase;
    PurchaseBooks();
    SaleIsJudged(Run(OPEN_GATE, SHARES, Purchase()));
    Prices();
    OrderFills(Purchase(), 2, Sell, 110, TOMORROW);
    var b, s := Booking(TenAt(1, Buy, 100, 0), false), Booking(TenAt(2, Sell, 110, TOMORROW), false);
    assert [b] + [s] == [b, s];
  }
}
