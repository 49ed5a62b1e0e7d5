/** The kernel's books: in every run the order management system is the replay of the calls made to it,
    and the fills log is the list of what those calls booked. */
module KernelBooks {
  import opened Domain
  import Venue
  import Oms
  import OmsRuns
  import opened Kernel
  import opened KernelSteps

  function Rows(bs: seq<OmsRuns.Booking>): seq<LogRow> {
    if bs == [] then [] else Rows(bs[..|bs| - 1]) + [RowOf(bs[|bs| - 1].fill)]
  }

  ghost predicate Replays(c: Config, insts: Oms.Instruments, k: State) {
    && k.view.instruments == insts
    && k.oms == OmsRuns.Run(c.gate, insts, k.calls)
    && k.fills == Rows(OmsRuns.Booked(c.gate, insts, k.calls))
  }

  lemma RowsSnoc(bs: seq<OmsRuns.Booking>, b: OmsRuns.Booking)
    ensures Rows(bs + [b]) == Rows(bs) + [RowOf(b.fill)]
  {
    assert (bs + [b])[..|bs|] == bs;
  }

  /** One more call, with the row it books, if any. */
  lemma CallReplays(c: Config, insts: Oms.Instruments, k: State, k': State, call: OmsRuns.Call)
    requires Replays(c, insts, k) && k'.view.instruments == insts && k'.calls == k.calls + [call]
    requires k'.oms == OmsRuns.Apply(c.gate, insts, k.oms, call)
    requires var bs := OmsRuns.Books(insts, k.oms, call);
      |bs| <= 1 && k'.fills == if bs == [] then k.fills else k.fills + [RowOf(bs[0].fill)]
    ensures Replays(c, insts, k')
  {
    hide OmsRuns.Apply, OmsRuns.Books, Rows;
    var before, bs := OmsRuns.Booked(c.gate, insts, k.calls), OmsRuns.Books(insts, k.oms, call);
    assert (k.calls + [call])[..|k.calls|] == k.calls;
    if bs == [] {
      assert before + [] == before;
    } else {
      assert bs == [bs[0]];
      RowsSnoc(before, bs[0]);
    }
  }

  lemma SubmitReplays(c: Config, insts: Oms.Instruments, k: State, k': State, order: Order)
    requires Replays(c, insts, k) && !Judge(c, k, order).Ignored?
    requires k'.oms == Judge(c, k, order).oms && k'.calls == k.calls + [OmsRuns.Submit(k.view, k.clock.now, order)]
    requires k'.view == k.view && k'.fills == k.fills
    ensures Replays(c, insts, k')
  {
    hide Oms.Judge, Replays;
    assert k.view.(instruments := insts) == k.view by {
      SameView(c, insts, k);
    }
    CallReplays(c, insts, k, k', OmsRuns.Submit(k.view, k.clock.now, order));
  }

  lemma SameView(c: Config, insts: Oms.Instruments, k: State)
    requires Replays(c, insts, k)
    ensures k.view.instruments == insts && k.view.(instruments := insts) == k.view
  {
  }

  lemma StepReplays(c: Config, es: seq<Event>, insts: Oms.Instruments, k: State, s: Step, k': State)
    requires Replays(c, insts, k) && Takes(c, es, k, s, k')
    ensures Replays(c, insts, k')
  {
    hide Venue.Apply, Oms.ApplyReport, Oms.BookFill, Oms.Judge, Oms.Fire, Rows, OmsRuns.Run, OmsRuns.Booked;
    match s
    case Routed(order) => SubmitReplays(c, insts, k, k', order);
    case Refused(order) => SubmitReplays(c, insts, k, k', order);
    case CancelAsked(id) => CallReplays(c, insts, k, k', OmsRuns.Cancel(id));
    case Folded => CallReplays(c, insts, k, k', OmsRuns.Take(k.venue.delivered[k.applied].report));
    case Closed(id, px, ts) => CallReplays(c, insts, k, k', OmsRuns.Flatten(id, px, ts));
    case _ =>
  }

  /** In every kernel run, whatever the strategy, the gate and the closes: positions, ledger and orders
      are the replay of the calls, and `fills_log` has one row for each fill those calls booked. */
  lemma BooksAreReplay(c: Config, es: seq<Event>, start: Time, insts: Oms.Instruments, n: nat)
    ensures Replays(c, insts, After(c, es, Initial(start, insts), n))
  {
    hide After;
    var inv := k => Replays(c, insts, k);
    forall k, s, k' | inv(k) && Takes(c, es, k, s, k')
      ensures inv(k')
    {
      StepReplays(c, es, insts, k, s, k');
    }
    RunKeeps(c, es, inv, Initial(start, insts), n);
  }

  // --- T+1 in the kernel ------------------------------------------------------------------------

  /** Call `p` submitted this order to the venue: it was routed by the books as they stood. */
  ghost predicate RoutedBy(c: Config, insts: Oms.Instruments, calls: seq<OmsRuns.Call>, p: nat, op: Venue.Op) {
    && p < |calls| && op.Submit? && calls[p] == OmsRuns.Submit(op.view, op.now, op.order)
    && Oms.Judge(c.gate, OmsRuns.Run(c.gate, insts, calls[..p]), op.view.(instruments := insts), op.now,
        op.order).Routed?
  }

  /** Every order in the venue's log got there by a routed call. */
  ghost predicate Sourced(c: Config, insts: Oms.Instruments, k: State) {
    forall q :: 0 <= q < |k.log| && k.log[q].Submit? ==> exists p :: RoutedBy(c, insts, k.calls, p, k.log[q])
  }

  lemma LaterCallsKeep(c: Config, insts: Oms.Instruments, calls: seq<OmsRuns.Call>, more: seq<OmsRuns.Call>, p: nat,
      op: Venue.Op)
    requires RoutedBy(c, insts, calls, p, op) && calls <= more
    ensures RoutedBy(c, insts, more, p, op)
  {
    assert more[..p] == calls[..p];
  }

  lemma SourcedGrows(c: Config, insts: Oms.Instruments, k: State, k': State)
    requires Sourced(c, insts, k) && k.calls <= k'.calls && |k.log| <= |k'.log| && k'.log[..|k.log|] == k.log
    requires forall q :: |k.log| <= q < |k'.log| && k'.log[q].Submit? ==>
      exists p :: RoutedBy(c, insts, k'.calls, p, k'.log[q])
    ensures Sourced(c, insts, k')
  {
    hide RoutedBy;
    forall q | 0 <= q < |k'.log| && k'.log[q].Submit?
      ensures exists p :: RoutedBy(c, insts, k'.calls, p, k'.log[q])
    {
      if q < |k.log| {
        assert k'.log[q] == k'.log[..|k.log|][q] == k.log[q];
        var p: nat :| RoutedBy(c, insts, k.calls, p, k.log[q]);
        LaterCallsKeep(c, insts, k.calls, k'.calls, p, k.log[q]);
      }
    }
  }

  lemma StepSourced(c: Config, es: seq<Event>, insts: Oms.Instruments, k: State, s: Step, k': State)
    requires Replays(c, insts, k) && Sourced(c, insts, k) && Takes(c, es, k, s, k')
    ensures Sourced(c, insts, k')
  {
    hide Venue.Apply, Oms.ApplyReport, Oms.BookFill, Oms.Judge, Oms.Fire, Rows, OmsRuns.Run, OmsRuns.Booked, Sourced;
    if s.Routed? {
      var op := Venue.Submit(k.clock.now, k.view, s.order);
      SameView(c, insts, k);
      assert k'.calls[..|k.calls|] == k.calls;
      assert RoutedBy(c, insts, k'.calls, |k.calls|, op);
    }
    assert k.calls <= k'.calls && k'.log[..|k.log|] == k.log;
    SourcedGrows(c, insts, k, k');
  }

  lemma OrdersAreSourced(c: Config, es: seq<Event>, start: Time, insts: Oms.Instruments, n: nat)
    ensures Sourced(c, insts, After(c, es, Initial(start, insts), n))
  {
    hide After;
    var inv := k => Replays(c, insts, k) && Sourced(c, insts, k);
    forall k, s, k' | inv(k) && Takes(c, es, k, s, k')
      ensures inv(k')
    {
      StepReplays(c, es, insts, k, s, k');
      StepSourced(c, es, insts, k, s, k');
    }
    RunKeeps(c, es, inv, Initial(start, insts), n);
  }

  /** The shares of a booked history that may be sold at a time: its net less the day's purchases. */
  function Settled(insts: Oms.Instruments, bs: seq<OmsRuns.Booking>, i: InstrumentId, now: Time): int
    requires i in insts
  {
    OmsRuns.NetOf(OmsRuns.Of(bs, i)) - OmsRuns.BoughtToday(insts, bs, i, Oms.DayKey(insts[i], now))
  }

  /** In every kernel run, every sell of an A-share that reached the venue was covered, when it was
      submitted, by what had been booked until then less the same session day's purchases. */
  lemma VenueSellsAreSettled(c: Config, es: seq<Event>, start: Time, insts: Oms.Instruments, n: nat, q: nat)
    requires var k := After(c, es, Initial(start, insts), n);
      && q < |k.log| && k.log[q].Submit? && k.log[q].order.side.Sell? && k.log[q].order.quantity > 0
      && k.log[q].order.inst in insts && insts[k.log[q].order.inst].ashare
    ensures var k := After(c, es, Initial(start, insts), n); var op := k.log[q];
      exists p: nat ::
        && RoutedBy(c, insts, k.calls, p, op)
        && op.order.quantity <= Settled(insts, OmsRuns.Booked(c.gate, insts, k.calls[..p]), op.order.inst, op.now)
  {
    hide After, OmsRuns.Run, OmsRuns.Booked, Oms.Judge;
    OrdersAreSourced(c, es, start, insts, n);
    var k := After(c, es, Initial(start, insts), n);
    var op := k.log[q];
    var p: nat :| RoutedBy(c, insts, k.calls, p, op);
    OmsRuns.RoutedSellIsSettled(c.gate, insts, k.calls[..p], op.view, op.now, op.order);
  }
}
