/** What the kernel's own closes do: a contract that settles, and every position of an account that is
    liquidated, is closed by exactly one fill for the whole position at the price in force; the
    strategy is shown that close on a flat position, and a settled contract's open orders are cancelled. */
module ClosingLaws {
  import opened Domain
  import Venue
  import Clock
  import Oms
  import OmsRuns
  import opened Kernel
  import opened KernelSteps

  // --- the order management system lists what it holds --------------------------------------------

  /** The key lists of the hash maps list each key once. */
  ghost predicate Listed(o: Oms.State) {
    && (forall id :: id in o.ids <==> id in o.orders)
    && (forall i, j :: 0 <= i < j < |o.ids| ==> o.ids[i] != o.ids[j])
    && (forall i :: i in o.held <==> i in o.positions)
  }

  lemma TrackListed(o: Oms.State, t: Oms.Tracked)
    requires Listed(o)
    ensures Listed(o.Track(t))
  {
  }

  lemma HoldListed(o: Oms.State, i: InstrumentId, p: Oms.Position)
    requires Listed(o)
    ensures Listed(o.Hold(i, p))
  {
  }

  lemma FireListed(o: Oms.State, id: OrderId, ev: Oms.OrderEvent)
    requires Listed(o)
    ensures Listed(Oms.Fire(o, id, ev).oms)
  {
    hide Oms.Transition;
  }

  lemma JudgedListed(gate: Oms.Gate, o: Oms.State, view: View, now: Time, order: Order)
    requires Listed(o) && !Oms.Judge(gate, o, view, now, order).Ignored?
    ensures Listed(Oms.Judge(gate, o, view, now, order).oms)
  {
    hide Listed, Oms.Sellable, Oms.DayKey;
    var inst := view.instruments[order.inst];
    var o1 := Oms.ObserveMark(o, inst, order.inst, view, now);
    assert Listed(o1) by { assert o1 == o.(closes := o1.closes); ClosesListed(o, o1.closes); }
    TrackListed(o, Oms.Tracked(order, Oms.Status.Denied, 0));
    TrackListed(o1, Oms.Tracked(order, Oms.Status.Denied, 0));
    TrackListed(o1, Oms.Tracked(order, Oms.Status.Submitted, 0));
  }

  lemma ClosesListed(o: Oms.State, closes: map<(InstrumentId, nat), Price>)
    requires Listed(o)
    ensures Listed(o.(closes := closes))
  {
  }

  lemma ReportListed(insts: Oms.Instruments, o: Oms.State, r: Report)
    requires Listed(o)
    ensures Listed(Oms.ApplyReport(insts, o, r).oms)
  {
    hide Oms.Transition, Oms.BookFill, Oms.DayKey, Oms.Fire, Listed;
    match r
    case Accepted(id, v) => FireListed(o, id, Oms.EvAccepted(v));
    case Rejected(id) => FireListed(o, id, Oms.EvRejected);
    case Canceled(id) => FireListed(o, id, Oms.EvCanceled);
    case Expired(id) => FireListed(o, id, Oms.EvExpired);
    case PendingUpdate(id) => FireListed(o, id, Oms.EvPendingUpdate);
    case Modified(id, q, p) => FireListed(o, id, Oms.EvUpdated(q, p));
    case PendingCancel(id) => FireListed(o, id, Oms.EvPendingCancel);
    case Filled(f) =>
      var o1 := o.(seen := o.seen + {f.trade});
      SeenListed(o, o1.seen);
      FireListed(o1, f.order, Oms.EvFilled(f));
      FireListed(o1, f.order, Oms.EvPartiallyFilled(f));
      var o2 := Oms.Fire(o1, f.order, OmsRuns.EventOf(o, f)).oms;
      SettleListed(insts, o2, f);
  }

  lemma SeenListed(o: Oms.State, seen: set<nat>)
    requires Listed(o)
    ensures Listed(o.(seen := seen))
  {
  }

  lemma SettleListed(insts: Oms.Instruments, o: Oms.State, f: Fill)
    requires Listed(o)
    ensures Listed(Oms.Settle(insts, o, f))
  {
    hide Oms.BookFill, Oms.DayKey;
  }

  lemma StepListed(c: Config, es: seq<Event>, k: State, s: Step, k': State)
    requires Listed(k.oms) && Takes(c, es, k, s, k')
    ensures Listed(k'.oms)
  {
    hide Venue.Apply, Oms.ApplyReport, Oms.BookFill, Oms.Judge, Oms.Fire, Listed;
    match s
    case Routed(order) => JudgedListed(c.gate, k.oms, k.view, k.clock.now, order);
    case Refused(order) => JudgedListed(c.gate, k.oms, k.view, k.clock.now, order);
    case CancelAsked(id) => FireListed(k.oms, id, Oms.EvPendingCancel);
    case Folded => ReportListed(k.view.instruments, k.oms, k.venue.delivered[k.applied].report);
    case Closed(id, px, ts) =>
      HoldListed(k.oms, id,
        Oms.BookFill(k.oms.Position(id), OmsRuns.Closing(k.oms, id, px, ts), k.view.instruments[id]));
    case _ =>
  }

  lemma ListedKept(c: Config, es: seq<Event>)
    ensures Kept(c, es, (k: State) => Listed(k.oms))
  {
    var inv := (k: State) => Listed(k.oms);
    forall k, s, k' | inv(k) && Takes(c, es, k, s, k')
      ensures inv(k')
    {
      StepListed(c, es, k, s, k');
    }
  }

  /** Every reachable state lists its orders and positions. */
  lemma RunsListed(c: Config, es: seq<Event>, start: Time, insts: Oms.Instruments, n: nat)
    ensures Listed(After(c, es, Initial(start, insts), n).oms) && Caught(After(c, es, Initial(start, insts), n))
  {
    hide After, Kept;
    ListedKept(c, es);
    RunKeeps(c, es, (k: State) => Listed(k.oms), Initial(start, insts), n);
  }

  // --- what commands leave alone --------------------------------------------------------------------

  ghost predicate Commands(calls: seq<OmsRuns.Call>) {
    forall i :: 0 <= i < |calls| ==> calls[i].Submit? || calls[i].Cancel?
  }

  /** All these handlers ran at one clock reading. */
  ghost predicate AllAt(h: History, now: Time) { forall i :: 0 <= i < |h| ==> h[i].now == now }

  ghost predicate Updates(h: History) { forall i :: 0 <= i < |h| ==> h[i].input.OrderUpdate? }

  /** From `k` to `k'` commands were processed and nothing else: submissions and cancellations only,
      the strategy hears of order updates only, and no fill is booked. */
  ghost predicate Commanded(k: State, k': State) {
    && k'.fills == k.fills && k'.view == k.view
    && k'.oms.positions == k.oms.positions && k'.oms.held == k.oms.held && (Listed(k.oms) ==> Listed(k'.oms))
    && k.calls <= k'.calls && Commands(k'.calls[|k.calls|..])
    && k.history <= k'.history && Updates(k'.history[|k.history|..])
    && k'.clock.now == k.clock.now && AllAt(k'.history[|k.history|..], k.clock.now)
  }

  lemma CommandedTrans(k: State, k1: State, k2: State)
    requires Commanded(k, k1) && Commanded(k1, k2)
    ensures Commanded(k, k2)
  {
    hide Listed;
    assert k2.calls[|k.calls|..] == k1.calls[|k.calls|..] + k2.calls[|k1.calls|..];
    assert k2.history[|k.history|..] == k1.history[|k.history|..] + k2.history[|k1.history|..];
  }

  lemma UpdateCommanded(c: Config, k: State, ev: Oms.OrderEvent)
    requires !ev.IsFill()
    ensures var k' := NotifyEvent(c, k, ev); Commanded(k, k') && k'.calls == k.calls && k'.log == k.log
  {
    hide Listed;
    var k' := NotifyEvent(c, k, ev);
    assert k'.history[|k.history|..] == [Observe(k, OrderUpdate(ev))];
  }

  lemma SubmitCommanded(c: Config, k: State, order: Order)
    ensures Commanded(k, SubmitOrder(c, k, order))
  {
    hide Listed, NotifyEvent, Oms.Judge, Venue.Apply, Shown, Commanded;
    var v := Judge(c, k, order);
    var k1 := k.(submitted := k.submitted + 1);
    if v.Ignored? {
      assert Commanded(k, k1) by { FiledCommanded(k, k1); }
    } else {
      var k2 := if v.Refused? then Denied(k1, order, v.oms).(denied := k.denied + 1)
                else Do(c, Passed(k1, order, v.oms), Venue.Submit(k.clock.now, k.view, order));
      assert Commanded(k, k2) by {
        JudgedCommanded(c, k, order);
        CallCommanded(k, k2, OmsRuns.Submit(k.view, k.clock.now, order));
      }
      var ev := if v.Refused? then Oms.EvDenied else Oms.EvSubmitted;
      UpdateCommanded(c, k2, ev);
      CommandedTrans(k, k2, NotifyEvent(c, k2, ev));
    }
  }

  lemma FiledCommanded(k: State, k': State)
    requires k' == k.(submitted := k'.submitted, denied := k'.denied, outbox := k'.outbox)
    ensures Commanded(k, k')
  {
    hide Listed;
  }

  lemma CallCommanded(k: State, k': State, call: OmsRuns.Call)
    requires call.Submit? || call.Cancel?
    requires k'.fills == k.fills && k'.view == k.view && k'.history == k.history && k'.calls == k.calls + [call]
    requires k'.clock == k.clock
    requires k'.oms.positions == k.oms.positions && k'.oms.held == k.oms.held && (Listed(k.oms) ==> Listed(k'.oms))
    ensures Commanded(k, k')
  {
    hide Listed;
    assert k'.calls[|k.calls|..] == [call];
  }

  lemma JudgedCommanded(c: Config, k: State, order: Order)
    requires !Judge(c, k, order).Ignored?
    ensures var o' := Judge(c, k, order).oms;
      o'.positions == k.oms.positions && o'.held == k.oms.held && (Listed(k.oms) ==> Listed(o'))
  {
    hide Listed, Oms.Sellable, Oms.DayKey;
    if Listed(k.oms) {
      JudgedListed(c.gate, k.oms, k.view, k.clock.now, order);
    }
  }

  /** A cancel request is one call and one venue operation. */
  lemma CancelCommanded(c: Config, k: State, id: OrderId)
    ensures var k' := RequestCancel(c, k, id);
      && Commanded(k, k') && k'.calls == k.calls + [OmsRuns.Cancel(id)]
      && k'.log == k.log + [Venue.Cancel(k.clock.now, id)] && k'.clock.now == k.clock.now
  {
    hide Listed, NotifyEvent, Oms.Transition, Venue.Apply, Commanded;
    var out := Oms.Fire(k.oms, id, Oms.EvPendingCancel);
    var k1 := Do(c, Called(k, out.oms, OmsRuns.Cancel(id)), Venue.Cancel(k.clock.now, id));
    if Listed(k.oms) {
      FireListed(k.oms, id, Oms.EvPendingCancel);
    }
    CallCommanded(k, k1, OmsRuns.Cancel(id));
    if out.events != [] {
      assert out.events == [Oms.EvPendingCancel];
      assert NotifyEvents(c, k1, out.events) == NotifyEvent(c, k1, Oms.EvPendingCancel);
      UpdateCommanded(c, k1, Oms.EvPendingCancel);
      CommandedTrans(k, k1, NotifyEvent(c, k1, Oms.EvPendingCancel));
    }
  }

  lemma {:induction false} CommandsCommanded(c: Config, k: State, cmds: seq<Command>)
    ensures Commanded(k, ProcessCommands(c, k, cmds))
    decreases |cmds|
  {
    hide Commanded, SubmitOrder, RequestCancel;
    if cmds == [] {
      FiledCommanded(k, k);
    } else {
      var k1 := ProcessCommand(c, k, cmds[0]);
      match cmds[0] {
        case Submit(order) => SubmitCommanded(c, k, order);
        case Cancel(id) => CancelCommanded(c, k, id);
        case Modify(_) => FiledCommanded(k, k);
      }
      CommandsCommanded(c, k1, cmds[1..]);
      CommandedTrans(k, k1, ProcessCommands(c, k1, cmds[1..]));
    }
  }

  lemma OutboxCommanded(c: Config, k: State)
    ensures Commanded(k, ProcessOutbox(c, k))
  {
    hide Commanded, ProcessCommands;
    FiledCommanded(k, k.(outbox := []));
    CommandsCommanded(c, k.(outbox := []), k.outbox);
    CommandedTrans(k, k.(outbox := []), ProcessOutbox(c, k));
  }

  // --- one close --------------------------------------------------------------------------------------

  /** The side that closes a position. */
  function Against(position: int): Side { if position > 0 then Sell else Buy }

  /** The whole of an open position is closed at `px`: one log row and one call for it; the strategy is
      next shown the close, with the contract flat, and may answer with commands; the profit is that
      of the whole position, and no other position changes. */
  ghost predicate Closes(k: State, k': State, id: InstrumentId, px: Price, ts: Time, cause: Cause) {
    && id in k.view.instruments
    && var p := k.oms.Position(id);
       var close := Close(id, Against(p.signed), Abs(p.signed), px, cause);
       var gain := p.signed as real * Oms.PnlPerQty(k.view.instruments[id], p.avg, px as real);
       && k'.fills == k.fills + [LogRow(ts, id, Against(p.signed), Abs(p.signed), px)]
       && k.calls + [OmsRuns.Flatten(id, px, ts)] <= k'.calls && Commands(k'.calls[|k.calls| + 1..])
       && k.history <= k'.history && |k'.history| >= |k.history| + 2 && Updates(k'.history[|k.history| + 2..])
       && (var seen := k'.history[|k.history|]; seen.input == CloseFilled(close) && seen.oms.Position(id).signed == 0)
       && (var seen := k'.history[|k.history| + 1];
           seen.input == CloseUpdate(close) && seen.oms.Position(id).signed == 0)
       && k'.oms.Position(id) == Oms.Position(0, 0.0, p.realized + gain)
       && k'.oms.positions == k.oms.positions[id := k'.oms.Position(id)]
       && (Listed(k.oms) ==> Listed(k'.oms)) && k'.view == k.view
       && k'.clock.now == k.clock.now && AllAt(k'.history[|k.history|..], k.clock.now)
  }

  lemma FlattenedCloses(k: State, id: InstrumentId, px: Price, ts: Time)
    requires OmsRuns.Open(k.view.instruments, k.oms, id)
    ensures var k', p := Flattened(k, id, px, ts), k.oms.Position(id);
      && k'.fills == k.fills + [LogRow(ts, id, Against(p.signed), Abs(p.signed), px)]
      && k'.calls == k.calls + [OmsRuns.Flatten(id, px, ts)] && k'.history == k.history && k'.view == k.view
      && k'.clock == k.clock
      && k'.oms.Position(id) == Oms.Position(0, 0.0,
           p.realized + p.signed as real * Oms.PnlPerQty(k.view.instruments[id], p.avg, px as real))
      && k'.oms.positions == k.oms.positions[id := k'.oms.Position(id)]
      && (Listed(k.oms) ==> Listed(k'.oms))
  {
    hide Listed, Oms.PnlPerQty;
    var p, fill := k.oms.Position(id), OmsRuns.Closing(k.oms, id, px, ts);
    var booked := Oms.BookFill(p, fill, k.view.instruments[id]);
    var unit := Oms.PnlPerQty(k.view.instruments[id], p.avg, px as real);
    assert p.signed < 0 ==> -1.0 * Abs(p.signed) as real * unit == p.signed as real * unit;
    if Listed(k.oms) {
      HoldListed(k.oms, id, booked);
    }
  }

  lemma ClosesThenCommands(k: State, k1: State, k2: State, id: InstrumentId, px: Price, ts: Time, cause: Cause)
    requires Closes(k, k1, id, px, ts, cause) && Commanded(k1, k2)
    ensures Closes(k, k2, id, px, ts, cause)
  {
    hide Listed, Oms.PnlPerQty;
    assert k2.calls[|k.calls| + 1..] == k1.calls[|k.calls| + 1..] + k2.calls[|k1.calls|..];
    assert k2.history[|k.history| + 2..] == k1.history[|k.history| + 2..] + k2.history[|k1.history|..];
    assert k2.history[|k.history|..] == k1.history[|k.history|..] + k2.history[|k1.history|..];
  }

  lemma NotifyShows(c: Config, k: State, input: Input)
    ensures var k' := Notify(c, k, input);
      && k'.history == k.history + [Observe(k, input)] && k'.oms == k.oms && k'.view == k.view
      && k'.calls == k.calls && k'.fills == k.fills && k'.clock.now == k.clock.now
  {
  }

  /** `close_position_at` closes what is open and does nothing otherwise. */
  lemma CloseIsWhole(c: Config, k: State, id: InstrumentId, px: Price, ts: Time, cause: Cause)
    ensures var open := id in k.view.instruments && k.oms.Position(id).signed != 0;
      var k' := ClosePosition(c, k, id, px, ts, cause);
      if open then Closes(k, k', id, px, ts, cause) else k' == k
  {
    hide Listed, Flattened, Notify, ProcessOutbox, Oms.PnlPerQty;
    if OmsRuns.Open(k.view.instruments, k.oms, id) {
      var p := k.oms.Position(id).signed;
      var close := Close(id, Against(p), Abs(p), px, cause);
      var k1 := Flattened(k, id, px, ts);
      FlattenedCloses(k, id, px, ts);
      var k2 := Notify(c, k1, CloseFilled(close));
      NotifyShows(c, k1, CloseFilled(close));
      var k3 := Notify(c, k2, CloseUpdate(close));
      NotifyShows(c, k2, CloseUpdate(close));
      assert Closes(k, k3, id, px, ts, cause);
      OutboxCommanded(c, k3);
      ClosesThenCommands(k, k3, ProcessOutbox(c, k3), id, px, ts, cause);
    }
  }

  // --- cancelling a contract's orders -----------------------------------------------------------------

  function CancelCalls(ids: seq<OrderId>): seq<OmsRuns.Call> {
    if ids == [] then [] else [OmsRuns.Cancel(ids[0])] + CancelCalls(ids[1..])
  }

  function CancelOps(now: Time, ids: seq<OrderId>): seq<Venue.Op> {
    if ids == [] then [] else [Venue.Cancel(now, ids[0])] + CancelOps(now, ids[1..])
  }

  ghost predicate Distinct(ids: seq<OrderId>) { forall i, j :: 0 <= i < j < |ids| ==> ids[i] != ids[j] }

  predicate OpenOn(o: Oms.State, id: OrderId, inst: InstrumentId) {
    id in o.orders && o.orders[id].order.inst == inst && !o.orders[id].status.Terminal()
  }

  /** Each order of the contract that is not terminal is cancelled once, at the engine and at the venue,
      and no other order is. */
  ghost predicate CancelsOpen(k: State, k': State, inst: InstrumentId, ids: seq<OrderId>) {
    && Distinct(ids) && (forall id :: id in ids <==> OpenOn(k.oms, id, inst))
    && k'.calls == k.calls + CancelCalls(ids) && k'.log == k.log + CancelOps(k.clock.now, ids)
    && Commanded(k, k')
  }

  lemma {:induction false} CancelAllIsCancels(c: Config, k: State, ids: seq<OrderId>)
    ensures var k' := CancelAll(c, k, ids);
      && Commanded(k, k')
      && k'.calls == k.calls + CancelCalls(ids) && k'.log == k.log + CancelOps(k.clock.now, ids)
    decreases |ids|
  {
    hide Commanded, RequestCancel;
    if ids == [] {
      FiledCommanded(k, k);
    } else {
      var k1 := RequestCancel(c, k, ids[0]);
      var k' := CancelAll(c, k1, ids[1..]);
      CancelCommanded(c, k, ids[0]);
      CancelAllIsCancels(c, k1, ids[1..]);
      CommandedTrans(k, k1, k');
      assert k'.calls == k.calls + ([OmsRuns.Cancel(ids[0])] + CancelCalls(ids[1..]));
      assert k'.log == k.log + ([Venue.Cancel(k.clock.now, ids[0])] + CancelOps(k.clock.now, ids[1..]));
    }
  }

  lemma {:induction false} OpenOrdersExact(o: Oms.State, ids: seq<OrderId>, inst: InstrumentId)
    requires Distinct(ids)
    ensures var open := OpenOrders(o, ids, inst);
      Distinct(open) && forall id :: id in open <==> id in ids && OpenOn(o, id, inst)
  {
    if ids != [] {
      var rest := OpenOrders(o, ids[1..], inst);
      OpenOrdersExact(o, ids[1..], inst);
      assert ids == [ids[0]] + ids[1..];
      assert forall i :: 0 <= i < |ids| - 1 ==> ids[1..][i] == ids[i + 1];
      assert ids[0] !in ids[1..];
      assert forall i :: 0 <= i < |rest| ==> rest[i] in rest;
    }
  }

  lemma CancelsAreOpenOrders(c: Config, k: State, inst: InstrumentId)
    requires Listed(k.oms)
    ensures CancelsOpen(k, CancelAll(c, k, OpenOrders(k.oms, k.oms.ids, inst)), inst,
              OpenOrders(k.oms, k.oms.ids, inst))
  {
    hide CancelAll, OpenOrders, Commanded, CancelCalls, CancelOps;
    OpenOrdersExact(k.oms, k.oms.ids, inst);
    CancelAllIsCancels(c, k, OpenOrders(k.oms, k.oms.ids, inst));
  }

  // --- settlement of one contract -----------------------------------------------------------------------

  /** The position closed at the settlement price, if there is one and something is open. */
  ghost predicate ClosesIfOpen(k: State, k': State, id: InstrumentId, px: Option<Price>, ts: Time, cause: Cause) {
    if px.Some? && id in k.view.instruments && k.oms.Position(id).signed != 0
    then Closes(k, k', id, px.value, ts, cause)
    else k' == k
  }

  /** A contract settles: its whole position is closed at the settlement price, and then, after the
      strategy's answer, its open orders are cancelled. An unknown contract is left alone. */
  lemma SettlementCloses(c: Config, k: State, id: InstrumentId, ts: Time)
    requires Listed(k.oms)
    ensures var k' := SettleContract(c, k, id, ts);
      && (id !in k.view.instruments ==> k' == k)
      && (id in k.view.instruments ==>
            exists k1, ids ::
              ClosesIfOpen(k, k1, id, c.settlePx(id, k.view), ts, Settlement) && CancelsOpen(k1, k', id, ids))
  {
    hide Listed, ClosePosition, CancelAll, OpenOrders, Closes, CancelsOpen;
    if id in k.view.instruments {
      var px := c.settlePx(id, k.view);
      var k1 := if px.Some? then ClosePosition(c, k, id, px.value, ts, Settlement) else k;
      if px.Some? {
        CloseIsWhole(c, k, id, px.value, ts, Settlement);
      }
      assert ClosesIfOpen(k, k1, id, px, ts, Settlement);
      ClosingListed(k, k1, id, px, ts, Settlement);
      var ids := OpenOrders(k1.oms, k1.oms.ids, id);
      CancelsAreOpenOrders(c, k1, id);
      assert SettleContract(c, k, id, ts) == CancelAll(c, k1, ids);
      assert CancelsOpen(k1, SettleContract(c, k, id, ts), id, ids);
    }
  }

  lemma ClosingListed(k: State, k': State, id: InstrumentId, px: Option<Price>, ts: Time, cause: Cause)
    requires Listed(k.oms) && ClosesIfOpen(k, k', id, px, ts, cause)
    ensures Listed(k'.oms)
  {
    hide Listed;
  }

  // --- settlement of all due contracts, and liquidation ---------------------------------------------------

  /** The log rows of one contract. */
  function RowsOf(rows: seq<LogRow>, id: InstrumentId): seq<LogRow> {
    if rows == [] then [] else
      var n := |rows| - 1;
      if rows[n].inst == id then RowsOf(rows[..n], id) + [rows[n]] else RowsOf(rows[..n], id)
  }

  lemma RowsOfSnoc(rows: seq<LogRow>, row: LogRow, id: InstrumentId)
    ensures RowsOf(rows + [row], id) == if row.inst == id then RowsOf(rows, id) + [row] else RowsOf(rows, id)
  {
    assert (rows + [row])[..|rows|] == rows;
  }

  /** The closes of one contract the strategy was told of, each with the position it saw at that moment. */
  function Told(h: History, id: InstrumentId): seq<(Close, int)> {
    if h == [] then [] else
      var n := |h| - 1;
      if h[n].input.CloseFilled? && h[n].input.close.inst == id
      then Told(h[..n], id) + [(h[n].input.close, h[n].oms.Position(id).signed)] else Told(h[..n], id)
  }

  lemma ToldSnoc(h: History, x: Observation, id: InstrumentId)
    ensures Told(h + [x], id) ==
      if x.input.CloseFilled? && x.input.close.inst == id
      then Told(h, id) + [(x.input.close, x.oms.Position(id).signed)] else Told(h, id)
  {
    assert (h + [x])[..|h|] == h;
  }

  lemma {:induction false} UpdatesTellNothing(h: History, more: History, id: InstrumentId)
    requires Updates(more)
    ensures Told(h + more, id) == Told(h, id)
    decreases |more|
  {
    if more == [] {
      assert h + more == h;
    } else {
      var n := |more| - 1;
      UpdatesTellNothing(h, more[..n], id);
      assert h + more == (h + more[..n]) + [more[n]];
      ToldSnoc(h + more[..n], more[n], id);
    }
  }

  lemma CommandsTellNothing(k: State, k': State, id: InstrumentId)
    requires Commanded(k, k')
    ensures Told(k'.history, id) == Told(k.history, id)
  {
    hide Told, Listed;
    assert k'.history == k.history + k'.history[|k.history|..];
    UpdatesTellNothing(k.history, k'.history[|k.history|..], id);
  }

  lemma CloseTells(k: State, k': State, id: InstrumentId, px: Price, ts: Time, cause: Cause, i: InstrumentId)
    requires Closes(k, k', id, px, ts, cause)
    ensures var p := k.oms.Position(id).signed;
      Told(k'.history, i) ==
        if i == id then Told(k.history, i) + [(Close(id, Against(p), Abs(p), px, cause), 0)] else Told(k.history, i)
  {
    hide Told, Listed, Oms.PnlPerQty;
    var h, n := k'.history, |k.history|;
    assert h == k.history + [h[n]] + [h[n + 1]] + h[n + 2..];
    ToldSnoc(k.history, h[n], i);
    ToldSnoc(k.history + [h[n]], h[n + 1], i);
    UpdatesTellNothing(k.history + [h[n]] + [h[n + 1]], h[n + 2..], i);
  }

  /** One contract over a phase: closed by exactly one row for the whole position at the price, the
      strategy told once, with the position flat; or left as it was. */
  ghost predicate ClosedOnce(k: State, k': State, id: InstrumentId, px: Option<Price>, ts: Time, cause: Cause) {
    var p := k.oms.Position(id).signed;
    if px.Some? && id in k.view.instruments && p != 0
    then
      && RowsOf(k'.fills, id) == RowsOf(k.fills, id) + [LogRow(ts, id, Against(p), Abs(p), px.value)]
      && Told(k'.history, id) == Told(k.history, id) + [(Close(id, Against(p), Abs(p), px.value, cause), 0)]
      && k'.oms.Position(id).signed == 0
    else
      && RowsOf(k'.fills, id) == RowsOf(k.fills, id) && Told(k'.history, id) == Told(k.history, id)
      && k'.oms.Position(id) == k.oms.Position(id)
  }

  type Prices = InstrumentId -> Option<Price>

  /** Over a phase, the due contracts that have a price are closed once each and no other is touched. */
  ghost predicate AllClosed(k: State, k': State, due: set<InstrumentId>, price: Prices, ts: Time, cause: Cause) {
    && k'.view == k.view && Listed(k'.oms)
    && forall id :: ClosedOnce(k, k', id, PriceIn(due, price, id), ts, cause)
  }

  function PriceIn(due: set<InstrumentId>, price: Prices, id: InstrumentId): Option<Price> {
    if id in due then price(id) else None
  }

  lemma ClosingOnce(k: State, k1: State, k': State, id: InstrumentId, price: Prices, ts: Time, cause: Cause)
    requires Listed(k.oms) && ClosesIfOpen(k, k1, id, price(id), ts, cause) && Commanded(k1, k')
    ensures AllClosed(k, k', {id}, price, ts, cause)
  {
    hide Listed, RowsOf, Told, Oms.PnlPerQty;
    forall i ensures ClosedOnce(k, k', i, PriceIn({id}, price, i), ts, cause)
    {
      CommandsTellNothing(k1, k', i);
      if price(id).Some? && id in k.view.instruments && k.oms.Position(id).signed != 0 {
        CloseTells(k, k1, id, price(id).value, ts, cause, i);
        RowsOfSnoc(k.fills, k1.fills[|k.fills|], i);
      }
    }
  }

  lemma ClosedAppend(k: State, k1: State, k2: State, a: InstrumentId, due: set<InstrumentId>, price: Prices, ts: Time,
      cause: Cause)
    requires AllClosed(k, k1, {a}, price, ts, cause) && AllClosed(k1, k2, due, price, ts, cause)
    ensures AllClosed(k, k2, {a} + due, price, ts, cause)
  {
    hide Listed, RowsOf, Told;
    forall id ensures ClosedOnce(k, k2, id, PriceIn({a} + due, price, id), ts, cause)
    {
      assert ClosedOnce(k, k1, id, PriceIn({a}, price, id), ts, cause);
      assert ClosedOnce(k1, k2, id, PriceIn(due, price, id), ts, cause);
    }
  }

  /** Only open positions matter to a phase. */
  lemma DueAsFarAsOpen(k: State, k': State, due: set<InstrumentId>, due': set<InstrumentId>, price: Prices, ts: Time,
      cause: Cause)
    requires AllClosed(k, k', due, price, ts, cause)
    requires forall id :: k.oms.Position(id).signed != 0 ==> (id in due <==> id in due')
    ensures AllClosed(k, k', due', price, ts, cause)
  {
    hide Listed, RowsOf, Told;
    forall id ensures ClosedOnce(k, k', id, PriceIn(due', price, id), ts, cause)
    {
      assert ClosedOnce(k, k', id, PriceIn(due, price, id), ts, cause);
    }
  }

  // --- the two phases ---------------------------------------------------------------------------------------

  function SettlePrices(c: Config, view: View): Prices { (id: InstrumentId) => c.settlePx(id, view) }

  function MarkPrices(view: View): Prices { (id: InstrumentId) => view.Mark(id) }

  /** The contracts of the expiries in `[a, b)`. */
  function Expiring(c: Config, a: nat, b: nat): set<InstrumentId> {
    set i | a <= i < b && i < |c.expiries| :: c.expiries[i].1
  }

  /** The expiries in `[a, b)` are due, and the next one is not. */
  ghost predicate AllDue(c: Config, a: nat, b: nat, frontier: Time) {
    && a <= b && (a < b ==> b <= |c.expiries|)
    && (forall i :: a <= i < b && i < |c.expiries| ==> c.expiries[i].0 <= frontier)
    && (b < |c.expiries| ==> c.expiries[b].0 > frontier)
  }

  lemma SettleCloses(c: Config, k: State, id: InstrumentId, ts: Time)
    requires Listed(k.oms)
    ensures AllClosed(k, SettleContract(c, k, id, ts), {id}, SettlePrices(c, k.view), ts, Settlement)
  {
    hide Listed, Closes, Commanded, SettleContract, AllClosed, CancelCalls, CancelOps;
    SettlementCloses(c, k, id, ts);
    var price, k' := SettlePrices(c, k.view), SettleContract(c, k, id, ts);
    if id in k.view.instruments {
      var k1, ids :| ClosesIfOpen(k, k1, id, price(id), ts, Settlement) && CancelsOpen(k1, k', id, ids);
      ClosingOnce(k, k1, k', id, price, ts, Settlement);
    } else {
      FiledCommanded(k, k);
      ClosingOnce(k, k, k, id, price, ts, Settlement);
    }
  }

  /** Settlement at a frontier handles exactly the expiries up to the first that is not due. Each known
      contract among them with a settlement price and an open position is closed by one row for the
      whole position at that price; every other contract keeps its rows and its position. */
  lemma {:induction false} DueContractsClose(c: Config, k: State, frontier: Time)
    requires Listed(k.oms)
    ensures var k' := SettleExpiries(c, k, frontier);
      && AllDue(c, k.expiryCursor, k'.expiryCursor, frontier)
      && AllClosed(k, k', Expiring(c, k.expiryCursor, k'.expiryCursor), SettlePrices(c, k.view), frontier, Settlement)
    decreases if k.expiryCursor < |c.expiries| then |c.expiries| - k.expiryCursor else 0
  {
    hide Listed, SettleContract, RowsOf, Told, SettlePrices;
    var n := k.expiryCursor;
    var price := SettlePrices(c, k.view);
    if n < |c.expiries| && c.expiries[n].0 <= frontier {
      var k0, id := k.(expiryCursor := n + 1), c.expiries[n].1;
      var k1 := SettleContract(c, k0, id, frontier);
      SettleCloses(c, k0, id, frontier);
      assert AllClosed(k, k1, {id}, price, frontier, Settlement) by {
        CursorAside(k, k0, k1, {id}, price, frontier, Settlement);
      }
      hide AllClosed;
      ListedAfter(k, k1, {id}, price, frontier, Settlement);
      DueContractsClose(c, k1, frontier);
      var k' := SettleExpiries(c, k1, frontier);
      ClosedAppend(k, k1, k', id, Expiring(c, n + 1, k'.expiryCursor), price, frontier, Settlement);
      assert {id} + Expiring(c, n + 1, k'.expiryCursor) == Expiring(c, n, k'.expiryCursor);
    } else {
      assert Expiring(c, n, n) == {};
    }
  }

  lemma CursorAside(k: State, k0: State, k': State, due: set<InstrumentId>, price: Prices, ts: Time, cause: Cause)
    requires AllClosed(k0, k', due, price, ts, cause)
    requires k0 == k.(expiryCursor := k0.expiryCursor)
    ensures AllClosed(k, k', due, price, ts, cause)
  {
    hide Listed, RowsOf, Told;
    forall id ensures ClosedOnce(k, k', id, PriceIn(due, price, id), ts, cause)
    {
      assert ClosedOnce(k0, k', id, PriceIn(due, price, id), ts, cause);
    }
  }

  lemma ListedAfter(k: State, k': State, due: set<InstrumentId>, price: Prices, ts: Time, cause: Cause)
    requires AllClosed(k, k', due, price, ts, cause)
    ensures Listed(k'.oms) && k'.view == k.view
  {
    hide Listed, ClosedOnce;
  }

  function SetOf(ids: seq<InstrumentId>): set<InstrumentId> { set id | id in ids }

  lemma {:induction false} LiquidateCloses(c: Config, k: State, ids: seq<InstrumentId>, frontier: Time)
    requires Listed(k.oms)
    ensures AllClosed(k, Liquidate(c, k, ids, frontier), SetOf(ids), MarkPrices(k.view), frontier, Liquidation)
    decreases |ids|
  {
    hide Listed, RowsOf, Told, ClosePosition, Commanded, Closes;
    var price := MarkPrices(k.view);
    if ids != [] {
      var id := ids[0];
      var k1 := if id in k.view.marks then ClosePosition(c, k, id, k.view.marks[id], frontier, Liquidation) else k;
      if id in k.view.marks {
        CloseIsWhole(c, k, id, k.view.marks[id], frontier, Liquidation);
      }
      assert ClosesIfOpen(k, k1, id, price(id), frontier, Liquidation);
      FiledCommanded(k1, k1);
      ClosingOnce(k, k1, k1, id, price, frontier, Liquidation);
      hide AllClosed, MarkPrices;
      ListedAfter(k, k1, {id}, price, frontier, Liquidation);
      LiquidateCloses(c, k1, ids[1..], frontier);
      ClosedAppend(k, k1, Liquidate(c, k1, ids[1..], frontier), id, SetOf(ids[1..]), price, frontier, Liquidation);
      assert {id} + SetOf(ids[1..]) == SetOf(ids);
    }
  }

  lemma {:induction false} OpenPositionsExact(o: Oms.State, held: seq<InstrumentId>)
    ensures forall id :: id in OpenPositions(o, held) <==> id in held && o.Position(id).signed != 0
  {
    if held != [] {
      OpenPositionsExact(o, held[1..]);
    }
  }

  /** When liquidation is due, every open position with a mark is closed by exactly one row for the whole
      position at its mark, and nothing else is touched; when it is not, nothing happens. */
  lemma LiquidationCloses(c: Config, k: State, frontier: Time)
    requires Listed(k.oms)
    ensures var k' := CheckLiquidation(c, k, frontier);
      if c.liquidates(k.oms, k.view)
      then AllClosed(k, k', k.oms.positions.Keys, MarkPrices(k.view), frontier, Liquidation)
      else k' == k
  {
    hide Liquidate, AllClosed, OpenPositions, MarkPrices;
    if c.liquidates(k.oms, k.view) {
      var ids := OpenPositions(k.oms, k.oms.held);
      OpenPositionsExact(k.oms, k.oms.held);
      LiquidateCloses(c, k, ids, frontier);
      DueAsFarAsOpen(k, Liquidate(c, k, ids, frontier), SetOf(ids), k.oms.positions.Keys, MarkPrices(k.view), frontier,
        Liquidation);
    }
  }

  // --- in every run -----------------------------------------------------------------------------------------

  /** The state of an iteration when settlement begins: reports, timers and the market event are done. */
  lemma BeforeSettlement(c: Config, es: seq<Event>, k: State, f: Time) returns (k3: State)
    requires Listed(k.oms) && Caught(k)
    ensures Listed(k3.oms) && k3.expiryCursor == k.expiryCursor
    ensures Iterate(c, es, k, f) == CheckLiquidation(c, SettleExpiries(c, k3, f), f)
  {
    hide SettleExpiries, DrainReports, PopTimers, Liquidate, Listed, MatchEvent, Kept;
    var inv := (k: State) => Listed(k.oms);
    ListedKept(c, es);
    var k0 := k.(clock := Clock.AdvanceTo(k.clock, f));
    DrainReportsKeeps(c, es, inv, k0, f);
    var k1 := DrainReports(c, k0, f);
    PopTimersKeeps(c, es, inv, k1, f);
    var k2 := PopTimers(c, k1, f);
    k3 := if NextMarket(es, k) == Some(f) then ConsumeEvent(c, k2, es[k2.cursor], f) else k2;
    if NextMarket(es, k) == Some(f) {
      ConsumeKeeps(c, es, inv, k2, f);
    }
  }

  /** What an iteration from `k` to `k'` at `f` has settled: the expiries up to the first that is not
      due; their contracts are flat, if they are known and have a settlement price. */
  ghost predicate ExpiriesSettled(c: Config, k: State, k': State, f: Time) {
    && AllDue(c, k.expiryCursor, k'.expiryCursor, f)
    && forall id :: id in Expiring(c, k.expiryCursor, k'.expiryCursor) && id in k'.view.instruments ==>
         (c.settlePx(id, k'.view).Some? ==> k'.oms.Position(id).signed == 0)
  }

  /** Where the account is liquidated, no known contract with a mark is left open. */
  ghost predicate NothingLeft(c: Config, k: State) {
    c.liquidates(k.oms, k.view) ==>
      forall id :: id in k.view.instruments && id in k.view.marks ==> k.oms.Position(id).signed == 0
  }

  lemma LiquidationLeavesNothing(c: Config, k: State, f: Time)
    requires Listed(k.oms)
    ensures NothingLeft(c, CheckLiquidation(c, k, f))
    ensures forall id :: k.oms.Position(id).signed == 0 ==> CheckLiquidation(c, k, f).oms.Position(id).signed == 0
  {
    hide Listed, CheckLiquidation, RowsOf, Told;
    LiquidationCloses(c, k, f);
    var k', due, price := CheckLiquidation(c, k, f), k.oms.positions.Keys, MarkPrices(k.view);
    if c.liquidates(k.oms, k.view) {
      forall id ensures k.oms.Position(id).signed == 0 ==> k'.oms.Position(id).signed == 0
        ensures id in k.view.instruments && id in k.view.marks ==> k'.oms.Position(id).signed == 0
      {
        assert ClosedOnce(k, k', id, PriceIn(due, price, id), f, Liquidation);
      }
    }
  }

  /** A due contract with a price is flat after its phase. */
  lemma FlatAfter(k: State, k': State, due: set<InstrumentId>, price: Prices, ts: Time, cause: Cause, id: InstrumentId)
    requires AllClosed(k, k', due, price, ts, cause)
    requires id in due && id in k.view.instruments && price(id).Some?
    ensures k'.oms.Position(id).signed == 0
  {
    hide Listed, RowsOf, Told;
    assert ClosedOnce(k, k', id, PriceIn(due, price, id), ts, cause);
  }

  lemma SettlementFlattens(c: Config, k: State, f: Time)
    requires Listed(k.oms)
    ensures ExpiriesSettled(c, k, SettleExpiries(c, k, f), f) && Listed(SettleExpiries(c, k, f).oms)
  {
    hide Listed, SettleExpiries, AllClosed;
    DueContractsClose(c, k, f);
    var k' := SettleExpiries(c, k, f);
    var due, price := Expiring(c, k.expiryCursor, k'.expiryCursor), SettlePrices(c, k.view);
    ListedAfter(k, k', due, price, f, Settlement);
    forall id | id in due && id in k'.view.instruments
      ensures c.settlePx(id, k'.view).Some? ==> k'.oms.Position(id).signed == 0
    {
      if price(id).Some? {
        FlatAfter(k, k', due, price, f, Settlement, id);
      }
    }
  }

  lemma StaySettled(c: Config, k: State, k3: State, k4: State, k': State, f: Time)
    requires ExpiriesSettled(c, k3, k4, f) && k3.expiryCursor == k.expiryCursor
    requires k'.view == k4.view && k'.expiryCursor == k4.expiryCursor
    requires forall id :: k4.oms.Position(id).signed == 0 ==> k'.oms.Position(id).signed == 0
    ensures ExpiriesSettled(c, k, k', f)
  {
    forall id | id in Expiring(c, k.expiryCursor, k'.expiryCursor) && id in k'.view.instruments
      ensures c.settlePx(id, k'.view).Some? ==> k'.oms.Position(id).signed == 0
    {
      assert c.settlePx(id, k4.view).Some? ==> k4.oms.Position(id).signed == 0;
    }
  }

  lemma IterationCloses(c: Config, es: seq<Event>, k: State, f: Time)
    requires Listed(k.oms) && Caught(k)
    ensures var k' := Iterate(c, es, k, f); ExpiriesSettled(c, k, k', f) && NothingLeft(c, k')
  {
    hide Listed, Iterate, SettleExpiries, CheckLiquidation, NothingLeft, ExpiriesSettled;
    var k3 := BeforeSettlement(c, es, k, f);
    var k4, k' := SettleExpiries(c, k3, f), Iterate(c, es, k, f);
    SettlementFlattens(c, k3, f);
    LiquidationLeavesNothing(c, k4, f);
    assert Framed(k4, k');
    StaySettled(c, k, k3, k4, k', f);
  }

  /** In every run, every iteration ends with the due expiries settled, their contracts flat, and, if
      the account is then in liquidation, with no marked position left open. */
  lemma IterationsClose(c: Config, es: seq<Event>, start: Time, insts: Oms.Instruments, n: nat)
    requires Frontier(c, es, After(c, es, Initial(start, insts), n)).Some?
    ensures var k, k' := After(c, es, Initial(start, insts), n), After(c, es, Initial(start, insts), n + 1);
      ExpiriesSettled(c, k, k', Frontier(c, es, k).value) && NothingLeft(c, k')
  {
    hide Listed, Iterate, Frontier, NothingLeft, ExpiriesSettled;
    var k := After(c, es, Initial(start, insts), n);
    RunsListed(c, es, start, insts, n);
    IterationCloses(c, es, k, Frontier(c, es, k).value);
  }
}
