/** The order of one iteration as the strategy sees it: fills reported, then timers, then the market
    event, then settlements, then liquidations, all at one clock reading; and what the equity figure of
    a bar is taken from. */
module IterationLaws {
  import opened Domain
  import Venue
  import Clock
  import Oms
  import OmsRuns
  import opened Kernel
  import opened ClosingLaws

  // --- phases -----------------------------------------------------------------------------------------

  function PhaseOf(cause: Cause): nat { if cause.Settlement? then 4 else 5 }

  /** The phase a handler call belongs to; order updates also answer commands, and belong to none. */
  function Phase(input: Input): nat {
    match input
    case OrderFilled(_) => 1
    case Timer(_) => 2
    case Market(_) => 3
    case CloseFilled(close) => PhaseOf(close.cause)
    case CloseUpdate(close) => PhaseOf(close.cause)
    case OrderUpdate(_) => 0
    case Start | Stop => 6
  }

  ghost predicate OnlyPhase(h: History, p: nat) {
    forall i :: 0 <= i < |h| ==> Phase(h[i].input) == 0 || Phase(h[i].input) == p
  }

  /** From `k` to `k'` the strategy heard of one phase only, all of it at the clock's reading. */
  ghost predicate Hears(k: State, k': State, p: nat) {
    && k.history <= k'.history && k'.clock.now == k.clock.now
    && OnlyPhase(k'.history[|k.history|..], p) && AllAt(k'.history[|k.history|..], k.clock.now)
  }

  lemma HearsTrans(k: State, k1: State, k2: State, p: nat)
    requires Hears(k, k1, p) && Hears(k1, k2, p)
    ensures Hears(k, k2, p)
  {
    hide Phase;
    assert k2.history[|k.history|..] == k1.history[|k.history|..] + k2.history[|k1.history|..];
  }

  lemma HearsNothing(k: State, k': State, p: nat)
    requires k'.history == k.history && k'.clock.now == k.clock.now
    ensures Hears(k, k', p)
  {
  }

  lemma HearsOne(c: Config, k: State, input: Input, p: nat)
    requires Phase(input) == 0 || Phase(input) == p
    ensures Hears(k, Notify(c, k, input), p)
  {
    hide Phase;
    assert Notify(c, k, input).history[|k.history|..] == [Observe(k, input)];
  }

  lemma HearsCommands(k: State, k': State, p: nat)
    requires Commanded(k, k')
    ensures Hears(k, k', p)
  {
    hide Listed;
    var h := k'.history[|k.history|..];
    assert forall i :: 0 <= i < |h| ==> h[i].input.OrderUpdate? ==> Phase(h[i].input) == 0;
  }

  lemma HearsOutbox(c: Config, k: State, p: nat)
    ensures Hears(k, ProcessOutbox(c, k), p)
  {
    hide ProcessOutbox, Hears, Commanded;
    OutboxCommanded(c, k);
    HearsCommands(k, ProcessOutbox(c, k), p);
  }

  // --- the five phases --------------------------------------------------------------------------------

  lemma {:induction false} HearsEvents(c: Config, k: State, evs: seq<Oms.OrderEvent>)
    ensures Hears(k, NotifyEvents(c, k, evs), 1)
    decreases |evs|
  {
    hide Hears, Notify;
    if evs == [] {
      HearsNothing(k, k, 1);
    } else {
      var k0 := if evs[0].IsFill() then Notify(c, k, OrderFilled(evs[0].fill)) else k;
      if evs[0].IsFill() {
        HearsOne(c, k, OrderFilled(evs[0].fill), 1);
      } else {
        HearsNothing(k, k, 1);
      }
      var k1 := NotifyEvent(c, k, evs[0]);
      HearsOne(c, k0, OrderUpdate(evs[0]), 1);
      HearsTrans(k, k0, k1, 1);
      HearsEvents(c, k1, evs[1..]);
      HearsTrans(k, k1, NotifyEvents(c, k1, evs[1..]), 1);
    }
  }

  lemma {:induction false} HearsDeliveries(c: Config, k: State, xs: seq<Venue.Scheduled>)
    ensures Hears(k, Deliver(c, k, xs), 1)
    decreases |xs|
  {
    hide Hears, NotifyEvents, Oms.ApplyReport;
    if xs == [] {
      HearsNothing(k, k, 1);
    } else {
      var k0, k1 := FoldReport(k, xs[0].report), DeliverOne(c, k, xs[0].report);
      HearsNothing(k, k0, 1);
      HearsEvents(c, k0, Oms.ApplyReport(k.view.instruments, k.oms, xs[0].report).events);
      HearsTrans(k, k0, k1, 1);
      HearsDeliveries(c, k1, xs[1..]);
      HearsTrans(k, k1, Deliver(c, k1, xs[1..]), 1);
    }
  }

  lemma HearsReports(c: Config, k: State, frontier: Time)
    ensures Hears(k, DrainReports(c, k, frontier), 1)
  {
    hide Hears, Deliver, ProcessOutbox, Venue.Apply;
    var k1 := Do(c, k, Venue.Drain(k.clock.now, frontier));
    var k2 := Deliver(c, k1, k1.venue.delivered[|k.venue.delivered|..]);
    HearsNothing(k, k1, 1);
    HearsDeliveries(c, k1, k1.venue.delivered[|k.venue.delivered|..]);
    HearsTrans(k, k1, k2, 1);
    HearsOutbox(c, k2, 1);
    HearsTrans(k, k2, ProcessOutbox(c, k2), 1);
  }

  lemma {:induction false} HearsTimers(c: Config, k: State, ts: seq<Clock.Timer>)
    ensures Hears(k, FireTimers(c, k, ts), 2)
    decreases |ts|
  {
    hide Hears, Notify, ProcessOutbox;
    if ts == [] {
      HearsNothing(k, k, 2);
    } else {
      var k1 := Notify(c, k, Input.Timer(ts[0]));
      var k2 := ProcessOutbox(c, k1);
      HearsOne(c, k, Input.Timer(ts[0]), 2);
      HearsOutbox(c, k1, 2);
      HearsTrans(k, k1, k2, 2);
      HearsTimers(c, k2, ts[1..]);
      HearsTrans(k, k2, FireTimers(c, k2, ts[1..]), 2);
    }
  }

  lemma HearsDueTimers(c: Config, k: State, frontier: Time)
    ensures Hears(k, PopTimers(c, k, frontier), 2)
  {
    hide Hears, FireTimers, Clock.PopDue;
    var p := Clock.PopDue(k.clock, frontier);
    var k1 := k.(clock := p.c);
    HearsNothing(k, k1, 2);
    HearsTimers(c, k1, p.fired);
    HearsTrans(k, k1, FireTimers(c, k1, p.fired), 2);
  }

  lemma HearsMarket(c: Config, k: State, ev: Event, frontier: Time)
    ensures Hears(k, ConsumeEvent(c, k, ev, frontier), 3)
  {
    hide Hears, Notify, ProcessOutbox, Venue.Apply;
    var k1 := k.(cursor := k.cursor + 1, view := k.view.Observe(ev));
    var k2 := Do(c, k1, Venue.Match(k1.clock.now, k1.view, ev));
    var k3 := Notify(c, k2, Input.Market(ev));
    HearsNothing(k, k2, 3);
    HearsOne(c, k2, Input.Market(ev), 3);
    HearsTrans(k, k2, k3, 3);
    HearsOutbox(c, k3, 3);
    HearsTrans(k, k3, ProcessOutbox(c, k3), 3);
    var k4 := ProcessOutbox(c, k3);
    assert MatchEvent(c, k, ev) == k4;
    HearsNothing(k4, ConsumeEvent(c, k, ev, frontier), 3);
    HearsTrans(k, k4, ConsumeEvent(c, k, ev, frontier), 3);
  }

  lemma HearsClose(c: Config, k: State, id: InstrumentId, px: Price, ts: Time, cause: Cause)
    ensures Hears(k, ClosePosition(c, k, id, px, ts, cause), PhaseOf(cause))
  {
    hide Listed, ClosePosition, Oms.PnlPerQty;
    CloseIsWhole(c, k, id, px, ts, cause);
    var k', n := ClosePosition(c, k, id, px, ts, cause), |k.history|;
    if id in k.view.instruments && k.oms.Position(id).signed != 0 {
      var h := k'.history;
      var rest := h[n + 2..];
      assert forall i :: 0 <= i < |rest| ==> rest[i].input.OrderUpdate?;
      assert h[n..] == [h[n]] + [h[n + 1]] + rest;
    }
  }

  lemma HearsSettlement(c: Config, k: State, id: InstrumentId, frontier: Time)
    ensures Hears(k, SettleContract(c, k, id, frontier), 4)
  {
    hide Hears, ClosePosition, CancelAll, OpenOrders, Commanded;
    if id !in k.view.instruments {
      HearsNothing(k, k, 4);
    } else {
      var px := c.settlePx(id, k.view);
      var k1 := if px.Some? then ClosePosition(c, k, id, px.value, frontier, Settlement) else k;
      if px.Some? {
        HearsClose(c, k, id, px.value, frontier, Settlement);
      } else {
        HearsNothing(k, k, 4);
      }
      var ids := OpenOrders(k1.oms, k1.oms.ids, id);
      CancelAllIsCancels(c, k1, ids);
      HearsCommands(k1, CancelAll(c, k1, ids), 4);
      HearsTrans(k, k1, CancelAll(c, k1, ids), 4);
    }
  }

  lemma {:induction false} HearsSettlements(c: Config, k: State, frontier: Time)
    ensures Hears(k, SettleExpiries(c, k, frontier), 4)
    decreases if k.expiryCursor < |c.expiries| then |c.expiries| - k.expiryCursor else 0
  {
    hide Hears, SettleContract;
    if k.expiryCursor >= |c.expiries| || c.expiries[k.expiryCursor].0 > frontier {
      HearsNothing(k, k, 4);
    } else {
      var k0, id := k.(expiryCursor := k.expiryCursor + 1), c.expiries[k.expiryCursor].1;
      var k1 := SettleContract(c, k0, id, frontier);
      HearsNothing(k, k0, 4);
      HearsSettlement(c, k0, id, frontier);
      HearsTrans(k, k0, k1, 4);
      HearsSettlements(c, k1, frontier);
      HearsTrans(k, k1, SettleExpiries(c, k1, frontier), 4);
    }
  }

  lemma {:induction false} HearsLiquidations(c: Config, k: State, ids: seq<InstrumentId>, frontier: Time)
    ensures Hears(k, Liquidate(c, k, ids, frontier), 5)
    decreases |ids|
  {
    hide Hears, ClosePosition;
    if ids == [] {
      HearsNothing(k, k, 5);
    } else {
      var k1 := if ids[0] in k.view.marks
                then ClosePosition(c, k, ids[0], k.view.marks[ids[0]], frontier, Liquidation) else k;
      if ids[0] in k.view.marks {
        HearsClose(c, k, ids[0], k.view.marks[ids[0]], frontier, Liquidation);
      } else {
        HearsNothing(k, k, 5);
      }
      HearsLiquidations(c, k1, ids[1..], frontier);
      HearsTrans(k, k1, Liquidate(c, k1, ids[1..], frontier), 5);
    }
  }

  // --- an iteration -----------------------------------------------------------------------------------

  /** Phases never go back, all at one clock reading; unphased calls may come anywhere. */
  ghost predicate InPhases(h: History, now: Time) {
    && AllAt(h, now)
    && forall i, j :: 0 <= i < j < |h| && Phase(h[i].input) != 0 && Phase(h[j].input) != 0 ==>
         Phase(h[i].input) <= Phase(h[j].input)
  }

  ghost predicate UpTo(h: History, p: nat) { forall i :: 0 <= i < |h| ==> Phase(h[i].input) <= p }

  lemma PhasesAppend(h: History, more: History, now: Time, p: nat)
    requires InPhases(h, now) && UpTo(h, p) && OnlyPhase(more, p + 1) && AllAt(more, now)
    ensures InPhases(h + more, now) && UpTo(h + more, p + 1)
  {
    hide Phase;
    forall i | 0 <= i < |h + more|
      ensures (h + more)[i] == if i < |h| then h[i] else more[i - |h|]
    {
    }
  }

  /** One more phase heard since `k`. */
  lemma NextPhase(k: State, k1: State, k2: State, p: nat)
    requires k.history <= k1.history && InPhases(k1.history[|k.history|..], k1.clock.now)
    requires UpTo(k1.history[|k.history|..], p) && Hears(k1, k2, p + 1)
    ensures k.history <= k2.history && InPhases(k2.history[|k.history|..], k2.clock.now)
    ensures UpTo(k2.history[|k.history|..], p + 1) && k2.clock.now == k1.clock.now
  {
    hide Phase, InPhases, UpTo, OnlyPhase, AllAt;
    assert k2.history[|k.history|..] == k1.history[|k.history|..] + k2.history[|k1.history|..];
    PhasesAppend(k1.history[|k.history|..], k2.history[|k1.history|..], k1.clock.now, p);
  }

  /** Within an iteration the strategy hears of reported fills first, then timers, then the market
      event, then settlements, then liquidations, and all of it at the frontier's clock reading. */
  lemma PhasesInOrder(c: Config, es: seq<Event>, k: State, f: Time)
    ensures var k' := Iterate(c, es, k, f);
      && k.history <= k'.history
      && InPhases(k'.history[|k.history|..], Clock.AdvanceTo(k.clock, f).now)
      && UpTo(k'.history[|k.history|..], 5)
  {
    hide DrainReports, PopTimers, ConsumeEvent, SettleExpiries, Liquidate, InPhases, UpTo, Hears;
    var k0 := k.(clock := Clock.AdvanceTo(k.clock, f));
    assert InPhases(k0.history[|k.history|..], k0.clock.now) && UpTo(k0.history[|k.history|..], 0) by {
      NothingHeard(k0.history[|k.history|..], k0.clock.now);
    }
    var k1 := DrainReports(c, k0, f);
    HearsReports(c, k0, f);
    NextPhase(k, k0, k1, 0);
    var k2 := PopTimers(c, k1, f);
    HearsDueTimers(c, k1, f);
    NextPhase(k, k1, k2, 1);
    var k3 := if NextMarket(es, k) == Some(f) then ConsumeEvent(c, k2, es[k2.cursor], f) else k2;
    if NextMarket(es, k) == Some(f) {
      HearsMarket(c, k2, es[k2.cursor], f);
    } else {
      HearsNothing(k2, k2, 3);
    }
    NextPhase(k, k2, k3, 2);
    var k4 := SettleExpiries(c, k3, f);
    HearsSettlements(c, k3, f);
    NextPhase(k, k3, k4, 3);
    if c.liquidates(k4.oms, k4.view) {
      HearsLiquidations(c, k4, OpenPositions(k4.oms, k4.oms.held), f);
      NextPhase(k, k4, Iterate(c, es, k, f), 4);
    } else {
      HearsNothing(k4, k4, 5);
      NextPhase(k, k4, k4, 4);
    }
  }

  lemma NothingHeard(h: History, now: Time)
    requires h == []
    ensures InPhases(h, now) && UpTo(h, 0)
  {
  }

  /** Every run begins by starting the strategy, on empty books at the start time, and never starts it again
      nor stops it while the loop runs. */
  ghost predicate Started(h: History, start: Time) {
    && h != [] && h[0].input.Start? && h[0].now == start && h[0].oms == Oms.EMPTY
    && forall i :: 0 < i < |h| ==> !h[i].input.Start? && !h[i].input.Stop?
  }

  lemma StaysStarted(h: History, h': History, start: Time)
    requires Started(h, start) && h <= h' && UpTo(h'[|h|..], 5)
    ensures Started(h', start)
  {
    forall i | 0 < i < |h'|
      ensures !h'[i].input.Start? && !h'[i].input.Stop?
    {
      if i >= |h| {
        assert h'[i] == h'[|h|..][i - |h|];
      }
    }
  }

  lemma BeginStarts(c: Config, k: State)
    requires k.history == [] && k.oms == Oms.EMPTY
    ensures Started(Begin(c, k).history, k.clock.now)
  {
    hide ProcessOutbox, ApplyTimers;
    var k1 := Notify(c, k, Start);
    assert Started(k1.history, k.clock.now);
    HearsOutbox(c, k1, 5);
    var more := ProcessOutbox(c, k1).history[|k1.history|..];
    assert forall i :: 0 <= i < |more| ==> Phase(more[i].input) <= 5;
    StaysStarted(k1.history, ProcessOutbox(c, k1).history, k.clock.now);
  }

  lemma {:induction false} RunsStartOnce(c: Config, es: seq<Event>, start: Time, insts: Oms.Instruments, n: nat)
    ensures Started(After(c, es, Initial(start, insts), n).history, start)
  {
    hide Begin, Iterate, Started, InPhases;
    if n == 0 {
      BeginStarts(c, Initial(start, insts));
    } else {
      var k := After(c, es, Initial(start, insts), n - 1);
      RunsStartOnce(c, es, start, insts, n - 1);
      var f := Frontier(c, es, k);
      if f.Some? {
        PhasesInOrder(c, es, k, f.value);
        StaysStarted(k.history, Iterate(c, es, k, f.value).history, start);
      }
    }
  }

  // --- reports ----------------------------------------------------------------------------------------

  /** What the strategy is shown of an order event: a fill first as a fill, and every event as an update. */
  function Announced(ev: Oms.OrderEvent): seq<Input> {
    if ev.IsFill() then [OrderFilled(ev.fill), OrderUpdate(ev)] else [OrderUpdate(ev)]
  }

  /** The strategy was shown these inputs, on books that already hold their effect. */
  ghost predicate Shows(k: State, k': State, inputs: seq<Input>, o: Oms.State) {
    && k.history <= k'.history && |k'.history| == |k.history| + |inputs|
    && forall i :: 0 <= i < |inputs| ==>
         var seen := k'.history[|k.history| + i]; seen.input == inputs[i] && seen.oms == o && seen.view == k.view
  }

  /** A delivered report is folded and logged first and then shown: nothing if the FSM refused it, otherwise
      its one event, on the folded books. */
  lemma ReportIsShown(c: Config, k: State, r: Report)
    ensures var k', out := DeliverOne(c, k, r), Oms.ApplyReport(k.view.instruments, k.oms, r);
      && k'.oms == out.oms && |out.events| <= 1
      && Shows(k, k', if out.events == [] then [] else Announced(out.events[0]), out.oms)
      && k'.fills == if r.Filled? && out.events != [] then k.fills + [RowOf(r.fill)] else k.fills
  {
    var out := Oms.ApplyReport(k.view.instruments, k.oms, r);
    OneEvent(k.view.instruments, k.oms, r);
    hide Oms.ApplyReport, ApplyTimers;
    if out.events != [] {
      assert out.events == [out.events[0]] && out.events[1..] == [];
      var k1 := FoldReport(k, r);
      assert NotifyEvents(c, k1, out.events) == NotifyEvent(c, k1, out.events[0]);
    }
  }

  lemma OneEvent(insts: Oms.Instruments, o: Oms.State, r: Report)
    ensures |Oms.ApplyReport(insts, o, r).events| <= 1
  {
    hide Oms.Transition, Oms.Settle;
  }

  // --- commands ---------------------------------------------------------------------------------------

  /** What one command does: a submission that is judged is one call, counted, and reaches the venue or is
      counted as denied; an ignored one is only counted; a cancellation is one call and reaches the venue;
      a modification does nothing. */
  ghost predicate Handles(c: Config, k: State, cmd: Command, k': State) {
    match cmd
    case Submit(order) =>
      var v := Judge(c, k, order);
      && k'.submitted == k.submitted + 1
      && k'.denied == k.denied + (if v.Refused? then 1 else 0)
      && k'.calls == k.calls + (if v.Ignored? then [] else [OmsRuns.Submit(k.view, k.clock.now, order)])
      && k'.log == k.log + (if v.Routed? then [Venue.Submit(k.clock.now, k.view, order)] else [])
      && k'.oms == if v.Ignored? then k.oms else v.oms
    case Cancel(id) =>
      && k'.submitted == k.submitted && k'.denied == k.denied
      && k'.calls == k.calls + [OmsRuns.Cancel(id)] && k'.log == k.log + [Venue.Cancel(k.clock.now, id)]
    case Modify(_) => k' == k
  }

  lemma {:induction false} EventsCountNothing(c: Config, k: State, evs: seq<Oms.OrderEvent>)
    ensures var k' := NotifyEvents(c, k, evs);
      && k'.submitted == k.submitted && k'.denied == k.denied && k'.calls == k.calls && k'.log == k.log
    decreases |evs|
  {
    if evs != [] {
      EventsCountNothing(c, NotifyEvent(c, k, evs[0]), evs[1..]);
    }
  }

  lemma CommandHandled(c: Config, k: State, cmd: Command)
    ensures Handles(c, k, cmd, ProcessCommand(c, k, cmd))
  {
    hide Oms.Judge, Venue.Apply, Oms.Transition;
    if cmd.Cancel? {
      var out := Oms.Fire(k.oms, cmd.id, Oms.EvPendingCancel);
      EventsCountNothing(c, Do(c, Called(k, out.oms, OmsRuns.Cancel(cmd.id)), Venue.Cancel(k.clock.now, cmd.id)),
        out.events);
    }
  }

  /** The states between the commands of one outbox. */
  ghost predicate Trace(c: Config, ks: seq<State>, cmds: seq<Command>) {
    |ks| == |cmds| + 1 && forall i :: 0 <= i < |cmds| ==> Handles(c, ks[i], cmds[i], ks[i + 1])
  }

  lemma {:induction false} CommandsInOrder(c: Config, k: State, cmds: seq<Command>) returns (ks: seq<State>)
    ensures Trace(c, ks, cmds) && ks[0] == k && ks[|cmds|] == ProcessCommands(c, k, cmds)
    decreases |cmds|
  {
    hide Handles, ProcessCommand;
    ks := [k];
    if cmds != [] {
      var k1 := ProcessCommand(c, k, cmds[0]);
      CommandHandled(c, k, cmds[0]);
      var rest := CommandsInOrder(c, k1, cmds[1..]);
      ks := [k] + rest;
      forall i | 0 <= i < |cmds|
        ensures Handles(c, ks[i], cmds[i], ks[i + 1])
      {
        if i > 0 {
          assert Handles(c, rest[i - 1], cmds[1..][i - 1], rest[i]);
        }
      }
    }
  }

  /** Draining the outbox handles the commands present, each once, in order; what handlers add waits. */
  lemma OutboxInOrder(c: Config, k: State)
    ensures exists ks :: Trace(c, ks, k.outbox) && ks[0] == k.(outbox := []) && ks[|k.outbox|] == ProcessOutbox(c, k)
  {
    hide Trace, ProcessCommands;
    var ks := CommandsInOrder(c, k.(outbox := []), k.outbox);
  }

  // --- timers -----------------------------------------------------------------------------------------

  /** The timers the strategy was told of. */
  function TimersIn(h: History): seq<Clock.Timer> {
    if h == [] then [] else
      var n := |h| - 1;
      if h[n].input.Timer? then TimersIn(h[..n]) + [h[n].input.timer] else TimersIn(h[..n])
  }

  lemma TimersSnoc(h: History, x: Observation)
    ensures TimersIn(h + [x]) == if x.input.Timer? then TimersIn(h) + [x.input.timer] else TimersIn(h)
  {
    assert (h + [x])[..|h|] == h;
  }

  lemma {:induction false} UpdatesFireNothing(h: History, more: History)
    requires Updates(more)
    ensures TimersIn(h + more) == TimersIn(h)
    decreases |more|
  {
    if more == [] {
      assert h + more == h;
    } else {
      var n := |more| - 1;
      UpdatesFireNothing(h, more[..n]);
      assert h + more == (h + more[..n]) + [more[n]];
      TimersSnoc(h + more[..n], more[n]);
    }
  }

  lemma OutboxFiresNothing(c: Config, k: State)
    ensures TimersIn(ProcessOutbox(c, k).history) == TimersIn(k.history)
  {
    hide ProcessOutbox, TimersIn, Listed;
    OutboxCommanded(c, k);
    var k' := ProcessOutbox(c, k);
    assert k'.history == k.history + k'.history[|k.history|..];
    UpdatesFireNothing(k.history, k'.history[|k.history|..]);
  }

  lemma {:induction false} TimersHeard(c: Config, k: State, ts: seq<Clock.Timer>)
    ensures TimersIn(FireTimers(c, k, ts).history) == TimersIn(k.history) + ts
    decreases |ts|
  {
    hide ProcessOutbox, TimersIn;
    if ts != [] {
      var k1 := Notify(c, k, Input.Timer(ts[0]));
      TimersSnoc(k.history, Observe(k, Input.Timer(ts[0])));
      OutboxFiresNothing(c, k1);
      TimersHeard(c, ProcessOutbox(c, k1), ts[1..]);
    }
  }

  /** At a frontier the strategy is told of exactly the due live timers, each once, in their order. */
  lemma DueTimersAreHeard(c: Config, k: State, frontier: Time)
    ensures TimersIn(PopTimers(c, k, frontier).history)
         == TimersIn(k.history) + Clock.PopDue(k.clock, frontier).fired
  {
    hide FireTimers, Clock.PopDue, TimersIn;
    var p := Clock.PopDue(k.clock, frontier);
    TimersHeard(c, k.(clock := p.c), p.fired);
  }

  // --- the equity curve -------------------------------------------------------------------------------

  function Submissions(cmds: seq<Command>): nat {
    if cmds == [] then 0 else (if cmds[0].Submit? then 1 else 0) + Submissions(cmds[1..])
  }

  lemma {:induction false} CommandsCounted(c: Config, k: State, cmds: seq<Command>)
    ensures ProcessCommands(c, k, cmds).submitted == k.submitted + Submissions(cmds)
    decreases |cmds|
  {
    hide ProcessCommand, Oms.Judge;
    if cmds != [] {
      CommandHandled(c, k, cmds[0]);
      CommandsCounted(c, ProcessCommand(c, k, cmds[0]), cmds[1..]);
    }
  }

  /** A consumed event is shown once, on the updated view and after the venue matched it; every
      submission of the strategy's answer is handled; and a bar, no other event, then adds one point to
      the curve: the equity of the state the event leaves, at the frontier. */
  lemma EquityFollowsTheEvent(c: Config, k: State, ev: Event, frontier: Time)
    ensures var k', seen := ConsumeEvent(c, k, ev, frontier), k.history + [Observation(Input.Market(ev), k.clock.now,
        k.view.Observe(ev), k.oms, k.clock.nextId)];
      && k'.view == k.view.Observe(ev) && k'.cursor == k.cursor + 1
      && seen <= k'.history
      && k'.submitted == k.submitted + Submissions(k.outbox + c.strategy(seen).commands)
      && k'.curve == if ev.Bar? then k.curve + [(frontier, c.equity(k'.oms, k'.view))] else k.curve
  {
    hide ProcessCommands, Venue.Apply, Submissions;
    var k1 := k.(cursor := k.cursor + 1, view := k.view.Observe(ev));
    var k2 := Do(c, k1, Venue.Match(k1.clock.now, k1.view, ev));
    var k3 := Notify(c, k2, Input.Market(ev));
    HearsOutbox(c, k3, 3);
    CommandsCounted(c, k3.(outbox := []), k3.outbox);
  }
}
