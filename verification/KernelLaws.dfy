/** Laws of every kernel run, for an arbitrary strategy: the venue's log, causality, delivery
    order, the report protocol, conservation and termination. */
module KernelLaws {
  import opened Domain
  import opened Brokerage
  import Venue
  import OrderLife
  import LifeLaws
  import Delivery
  import Clock
  import Oms
  import OmsRuns
  import opened Kernel
  import opened KernelSteps
  import Termination

  // --- the invariant ------------------------------------------------------------------------

  /** The market events matched so far, in order. */
  function Matches(log: seq<Venue.Op>): seq<Event> {
    if log == [] then []
    else
      var op := log[|log| - 1];
      if op.Match? then Matches(log[..|log| - 1]) + [op.ev] else Matches(log[..|log| - 1])
  }

  /** The venue is the replay of a well-timed log in which no order id occurs twice; every order at
      the venue is tracked; the timer heap is in order. */
  ghost predicate Safe(c: Config, k: State) {
    && k.venue == Venue.Run(c.model, k.log)
    && Venue.Timed(k.log) && Venue.Fresh(k.log)
    && (forall i :: 0 <= i < |k.log| ==> k.log[i].now <= k.clock.now)
    && (forall i, id :: 0 <= i < |k.log| && Venue.Submits(k.log[i], id) ==> id in k.oms.orders)
    && Clock.Valid(k.clock)
  }

  /** The strategy has been shown exactly the events that were matched, and those are the consumed
      ones. */
  ghost predicate InStep(es: seq<Event>, k: State) {
    k.cursor <= |es| && Matches(k.log) == es[..k.cursor] && Shown(k.history) == k.cursor
  }

  ghost predicate Sound(c: Config, es: seq<Event>, k: State) { Safe(c, k) && InStep(es, k) }

  lemma DoSafe(c: Config, k: State, op: Venue.Op)
    requires Safe(c, k) && op.now == k.clock.now && (op.Drain? ==> op.frontier <= op.now)
    requires forall id :: Venue.Submits(op, id) ==> id in k.oms.orders
    requires forall i, id :: 0 <= i < |k.log| && Venue.Submits(k.log[i], id) ==> !Venue.Submits(op, id)
    ensures Safe(c, Do(c, k, op))
    ensures Matches(Do(c, k, op).log) == if op.Match? then Matches(k.log) + [op.ev] else Matches(k.log)
  {
    hide Venue.Apply, Clock.Valid, Venue.Timed, Venue.Fresh, Venue.Submits;
    var log' := k.log + [op];
    assert log'[..|k.log|] == k.log;
    assert forall i :: 0 <= i < |k.log| ==> log'[i] == k.log[i];
    assert Do(c, k, op).log == log';
    LogGrows(k.log, op);
  }

  lemma LogGrows(log: seq<Venue.Op>, op: Venue.Op)
    requires Venue.Timed(log) && Venue.Fresh(log) && (op.Drain? ==> op.frontier <= op.now)
    requires forall i :: 0 <= i < |log| ==> log[i].now <= op.now
    requires forall i, id :: 0 <= i < |log| && Venue.Submits(log[i], id) ==> !Venue.Submits(op, id)
    ensures Venue.Timed(log + [op]) && Venue.Fresh(log + [op])
  {
  }

  /** Changes that leave the venue alone and forget no order. */
  lemma AsideSafe(c: Config, k: State, k': State)
    requires Safe(c, k) && k'.venue == k.venue && k'.log == k.log && k.clock.now <= k'.clock.now
    requires k.oms.orders.Keys <= k'.oms.orders.Keys && Clock.Valid(k'.clock)
    ensures Safe(c, k')
  {
  }

  lemma {:induction false} TimersValid(c: Clock.State, ts: seq<TimerOp>)
    requires Clock.Valid(c)
    ensures Clock.Valid(ApplyTimers(c, ts))
    decreases |ts|
  {
    if ts != [] {
      if ts[0].Arm? {
        Clock.SetTimerValid(c, ts[0].name, ts[0].at);
      }
      TimersValid(ApplyTimer(c, ts[0]), ts[1..]);
    }
  }

  lemma NotifySafe(c: Config, k: State, input: Input)
    requires Safe(c, k)
    ensures var k' := Notify(c, k, input);
      && Safe(c, k') && k'.log == k.log && k'.cursor == k.cursor
      && Shown(k'.history) == Shown(k.history) + if input.Market? then 1 else 0
  {
    var h := k.history + [Observe(k, input)];
    TimersValid(k.clock, c.strategy(h).timers);
    AsideSafe(c, k, Notify(c, k, input));
    assert h[..|h| - 1] == k.history;
  }

  lemma RoutedSound(c: Config, es: seq<Event>, k: State, order: Order)
    requires Sound(c, es, k) && Judge(c, k, order).Routed?
    ensures Sound(c, es, Do(c, Passed(k, order, Judge(c, k, order).oms), Venue.Submit(k.clock.now, k.view, order)))
  {
    var k1 := Passed(k, order, Judge(c, k, order).oms);
    assert k1.oms.orders.Keys == k.oms.orders.Keys + {order.id};
    AsideSafe(c, k, k1);
    DoSafe(c, k1, Venue.Submit(k.clock.now, k.view, order));
  }

  lemma CancelSound(c: Config, es: seq<Event>, k: State, id: OrderId)
    requires Sound(c, es, k)
    ensures var o := Oms.Fire(k.oms, id, Oms.EvPendingCancel).oms;
      Sound(c, es, Do(c, Called(k, o, OmsRuns.Cancel(id)), Venue.Cancel(k.clock.now, id)))
  {
    var k1 := Called(k, Oms.Fire(k.oms, id, Oms.EvPendingCancel).oms, OmsRuns.Cancel(id));
    AsideSafe(c, k, k1);
    DoSafe(c, k1, Venue.Cancel(k.clock.now, id));
  }

  lemma MatchedSound(c: Config, es: seq<Event>, k: State)
    requires Sound(c, es, k) && k.cursor < |es|
    ensures Sound(c, es, Show(c, k, es[k.cursor]))
  {
    hide Venue.Apply, Notify;
    var ev := es[k.cursor];
    var k1 := k.(cursor := k.cursor + 1, view := k.view.Observe(ev));
    var op := Venue.Match(k1.clock.now, k1.view, ev);
    AsideSafe(c, k, k1);
    DoSafe(c, k1, op);
    NotifySafe(c, Do(c, k1, op), Input.Market(ev));
    assert es[..k.cursor + 1] == es[..k.cursor] + [ev];
  }

  lemma StepSound(c: Config, es: seq<Event>, k: State, s: Step, k': State)
    requires Sound(c, es, k) && Takes(c, es, k, s, k')
    ensures Sound(c, es, k')
  {
    hide Venue.Apply, Oms.ApplyReport;
    match s
    case Heard(input) => NotifySafe(c, k, input);
    case Filed =>
      assert k'.log == k.log && k'.history == k.history && k'.cursor == k.cursor;
      AsideSafe(c, k, k');
    case Routed(order) => RoutedSound(c, es, k, order);
    case Refused(order) => AsideSafe(c, k, k');
    case CancelAsked(id) => CancelSound(c, es, k, id);
    case Drained(frontier) => DoSafe(c, k, Venue.Drain(k.clock.now, frontier));
    case Folded =>
      Oms.ReportKeeps(k.view.instruments, k.oms, k.venue.delivered[k.applied].report);
      AsideSafe(c, k, k');
    case Popped(frontier) =>
      Clock.PopDueExact(k.clock, frontier);
      AsideSafe(c, k, k');
    case Advanced(frontier) => AsideSafe(c, k, k');
    case Closed(id, px, ts) =>
      hide Oms.BookFill;
      AsideSafe(c, k, k');
    case Matched => MatchedSound(c, es, k);
  }

  /** Every reachable kernel state is sound and has folded every delivered report. */
  lemma Reachable(c: Config, es: seq<Event>, start: Time, insts: Oms.Instruments, n: nat)
    ensures var k := After(c, es, Initial(start, insts), n); Sound(c, es, k) && Caught(k)
  {
    hide After;
    var inv := k => Sound(c, es, k);
    forall k, s, k' | inv(k) && Takes(c, es, k, s, k')
      ensures inv(k')
    {
      StepSound(c, es, k, s, k');
    }
    assert Sound(c, es, Initial(start, insts));
    RunKeeps(c, es, inv, Initial(start, insts), n);
  }

  // --- ordering -----------------------------------------------------------------------------

  lemma NextAdvances(c: Config, es: seq<Event>, k: State)
    ensures k.clock.now <= Next(c, es, k).clock.now && k.cursor <= Next(c, es, k).cursor
  {
    hide Iterate;
  }

  /** From one iteration to the next the clock never moves back, even when a strategy arms timers
      in the past. */
  lemma ClockIsMonotone(c: Config, es: seq<Event>, k: State, n: nat)
    ensures After(c, es, k, n).clock.now <= After(c, es, k, n + 1).clock.now
  {
    hide Next, Begin;
    NextAdvances(c, es, After(c, es, k, n));
    assert After(c, es, k, n + 1) == Next(c, es, After(c, es, k, n));
  }

  /** What the loop waits for: the next market event, report, timer and expiry. */
  ghost predicate Awaits(c: Config, es: seq<Event>, k: State, t: Time) {
    || (k.cursor < |es| && es[k.cursor].ts == t)
    || (k.venue.queue != [] && k.venue.queue[0].due == t)
    || Clock.PeekNext(k.clock) == Some(t)
    || (k.expiryCursor < |c.expiries| && c.expiries[k.expiryCursor].0 == t)
  }

  /** The frontier is the earliest time the loop waits for, and absent when it waits for nothing. */
  lemma FrontierIsEarliest(c: Config, es: seq<Event>, k: State)
    ensures Frontier(c, es, k).None? <==> forall t :: !Awaits(c, es, k, t)
    ensures Frontier(c, es, k).Some? ==>
      Awaits(c, es, k, Frontier(c, es, k).value) && forall t :: Awaits(c, es, k, t) ==> Frontier(c, es, k).value <= t
  {
    hide Clock.PeekNext;
    var market, report, timer, expiry := NextMarket(es, k), NextReport(k), Clock.PeekNext(k.clock), NextExpiry(c, k);
    assert market.Some? ==> Awaits(c, es, k, market.value);
    assert report.Some? ==> Awaits(c, es, k, report.value);
    assert timer.Some? ==> Awaits(c, es, k, timer.value);
    assert expiry.Some? ==> Awaits(c, es, k, expiry.value);
  }

  ghost predicate SortedEvents(es: seq<Event>) {
    forall i, j :: 0 <= i < j < |es| ==> es[i].ts <= es[j].ts
  }

  ghost predicate SortedCurve(curve: seq<(Time, real)>) {
    forall i, j :: 0 <= i < j < |curve| ==> curve[i].0 <= curve[j].0
  }

  ghost predicate CurveBehind(es: seq<Event>, k: State) {
    SortedCurve(k.curve) && forall i, j :: 0 <= i < |k.curve| && k.cursor <= j < |es| ==> k.curve[i].0 <= es[j].ts
  }

  lemma NextCurve(c: Config, es: seq<Event>, k: State)
    requires SortedEvents(es) && CurveBehind(es, k)
    ensures CurveBehind(es, Next(c, es, k))
  {
    hide Iterate;
    var f := Frontier(c, es, k);
    if f.Some? {
      var k' := Iterate(c, es, k, f.value);
      assert forall i :: 0 <= i < |k.curve| ==> k'.curve[i] == k.curve[i];
    }
  }

  /** The equity curve has non-decreasing timestamps. */
  lemma {:induction false} CurveIsSorted(c: Config, es: seq<Event>, k: State, n: nat)
    requires SortedEvents(es) && k.curve == []
    ensures CurveBehind(es, After(c, es, k, n))
  {
    hide Next;
    if n > 0 {
      CurveIsSorted(c, es, k, n - 1);
      NextCurve(c, es, After(c, es, k, n - 1));
    }
  }

  /** In every kernel run, whatever the strategy: reports are delivered in (due, sequence) order;
      with a cancel no faster than a submit each order's delivered reports follow the protocol; and
      what was scheduled for an order plus what remains is its quantity. */
  lemma RunReports(c: Config, es: seq<Event>, start: Time, insts: Oms.Instruments, n: nat, id: OrderId)
    ensures var k := After(c, es, Initial(start, insts), n);
      && Delivery.Sorted(k.venue.delivered)
      && (c.model.submitLatency <= c.model.cancelLatency ==>
            var items := OrderLife.Items(k.venue.delivered, id); items == [] || LifeLaws.Protocol(items))
      && (LifeLaws.Accepted(k.log, id).Some? ==>
            var o, items, entry := LifeLaws.Accepted(k.log, id).value, OrderLife.Items(k.venue.issued, id),
                OrderLife.Find(k.venue.resting, id);
            && (entry.Some? ==> LifeLaws.Executed(items) + entry.value.remaining == o.quantity)
            && (entry.None? && !LifeLaws.Canceled(items) ==> LifeLaws.Executed(items) == o.quantity))
  {
    hide After;
    Reachable(c, es, start, insts, n);
    var k := After(c, es, Initial(start, insts), n);
    ReplayReports(c.model, k.log, id);
  }

  /** The same for a log. */
  lemma ReplayReports(m: BrokerageModel, log: seq<Venue.Op>, id: OrderId)
    requires Venue.Timed(log) && Venue.Fresh(log)
    ensures var s := Venue.Run(m, log);
      && Delivery.Sorted(s.delivered)
      && (m.submitLatency <= m.cancelLatency ==>
            var items := OrderLife.Items(s.delivered, id); items == [] || LifeLaws.Protocol(items))
      && (LifeLaws.Accepted(log, id).Some? ==>
            var o, items, entry := LifeLaws.Accepted(log, id).value, OrderLife.Items(s.issued, id),
                OrderLife.Find(s.resting, id);
            && (entry.Some? ==> LifeLaws.Executed(items) + entry.value.remaining == o.quantity)
            && (entry.None? && !LifeLaws.Canceled(items) ==> LifeLaws.Executed(items) == o.quantity))
  {
    Delivery.DeliveryOrder(m, log);
    if m.submitLatency <= m.cancelLatency {
      Delivery.DeliveredProtocol(m, log, id);
    }
    if LifeLaws.Accepted(log, id).Some? {
      LifeLaws.QuantityConserved(m, log, id);
    }
  }

  // --- termination --------------------------------------------------------------------------

  /** The strategy issues at most `bound` commands and timers in the whole run. */
  ghost predicate Bounded(c: Config, es: seq<Event>, start: Time, insts: Oms.Instruments, bound: nat) {
    forall n :: Termination.Issued(c, After(c, es, Initial(start, insts), n).history) <= bound
  }

  ghost predicate Ends(c: Config, es: seq<Event>, start: Time, insts: Oms.Instruments, n: nat) {
    Frontier(c, es, After(c, es, Initial(start, insts), n)).None?
  }

  ghost function Room(c: Config, k: State, bound: nat): nat {
    if Termination.Done(c, k) <= bound then bound - Termination.Done(c, k) else 0
  }

  /** The measure of the loop: what the strategy may still ask for, the events and expiries left, and
      what is queued. */
  ghost predicate Smaller(c: Config, es: seq<Event>, bound: nat, k': State, k: State) {
    || Room(c, k', bound) < Room(c, k, bound)
    || (Room(c, k', bound) == Room(c, k, bound) && Termination.DataLeft(c, es, k') < Termination.DataLeft(c, es, k))
    || (Room(c, k', bound) == Room(c, k, bound) && Termination.DataLeft(c, es, k') == Termination.DataLeft(c, es, k)
        && Termination.Queued(k') < Termination.Queued(k))
  }

  lemma ClockStaysValid(c: Config, es: seq<Event>, start: Time, insts: Oms.Instruments, n: nat)
    ensures Clock.Valid(After(c, es, Initial(start, insts), n).clock)
  {
    hide After;
    Reachable(c, es, start, insts, n);
  }

  /** As long as the frontier is not empty, the next iteration makes the measure smaller. */
  lemma TurnShrinks(c: Config, es: seq<Event>, start: Time, insts: Oms.Instruments, bound: nat, n: nat)
    requires Bounded(c, es, start, insts, bound) && !Ends(c, es, start, insts, n)
    ensures var k, k' := After(c, es, Initial(start, insts), n), After(c, es, Initial(start, insts), n + 1);
      k' == Iterate(c, es, k, Frontier(c, es, k).value) && Smaller(c, es, bound, k', k)
  {
    hide Iterate, Termination.Issued, Clock.Valid;
    var k := After(c, es, Initial(start, insts), n);
    ClockStaysValid(c, es, start, insts, n);
    Termination.IterateProgresses(c, es, k);
    assert After(c, es, Initial(start, insts), n + 1) == Next(c, es, k);
  }

  lemma {:induction false} EndFrom(c: Config, es: seq<Event>, start: Time, insts: Oms.Instruments, bound: nat, i: nat)
    returns (n: nat)
    requires Bounded(c, es, start, insts, bound)
    ensures Ends(c, es, start, insts, n)
    decreases
      Room(c, After(c, es, Initial(start, insts), i), bound),
      Termination.DataLeft(c, es, After(c, es, Initial(start, insts), i)),
      Termination.Queued(After(c, es, Initial(start, insts), i))
  {
    hide After, Iterate, Bounded, Room, Frontier;
    if Frontier(c, es, After(c, es, Initial(start, insts), i)).None? {
      n := i;
    } else {
      TurnShrinks(c, es, start, insts, bound, i);
      n := EndFrom(c, es, start, insts, bound, i + 1);
    }
  }

  /** An empty frontier stays empty. */
  lemma {:induction false} StaysEnded(c: Config, es: seq<Event>, start: Time, insts: Oms.Instruments, n: nat, m: nat)
    requires Ends(c, es, start, insts, n) && n <= m
    ensures After(c, es, Initial(start, insts), m) == After(c, es, Initial(start, insts), n)
  {
    hide Iterate, Begin;
    if n < m {
      StaysEnded(c, es, start, insts, n, m - 1);
    }
  }

  lemma {:induction false} IssuedUpTo(c: Config, es: seq<Event>, start: Time, insts: Oms.Instruments, n: nat)
    returns (bound: nat)
    ensures forall i :: 0 <= i <= n ==> Termination.Issued(c, After(c, es, Initial(start, insts), i).history) <= bound
  {
    hide After;
    var here := Termination.Issued(c, After(c, es, Initial(start, insts), n).history);
    if n == 0 {
      bound := here;
    } else {
      var before := IssuedUpTo(c, es, start, insts, n - 1);
      bound := Max(before, here);
    }
  }

  /** For every strategy, event stream and set of instruments: the run ends if and only if the
      strategy issues finitely many commands and timers in it. */
  lemma RunEndsIff(c: Config, es: seq<Event>, start: Time, insts: Oms.Instruments)
    ensures (exists n :: Ends(c, es, start, insts, n)) <==> (exists bound :: Bounded(c, es, start, insts, bound))
  {
    hide After;
    if bound: nat :| Bounded(c, es, start, insts, bound) {
      var n := EndFrom(c, es, start, insts, bound, 0);
    }
    if n: nat :| Ends(c, es, start, insts, n) {
      var bound := IssuedUpTo(c, es, start, insts, n);
      forall i: nat
        ensures Termination.Issued(c, After(c, es, Initial(start, insts), i).history) <= bound
      {
        if n <= i {
          StaysEnded(c, es, start, insts, n, i);
        }
      }
      assert Bounded(c, es, start, insts, bound);
    }
  }

  /** A strategy that acts on market events only, and at most `m` times on each. */
  ghost predicate MarketDriven(c: Config, m: nat) {
    forall h: History | h != [] ::
      |c.strategy(h).commands| + Termination.Arms(c.strategy(h).timers) <= if h[|h| - 1].input.Market? then m else 0
  }

  lemma {:induction false} IssuedPerEvent(c: Config, m: nat, h: History)
    requires MarketDriven(c, m)
    ensures Termination.Issued(c, h) <= m * Shown(h)
  {
    if h != [] {
      var n := |h| - 1;
      IssuedPerEvent(c, m, h[..n]);
      assert m * (Shown(h[..n]) + 1) == m * Shown(h[..n]) + m;
    }
  }

  /** A condition to check before the run: strategies that act on market events only, however often
      per event, end on every stream. */
  lemma MarketDrivenEnds(c: Config, es: seq<Event>, start: Time, insts: Oms.Instruments, m: nat)
    requires MarketDriven(c, m)
    ensures Bounded(c, es, start, insts, m * |es|)
    ensures exists n :: Ends(c, es, start, insts, n)
  {
    hide After, Safe, Termination.Issued;
    forall n: nat
      ensures Termination.Issued(c, After(c, es, Initial(start, insts), n).history) <= m * |es|
    {
      var k := After(c, es, Initial(start, insts), n);
      Reachable(c, es, start, insts, n);
      IssuedPerEvent(c, m, k.history);
      TimesMonotone(m, k.cursor, |es|);
    }
    RunEndsIff(c, es, start, insts);
  }

  lemma TimesMonotone(m: nat, a: nat, b: nat)
    requires a <= b
    ensures m * a <= m * b
  {
  }
}
