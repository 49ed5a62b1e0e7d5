/** No look-ahead: kernel states depend on consumed data only, and every fill is priced from a
    market event after the last one its strategy had been shown. */
module Causality {
  import opened Domain
  import opened Brokerage
  import Venue
  import OrderLife
  import LifeLaws
  import Clock
  import Oms
  import opened Kernel
  import opened KernelSteps
  import opened KernelLaws

  lemma NextSameOnPrefix(c: Config, es: seq<Event>, es': seq<Event>, k: State)
    requires k.cursor < |es| && k.cursor < |es'| && es[k.cursor] == es'[k.cursor]
    ensures Next(c, es, k) == Next(c, es', k)
  {
    hide ConsumeEvent, SettleExpiries, CheckLiquidation, DrainReports, PopTimers;
    assert NextMarket(es, k) == NextMarket(es', k);
    assert Frontier(c, es, k) == Frontier(c, es', k);
    if Frontier(c, es, k).Some? {
      var f := Frontier(c, es, k).value;
      var k2 := PopTimers(c, DrainReports(c, k.(clock := Clock.AdvanceTo(k.clock, f)), f), f);
      assert k2.cursor == k.cursor;
    }
  }

  /** Two event streams that agree on their first `p` events drive the kernel through identical
      states until event `p` is reached, that state included: nothing depends on later data. */
  lemma {:induction false} PrefixDetermines(c: Config, es: seq<Event>, es': seq<Event>, k: State, p: nat, n: nat)
    requires p <= |es| && p <= |es'| && es[..p] == es'[..p]
    requires n > 0 ==> After(c, es, k, n - 1).cursor < p
    ensures After(c, es, k, n) == After(c, es', k, n)
  {
    hide Next, Begin;
    if n > 0 {
      var before := After(c, es, k, n - 1);
      if n > 1 {
        NextAdvances(c, es, After(c, es, k, n - 2));
      }
      PrefixDetermines(c, es, es', k, p, n - 1);
      assert es[before.cursor] == es[..p][before.cursor] == es'[..p][before.cursor];
      NextSameOnPrefix(c, es, es', before);
    }
  }

  // --- fills come from later events -----------------------------------------------------------

  /** Each order reached the venue when exactly the events shown to the strategy had been matched. */
  ghost predicate Dated(k: State) {
    forall p, id :: 0 <= p < |k.log| && Venue.Submits(k.log[p], id) ==>
      id in k.born && k.born[id] == |Matches(k.log[..p])|
  }

  lemma DatedGrows(k: State, k': State, op: Venue.Op)
    requires Dated(k) && k'.log == k.log + [op] && (op.Submit? || k'.born == k.born)
    requires op.Submit? ==> k'.born == k.born[op.order.id := |Matches(k.log)|]
    requires forall i, id :: 0 <= i < |k.log| && Venue.Submits(k.log[i], id) ==> !(op.Submit? && op.order.id == id)
    ensures Dated(k')
  {
    forall p, id | 0 <= p < |k'.log| && Venue.Submits(k'.log[p], id)
      ensures id in k'.born && k'.born[id] == |Matches(k'.log[..p])|
    {
      if p < |k.log| {
        assert k'.log[p] == k.log[p] && k'.log[..p] == k.log[..p];
      } else {
        assert k'.log[..p] == k.log;
      }
    }
  }

  lemma RoutedIsNew(c: Config, k: State, order: Order)
    requires Judge(c, k, order).Routed?
    ensures order.id !in k.oms.orders
  {
  }

  lemma StepDated(c: Config, es: seq<Event>, k: State, s: Step, k': State)
    requires Sound(c, es, k) && Dated(k) && Takes(c, es, k, s, k')
    ensures Dated(k')
  {
    hide Venue.Apply, Oms.ApplyReport, Oms.BookFill, Oms.Judge, Oms.Fire, Venue.Timed, Venue.Run, Clock.Valid;
    match s
    case Routed(order) =>
      RoutedIsNew(c, k, order);
      DatedGrows(k, k', Venue.Submit(k.clock.now, k.view, order));
    case CancelAsked(id) => DatedGrows(k, k', Venue.Cancel(k.clock.now, id));
    case Drained(frontier) => DatedGrows(k, k', Venue.Drain(k.clock.now, frontier));
    case Matched => DatedGrows(k, k', k'.log[|k.log|]);
    case _ => assert k'.log == k.log && k'.born == k.born;
  }

  lemma ReachableDated(c: Config, es: seq<Event>, start: Time, insts: Oms.Instruments, n: nat)
    ensures var k := After(c, es, Initial(start, insts), n); Sound(c, es, k) && Dated(k)
  {
    hide After;
    var inv := k => Sound(c, es, k) && Dated(k);
    forall k, s, k' | inv(k) && Takes(c, es, k, s, k')
      ensures inv(k')
    {
      StepSound(c, es, k, s, k');
      StepDated(c, es, k, s, k');
    }
    assert Sound(c, es, Initial(start, insts)) && Dated(Initial(start, insts));
    RunKeeps(c, es, inv, Initial(start, insts), n);
  }

  lemma {:induction false} MatchesPrefix(log: seq<Venue.Op>, p: nat)
    requires p <= |log|
    ensures Matches(log[..p]) <= Matches(log)
    decreases |log|
  {
    if p < |log| {
      var n := |log| - 1;
      assert log[..n][..p] == log[..p];
      MatchesPrefix(log[..n], p);
    } else {
      assert log[..p] == log;
    }
  }

  /** In every run, an execution is scheduled by the matching of market event number
      `|Matches(log[..q])|`, and that number is at least the count of events the strategy had been
      shown when the order reached the venue: the pricing event comes strictly after the last
      event the decision could have used. */
  lemma FillsComeFromLaterEvents(c: Config, es: seq<Event>, start: Time, insts: Oms.Instruments, n: nat, id: OrderId,
      p: nat, q: nat, x: OrderLife.Item)
    requires var k := After(c, es, Initial(start, insts), n);
      p < |k.log| && q < |k.log| && Venue.Submits(k.log[p], id) && LifeLaws.Executes(c.model, k.log, q, id, x)
    ensures var k := After(c, es, Initial(start, insts), n);
      && p < q && k.log[q].Match? && id in k.born
      && k.born[id] <= |Matches(k.log[..q])| < |es|
      && k.log[q].ev == es[|Matches(k.log[..q])|]
  {
    hide After;
    ReachableDated(c, es, start, insts, n);
    LaterEvents(c, es, After(c, es, Initial(start, insts), n), id, p, q, x);
  }

  lemma BornBeforeExecution(m: BrokerageModel, log: seq<Venue.Op>, id: OrderId, p: nat, q: nat, x: OrderLife.Item)
    requires Venue.Fresh(log) && p < |log| && q < |log| && Venue.Submits(log[p], id)
        && LifeLaws.Executes(m, log, q, id, x)
    ensures p < q && log[q].Match?
  {
    hide Venue.Run, OrderLife.Find, OrderLife.Items, Venue.Decide;
    LifeLaws.ExecutionIsDecision(m, log, q, id, x);
    var i :| 0 <= i < q && Venue.Submits(log[..q][i], id);
    assert Venue.Submits(log[i], id);
    assert i == p;
  }

  /** A matching operation handles the event whose number is the count of matches before it. */
  lemma MatchIndex(log: seq<Venue.Op>, q: nat)
    requires q < |log| && log[q].Match?
    ensures |Matches(log[..q])| < |Matches(log)| && Matches(log)[|Matches(log[..q])|] == log[q].ev
  {
    MatchesPrefix(log, q + 1);
    assert log[..q + 1][..q] == log[..q] && log[..q + 1][q] == log[q];
  }

  lemma LaterEvents(c: Config, es: seq<Event>, k: State, id: OrderId, p: nat, q: nat, x: OrderLife.Item)
    requires Sound(c, es, k) && Dated(k)
    requires p < |k.log| && q < |k.log| && Venue.Submits(k.log[p], id) && LifeLaws.Executes(c.model, k.log, q, id, x)
    ensures p < q && k.log[q].Match? && id in k.born
    ensures k.born[id] <= |Matches(k.log[..q])| < |es| && k.log[q].ev == es[|Matches(k.log[..q])|]
  {
    BornBeforeExecution(c.model, k.log, id, p, q, x);
    MatchIndex(k.log, q);
    MatchesPrefix(k.log[..q], p);
    assert k.log[..q][..p] == k.log[..p];
  }
}
