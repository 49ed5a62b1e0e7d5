/** The order in which reports leave the venue, over whole runs.

    For every latency setting the delivered reports are sorted by (due, sequence number). The
    per-order protocol - acknowledgement, executions, at most one cancellation, nothing after -
    survives the delay queue exactly when a cancel is at least as slow as a submit. */
module Delivery {
  import opened Domain
  import opened Brokerage
  import opened Venue
  import opened OrderLife
  import opened LifeLaws

  /** Everything ever scheduled, in delivery order: what went out, then what is still queued. */
  function Agenda(s: State): seq<Scheduled> { s.delivered + s.queue }

  ghost predicate Sorted(xs: seq<Scheduled>) {
    forall i, j :: 0 <= i < j < |xs| ==> Earlier(xs[i], xs[j])
  }

  // --- enqueueing ---------------------------------------------------------------------------

  lemma {:induction false} EnqueueMembers(q: seq<Scheduled>, x: Scheduled)
    ensures forall y :: y in Enqueue(q, x) <==> y in q || y == x
  {
    if q != [] && !Earlier(x, q[0]) {
      EnqueueMembers(q[1..], x);
      assert q == [q[0]] + q[1..];
    }
  }

  lemma SortedCons(x: Scheduled, xs: seq<Scheduled>)
    requires Sorted(xs) && forall y :: y in xs ==> Earlier(x, y)
    ensures Sorted([x] + xs)
  {
  }

  lemma {:induction false} EnqueueSorted(q: seq<Scheduled>, x: Scheduled)
    requires Sorted(q) && forall y :: y in q ==> y.seqNo < x.seqNo
    ensures Sorted(Enqueue(q, x))
  {
    if q == [] {
    } else if Earlier(x, q[0]) {
      SortedCons(x, q);
    } else {
      assert forall i :: 0 <= i < |q[1..]| ==> q[1..][i] == q[i + 1];
      EnqueueSorted(q[1..], x);
      EnqueueMembers(q[1..], x);
      SortedCons(q[0], Enqueue(q[1..], x));
    }
  }

  lemma SortedJoin(a: seq<Scheduled>, b: seq<Scheduled>)
    requires Sorted(a) && Sorted(b) && forall x, y :: x in a && y in b ==> Earlier(x, y)
    ensures Sorted(a + b)
  {
  }

  lemma SortedSplit(a: seq<Scheduled>, b: seq<Scheduled>)
    requires Sorted(a + b)
    ensures Sorted(a) && Sorted(b) && forall x, y :: x in a && y in b ==> Earlier(x, y)
  {
    assert forall i :: 0 <= i < |a| ==> (a + b)[i] == a[i];
    assert forall j :: 0 <= j < |b| ==> (a + b)[|a| + j] == b[j];
  }

  lemma {:induction false} ItemsAppend(a: seq<Scheduled>, b: seq<Scheduled>, id: OrderId)
    ensures Items(a + b, id) == Items(a, id) + Items(b, id)
    decreases |b|
  {
    if b == [] {
      assert a + b == a;
    } else {
      var n := |b| - 1;
      assert (a + b)[..|a + b| - 1] == a + b[..n];
      ItemsAppend(a, b[..n], id);
    }
  }

  lemma {:induction false} ItemsEmpty(xs: seq<Scheduled>, id: OrderId)
    ensures Items(xs, id) == [] <==> forall x :: x in xs ==> x.report.Order() != id
  {
    if xs != [] {
      ItemsEmpty(xs[..|xs| - 1], id);
      assert forall x :: x in xs <==> x in xs[..|xs| - 1] || x == xs[|xs| - 1];
    }
  }

  /** A report no earlier than the queued reports of its own order goes behind them. */
  lemma {:induction false} EnqueueItems(q: seq<Scheduled>, x: Scheduled, id: OrderId)
    requires Sorted(q)
    requires forall y :: y in q && y.report.Order() == x.report.Order() ==> !Earlier(x, y)
    ensures Items(Enqueue(q, x), id) == Items(q + [x], id)
  {
    hide Items;
    if q == [] {
      assert q + [x] == [x];
    } else if Earlier(x, q[0]) {
      assert forall i :: 0 < i < |q| ==> Earlier(q[0], q[i]);
      ItemsAppend([x], q, id);
      ItemsAppend(q, [x], id);
      ItemsEmpty(q, x.report.Order());
      ItemsEmpty([x], id);
      assert x in [x];
    } else {
      EnqueueItems(q[1..], x, id);
      ItemsAppend([q[0]], Enqueue(q[1..], x), id);
      ItemsAppend([q[0]], q[1..] + [x], id);
      assert q + [x] == [q[0]] + (q[1..] + [x]);
    }
  }

  // --- the invariant ------------------------------------------------------------------------

  /** What holds of the agenda at time `now`. */
  ghost predicate Punctual(m: BrokerageModel, s: State, now: Time) {
    && Sorted(Agenda(s))
    && (forall y :: y in s.delivered ==> y.due <= now)
    && (forall y :: y in Agenda(s) ==> y.seqNo <= s.seqNo && y in s.issued)
    && (forall y :: y in Agenda(s) && !y.report.Canceled? ==> y.due <= Later(now, m.submitLatency))
    && (m.submitLatency <= m.cancelLatency ==> forall id :: Items(Agenda(s), id) == Items(s.issued, id))
  }

  /** No order of the book has a cancellation on the agenda. */
  ghost predicate Quiet(s: State, rs: seq<Resting>) {
    forall r, y :: r in rs && y in Agenda(s) && y.report.Canceled? ==> y.report.id != r.order.id
  }

  /** A pushed report enters the agenda in its place. */
  lemma PushSorted(s: State, due: Time, report: Report)
    requires Sorted(Agenda(s)) && (forall y :: y in Agenda(s) ==> y.seqNo <= s.seqNo)
    requires forall y :: y in s.delivered ==> y.due <= due
    ensures Sorted(Agenda(Push(s, due, report)))
    ensures forall y :: y in Agenda(Push(s, due, report)) <==>
      y in Agenda(s) || y == Scheduled(due, s.seqNo + 1, report)
  {
    var x := Scheduled(due, s.seqNo + 1, report);
    var s' := Push(s, due, report);
    SortedSplit(s.delivered, s.queue);
    EnqueueMembers(s.queue, x);
    EnqueueSorted(s.queue, x);
    SortedJoin(s.delivered, s'.queue);
  }

  /** And behind the queued reports of its own order. */
  lemma PushItems(s: State, due: Time, report: Report, id: OrderId)
    requires Sorted(Agenda(s)) && Items(Agenda(s), id) == Items(s.issued, id)
    requires forall y :: y in Agenda(s) && y.report.Order() == report.Order() ==> y.due <= due && y.seqNo <= s.seqNo
    ensures Items(Agenda(Push(s, due, report)), id) == Items(Push(s, due, report).issued, id)
  {
    hide Items, Sorted;
    var x := Scheduled(due, s.seqNo + 1, report);
    var s' := Push(s, due, report);
    SortedSplit(s.delivered, s.queue);
    EnqueueItems(s.queue, x, id);
    ItemsAppend(s.delivered, s'.queue, id);
    ItemsAppend(s.delivered, s.queue, id);
    ItemsSnoc(s.queue, x, id);
    ItemsSnoc(s.issued, x, id);
  }

  lemma PushPunctual(m: BrokerageModel, s: State, now: Time, due: Time, report: Report)
    requires Punctual(m, s, now) && now <= due
    requires report.Canceled? || due <= Later(now, m.submitLatency)
    requires m.submitLatency <= m.cancelLatency ==>
      forall y :: y in Agenda(s) && y.report.Order() == report.Order() ==> y.due <= due
    ensures Punctual(m, Push(s, due, report), now)
    ensures forall y :: y in Agenda(Push(s, due, report)) <==>
      y in Agenda(s) || y == Scheduled(due, s.seqNo + 1, report)
  {
    hide Items, Sorted, Enqueue;
    PushSorted(s, due, report);
    if m.submitLatency <= m.cancelLatency {
      forall id
        ensures Items(Agenda(Push(s, due, report)), id) == Items(Push(s, due, report).issued, id)
      {
        PushItems(s, due, report, id);
      }
    }
  }

  lemma {:induction false} DrainPunctual(m: BrokerageModel, s: State, now: Time, frontier: Time)
    requires Punctual(m, s, now) && frontier <= now
    ensures Punctual(m, DrainDue(s, frontier), now)
    ensures Agenda(DrainDue(s, frontier)) == Agenda(s)
    decreases |s.queue|
  {
    if s.queue != [] && s.queue[0].due <= frontier {
      assert Agenda(Pop(s)) == Agenda(s);
      DrainPunctual(m, Pop(s), now, frontier);
    }
  }

  lemma MatchOnePunctual(m: BrokerageModel, s: State, now: Time, iid: InstrumentId, inst: Instrument, t: Tick,
      r: Resting)
    requires Punctual(m, s, now) && Quiet(s, [r])
    ensures var s' := MatchOne(m, s, now, iid, inst, t, r);
      && Punctual(m, s', now)
      && (forall y :: y in Agenda(s') && y.report.Canceled? ==> y in Agenda(s))
  {
    hide Decide, Exhausted, Stepped;
    assert r in [r];
    var d := Decide(m, inst.lot, r, t);
    if r.order.inst == iid && d.Some? && d.value.qty > 0 {
      var at := Later(now, m.submitLatency);
      var s0 := s.(tradeSeq := s.tradeSeq + 1);
      assert Agenda(s0) == Agenda(s);
      PushPunctual(m, s0, now, at, Report.Filled(FillOf(s, inst, r, d.value, at)));
    }
  }

  lemma {:induction false} MatchAllPunctual(m: BrokerageModel, s: State, now: Time, iid: InstrumentId,
      inst: Instrument, t: Tick, rs: seq<Resting>)
    requires Punctual(m, s, now) && Quiet(s, rs)
    ensures var s' := MatchAll(m, s, now, iid, inst, t, rs);
      && Punctual(m, s', now)
      && (forall y :: y in Agenda(s') && y.report.Canceled? ==> y in Agenda(s))
    decreases |rs|
  {
    hide MatchOne, Punctual;
    if rs != [] {
      assert rs[0] in rs;
      MatchOnePunctual(m, s, now, iid, inst, t, rs[0]);
      MatchAllPunctual(m, MatchOne(m, s, now, iid, inst, t, rs[0]), now, iid, inst, t, rs[1..]);
    }
  }

  /** A new book entry without a cancellation on the agenda keeps the book quiet. */
  lemma QuietGrows(s: State, s': State, x: Scheduled)
    requires Quiet(s, s.resting)
    requires forall y :: y in Agenda(s') <==> y in Agenda(s) || y == x
    requires forall r :: r in s'.resting ==>
      (r in s.resting || forall y :: y in Agenda(s) ==> y.report.Order() != r.order.id)
      && (x.report.Canceled? ==> x.report.id != r.order.id)
    ensures Quiet(s', s'.resting)
  {
  }

  lemma SubmitPunctual(m: BrokerageModel, s: State, now: Time, view: View, o: Order)
    requires Punctual(m, s, now) && Quiet(s, s.resting) && o.inst in view.instruments && Items(s.issued, o.id) == []
    ensures var s' := OnSubmit(m, s, now, view, o); Punctual(m, s', now) && Quiet(s', s'.resting)
  {
    ItemsEmpty(s.issued, o.id);
    var s0 := s.(venueSeq := s.venueSeq + 1);
    assert Agenda(s0) == Agenda(s);
    var at, report := Later(now, m.submitLatency), Report.Accepted(o.id, s.venueSeq + 1);
    PushPunctual(m, s0, now, at, report);
    QuietGrows(s, OnSubmit(m, s, now, view, o), Scheduled(at, s.seqNo + 1, report));
  }

  lemma CancelPunctual(m: BrokerageModel, s: State, now: Time, c: OrderId)
    requires Punctual(m, s, now) && Quiet(s, s.resting) && UniqueIds(s.resting)
    ensures var s' := OnCancel(m, s, now, c); Punctual(m, s', now) && Quiet(s', s'.resting)
  {
    hide Items, Sorted, Find, Enqueue;
    var i := IndexOf(s.resting, c);
    if i < |s.resting| {
      CancelProjects(s.resting, c, c);
      var s0 := s.(resting := s.resting[..i] + s.resting[i + 1..]);
      assert Agenda(s0) == Agenda(s);
      assert s.resting[i] in s.resting;
      PushPunctual(m, s0, now, Later(now, m.cancelLatency), Report.Canceled(c));
    }
  }

  lemma MatchPunctual(m: BrokerageModel, s: State, now: Time, view: View, ev: Event)
    requires Punctual(m, s, now) && Quiet(s, s.resting) && UniqueIds(s.resting)
    ensures var s' := OnMarket(m, s, now, view, ev); Punctual(m, s', now) && Quiet(s', s'.resting)
  {
    hide MatchAll;
    if ev.inst in view.instruments && TickOf(ev).Some? {
      var s0 := s.(resting := []);
      var inst, t := view.instruments[ev.inst], TickOf(ev).value;
      assert Agenda(s0) == Agenda(s) && s0.resting + s.resting == s.resting;
      MatchAllPunctual(m, s0, now, ev.inst, inst, t, s.resting);
      MatchAllProjects(m, s0, now, ev.inst, inst, t, s.resting, 0);
    }
  }

  lemma ApplyPunctual(m: BrokerageModel, s: State, op: Op)
    requires Punctual(m, s, op.now) && Quiet(s, s.resting) && UniqueIds(s.resting)
    requires op.Drain? ==> op.frontier <= op.now
    requires op.Submit? && op.order.inst in op.view.instruments ==> Items(s.issued, op.order.id) == []
    ensures var s' := Apply(m, s, op); Punctual(m, s', op.now) && Quiet(s', s'.resting)
  {
    match op
    case Submit(now, view, o) =>
      if o.inst in view.instruments {
        SubmitPunctual(m, s, now, view, o);
      }
    case Cancel(now, c) => CancelPunctual(m, s, now, c);
    case Match(now, view, ev) => MatchPunctual(m, s, now, view, ev);
    case Drain(now, frontier) =>
      DrainPunctual(m, s, now, frontier);
      DrainKeeps(s, frontier);
  }

  lemma PunctualLater(m: BrokerageModel, s: State, now: Time, now': Time)
    requires Punctual(m, s, now) && now <= now'
    ensures Punctual(m, s, now')
  {
  }

  lemma TimedPrefix(ops: seq<Op>)
    requires Timed(ops) && ops != []
    ensures Timed(ops[..|ops| - 1])
  {
    assert forall i :: 0 <= i < |ops| - 1 ==> ops[..|ops| - 1][i] == ops[i];
  }

  /** Every reachable venue state is punctual at the time of its last operation. */
  lemma {:induction false} RunPunctual(m: BrokerageModel, ops: seq<Op>)
    requires Timed(ops) && Fresh(ops)
    ensures Punctual(m, Run(m, ops), if ops == [] then 0 else ops[|ops| - 1].now)
    ensures Quiet(Run(m, ops), Run(m, ops).resting)
    decreases |ops|
  {
    if ops != [] {
      var n := |ops| - 1;
      var op, s := ops[n], Run(m, ops[..n]);
      FreshPrefix(ops);
      TimedPrefix(ops);
      RunPunctual(m, ops[..n]);
      PunctualLater(m, s, if n == 0 then 0 else ops[n - 1].now, op.now);
      VenueIsComposition(m, ops[..n], 0);
      if op.Submit? && op.order.inst in op.view.instruments {
        VenueIsComposition(m, ops[..n], op.order.id);
        Unborn(m, ops[..n], op.order.id);
      }
      ApplyPunctual(m, s, op);
    }
  }

  // --- nothing is lost ----------------------------------------------------------------------

  /** The two queues together hold exactly what was issued. */
  ghost predicate Even(delivered: seq<Scheduled>, queue: seq<Scheduled>, issued: seq<Scheduled>) {
    multiset(delivered + queue) == multiset(issued)
  }

  ghost predicate Balanced(s: State) { Even(s.delivered, s.queue, s.issued) }

  lemma {:induction false} EnqueueMultiset(q: seq<Scheduled>, x: Scheduled)
    ensures multiset(Enqueue(q, x)) == multiset(q) + multiset{x}
  {
    if q != [] && !Earlier(x, q[0]) {
      EnqueueMultiset(q[1..], x);
      assert q == [q[0]] + q[1..];
    }
  }

  lemma JoinMultiset(a: seq<Scheduled>, q: seq<Scheduled>, issued: seq<Scheduled>, x: Scheduled)
    requires Even(a, q, issued)
    ensures Even(a, Enqueue(q, x), issued + [x])
  {
    EnqueueMultiset(q, x);
  }

  lemma PushBalanced(s: State, due: Time, report: Report)
    requires Balanced(s)
    ensures Balanced(Push(s, due, report))
  {
    hide Even;
    JoinMultiset(s.delivered, s.queue, s.issued, Scheduled(due, s.seqNo + 1, report));
  }

  lemma ApplyBalanced(m: BrokerageModel, s: State, op: Op)
    requires Balanced(s)
    ensures Balanced(Apply(m, s, op))
  {
    hide Even, MatchAll;
    match op
    case Submit(now, view, o) =>
      PushBalanced(s.(venueSeq := s.venueSeq + 1), Later(now, m.submitLatency), Report.Accepted(o.id, s.venueSeq + 1));
    case Cancel(now, c) =>
      var i := IndexOf(s.resting, c);
      if i < |s.resting| {
        PushBalanced(s.(resting := s.resting[..i] + s.resting[i + 1..]), Later(now, m.cancelLatency),
            Report.Canceled(c));
      }
    case Match(now, view, ev) =>
      if ev.inst in view.instruments && TickOf(ev).Some? {
        MatchAllBalanced(m, s.(resting := []), now, ev.inst, view.instruments[ev.inst], TickOf(ev).value, s.resting);
      }
    case Drain(_, frontier) => DrainBalanced(s, frontier);
  }

  lemma {:induction false} MatchAllBalanced(m: BrokerageModel, s: State, now: Time, iid: InstrumentId,
      inst: Instrument, t: Tick, rs: seq<Resting>)
    requires Balanced(s)
    ensures Balanced(MatchAll(m, s, now, iid, inst, t, rs))
    decreases |rs|
  {
    hide Even, Decide, Exhausted, Stepped;
    if rs != [] {
      var r, s1 := rs[0], MatchOne(m, s, now, iid, inst, t, rs[0]);
      assert Balanced(s1) by {
        var d := Decide(m, inst.lot, r, t);
        if r.order.inst == iid && d.Some? && d.value.qty > 0 {
          var at := Later(now, m.submitLatency);
          PushBalanced(s.(tradeSeq := s.tradeSeq + 1), at, Report.Filled(FillOf(s, inst, r, d.value, at)));
        }
      }
      MatchAllBalanced(m, s1, now, iid, inst, t, rs[1..]);
    }
  }

  lemma {:induction false} DrainBalanced(s: State, frontier: Time)
    requires Balanced(s)
    ensures Balanced(DrainDue(s, frontier))
    decreases |s.queue|
  {
    if s.queue != [] && s.queue[0].due <= frontier {
      assert Pop(s).delivered + Pop(s).queue == s.delivered + s.queue;
      DrainBalanced(Pop(s), frontier);
    }
  }

  lemma {:induction false} RunBalanced(m: BrokerageModel, ops: seq<Op>)
    ensures Balanced(Run(m, ops))
  {
    if ops != [] {
      RunBalanced(m, ops[..|ops| - 1]);
      ApplyBalanced(m, Run(m, ops[..|ops| - 1]), ops[|ops| - 1]);
    }
  }

  // --- the theorems -------------------------------------------------------------------------

  /** Across a whole run, whatever the latencies, reports are delivered in (due, sequence) order,
      none is lost, invented or still queued ahead of a delivered one, and none is early. */
  lemma DeliveryOrder(m: BrokerageModel, ops: seq<Op>)
    requires Timed(ops) && Fresh(ops)
    ensures Sorted(Run(m, ops).delivered)
    ensures forall x, y :: x in Run(m, ops).delivered && y in Run(m, ops).queue ==> Earlier(x, y)
    ensures multiset(Run(m, ops).delivered) + multiset(Run(m, ops).queue) == multiset(Run(m, ops).issued)
    ensures forall x :: x in Run(m, ops).delivered ==> ops != [] && x.due <= ops[|ops| - 1].now
  {
    RunPunctual(m, ops);
    RunBalanced(m, ops);
    var s := Run(m, ops);
    SortedSplit(s.delivered, s.queue);
    assert multiset(s.delivered + s.queue) == multiset(s.delivered) + multiset(s.queue);
  }

  /** The reports handed out are the front of the queue, all due; the rest stays, none of it due. */
  ghost predicate DrainsExactly(s: State, s': State, frontier: Time) {
    var n := |s'.delivered| - |s.delivered|;
    && 0 <= n <= |s.queue| && s'.delivered == s.delivered + s.queue[..n] && s'.queue == s.queue[n..]
    && (forall i :: 0 <= i < n ==> s.queue[i].due <= frontier)
    && (forall i :: n <= i < |s.queue| ==> s.queue[i].due > frontier)
  }

  /** Nothing is due, as the first report is not. */
  lemma DrainsNothing(s: State, frontier: Time)
    requires Sorted(s.queue) && (s.queue == [] || s.queue[0].due > frontier)
    ensures DrainsExactly(s, s, frontier)
  {
    assert s.delivered + s.queue[..0] == s.delivered && s.queue[0..] == s.queue;
    forall i | 0 <= i < |s.queue|
      ensures s.queue[i].due > frontier
    {
      assert i > 0 ==> Earlier(s.queue[0], s.queue[i]);
    }
  }

  lemma DrainsOneMore(s: State, s': State, frontier: Time)
    requires s.queue != [] && s.queue[0].due <= frontier && DrainsExactly(Pop(s), s', frontier)
    ensures DrainsExactly(s, s', frontier)
  {
    var q, rest := s.queue, s.queue[1..];
    var n := |s'.delivered| - |s.delivered|;
    assert q[..n] == [q[0]] + rest[..n - 1] && q[n..] == rest[n - 1..];
    forall i | 0 < i < |q|
      ensures q[i] == rest[i - 1]
    {
    }
  }

  lemma {:induction false} DrainTakesDue(s: State, frontier: Time)
    requires Sorted(s.queue)
    ensures DrainsExactly(s, DrainDue(s, frontier), frontier)
    decreases |s.queue|
  {
    hide DrainsExactly;
    if s.queue == [] || s.queue[0].due > frontier {
      DrainsNothing(s, frontier);
    } else {
      assert Sorted([s.queue[0]] + s.queue[1..]) by { assert s.queue == [s.queue[0]] + s.queue[1..]; }
      SortedSplit([s.queue[0]], s.queue[1..]);
      hide Sorted;
      DrainTakesDue(Pop(s), frontier);
      DrainsOneMore(s, DrainDue(s, frontier), frontier);
    }
  }

  lemma PunctualQueue(m: BrokerageModel, s: State, now: Time)
    requires Punctual(m, s, now)
    ensures Sorted(s.queue)
  {
    SortedSplit(s.delivered, s.queue);
  }

  /** In every run, a drain hands out exactly the queued reports that are due, in order, and leaves the rest. */
  lemma DrainIsExact(m: BrokerageModel, ops: seq<Op>, frontier: Time)
    requires Timed(ops) && Fresh(ops)
    ensures DrainsExactly(Run(m, ops), DrainDue(Run(m, ops), frontier), frontier)
  {
    hide Run, DrainDue, DrainsExactly, Sorted, Punctual;
    RunPunctual(m, ops);
    PunctualQueue(m, Run(m, ops), if ops == [] then 0 else ops[|ops| - 1].now);
    DrainTakesDue(Run(m, ops), frontier);
  }

  /** The delivered reports of an order are a prefix of those scheduled for it. */
  lemma DeliveredIsPrefix(m: BrokerageModel, ops: seq<Op>, id: OrderId)
    requires Timed(ops) && Fresh(ops) && m.submitLatency <= m.cancelLatency
    ensures Items(Run(m, ops).delivered, id) <= LifeOf(m, ops, id).items
  {
    var s := Run(m, ops);
    RunPunctual(m, ops);
    VenueIsComposition(m, ops, id);
    ItemsAppend(s.delivered, s.queue, id);
  }

  ghost predicate KeepsProtocol(m: BrokerageModel, ops: seq<Op>, id: OrderId) {
    Timed(ops) && Fresh(ops) ==>
      Items(Run(m, ops).delivered, id) == [] || Protocol(Items(Run(m, ops).delivered, id))
  }

  lemma DeliveredProtocol(m: BrokerageModel, ops: seq<Op>, id: OrderId)
    requires m.submitLatency <= m.cancelLatency
    ensures KeepsProtocol(m, ops, id)
  {
    if Timed(ops) && Fresh(ops) {
      LifeLawful(m, ops, id);
      DeliveredIsPrefix(m, ops, id);
    }
  }

  lemma RunThree(m: BrokerageModel, a: Op, b: Op, c: Op)
    ensures Run(m, [a, b, c]) == Apply(m, Apply(m, Apply(m, EMPTY, a), b), c)
  {
    var ops := [a, b, c];
    assert ops[..2] == [a, b] && [a, b][..1] == [a] && [a][..0] == [];
    assert Run(m, [a]) == Apply(m, EMPTY, a) && Run(m, [a, b]) == Apply(m, Run(m, [a]), b);
  }

  lemma DrainTwo(s: State, x: Scheduled, y: Scheduled)
    requires s.queue == [x, y]
    ensures DrainDue(s, U64_MAX).delivered == s.delivered + [x, y]
  {
    var s1 := Pop(s);
    assert s1.queue == [y];
    assert Pop(s1).queue == [];
    assert DrainDue(s1, U64_MAX) == DrainDue(Pop(s1), U64_MAX) == Pop(s1);
  }

  lemma SubmitThenCancel(m: BrokerageModel, view: View, o: Order)
    requires m.cancelLatency < m.submitLatency && o.inst in view.instruments
    ensures OnCancel(m, OnSubmit(m, EMPTY, 0, view, o), 0, o.id).queue ==
      [Scheduled(m.cancelLatency, 2, Report.Canceled(o.id)), Scheduled(m.submitLatency, 1, Report.Accepted(o.id, 1))]
    ensures OnCancel(m, OnSubmit(m, EMPTY, 0, view, o), 0, o.id).delivered == []
  {
    var s := OnSubmit(m, EMPTY, 0, view, o);
    assert s.queue == [Scheduled(m.submitLatency, 1, Report.Accepted(o.id, 1))];
    assert s.resting == [Rest(view, o, 1)];
  }

  /** A cancel faster than a submit: the cancellation overtakes the acknowledgement. */
  lemma OvertakingCancel(m: BrokerageModel) returns (ops: seq<Op>)
    requires m.cancelLatency < m.submitLatency
    ensures !KeepsProtocol(m, ops, 0)
  {
    hide OnSubmit, OnCancel, DrainDue, Run;
    var view := View(map[0 := Instrument(1, 0.0, 0.0, 1, false, None, false)], map[], map[]);
    var o := Order(0, 0, Buy, Market, 1, None, None);
    ops := [Submit(0, view, o), Cancel(0, 0), Drain(U64_MAX, U64_MAX)];
    RunThree(m, ops[0], ops[1], ops[2]);
    SubmitThenCancel(m, view, o);
    var ack := Scheduled(m.submitLatency, 1, Report.Accepted(0, 1));
    var cxl := Scheduled(m.cancelLatency, 2, Report.Canceled(0));
    DrainTwo(OnCancel(m, OnSubmit(m, EMPTY, 0, view, o), 0, 0), cxl, ack);
    var out := Run(m, ops).delivered;
    assert out == [cxl] + [ack];
    ItemsAppend([cxl], [ack], 0);
    ItemsSnoc([], cxl, 0);
    assert [] + [cxl] == [cxl];
    assert Items(out, 0)[0].what.Cxl?;
  }

  /** The per-order report protocol holds in every run exactly when a cancel is at least as slow
      as a submit. With one constant latency, as in the default model, it always holds. */
  lemma ProtocolIffCancelNotFaster(m: BrokerageModel)
    ensures (forall ops, id :: KeepsProtocol(m, ops, id)) <==> m.submitLatency <= m.cancelLatency
  {
    if m.submitLatency <= m.cancelLatency {
      forall ops, id
        ensures KeepsProtocol(m, ops, id)
      {
        DeliveredProtocol(m, ops, id);
      }
    } else {
      var ops := OvertakingCancel(m);
    }
  }
}
