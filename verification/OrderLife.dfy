/** The life of one order, as a small automaton, and the theorem that the venue is nothing but
    the parallel composition of those automata: what happens to an order depends on its own
    submission, its own cancellation and the market, never on the other orders in the book. */
module OrderLife {
  import opened Domain
  import opened Brokerage
  import opened Venue

  datatype What = Ack | Exec(px: Price, qty: nat, liquidity: Liquidity) | Cxl

  /** A report of one order without the venue-wide counters. */
  datatype Item = Item(due: Time, what: What)

  /** The order's book entry, if it rests, and the reports scheduled for it, in scheduling order. */
  datatype Life = Life(entry: Option<Resting>, items: seq<Item>)

  const UNBORN := Life(None, [])

  // --- the automaton ------------------------------------------------------------------------

  /** One market tick in the life of an order resting on `r.order.inst`. */
  function Live(m: BrokerageModel, now: Time, lot: nat, t: Tick, r: Resting, items: seq<Item>): Life {
    var d := Decide(m, lot, r, t);
    var items' := if d.Some? && d.value.qty > 0
                  then items + [Item(Later(now, m.submitLatency), Exec(d.value.px, d.value.qty, d.value.liquidity))]
                  else items;
    Life(if Exhausted(m, lot, r, t) then None else Some(Stepped(m, lot, r, t)), items')
  }

  function Step(m: BrokerageModel, l: Life, id: OrderId, op: Op): Life {
    match op
    case Submit(now, view, o) =>
      if Submits(op, id)
      then Life(Some(Rest(view, o, 0)), l.items + [Item(Later(now, m.submitLatency), Ack)])
      else l
    case Cancel(now, c) =>
      if c == id && l.entry.Some? then Life(None, l.items + [Item(Later(now, m.cancelLatency), Cxl)]) else l
    case Match(now, view, ev) =>
      if l.entry.Some? && l.entry.value.order.inst == ev.inst && ev.inst in view.instruments && TickOf(ev).Some?
      then Live(m, now, view.instruments[ev.inst].lot, TickOf(ev).value, l.entry.value, l.items)
      else l
    case Drain(_, _) => l
  }

  function LifeOf(m: BrokerageModel, ops: seq<Op>, id: OrderId): Life {
    if ops == [] then UNBORN else Step(m, LifeOf(m, ops[..|ops| - 1], id), id, ops[|ops| - 1])
  }

  // --- projecting the venue -----------------------------------------------------------------

  function Strip(r: Resting): Resting { r.(venueOrder := 0) }

  function Find(rs: seq<Resting>, id: OrderId): (f: Option<Resting>)
    ensures f.None? <==> forall r :: r in rs ==> r.order.id != id
    ensures f.Some? ==> f.value.order.id == id
  {
    if rs == [] then None
    else if rs[|rs| - 1].order.id == id then Some(Strip(rs[|rs| - 1]))
    else Find(rs[..|rs| - 1], id)
  }

  function ItemOf(x: Scheduled): Item {
    Item(x.due, match x.report
      case Filled(f) => Exec(f.px, f.qty, f.liquidity)
      case Canceled(_) => Cxl
      case _ => Ack)
  }

  /** The reports about `id`, in order. */
  function Items(xs: seq<Scheduled>, id: OrderId): seq<Item> {
    if xs == [] then []
    else
      var rest := Items(xs[..|xs| - 1], id);
      if xs[|xs| - 1].report.Order() == id then rest + [ItemOf(xs[|xs| - 1])] else rest
  }

  function Project(s: State, id: OrderId): Life { Life(Find(s.resting, id), Items(s.issued, id)) }

  ghost predicate UniqueIds(rs: seq<Resting>) {
    forall i, j :: 0 <= i < j < |rs| ==> rs[i].order.id != rs[j].order.id
  }

  lemma FindSnoc(rs: seq<Resting>, r: Resting, id: OrderId)
    ensures Find(rs + [r], id) == if r.order.id == id then Some(Strip(r)) else Find(rs, id)
  {
    assert (rs + [r])[..|rs|] == rs;
  }

  lemma ItemsSnoc(xs: seq<Scheduled>, x: Scheduled, id: OrderId)
    ensures Items(xs + [x], id) == if x.report.Order() == id then Items(xs, id) + [ItemOf(x)] else Items(xs, id)
  {
    assert (xs + [x])[..|xs|] == xs;
  }

  /** The venue's own order number never influences matching. */
  lemma StripCommutes(m: BrokerageModel, lot: nat, r: Resting, t: Tick)
    ensures Decide(m, lot, Strip(r), t) == Decide(m, lot, r, t)
    ensures Stepped(m, lot, Strip(r), t) == Strip(Stepped(m, lot, r, t))
    ensures Exhausted(m, lot, Strip(r), t) == Exhausted(m, lot, r, t)
    ensures Stepped(m, lot, r, t).order.id == r.order.id
  {
  }

  /** What one book entry adds to the life of its order. */
  function Moved(m: BrokerageModel, s: State, now: Time, iid: InstrumentId, inst: Instrument, t: Tick,
      r: Resting): Life {
    var items := Items(s.issued, r.order.id);
    if r.order.inst != iid then Life(Some(r), items) else Live(m, now, inst.lot, t, r, items)
  }

  lemma EmitProjects(m: BrokerageModel, s: State, now: Time, inst: Instrument, r: Resting, d: Decision, id: OrderId)
    ensures var s' := Emit(m, s, now, inst, r, d);
      && s'.resting == s.resting
      && Items(s'.issued, id) ==
         if d.qty > 0 && r.order.id == id
         then Items(s.issued, id) + [Item(Later(now, m.submitLatency), Exec(d.px, d.qty, d.liquidity))]
         else Items(s.issued, id)
  {
    if d.qty > 0 {
      ItemsSnoc(s.issued, Emit(m, s, now, inst, r, d).issued[|s.issued|], id);
    }
  }

  /** Matching one book entry moves that order and no other. */
  lemma MatchOneProjects(m: BrokerageModel, s: State, now: Time, iid: InstrumentId, inst: Instrument, t: Tick,
      r: Resting, id: OrderId)
    ensures var s' := MatchOne(m, s, now, iid, inst, t, r);
      && (r.order.id != id ==> Project(s', id) == Project(s, id))
      && (r.order.id == id && Find(s.resting, id).None? ==> Project(s', id) == Moved(m, s, now, iid, inst, t, Strip(r)))
      && (s'.resting == s.resting || exists w: Resting :: w.order.id == r.order.id && s'.resting == s.resting + [w])
  {
    hide Decide, Stepped, Exhausted;
    var s' := MatchOne(m, s, now, iid, inst, t, r);
    if r.order.inst != iid {
      FindSnoc(s.resting, r, id);
    } else {
      var d := Decide(m, inst.lot, r, t);
      var w := Stepped(m, inst.lot, r, t);
      StripCommutes(m, inst.lot, r, t);
      FindSnoc(s.resting, w, id);
      if d.Some? {
        EmitProjects(m, s, now, inst, r, d.value, id);
      }
    }
  }

  /** Replacing the head of the unmatched entries by its survivor keeps ids unique. */
  lemma UniqueMoves(done: seq<Resting>, done': seq<Resting>, rs: seq<Resting>)
    requires rs != [] && UniqueIds(done + rs)
    requires done' == done || exists w: Resting :: w.order.id == rs[0].order.id && done' == done + [w]
    ensures UniqueIds(done' + rs[1..]) && UniqueIds(rs)
    ensures forall r :: r in done ==> r.order.id != rs[0].order.id
    ensures forall q :: q in done' + rs[1..] ==> exists r :: r in done + rs && r.order.id == q.order.id
  {
    var all, all' := done + rs, done' + rs[1..];
    assert forall i :: 0 <= i < |rs| ==> all[|done| + i] == rs[i];
    assert forall i :: 0 <= i < |done| ==> all[i] == done[i];
    var shift := |all| - |all'|;
    forall i | 0 <= i < |all'|
      ensures all'[i].order.id == all[if i < |done| then i else i + shift].order.id
    {
    }
  }

  lemma {:induction false} MatchAllProjects(m: BrokerageModel, s: State, now: Time, iid: InstrumentId,
      inst: Instrument, t: Tick, rs: seq<Resting>, id: OrderId)
    requires UniqueIds(s.resting + rs)
    ensures var s' := MatchAll(m, s, now, iid, inst, t, rs);
      && UniqueIds(s'.resting)
      && (forall q :: q in s'.resting ==> exists r :: r in s.resting + rs && r.order.id == q.order.id)
      && (Find(rs, id).None? ==> Project(s', id) == Project(s, id))
      && (Find(rs, id).Some? ==> Project(s', id) == Moved(m, s, now, iid, inst, t, Find(rs, id).value))
    decreases |rs|
  {
    hide Decide, Stepped, Exhausted, MatchOne;
    if rs == [] {
      assert s.resting + rs == s.resting;
    } else {
      var s1 := MatchOne(m, s, now, iid, inst, t, rs[0]);
      MatchOneProjects(m, s, now, iid, inst, t, rs[0], id);
      UniqueMoves(s.resting, s1.resting, rs);
      MatchAllProjects(m, s1, now, iid, inst, t, rs[1..], id);
      FindHeadTail(rs, id);
    }
  }

  lemma {:induction false} FindHeadTail(rs: seq<Resting>, id: OrderId)
    requires rs != [] && UniqueIds(rs)
    ensures Find(rs, id) == if rs[0].order.id == id then Some(Strip(rs[0])) else Find(rs[1..], id)
    decreases |rs|
  {
    if |rs| > 1 {
      var n := |rs| - 1;
      assert rs[..n][0] == rs[0] && rs[..n][1..] == rs[1..][..n - 1];
      FindHeadTail(rs[..n], id);
    }
  }

  // --- the composition theorem --------------------------------------------------------------

  lemma {:induction false} CancelProjects(rs: seq<Resting>, id: OrderId, other: OrderId)
    requires UniqueIds(rs) && IndexOf(rs, id) < |rs|
    ensures var i := IndexOf(rs, id); var rest := rs[..i] + rs[i + 1..];
      && UniqueIds(rest)
      && (forall r :: r in rest ==> r in rs)
      && Find(rs, id).Some?
      && Find(rest, other) == if other == id then None else Find(rs, other)
  {
    var i := IndexOf(rs, id);
    var rest := rs[..i] + rs[i + 1..];
    forall j | 0 <= j < |rest|
      ensures rest[j] == rs[if j < i then j else j + 1]
    {
    }
    assert rs[i] in rs;
    if other != id {
      FindSkips(rs, i, other);
    }
  }

  lemma {:induction false} FindSkips(rs: seq<Resting>, i: nat, id: OrderId)
    requires i < |rs| && rs[i].order.id != id
    ensures Find(rs[..i] + rs[i + 1..], id) == Find(rs, id)
    decreases |rs|
  {
    var n := |rs| - 1;
    if i == n {
      assert rs[..i] + rs[i + 1..] == rs[..n];
    } else {
      assert (rs[..i] + rs[i + 1..])[..n - 1] == rs[..n][..i] + rs[..n][i + 1..];
      FindSkips(rs[..n], i, id);
    }
  }

  lemma {:induction false} DrainKeeps(s: State, frontier: Time)
    ensures DrainDue(s, frontier).resting == s.resting
    ensures DrainDue(s, frontier).issued == s.issued
    decreases |s.queue|
  {
    if s.queue != [] && s.queue[0].due <= frontier {
      DrainKeeps(Pop(s), frontier);
    }
  }

  lemma SubmitProjects(m: BrokerageModel, s: State, now: Time, view: View, o: Order, id: OrderId)
    requires UniqueIds(s.resting) && o.inst in view.instruments && Find(s.resting, o.id).None?
    ensures var s' := OnSubmit(m, s, now, view, o);
      && UniqueIds(s'.resting)
      && Project(s', id) == Step(m, Project(s, id), id, Submit(now, view, o))
  {
    var s' := OnSubmit(m, s, now, view, o);
    var r := Rest(view, o, s.venueSeq + 1);
    assert s'.resting == s.resting + [r];
    assert forall i :: 0 <= i < |s.resting| ==> s.resting[i] in s.resting;
    assert Strip(r) == Rest(view, o, 0);
    FindSnoc(s.resting, r, id);
    ItemsSnoc(s.issued, s'.issued[|s.issued|], id);
  }

  lemma CancelOpProjects(m: BrokerageModel, s: State, now: Time, c: OrderId, id: OrderId)
    requires UniqueIds(s.resting)
    ensures var s' := OnCancel(m, s, now, c);
      && UniqueIds(s'.resting)
      && Project(s', id) == Step(m, Project(s, id), id, Cancel(now, c))
  {
    hide Items, Find, UniqueIds;
    if IndexOf(s.resting, c) < |s.resting| {
      CancelProjects(s.resting, c, id);
      ItemsSnoc(s.issued, OnCancel(m, s, now, c).issued[|s.issued|], id);
    }
  }

  lemma MatchProjects(m: BrokerageModel, s: State, now: Time, view: View, ev: Event, id: OrderId)
    requires UniqueIds(s.resting)
    ensures var s' := OnMarket(m, s, now, view, ev);
      && UniqueIds(s'.resting)
      && Project(s', id) == Step(m, Project(s, id), id, Match(now, view, ev))
  {
    hide Decide, Stepped, Exhausted, MatchAll, Find, Items, UniqueIds;
    if ev.inst in view.instruments && TickOf(ev).Some? {
      var s0 := s.(resting := []);
      var inst, t := view.instruments[ev.inst], TickOf(ev).value;
      assert s0.resting + s.resting == s.resting;
      MatchAllProjects(m, s0, now, ev.inst, inst, t, s.resting, id);
      var f := Find(s.resting, id);
      if f.Some? {
        assert Step(m, Project(s, id), id, Match(now, view, ev)) == Moved(m, s0, now, ev.inst, inst, t, f.value);
      }
    }
  }

  /** One operation: ids stay unique, and every order takes exactly its own step. */
  lemma ApplyProjects(m: BrokerageModel, s: State, op: Op, id: OrderId)
    requires UniqueIds(s.resting)
    requires op.Submit? && op.order.inst in op.view.instruments ==> Find(s.resting, op.order.id).None?
    ensures UniqueIds(Apply(m, s, op).resting)
    ensures Project(Apply(m, s, op), id) == Step(m, Project(s, id), id, op)
  {
    match op
    case Submit(now, view, o) =>
      if o.inst in view.instruments {
        SubmitProjects(m, s, now, view, o, id);
      }
    case Cancel(now, c) => CancelOpProjects(m, s, now, c, id);
    case Match(now, view, ev) => MatchProjects(m, s, now, view, ev, id);
    case Drain(_, frontier) => DrainKeeps(s, frontier);
  }

  /** An order never submitted has no life. */
  lemma {:induction false} Unborn(m: BrokerageModel, ops: seq<Op>, id: OrderId)
    requires forall i :: 0 <= i < |ops| ==> !Submits(ops[i], id)
    ensures LifeOf(m, ops, id) == UNBORN
  {
    if ops != [] {
      Unborn(m, ops[..|ops| - 1], id);
    }
  }

  lemma FreshPrefix(ops: seq<Op>)
    requires Fresh(ops) && ops != []
    ensures Fresh(ops[..|ops| - 1])
  {
    var pre := ops[..|ops| - 1];
    assert forall i :: 0 <= i < |pre| ==> pre[i] == ops[i];
  }

  /** The venue is the parallel composition of the lives of its orders. */
  lemma {:induction false} VenueIsComposition(m: BrokerageModel, ops: seq<Op>, id: OrderId)
    requires Fresh(ops)
    ensures UniqueIds(Run(m, ops).resting)
    ensures Project(Run(m, ops), id) == LifeOf(m, ops, id)
    decreases |ops|
  {
    if ops != [] {
      var n := |ops| - 1;
      var op := ops[n];
      FreshPrefix(ops);
      VenueIsComposition(m, ops[..n], id);
      if op.Submit? && op.order.inst in op.view.instruments {
        VenueIsComposition(m, ops[..n], op.order.id);
        Unborn(m, ops[..n], op.order.id);
      }
      ApplyProjects(m, Run(m, ops[..n]), op, id);
    }
  }
}
