/** What a fill report carries: in every run, the instrument and side of the order it fills, the venue's
    number for it, the time it becomes due, the fee of its own price and quantity, and a trade number
    never used before. */
module FillLaws {
  import opened Domain
  import opened Brokerage
  import opened Venue

  // --- the claims -------------------------------------------------------------------------------------

  /** Some operation of the run submitted an order with this id, instrument and side. */
  ghost predicate Ordered(ops: seq<Op>, id: OrderId, inst: InstrumentId, side: Side) {
    exists i :: 0 <= i < |ops| && Submits(ops[i], id) && ops[i].order.inst == inst && ops[i].order.side == side
  }

  /** The venue acknowledged the order under this number. */
  ghost predicate Numbered(xs: seq<Scheduled>, id: OrderId, v: nat) {
    exists j :: 0 <= j < |xs| && xs[j].report == Report.Accepted(id, v)
  }

  /** The fee is that of the fill on the instrument as some matching operation knew it. */
  ghost predicate Charged(ops: seq<Op>, f: Fill) {
    exists q ::
      && 0 <= q < |ops| && ops[q].Match? && ops[q].ev.inst == f.inst && f.inst in ops[q].view.instruments
      && f.fee == Fee(ops[q].view.instruments[f.inst], f.px, f.qty, f.liquidity)
  }

  ghost predicate Carries(ops: seq<Op>, xs: seq<Scheduled>, x: Scheduled) {
    x.report.Filled? ==>
      var f := x.report.fill;
      Ordered(ops, f.order, f.inst, f.side) && Numbered(xs, f.order, f.venueOrder) && f.ts == x.due && Charged(ops, f)
  }

  ghost predicate AllCarry(ops: seq<Op>, xs: seq<Scheduled>) {
    forall j :: 0 <= j < |xs| ==> Carries(ops, xs, xs[j])
  }

  /** Trade numbers count up along the reports. */
  ghost predicate CountsUp(xs: seq<Scheduled>, last: nat) {
    && (forall j :: 0 <= j < |xs| && xs[j].report.Filled? ==> 0 < xs[j].report.fill.trade <= last)
    && (forall i, j :: 0 <= i < j < |xs| && xs[i].report.Filled? && xs[j].report.Filled? ==>
          xs[i].report.fill.trade < xs[j].report.fill.trade)
  }

  ghost predicate Rests(ops: seq<Op>, xs: seq<Scheduled>, r: Resting) {
    Ordered(ops, r.order.id, r.order.inst, r.order.side) && Numbered(xs, r.order.id, r.venueOrder)
  }

  ghost predicate AllRest(ops: seq<Op>, xs: seq<Scheduled>, rs: seq<Resting>) {
    forall i :: 0 <= i < |rs| ==> Rests(ops, xs, rs[i])
  }

  ghost predicate Sound(ops: seq<Op>, s: State) {
    AllCarry(ops, s.issued) && CountsUp(s.issued, s.tradeSeq) && AllRest(ops, s.issued, s.resting)
  }

  // --- claims survive ---------------------------------------------------------------------------------

  lemma OrderedGrows(ops: seq<Op>, ops': seq<Op>, id: OrderId, inst: InstrumentId, side: Side)
    requires ops <= ops' && Ordered(ops, id, inst, side)
    ensures Ordered(ops', id, inst, side)
  {
    var i :| 0 <= i < |ops| && Submits(ops[i], id) && ops[i].order.inst == inst && ops[i].order.side == side;
    assert ops'[i] == ops[i];
  }

  lemma NumberedGrows(xs: seq<Scheduled>, xs': seq<Scheduled>, id: OrderId, v: nat)
    requires xs <= xs' && Numbered(xs, id, v)
    ensures Numbered(xs', id, v)
  {
    var j :| 0 <= j < |xs| && xs[j].report == Report.Accepted(id, v);
    assert xs'[j] == xs[j];
  }

  lemma ChargedGrows(ops: seq<Op>, ops': seq<Op>, f: Fill)
    requires ops <= ops' && Charged(ops, f)
    ensures Charged(ops', f)
  {
    hide Fee;
    var q :| 0 <= q < |ops| && ops[q].Match? && ops[q].ev.inst == f.inst && f.inst in ops[q].view.instruments
      && f.fee == Fee(ops[q].view.instruments[f.inst], f.px, f.qty, f.liquidity);
    assert ops'[q] == ops[q];
  }

  lemma CarriesGrows(ops: seq<Op>, ops': seq<Op>, xs: seq<Scheduled>, xs': seq<Scheduled>, x: Scheduled)
    requires ops <= ops' && xs <= xs' && Carries(ops, xs, x)
    ensures Carries(ops', xs', x)
  {
    hide Ordered, Numbered, Charged;
    if x.report.Filled? {
      var f := x.report.fill;
      OrderedGrows(ops, ops', f.order, f.inst, f.side);
      NumberedGrows(xs, xs', f.order, f.venueOrder);
      ChargedGrows(ops, ops', f);
    }
  }

  lemma RestsGrows(ops: seq<Op>, ops': seq<Op>, xs: seq<Scheduled>, xs': seq<Scheduled>, rs: seq<Resting>)
    requires ops <= ops' && xs <= xs' && AllRest(ops, xs, rs)
    ensures AllRest(ops', xs', rs)
  {
    hide Ordered, Numbered;
    forall i | 0 <= i < |rs|
      ensures Rests(ops', xs', rs[i])
    {
      assert Rests(ops, xs, rs[i]);
      OrderedGrows(ops, ops', rs[i].order.id, rs[i].order.inst, rs[i].order.side);
      NumberedGrows(xs, xs', rs[i].order.id, rs[i].venueOrder);
    }
  }

  lemma AllCarryGrows(ops: seq<Op>, ops': seq<Op>, xs: seq<Scheduled>)
    requires ops <= ops' && AllCarry(ops, xs)
    ensures AllCarry(ops', xs)
  {
    hide Carries;
    forall j | 0 <= j < |xs|
      ensures Carries(ops', xs, xs[j])
    {
      CarriesGrows(ops, ops', xs, xs, xs[j]);
    }
  }

  lemma AllCarrySnoc(ops: seq<Op>, xs: seq<Scheduled>, x: Scheduled)
    requires AllCarry(ops, xs) && Carries(ops, xs, x)
    ensures AllCarry(ops, xs + [x])
  {
    hide Carries;
    forall j | 0 <= j < |xs + [x]|
      ensures Carries(ops, xs + [x], (xs + [x])[j])
    {
      CarriesGrows(ops, ops, xs, xs + [x], (xs + [x])[j]);
    }
  }

  /** One more report that is no fill. */
  lemma PushSound(ops: seq<Op>, s: State, due: Time, report: Report)
    requires Sound(ops, s) && !report.Filled?
    ensures Sound(ops, Push(s, due, report))
  {
    hide Ordered, Numbered, Charged, Enqueue;
    var x := Scheduled(due, s.seqNo + 1, report);
    AllCarrySnoc(ops, s.issued, x);
    hide AllCarry, AllRest;
    RestsGrows(ops, ops, s.issued, s.issued + [x], s.resting);
  }

  // --- matching ---------------------------------------------------------------------------------------

  lemma FillCarries(ops: seq<Op>, s: State, r: Resting, d: Decision, at: Time, q: nat)
    requires Rests(ops, s.issued, r) && q < |ops| && ops[q].Match?
    requires ops[q].ev.inst == r.order.inst && r.order.inst in ops[q].view.instruments
    ensures var inst := ops[q].view.instruments[r.order.inst];
      Carries(ops, s.issued, Scheduled(at, s.seqNo + 1, Report.Filled(FillOf(s, inst, r, d, at))))
  {
    hide Ordered, Numbered, Fee;
    var f := FillOf(s, ops[q].view.instruments[r.order.inst], r, d, at);
    assert Charged(ops, f) by {
      assert f.fee == Fee(ops[q].view.instruments[f.inst], f.px, f.qty, f.liquidity);
    }
  }

  lemma EmitSound(m: BrokerageModel, ops: seq<Op>, s: State, now: Time, r: Resting, d: Decision, q: nat)
    requires Sound(ops, s) && Rests(ops, s.issued, r) && q < |ops| && ops[q].Match?
    requires ops[q].ev.inst == r.order.inst && r.order.inst in ops[q].view.instruments
    ensures var s' := Emit(m, s, now, ops[q].view.instruments[r.order.inst], r, d);
      Sound(ops, s') && s.issued <= s'.issued && s'.resting == s.resting
  {
    hide Ordered, Numbered, Charged, Fee, Enqueue, Rests, Carries;
    if d.qty > 0 {
      var at, inst := Later(now, m.submitLatency), ops[q].view.instruments[r.order.inst];
      var x := Scheduled(at, s.seqNo + 1, Report.Filled(FillOf(s, inst, r, d, at)));
      FillCarries(ops, s, r, d, at, q);
      AllCarrySnoc(ops, s.issued, x);
      RestsGrows(ops, ops, s.issued, s.issued + [x], s.resting);
      assert CountsUp(s.issued + [x], s.tradeSeq + 1);
      hide AllCarry, AllRest, CountsUp;
      assert Emit(m, s, now, inst, r, d).issued == s.issued + [x];
    }
  }

  lemma StepKeepsOwner(m: BrokerageModel, lot: nat, r: Resting, t: Tick)
    ensures var r' := Stepped(m, lot, r, t);
      && r'.order.id == r.order.id && r'.order.inst == r.order.inst && r'.order.side == r.order.side
      && r'.venueOrder == r.venueOrder
  {
    hide Decide;
  }

  lemma MatchOneSound(m: BrokerageModel, ops: seq<Op>, s: State, t: Tick, r: Resting, q: nat)
    requires Sound(ops, s) && Rests(ops, s.issued, r) && q < |ops| && ops[q].Match?
    requires ops[q].ev.inst in ops[q].view.instruments
    ensures var id := ops[q].ev.inst;
      var s' := MatchOne(m, s, ops[q].now, id, ops[q].view.instruments[id], t, r);
      Sound(ops, s') && s.issued <= s'.issued
  {
    hide AllCarry, CountsUp, Decide, Stepped, Emit, Ordered, Numbered;
    var id := ops[q].ev.inst;
    var inst := ops[q].view.instruments[id];
    if r.order.inst == id {
      var d := Decide(m, inst.lot, r, t);
      StepKeepsOwner(m, inst.lot, r, t);
      var s1 := if d.Some? then Emit(m, s, ops[q].now, inst, r, d.value) else s;
      if d.Some? {
        EmitSound(m, ops, s, ops[q].now, r, d.value, q);
      }
      NumberedGrows(s.issued, s1.issued, r.order.id, r.venueOrder);
      RestingSound(ops, s1, Stepped(m, inst.lot, r, t));
    } else {
      RestingSound(ops, s, r);
    }
  }

  lemma RestingSound(ops: seq<Op>, s: State, r: Resting)
    requires Sound(ops, s) && Rests(ops, s.issued, r)
    ensures Sound(ops, s.(resting := s.resting + [r]))
  {
    hide AllCarry, CountsUp, Rests;
  }

  lemma {:induction false} MatchAllSound(m: BrokerageModel, ops: seq<Op>, s: State, t: Tick, rs: seq<Resting>, q: nat)
    requires Sound(ops, s) && AllRest(ops, s.issued, rs) && q < |ops| && ops[q].Match?
    requires ops[q].ev.inst in ops[q].view.instruments
    ensures var id := ops[q].ev.inst;
      Sound(ops, MatchAll(m, s, ops[q].now, id, ops[q].view.instruments[id], t, rs))
    decreases |rs|
  {
    hide Sound, MatchOne, Rests;
    if rs != [] {
      var id := ops[q].ev.inst;
      var s1 := MatchOne(m, s, ops[q].now, id, ops[q].view.instruments[id], t, rs[0]);
      MatchOneSound(m, ops, s, t, rs[0], q);
      RestsGrows(ops, ops, s.issued, s1.issued, rs);
      MatchAllSound(m, ops, s1, t, rs[1..], q);
    }
  }

  // --- every operation, every run ---------------------------------------------------------------------

  lemma SoundGrows(ops: seq<Op>, ops': seq<Op>, s: State)
    requires ops <= ops' && Sound(ops, s)
    ensures Sound(ops', s)
  {
    hide CountsUp, AllCarry, AllRest;
    AllCarryGrows(ops, ops', s.issued);
    RestsGrows(ops, ops', s.issued, s.issued, s.resting);
  }

  lemma SubmitSound(m: BrokerageModel, ops: seq<Op>, s: State, q: nat)
    requires Sound(ops, s) && q < |ops| && ops[q].Submit?
    ensures Sound(ops, OnSubmit(m, s, ops[q].now, ops[q].view, ops[q].order))
  {
    hide AllCarry, CountsUp, AllRest, Push, Charged;
    var o, v := ops[q].order, s.venueSeq + 1;
    if o.inst in ops[q].view.instruments {
      var s0, due := s.(venueSeq := v), Later(ops[q].now, m.submitLatency);
      PushSound(ops, s0, due, Report.Accepted(o.id, v));
      var s1 := Push(s0, due, Report.Accepted(o.id, v));
      assert Submits(ops[q], o.id);
      assert Numbered(s1.issued, o.id, v) by { Pushed(s0, due, Report.Accepted(o.id, v)); }
      RestingSound(ops, s1, Rest(ops[q].view, o, v));
    }
  }

  lemma Pushed(s: State, due: Time, report: Report)
    ensures var xs := Push(s, due, report).issued; |xs| == |s.issued| + 1 && xs[|s.issued|].report == report
  {
    hide Enqueue;
  }

  lemma CancelSound(m: BrokerageModel, ops: seq<Op>, s: State, now: Time, id: OrderId)
    requires Sound(ops, s)
    ensures Sound(ops, OnCancel(m, s, now, id))
  {
    hide AllCarry, CountsUp, Push, Rests;
    var i := IndexOf(s.resting, id);
    if i < |s.resting| {
      var rest := s.resting[..i] + s.resting[i + 1..];
      assert AllRest(ops, s.issued, rest);
      PushSound(ops, s.(resting := rest), Later(now, m.cancelLatency), Report.Canceled(id));
    }
  }

  lemma MatchSound(m: BrokerageModel, ops: seq<Op>, s: State, q: nat)
    requires Sound(ops, s) && q < |ops| && ops[q].Match?
    ensures Sound(ops, OnMarket(m, s, ops[q].now, ops[q].view, ops[q].ev))
  {
    hide AllCarry, CountsUp, Rests, MatchAll;
    var op := ops[q];
    if op.ev.inst in op.view.instruments && TickOf(op.ev).Some? {
      MatchAllSound(m, ops, s.(resting := []), TickOf(op.ev).value, s.resting, q);
    }
  }

  lemma {:induction false} DrainSound(ops: seq<Op>, s: State, frontier: Time)
    requires Sound(ops, s)
    ensures Sound(ops, DrainDue(s, frontier))
    decreases |s.queue|
  {
    hide AllCarry, CountsUp, AllRest;
    if s.queue != [] && s.queue[0].due <= frontier {
      DrainSound(ops, Pop(s), frontier);
    }
  }

  lemma {:induction false} RunSound(m: BrokerageModel, ops: seq<Op>)
    ensures Sound(ops, Venue.Run(m, ops))
  {
    hide Sound, OnSubmit, OnCancel, OnMarket, DrainDue;
    if ops == [] {
      EmptySound();
    } else {
      var n := |ops| - 1;
      var s := Venue.Run(m, ops[..n]);
      RunSound(m, ops[..n]);
      SoundGrows(ops[..n], ops, s);
      match ops[n]
      case Submit(_, _, _) => SubmitSound(m, ops, s, n);
      case Cancel(now, id) => CancelSound(m, ops, s, now, id);
      case Match(_, _, _) => MatchSound(m, ops, s, n);
      case Drain(_, frontier) => DrainSound(ops, s, frontier);
    }
  }

  lemma EmptySound()
    ensures Sound([], EMPTY)
  {
  }

  /** In every run, every fill report carries the instrument and side its order was submitted with, the
      number it was acknowledged under, its own due time and the fee of its price and quantity. */
  lemma FillsCarryTheirOrder(m: BrokerageModel, ops: seq<Op>, j: nat)
    requires j < |Venue.Run(m, ops).issued| && Venue.Run(m, ops).issued[j].report.Filled?
    ensures var s := Venue.Run(m, ops); var x := s.issued[j]; var f := x.report.fill;
      && Ordered(ops, f.order, f.inst, f.side) && Numbered(s.issued, f.order, f.venueOrder)
      && f.ts == x.due && Charged(ops, f)
  {
    hide Venue.Run, Ordered, Numbered, Charged, CountsUp, AllRest;
    RunSound(m, ops);
    assert Carries(ops, Venue.Run(m, ops).issued, Venue.Run(m, ops).issued[j]);
  }

  /** And no two fills share a trade number. */
  lemma TradesAreDistinct(m: BrokerageModel, ops: seq<Op>)
    ensures CountsUp(Venue.Run(m, ops).issued, Venue.Run(m, ops).tradeSeq)
  {
    hide Venue.Run, AllCarry, AllRest, CountsUp;
    RunSound(m, ops);
  }
}
