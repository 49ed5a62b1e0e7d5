/** `SimulatedExecutionClient` in its own, imperative form: fields updated in place, index lists
    built by a read-only pass and written back afterwards. Every method is proved to take the
    step of the state machine in `Venue`; for `OnMarket` that is a refinement, since the machine
    visits each order once and the method makes one pass to decide, three to write back, one to
    schedule and one, from the highest index down, to remove. */
module SimulatedExchange {
  import opened Domain
  import opened Brokerage
  import opened Venue

  // --- the two-phase form as functions ------------------------------------------------------

  datatype Pending = Pending(index: nat, r: Resting, d: Decision)

  function Decided(m: BrokerageModel, id: InstrumentId, lot: nat, t: Tick, rs: seq<Resting>, n: nat): seq<Pending>
    requires n <= |rs|
  {
    if n == 0 then [] else
      var before, r := Decided(m, id, lot, t, rs, n - 1), rs[n - 1];
      if r.order.inst == id && Decide(m, lot, r, t).Some?
      then before + [Pending(n - 1, r, Decide(m, lot, r, t).value)]
      else before
  }

  lemma {:induction false} DecidedBelow(m: BrokerageModel, id: InstrumentId, lot: nat, t: Tick, rs: seq<Resting>,
      n: nat)
    requires n <= |rs|
    ensures forall k :: 0 <= k < |Decided(m, id, lot, t, rs, n)| ==> Decided(m, id, lot, t, rs, n)[k].index < n
  {
    if n > 0 {
      DecidedBelow(m, id, lot, t, rs, n - 1);
    }
  }

  function AdjustedAll(id: InstrumentId, t: Tick, rs: seq<Resting>): (a: seq<Resting>)
    ensures |a| == |rs|
  {
    seq(|rs|, i requires 0 <= i < |rs| => if rs[i].order.inst == id then Adjusted(rs[i], t) else rs[i])
  }

  /** The state while fills are scheduled, and the indices found exhausted so far. */
  datatype Book = Book(st: State, gone: seq<nat>)

  function ScheduleOne(m: BrokerageModel, b: Book, now: Time, inst: Instrument, p: Pending): Book
    requires p.index < |b.st.resting|
  {
    var st := Emit(m, b.st, now, inst, p.r, p.d);
    var r := Settled(st.resting[p.index], p.d);
    Book(st.(resting := st.resting[p.index := r]), if r.remaining == 0 then b.gone + [p.index] else b.gone)
  }

  function Schedule(m: BrokerageModel, b: Book, now: Time, inst: Instrument, ps: seq<Pending>): (b': Book)
    requires forall k :: 0 <= k < |ps| ==> ps[k].index < |b.st.resting|
    ensures |b'.st.resting| == |b.st.resting|
  {
    if ps == [] then b
    else ScheduleOne(m, Schedule(m, b, now, inst, ps[..|ps| - 1]), now, inst, ps[|ps| - 1])
  }

  lemma ScheduleSnoc(m: BrokerageModel, b: Book, now: Time, inst: Instrument, ps: seq<Pending>, p: Pending)
    requires forall k :: 0 <= k < |ps| ==> ps[k].index < |b.st.resting|
    requires p.index < |b.st.resting|
    ensures Schedule(m, b, now, inst, ps + [p]) == ScheduleOne(m, Schedule(m, b, now, inst, ps), now, inst, p)
  {
    assert (ps + [p])[..|ps|] == ps;
  }

  ghost predicate Ascending(gone: seq<nat>, n: nat) {
    && (forall i, j :: 0 <= i < j < |gone| ==> gone[i] < gone[j])
    && (forall i :: 0 <= i < |gone| ==> gone[i] < n)
  }

  /** Removal from the highest index down. */
  function RemoveAll(rs: seq<Resting>, gone: seq<nat>): seq<Resting>
    requires Ascending(gone, |rs|)
  {
    if gone == [] then rs else
      var i := gone[|gone| - 1];
      RemoveAll(rs[..i] + rs[i + 1..], gone[..|gone| - 1])
  }

  lemma {:induction false} RemoveAllSnoc(rs: seq<Resting>, r: Resting, gone: seq<nat>)
    requires Ascending(gone, |rs|)
    ensures RemoveAll(rs + [r], gone) == RemoveAll(rs, gone) + [r]
    decreases |gone|
  {
    if gone != [] {
      var i := gone[|gone| - 1];
      assert (rs + [r])[..i] + (rs + [r])[i + 1..] == (rs[..i] + rs[i + 1..]) + [r];
      RemoveAllSnoc(rs[..i] + rs[i + 1..], r, gone[..|gone| - 1]);
    }
  }

  lemma RemoveLast(rs: seq<Resting>, r: Resting, gone: seq<nat>)
    requires Ascending(gone, |rs|)
    ensures Ascending(gone + [|rs|], |rs| + 1)
    ensures RemoveAll(rs + [r], gone + [|rs|]) == RemoveAll(rs, gone)
  {
    assert (gone + [|rs|])[..|gone|] == gone;
    assert (rs + [r])[..|rs|] + (rs + [r])[|rs| + 1..] == rs;
  }

  lemma {:induction false} MatchAllSnoc(m: BrokerageModel, s: State, now: Time, id: InstrumentId, inst: Instrument,
      t: Tick, rs: seq<Resting>, r: Resting)
    ensures MatchAll(m, s, now, id, inst, t, rs + [r])
        == MatchOne(m, MatchAll(m, s, now, id, inst, t, rs), now, id, inst, t, r)
    decreases |rs|
  {
    if rs == [] {
      assert [r][1..] == [] && rs + [r] == [r];
    } else {
      assert (rs + [r])[0] == rs[0] && (rs + [r])[1..] == rs[1..] + [r];
      MatchAllSnoc(m, MatchOne(m, s, now, id, inst, t, rs[0]), now, id, inst, t, rs[1..], r);
    }
  }

  /** After scheduling the decisions on the first `n` orders, the counters and queues are those of
      the single pass, the first `n` entries are stepped and the others merely adjusted. */
  ghost predicate InStep(m: BrokerageModel, s: State, now: Time, id: InstrumentId, inst: Instrument, t: Tick,
      rs: seq<Resting>, n: nat, b: Book)
    requires n <= |rs|
  {
    && |b.st.resting| == |rs| && Ascending(b.gone, n)
    && (forall i :: n <= i < |rs| ==> b.st.resting[i] == AdjustedAll(id, t, rs)[i])
    && b.st.(resting := RemoveAll(b.st.resting[..n], b.gone))
        == MatchAll(m, s.(resting := []), now, id, inst, t, rs[..n])
  }

  /** Scheduling the decision on an adjusted entry is its step in the single pass. */
  lemma ScheduleSteps(m: BrokerageModel, b: Book, now: Time, id: InstrumentId, inst: Instrument, t: Tick, r: Resting,
      n: nat, kept: seq<Resting>)
    requires n < |b.st.resting| && r.order.inst == id && Decide(m, inst.lot, r, t).Some?
        && b.st.resting[n] == Adjusted(r, t)
    ensures var b', w := ScheduleOne(m, b, now, inst, Pending(n, r, Decide(m, inst.lot, r, t).value)),
        Stepped(m, inst.lot, r, t);
      && b'.st.resting == b.st.resting[n := w]
      && b'.gone == (if w.remaining == 0 then b.gone + [n] else b.gone)
      && MatchOne(m, b.st.(resting := kept), now, id, inst, t, r) ==
         b'.st.(resting := if w.remaining == 0 then kept else kept + [w])
  {
  }

  lemma SkipSteps(m: BrokerageModel, s: State, now: Time, id: InstrumentId, inst: Instrument, t: Tick, r: Resting)
    requires r.order.inst != id || Decide(m, inst.lot, r, t).None?
    ensures MatchOne(m, s, now, id, inst, t, r) ==
      s.(resting := s.resting + [if r.order.inst == id then Adjusted(r, t) else r])
  {
  }

  lemma InStepOne(m: BrokerageModel, s: State, now: Time, id: InstrumentId, inst: Instrument, t: Tick,
      rs: seq<Resting>, n: nat, b: Book)
    requires n < |rs| && InStep(m, s, now, id, inst, t, rs, n, b)
    ensures var r := rs[n]; var d := Decide(m, inst.lot, r, t);
      InStep(m, s, now, id, inst, t, rs, n + 1,
             if r.order.inst == id && d.Some? then ScheduleOne(m, b, now, inst, Pending(n, r, d.value)) else b)
  {
    var r := rs[n];
    var kept := RemoveAll(b.st.resting[..n], b.gone);
    assert rs[..n + 1] == rs[..n] + [r];
    MatchAllSnoc(m, s.(resting := []), now, id, inst, t, rs[..n], r);
    if r.order.inst == id && Decide(m, inst.lot, r, t).Some? {
      var w := Stepped(m, inst.lot, r, t);
      ScheduleSteps(m, b, now, id, inst, t, r, n, kept);
      assert b.st.resting[n := w][..n + 1] == b.st.resting[..n] + [w];
      if w.remaining == 0 {
        RemoveLast(b.st.resting[..n], w, b.gone);
      } else {
        RemoveAllSnoc(b.st.resting[..n], w, b.gone);
      }
    } else {
      SkipSteps(m, b.st.(resting := kept), now, id, inst, t, r);
      assert b.st.resting[..n + 1] == b.st.resting[..n] + [b.st.resting[n]];
      RemoveAllSnoc(b.st.resting[..n], b.st.resting[n], b.gone);
    }
  }

  /** The two-phase form refines the single pass. */
  lemma {:induction false} TwoPhaseRefines(m: BrokerageModel, s: State, now: Time, id: InstrumentId, inst: Instrument,
      t: Tick, n: nat)
    requires n <= |s.resting|
    ensures var rs := s.resting; var ps := Decided(m, id, inst.lot, t, rs, n);
      && (forall k :: 0 <= k < |ps| ==> ps[k].index < |rs|)
      && InStep(m, s, now, id, inst, t, rs, n,
          Schedule(m, Book(s.(resting := AdjustedAll(id, t, rs)), []), now, inst, ps))
  {
    var rs := s.resting;
    DecidedBelow(m, id, inst.lot, t, rs, n);
    if n > 0 {
      TwoPhaseRefines(m, s, now, id, inst, t, n - 1);
      var before, ps := Decided(m, id, inst.lot, t, rs, n - 1), Decided(m, id, inst.lot, t, rs, n);
      var b0 := Book(s.(resting := AdjustedAll(id, t, rs)), []);
      InStepOne(m, s, now, id, inst, t, rs, n - 1, Schedule(m, b0, now, inst, before));
      var r := rs[n - 1];
      if r.order.inst == id && Decide(m, inst.lot, r, t).Some? {
        ScheduleSnoc(m, b0, now, inst, before, Pending(n - 1, r, Decide(m, inst.lot, r, t).value));
      }
    } else {
      assert rs[..0] == [];
    }
  }

  lemma WholeBookRefines(m: BrokerageModel, s: State, now: Time, id: InstrumentId, inst: Instrument, t: Tick)
    ensures var rs := s.resting; var ps := Decided(m, id, inst.lot, t, rs, |rs|);
      && (forall k :: 0 <= k < |ps| ==> ps[k].index < |rs|)
      && var b := Schedule(m, Book(s.(resting := AdjustedAll(id, t, rs)), []), now, inst, ps);
         && Ascending(b.gone, |b.st.resting|)
         && b.st.(resting := RemoveAll(b.st.resting, b.gone)) == MatchAll(m, s.(resting := []), now, id, inst, t, rs)
  {
    var rs := s.resting;
    TwoPhaseRefines(m, s, now, id, inst, t, |rs|);
    var b := Schedule(m, Book(s.(resting := AdjustedAll(id, t, rs)), []), now, inst,
        Decided(m, id, inst.lot, t, rs, |rs|));
    assert rs[..|rs|] == rs && b.st.resting[..|rs|] == b.st.resting;
  }

  // --- the index lists of the read-only pass ------------------------------------------------

  ghost predicate Clears(id: InstrumentId, rs: seq<Resting>, n: nat, clear: seq<nat>)
    requires n <= |rs|
  {
    forall i :: i in clear <==> 0 <= i < n && rs[i].order.inst == id && rs[i].pendingOpen
  }

  ghost predicate Activations(id: InstrumentId, t: Tick, rs: seq<Resting>, n: nat, activate: seq<nat>)
    requires n <= |rs|
  {
    forall i :: i in activate <==> 0 <= i < n && rs[i].order.inst == id && Activates(rs[i], t)
  }

  function Cleared(r: Resting, hit: bool): Resting { if hit then r.(pendingOpen := false) else r }
  function Activated(r: Resting, hit: bool): Resting { if hit then r.(order := r.order.(kind := Limit)) else r }

  ghost predicate Among(trail: seq<(nat, Price, Price)>, n: nat, i: nat)
    requires n <= |trail|
  {
    exists k :: 0 <= k < n && trail[k].0 == i
  }

  ghost predicate Ratchets(id: InstrumentId, t: Tick, rs: seq<Resting>, n: nat, trail: seq<(nat, Price, Price)>)
    requires n <= |rs|
  {
    && (forall i :: 0 <= i < n && rs[i].order.inst == id && Trails(rs[i], t) ==> Among(trail, |trail|, i))
    && (forall k :: 0 <= k < |trail| ==>
          && trail[k].0 < n && rs[trail[k].0].order.inst == id && Trails(rs[trail[k].0], t)
          && Ratchet(rs[trail[k].0], t) == Some((trail[k].1, trail[k].2)))
  }

  lemma RatchetsSnoc(id: InstrumentId, t: Tick, rs: seq<Resting>, n: nat, trail: seq<(nat, Price, Price)>)
    requires n < |rs| && Ratchets(id, t, rs, n, trail) && rs[n].order.inst == id && Trails(rs[n], t)
    ensures Ratchets(id, t, rs, n + 1, trail + [(n, Ratchet(rs[n], t).value.0, Ratchet(rs[n], t).value.1)])
  {
    var trail' := trail + [(n, Ratchet(rs[n], t).value.0, Ratchet(rs[n], t).value.1)];
    assert trail'[|trail|].0 == n;
    forall i | Among(trail, |trail|, i)
      ensures Among(trail', |trail'|, i)
    {
      var k :| 0 <= k < |trail| && trail[k].0 == i;
      assert trail'[k].0 == i;
    }
  }

  // --- the exchange -------------------------------------------------------------------------

  class SimulatedExchange {
    const model: BrokerageModel
    var queue: seq<Scheduled>
    var seqNo: nat
    var resting: seq<Resting>
    var venueSeq: nat
    var tradeSeq: nat
    ghost var issued: seq<Scheduled>
    ghost var delivered: seq<Scheduled>

    ghost function St(): State
      reads this
    {
      State(queue, seqNo, resting, venueSeq, tradeSeq, issued, delivered)
    }

    constructor (model: BrokerageModel)
      ensures this.model == model && St() == EMPTY
    {
      this.model := model;
      queue, seqNo, resting, venueSeq, tradeSeq := [], 0, [], 0, 0;
      issued, delivered := [], [];
    }

    method Push(due: Time, report: Report)
      modifies this
      ensures St() == Venue.Push(old(St()), due, report)
    {
      seqNo := seqNo + 1;
      var x := Scheduled(due, seqNo, report);
      queue := Enqueue(queue, x);
      issued := issued + [x];
    }

    method OnSubmit(now: Time, view: View, order: Order)
      modifies this
      ensures St() == Venue.OnSubmit(model, old(St()), now, view, order)
    {
      if order.inst !in view.instruments {
        return;
      }
      venueSeq := venueSeq + 1;
      Push(Later(now, model.submitLatency), Report.Accepted(order.id, venueSeq));
      if Marketable(view, order) {
        resting := resting + [Resting(order, order.quantity, None, venueSeq, None, true)];
      } else {
        resting := resting + [Resting(order, order.quantity, None, venueSeq, SeedTrail(view, order), false)];
      }
    }

    method OnCancel(now: Time, id: OrderId)
      modifies this
      ensures St() == Venue.OnCancel(model, old(St()), now, id)
    {
      var pos := 0;
      while pos < |resting| && resting[pos].order.id != id
        invariant pos <= |resting|
        invariant forall j :: 0 <= j < pos ==> resting[j].order.id != id
      {
        pos := pos + 1;
      }
      assert pos == IndexOf(resting, id);
      if pos < |resting| {
        resting := resting[..pos] + resting[pos + 1..];
        Push(Later(now, model.cancelLatency), Report.Canceled(id));
      }
    }

    method DrainDue(frontier: Time) returns (out: seq<Report>)
      modifies this
      ensures St() == Venue.DrainDue(old(St()), frontier)
      ensures |out| == |delivered| - |old(delivered)|
      ensures old(delivered) <= delivered
      ensures forall i :: 0 <= i < |out| ==> out[i] == delivered[|old(delivered)| + i].report
    {
      out := [];
      while queue != [] && queue[0].due <= frontier
        invariant Venue.DrainDue(St(), frontier) == Venue.DrainDue(old(St()), frontier)
        invariant old(delivered) <= delivered && |out| == |delivered| - |old(delivered)|
        invariant forall i :: 0 <= i < |out| ==> out[i] == delivered[|old(delivered)| + i].report
        decreases |queue|
      {
        var top := queue[0];
        queue := queue[1..];
        delivered := delivered + [top];
        out := out + [top.report];
      }
    }

    /** The read-only pass over the book: who fills, who is cleared, activated, ratcheted. */
    method DecideAll(id: InstrumentId, lot: nat, t: Tick)
      returns (decisions: seq<Pending>, clear: seq<nat>, activate: seq<nat>, trail: seq<(nat, Price, Price)>)
      ensures decisions == Decided(model, id, lot, t, resting, |resting|)
      ensures Clears(id, resting, |resting|, clear)
      ensures Activations(id, t, resting, |resting|, activate)
      ensures Ratchets(id, t, resting, |resting|, trail)
    {
      decisions, clear, activate, trail := [], [], [], [];
      for i := 0 to |resting|
        invariant decisions == Decided(model, id, lot, t, resting, i)
        invariant Clears(id, resting, i, clear)
        invariant Activations(id, t, resting, i, activate)
        invariant Ratchets(id, t, resting, i, trail)
      {
        var r := resting[i];
        if r.order.inst == id {
          if r.pendingOpen {
            clear := clear + [i];
          } else if Activates(r, t) {
            activate := activate + [i];
          } else if Trails(r, t) {
            var (extreme, trigger) := Ratchet(r, t).value;
            RatchetsSnoc(id, t, resting, i, trail);
            trail := trail + [(i, extreme, trigger)];
          }
          var d := Decide(model, lot, r, t);
          if d.Some? {
            decisions := decisions + [Pending(i, r, d.value)];
          }
        }
      }
    }

    /** The write-back passes: clear the pending flags, activate stop-limits, ratchet trails. */
    method WriteBack(id: InstrumentId, t: Tick, clear: seq<nat>, activate: seq<nat>, trail: seq<(nat, Price, Price)>)
      requires Clears(id, resting, |resting|, clear)
      requires Activations(id, t, resting, |resting|, activate)
      requires Ratchets(id, t, resting, |resting|, trail)
      modifies this
      ensures St() == old(St()).(resting := AdjustedAll(id, t, old(resting)))
    {
      ghost var rs := resting;
      for k := 0 to |clear|
        invariant St() == old(St()).(resting := resting) && |resting| == |rs|
        invariant forall i :: 0 <= i < |rs| ==> resting[i] == Cleared(rs[i], i in clear[..k])
      {
        var i := clear[k];
        assert i in clear;
        resting := resting[i := resting[i].(pendingOpen := false)];
        assert clear[..k + 1] == clear[..k] + [i];
      }
      assert clear[..|clear|] == clear;
      ghost var cleared := resting;
      for k := 0 to |activate|
        invariant St() == old(St()).(resting := resting) && |resting| == |rs|
        invariant forall i :: 0 <= i < |rs| ==> resting[i] == Activated(cleared[i], i in activate[..k])
      {
        var i := activate[k];
        assert i in activate;
        resting := resting[i := resting[i].(order := resting[i].order.(kind := Limit))];
        assert activate[..k + 1] == activate[..k] + [i];
      }
      assert activate[..|activate|] == activate;
      ghost var activated := resting;
      assert forall i :: 0 <= i < |rs| && Among(trail, |trail|, i) ==> activated[i] == rs[i];
      for k := 0 to |trail|
        invariant St() == old(St()).(resting := resting) && |resting| == |rs|
        invariant forall i :: 0 <= i < |rs| && !Among(trail, k, i) ==> resting[i] == activated[i]
        invariant forall i :: 0 <= i < |rs| && Among(trail, k, i) ==> resting[i] == Adjusted(rs[i], t)
      {
        var (i, extreme, trigger) := trail[k];
        assert forall j :: Among(trail, k + 1, j) <==> Among(trail, k, j) || j == i;
        assert Trailed(rs[i], extreme, trigger) == Adjusted(rs[i], t);
        if !Among(trail, k, i) {
          assert Among(trail, |trail|, i);
        }
        resting := resting[i := Trailed(resting[i], extreme, trigger)];
      }
      assert resting == AdjustedAll(id, t, rs);
    }

    method OnMarket(now: Time, view: View, ev: Event)
      modifies this
      ensures St() == Venue.OnMarket(model, old(St()), now, view, ev)
    {
      var tick := TickOf(ev);
      if ev.inst !in view.instruments || tick.None? {
        return;
      }
      var id, inst, t := ev.inst, view.instruments[ev.inst], tick.value;
      ghost var s := St();
      var decisions, clear, activate, trail := DecideAll(id, inst.lot, t);
      WriteBack(id, t, clear, activate, trail);
      WholeBookRefines(model, s, now, id, inst, t);
      var gone := ScheduleFills(now, inst, decisions);
      RemoveExhausted(gone);
    }

    /** Schedule the decided fills and note what they exhausted. */
    method ScheduleFills(now: Time, inst: Instrument, decisions: seq<Pending>) returns (gone: seq<nat>)
      requires forall k :: 0 <= k < |decisions| ==> decisions[k].index < |resting|
      modifies this
      ensures Book(St(), gone) == Schedule(model, Book(old(St()), []), now, inst, decisions)
    {
      ghost var b0 := Book(St(), []);
      gone := [];
      for k := 0 to |decisions|
        invariant Book(St(), gone) == Schedule(model, b0, now, inst, decisions[..k])
      {
        var p := decisions[k];
        ghost var b := Book(St(), gone);
        if p.d.qty > 0 {
          var at := Later(now, model.submitLatency);
          tradeSeq := tradeSeq + 1;
          var o, d := p.r.order, p.d;
          Push(at, Report.Filled(Fill(tradeSeq, o.id, p.r.venueOrder, o.inst, o.side, d.px, d.qty,
                                      Fee(inst, d.px, d.qty, d.liquidity), d.liquidity, at)));
        }
        assert St() == Emit(model, b.st, now, inst, p.r, p.d);
        var r := Settled(resting[p.index], p.d);
        resting := resting[p.index := r];
        if r.remaining == 0 {
          gone := gone + [p.index];
        }
        ScheduleSnoc(model, b0, now, inst, decisions[..k], p);
        assert decisions[..k + 1] == decisions[..k] + [p];
      }
      assert decisions[..|decisions|] == decisions;
    }

    /** Drop the exhausted entries, highest index first so that the others stay valid. */
    method RemoveExhausted(gone: seq<nat>)
      requires Ascending(gone, |resting|)
      modifies this
      ensures St() == old(St()).(resting := RemoveAll(old(resting), gone))
    {
      var j := |gone|;
      assert gone[..j] == gone;
      while j > 0
        invariant 0 <= j <= |gone| && Ascending(gone[..j], |resting|)
        invariant St() == old(St()).(resting := resting)
        invariant RemoveAll(resting, gone[..j]) == RemoveAll(old(resting), gone)
      {
        j := j - 1;
        var i := gone[j];
        assert gone[..j + 1][..j] == gone[..j];
        resting := resting[..i] + resting[i + 1..];
      }
    }
  }
}
