/** The vectorised mark-to-market of a position series, the cash-and-position ledger rebuilt from a
    fill log, and the snapping of fills to the bar grid that connects them. Floats are reals. */
module Ledger {
  import opened Money
  import opened Fifo
  import D = Domain
  import Screen

  datatype Bar = Bar(ts: int, close: real)

  type Curve = seq<(int, real)>

  // --- snapping to the grid -------------------------------------------------------------------

  ghost predicate Sorted(xs: seq<int>) { forall i, j :: 0 <= i < j < |xs| ==> xs[i] <= xs[j] }

  /** `searchsorted`: the number of elements below `t`. */
  function SearchSorted(xs: seq<int>, t: int): (i: nat)
    requires Sorted(xs)
    ensures i <= |xs|
    ensures forall k :: 0 <= k < i ==> xs[k] < t
    ensures forall k :: i <= k < |xs| ==> t <= xs[k]
  {
    if xs == [] || xs[|xs| - 1] < t then |xs| else SearchSorted(xs[..|xs| - 1], t)
  }

  function Sort(xs: seq<int>): (r: seq<int>)
    ensures Sorted(r) && |r| == |xs|
    ensures forall x :: x in r <==> x in xs
  {
    if xs == [] then [] else
      var x, r := xs[|xs| - 1], Sort(xs[..|xs| - 1]);
      var i := SearchSorted(r, x);
      assert xs == xs[..|xs| - 1] + [x];
      assert r == r[..i] + r[i..];
      r[..i] + [x] + r[i..]
  }

  function Distance(a: int, b: int): nat { if a < b then b - a else a - b }

  /** `g` is the grid point closest to `t`; of two equally close ones it is the earlier. */
  ghost predicate Nearest(grid: seq<int>, t: int, g: int) {
    && g in grid
    && forall h :: h in grid ==> Distance(t, g) < Distance(t, h) || (Distance(t, g) == Distance(t, h) && g <= h)
  }

  /** Snapping one timestamp: unchanged when there is no grid, otherwise the nearest grid point. In
      particular the identity on grid points. */
  ghost predicate SnapsTo(grid: seq<int>, t: int, g: int) {
    if grid == [] then g == t else Nearest(grid, t, g)
  }

  ghost predicate Snapped(grid: seq<int>, fills: seq<Fill>, out: seq<Fill>) {
    && |out| == |fills|
    && forall i :: 0 <= i < |fills| ==> SnapsTo(grid, fills[i].ts, out[i].ts) && out[i] == fills[i].(ts := out[i].ts)
  }

  /** One candidate search: the neighbours of the insertion point, the left one first. */
  method SnapOne(bt: seq<int>, ts: int) returns (snapped: int)
    requires Sorted(bt)
    ensures SnapsTo(bt, ts, snapped)
  {
    var i := SearchSorted(bt, ts);
    if i > 0 && (i == |bt| || Distance(bt[i - 1], ts) <= Distance(bt[i], ts)) {
      snapped := bt[i - 1];
    } else if i < |bt| {
      snapped := bt[i];
    } else {
      snapped := ts;
    }
    forall h | h in bt
      ensures Distance(ts, snapped) < Distance(ts, h) || (Distance(ts, snapped) == Distance(ts, h) && snapped <= h)
    {
      var k :| 0 <= k < |bt| && bt[k] == h;
      assert k < i ==> bt[k] <= bt[i - 1];
      assert k >= i ==> bt[i] <= bt[k];
    }
  }

  lemma SameGrid(a: seq<int>, b: seq<int>, t: int, g: int)
    requires |a| == |b| && forall x :: x in a <==> x in b
    ensures SnapsTo(a, t, g) <==> SnapsTo(b, t, g)
  {
  }

  method SnapFillsToGrid(fills: seq<Fill>, grid: seq<int>) returns (out: seq<Fill>)
    ensures Snapped(grid, fills, out)
  {
    hide SnapsTo, Sort;
    var bt := Sort(grid);
    out := [];
    for i := 0 to |fills|
      invariant Snapped(grid, fills[..i], out)
    {
      var ts := SnapOne(bt, fills[i].ts);
      SameGrid(bt, grid, fills[i].ts, ts);
      out := out + [fills[i].(ts := ts)];
    }
    assert fills[..|fills|] == fills;
  }

  /** Snapping has one outcome, and fills that lie on the grid do not move. */
  lemma SnapDetermined(grid: seq<int>, fills: seq<Fill>, out: seq<Fill>, other: seq<Fill>)
    requires Snapped(grid, fills, out)
    ensures Snapped(grid, fills, other) ==> other == out
    ensures (forall i :: 0 <= i < |fills| ==> fills[i].ts in grid) ==> out == fills
  {
    if forall i :: 0 <= i < |fills| ==> fills[i].ts in grid {
      forall i | 0 <= i < |fills|
        ensures out[i] == fills[i]
      {
        assert Distance(fills[i].ts, fills[i].ts) == 0;
      }
    }
  }

  // --- the ledger -----------------------------------------------------------------------------

  /** The fills stamped `t`, in order. */
  function At(fs: seq<Fill>, t: int): seq<Fill> {
    if fs == [] then [] else
      At(fs[..|fs| - 1], t) + (if fs[|fs| - 1].ts == t then [fs[|fs| - 1]] else [])
  }

  /** Everything the ledger has applied once bar `k - 1` is done. */
  function Applied(fs: seq<Fill>, bars: seq<Bar>, k: nat): seq<Fill>
    requires k <= |bars|
  {
    if k == 0 then [] else Applied(fs, bars, k - 1) + At(fs, bars[k - 1].ts)
  }

  /** Cash and mark-to-market worth of a fill history. */
  function Cash(start: real, fee: real, fs: seq<Fill>): real { start + CashFlow(fs) - Times(fee, Turnover(fs)) }
  function Worth(start: real, fee: real, fs: seq<Fill>, px: real): real { Cash(start, fee, fs) + Times(px, Net(fs)) }

  function LedgerCurve(fs: seq<Fill>, bars: seq<Bar>, start: real, fee: real): (c: Curve)
    ensures |c| == |bars|
  {
    seq(|bars|, i requires 0 <= i < |bars| =>
      (bars[i].ts, Worth(start, fee, Applied(fs, bars, i + 1), bars[i].close)))
  }

  function Stamps(bars: seq<Bar>): (ts: seq<int>)
    ensures |ts| == |bars|
  {
    seq(|bars|, i requires 0 <= i < |bars| => bars[i].ts)
  }

  lemma HistorySnoc(fs: seq<Fill>, f: Fill, start: real, fee: real)
    ensures Net(fs + [f]) == Net(fs) + Toward(f.side, f.qty)
    ensures Cash(start, fee, fs + [f])
         == Cash(start, fee, fs) - Toward(f.side, Times(f.px, f.qty)) - Times(fee, Times(f.px, f.qty))
  {
    hide Times;
    assert (fs + [f])[..|fs|] == fs;
    TimesAdds(fee, Turnover(fs), Times(f.px, f.qty));
  }

  lemma LedgerAt(fs: seq<Fill>, bars: seq<Bar>, start: real, fee: real, i: nat)
    requires i < |bars|
    ensures var past := Applied(fs, bars, i + 1);
      && past == Applied(fs, bars, i) + At(fs, bars[i].ts)
      && LedgerCurve(fs, bars, start, fee)[i] == (bars[i].ts, Cash(start, fee, past) + Times(bars[i].close, Net(past)))
  {
  }

  lemma LedgerWorth(fs: seq<Fill>, bars: seq<Bar>, start: real, fee: real, i: nat)
    requires i < |bars|
    ensures LedgerCurve(fs, bars, start, fee)[i]
        == (bars[i].ts, Worth(start, fee, Applied(fs, bars, i + 1), bars[i].close))
  {
  }

  lemma NothingApplied(fs: seq<Fill>, bars: seq<Bar>, start: real, fee: real)
    ensures Cash(start, fee, Applied(fs, bars, 0)) == start && Net(Applied(fs, bars, 0)) == 0.0
  {
    TimesAdds(fee, 0.0, 0.0);
  }

  lemma AtSnoc(fs: seq<Fill>, f: Fill, t: int)
    ensures At(fs + [f], t) == At(fs, t) + if f.ts == t then [f] else []
  {
    assert (fs + [f])[..|fs|] == fs;
  }

  /** `by_ts.get(t, ())`. */
  function Under(byTs: map<int, seq<Fill>>, t: int): seq<Fill> { if t in byTs then byTs[t] else [] }

  lemma UnderSnoc(byTs: map<int, seq<Fill>>, f: Fill, t: int)
    ensures Under(byTs[f.ts := Under(byTs, f.ts) + [f]], t) == Under(byTs, t) + if f.ts == t then [f] else []
  {
  }

  /** The dictionary of fills by timestamp. */
  method Bucket(fills: seq<Fill>) returns (byTs: map<int, seq<Fill>>)
    ensures forall t :: Under(byTs, t) == At(fills, t)
  {
    byTs := map[];
    for i := 0 to |fills|
      invariant forall t :: Under(byTs, t) == At(fills[..i], t)
    {
      hide At, Under;
      var f := fills[i];
      ghost var before := byTs;
      assert fills[..i] + [f] == fills[..i + 1];
      byTs := byTs[f.ts := Under(byTs, f.ts) + [f]];
      forall t
        ensures Under(byTs, t) == At(fills[..i + 1], t)
      {
        UnderSnoc(before, f, t);
        AtSnoc(fills[..i], f, t);
      }
    }
    assert fills[..|fills|] == fills;
  }

  /** The cash and position loop over the fills of one bar. */
  method ApplyBar(todo: seq<Fill>, fee: real, cash0: real, pos0: real, ghost past: seq<Fill>, ghost start: real)
    returns (cash: real, pos: real)
    requires cash0 == Cash(start, fee, past) && pos0 == Net(past)
    ensures cash == Cash(start, fee, past + todo) && pos == Net(past + todo)
  {
    hide Times, Cash;
    cash, pos := cash0, pos0;
    assert past + todo[..0] == past;
    for i := 0 to |todo|
      invariant cash == Cash(start, fee, past + todo[..i]) && pos == Net(past + todo[..i])
    {
      var f := todo[i];
      var notional := Times(f.px, f.qty);
      var paid := Times(fee, notional);
      HistorySnoc(past + todo[..i], f, start, fee);
      assert past + todo[..i] + [f] == past + todo[..i + 1];
      if f.side.Buy? {
        cash, pos := cash - (notional + paid), pos + f.qty;
      } else {
        cash, pos := cash + (notional - paid), pos - f.qty;
      }
    }
    assert todo[..|todo|] == todo;
  }

  method FromFillsAndBars(fills: seq<Fill>, bars: seq<Bar>, start: real, fee: real)
    returns (curve: Curve, snapped: seq<Fill>)
    ensures Snapped(Stamps(bars), fills, snapped)
    ensures curve == LedgerCurve(snapped, bars, start, fee)
  {
    hide *;
    snapped := SnapFillsToGrid(fills, Stamps(bars));
    var byTs := Bucket(snapped);
    var cash, pos := start, 0.0;
    NothingApplied(snapped, bars, start, fee);
    curve := [];
    for i := 0 to |bars|
      invariant cash == Cash(start, fee, Applied(snapped, bars, i)) && pos == Net(Applied(snapped, bars, i))
      invariant curve == LedgerCurve(snapped, bars, start, fee)[..i]
    {
      LedgerAt(snapped, bars, start, fee, i);
      var todo := Under(byTs, bars[i].ts);
      cash, pos := ApplyBar(todo, fee, cash, pos, Applied(snapped, bars, i), start);
      curve := curve + [(bars[i].ts, cash + Times(bars[i].close, pos))];
    }
  }

  // --- the vectorised form --------------------------------------------------------------------

  /** How far `exec_lag` moves the targets; a negative lag slices from the end of the array. */
  function Shift(n: nat, lag: int): nat { if lag >= 0 then lag else if n + lag >= 0 then n + lag else 0 }

  function Lagged(pos: seq<real>, lag: int): (r: seq<real>)
    ensures |r| == |pos|
  {
    var k := Shift(|pos|, lag);
    seq(|pos|, i requires 0 <= i < |pos| => if i < k then 0.0 else pos[i - k])
  }

  function Changes(pos: seq<real>): (d: seq<real>)
    ensures |d| == |pos|
  {
    seq(|pos|, i requires 0 <= i < |pos| => if i == 0 then pos[0] else pos[i] - pos[i - 1])
  }

  function HoldingPnl(bars: seq<Bar>, pos: seq<real>): (r: seq<real>)
    requires |pos| == |bars|
    ensures |r| == |bars|
  {
    seq(|bars|, i requires 0 <= i < |bars| =>
      if i == 0 then 0.0 else Times(bars[i].close - bars[i - 1].close, pos[i - 1]))
  }

  function ChangeFees(bars: seq<Bar>, d: seq<real>, fee: real): (r: seq<real>)
    requires |d| == |bars|
    ensures |r| == |bars|
  {
    seq(|bars|, i requires 0 <= i < |bars| => Times(fee, Times(bars[i].close, AbsR(d[i]))))
  }

  function VectorEquity(bars: seq<Bar>, pos: seq<real>, start: real, fee: real): (e: seq<real>)
    requires |pos| == |bars|
    ensures |e| == |bars|
  {
    var pnl, fees := Screen.CumSum(HoldingPnl(bars, pos)), Screen.CumSum(ChangeFees(bars, Changes(pos), fee));
    seq(|bars|, i requires 0 <= i < |bars| => start + pnl[i + 1] - fees[i + 1])
  }

  function ChangeFill(b: Bar, d: real): (f: Fill)
    ensures f.ts == b.ts
  {
    Fill(b.ts, if d > 0.0 then D.Buy else D.Sell, AbsR(d), b.close)
  }

  function ChangeFills(bars: seq<Bar>, d: seq<real>): seq<Fill>
    requires |d| == |bars|
  {
    if bars == [] then [] else
      var n := |bars| - 1;
      ChangeFills(bars[..n], d[..n]) + (if d[n] == 0.0 then [] else [ChangeFill(bars[n], d[n])])
  }

  datatype VectorResult = VectorResult(curve: Curve, fills: seq<Fill>, final: real, totalReturn: real)

  /** Absent when the series have different lengths; an empty series of bars is answered first. */
  function VectorBacktest(bars: seq<Bar>, positions: seq<real>, start: real, fee: real,
      lag: int): D.Option<VectorResult> {
    if bars == [] then D.Some(VectorResult([], [], start, 0.0))
    else if |positions| != |bars| then D.None
    else
      var pos := Lagged(positions, lag);
      var e := VectorEquity(bars, pos, start, fee);
      var final := e[|bars| - 1];
      D.Some(VectorResult(
        seq(|bars|, i requires 0 <= i < |bars| => (bars[i].ts, e[i])),
        ChangeFills(bars, Changes(pos)), final,
        if start == 0.0 then 0.0 else final / start - 1.0))
  }

  // --- summation by parts ---------------------------------------------------------------------

  lemma {:induction false} CumSumPrefix(xs: seq<real>, k: nat)
    requires k <= |xs|
    ensures Screen.CumSum(xs)[k] == Screen.CumSum(xs[..k])[k]
    ensures k < |xs| ==> Screen.CumSum(xs)[k + 1] == Screen.CumSum(xs)[k] + xs[k]
    decreases |xs|
  {
    if k == |xs| {
      assert xs[..k] == xs;
    } else if k == |xs| - 1 {
      CumSumPrefix(xs[..k], k);
    } else {
      var ys := xs[..|xs| - 1];
      CumSumPrefix(ys, k);
      assert ys[..k] == xs[..k] && ys[k] == xs[k];
    }
  }

  /** One bar of the fills. */
  lemma ChangeStep(fs: seq<Fill>, b: Bar, d: real, start: real, fee: real)
    ensures var fs' := fs + (if d == 0.0 then [] else [ChangeFill(b, d)]);
      && Net(fs') == Net(fs) + d
      && Cash(start, fee, fs') == Cash(start, fee, fs) - Times(b.close, d) - Times(fee, Times(b.close, AbsR(d)))
  {
    hide Times, Cash;
    if d == 0.0 {
      assert fs + [] == fs;
      TimesAdds(b.close, 0.0, 0.0);
      TimesAdds(fee, 0.0, 0.0);
    } else {
      HistorySnoc(fs, ChangeFill(b, d), start, fee);
      TimesNegates(b.close, d);
    }
  }

  function FirstFills(bars: seq<Bar>, pos: seq<real>, k: nat): seq<Fill>
    requires |pos| == |bars| && k <= |bars|
  {
    ChangeFills(bars[..k], Changes(pos)[..k])
  }

  function FillAt(bars: seq<Bar>, pos: seq<real>, i: nat): seq<Fill>
    requires |pos| == |bars| && i < |bars|
  {
    if Changes(pos)[i] == 0.0 then [] else [ChangeFill(bars[i], Changes(pos)[i])]
  }

  lemma FirstFillsSnoc(bars: seq<Bar>, pos: seq<real>, k: nat)
    requires |pos| == |bars| && k < |bars|
    ensures FirstFills(bars, pos, k + 1) == FirstFills(bars, pos, k) + FillAt(bars, pos, k)
  {
    var d := Changes(pos);
    assert bars[..k + 1][..k] == bars[..k] && d[..k + 1][..k] == d[..k];
  }

  /** The vectorised curve, one bar at a time. */
  lemma VectorStep(bars: seq<Bar>, pos: seq<real>, start: real, fee: real, i: nat)
    requires |pos| == |bars| && i < |bars|
    ensures var e, paid := VectorEquity(bars, pos, start, fee), Times(fee, Times(bars[i].close, AbsR(Changes(pos)[i])));
      e[i] == if i == 0 then start - paid
              else e[i - 1] + Times(bars[i].close - bars[i - 1].close, pos[i - 1]) - paid
  {
    hide Times, Changes, Screen.CumSum;
    var pnl, fees := HoldingPnl(bars, pos), ChangeFees(bars, Changes(pos), fee);
    CumSumPrefix(pnl, i);
    CumSumPrefix(fees, i);
  }

  /** Cumulative PnL of held positions is the worth of the fills that opened and closed them. */
  lemma {:induction false} SummationByParts(bars: seq<Bar>, pos: seq<real>, start: real, fee: real, i: nat)
    requires |pos| == |bars| && i < |bars|
    ensures var fs := FirstFills(bars, pos, i + 1);
      Net(fs) == pos[i] && VectorEquity(bars, pos, start, fee)[i] == Worth(start, fee, fs, bars[i].close)
  {
    hide Times, Cash, ChangeFills, FirstFills, VectorEquity, ChangeFill, Net, AbsR;
    var d, before := Changes(pos)[i], FirstFills(bars, pos, i);
    FirstFillsSnoc(bars, pos, i);
    ChangeStep(before, bars[i], d, start, fee);
    VectorStep(bars, pos, start, fee, i);
    if i == 0 {
      NothingYet(bars, pos, start, fee);
    } else {
      SummationByParts(bars, pos, start, fee, i - 1);
      TimesAddsPx(bars[i].close - bars[i - 1].close, bars[i - 1].close, pos[i - 1]);
      TimesAdds(bars[i].close, pos[i - 1], d);
    }
  }

  lemma NothingYet(bars: seq<Bar>, pos: seq<real>, start: real, fee: real)
    requires |pos| == |bars|
    ensures Net(FirstFills(bars, pos, 0)) == 0.0 && Cash(start, fee, FirstFills(bars, pos, 0)) == start
  {
    TimesAdds(fee, 0.0, 0.0);
  }

  // --- when the ledger sees each fill once ------------------------------------------------------

  /** No bar that trades shares its timestamp with another bar. */
  ghost predicate TradesAlone(ts: seq<int>, pos: seq<real>)
    requires |ts| == |pos|
  {
    forall i, j :: 0 <= i < |ts| && 0 <= j < |ts| && i != j && ts[i] == ts[j] ==> Changes(pos)[i] == 0.0
  }

  lemma NothingAt(t: int)
    ensures At([], t) == []
  {
  }

  lemma NoFillsYet(bars: seq<Bar>, pos: seq<real>)
    requires |pos| == |bars|
    ensures FirstFills(bars, pos, 0) == []
  {
  }

  /** Every other bar with the timestamp of bar `j` is idle. */
  ghost predicate Alone(bars: seq<Bar>, pos: seq<real>, j: nat)
    requires |pos| == |bars| && j < |bars|
  {
    forall i :: 0 <= i < |bars| && i != j && bars[i].ts == bars[j].ts ==> Changes(pos)[i] == 0.0
  }

  lemma FillAtStamp(fs: seq<Fill>, bars: seq<Bar>, pos: seq<real>, i: nat, j: nat)
    requires |pos| == |bars| && i < |bars| && j < |bars| && Alone(bars, pos, j)
    ensures var before, now := At(fs, bars[j].ts), At(fs + FillAt(bars, pos, i), bars[j].ts);
      (i != j ==> now == before) && (i == j && before == [] ==> now == FillAt(bars, pos, j))
  {
    hide At, Changes, ChangeFill;
    if FillAt(bars, pos, i) == [] {
      assert fs + [] == fs;
    } else {
      AtSnoc(fs, ChangeFill(bars[i], Changes(pos)[i]), bars[j].ts);
    }
  }

  /** The fills of the first `k` bars that are stamped like bar `j`: those of bar `j`. */
  lemma {:induction false} AtOfFills(bars: seq<Bar>, pos: seq<real>, k: nat, j: nat)
    requires |pos| == |bars| && k <= |bars| && j < |bars| && Alone(bars, pos, j)
    ensures At(FirstFills(bars, pos, k), bars[j].ts) == if j < k then FillAt(bars, pos, j) else []
  {
    hide *;
    if k == 0 {
      NoFillsYet(bars, pos);
      NothingAt(bars[j].ts);
    } else {
      FirstFillsSnoc(bars, pos, k - 1);
      AtOfFills(bars, pos, k - 1, j);
      FillAtStamp(FirstFills(bars, pos, k - 1), bars, pos, k - 1, j);
    }
  }

  lemma AloneAt(bars: seq<Bar>, pos: seq<real>, j: nat)
    requires |pos| == |bars| && j < |bars| && TradesAlone(Stamps(bars), pos)
    ensures Alone(bars, pos, j)
  {
    forall i | 0 <= i < |bars| && i != j && bars[i].ts == bars[j].ts
      ensures Changes(pos)[i] == 0.0
    {
      assert Stamps(bars)[i] == Stamps(bars)[j];
    }
  }

  lemma {:induction false} AppliedIsFirst(bars: seq<Bar>, pos: seq<real>, k: nat)
    requires |pos| == |bars| && k <= |bars| && TradesAlone(Stamps(bars), pos)
    ensures Applied(FirstFills(bars, pos, |bars|), bars, k) == FirstFills(bars, pos, k)
  {
    hide Changes, FillAt, FirstFills, At, Alone, TradesAlone, Stamps;
    if k == 0 {
      NoFillsYet(bars, pos);
    } else {
      AppliedIsFirst(bars, pos, k - 1);
      FirstFillsSnoc(bars, pos, k - 1);
      AloneAt(bars, pos, k - 1);
      AtOfFills(bars, pos, |bars|, k - 1);
    }
  }

  lemma {:induction false} FillsOnGrid(bars: seq<Bar>, d: seq<real>, i: nat)
    requires |d| == |bars| && i < |ChangeFills(bars, d)|
    ensures ChangeFills(bars, d)[i].ts in Stamps(bars)
  {
    var n := |bars| - 1;
    if i < |ChangeFills(bars[..n], d[..n])| {
      FillsOnGrid(bars[..n], d[..n], i);
      assert Stamps(bars[..n]) == Stamps(bars)[..n];
    } else {
      assert ChangeFills(bars, d)[i].ts == Stamps(bars)[n];
    }
  }

  /** Snapping leaves the synthesised fills alone. */
  lemma SnapKeepsVectorFills(bars: seq<Bar>, positions: seq<real>, start: real, fee: real, lag: int, out: seq<Fill>)
    requires VectorBacktest(bars, positions, start, fee, lag).Some?
    requires Snapped(Stamps(bars), VectorBacktest(bars, positions, start, fee, lag).value.fills, out)
    ensures out == VectorBacktest(bars, positions, start, fee, lag).value.fills
  {
    hide Times, VectorEquity, Lagged, Changes, ChangeFills, Stamps;
    var fs := VectorBacktest(bars, positions, start, fee, lag).value.fills;
    if bars != [] {
      forall i | 0 <= i < |fs|
        ensures fs[i].ts in Stamps(bars)
      {
        FillsOnGrid(bars, Changes(Lagged(positions, lag)), i);
      }
    }
    SnapDetermined(Stamps(bars), fs, out, out);
  }

  /** The vectorised curve is the curve the ledger rebuilds from the synthesised fills. */
  ghost predicate Agrees(bars: seq<Bar>, positions: seq<real>, start: real, fee: real, lag: int) {
    var r := VectorBacktest(bars, positions, start, fee, lag);
    r.Some? && LedgerCurve(r.value.fills, bars, start, fee) == r.value.curve
  }

  lemma VectorAt(bars: seq<Bar>, positions: seq<real>, start: real, fee: real, lag: int, i: nat)
    requires |positions| == |bars| && i < |bars|
    ensures var r, pos := VectorBacktest(bars, positions, start, fee, lag), Lagged(positions, lag);
      && r.Some? && r.value.fills == FirstFills(bars, pos, |bars|) && |r.value.curve| == |bars|
      && r.value.curve[i] == (bars[i].ts, Worth(start, fee, FirstFills(bars, pos, i + 1), bars[i].close))
  {
    hide Times, Worth, VectorEquity, Lagged, Changes, ChangeFills;
    var pos := Lagged(positions, lag);
    SummationByParts(bars, pos, start, fee, i);
    assert bars[..|bars|] == bars && Changes(pos)[..|bars|] == Changes(pos);
  }

  lemma CurvesMatchAt(bars: seq<Bar>, positions: seq<real>, start: real, fee: real, lag: int, i: nat)
    requires |positions| == |bars| && TradesAlone(Stamps(bars), Lagged(positions, lag)) && i < |bars|
    ensures var r := VectorBacktest(bars, positions, start, fee, lag);
      && r.Some? && |r.value.curve| == |bars|
      && LedgerCurve(r.value.fills, bars, start, fee)[i] == r.value.curve[i]
  {
    hide *;
    VectorAt(bars, positions, start, fee, lag, i);
    AppliedIsFirst(bars, Lagged(positions, lag), i + 1);
    LedgerWorth(VectorBacktest(bars, positions, start, fee, lag).value.fills, bars, start, fee, i);
  }

  lemma VectorEqualsLedger(bars: seq<Bar>, positions: seq<real>, start: real, fee: real, lag: int)
    requires |positions| == |bars| && TradesAlone(Stamps(bars), Lagged(positions, lag))
    ensures Agrees(bars, positions, start, fee, lag)
  {
    if bars != [] {
      hide LedgerCurve, VectorBacktest, TradesAlone, Lagged, Stamps;
      CurvesMatchAt(bars, positions, start, fee, lag, 0);
      var r := VectorBacktest(bars, positions, start, fee, lag).value;
      var curve := LedgerCurve(r.fills, bars, start, fee);
      forall i | 0 <= i < |bars|
        ensures curve[i] == r.curve[i]
      {
        CurvesMatchAt(bars, positions, start, fee, lag, i);
      }
      assert curve == r.curve;
    }
  }

  /** Strictly increasing timestamps, the documented shape of a bar series, never share. */
  lemma IncreasingTradesAlone(ts: seq<int>, pos: seq<real>)
    requires |ts| == |pos| && forall i, j :: 0 <= i < j < |ts| ==> ts[i] < ts[j]
    ensures TradesAlone(ts, pos)
  {
    forall i, j | 0 <= i < |ts| && 0 <= j < |ts| && i != j
      ensures ts[i] != ts[j]
    {
      assert if i < j then ts[i] < ts[j] else ts[j] < ts[i];
    }
  }

  // --- and only then ----------------------------------------------------------------------------

  function Occurs(bars: seq<Bar>, k: nat, t: int): nat
    requires k <= |bars|
  {
    if k == 0 then 0 else Occurs(bars, k - 1, t) + if bars[k - 1].ts == t then 1 else 0
  }

  lemma {:induction false} OccursAtLeast(bars: seq<Bar>, k: nat, i: nat, j: nat)
    requires i <= j < k <= |bars| && bars[i].ts == bars[j].ts
    ensures Occurs(bars, k, bars[i].ts) >= if i < j then 2 else 1
  {
    if j < k - 1 {
      OccursAtLeast(bars, k - 1, i, j);
    } else if i < j {
      OccursAtLeast(bars, k - 1, i, i);
    }
  }

  lemma {:induction false} TurnoverAppend(a: seq<Fill>, b: seq<Fill>)
    ensures Turnover(a + b) == Turnover(a) + Turnover(b)
  {
    hide Times;
    if b == [] {
      assert a + b == a;
    } else {
      assert (a + b)[..|a + b| - 1] == a + b[..|b| - 1];
      TurnoverAppend(a, b[..|b| - 1]);
    }
  }

  /** The ledger applies a fill once for every bar that carries its timestamp. */
  lemma {:induction false} AppliedOften(fs: seq<Fill>, f: Fill, bars: seq<Bar>, k: nat)
    requires k <= |bars|
    ensures Turnover(Applied(fs + [f], bars, k))
         == Turnover(Applied(fs, bars, k)) + Times(Occurs(bars, k, f.ts) as real, Times(f.px, f.qty))
  {
    hide Times, Turnover, At;
    var paid := Times(f.px, f.qty);
    TimesAddsPx(0.0, 0.0, paid);
    if k == 0 {
      assert Applied(fs + [f], bars, 0) == Applied(fs, bars, 0);
    } else {
      var t := bars[k - 1].ts;
      AppliedOften(fs, f, bars, k - 1);
      var more := if f.ts == t then [f] else [];
      AtSnoc(fs, f, t);
      TurnoverAppend(Applied(fs + [f], bars, k - 1), At(fs + [f], t));
      TurnoverAppend(Applied(fs, bars, k - 1), At(fs, t));
      TurnoverAppend(At(fs, t), more);
      TurnoverOf(f);
      TimesAddsPx(Occurs(bars, k - 1, f.ts) as real, 1.0, paid);
    }
  }

  lemma TurnoverOf(f: Fill)
    ensures Turnover([]) == 0.0 && Turnover([f]) == Times(f.px, f.qty) == Times(1.0, Times(f.px, f.qty))
  {
    assert [f][..0] == [];
  }

  ghost predicate UnitFills(fs: seq<Fill>) { forall i :: 0 <= i < |fs| ==> fs[i].px == 1.0 && fs[i].qty > 0.0 }

  ghost predicate OnGrid(fs: seq<Fill>, bars: seq<Bar>) {
    forall i :: 0 <= i < |fs| ==> Occurs(bars, |bars|, fs[i].ts) >= 1
  }

  lemma WeightAtLeast(n: nat, x: real)
    requires n >= 1 && x > 0.0
    ensures Times(n as real, x) >= x && (n >= 2 ==> Times(n as real, x) > x)
  {
  }

  lemma {:induction false} DuplicatesCostMore(fs: seq<Fill>, bars: seq<Bar>)
    requires UnitFills(fs) && OnGrid(fs, bars)
    ensures Turnover(Applied(fs, bars, |bars|)) >= Turnover(fs)
    ensures (exists i :: 0 <= i < |fs| && Occurs(bars, |bars|, fs[i].ts) >= 2) ==>
      Turnover(Applied(fs, bars, |bars|)) > Turnover(fs)
  {
    if fs == [] {
      NothingOften(bars, |bars|);
    } else {
      var n := |fs| - 1;
      var f := fs[n];
      UnitNotional(f);
      DuplicatesCostMore(fs[..n], bars);
      assert fs[..n] + [f] == fs;
      AppliedOften(fs[..n], f, bars, |bars|);
      WeightAtLeast(Occurs(bars, |bars|, f.ts), Times(f.px, f.qty));
      if i :| 0 <= i < |fs| && Occurs(bars, |bars|, fs[i].ts) >= 2 && i < n {
        assert fs[..n][i] == fs[i];
      }
    }
  }

  lemma UnitNotional(f: Fill)
    requires f.px == 1.0
    ensures Times(f.px, f.qty) == f.qty
  {
  }

  lemma {:induction false} NothingOften(bars: seq<Bar>, k: nat)
    requires k <= |bars|
    ensures Applied([], bars, k) == []
  {
    if k > 0 {
      NothingOften(bars, k - 1);
    }
  }

  /** At a constant price of one, worth is the start less the fee on the turnover. */
  lemma {:induction false} UnitWorth(fs: seq<Fill>, start: real)
    requires UnitFills(fs)
    ensures CashFlow(fs) == -Net(fs) && Worth(start, 1.0, fs, 1.0) == start - Turnover(fs)
  {
    if fs != [] {
      UnitWorth(fs[..|fs| - 1], start);
      UnitNotional(fs[|fs| - 1]);
    }
  }

  function UnitBars(ts: seq<int>): (bars: seq<Bar>)
    ensures |bars| == |ts| && Stamps(bars) == ts
  {
    seq(|ts|, i requires 0 <= i < |ts| => Bar(ts[i], 1.0))
  }

  lemma {:induction false} UnitChangeFills(ts: seq<int>, pos: seq<real>, k: nat)
    requires |pos| == |ts| && k <= |ts|
    ensures UnitFills(FirstFills(UnitBars(ts), pos, k)) && OnGrid(FirstFills(UnitBars(ts), pos, k), UnitBars(ts))
    ensures forall i :: 0 <= i < k && Changes(pos)[i] != 0.0 ==>
      exists m :: 0 <= m < |FirstFills(UnitBars(ts), pos, k)| && FirstFills(UnitBars(ts), pos, k)[m].ts == ts[i]
  {
    var bars := UnitBars(ts);
    if k == 0 {
      assert FirstFills(bars, pos, 0) == [];
    } else {
      hide FirstFills, Changes;
      UnitChangeFills(ts, pos, k - 1);
      FirstFillsSnoc(bars, pos, k - 1);
      OccursAtLeast(bars, |ts|, k - 1, k - 1);
      var fs, fs' := FirstFills(bars, pos, k - 1), FirstFills(bars, pos, k);
      forall i | 0 <= i < k && Changes(pos)[i] != 0.0
        ensures exists m :: 0 <= m < |fs'| && fs'[m].ts == ts[i]
      {
        if i < k - 1 {
          var m :| 0 <= m < |fs| && fs[m].ts == ts[i];
          assert fs'[m].ts == ts[i];
        } else {
          assert fs'[|fs|].ts == ts[i];
        }
      }
    }
  }

  lemma {:induction false} AppliedUnit(fs: seq<Fill>, bars: seq<Bar>, k: nat)
    requires UnitFills(fs) && k <= |bars|
    ensures UnitFills(Applied(fs, bars, k))
  {
    if k > 0 {
      AppliedUnit(fs, bars, k - 1);
      AtUnit(fs, bars[k - 1].ts);
    }
  }

  lemma {:induction false} AtUnit(fs: seq<Fill>, t: int)
    requires UnitFills(fs)
    ensures UnitFills(At(fs, t))
  {
    if fs != [] {
      AtUnit(fs[..|fs| - 1], t);
    }
  }

  /** A trading bar that shares its timestamp is charged twice: at constant prices the ledger ends
      below the vectorised curve. */
  lemma SharedStampDisagrees(ts: seq<int>, positions: seq<real>, lag: int)
    requires |ts| == |positions| && !TradesAlone(ts, Lagged(positions, lag))
    ensures !Agrees(UnitBars(ts), positions, 0.0, 1.0, lag)
  {
    hide Times, Worth, Lagged, Changes, FirstFills, VectorBacktest, Occurs, Applied;
    var bars, pos, n := UnitBars(ts), Lagged(positions, lag), |ts|;
    var i, j :| 0 <= i < n && 0 <= j < n && i != j && ts[i] == ts[j] && Changes(pos)[i] != 0.0;
    var fs := FirstFills(bars, pos, n);
    UnitChangeFills(ts, pos, n);
    var m :| 0 <= m < |fs| && fs[m].ts == ts[i];
    OccursAtLeast(bars, n, if i < j then i else j, if i < j then j else i);
    DuplicatesCostMore(fs, bars);
    AppliedUnit(fs, bars, n);
    UnitWorth(fs, 0.0);
    UnitWorth(Applied(fs, bars, n), 0.0);
    VectorAt(bars, positions, 0.0, 1.0, lag, n - 1);
    assert LedgerCurve(fs, bars, 0.0, 1.0)[n - 1].1 == Worth(0.0, 1.0, Applied(fs, bars, n), 1.0);
  }

  function WithCloses(ts: seq<int>, closes: seq<real>): (bars: seq<Bar>)
    requires |closes| == |ts|
    ensures |bars| == |ts| && Stamps(bars) == ts
  {
    seq(|ts|, i requires 0 <= i < |ts| => Bar(ts[i], closes[i]))
  }

  /** The two accounts agree for all prices, balances and fee rates exactly when no trading bar
      shares its timestamp with another bar. */
  lemma AgreesIffTradesAlone(ts: seq<int>, positions: seq<real>, lag: int)
    requires |ts| == |positions|
    ensures TradesAlone(ts, Lagged(positions, lag)) <==>
      forall closes: seq<real>, start, fee :: |closes| == |ts|
          ==> Agrees(WithCloses(ts, closes), positions, start, fee, lag)
  {
    hide Agrees, TradesAlone, Lagged;
    if TradesAlone(ts, Lagged(positions, lag)) {
      forall closes: seq<real>, start, fee | |closes| == |ts|
        ensures Agrees(WithCloses(ts, closes), positions, start, fee, lag)
      {
        VectorEqualsLedger(WithCloses(ts, closes), positions, start, fee, lag);
      }
    } else {
      var ones := seq(|ts|, i => 1.0);
      assert WithCloses(ts, ones) == UnitBars(ts);
      SharedStampDisagrees(ts, positions, lag);
    }
  }

  // --- the screen's fills -----------------------------------------------------------------------

  /** What the streaming strategy does on the bar after `seen`. */
  function SignalAt(seen: seq<real>, close: real, fast: nat, slow: nat): Screen.Signal {
    Screen.OnBar(Screen.Stream(seen, fast, slow),
                 Screen.Average(seen + [close], fast), Screen.Average(seen + [close], slow)).1
  }

  /** With the default lag of one bar the screen trades exactly one bar after the streaming strategy
      signals: it buys `qty` after an entry, sells it after an exit, and does nothing otherwise. */
  lemma ScreenTradesOnSignals(closes: seq<real>, fast: nat, slow: nat, qty: real, i: nat)
    requires fast >= 1 && slow >= 1 && i < |closes|
    ensures var p := Screen.CrossPositions(closes, fast, slow, qty);
      && p.Some? && |p.value| == |closes|
      && Changes(Lagged(p.value, 1))[i] ==
         if i == 0 then 0.0 else
           match SignalAt(closes[..i - 1], closes[i - 1], fast, slow)
           case BuySignal => qty
           case SellSignal => -qty
           case Hold => 0.0
  {
    hide Screen.CrossPositions, Screen.OnBar, Screen.Average, Screen.Stream;
    Screen.VectorEqualsStreaming(closes, fast, slow, qty);
    if i > 0 {
      assert closes[..i - 1] + [closes[i - 1]] == closes[..i];
      Screen.SignalsAreChanges(closes[..i - 1], closes[i - 1], fast, slow);
      if i == 1 {
        NoPositionYet(fast, slow);
        assert closes[..0] == [];
      }
    }
  }

  lemma NoPositionYet(fast: nat, slow: nat)
    ensures !Screen.Stream([], fast, slow).inPosition
  {
  }
}
