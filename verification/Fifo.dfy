/** FIFO trade reconstruction: lot matching, the merging of partial fills that precedes it, and the
    laws both obey. Floats are reals; the 1e-12 dust guards are zero. */
module Fifo {
  import D = Domain
  import opened Money

  datatype Fill = Fill(ts: int, side: D.Side, qty: real, px: real)

  datatype Lot = Lot(ts: int, qty: real, px: real, dir: D.Side)

  datatype Trade = Trade(
    entryTs: int, exitTs: int, dir: D.Side, qty: real, entryPx: real, exitPx: real, pnl: real, returnPct: real)

  // --- merging partial fills ------------------------------------------------------------------

  predicate SameKey(f: Fill, g: Fill) { f.side == g.side && f.px == g.px }

  /** The fill joins the last one of the merged stream. */
  predicate Joins(out: seq<Fill>, f: Fill) { out != [] && SameKey(out[|out| - 1], f) }

  function Whole(f: Fill, g: Fill): Fill { f.(qty := f.qty + g.qty) }

  function Merge(out: seq<Fill>, f: Fill): seq<Fill> {
    if Joins(out, f) then out[..|out| - 1] + [Whole(out[|out| - 1], f)] else out + [f]
  }

  function Coalesce(fs: seq<Fill>): seq<Fill> {
    if fs == [] then [] else Merge(Coalesce(fs[..|fs| - 1]), fs[|fs| - 1])
  }

  // --- matching -----------------------------------------------------------------------------

  function MakeTrade(lot: Lot, f: Fill, matched: real, fee: real): Trade {
    var pnl := Gross(lot, f.px, matched) - Times(fee, Legs(lot, f.px, matched));
    Trade(lot.ts, f.ts, lot.dir, matched, lot.px, f.px, pnl, Ratio(pnl, Times(lot.px, matched)))
  }

  /** Profit before fees, and the notional of both legs, of closing part of a lot. */
  function Gross(lot: Lot, px: real, m: real): real { Toward(lot.dir, Times(px, m) - Times(lot.px, m)) }
  function Legs(lot: Lot, px: real, m: real): real { Times(px, m) + Times(lot.px, m) }

  /** The profit of a price move for a long or a short. */
  function Toward(dir: D.Side, x: real): real { if dir.Buy? then x else -x }

  datatype Closed = Closed(lots: seq<Lot>, trades: seq<Trade>, rest: real)

  /** Close opposing lots, oldest first. */
  function CloseLots(lots: seq<Lot>, f: Fill, rest: real, fee: real): Closed
    decreases |lots|, if rest > 0.0 then 1 else 0
  {
    if lots == [] || lots[0].dir == f.side || rest <= 0.0 then Closed(lots, [], rest)
    else
      var lot := lots[0];
      var matched := MinR(lot.qty, rest);
      var trade := MakeTrade(lot, f, matched, fee);
      if lot.qty - matched <= 0.0 then
        var c := CloseLots(lots[1..], f, rest - matched, fee);
        c.(trades := [trade] + c.trades)
      else Closed([lot.(qty := lot.qty - matched)] + lots[1..], [trade], rest - matched)
  }

  datatype Book = Book(lots: seq<Lot>, trades: seq<Trade>)

  function Take(b: Book, f: Fill, fee: real): Book {
    var c := CloseLots(b.lots, f, f.qty, fee);
    Book(if c.rest > 0.0 then c.lots + [Lot(f.ts, c.rest, f.px, f.side)] else c.lots, b.trades + c.trades)
  }

  function Replay(fs: seq<Fill>, fee: real): Book {
    if fs == [] then Book([], []) else Take(Replay(fs[..|fs| - 1], fee), fs[|fs| - 1], fee)
  }

  // --- the loops ----------------------------------------------------------------------------

  lemma CoalesceSnoc(fs: seq<Fill>, f: Fill)
    ensures Coalesce(fs + [f]) == Merge(Coalesce(fs), f)
  {
    assert (fs + [f])[..|fs|] == fs;
  }

  lemma CoalesceNone()
    ensures Coalesce([]) == []
  {
  }

  method CoalescePartialFills(fills: seq<Fill>) returns (out: seq<Fill>)
    ensures out == Coalesce(fills)
  {
    hide Coalesce;
    out := [];
    CoalesceNone();
    for i := 0 to |fills|
      invariant out == Coalesce(fills[..i])
    {
      var f, n := fills[i], |out| - 1;
      CoalesceSnoc(fills[..i], f);
      assert fills[..i] + [f] == fills[..i + 1];
      if n >= 0 && out[n].side == f.side && out[n].px == f.px {
        var whole := out[n].(qty := out[n].qty + f.qty);
        assert out[n := whole] == out[..n] + [whole];
        out := out[n := whole];
      } else {
        out := out + [f];
      }
    }
    assert fills[..|fills|] == fills;
  }

  /** Close opposing lots, oldest first, until they or the fill are used up. */
  method CloseOpposing(open: seq<Lot>, f: Fill, fee: real) returns (lots: seq<Lot>, trades: seq<Trade>, rest: real)
    ensures Closed(lots, trades, rest) == CloseLots(open, f, f.qty, fee)
  {
    hide Times;
    lots, trades, rest := open, [], f.qty;
    while lots != [] && lots[0].dir != f.side && rest > 0.0
      invariant var c, c0 := CloseLots(lots, f, rest, fee), CloseLots(open, f, f.qty, fee);
        c.lots == c0.lots && c.rest == c0.rest && trades + c.trades == c0.trades
      decreases |lots|, if rest > 0.0 then 1 else 0
    {
      var lot := lots[0];
      var matched := MinR(lot.qty, rest);
      trades := trades + [MakeTrade(lot, f, matched, fee)];
      rest := rest - matched;
      if lot.qty - matched <= 0.0 {
        lots := lots[1..];
      } else {
        lots := [lot.(qty := lot.qty - matched)] + lots[1..];
      }
    }
  }

  method ReconstructTrades(fills: seq<Fill>, fee: real) returns (trades: seq<Trade>)
    ensures trades == Replay(Coalesce(fills), fee).trades
  {
    hide Times, CloseLots;
    var merged := CoalescePartialFills(fills);
    var lots: seq<Lot> := [];
    trades := [];
    for i := 0 to |merged|
      invariant Book(lots, trades) == Replay(merged[..i], fee)
    {
      var f := merged[i];
      assert merged[..i + 1][..i] == merged[..i];
      var left, closed, rest := CloseOpposing(lots, f, fee);
      lots, trades := left, trades + closed;
      if rest > 0.0 {
        lots := lots + [Lot(f.ts, rest, f.px, f.side)];
      }
    }
    assert merged[..|merged|] == merged;
  }

  method OpenExposure(fills: seq<Fill>) returns (side: int, qty: real)
    ensures var n := Net(fills);
      (n == 0.0 ==> side == 0 && qty == 0.0) && (n > 0.0 ==> side == 1 && qty == n)
          && (n < 0.0 ==> side == -1 && qty == -n)
  {
    var net := 0.0;
    for i := 0 to |fills|
      invariant net == Net(fills[..i])
    {
      net := net + Toward(fills[i].side, fills[i].qty);
      assert fills[..i + 1][..i] == fills[..i];
    }
    assert fills[..|fills|] == fills;
    if net == 0.0 {
      return 0, 0.0;
    } else if net > 0.0 {
      return 1, net;
    } else {
      return -1, -net;
    }
  }

  /** Signed quantity of all fills. */
  function Net(fs: seq<Fill>): real {
    if fs == [] then 0.0 else Net(fs[..|fs| - 1]) + Toward(fs[|fs| - 1].side, fs[|fs| - 1].qty)
  }

  // --- what a queue of lots means -------------------------------------------------------------

  ghost predicate ValidLots(lots: seq<Lot>) {
    forall i :: 0 <= i < |lots| ==> lots[i].qty > 0.0 && lots[i].dir == lots[0].dir
  }

  function Total(lots: seq<Lot>): real {
    if lots == [] then 0.0 else lots[0].qty + Total(lots[1..])
  }

  /** What the `x` oldest units cost to open. */
  function Cost(lots: seq<Lot>, x: real): real {
    if lots == [] || x <= 0.0 then 0.0
    else if x <= lots[0].qty then Times(lots[0].px, x)
    else Times(lots[0].px, lots[0].qty) + Cost(lots[1..], x - lots[0].qty)
  }

  function Pnl(ts: seq<Trade>): real { if ts == [] then 0.0 else ts[0].pnl + Pnl(ts[1..]) }
  function Matched(ts: seq<Trade>): real { if ts == [] then 0.0 else ts[0].qty + Matched(ts[1..]) }

  lemma {:induction false} SumsAppend(a: seq<Trade>, b: seq<Trade>)
    ensures Pnl(a + b) == Pnl(a) + Pnl(b) && Matched(a + b) == Matched(a) + Matched(b)
  {
    if a == [] {
      assert a + b == b;
    } else {
      assert (a + b)[0] == a[0] && (a + b)[1..] == a[1..] + b;
      SumsAppend(a[1..], b);
    }
  }

  lemma {:induction false} TotalPositive(lots: seq<Lot>)
    requires ValidLots(lots)
    ensures Total(lots) >= 0.0 && (lots != [] ==> Total(lots) >= lots[0].qty > 0.0)
  {
    if lots != [] {
      TotalPositive(lots[1..]);
    }
  }

  lemma {:induction false} TotalAppend(lots: seq<Lot>, l: Lot)
    ensures Total(lots + [l]) == Total(lots) + l.qty
  {
    if lots == [] {
      assert lots + [l] == [l] && [l][1..] == [];
    } else {
      assert (lots + [l])[0] == lots[0] && (lots + [l])[1..] == lots[1..] + [l];
      TotalAppend(lots[1..], l);
    }
  }

  lemma {:induction false} CostWithin(lots: seq<Lot>, l: Lot, x: real)
    requires ValidLots(lots) && 0.0 <= x <= Total(lots)
    ensures Cost(lots + [l], x) == Cost(lots, x)
  {
    hide Times;
    if lots != [] {
      assert (lots + [l])[0] == lots[0] && (lots + [l])[1..] == lots[1..] + [l];
      if x > lots[0].qty {
        CostWithin(lots[1..], l, x - lots[0].qty);
      }
    }
  }

  /** From the head's quantity on, the curve is the head's notional and the tail. */
  lemma HeadCost(lots: seq<Lot>, y: real)
    requires lots != [] && y >= lots[0].qty > 0.0
    ensures Cost(lots, y) == Times(lots[0].px, lots[0].qty) + Cost(lots[1..], y - lots[0].qty)
  {
    hide Times;
  }

  lemma {:induction false} CostBeyond(lots: seq<Lot>, l: Lot, x: real)
    requires ValidLots(lots) && l.qty > 0.0 && Total(lots) <= x <= Total(lots) + l.qty
    ensures Cost(lots + [l], x) == Cost(lots, Total(lots)) + Times(l.px, x - Total(lots))
    decreases |lots|
  {
    hide Times;
    TimesAdds(l.px, 0.0, 0.0);
    TotalPositive(lots);
    if lots == [] {
      assert lots + [l] == [l] && [l][1..] == [];
    } else {
      var h, t := lots[0], lots[1..];
      assert (lots + [l])[0] == h && (lots + [l])[1..] == t + [l];
      TotalPositive(t);
      HeadCost(lots + [l], x);
      HeadCost(lots, Total(lots));
      CostBeyond(t, l, x - h.qty);
      assert x - h.qty - Total(t) == x - Total(lots);
    }
  }

  /** Profit before fees, and notional of both legs, of closing the `m` oldest units at `px`. */
  function GrossOf(lots: seq<Lot>, px: real, m: real): real {
    if lots == [] then 0.0 else Toward(lots[0].dir, Times(px, m) - Cost(lots, m))
  }
  function LegsOf(lots: seq<Lot>, px: real, m: real): real {
    if lots == [] then 0.0 else Times(px, m) + Cost(lots, m)
  }

  predicate SameWay(lots: seq<Lot>, side: D.Side) { lots == [] || lots[0].dir == side }

  /** Closing `q` against opposing lots: sizes, sums and the shifted cost curve. */
  lemma {:induction false} CloseMeans(lots: seq<Lot>, f: Fill, q: real, fee: real, x: real)
    requires ValidLots(lots) && q >= 0.0 && (lots != [] ==> lots[0].dir != f.side)
    requires 0.0 <= x <= Total(lots) - MinR(q, Total(lots))
    ensures var c, m := CloseLots(lots, f, q, fee), MinR(q, Total(lots));
      && ValidLots(c.lots) && (c.lots != [] ==> lots != [] && c.lots[0].dir == lots[0].dir)
      && c.rest == q - m && Total(c.lots) == Total(lots) - m && Matched(c.trades) == m
      && Pnl(c.trades) == GrossOf(lots, f.px, m) - Times(fee, LegsOf(lots, f.px, m))
      && Cost(c.lots, x) == Cost(lots, x + m) - Cost(lots, m)
    decreases |lots|
  {
    hide Times, CloseLots;
    TotalPositive(lots);
    if lots == [] || q == 0.0 {
      CloseNothing(lots, f, q, fee, x);
    } else if lots[0].qty <= q {
      TotalPositive(lots[1..]);
      assert MinR(q, Total(lots)) == lots[0].qty + MinR(q - lots[0].qty, Total(lots[1..]));
      CloseMeans(lots[1..], f, q - lots[0].qty, fee, x);
      CloseHead(lots, f, q, fee, x);
    } else {
      ClosePart(lots, f, q, fee, x);
    }
  }

  lemma CloseNothing(lots: seq<Lot>, f: Fill, q: real, fee: real, x: real)
    requires ValidLots(lots) && (lots == [] || q == 0.0)
    ensures CloseLots(lots, f, q, fee) == Closed(lots, [], q)
    ensures var m := MinR(q, Total(lots));
      q >= 0.0 ==> m == 0.0 && GrossOf(lots, f.px, m) - Times(fee, LegsOf(lots, f.px, m)) == 0.0 && Cost(lots, m) == 0.0
  {
    hide Times;
    TotalPositive(lots);
    TimesAdds(fee, 0.0, 0.0);
    TimesAdds(f.px, 0.0, 0.0);
  }

  lemma CloseHead(lots: seq<Lot>, f: Fill, q: real, fee: real, x: real)
    requires ValidLots(lots) && lots != [] && lots[0].qty <= q && lots[0].dir != f.side
    requires var t, q1 := lots[1..], q - lots[0].qty; var c, m := CloseLots(t, f, q1, fee), MinR(q1, Total(t));
      && Matched(c.trades) == m && Pnl(c.trades) == GrossOf(t, f.px, m) - Times(fee, LegsOf(t, f.px, m))
      && Cost(c.lots, x) == Cost(t, x + m) - Cost(t, m) && x >= 0.0
    ensures var c, m := CloseLots(lots, f, q, fee), MinR(q, Total(lots));
      && c.lots == CloseLots(lots[1..], f, q - lots[0].qty, fee).lots
      && c.rest == CloseLots(lots[1..], f, q - lots[0].qty, fee).rest
      && Matched(c.trades) == m && Pnl(c.trades) == GrossOf(lots, f.px, m) - Times(fee, LegsOf(lots, f.px, m))
      && Cost(c.lots, x) == Cost(lots, x + m) - Cost(lots, m)
  {
    hide Times;
    var h, t, m := lots[0], lots[1..], MinR(q, Total(lots));
    var c, c1, trade := CloseLots(lots, f, q, fee), CloseLots(t, f, q - h.qty, fee), MakeTrade(h, f, h.qty, fee);
    TotalPositive(t);
    assert c.trades == [trade] + c1.trades && c.trades[1..] == c1.trades && c.lots == c1.lots;
    HeadCost(lots, m);
    HeadCost(lots, x + m);
    assert x + m - h.qty == x + (m - h.qty);
    TimesAdds(f.px, h.qty, m - h.qty);
    TimesAdds(f.px, 0.0, 0.0);
    TimesAdds(fee, Legs(h, f.px, h.qty), LegsOf(t, f.px, m - h.qty));
  }

  lemma ClosePart(lots: seq<Lot>, f: Fill, q: real, fee: real, x: real)
    requires ValidLots(lots) && lots != [] && 0.0 < q < lots[0].qty && lots[0].dir != f.side && x >= 0.0
    ensures var c := CloseLots(lots, f, q, fee);
      && ValidLots(c.lots) && c.lots != [] && c.lots[0].dir == lots[0].dir
      && c.rest == 0.0 && Total(c.lots) == Total(lots) - q && Matched(c.trades) == q
      && Pnl(c.trades) == GrossOf(lots, f.px, q) - Times(fee, LegsOf(lots, f.px, q))
      && Cost(c.lots, x) == Cost(lots, x + q) - Cost(lots, q)
      && q <= Total(lots)
  {
    hide Times;
    TotalPositive(lots);
    var h, t := lots[0], lots[1..];
    var cut, trade := h.(qty := h.qty - q), MakeTrade(h, f, q, fee);
    assert CloseLots(lots, f, q, fee) == Closed([cut] + t, [trade], 0.0);
    assert [trade][1..] == [] && ([cut] + t)[1..] == t;
    TimesAdds(h.px, x, q);
    TimesAdds(h.px, h.qty - q, q);
    assert x - (h.qty - q) == x + q - h.qty && (h.qty - q) + q == h.qty;
    TimesAdds(h.px, 0.0, 0.0);
  }

  // --- one fill, in terms of the cost curve ---------------------------------------------------

  /** A fill with the position, or on a flat book, adds its quantity at its price. */
  lemma TakeWith(b: Book, f: Fill, fee: real, x: real)
    requires ValidLots(b.lots) && f.qty >= 0.0 && SameWay(b.lots, f.side)
    ensures var b', t := Take(b, f, fee), Total(b.lots);
      && ValidLots(b'.lots) && SameWay(b'.lots, f.side)
      && Total(b'.lots) == t + f.qty && b'.trades == b.trades
      && (0.0 <= x <= t ==> Cost(b'.lots, x) == Cost(b.lots, x))
      && (t <= x <= t + f.qty ==> Cost(b'.lots, x) == Cost(b.lots, t) + Times(f.px, x - t))
  {
    hide Times, Cost;
    var l, t := Lot(f.ts, f.qty, f.px, f.side), Total(b.lots);
    TimesAdds(f.px, 0.0, 0.0);
    assert CloseLots(b.lots, f, f.qty, fee) == Closed(b.lots, [], f.qty);
    if f.qty > 0.0 {
      TotalAppend(b.lots, l);
      if 0.0 <= x <= t {
        CostWithin(b.lots, l, x);
      }
      if t <= x <= t + f.qty {
        CostBeyond(b.lots, l, x);
      }
    }
  }

  /** A fill against the position closes the oldest units and may flip it. */
  lemma TakeAgainst(b: Book, f: Fill, fee: real, x: real)
    requires ValidLots(b.lots) && f.qty >= 0.0 && !SameWay(b.lots, f.side) && x >= 0.0
    ensures var b', t, q := Take(b, f, fee), Total(b.lots), f.qty; var m := MinR(q, t);
      && ValidLots(b'.lots)
      && Pnl(b'.trades) == Pnl(b.trades) + GrossOf(b.lots, f.px, m) - Times(fee, LegsOf(b.lots, f.px, m))
      && Matched(b'.trades) == Matched(b.trades) + m
      && (q < t ==> Total(b'.lots) == t - q && b'.lots != [] && b'.lots[0].dir == b.lots[0].dir)
      && (q >= t ==> Total(b'.lots) == q - t && SameWay(b'.lots, f.side))
      && (q < t && x <= t - q ==> Cost(b'.lots, x) == Cost(b.lots, x + q) - Cost(b.lots, q))
      && (q >= t && x <= q - t ==> Cost(b'.lots, x) == Times(f.px, x))
  {
    hide Times;
    var c := CloseLots(b.lots, f, f.qty, fee);
    TotalPositive(b.lots);
    TimesAdds(f.px, 0.0, 0.0);
    CloseMeans(b.lots, f, f.qty, fee, if x <= Total(b.lots) - MinR(f.qty, Total(b.lots)) then x else 0.0);
    SumsAppend(b.trades, c.trades);
    TotalPositive(c.lots);
    if c.rest > 0.0 {
      assert c.lots == [];
      assert Take(b, f, fee).lots == [Lot(f.ts, c.rest, f.px, f.side)];
      assert [Lot(f.ts, c.rest, f.px, f.side)][1..] == [];
    }
  }

  // --- merging preserves meaning --------------------------------------------------------------

  /** Two books with the same direction, size, cost curve and realised sums. */
  ghost predicate Equiv(a: Book, b: Book) {
    && ValidLots(a.lots) && ValidLots(b.lots) && Total(a.lots) == Total(b.lots)
    && (a.lots != [] && b.lots != [] ==> a.lots[0].dir == b.lots[0].dir)
    && (forall x :: 0.0 <= x <= Total(a.lots) ==> Cost(a.lots, x) == Cost(b.lots, x))
    && Pnl(a.trades) == Pnl(b.trades) && Matched(a.trades) == Matched(b.trades)
  }

  lemma EmptyTogether(a: seq<Lot>, b: seq<Lot>)
    requires ValidLots(a) && ValidLots(b) && Total(a) == Total(b)
    ensures a == [] <==> b == []
  {
    TotalPositive(a);
    TotalPositive(b);
  }

  lemma EquivTrans(a: Book, b: Book, c: Book)
    requires Equiv(a, b) && Equiv(b, c)
    ensures Equiv(a, c)
  {
    hide Times;
    EmptyTogether(a.lots, b.lots);
  }

  lemma Ignored(b: Book, f: Fill, fee: real)
    requires f.qty <= 0.0
    ensures Take(b, f, fee) == b
  {
    assert b.trades + [] == b.trades;
  }

  lemma TakeEquiv(a: Book, b: Book, f: Fill, fee: real)
    requires Equiv(a, b)
    ensures Equiv(Take(a, f, fee), Take(b, f, fee))
  {
    hide Times, Take;
    if f.qty <= 0.0 {
      Ignored(a, f, fee);
      Ignored(b, f, fee);
      return;
    }
    EmptyTogether(a.lots, b.lots);
    TotalPositive(a.lots);
    var a', b' := Take(a, f, fee), Take(b, f, fee);
    if SameWay(a.lots, f.side) {
      TakeWith(a, f, fee, 0.0);
      TakeWith(b, f, fee, 0.0);
      forall x | 0.0 <= x <= Total(a'.lots)
        ensures Cost(a'.lots, x) == Cost(b'.lots, x)
      {
        TakeWith(a, f, fee, x);
        TakeWith(b, f, fee, x);
      }
    } else {
      TakeAgainst(a, f, fee, 0.0);
      TakeAgainst(b, f, fee, 0.0);
      forall x | 0.0 <= x <= Total(a'.lots)
        ensures Cost(a'.lots, x) == Cost(b'.lots, x)
      {
        TakeAgainst(a, f, fee, x);
        TakeAgainst(b, f, fee, x);
      }
    }
  }

  ghost predicate Parts(f: Fill, g: Fill) {
    f.qty >= 0.0 && g.qty >= 0.0 && f.side == g.side && f.px == g.px
  }

  /** A fill may be taken in two parts: it never closes anything, it closes only, or it closes
      everything and flips, in its second or in its first part. */
  lemma TakeSplits(b: Book, f: Fill, g: Fill, fee: real)
    requires ValidLots(b.lots) && Parts(f, g)
    ensures Equiv(Take(Take(b, f, fee), g, fee), Take(b, Whole(f, g), fee))
  {
    if SameWay(b.lots, f.side) {
      SplitWith(b, f, g, fee);
    } else if f.qty + g.qty < Total(b.lots) {
      SplitWithin(b, f, g, fee);
    } else if f.qty < Total(b.lots) {
      SplitFlipsLate(b, f, g, fee);
    } else {
      SplitFlipsEarly(b, f, g, fee);
    }
  }

  lemma SplitWith(b: Book, f: Fill, g: Fill, fee: real)
    requires ValidLots(b.lots) && Parts(f, g) && SameWay(b.lots, f.side)
    ensures Equiv(Take(Take(b, f, fee), g, fee), Take(b, Whole(f, g), fee))
  {
    hide Times, Take;
    var b1, w, t := Take(b, f, fee), Take(b, Whole(f, g), fee), Total(b.lots);
    TotalPositive(b.lots);
    TakeWith(b, f, fee, t + f.qty);
    TakeWith(b1, g, fee, 0.0);
    TakeWith(b, Whole(f, g), fee, 0.0);
    forall x | 0.0 <= x <= t + f.qty + g.qty
      ensures Cost(Take(b1, g, fee).lots, x) == Cost(w.lots, x)
    {
      TakeWith(b, f, fee, x);
      TakeWith(b1, g, fee, x);
      TakeWith(b, Whole(f, g), fee, x);
      TimesAdds(f.px, f.qty, x - (t + f.qty));
      assert f.qty + (x - (t + f.qty)) == x - t && t + f.qty - t == f.qty;
    }
  }

  /** Closing in two steps realises what closing at once does. */
  lemma GainAdds(lots: seq<Lot>, rest: seq<Lot>, px: real, m: real, n: real, fee: real)
    requires lots != [] && rest != [] && rest[0].dir == lots[0].dir
    requires Cost(rest, n) == Cost(lots, n + m) - Cost(lots, m)
    ensures GrossOf(lots, px, m) + GrossOf(rest, px, n) == GrossOf(lots, px, m + n)
    ensures Times(fee, LegsOf(lots, px, m)) + Times(fee, LegsOf(rest, px, n)) == Times(fee, LegsOf(lots, px, m + n))
  {
    hide Times;
    TimesAdds(px, m, n);
    assert m + n == n + m;
    TimesAdds(fee, LegsOf(lots, px, m), LegsOf(rest, px, n));
  }

  lemma SplitWithin(b: Book, f: Fill, g: Fill, fee: real)
    requires ValidLots(b.lots) && Parts(f, g) && !SameWay(b.lots, f.side) && f.qty + g.qty < Total(b.lots)
    ensures Equiv(Take(Take(b, f, fee), g, fee), Take(b, Whole(f, g), fee))
  {
    hide Times, Take;
    var b1, t := Take(b, f, fee), Total(b.lots);
    TakeAgainst(b, f, fee, g.qty);
    TakeAgainst(b1, g, fee, 0.0);
    TakeAgainst(b, Whole(f, g), fee, 0.0);
    GainAdds(b.lots, b1.lots, f.px, f.qty, g.qty, fee);
    forall x | 0.0 <= x <= t - f.qty - g.qty
      ensures Cost(Take(b1, g, fee).lots, x) == Cost(Take(b, Whole(f, g), fee).lots, x)
    {
      TakeAgainst(b, f, fee, x + g.qty);
      TakeAgainst(b1, g, fee, x);
      TakeAgainst(b, Whole(f, g), fee, x);
      assert x + g.qty + f.qty == x + (f.qty + g.qty);
    }
  }

  lemma SplitFlipsLate(b: Book, f: Fill, g: Fill, fee: real)
    requires ValidLots(b.lots) && Parts(f, g) && !SameWay(b.lots, f.side)
    requires f.qty < Total(b.lots) <= f.qty + g.qty
    ensures Equiv(Take(Take(b, f, fee), g, fee), Take(b, Whole(f, g), fee))
  {
    hide Times, Take;
    var b1, t := Take(b, f, fee), Total(b.lots);
    TakeAgainst(b, f, fee, t - f.qty);
    TakeAgainst(b1, g, fee, 0.0);
    TakeAgainst(b, Whole(f, g), fee, 0.0);
    GainAdds(b.lots, b1.lots, f.px, f.qty, t - f.qty, fee);
    assert f.qty + (t - f.qty) == t;
    forall x | 0.0 <= x <= f.qty + g.qty - t
      ensures Cost(Take(b1, g, fee).lots, x) == Cost(Take(b, Whole(f, g), fee).lots, x)
    {
      TakeAgainst(b1, g, fee, x);
      TakeAgainst(b, Whole(f, g), fee, x);
    }
  }

  lemma SplitFlipsEarly(b: Book, f: Fill, g: Fill, fee: real)
    requires ValidLots(b.lots) && Parts(f, g) && !SameWay(b.lots, f.side) && f.qty >= Total(b.lots)
    ensures Equiv(Take(Take(b, f, fee), g, fee), Take(b, Whole(f, g), fee))
  {
    hide Times, Take;
    var b1, t := Take(b, f, fee), Total(b.lots);
    TotalPositive(b.lots);
    TakeAgainst(b, f, fee, f.qty - t);
    TakeWith(b1, g, fee, 0.0);
    TakeAgainst(b, Whole(f, g), fee, 0.0);
    forall x | 0.0 <= x <= f.qty + g.qty - t
      ensures Cost(Take(b1, g, fee).lots, x) == Cost(Take(b, Whole(f, g), fee).lots, x)
    {
      TakeAgainst(b, f, fee, x);
      TakeWith(b1, g, fee, x);
      TakeAgainst(b, Whole(f, g), fee, x);
      TimesAdds(f.px, f.qty - t, x - (f.qty - t));
    }
  }

  predicate SameSign(f: Fill, g: Fill) { (f.qty >= 0.0 && g.qty >= 0.0) || (f.qty <= 0.0 && g.qty <= 0.0) }

  /** On a flat book the matcher ignores the negative part and the merger does not. */
  lemma MixedSignsDisagree(f: Fill, g: Fill, fee: real)
    requires f.side == g.side && f.px == g.px && !SameSign(f, g)
    ensures !Equiv(Take(Take(Book([], []), f, fee), g, fee), Take(Book([], []), Whole(f, g), fee))
  {
    hide Times, Take;
    var flat, w := Book([], []), Whole(f, g);
    if f.qty < 0.0 {
      Ignored(flat, f, fee);
      TakeWith(flat, g, fee, 0.0);
    } else {
      TakeWith(flat, f, fee, 0.0);
      Ignored(Take(flat, f, fee), g, fee);
    }
    if w.qty > 0.0 {
      TakeWith(flat, w, fee, 0.0);
    } else {
      Ignored(flat, w, fee);
    }
  }

  /** Two consecutive fills at one side and price may be merged on every book exactly when their
      quantities do not have opposite signs. */
  lemma MergeIffSameSign(f: Fill, g: Fill, fee: real)
    requires f.side == g.side && f.px == g.px
    ensures SameSign(f, g) <==>
      forall b: Book :: ValidLots(b.lots) ==> Equiv(Take(Take(b, f, fee), g, fee), Take(b, Whole(f, g), fee))
  {
    hide Times, Take, Equiv;
    if SameSign(f, g) {
      forall b: Book | ValidLots(b.lots)
        ensures Equiv(Take(Take(b, f, fee), g, fee), Take(b, Whole(f, g), fee))
      {
        if Parts(f, g) {
          TakeSplits(b, f, g, fee);
        } else {
          Ignored(b, f, fee);
          Ignored(b, g, fee);
          Ignored(b, Whole(f, g), fee);
          EquivRefl(b);
        }
      }
    } else {
      MixedSignsDisagree(f, g, fee);
      assert ValidLots(Book([], []).lots);
    }
  }

  lemma EquivRefl(b: Book)
    requires ValidLots(b.lots)
    ensures Equiv(b, b)
  {
  }

  lemma TakeValid(b: Book, f: Fill, fee: real)
    requires ValidLots(b.lots)
    ensures ValidLots(Take(b, f, fee).lots)
  {
    hide Times, Take;
    if f.qty <= 0.0 {
      Ignored(b, f, fee);
    } else if SameWay(b.lots, f.side) {
      TakeWith(b, f, fee, 0.0);
    } else {
      TakeAgainst(b, f, fee, 0.0);
    }
  }

  lemma {:induction false} ReplayValid(fs: seq<Fill>, fee: real)
    ensures ValidLots(Replay(fs, fee).lots)
  {
    hide Times, Take;
    if fs != [] {
      ReplayValid(fs[..|fs| - 1], fee);
      TakeValid(Replay(fs[..|fs| - 1], fee), fs[|fs| - 1], fee);
    }
  }

  lemma ReplaySnoc(fs: seq<Fill>, f: Fill, fee: real)
    ensures Replay(fs + [f], fee) == Take(Replay(fs, fee), f, fee)
  {
    assert (fs + [f])[..|fs|] == fs;
  }

  /** Every fill of the run at the end of `fs` that has the side and price of `g` has its sign too. */
  predicate RunAgrees(fs: seq<Fill>, g: Fill) {
    fs == [] || !SameKey(fs[|fs| - 1], g) || (SameSign(fs[|fs| - 1], g) && RunAgrees(fs[..|fs| - 1], g))
  }

  /** No run of one side and price mixes signs. */
  predicate Unmixed(fs: seq<Fill>) {
    fs == [] || (Unmixed(fs[..|fs| - 1]) && RunAgrees(fs[..|fs| - 1], fs[|fs| - 1]))
  }

  /** How the last fill enters the merged stream. */
  lemma LastEnters(fs: seq<Fill>)
    requires fs != []
    ensures var n := |fs| - 1; var before, out := Coalesce(fs[..n]), Coalesce(fs);
      && out != []
      && out[|out| - 1] == (if Joins(before, fs[n]) then Whole(before[|before| - 1], fs[n]) else fs[n])
      && (n == 0 ==> before == [])
  {
  }

  lemma {:induction false} MergedKey(fs: seq<Fill>)
    requires fs != []
    ensures var out := Coalesce(fs); out != [] && SameKey(out[|out| - 1], fs[|fs| - 1])
  {
    hide Coalesce;
    LastEnters(fs);
    if |fs| > 1 {
      MergedKey(fs[..|fs| - 1]);
    }
  }

  /** In an unmixed stream, what agrees in sign with every fill of the last run is what agrees with
      their merged sum. */
  lemma {:induction false} MergedSign(fs: seq<Fill>, g: Fill)
    requires fs != [] && SameKey(fs[|fs| - 1], g) && Unmixed(fs)
    ensures var out := Coalesce(fs); out != [] && (RunAgrees(fs, g) <==> SameSign(out[|out| - 1], g))
  {
    hide Coalesce;
    var n := |fs| - 1;
    LastEnters(fs);
    if n > 0 {
      MergedKey(fs[..n]);
      if SameKey(fs[n - 1], fs[n]) {
        MergedSign(fs[..n], g);
        MergedSign(fs[..n], fs[n]);
      }
    }
  }

  /** A stream stays unmixed exactly when the next fill has the sign of the fill it joins. */
  lemma StaysUnmixed(fs: seq<Fill>)
    requires fs != [] && Unmixed(fs[..|fs| - 1])
    ensures var n := |fs| - 1; var out := Coalesce(fs[..n]);
      Unmixed(fs) <==> (Joins(out, fs[n]) ==> SameSign(out[|out| - 1], fs[n]))
  {
    var n := |fs| - 1;
    if n == 0 {
      assert fs[..0] == [];
    } else {
      hide Coalesce;
      MergedKey(fs[..n]);
      if SameKey(fs[n - 1], fs[n]) {
        MergedSign(fs[..n], fs[n]);
      }
    }
  }

  /** Taking one more fill on the merged stream is taking it on the merged book. */
  lemma MergeStep(out: seq<Fill>, f: Fill, fee: real)
    requires Joins(out, f) ==> SameSign(out[|out| - 1], f)
    ensures Equiv(Take(Replay(out, fee), f, fee), Replay(Merge(out, f), fee))
  {
    hide Times, Take, Replay, Equiv;
    if Joins(out, f) {
      var n := |out| - 1;
      ReplayValid(out[..n], fee);
      ReplaySnoc(out[..n], Whole(out[n], f), fee);
      ReplaySnoc(out[..n], out[n], fee);
      assert out[..n] + [out[n]] == out;
      MergeIffSameSign(out[n], f, fee);
    } else {
      ReplaySnoc(out, f, fee);
      ReplayValid(out + [f], fee);
      EquivRefl(Replay(out + [f], fee));
    }
  }

  lemma {:induction false} UnmixedPreserves(fs: seq<Fill>, fee: real)
    requires Unmixed(fs)
    ensures Equiv(Replay(fs, fee), Replay(Coalesce(fs), fee))
  {
    hide Times, Take, Equiv, Merge;
    if fs == [] {
      ReplayValid([], fee);
      EquivRefl(Replay([], fee));
    } else {
      var n := |fs| - 1;
      UnmixedPreserves(fs[..n], fee);
      TakeEquiv(Replay(fs[..n], fee), Replay(Coalesce(fs[..n]), fee), fs[n], fee);
      StaysUnmixed(fs);
      MergeStep(Coalesce(fs[..n]), fs[n], fee);
      EquivTrans(Replay(fs, fee), Take(Replay(Coalesce(fs[..n]), fee), fs[n], fee), Replay(Coalesce(fs), fee));
    }
  }

  // --- and only then --------------------------------------------------------------------------

  /** The units a stream brings to the matcher, which takes a negative quantity for nothing. */
  function Units(fs: seq<Fill>): real {
    if fs == [] then 0.0 else Units(fs[..|fs| - 1]) + MaxR(0.0, fs[|fs| - 1].qty)
  }

  lemma UnitsSnoc(fs: seq<Fill>, f: Fill)
    ensures Units(fs + [f]) == Units(fs) + MaxR(0.0, f.qty)
  {
    assert (fs + [f])[..|fs|] == fs;
  }

  /** Every unit is open or was matched, against another. */
  lemma TakeCounts(b: Book, f: Fill, fee: real)
    requires ValidLots(b.lots)
    ensures var b' := Take(b, f, fee);
      2.0 * Matched(b'.trades) + Total(b'.lots) == 2.0 * Matched(b.trades) + Total(b.lots) + MaxR(0.0, f.qty)
  {
    hide Times, Take, Matched, Total;
    if f.qty <= 0.0 {
      Ignored(b, f, fee);
    } else if SameWay(b.lots, f.side) {
      TakeWith(b, f, fee, 0.0);
    } else {
      TakeAgainst(b, f, fee, 0.0);
    }
  }

  lemma {:induction false} ReplayCounts(fs: seq<Fill>, fee: real)
    ensures var b := Replay(fs, fee); 2.0 * Matched(b.trades) + Total(b.lots) == Units(fs)
  {
    hide Take;
    if fs != [] {
      ReplayCounts(fs[..|fs| - 1], fee);
      ReplayValid(fs[..|fs| - 1], fee);
      TakeCounts(Replay(fs[..|fs| - 1], fee), fs[|fs| - 1], fee);
    }
  }

  /** Merging loses units exactly when it joins opposite signs. */
  lemma MergeLoses(out: seq<Fill>, f: Fill)
    ensures Units(Merge(out, f)) <= Units(out) + MaxR(0.0, f.qty)
    ensures Units(Merge(out, f)) == Units(out) + MaxR(0.0, f.qty) <==> (Joins(out, f) ==> SameSign(out[|out| - 1], f))
  {
    hide Units;
    if Joins(out, f) {
      var n := |out| - 1;
      UnitsSnoc(out[..n], Whole(out[n], f));
      UnitsSnoc(out[..n], out[n]);
      assert out[..n] + [out[n]] == out;
    } else {
      UnitsSnoc(out, f);
    }
  }

  lemma {:induction false} MixedLoses(fs: seq<Fill>)
    ensures Units(Coalesce(fs)) <= Units(fs)
    ensures Units(Coalesce(fs)) == Units(fs) <==> Unmixed(fs)
  {
    hide Coalesce, Merge, MaxR, SameSign;
    if fs == [] {
      CoalesceNone();
    } else {
      var n := |fs| - 1;
      CoalesceSnoc(fs[..n], fs[n]);
      assert fs[..n] + [fs[n]] == fs;
      MixedLoses(fs[..n]);
      MergeLoses(Coalesce(fs[..n]), fs[n]);
      if Unmixed(fs[..n]) {
        StaysUnmixed(fs);
      }
    }
  }

  /** For every stream and fee rate: the merged stream has the same total PnL, the same matched
      quantity and the same open position, at the same cost, as the unmerged one, if and only if no
      run of one side and price mixes signs. */
  lemma CoalescingPreservesMeaning(fs: seq<Fill>, fee: real)
    ensures Unmixed(fs) <==> Equiv(Replay(fs, fee), Replay(Coalesce(fs), fee))
  {
    if Unmixed(fs) {
      UnmixedPreserves(fs, fee);
    } else {
      hide Replay, Coalesce, Unmixed, Units, Cost, Pnl;
      MixedLoses(fs);
      ReplayCounts(fs, fee);
      ReplayCounts(Coalesce(fs), fee);
    }
  }

  ghost predicate NonNegative(fs: seq<Fill>) { forall i :: 0 <= i < |fs| ==> fs[i].qty >= 0.0 }

  lemma {:induction false} NonNegativeUnmixed(fs: seq<Fill>)
    requires NonNegative(fs)
    ensures Unmixed(fs)
  {
    if fs != [] {
      NonNegativeUnmixed(fs[..|fs| - 1]);
      NonNegativeAgrees(fs[..|fs| - 1], fs[|fs| - 1]);
    }
  }

  lemma {:induction false} NonNegativeAgrees(fs: seq<Fill>, g: Fill)
    requires NonNegative(fs) && g.qty >= 0.0
    ensures RunAgrees(fs, g)
  {
    if fs != [] {
      NonNegativeAgrees(fs[..|fs| - 1], g);
    }
  }

  // --- conservation -------------------------------------------------------------------------

  /** Cash received for sales less cash paid for purchases, before fees. */
  function CashFlow(fs: seq<Fill>): real {
    if fs == [] then 0.0
    else CashFlow(fs[..|fs| - 1]) - Toward(fs[|fs| - 1].side, Times(fs[|fs| - 1].px, fs[|fs| - 1].qty))
  }

  /** Gross traded notional. */
  function Turnover(fs: seq<Fill>): real {
    if fs == [] then 0.0 else Turnover(fs[..|fs| - 1]) + Times(fs[|fs| - 1].px, fs[|fs| - 1].qty)
  }

  /** Signed size and signed cost of the open lots. */
  function Held(lots: seq<Lot>): real { if lots == [] then 0.0 else Toward(lots[0].dir, Total(lots)) }
  function Basis(lots: seq<Lot>): real { if lots == [] then 0.0 else Toward(lots[0].dir, Cost(lots, Total(lots))) }
  function OpenNotional(lots: seq<Lot>): real { Cost(lots, Total(lots)) }

  /** One fill moves size by its signed quantity, realised plus invested money by its cash, and
      pays fees on the notional that is no longer open. */
  lemma TakeConserves(b: Book, f: Fill, fee: real) returns (gross: real, legs: real)
    requires ValidLots(b.lots) && f.qty >= 0.0
    ensures var b' := Take(b, f, fee);
      && Held(b'.lots) == Held(b.lots) + Toward(f.side, f.qty)
      && Pnl(b'.trades) == Pnl(b.trades) + gross - Times(fee, legs)
      && gross == Basis(b'.lots) - Basis(b.lots) - Toward(f.side, Times(f.px, f.qty))
      && legs == Times(f.px, f.qty) + OpenNotional(b.lots) - OpenNotional(b'.lots)
  {
    hide Times, Take;
    var t, q, b' := Total(b.lots), f.qty, Take(b, f, fee);
    TotalPositive(b.lots);
    TimesAdds(fee, 0.0, 0.0);
    TimesAdds(f.px, 0.0, 0.0);
    if SameWay(b.lots, f.side) {
      gross, legs := 0.0, 0.0;
      TakeWith(b, f, fee, t + q);
      assert t + q - t == q;
      TotalPositive(b'.lots);
    } else if q < t {
      gross, legs := GrossOf(b.lots, f.px, q), LegsOf(b.lots, f.px, q);
      TakeAgainst(b, f, fee, t - q);
      assert t - q + q == t;
    } else {
      gross, legs := GrossOf(b.lots, f.px, t), LegsOf(b.lots, f.px, t);
      TakeAgainst(b, f, fee, q - t);
      TimesAdds(f.px, t, q - t);
      assert t + (q - t) == q;
      TotalPositive(b'.lots);
    }
  }

  lemma {:induction false} NonNegativeConserves(fs: seq<Fill>, fee: real)
    requires NonNegative(fs)
    ensures var b := Replay(fs, fee);
      && ValidLots(b.lots) && Held(b.lots) == Net(fs)
      && Pnl(b.trades) == CashFlow(fs) + Basis(b.lots) - Times(fee, Turnover(fs) - OpenNotional(b.lots))
  {
    hide Times, Take, Toward, Basis, OpenNotional, Held;
    ReplayValid(fs, fee);
    if fs == [] {
      TimesAdds(fee, 0.0, 0.0);
      FlatBook();
    } else {
      var n := |fs| - 1;
      var b, b', f := Replay(fs[..n], fee), Replay(fs, fee), fs[n];
      NonNegativeConserves(fs[..n], fee);
      var gross, legs := TakeConserves(b, f, fee);
      TimesAdds(fee, Turnover(fs[..n]) - OpenNotional(b.lots), legs);
      assert Turnover(fs[..n]) - OpenNotional(b.lots) + legs == Turnover(fs) - OpenNotional(b'.lots);
    }
  }

  /** The fills the matcher does not ignore, and those it does. */
  function Effective(fs: seq<Fill>): seq<Fill> {
    if fs == [] then [] else
      var n := |fs| - 1;
      if fs[n].qty > 0.0 then Effective(fs[..n]) + [fs[n]] else Effective(fs[..n])
  }
  function Dropped(fs: seq<Fill>): seq<Fill> {
    if fs == [] then [] else
      var n := |fs| - 1;
      if fs[n].qty > 0.0 then Dropped(fs[..n]) else Dropped(fs[..n]) + [fs[n]]
  }

  lemma {:induction false} EffectiveReplay(fs: seq<Fill>, fee: real)
    ensures Replay(fs, fee) == Replay(Effective(fs), fee) && NonNegative(Effective(fs))
  {
    hide Times, Take;
    if fs != [] {
      var n := |fs| - 1;
      EffectiveReplay(fs[..n], fee);
      if fs[n].qty > 0.0 {
        ReplaySnoc(Effective(fs[..n]), fs[n], fee);
      } else {
        Ignored(Replay(fs[..n], fee), fs[n], fee);
      }
    }
  }

  lemma SumsSnoc(fs: seq<Fill>, f: Fill)
    ensures Net(fs + [f]) == Net(fs) + Toward(f.side, f.qty)
    ensures CashFlow(fs + [f]) == CashFlow(fs) - Toward(f.side, Times(f.px, f.qty))
    ensures Turnover(fs + [f]) == Turnover(fs) + Times(f.px, f.qty)
  {
    hide Times;
    assert (fs + [f])[..|fs|] == fs;
  }

  lemma {:induction false} NetSplits(fs: seq<Fill>)
    ensures Net(fs) == Net(Effective(fs)) + Net(Dropped(fs))
  {
    hide Times;
    if fs != [] {
      var n := |fs| - 1;
      NetSplits(fs[..n]);
      SumsSnoc(Effective(fs[..n]), fs[n]);
      SumsSnoc(Dropped(fs[..n]), fs[n]);
    }
  }

  lemma MergeSums(out: seq<Fill>, f: Fill)
    ensures var m, all := Merge(out, f), out + [f];
      Net(m) == Net(all) && CashFlow(m) == CashFlow(all) && Turnover(m) == Turnover(all)
  {
    hide Times, Net, CashFlow, Turnover;
    if Joins(out, f) {
      var n := |out| - 1;
      SumsSnoc(out[..n], Whole(out[n], f));
      SumsSnoc(out[..n], out[n]);
      assert out[..n] + [out[n]] == out;
      SumsSnoc(out, f);
      TimesAdds(f.px, out[n].qty, f.qty);
    }
  }

  /** Merging changes no sum. */
  lemma {:induction false} CoalesceSums(fs: seq<Fill>)
    ensures var m := Coalesce(fs); Net(m) == Net(fs) && CashFlow(m) == CashFlow(fs) && Turnover(m) == Turnover(fs)
  {
    hide Times, Net, CashFlow, Turnover, Merge, Coalesce;
    if fs == [] {
      CoalesceNone();
    } else {
      var n := |fs| - 1;
      CoalesceSnoc(fs[..n], fs[n]);
      CoalesceSums(fs[..n]);
      MergeSums(Coalesce(fs[..n]), fs[n]);
      SumsSnoc(Coalesce(fs[..n]), fs[n]);
      SumsSnoc(fs[..n], fs[n]);
      assert fs[..n] + [fs[n]] == fs;
    }
  }

  lemma {:induction false} CoalesceNonNegative(fs: seq<Fill>)
    requires NonNegative(fs)
    ensures NonNegative(Coalesce(fs))
  {
    hide Coalesce;
    if fs == [] {
      CoalesceNone();
    } else {
      var n := |fs| - 1;
      CoalesceSnoc(fs[..n], fs[n]);
      assert fs[..n] + [fs[n]] == fs;
      CoalesceNonNegative(fs[..n]);
    }
  }

  /** For every fill stream and fee rate, of the lots and trades the source reconstructs: the lots share
      one direction and carry the net of the merged fills of positive quantity, and realised PnL is
      their net cash flow plus the cost basis of the open lots, less the fee on everything traded that
      is no longer open; with a zero rate, cash flow plus cost basis. The lots agree with the net of
      all fills, which `open_exposure` reports, exactly when the merged quantities that the matcher
      ignores net to zero. */
  lemma FifoConserves(fs: seq<Fill>, fee: real)
    ensures var m := Coalesce(fs); var b, es := Replay(m, fee), Effective(m);
      && ValidLots(b.lots) && Held(b.lots) == Net(es)
      && Pnl(b.trades) == CashFlow(es) + Basis(b.lots) - Times(fee, Turnover(es) - OpenNotional(b.lots))
      && (Held(b.lots) == Net(fs) <==> Net(Dropped(m)) == 0.0)
  {
    hide *;
    EffectiveReplay(Coalesce(fs), fee);
    NonNegativeConserves(Effective(Coalesce(fs)), fee);
    NetSplits(Coalesce(fs));
    CoalesceSums(fs);
  }

  /** And where no quantity is negative, in terms of the stream itself. */
  lemma PlainFifoConserves(fs: seq<Fill>, fee: real)
    requires NonNegative(fs)
    ensures var b := Replay(Coalesce(fs), fee);
      && ValidLots(b.lots) && Held(b.lots) == Net(fs)
      && Pnl(b.trades) == CashFlow(fs) + Basis(b.lots) - Times(fee, Turnover(fs) - OpenNotional(b.lots))
  {
    hide *;
    CoalesceNonNegative(fs);
    NonNegativeConserves(Coalesce(fs), fee);
    CoalesceSums(fs);
  }

  lemma FlatBook()
    ensures Held([]) == 0.0 && Basis([]) == 0.0 && OpenNotional([]) == 0.0
  {
  }

  lemma OneLotCloses(l: Lot, f: Fill, fee: real)
    requires 0.0 < l.qty <= f.qty && l.dir != f.side
    ensures CloseLots([l], f, f.qty, fee) == Closed([], [MakeTrade(l, f, l.qty, fee)], f.qty - l.qty)
  {
    hide Times;
    assert [l][1..] == [] && CloseLots([], f, f.qty - l.qty, fee) == Closed([], [], f.qty - l.qty);
  }

  /** Buy, then sell what is there: one trade. */
  lemma BuyThenSell(a: Fill, c: Fill, fee: real)
    requires a.side.Buy? && c.side.Sell? && 0.0 < a.qty <= c.qty
    ensures Replay([a], fee) == Book([Lot(a.ts, a.qty, a.px, D.Buy)], [])
    ensures Matched(Take(Replay([a], fee), c, fee).trades) == a.qty
  {
    hide Times;
    var l := Lot(a.ts, a.qty, a.px, D.Buy);
    assert [a][..0] == [] && [] + [l] == [l];
    assert Replay([a], fee) == Take(Book([], []), a, fee);
    OneLotCloses(l, c, fee);
    var t := MakeTrade(l, c, a.qty, fee);
    assert [] + [t] == [t] && [t][1..] == [];
  }

  /** The unmerged stream: the negative fill is ignored. */
  lemma UnmergedMatch(a: Fill, b: Fill, c: Fill, fee: real)
    requires a.side.Buy? && b.qty <= 0.0 && c.side.Sell? && 0.0 < a.qty <= c.qty
    ensures Matched(Replay([a, b, c], fee).trades) == a.qty
  {
    hide Times, Take, CloseLots, Matched;
    BuyThenSell(a, c, fee);
    assert [a] + [b] == [a, b] && [a, b] + [c] == [a, b, c];
    ReplaySnoc([a], b, fee);
    Ignored(Replay([a], fee), b, fee);
    ReplaySnoc([a, b], c, fee);
  }

  /** The merged stream: the negative fill shrinks the purchase. */
  lemma MergedMatch(a: Fill, c: Fill, fee: real)
    requires a.side.Buy? && c.side.Sell? && 0.0 < a.qty <= c.qty
    ensures Matched(Replay([a, c], fee).trades) == a.qty
  {
    hide Times, Take, CloseLots, Matched;
    BuyThenSell(a, c, fee);
    assert [a] + [c] == [a, c];
    ReplaySnoc([a], c, fee);
  }

  lemma CoalesceThree(a: Fill, b: Fill, c: Fill)
    requires SameKey(a, b) && !SameKey(b, c)
    ensures Coalesce([a, b, c]) == [Whole(a, b), c]
  {
    hide Coalesce;
    assert [] + [a] == [a] && [a] + [b] == [a, b] && [a, b] + [c] == [a, b, c];
    CoalesceNone();
    CoalesceSnoc([], a);
    CoalesceSnoc([a], b);
    CoalesceSnoc([a, b], c);
    assert [a][..0] + [Whole(a, b)] == [Whole(a, b)];
  }

  /** A negative quantity is ignored by the matcher but not by the merger, so the two disagree. */
  lemma NegativeQuantityBreaks(fee: real)
    ensures var fs := [Fill(0, D.Buy, 5.0, 1.0), Fill(1, D.Buy, -2.0, 1.0), Fill(2, D.Sell, 5.0, 1.0)];
      Matched(Replay(fs, fee).trades) == 5.0 && Matched(Replay(Coalesce(fs), fee).trades) == 3.0
  {
    hide Times, Take, CloseLots, Matched, Replay, Coalesce;
    var a, b, c := Fill(0, D.Buy, 5.0, 1.0), Fill(1, D.Buy, -2.0, 1.0), Fill(2, D.Sell, 5.0, 1.0);
    CoalesceThree(a, b, c);
    UnmergedMatch(a, b, c, fee);
    MergedMatch(Whole(a, b), c, fee);
  }
}
