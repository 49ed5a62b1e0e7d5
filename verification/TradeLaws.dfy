/** Where the reconstructed trades come from. For every stream of fills there is an account of the
    trades and of the lots left open in terms of the merged fills alone: each trade pairs an entry
    fill with a later exit fill of the other side and carries their times and prices, entries are
    used oldest first, and every fill's quantity is exactly used up by its trades and its open lot. */
module TradeLaws {
  import D = Domain
  import opened Money
  import opened Fifo

  /** The positions of a trade's two fills in the stream. */
  datatype Source = Source(entry: nat, exit: nat)

  // --- what a trade says of its fills -------------------------------------------------------------

  ghost predicate TradeOf(fs: seq<Fill>, t: Trade, s: Source, fee: real) {
    && s.entry < s.exit < |fs| && fs[s.entry].side != fs[s.exit].side
    && t.entryTs == fs[s.entry].ts && t.entryPx == fs[s.entry].px && t.dir == fs[s.entry].side
    && t.exitTs == fs[s.exit].ts && t.exitPx == fs[s.exit].px
    && t.qty > 0.0
    && t.pnl == Toward(t.dir, (t.exitPx - t.entryPx) * t.qty) - fee * (t.entryPx + t.exitPx) * t.qty
    && (if t.entryPx == 0.0 then t.returnPct == 0.0 else t.returnPct * (t.entryPx * t.qty) == t.pnl)
  }

  ghost predicate TradesOf(fs: seq<Fill>, ts: seq<Trade>, src: seq<Source>, fee: real) {
    && |src| == |ts|
    && (forall i :: 0 <= i < |ts| ==> TradeOf(fs, ts[i], src[i], fee))
    && (forall i, j :: 0 <= i < j < |src| ==> src[i].entry <= src[j].entry && src[i].exit <= src[j].exit)
  }

  /** The open lots are what is left of the fills `tags`, in stream order, after those the trades use. */
  ghost predicate LotsOf(fs: seq<Fill>, lots: seq<Lot>, tags: seq<nat>) {
    && |tags| == |lots|
    && (forall i :: 0 <= i < |lots| ==>
          && tags[i] < |fs| && lots[i].qty > 0.0
          && lots[i].ts == fs[tags[i]].ts && lots[i].px == fs[tags[i]].px && lots[i].dir == fs[tags[i]].side)
    && (forall i, j :: 0 <= i < j < |tags| ==> tags[i] < tags[j])
  }

  /** The quantity of fill `n` in the trades, as entry or exit, and in the open lots. */
  function Used(ts: seq<Trade>, src: seq<Source>, n: nat): real
    requires |src| == |ts|
  {
    if ts == [] then 0.0
    else (if src[0].entry == n || src[0].exit == n then ts[0].qty else 0.0) + Used(ts[1..], src[1..], n)
  }

  function Left(lots: seq<Lot>, tags: seq<nat>, n: nat): real
    requires |tags| == |lots|
  {
    if lots == [] then 0.0 else (if tags[0] == n then lots[0].qty else 0.0) + Left(lots[1..], tags[1..], n)
  }

  ghost predicate Accounted(fs: seq<Fill>, b: Book, src: seq<Source>, tags: seq<nat>, fee: real) {
    && TradesOf(fs, b.trades, src, fee) && LotsOf(fs, b.lots, tags)
    && (forall i, j :: 0 <= i < |src| && 0 <= j < |tags| ==> src[i].entry <= tags[j])
    && forall n :: 0 <= n < |fs| ==> Used(b.trades, src, n) + Left(b.lots, tags, n) == MaxR(0.0, fs[n].qty)
  }

  // --- sums ---------------------------------------------------------------------------------------

  lemma UsedHead(ts: seq<Trade>, src: seq<Source>, n: nat)
    requires |src| == |ts| && ts != []
    ensures Used(ts, src, n)
         == (if src[0].entry == n || src[0].exit == n then ts[0].qty else 0.0) + Used(ts[1..], src[1..], n)
  {
  }

  lemma LeftHead(lots: seq<Lot>, tags: seq<nat>, n: nat)
    requires |tags| == |lots| && lots != []
    ensures Left(lots, tags, n) == (if tags[0] == n then lots[0].qty else 0.0) + Left(lots[1..], tags[1..], n)
  {
  }

  lemma {:induction false} UsedAppend(a: seq<Trade>, sa: seq<Source>, b: seq<Trade>, sb: seq<Source>, n: nat)
    requires |sa| == |a| && |sb| == |b|
    ensures Used(a + b, sa + sb, n) == Used(a, sa, n) + Used(b, sb, n)
    decreases |a|
  {
    if a == [] {
      assert a + b == b && sa + sb == sb;
    } else {
      assert (a + b)[1..] == a[1..] + b && (sa + sb)[1..] == sa[1..] + sb;
      UsedAppend(a[1..], sa[1..], b, sb, n);
    }
  }

  lemma {:induction false} LeftSnoc(lots: seq<Lot>, tags: seq<nat>, l: Lot, t: nat, n: nat)
    requires |tags| == |lots|
    ensures Left(lots + [l], tags + [t], n) == Left(lots, tags, n) + if t == n then l.qty else 0.0
    decreases |lots|
  {
    if lots == [] {
      assert lots + [l] == [l] && tags + [t] == [t];
      assert [l][1..] == [] && [t][1..] == [];
    } else {
      assert (lots + [l])[1..] == lots[1..] + [l] && (tags + [t])[1..] == tags[1..] + [t];
      LeftSnoc(lots[1..], tags[1..], l, t, n);
    }
  }

  lemma {:induction false} UsedOutside(ts: seq<Trade>, src: seq<Source>, n: nat)
    requires |src| == |ts| && forall i :: 0 <= i < |src| ==> src[i].entry < n && src[i].exit < n
    ensures Used(ts, src, n) == 0.0
    decreases |ts|
  {
    if ts != [] {
      UsedOutside(ts[1..], src[1..], n);
    }
  }

  lemma {:induction false} LeftOutside(lots: seq<Lot>, tags: seq<nat>, n: nat)
    requires |tags| == |lots| && forall i :: 0 <= i < |tags| ==> tags[i] < n
    ensures Left(lots, tags, n) == 0.0
    decreases |lots|
  {
    if lots != [] {
      LeftOutside(lots[1..], tags[1..], n);
    }
  }

  // --- closing lots ---------------------------------------------------------------------------------

  lemma RatioOf(pnl: real, px: real, m: real)
    requires m > 0.0
    ensures if px == 0.0 then Ratio(pnl, Times(px, m)) == 0.0 else Ratio(pnl, Times(px, m)) * (px * m) == pnl
  {
    assert px != 0.0 ==> px * m != 0.0;
  }

  lemma TradePnl(lot: Lot, f: Fill, m: real, fee: real)
    requires m > 0.0
    ensures var t := MakeTrade(lot, f, m, fee);
      && t.pnl == Toward(lot.dir, (f.px - lot.px) * m) - fee * (lot.px + f.px) * m
      && (if lot.px == 0.0 then t.returnPct == 0.0 else t.returnPct * (lot.px * m) == t.pnl)
  {
    RatioOf(MakeTrade(lot, f, m, fee).pnl, lot.px, m);
    assert (f.px - lot.px) * m == f.px * m - lot.px * m;
    assert fee * (lot.px + f.px) * m == fee * (f.px * m + lot.px * m);
  }

  /** The sources of the trades that the fill `n` makes with the lots `tags`. */
  function Sources(tags: seq<nat>, n: nat, k: nat): (src: seq<Source>)
    requires k <= |tags|
    ensures |src| == k && forall i :: 0 <= i < k ==> src[i] == Source(tags[i], n)
  {
    seq(k, i requires 0 <= i < k => Source(tags[i], n))
  }

  /** What closing lots against the last fill of the stream does to the account. */
  ghost predicate ClosesLots(fs: seq<Fill>, lots: seq<Lot>, tags: seq<nat>, c: Closed, q: real, fee: real)
    requires fs != [] && |tags| == |lots|
  {
    var last, gone := |fs| - 1, |lots| - |c.lots|;
    && 0 <= gone && |c.trades| <= |lots| && gone <= |c.trades| <= gone + 1
    && LotsOf(fs, c.lots, tags[gone..])
    && (forall i :: 0 <= i < |c.trades| ==> TradeOf(fs, c.trades[i], Source(tags[i], last), fee))
    && (forall n :: 0 <= n < last ==>
          Used(c.trades, Sources(tags, last, |c.trades|), n) + Left(c.lots, tags[gone..], n) == Left(lots, tags, n))
    && Used(c.trades, Sources(tags, last, |c.trades|), last) + c.rest == q
    && (q <= 0.0 ==> c.rest == q) && (q > 0.0 ==> c.rest >= 0.0)
  }

  lemma {:induction false} CloseAccounts(fs: seq<Fill>, lots: seq<Lot>, tags: seq<nat>, q: real, fee: real)
    requires fs != [] && LotsOf(fs, lots, tags) && forall i :: 0 <= i < |tags| ==> tags[i] < |fs| - 1
    ensures ClosesLots(fs, lots, tags, CloseLots(lots, fs[|fs| - 1], q, fee), q, fee)
    decreases |lots|
  {
    hide Times, TradeOf, MakeTrade, ClosesLots;
    var f := fs[|fs| - 1];
    var c := CloseLots(lots, f, q, fee);
    if lots == [] || lots[0].dir == f.side || q <= 0.0 {
      NoneClose(fs, lots, tags, q, fee);
    } else {
      var lot, m := lots[0], MinR(lots[0].qty, q);
      HeadTrade(fs, lot, tags[0], m, fee);
      if lot.qty - m <= 0.0 {
        CloseAccounts(fs, lots[1..], tags[1..], q - m, fee);
        assert c.trades[1..] == CloseLots(lots[1..], f, q - m, fee).trades;
        HeadCloses(fs, lots, tags, c, q, fee);
      } else {
        PartCloses(fs, lots, tags, c, q, fee);
      }
    }
  }

  lemma NoneClose(fs: seq<Fill>, lots: seq<Lot>, tags: seq<nat>, q: real, fee: real)
    requires fs != [] && LotsOf(fs, lots, tags)
    ensures ClosesLots(fs, lots, tags, Closed(lots, [], q), q, fee)
  {
    hide TradeOf, LotsOf, Left;
    assert tags[0..] == tags && Sources(tags, |fs| - 1, 0) == [];
  }

  lemma HeadTrade(fs: seq<Fill>, lot: Lot, tag: nat, m: real, fee: real)
    requires fs != [] && tag < |fs| - 1 && m > 0.0
    requires lot.ts == fs[tag].ts && lot.px == fs[tag].px && lot.dir == fs[tag].side && lot.dir != fs[|fs| - 1].side
    ensures var t := MakeTrade(lot, fs[|fs| - 1], m, fee); t.qty == m && TradeOf(fs, t, Source(tag, |fs| - 1), fee)
  {
    hide Times;
    TradePnl(lot, fs[|fs| - 1], m, fee);
    var trade := MakeTrade(lot, fs[|fs| - 1], m, fee);
    assert trade.qty == m && trade.entryPx == lot.px && trade.exitPx == fs[|fs| - 1].px && trade.dir == lot.dir;
  }

  /** The fill uses up the oldest lot and goes on. */
  lemma HeadCloses(fs: seq<Fill>, lots: seq<Lot>, tags: seq<nat>, c: Closed, q: real, fee: real)
    requires fs != [] && LotsOf(fs, lots, tags) && lots != [] && c.trades != []
    requires forall i :: 0 <= i < |tags| ==> tags[i] < |fs| - 1
    requires c.trades[0].qty == lots[0].qty <= q && TradeOf(fs, c.trades[0], Source(tags[0], |fs| - 1), fee)
    requires ClosesLots(fs, lots[1..], tags[1..], c.(trades := c.trades[1..]), q - lots[0].qty, fee)
    ensures ClosesLots(fs, lots, tags, c, q, fee)
  {
    var last, c1 := |fs| - 1, c.(trades := c.trades[1..]);
    var gone, src := |lots| - |c.lots|, Sources(tags, last, |c.trades|);
    assert tags[0] != last;
    hide TradeOf, LotsOf, Left, Used;
    assert tags[gone..] == tags[1..][gone - 1..];
    assert src[1..] == Sources(tags[1..], last, |c1.trades|);
    forall n: nat
      ensures Used(c.trades, src, n) == (if n == tags[0] || n == last then lots[0].qty else 0.0)
              + Used(c1.trades, src[1..], n)
      ensures Left(lots, tags, n) == (if n == tags[0] then lots[0].qty else 0.0) + Left(lots[1..], tags[1..], n)
    {
      UsedHead(c.trades, src, n);
      LeftHead(lots, tags, n);
    }
    forall i | 0 <= i < |c.trades|
      ensures TradeOf(fs, c.trades[i], Source(tags[i], last), fee)
    {
      if i > 0 {
        assert TradeOf(fs, c1.trades[i - 1], Source(tags[1..][i - 1], last), fee);
      }
    }
  }

  /** The fill is used up by part of the oldest lot. */
  lemma PartCloses(fs: seq<Fill>, lots: seq<Lot>, tags: seq<nat>, c: Closed, q: real, fee: real)
    requires fs != [] && LotsOf(fs, lots, tags) && lots != [] && 0.0 < q < lots[0].qty
    requires forall i :: 0 <= i < |tags| ==> tags[i] < |fs| - 1
    requires |c.trades| == 1 && c.trades[0].qty == q && TradeOf(fs, c.trades[0], Source(tags[0], |fs| - 1), fee)
    requires c.lots == [lots[0].(qty := lots[0].qty - q)] + lots[1..] && c.rest == 0.0
    ensures ClosesLots(fs, lots, tags, c, q, fee)
  {
    hide TradeOf;
    var last := |fs| - 1;
    var src := Sources(tags, last, 1);
    assert tags[0..] == tags && c.trades[1..] == [] && src[1..] == [] && c.lots[1..] == lots[1..];
    assert |c.lots| == |lots|;
    forall n: nat
      ensures Used(c.trades, src, n) == if n == tags[0] || n == last then q else 0.0
      ensures Left(c.lots, tags, n) == Left(lots, tags, n) - if n == tags[0] then q else 0.0
    {
      assert Used(c.trades[1..], src[1..], n) == 0.0;
    }
  }

  // --- one fill -------------------------------------------------------------------------------------

  lemma Longer(fs: seq<Fill>, f: Fill, b: Book, src: seq<Source>, tags: seq<nat>, fee: real)
    requires Accounted(fs, b, src, tags, fee)
    ensures TradesOf(fs + [f], b.trades, src, fee) && LotsOf(fs + [f], b.lots, tags)
    ensures forall i :: 0 <= i < |src| ==> src[i].entry < |fs| && src[i].exit < |fs|
  {
    forall i | 0 <= i < |src|
      ensures TradeOf(fs + [f], b.trades[i], src[i], fee) && src[i].entry < |fs| && src[i].exit < |fs|
    {
      assert TradeOf(fs, b.trades[i], src[i], fee);
    }
  }

  lemma TradesAppend(fs: seq<Fill>, a: seq<Trade>, sa: seq<Source>, b: seq<Trade>, sb: seq<Source>, fee: real)
    requires TradesOf(fs, a, sa, fee) && TradesOf(fs, b, sb, fee)
    requires forall i, j :: 0 <= i < |sa| && 0 <= j < |sb| ==> sa[i].entry <= sb[j].entry && sa[i].exit <= sb[j].exit
    ensures TradesOf(fs, a + b, sa + sb, fee)
  {
    hide TradeOf;
  }

  /** The lots that stay open after the fill, and where they come from. */
  function Tags(tags: seq<nat>, c: Closed, last: nat): seq<nat>
    requires |c.lots| <= |tags|
  {
    if c.rest > 0.0 then tags[|tags| - |c.lots|..] + [last] else tags[|tags| - |c.lots|..]
  }

  /** The new trades follow the old ones and come before the lots that stay open. */
  lemma MadeInOrder(src: seq<Source>, tags: seq<nat>, gone: nat, k: nat, last: nat)
    requires gone <= k <= gone + 1 && k <= |tags|
    requires forall i, j :: 0 <= i < |src| && 0 <= j < |tags| ==> src[i].entry <= tags[j]
    requires forall i :: 0 <= i < |src| ==> src[i].entry < last && src[i].exit < last
    requires forall i, j :: 0 <= i < j < |tags| ==> tags[i] < tags[j]
    requires forall i :: 0 <= i < |tags| ==> tags[i] < last
    ensures var made := Sources(tags, last, k);
      && (forall i, j :: 0 <= i < |src| && 0 <= j < |made| ==>
            src[i].entry <= made[j].entry && src[i].exit <= made[j].exit)
      && (forall i, j :: 0 <= i < |src + made| && gone <= j < |tags| ==> (src + made)[i].entry <= tags[j])
  {
    var made := Sources(tags, last, k);
    forall i, j | 0 <= i < |src + made| && gone <= j < |tags|
      ensures (src + made)[i].entry <= tags[j]
    {
      if i >= |src| {
        assert (src + made)[i] == Source(tags[i - |src|], last);
      }
    }
  }

  lemma TakeTrades(fs: seq<Fill>, f: Fill, b: Book, src: seq<Source>, tags: seq<nat>, c: Closed, fee: real)
    requires Accounted(fs, b, src, tags, fee) && ClosesLots(fs + [f], b.lots, tags, c, f.qty, fee)
    ensures TradesOf(fs + [f], b.trades + c.trades, src + Sources(tags, |fs|, |c.trades|), fee)
  {
    hide TradeOf, Used, Left;
    var all, made := fs + [f], Sources(tags, |fs|, |c.trades|);
    Longer(fs, f, b, src, tags, fee);
    MadeInOrder(src, tags, |b.lots| - |c.lots|, |c.trades|, |fs|);
    assert TradesOf(all, c.trades, made, fee) by {
      forall i | 0 <= i < |c.trades|
        ensures TradeOf(all, c.trades[i], made[i], fee)
      {
        assert TradeOf(all, c.trades[i], Source(tags[i], |fs|), fee);
      }
    }
    hide TradesOf, LotsOf;
    TradesAppend(all, b.trades, src, c.trades, made, fee);
  }

  lemma TakeLots(fs: seq<Fill>, f: Fill, lots: seq<Lot>, tags: seq<nat>, rest: real)
    requires LotsOf(fs + [f], lots, tags) && forall i :: 0 <= i < |tags| ==> tags[i] < |fs|
    ensures rest > 0.0 ==> LotsOf(fs + [f], lots + [Lot(f.ts, rest, f.px, f.side)], tags + [|fs|])
  {
  }

  /** The tags that stay come after the entries of all trades. */
  lemma TagsLast(src: seq<Source>, tags: seq<nat>, c: Closed, k: nat, last: nat)
    requires |c.lots| <= |tags| && |tags| - |c.lots| <= k <= |tags| - |c.lots| + 1 && k <= |tags|
    requires forall i, j :: 0 <= i < |src| && 0 <= j < |tags| ==> src[i].entry <= tags[j]
    requires forall i :: 0 <= i < |src| ==> src[i].entry < last && src[i].exit < last
    requires forall i, j :: 0 <= i < j < |tags| ==> tags[i] < tags[j]
    requires forall i :: 0 <= i < |tags| ==> tags[i] < last
    ensures var src', tags' := src + Sources(tags, last, k), Tags(tags, c, last);
      forall i, j :: 0 <= i < |src'| && 0 <= j < |tags'| ==> src'[i].entry <= tags'[j]
  {
    var gone := |tags| - |c.lots|;
    MadeInOrder(src, tags, gone, k, last);
    var src', tags', rest := src + Sources(tags, last, k), Tags(tags, c, last), tags[gone..];
    forall i, j | 0 <= i < |src'| && 0 <= j < |tags'|
      ensures src'[i].entry <= tags'[j]
    {
      if j < |rest| {
        assert tags'[j] == tags[gone + j];
      } else if i < |src| {
        assert src'[i] == src[i];
      } else {
        assert src'[i] == Source(tags[i - |src|], last);
      }
    }
  }

  lemma TakeShapes(fs: seq<Fill>, f: Fill, b: Book, src: seq<Source>, tags: seq<nat>, c: Closed, fee: real)
    requires Accounted(fs, b, src, tags, fee) && ClosesLots(fs + [f], b.lots, tags, c, f.qty, fee)
    requires c == CloseLots(b.lots, f, f.qty, fee)
    ensures var src', tags' := src + Sources(tags, |fs|, |c.trades|), Tags(tags, c, |fs|);
      var b' := Take(b, f, fee);
      && TradesOf(fs + [f], b'.trades, src', fee) && LotsOf(fs + [f], b'.lots, tags')
      && (forall i, j :: 0 <= i < |src'| && 0 <= j < |tags'| ==> src'[i].entry <= tags'[j])
  {
    hide TradeOf, CloseLots, Used, Left, TradesOf;
    Longer(fs, f, b, src, tags, fee);
    TagsBefore(fs, b, src, tags, fee);
    TakeTrades(fs, f, b, src, tags, c, fee);
    TagsLast(src, tags, c, |c.trades|, |fs|);
    hide LotsOf;
    TakeLots(fs, f, c.lots, tags[|tags| - |c.lots|..], c.rest);
  }

  lemma TakeSums(fs: seq<Fill>, f: Fill, b: Book, src: seq<Source>, tags: seq<nat>, c: Closed, fee: real, n: nat)
    requires Accounted(fs, b, src, tags, fee) && ClosesLots(fs + [f], b.lots, tags, c, f.qty, fee) && n <= |fs|
    requires c == CloseLots(b.lots, f, f.qty, fee)
    requires |Tags(tags, c, |fs|)| == |Take(b, f, fee).lots|
    ensures var src', tags' := src + Sources(tags, |fs|, |c.trades|), Tags(tags, c, |fs|);
      var b' := Take(b, f, fee);
      Used(b'.trades, src', n) + Left(b'.lots, tags', n) == MaxR(0.0, (fs + [f])[n].qty)
  {
    hide TradeOf, CloseLots;
    Longer(fs, f, b, src, tags, fee);
    var last, made, rest := |fs|, Sources(tags, |fs|, |c.trades|), tags[|tags| - |c.lots|..];
    hide Used, Left, LotsOf, TradesOf;
    UsedAppend(b.trades, src, c.trades, made, n);
    LeftSnoc(c.lots, rest, Lot(f.ts, c.rest, f.px, f.side), last, n);
    if n == last {
      UsedOutside(b.trades, src, last);
      TagsBefore(fs, b, src, tags, fee);
      LeftOutside(c.lots, rest, last);
    } else {
      assert (fs + [f])[n] == fs[n];
    }
  }

  lemma TagsBefore(fs: seq<Fill>, b: Book, src: seq<Source>, tags: seq<nat>, fee: real)
    requires Accounted(fs, b, src, tags, fee)
    ensures |tags| == |b.lots| && forall i :: 0 <= i < |tags| ==> tags[i] < |fs|
  {
    hide TradesOf, Used, Left;
  }

  lemma TakeAccounts(fs: seq<Fill>, f: Fill, b: Book, src: seq<Source>, tags: seq<nat>, fee: real)
      returns (src': seq<Source>, tags': seq<nat>)
    requires Accounted(fs, b, src, tags, fee)
    ensures Accounted(fs + [f], Take(b, f, fee), src', tags', fee)
  {
    hide TradeOf, CloseLots, LotsOf, TradesOf, Used, Left;
    Longer(fs, f, b, src, tags, fee);
    TagsBefore(fs, b, src, tags, fee);
    CloseAccounts(fs + [f], b.lots, tags, f.qty, fee);
    var c := CloseLots(b.lots, f, f.qty, fee);
    src', tags' := src + Sources(tags, |fs|, |c.trades|), Tags(tags, c, |fs|);
    TakeShapes(fs, f, b, src, tags, c, fee);
    forall n: nat | n <= |fs|
      ensures Used(Take(b, f, fee).trades, src', n) + Left(Take(b, f, fee).lots, tags', n)
           == MaxR(0.0, (fs + [f])[n].qty)
    {
      TakeSums(fs, f, b, src, tags, c, fee, n);
    }
  }

  /** Every stream has such an account. */
  lemma {:induction false} ReplayAccounts(fs: seq<Fill>, fee: real) returns (src: seq<Source>, tags: seq<nat>)
    ensures Accounted(fs, Replay(fs, fee), src, tags, fee)
    decreases |fs|
  {
    hide Take, TradeOf;
    if fs == [] {
      src, tags := [], [];
    } else {
      var n := |fs| - 1;
      src, tags := ReplayAccounts(fs[..n], fee);
      assert fs == fs[..n] + [fs[n]];
      src, tags := TakeAccounts(fs[..n], fs[n], Replay(fs[..n], fee), src, tags, fee);
    }
  }

  /** For every stream of fills, the reconstructed trades and the lots left open account for the merged
      fills: which two fills each trade pairs, at which times, prices and profit, oldest entry first,
      and every quantity used exactly once. */
  lemma TradesAreAccounted(fs: seq<Fill>, fee: real)
    ensures exists src, tags :: Accounted(Coalesce(fs), Replay(Coalesce(fs), fee), src, tags, fee)
  {
    hide Coalesce, Replay, Accounted;
    var src, tags := ReplayAccounts(Coalesce(fs), fee);
  }

  // --- where the merged fills come from -----------------------------------------------------------------

  function Quantity(fs: seq<Fill>): real {
    if fs == [] then 0.0 else Quantity(fs[..|fs| - 1]) + fs[|fs| - 1].qty
  }

  /** `g` is the run `[a, b)` of the stream in one piece: its side, price and whole quantity, at the time
      of its first fill. */
  ghost predicate RunOf(fs: seq<Fill>, a: nat, b: nat, g: Fill) {
    && a < b <= |fs| && g.ts == fs[a].ts && g.qty == Quantity(fs[a..b])
    && forall j :: a <= j < b ==> SameKey(fs[j], g)
  }

  function RunEnd(fs: seq<Fill>, cuts: seq<nat>, i: nat): nat { if i + 1 < |cuts| then cuts[i + 1] else |fs| }

  /** The stream cut into runs, each merged into one fill, neighbours differing in side or price. */
  ghost predicate CutInto(fs: seq<Fill>, gs: seq<Fill>, cuts: seq<nat>) {
    && |cuts| == |gs| && (if fs == [] then gs == [] else gs != [] && cuts[0] == 0)
    && (forall i :: 0 <= i < |gs| ==> RunOf(fs, cuts[i], RunEnd(fs, cuts, i), gs[i]))
    && (forall i :: 0 < i < |gs| ==> !SameKey(gs[i - 1], gs[i]))
  }

  lemma RunGrows(fs: seq<Fill>, f: Fill, a: nat, b: nat, g: Fill)
    requires RunOf(fs, a, b, g)
    ensures RunOf(fs + [f], a, b, g)
    ensures b == |fs| && SameKey(g, f) ==> RunOf(fs + [f], a, b + 1, Whole(g, f))
  {
    assert (fs + [f])[a..b] == fs[a..b];
    if b == |fs| {
      var run := (fs + [f])[a..b + 1];
      assert run == fs[a..b] + [f] && run[..|run| - 1] == fs[a..b];
    }
  }

  lemma RunStarts(fs: seq<Fill>, f: Fill)
    ensures RunOf(fs + [f], |fs|, |fs| + 1, f)
  {
    assert (fs + [f])[|fs|..|fs| + 1] == [f];
    assert [f][..0] == [];
  }

  /** The last run grows by the fill. */
  lemma JoinCuts(fs: seq<Fill>, gs: seq<Fill>, cuts: seq<nat>, f: Fill)
    requires CutInto(fs, gs, cuts) && Joins(gs, f)
    ensures CutInto(fs + [f], Merge(gs, f), cuts)
  {
    hide RunOf, Quantity;
    var n := |gs| - 1;
    var gs' := gs[..n] + [Whole(gs[n], f)];
    forall i | 0 <= i < |gs'|
      ensures RunOf(fs + [f], cuts[i], RunEnd(fs + [f], cuts, i), gs'[i])
    {
      RunGrows(fs, f, cuts[i], RunEnd(fs, cuts, i), gs[i]);
    }
  }

  /** The fill starts a run of its own. */
  lemma StartCut(fs: seq<Fill>, gs: seq<Fill>, cuts: seq<nat>, f: Fill)
    requires CutInto(fs, gs, cuts) && !Joins(gs, f)
    ensures CutInto(fs + [f], Merge(gs, f), cuts + [|fs|])
  {
    hide RunOf, Quantity;
    var gs', cuts' := gs + [f], cuts + [|fs|];
    RunStarts(fs, f);
    forall i | 0 <= i < |gs'|
      ensures RunOf(fs + [f], cuts'[i], RunEnd(fs + [f], cuts', i), gs'[i])
    {
      if i < |gs| {
        RunGrows(fs, f, cuts[i], RunEnd(fs, cuts, i), gs[i]);
        assert RunEnd(fs + [f], cuts', i) == RunEnd(fs, cuts, i);
      }
    }
  }

  /** Merging joins exactly the maximal runs of consecutive fills of one side and price. */
  lemma {:induction false} CoalesceCuts(fs: seq<Fill>) returns (cuts: seq<nat>)
    ensures CutInto(fs, Coalesce(fs), cuts)
    decreases |fs|
  {
    hide Merge, RunOf, Joins;
    if fs == [] {
      cuts := [];
    } else {
      var n := |fs| - 1;
      cuts := CoalesceCuts(fs[..n]);
      assert fs == fs[..n] + [fs[n]];
      if Joins(Coalesce(fs[..n]), fs[n]) {
        JoinCuts(fs[..n], Coalesce(fs[..n]), cuts, fs[n]);
      } else {
        StartCut(fs[..n], Coalesce(fs[..n]), cuts, fs[n]);
        cuts := cuts + [n];
      }
    }
  }

  lemma MergedFillsAreRuns(fs: seq<Fill>)
    ensures exists cuts :: CutInto(fs, Coalesce(fs), cuts)
  {
    hide Coalesce, CutInto;
    var cuts := CoalesceCuts(fs);
  }
}
