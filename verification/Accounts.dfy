/** Three accounts of one fill history: the average-cost position of the order management system, the
    FIFO lots of the trade reconstruction, and the cash ledger; for any history of fills, and for what
    a kernel run books and logs. */
module Accounts {
  import opened Money
  import D = Domain
  import O = Oms
  import R = OmsRuns
  import K = Kernel
  import KernelBooks
  import F = Fifo
  import L = Ledger

  // --- one fill on an average-cost position -----------------------------------------------------

  function Mult(inst: D.Instrument): real { inst.multiplier as real }

  function Signed(f: D.Fill): real { (f.side.Sign() * f.qty) as real }

  /** Realised PnL less the cost of what is held. */
  function Invested(p: O.Position, inst: D.Instrument): real {
    p.realized - Times(Mult(inst), Times(p.avg, p.signed as real))
  }

  /** `Position::unrealized_pnl`. */
  function Unrealized(p: O.Position, inst: D.Instrument, mark: real): real {
    if p.signed == 0 then 0.0
    else (if p.signed > 0 then 1.0 else -1.0) * D.Abs(p.signed) as real * O.PnlPerQty(inst, p.avg, mark)
  }

  predicate Opposes(p: O.Position, f: D.Fill) {
    p.signed != 0 && (p.signed > 0) != (f.side.Sign() * f.qty > 0)
  }

  /** The guard that loses money: closing, at a price, units whose entry price is zero. */
  predicate FreeEntry(p: O.Position, f: D.Fill, inst: D.Instrument) {
    Opposes(p, f) && f.qty > 0 && p.avg == 0.0 && inst.multiplier != 0 && f.px != 0
  }

  lemma Weighted(p: real, a: nat, q: real, b: nat)
    requires a + b > 0
    ensures Times(O.Average(p, a, q, b), a as real + b as real) == Times(p, a as real) + Times(q, b as real)
  {
  }

  /** Averaging in: the cost held grows by the notional. */
  lemma AveragingKeepsCost(p: O.Position, f: D.Fill, inst: D.Instrument)
    requires !Opposes(p, f)
    ensures var p' := O.BookFill(p, f, inst);
      && Times(p'.avg, p'.signed as real) == Times(p.avg, p.signed as real) + Times(f.px as real, Signed(f))
      && p'.realized == p.realized - f.fee && p'.signed as real == p.signed as real + Signed(f)
  {
    hide Times, O.Average;
    var p', px, a, b := O.BookFill(p, f, inst), f.px as real, D.Abs(p.signed) as real, f.qty as real;
    TimesAdds(p.avg, 0.0, 0.0);
    TimesAdds(px, 0.0, 0.0);
    TimesAdds(0.0, 0.0, 0.0);
    if p.signed != 0 {
      Weighted(p.avg, D.Abs(p.signed), px, f.qty);
      TimesNegates(p'.avg, a + b);
      TimesNegates(p.avg, a);
      TimesNegates(px, b);
      assert p.signed > 0 ==> p.signed as real == a && Signed(f) == b && p'.signed as real == a + b;
      assert p.signed < 0 ==> p.signed as real == -a && Signed(f) == -b && p'.signed as real == -(a + b);
    }
  }

  /** Closing `n` units of a position held at `avg` realises the move; nothing if they were free. */
  lemma GainIsMove(inst: D.Instrument, avg: real, px: real, n: real)
    requires !inst.inverse
    ensures Times(O.PnlPerQty(inst, avg, px), n)
         == if avg == 0.0 then 0.0 else Times(Mult(inst), Times(px, n)) - Times(Mult(inst), Times(avg, n))
    ensures Times(avg, n) == 0.0 <==> avg == 0.0 || n == 0.0
    ensures avg == 0.0 ==> Times(Mult(inst), Times(avg, n)) == 0.0
    ensures Times(Mult(inst), Times(px, n)) == 0.0 <==> inst.multiplier == 0 || px == 0.0 || n == 0.0
  {
    var m := Mult(inst);
    assert n * (m * (px - avg)) == m * (px * n) - m * (avg * n);
    assert px * n == 0.0 <==> px == 0.0 || n == 0.0;
    assert m * (px * n) == 0.0 <==> m == 0.0 || px * n == 0.0;
  }

  /** Units closed by an opposing fill, signed as the position was. */
  function Closing(p: O.Position, f: D.Fill): real {
    (if p.signed > 0 then 1.0 else -1.0) * D.Min(D.Abs(p.signed), f.qty) as real
  }

  lemma ClosingBooks(p: O.Position, f: D.Fill, inst: D.Instrument)
    requires Opposes(p, f)
    ensures var p', n := O.BookFill(p, f, inst), Closing(p, f); var q := p.signed as real;
      && p'.realized == p.realized + Times(O.PnlPerQty(inst, p.avg, f.px as real), n) - f.fee
      && (f.qty <= D.Abs(p.signed) ==>
            n == -Signed(f) && (p'.signed == 0 || p'.avg == p.avg) && p'.signed as real == q - n)
      && (f.qty > D.Abs(p.signed) ==> n == q && p'.avg == f.px as real && p'.signed as real == q + Signed(f))
      && (n == 0.0 <==> f.qty == 0)
  {
  }

  lemma ClosingKeepsCost(p: O.Position, f: D.Fill, inst: D.Instrument)
    requires Opposes(p, f) && !inst.inverse
    ensures var p', px, n := O.BookFill(p, f, inst), f.px as real, Closing(p, f);
      Times(p'.avg, p'.signed as real) - Times(p.avg, p.signed as real) - Times(px, Signed(f))
      == Times(px, n) - Times(p.avg, n)
  {
    hide Times, O.BookFill;
    var p', px, n, q := O.BookFill(p, f, inst), f.px as real, Closing(p, f), p.signed as real;
    ClosingBooks(p, f, inst);
    TimesAdds(px, n, Signed(f));
    TimesAdds(p.avg, n, q - n);
    TimesAdds(p'.avg, 0.0, 0.0);
    TimesAdds(p.avg, 0.0, 0.0);
    TimesAdds(px, 0.0, 0.0);
  }

  /** A fill on a linear position costs its notional and its fee, realised or invested: exactly when
      it does not close, at a price, units entered at zero. */
  lemma FillConserves(p: O.Position, f: D.Fill, inst: D.Instrument)
    requires !inst.inverse
    ensures !FreeEntry(p, f, inst) <==>
      Invested(O.BookFill(p, f, inst), inst)
          == Invested(p, inst) - Times(Mult(inst), Times(f.px as real, Signed(f))) - f.fee
  {
    hide Times, O.BookFill, Mult;
    if Opposes(p, f) {
      ClosingConserves(p, f, inst);
    } else {
      AveragingKeepsCost(p, f, inst);
      TimesAdds(Mult(inst), Times(p.avg, p.signed as real), Times(f.px as real, Signed(f)));
    }
  }

  lemma ClosingConserves(p: O.Position, f: D.Fill, inst: D.Instrument)
    requires !inst.inverse && Opposes(p, f)
    ensures !FreeEntry(p, f, inst) <==>
      Invested(O.BookFill(p, f, inst), inst)
          == Invested(p, inst) - Times(Mult(inst), Times(f.px as real, Signed(f))) - f.fee
  {
    hide Times, O.BookFill, O.PnlPerQty, Closing, Mult;
    var p', m, px, n := O.BookFill(p, f, inst), Mult(inst), f.px as real, Closing(p, f);
    var held, held' := Times(p.avg, p.signed as real), Times(p'.avg, p'.signed as real);
    var paid, sold, cost := Times(px, Signed(f)), Times(px, n), Times(p.avg, n);
    ClosingBooks(p, f, inst);
    ClosingKeepsCost(p, f, inst);
    GainIsMove(inst, p.avg, px, n);
    TimesAdds(m, held, paid);
    TimesAdds(m, held + paid, sold - cost);
    TimesAdds(m, sold - cost, cost);
    assert sold - cost + cost == sold && held' == held + paid + (sold - cost);
    assert Times(m, held') == Times(m, held) + Times(m, paid) + Times(m, sold) - Times(m, cost);
    var gain := Times(O.PnlPerQty(inst, p.avg, px), n);
    assert Invested(p', inst) == Invested(p, inst) - Times(m, paid) - f.fee + gain - (Times(m, sold) - Times(m, cost));
  }

  // --- one fill on an inverse position --------------------------------------------------------------

  /** Coins per contract at a price; no proof looks inside but for these laws. */
  function Per(qty: real, px: real): real
    requires px != 0.0
  {
    qty / px
  }

  lemma PerAdds(a: real, b: real, px: real)
    requires px != 0.0
    ensures Per(a + b, px) == Per(a, px) + Per(b, px) && Per(0.0, px) == 0.0
  {
  }

  lemma PerNegates(a: real, px: real)
    requires px != 0.0
    ensures Per(-a, px) == -Per(a, px)
  {
  }

  /** The coins an open position was entered for. */
  function Coins(p: O.Position): real
    requires p.signed != 0 ==> p.avg != 0.0
  {
    if p.signed == 0 then 0.0 else Per(p.signed as real, p.avg)
  }

  /** Realised PnL, in coins, plus the coins entered for. */
  function InvestedCoins(p: O.Position, inst: D.Instrument): real
    requires p.signed != 0 ==> p.avg != 0.0
  {
    p.realized + Times(Mult(inst), Coins(p))
  }

  lemma CrossMultiply(x: real, y: real, z: real, w: real)
    requires y > 0.0 && w > 0.0
    ensures x / y == z / w <==> x * w == z * y
  {
    assert x / y * y == x && z / w * w == z;
    if x / y == z / w {
      assert x * w == x / y * y * w && z * y == z / w * w * y;
    }
    if x * w == z * y {
      assert x / y == x * w / (y * w);
      assert z / w == z * y / (y * w);
    }
  }

  lemma SumOfQuotients(a: real, p: real, b: real, q: real)
    requires p > 0.0 && q > 0.0
    ensures p * q > 0.0 && a / p + b / q == (a * q + b * p) / (p * q)
  {
    assert a / p == a * q / (p * q);
    assert b / q == b * p / (p * q);
  }

  /** The two sides differ by the squared price difference. */
  lemma SquaredDifference(a: real, p: real, b: real, q: real)
    ensures (a * q + b * p) * (p * a + q * b) - (a + b) * (a + b) * (p * q) == a * b * ((p - q) * (p - q))
  {
  }

  lemma ProductZero(x: real, y: real)
    ensures x * (y * y) == 0.0 <==> x == 0.0 || y == 0.0
  {
    ZeroProduct(x, y * y);
    ZeroProduct(y, y);
  }

  lemma ZeroProduct(x: real, y: real)
    ensures x * y == 0.0 <==> x == 0.0 || y == 0.0
  {
    if x > 0.0 {
      NonZeroProduct(x, y);
    } else if x < 0.0 {
      NonZeroProduct(-x, y);
      assert -x * y == -(x * y);
    }
  }

  lemma DoubleQuotient(s: real, c: real)
    requires s > 0.0 && c > 0.0
    ensures c / s > 0.0 && s / (c / s) == s * s / c
  {
    var r := c / s;
    assert r * s == c;
    CrossMultiply(s, r, s * s, c);
    assert s * c == s * s * r;
  }

  /** With the products named. */
  lemma QuotientsMeet(sum: real, cost: real, top: real, bottom: real, gap: real)
    requires sum > 0.0 && cost > 0.0 && bottom > 0.0 && top * cost - sum * sum * bottom == gap
    ensures sum / (cost / sum) == top / bottom <==> gap == 0.0
  {
    DoubleQuotient(sum, cost);
    CrossMultiply(sum * sum, cost, top, bottom);
  }

  lemma CostPositive(x: real, p: real, y: real, q: real)
    requires x > 0.0 && y >= 0.0 && p > 0.0 && q > 0.0
    ensures p * x + q * y > 0.0
  {
    NonZeroProduct(p, x);
    assert p * x > 0.0;
    assert q * y >= 0.0;
  }

  lemma GapZero(x: real, p: real, y: real, q: real)
    requires x > 0.0
    ensures x * y * ((p - q) * (p - q)) == 0.0 <==> y == 0.0 || p == q
  {
    ProductZero(x * y, p - q);
    NonZeroProduct(x, y);
  }

  lemma HarmonicIff(x: real, p: real, y: real, q: real)
    requires x > 0.0 && y >= 0.0 && p > 0.0 && q > 0.0
    ensures p * x + q * y > 0.0
    ensures (x + y) / ((p * x + q * y) / (x + y)) == x / p + y / q <==> y == 0.0 || p == q
  {
    CostPositive(x, p, y, q);
    SumOfQuotients(x, p, y, q);
    SquaredDifference(x, p, y, q);
    GapZero(x, p, y, q);
    QuotientsMeet(x + y, p * x + q * y, x * q + y * p, p * q, x * y * ((p - q) * (p - q)));
  }

  lemma NonZeroProduct(x: real, y: real)
    requires x > 0.0
    ensures x * y == 0.0 <==> y == 0.0
  {
  }

  /** The arithmetic mean stands for the coins of both parts only if one is empty or the prices agree. */
  lemma MeanKeepsCoins(p: real, a: nat, q: real, b: nat)
    requires p > 0.0 && q > 0.0 && a > 0
    ensures O.Average(p, a, q, b) > 0.0
    ensures Per(a as real + b as real, O.Average(p, a, q, b)) == Per(a as real, p) + Per(b as real, q)
      <==> b == 0 || p == q
  {
    var x, y := a as real, b as real;
    HarmonicIff(x, p, y, q);
    DoubleQuotient(x + y, p * x + q * y);
    AverageIs(p, a, q, b);
    hide O.Average;
  }

  lemma AverageIs(p: real, a: nat, q: real, b: nat)
    requires a + b > 0
    ensures O.Average(p, a, q, b) == (p * a as real + q * b as real) / (a as real + b as real)
  {
    assert (a + b) as real == a as real + b as real;
  }

  /** Averaging into an inverse position at another price. */
  predicate AveragesApart(p: O.Position, f: D.Fill, inst: D.Instrument) {
    p.signed != 0 && !Opposes(p, f) && f.qty > 0 && p.avg != f.px as real && inst.multiplier != 0
  }

  lemma InverseGain(inst: D.Instrument, avg: real, px: real, n: real)
    requires inst.inverse && avg != 0.0 && px != 0.0
    ensures Times(O.PnlPerQty(inst, avg, px), n) == Times(Mult(inst), Per(n, avg)) - Times(Mult(inst), Per(n, px))
  {
    var m := Mult(inst);
    assert n * (m * (1.0 / avg - 1.0 / px)) == m * (n * (1.0 / avg)) - m * (n * (1.0 / px));
    assert n * (1.0 / avg) == n / avg && n * (1.0 / px) == n / px;
  }

  lemma InverseClosing(p: O.Position, f: D.Fill, inst: D.Instrument)
    requires inst.inverse && Opposes(p, f) && p.avg > 0.0 && f.px > 0
    ensures var p' := O.BookFill(p, f, inst);
      && (p'.signed != 0 ==> p'.avg > 0.0)
      && InvestedCoins(p', inst) == InvestedCoins(p, inst) + Times(Mult(inst), Per(Signed(f), f.px as real)) - f.fee
  {
    hide Times, O.BookFill, O.PnlPerQty, Closing, Per;
    var p', m, px, n, q := O.BookFill(p, f, inst), Mult(inst), f.px as real, Closing(p, f), p.signed as real;
    ClosingBooks(p, f, inst);
    InverseGain(inst, p.avg, px, n);
    if f.qty <= D.Abs(p.signed) {
      assert Signed(f) == -n;
      PerAdds(q - n, n, p.avg);
      PerNegates(n, px);
      TimesNegates(m, Per(n, px));
      TimesAdds(m, Per(q - n, p.avg), Per(n, p.avg));
      assert q - n + n == q;
      assert Coins(p') == Per(q - n, p.avg) && Coins(p) == Per(q, p.avg);
      assert Times(m, Per(Signed(f), px)) == -Times(m, Per(n, px));
      assert Times(m, Coins(p)) == Times(m, Coins(p')) + Times(m, Per(n, p.avg));
      assert p'.realized == p.realized + (Times(m, Per(n, p.avg)) - Times(m, Per(n, px))) - f.fee;
    } else {
      PerAdds(q, Signed(f), px);
      TimesAdds(m, Per(q, px), Per(Signed(f), px));
      assert Coins(p) == Per(q, p.avg) && p'.avg == px && p'.signed as real == q + Signed(f);
      assert Coins(p') == if p'.signed == 0 then 0.0 else Per(q + Signed(f), px);
      PerAdds(0.0, 0.0, px);
      assert Times(m, Coins(p')) == Times(m, Per(q, px)) + Times(m, Per(Signed(f), px));
      assert p'.realized == p.realized + (Times(m, Per(q, p.avg)) - Times(m, Per(q, px))) - f.fee;
    }
  }

  lemma InverseAveraging(p: O.Position, f: D.Fill, inst: D.Instrument)
    requires inst.inverse && p.signed != 0 && !Opposes(p, f) && p.avg > 0.0 && f.px > 0
    ensures var p' := O.BookFill(p, f, inst);
      && (p'.signed != 0 ==> p'.avg > 0.0) && p'.realized == p.realized - f.fee
      && (Coins(p') == Coins(p) + Per(Signed(f), f.px as real) <==> f.qty == 0 || p.avg == f.px as real)
  {
    hide O.Average, Per;
    var a, b, px := D.Abs(p.signed), f.qty, f.px as real;
    MeanKeepsCoins(p.avg, a, px, b);
    PerNegates(a as real + b as real, O.Average(p.avg, a, px, b));
    PerNegates(a as real, p.avg);
    PerNegates(b as real, px);
    var p' := O.BookFill(p, f, inst);
    assert p.signed > 0 ==> p'.signed as real == a as real + b as real && Signed(f) == b as real;
    assert p.signed < 0 ==> p'.signed as real == -(a as real + b as real) && Signed(f) == -(b as real);
  }

  /** A fill on an inverse position is worth its coins less its fee, realised or entered for: exactly
      when it does not average into the position at another price. The source averages prices
      arithmetically, and coins go by their reciprocals. */
  lemma InverseFillConserves(p: O.Position, f: D.Fill, inst: D.Instrument)
    requires inst.inverse && (p.signed != 0 ==> p.avg > 0.0) && f.px > 0
    ensures var p' := O.BookFill(p, f, inst);
      && (p'.signed != 0 ==> p'.avg > 0.0)
      && (!AveragesApart(p, f, inst) <==>
            InvestedCoins(p', inst) == InvestedCoins(p, inst) + Times(Mult(inst), Per(Signed(f), f.px as real)) - f.fee)
  {
    var m, px := Mult(inst), f.px as real;
    if p.signed == 0 {
      PerAdds(0.0, 0.0, px);
      TimesAdds(m, 0.0, 0.0);
    } else {
      hide Times, Per, O.BookFill, O.PnlPerQty;
      if Opposes(p, f) {
        InverseClosing(p, f, inst);
      } else {
        InverseAveraging(p, f, inst);
        var p' := O.BookFill(p, f, inst);
        TimesAdds(m, Coins(p), Per(Signed(f), px));
        TimesInjective(m, Coins(p'), Coins(p) + Per(Signed(f), px));
      }
    }
  }

  lemma TimesInjective(m: real, x: real, y: real)
    ensures Times(m, x) == Times(m, y) <==> m == 0.0 || x == y
  {
    assert m * x - m * y == m * (x - y);
  }

  // --- the whole history ------------------------------------------------------------------------

  function AsTrade(f: D.Fill): F.Fill { F.Fill(f.ts, f.side, f.qty as real, f.px as real) }

  /** The history as the Python tools see it. */
  function Trades(fs: seq<D.Fill>): seq<F.Fill> {
    if fs == [] then [] else Trades(fs[..|fs| - 1]) + [AsTrade(fs[|fs| - 1])]
  }

  function Fees(fs: seq<D.Fill>): real { if fs == [] then 0.0 else Fees(fs[..|fs| - 1]) + fs[|fs| - 1].fee }

  /** No fill closes, at a price, units entered at zero. */
  predicate NeverFree(inst: D.Instrument, fs: seq<D.Fill>) {
    fs == [] ||
    var n := |fs| - 1;
    NeverFree(inst, fs[..n]) && !FreeEntry(R.Account(inst, fs[..n]), fs[n], inst)
  }

  ghost predicate Priced(fs: seq<D.Fill>) { forall i :: 0 <= i < |fs| ==> fs[i].px > 0 }

  lemma AverageStaysPositive(p: O.Position, f: D.Fill, inst: D.Instrument)
    requires (p.signed != 0 ==> p.avg > 0.0) && f.px > 0
    ensures var p' := O.BookFill(p, f, inst); p'.signed != 0 ==> p'.avg > 0.0
  {
    var a, b, px := D.Abs(p.signed) as real, f.qty as real, f.px as real;
    if p.signed != 0 {
      assert p.avg * a > 0.0;
      assert px * b >= 0.0;
      assert p.avg * a + px * b > 0.0;
    }
  }

  lemma CashSnoc(fs: seq<F.Fill>, f: D.Fill)
    ensures F.CashFlow(fs + [AsTrade(f)]) == F.CashFlow(fs) - Times(f.px as real, Signed(f))
    ensures F.Net(fs + [AsTrade(f)]) == F.Net(fs) + Signed(f)
  {
    hide Times;
    F.SumsSnoc(fs, AsTrade(f));
    TimesNegates(f.px as real, f.qty as real);
  }

  lemma SignedSum(p: O.Position, f: D.Fill, inst: D.Instrument)
    ensures O.BookFill(p, f, inst).signed as real == p.signed as real + Signed(f)
  {
  }

  lemma NothingInvested(inst: D.Instrument)
    ensures Invested(O.FLAT, inst) == 0.0 && Times(Mult(inst), 0.0) == 0.0
  {
  }

  /** The position is the signed sum of the fills; realised PnL and invested cost account for their cash
      and their fees. */
  lemma {:induction false} PositionConserves(inst: D.Instrument, fs: seq<D.Fill>)
    requires !inst.inverse && NeverFree(inst, fs)
    ensures var p := R.Account(inst, fs);
      && p.signed as real == F.Net(Trades(fs))
      && Invested(p, inst) == Times(Mult(inst), F.CashFlow(Trades(fs))) - Fees(fs)
  {
    hide Times, Invested, O.BookFill, FreeEntry, AsTrade;
    if fs == [] {
      NothingInvested(inst);
    } else {
      var n := |fs| - 1;
      var p, f := R.Account(inst, fs[..n]), fs[n];
      PositionConserves(inst, fs[..n]);
      FillConserves(p, f, inst);
      CashSnoc(Trades(fs[..n]), f);
      SignedSum(p, f, inst);
      TimesAdds(Mult(inst), F.CashFlow(Trades(fs)), Times(f.px as real, Signed(f)));
    }
  }

  /** Positive fill prices are enough: then no open position has a zero entry price either. */
  lemma {:induction false} PricedIsNeverFree(inst: D.Instrument, fs: seq<D.Fill>)
    requires Priced(fs)
    ensures NeverFree(inst, fs)
    ensures var p := R.Account(inst, fs); p.signed != 0 ==> p.avg > 0.0
  {
    hide O.BookFill;
    if fs != [] {
      var n := |fs| - 1;
      PricedIsNeverFree(inst, fs[..n]);
      AverageStaysPositive(R.Account(inst, fs[..n]), fs[n], inst);
    }
  }

  /** Valuing, at a price, an open position whose entry price is zero. */
  predicate FreeHolding(p: O.Position, inst: D.Instrument, mark: real) {
    p.signed != 0 && p.avg == 0.0 && inst.multiplier != 0 && mark != 0.0
  }

  lemma MarkToMarket(p: O.Position, inst: D.Instrument, mark: real)
    requires !inst.inverse
    ensures !FreeHolding(p, inst, mark) <==>
      p.realized + Unrealized(p, inst, mark) == Invested(p, inst) + Times(Mult(inst), Times(mark, p.signed as real))
  {
    hide O.PnlPerQty;
    GainIsMove(inst, p.avg, mark, p.signed as real);
    if p.signed == 0 {
      assert p.signed as real == 0.0;
    } else {
      assert Unrealized(p, inst, mark) == Times(O.PnlPerQty(inst, p.avg, mark), p.signed as real);
      hide Times, Unrealized, Mult;
    }
  }

  lemma {:induction false} TradesNonNegative(fs: seq<D.Fill>)
    ensures F.NonNegative(Trades(fs))
  {
    if fs != [] {
      TradesNonNegative(fs[..|fs| - 1]);
    }
  }

  /** Net worth by FIFO: realised, plus the open lots at the mark less their cost. */
  function FifoWorth(ts: seq<F.Fill>, mark: real): real {
    var b := F.Replay(F.Coalesce(ts), 0.0);
    F.Pnl(b.trades) + Times(mark, F.Held(b.lots)) - F.Basis(b.lots)
  }

  lemma FifoIsLedger(ts: seq<F.Fill>, mark: real)
    requires F.NonNegative(ts)
    ensures FifoWorth(ts, mark) == L.Worth(0.0, 0.0, ts, mark) == F.CashFlow(ts) + Times(mark, F.Net(ts))
  {
    hide Times, F.Replay, F.Coalesce;
    F.PlainFifoConserves(ts, 0.0);
    TimesAddsPx(0.0, 0.0, F.Turnover(ts));
    TimesAddsPx(0.0, 0.0, F.Turnover(ts) - F.OpenNotional(F.Replay(F.Coalesce(ts), 0.0).lots));
  }

  /** For every fill history of a linear instrument, as long as no fill closes units entered at zero:
      FIFO matching and the cash ledger value it alike at every mark, and the average-cost position's
      realised plus unrealised PnL, before fees, is that value exactly when it is not itself an open
      position entered at zero. */
  lemma AccountsAgree(inst: D.Instrument, fs: seq<D.Fill>, mark: real)
    requires !inst.inverse && NeverFree(inst, fs)
    ensures var p, ts := R.Account(inst, fs), Trades(fs);
      && FifoWorth(ts, mark) == L.Worth(0.0, 0.0, ts, mark)
      && (!FreeHolding(p, inst, mark) <==>
            p.realized + Unrealized(p, inst, mark) + Fees(fs) == Times(Mult(inst), FifoWorth(ts, mark)))
  {
    hide *;
    var p, ts := R.Account(inst, fs), Trades(fs);
    PositionConserves(inst, fs);
    MarkToMarket(p, inst, mark);
    TradesNonNegative(fs);
    FifoIsLedger(ts, mark);
    TimesAdds(Mult(inst), F.CashFlow(ts), Times(mark, p.signed as real));
  }

  /** In particular for positive fill prices, at every mark. */
  lemma PricedAccountsAgree(inst: D.Instrument, fs: seq<D.Fill>, mark: real)
    requires !inst.inverse && Priced(fs)
    ensures var p, ts := R.Account(inst, fs), Trades(fs);
      p.realized + Unrealized(p, inst, mark) + Fees(fs) == Times(Mult(inst), FifoWorth(ts, mark))
  {
    hide Priced, NeverFree, Times, FifoWorth, Unrealized, L.Worth, R.Account, Trades, Fees;
    PricedIsNeverFree(inst, fs);
    AccountsAgree(inst, fs, mark);
  }

  // --- inverse histories ----------------------------------------------------------------------------

  /** No fill averages into a position at another price. */
  predicate NeverApart(inst: D.Instrument, fs: seq<D.Fill>) {
    fs == [] ||
    var n := |fs| - 1;
    NeverApart(inst, fs[..n]) && !AveragesApart(R.Account(inst, fs[..n]), fs[n], inst)
  }

  /** Coins of all fills, signed. */
  function CoinFlow(fs: seq<D.Fill>): real
    requires Priced(fs)
  {
    if fs == [] then 0.0 else CoinFlow(fs[..|fs| - 1]) + Per(Signed(fs[|fs| - 1]), fs[|fs| - 1].px as real)
  }

  /** Over any history of an inverse instrument that never averages in at another price, realised plus
      entered coins are the coins of the fills less their fees. */
  lemma {:induction false} InverseConserves(inst: D.Instrument, fs: seq<D.Fill>)
    requires inst.inverse && Priced(fs) && NeverApart(inst, fs)
    ensures var p := R.Account(inst, fs);
      (p.signed != 0 ==> p.avg > 0.0) && InvestedCoins(p, inst) == Times(Mult(inst), CoinFlow(fs)) - Fees(fs)
  {
    hide Times, Per, O.BookFill, AveragesApart;
    if fs == [] {
      TimesAdds(Mult(inst), 0.0, 0.0);
    } else {
      var n := |fs| - 1;
      InverseConserves(inst, fs[..n]);
      InverseFillConserves(R.Account(inst, fs[..n]), fs[n], inst);
      TimesAdds(Mult(inst), CoinFlow(fs[..n]), Per(Signed(fs[n]), fs[n].px as real));
    }
  }

  // --- the accounts of a kernel run -------------------------------------------------------------------

  /** The rows of the fills log for one instrument, as the Python tools read them. */
  function RowTrades(rows: seq<K.LogRow>, i: D.InstrumentId): seq<F.Fill> {
    if rows == [] then [] else
      var n := |rows| - 1;
      if rows[n].inst == i
      then RowTrades(rows[..n], i) + [F.Fill(rows[n].ts, rows[n].side, rows[n].qty as real, rows[n].px as real)]
      else RowTrades(rows[..n], i)
  }

  lemma {:induction false} RowsAreTrades(bs: seq<R.Booking>, i: D.InstrumentId)
    ensures RowTrades(KernelBooks.Rows(bs), i) == Trades(R.Of(bs, i))
  {
    if bs != [] {
      var n := |bs| - 1;
      RowsAreTrades(bs[..n], i);
      var rows, f := KernelBooks.Rows(bs[..n]), bs[n].fill;
      assert (rows + [K.RowOf(f)])[..|rows|] == rows;
      var fs := R.Of(bs[..n], i);
      assert (fs + [f])[..|fs|] == fs;
    }
  }

  /** The fills a kernel state has booked for one instrument. */
  function BookedFor(c: K.Config, insts: O.Instruments, k: K.State, i: D.InstrumentId): seq<D.Fill> {
    R.Of(R.Booked(c.gate, insts, k.calls), i)
  }

  /** In every kernel run, whatever the strategy, forced closes included: the position of a linear
      instrument, valued at any mark and before fees, is worth what FIFO matching of the rows in
      `fills_log` says, and what the cash ledger says. */
  lemma KernelAccountsAgree(c: K.Config, es: seq<D.Event>, start: D.Time, insts: O.Instruments, n: nat,
      i: D.InstrumentId, mark: real)
    requires i in insts && !insts[i].inverse
    requires NeverFree(insts[i], BookedFor(c, insts, K.After(c, es, K.Initial(start, insts), n), i))
    ensures var k := K.After(c, es, K.Initial(start, insts), n);
      var p, ts, fees := k.oms.Position(i), RowTrades(k.fills, i), Fees(BookedFor(c, insts, k, i));
      && FifoWorth(ts, mark) == L.Worth(0.0, 0.0, ts, mark)
      && p.signed as real == F.Net(ts)
      && (!FreeHolding(p, insts[i], mark) <==>
            p.realized + Unrealized(p, insts[i], mark) + fees == Times(Mult(insts[i]), FifoWorth(ts, mark)))
  {
    hide K.After, R.Run, R.Booked, R.Of, R.Account, KernelBooks.Rows, RowTrades, Trades, Fees, NeverFree, FreeHolding,
      Unrealized, Times, FifoWorth, L.Worth, F.Net;
    var k := K.After(c, es, K.Initial(start, insts), n);
    var fs := BookedFor(c, insts, k, i);
    KernelBooks.BooksAreReplay(c, es, start, insts, n);
    R.BooksHoldWhatWasBooked(c.gate, insts, k.calls, i, 0);
    RowsAreTrades(R.Booked(c.gate, insts, k.calls), i);
    PositionConserves(insts[i], fs);
    AccountsAgree(insts[i], fs, mark);
  }
}
