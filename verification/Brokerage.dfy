/** `DefaultBrokerageModel`: slippage, volume participation, queue estimate and fees.

    Decimal arithmetic is exact here (reals); a price is quantised by rounding half to even. */
module Brokerage {
  import opened Domain
  import opened Money

  datatype BrokerageModel = BrokerageModel(
    slippageBps: real, rangeImpact: real, participation: real, queueFactor: real,
    submitLatency: Time, cancelLatency: Time)
  {
    /** Slippage settings that make a fill adverse to the order. */
    predicate Adverse() { slippageBps >= 0.0 && rangeImpact >= 0.0 }
  }

  /** `Decimal::round_dp` at the price precision. */
  function Round(x: real): int {
    var f := x.Floor;
    var d := x - f as real;
    if d < 0.5 then f else if d > 0.5 then f + 1 else if f % 2 == 0 then f else f + 1
  }

  lemma RoundFixesGrid(p: int)
    ensures Round(p as real) == p
  {
    assert (p as real).Floor == p;
  }

  lemma RoundMonotone(x: real, y: real)
    requires x <= y
    ensures Round(x) <= Round(y)
  {
    assert x.Floor <= y.Floor;
  }

  /** `make_price`: negative or unrepresentable prices are refused. */
  function MakePrice(x: real): (p: Option<Price>)
  {
    var r := Round(x);
    if 0 <= r <= I64_MAX then Some(r) else None
  }

  function BaseSlip(m: BrokerageModel, ref: Price): real {
    ref as real * m.slippageBps / 10000.0
  }

  /** The un-quantised fill price. */
  function Slipped(m: BrokerageModel, side: Side, ref: Price, low: Price, high: Price): real {
    var slip := if high > low then (high - low) as real * m.rangeImpact else 0.0;
    match side
    case Buy =>
      var base := ref as real + BaseSlip(m, ref);
      if high > low then MaxR(MinR(base + slip, high as real), base) else base + slip
    case Sell =>
      var base := ref as real - BaseSlip(m, ref);
      if high > low then MinR(MaxR(base - slip, low as real), base) else base - slip
  }

  function FillPrice(m: BrokerageModel, side: Side, ref: Price, low: Price, high: Price): Price {
    match MakePrice(Slipped(m, side, ref, low, high))
    case Some(p) => p
    case None => ref
  }

  /** `p` is no better than `q` for an order on `side`. */
  predicate NoBetter(side: Side, p: Price, q: Price) {
    if side.Buy? then p >= q else p <= q
  }

  /** The base-slipped reference, quantised. */
  function BasePrice(m: BrokerageModel, side: Side, ref: Price): int {
    Round(if side.Buy? then ref as real + BaseSlip(m, ref) else ref as real - BaseSlip(m, ref))
  }

  /** Every fill is adverse to its reference, yet no worse than the worse of the base-slipped
      reference and the bar's extreme on that side. */
  lemma FillPriceBounds(m: BrokerageModel, side: Side, ref: Price, low: Price, high: Price)
    requires m.Adverse() && ref >= 0
    ensures NoBetter(side, FillPrice(m, side, ref, low, high), ref)
    ensures NoBetter(side, BasePrice(m, side, ref), FillPrice(m, side, ref, low, high))
         || NoBetter(side, if side.Buy? then high else low, FillPrice(m, side, ref, low, high))
  {
    var slip := BaseSlip(m, ref);
    assert slip >= 0.0 by { assert ref as real * m.slippageBps >= 0.0; }
    var x := Slipped(m, side, ref, low, high);
    assert high > low ==> (high - low) as real * m.rangeImpact >= 0.0;
    RoundFixesGrid(ref);
    RoundFixesGrid(high);
    RoundFixesGrid(low);
    match side
    case Buy =>
      assert x >= ref as real;
      RoundMonotone(ref as real, x);
      RoundMonotone(x, MaxR(ref as real + slip, high as real));
      RoundMonotone(ref as real, ref as real + slip);
    case Sell =>
      assert x <= ref as real;
      RoundMonotone(x, ref as real);
      RoundMonotone(MinR(ref as real - slip, low as real), x);
      RoundMonotone(ref as real - slip, ref as real);
  }

  /** How much of `leaves` one bar of `volume` may fill. */
  function FillableQty(m: BrokerageModel, leaves: nat, volume: nat, lot: nat): (q: nat)
    ensures q <= leaves
    ensures leaves > 0 && lot > 0 ==> q > 0
  {
    if m.participation <= 0.0 || volume == 0 then leaves
    else
      var share := (m.participation * volume as real).Floor;
      Min(Max(share, lot), leaves)
  }

  function InitialQueue(m: BrokerageModel, volume: nat): (q: nat)
  {
    if m.queueFactor <= 0.0 then 0 else
      var q := m.queueFactor * volume as real;
      assert q >= 0.0;
      q.Floor
  }

  function Fee(inst: Instrument, px: Price, qty: nat, liquidity: Liquidity): real {
    var rate := if liquidity.Maker? then inst.makerFee else inst.takerFee;
    var notional :=
      if inst.inverse
      then if px == 0 then 0.0 else (qty * inst.multiplier) as real / px as real
      else (px * qty * inst.multiplier) as real;
    notional * rate
  }

  /** The cap in force on a bar: the participation share, but at least one lot. */
  function BarCap(m: BrokerageModel, volume: nat, lot: nat): real {
    MaxR(m.participation * volume as real, lot as real)
  }

  /** With participation on, a bar offers the largest quantity that fits the cap, or all that is
      left; the queue seed is the largest quantity that fits its share of the volume. */
  lemma LargestThatFits(m: BrokerageModel, leaves: nat, volume: nat, lot: nat)
    requires m.participation > 0.0 && volume > 0
    ensures var q := FillableQty(m, leaves, volume, lot);
      q as real <= BarCap(m, volume, lot) && (q == leaves || (q + 1) as real > BarCap(m, volume, lot))
    ensures var q := InitialQueue(m, volume);
      m.queueFactor > 0.0 ==> q as real <= m.queueFactor * volume as real < (q + 1) as real
  {
    var share := (m.participation * volume as real).Floor;
    assert share as real <= m.participation * volume as real < (share + 1) as real;
  }

  /** A quantity filled in parts at one price pays the fee of the whole. */
  lemma FeeAdds(inst: Instrument, px: Price, a: nat, b: nat, l: Liquidity)
    ensures Fee(inst, px, a + b, l) == Fee(inst, px, a, l) + Fee(inst, px, b, l)
  {
    var rate, mult := if l.Maker? then inst.makerFee else inst.takerFee, inst.multiplier;
    assert (a + b) * mult == a * mult + b * mult;
    if inst.inverse {
      if px != 0 {
        var x, y := (a * mult) as real, (b * mult) as real;
        assert (x + y) / px as real == x / px as real + y / px as real;
        assert (x / px as real + y / px as real) * rate == x / px as real * rate + y / px as real * rate;
      }
    } else {
      var x, y := (px * a * mult) as real, (px * b * mult) as real;
      assert px * (a + b) * mult == px * a * mult + px * b * mult;
      assert (x + y) * rate == x * rate + y * rate;
    }
  }

  /** With participation off, or on a bar without volume, nothing is capped; without a queue factor
      nothing is ahead. */
  lemma UncappedAndUnqueued(m: BrokerageModel, leaves: nat, volume: nat, lot: nat)
    ensures m.participation <= 0.0 || volume == 0 ==> FillableQty(m, leaves, volume, lot) == leaves
    ensures m.queueFactor <= 0.0 ==> InitialQueue(m, volume) == 0
  {
  }

  /** The notional a fee is charged on: quote currency for a linear contract, coin for an inverse one. */
  function FeeNotional(inst: Instrument, px: Price, qty: nat): real {
    if !inst.inverse then px as real * qty as real * inst.multiplier as real
    else if px == 0 then 0.0
    else qty as real * inst.multiplier as real / px as real
  }

  /** A maker pays the maker rate, a taker the taker rate. */
  lemma FeeIsRateOnNotional(inst: Instrument, px: Price, qty: nat)
    ensures Fee(inst, px, qty, Maker) == FeeNotional(inst, px, qty) * inst.makerFee
    ensures Fee(inst, px, qty, Taker) == FeeNotional(inst, px, qty) * inst.takerFee
  {
    assert (px * qty * inst.multiplier) as real == px as real * qty as real * inst.multiplier as real;
    assert (qty * inst.multiplier) as real == qty as real * inst.multiplier as real;
  }

  /** How far the price is from the reference against the order, before quantisation: the base
      slippage, plus the range component as far as the bar's extreme on that side allows. */
  function Against(side: Side, ref: Price, x: real): real { if side.Buy? then x - ref as real else ref as real - x }

  lemma SlippageExact(m: BrokerageModel, side: Side, ref: Price, low: Price, high: Price)
    requires m.Adverse()
    ensures var base := ref as real * m.slippageBps / 10000.0;
      var range := if low < high then (high - low) as real * m.rangeImpact else 0.0;
      var room := Against(side, ref, if side.Buy? then high as real else low as real);
      Against(side, ref, Slipped(m, side, ref, low, high)) ==
        if low >= high || base + range <= room then base + range else if base <= room then room else base
  {
    var base := ref as real * m.slippageBps / 10000.0;
    assert BaseSlip(m, ref) == base;
    assert low < high ==> (high - low) as real * m.rangeImpact >= 0.0;
  }

  /** The fill price is that, rounded half to even, where it is a price; otherwise the reference. */
  lemma FillPriceExact(m: BrokerageModel, side: Side, ref: Price, low: Price, high: Price)
    ensures var r := Round(Slipped(m, side, ref, low, high));
      FillPrice(m, side, ref, low, high) == if 0 <= r <= I64_MAX then r else ref
  {
  }

  /** Without slippage a fill is at its reference. */
  lemma NoSlippage(m: BrokerageModel, side: Side, ref: Price, low: Price, high: Price)
    requires m.slippageBps == 0.0 && m.rangeImpact == 0.0
    ensures FillPrice(m, side, ref, low, high) == ref
  {
    RoundFixesGrid(ref);
    assert BaseSlip(m, ref) == 0.0;
    assert (high - low) as real * m.rangeImpact == 0.0;
    if low < high {
      SlippageExact(m, side, ref, low, high);
    }
    assert Slipped(m, side, ref, low, high) == ref as real;
  }
}
