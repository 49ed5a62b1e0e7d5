/** The vectorised SMA screen against the streaming strategy it is a proxy of. Floats are reals;
    NaN, which only marks an unfilled window, is an absent value. */
module Screen {
  import opened Domain

  // --- the vectorised form --------------------------------------------------------------------

  /** `cumsum` with a leading zero. */
  function CumSum(xs: seq<real>): (c: seq<real>)
    ensures |c| == |xs| + 1 && c[0] == 0.0
  {
    if xs == [] then [0.0] else
      var c := CumSum(xs[..|xs| - 1]);
      c + [c[|xs| - 1] + xs[|xs| - 1]]
  }

  function Mean(total: real, n: int): real
    requires n > 0
  {
    total / n as real
  }

  lemma MeanOfOne(x: real)
    ensures Mean(x, 1) == x
  {
  }

  function SmaArray(xs: seq<real>, period: int): (out: seq<Option<real>>)
    ensures |out| == |xs|
  {
    if period <= 1 then seq(|xs|, i requires 0 <= i < |xs| => Some(xs[i])) else
      var c := CumSum(xs);
      seq(|xs|, i requires 0 <= i < |xs| =>
        if i < period - 1 then None else Some(Mean(c[i + 1] - c[i + 1 - period], period)))
  }

  /** +1 on a strict up-cross, -1 on a strict down-cross, 0 otherwise. */
  function Crosses(f: seq<Option<real>>, s: seq<Option<real>>): (x: seq<int>)
    requires |f| == |s|
    ensures |x| == |f|
  {
    seq(|f|, i requires 0 <= i < |f| =>
      if i == 0 || f[i].None? || s[i].None? || f[i - 1].None? || s[i - 1].None? then 0
      else if f[i - 1].value >= s[i - 1].value && f[i].value < s[i].value then -1
      else if f[i - 1].value <= s[i - 1].value && f[i].value > s[i].value then 1
      else 0)
  }

  /** `maximum.accumulate`. */
  function RunningMax(xs: seq<int>, i: nat): int
    requires i < |xs|
  {
    if i == 0 then xs[0] else Max(RunningMax(xs, i - 1), xs[i])
  }

  function LastCross(x: seq<int>): (last: seq<int>)
    ensures |last| == |x|
  {
    seq(|x|, i requires 0 <= i < |x| => if x[i] != 0 then i else 0)
  }

  lemma {:induction false} RunningMaxIsIndex(x: seq<int>, i: nat)
    requires i < |x|
    ensures 0 <= RunningMax(LastCross(x), i) <= i
  {
    if i > 0 {
      RunningMaxIsIndex(x, i - 1);
    }
  }

  /** The target position per bar, or an error: the source indexes the first bar of an empty array. */
  function CrossPositions(closes: seq<real>, fast: int, slow: int, qty: real): Option<seq<real>> {
    if closes == [] then None else
      var x := Crosses(SmaArray(closes, fast), SmaArray(closes, slow));
      Some(seq(|closes|, i requires 0 <= i < |closes| =>
        RunningMaxIsIndex(x, i);
        if x[RunningMax(LastCross(x), i)] > 0 then qty else 0.0))
  }

  // --- the streaming form ---------------------------------------------------------------------

  function Sum(xs: seq<real>): real {
    if xs == [] then 0.0 else Sum(xs[..|xs| - 1]) + xs[|xs| - 1]
  }

  class StreamingSma {
    const period: nat
    var buf: seq<real>
    var sum: real

    /** The window holds the last values seen, at most `period` of them, and `sum` is their sum. */
    ghost predicate Tracks(seen: seq<real>)
      reads this
    {
      && period >= 1
      && buf == seen[|seen| - Min(|seen|, period)..]
      && sum == Sum(seen) - Sum(seen[..|seen| - Min(|seen|, period)])
    }

    constructor (period: nat)
      requires period >= 1
      ensures this.period == period && Tracks([])
    {
      this.period, buf, sum := period, [], 0.0;
    }

    method Update(value: real, ghost seen: seq<real>)
      requires Tracks(seen)
      modifies this
      ensures Tracks(seen + [value])
    {
      hide Mean;
      ghost var all := seen + [value];
      assert all[..|seen|] == seen;
      if |buf| == period {
        ghost var k := |seen| - period;
        assert all[..k + 1][..k] == seen[..k] && all[..k + 1][k] == buf[0];
        assert all[|all| - period..] == buf[1..] + [value];
        sum := sum - buf[0];
        buf := buf[1..];
      } else {
        assert all[|all| - Min(|all|, period)..] == buf + [value];
        assert all[..0] == seen[..0];
      }
      buf := buf + [value];
      sum := sum + value;
    }

    method Value(ghost seen: seq<real>) returns (v: Option<real>)
      requires Tracks(seen)
      ensures v == Average(seen, period)
    {
      if |buf| == period {
        v := Some(Mean(sum, period));
      } else {
        v := None;
      }
    }
  }

  /** The mean of the last `period` values, once there are that many. */
  function Average(seen: seq<real>, period: nat): Option<real> {
    if period == 0 || |seen| < period then None
    else Some(Mean(Sum(seen) - Sum(seen[..|seen| - period]), period))
  }

  datatype Cross = Cross(prevFast: Option<real>, prevSlow: Option<real>, inPosition: bool)

  datatype Signal = Hold | BuySignal | SellSignal

  /** `SmaCross.on_bar` once both averages are known. */
  function Signalled(c: Cross, f: real, s: real): Signal {
    if c.prevFast.None? || c.prevSlow.None? then Hold
    else if c.prevFast.value <= c.prevSlow.value && f > s && !c.inPosition then BuySignal
    else if c.prevFast.value >= c.prevSlow.value && f < s && c.inPosition then SellSignal
    else Hold
  }

  function OnBar(c: Cross, f: Option<real>, s: Option<real>): (Cross, Signal) {
    if f.None? || s.None? then (c, Hold) else
      var sig := Signalled(c, f.value, s.value);
      (Cross(f, s, if sig.BuySignal? then true else if sig.SellSignal? then false else c.inPosition), sig)
  }

  /** The strategy's state after a series of closes. */
  function Stream(closes: seq<real>, fast: nat, slow: nat): Cross {
    if closes == [] then Cross(None, None, false)
    else OnBar(Stream(closes[..|closes| - 1], fast, slow), Average(closes, fast), Average(closes, slow)).0
  }

  class SmaCross {
    const fast: StreamingSma
    const slow: StreamingSma
    var prevFast: Option<real>
    var prevSlow: Option<real>
    var inPosition: bool

    ghost predicate Tracks(seen: seq<real>)
      reads this, fast, slow
    {
      && fast != slow && fast.Tracks(seen) && slow.Tracks(seen)
      && Cross(prevFast, prevSlow, inPosition) == Stream(seen, fast.period, slow.period)
    }

    constructor (fastPeriod: nat, slowPeriod: nat)
      requires fastPeriod >= 1 && slowPeriod >= 1
      ensures Tracks([]) && fast.period == fastPeriod && slow.period == slowPeriod
      ensures fresh(fast) && fresh(slow)
    {
      fast := new StreamingSma(fastPeriod);
      slow := new StreamingSma(slowPeriod);
      prevFast, prevSlow, inPosition := None, None, false;
    }

    /** One bar; the signal is the market order the strategy submits. */
    method Bar(close: real, ghost seen: seq<real>) returns (sig: Signal)
      requires Tracks(seen)
      modifies this, fast, slow
      ensures Tracks(seen + [close])
      ensures sig == OnBar(Stream(seen, fast.period, slow.period),
                           Average(seen + [close], fast.period), Average(seen + [close], slow.period)).1
    {
      hide Average, Sum;
      assert (seen + [close])[..|seen|] == seen;
      fast.Update(close, seen);
      slow.Update(close, seen);
      var f := fast.Value(seen + [close]);
      var s := slow.Value(seen + [close]);
      sig := Hold;
      if f.None? || s.None? {
        return;
      }
      if prevFast.Some? && prevSlow.Some? {
        var up := prevFast.value <= prevSlow.value && f.value > s.value;
        var down := prevFast.value >= prevSlow.value && f.value < s.value;
        if up && !inPosition {
          sig := BuySignal;
          inPosition := true;
        } else if down && inPosition {
          sig := SellSignal;
          inPosition := false;
        }
      }
      prevFast, prevSlow := f, s;
    }
  }

  // --- they agree ---------------------------------------------------------------------------

  lemma {:induction false} CumSumIsSum(xs: seq<real>, i: nat)
    requires i <= |xs|
    ensures CumSum(xs)[i] == Sum(xs[..i])
  {
    if xs == [] {
    } else if i < |xs| {
      CumSumIsSum(xs[..|xs| - 1], i);
      assert xs[..|xs| - 1][..i] == xs[..i];
    } else {
      CumSumIsSum(xs[..|xs| - 1], i - 1);
      assert xs[..i] == xs && xs[..i - 1][..i - 1] == xs[..i - 1];
    }
  }

  lemma OneBarAverage(xs: seq<real>, i: nat)
    requires i < |xs|
    ensures Average(xs[..i + 1], 1) == Some(xs[i])
  {
    var seen := xs[..i + 1];
    assert seen[..|seen| - 1] == xs[..i] && seen[i] == xs[i];
    MeanOfOne(xs[i]);
    hide Mean;
    assert Sum(seen) - Sum(seen[..|seen| - 1]) == xs[i];
  }

  lemma WindowSum(xs: seq<real>, period: nat, i: nat)
    requires 2 <= period <= i + 1 <= |xs|
    ensures var seen := xs[..i + 1];
      CumSum(xs)[i + 1] - CumSum(xs)[i + 1 - period] == Sum(seen) - Sum(seen[..|seen| - period])
  {
    hide CumSum, Sum;
    CumSumIsSum(xs, i + 1);
    CumSumIsSum(xs, i + 1 - period);
    assert xs[..i + 1][..i + 1 - period] == xs[..i + 1 - period];
  }

  /** The cumulative-sum average at bar `i` is the streaming average after `i + 1` values. */
  lemma SmaIsAverage(xs: seq<real>, period: nat, i: nat)
    requires period >= 1 && i < |xs|
    ensures SmaArray(xs, period)[i] == Average(xs[..i + 1], period)
  {
    hide Mean, CumSum, Sum;
    if period == 1 {
      OneBarAverage(xs, i);
    } else if i >= period - 1 {
      WindowSum(xs, period, i);
    }
  }

  /** The strategy remembers the averages of the previous bar exactly when both were known. */
  lemma {:induction false} StreamRemembers(closes: seq<real>, fast: nat, slow: nat)
    requires fast >= 1 && slow >= 1
    ensures var c, f, s := Stream(closes, fast, slow), Average(closes, fast), Average(closes, slow);
      if f.Some? && s.Some? then c.prevFast == f && c.prevSlow == s else c == Cross(None, None, false)
  {
    if closes != [] {
      StreamRemembers(closes[..|closes| - 1], fast, slow);
    }
  }

  /** Forward filling: the direction changes at a cross and holds in between. */
  lemma FillsForward(x: seq<int>, i: nat)
    requires i < |x|
    ensures 0 <= RunningMax(LastCross(x), i) <= i
    ensures x[i] != 0 ==> RunningMax(LastCross(x), i) == i
    ensures x[i] == 0 && i > 0 ==> RunningMax(LastCross(x), i) == RunningMax(LastCross(x), i - 1)
  {
    RunningMaxIsIndex(x, i);
    if i > 0 {
      RunningMaxIsIndex(x, i - 1);
    }
  }

  lemma StepAgrees(closes: seq<real>, fast: nat, slow: nat, i: nat)
    requires fast >= 1 && slow >= 1 && i < |closes|
    ensures var x := Crosses(SmaArray(closes, fast), SmaArray(closes, slow))[i];
      var before, after := Stream(closes[..i], fast, slow), Stream(closes[..i + 1], fast, slow);
      after.inPosition == if x > 0 then true else if x < 0 then false else before.inPosition
    ensures i == 0 ==> Crosses(SmaArray(closes, fast), SmaArray(closes, slow))[0] == 0
  {
    hide SmaArray;
    SmaIsAverage(closes, fast, i);
    SmaIsAverage(closes, slow, i);
    assert closes[..i + 1][..i] == closes[..i];
    StreamRemembers(closes[..i], fast, slow);
    if i > 0 {
      SmaIsAverage(closes, fast, i - 1);
      SmaIsAverage(closes, slow, i - 1);
    }
  }

  lemma {:induction false} DirectionIsPosition(closes: seq<real>, fast: nat, slow: nat, i: nat)
    requires fast >= 1 && slow >= 1 && i < |closes|
    ensures var x := Crosses(SmaArray(closes, fast), SmaArray(closes, slow)); var last := RunningMax(LastCross(x), i);
      0 <= last <= i && (x[last] > 0 <==> Stream(closes[..i + 1], fast, slow).inPosition)
  {
    hide SmaArray, Crosses;
    var x := Crosses(SmaArray(closes, fast), SmaArray(closes, slow));
    FillsForward(x, i);
    StepAgrees(closes, fast, slow, i);
    if i > 0 {
      DirectionIsPosition(closes, fast, slow, i - 1);
    }
  }

  /** For every non-empty close series and all periods from one, the vectorised target at each bar
      is `qty` exactly when the streaming strategy is in position after that bar. */
  lemma VectorEqualsStreaming(closes: seq<real>, fast: nat, slow: nat, qty: real)
    requires fast >= 1 && slow >= 1
    ensures CrossPositions(closes, fast, slow, qty).None? <==> closes == []
    ensures closes != [] ==>
      && |CrossPositions(closes, fast, slow, qty).value| == |closes|
      && forall i :: 0 <= i < |closes| ==>
           CrossPositions(closes, fast, slow, qty).value[i]
               == if Stream(closes[..i + 1], fast, slow).inPosition then qty else 0.0
  {
    hide SmaArray, Crosses;
    forall i | 0 <= i < |closes|
      ensures CrossPositions(closes, fast, slow, qty).value[i]
          == if Stream(closes[..i + 1], fast, slow).inPosition then qty else 0.0
    {
      DirectionIsPosition(closes, fast, slow, i);
    }
  }

  /** The strategy's orders are the changes of that position: it buys on entering, sells on leaving
      and never repeats itself. */
  lemma SignalsAreChanges(closes: seq<real>, close: real, fast: nat, slow: nat)
    ensures var before, after := Stream(closes, fast, slow), Stream(closes + [close], fast, slow);
      var sig := OnBar(before, Average(closes + [close], fast), Average(closes + [close], slow)).1;
      && (sig.BuySignal? <==> !before.inPosition && after.inPosition)
      && (sig.SellSignal? <==> before.inPosition && !after.inPosition)
  {
    assert (closes + [close])[..|closes|] == closes;
  }
}
