/** Foreign exchange: as-of curves, the book that keeps each pair and its inverse, and the lookup
    through the US dollar and the fallback table. Floats are reals. */
module Fx {
  import opened Domain
  import opened Money

  /** The codes of the fallback table, and any other; taken already in upper case. */
  datatype Currency = USD | CNY | HKD | EUR | GBP | JPY | Other(code: string)

  type Pair = (Currency, Currency)

  datatype Point = Point(ts: int, rate: real)

  type Curves = map<Pair, seq<Point>>

  // --- a curve --------------------------------------------------------------------------------------

  ghost predicate Sorted(ps: seq<Point>) { forall i, j :: 0 <= i < j < |ps| ==> ps[i].ts <= ps[j].ts }

  /** `bisect_right` on the timestamps. */
  function BisectRight(ps: seq<Point>, t: int): (i: nat)
    ensures i <= |ps|
    ensures forall k :: i <= k < |ps| ==> ps[k].ts > t
    ensures Sorted(ps) ==> forall k :: 0 <= k < i ==> ps[k].ts <= t
  {
    if ps == [] || ps[|ps| - 1].ts <= t then |ps| else BisectRight(ps[..|ps| - 1], t)
  }

  function InsertAfter(ps: seq<Point>, p: Point): (r: seq<Point>)
    ensures Sorted(ps) ==> Sorted(r)
  {
    var i := BisectRight(ps, p.ts);
    ps[..i] + [p] + ps[i..]
  }

  /** The stable sort by timestamp. */
  function SortStable(ps: seq<Point>): (r: seq<Point>)
    ensures Sorted(r)
  {
    if ps == [] then [] else InsertAfter(SortStable(ps[..|ps| - 1]), ps[|ps| - 1])
  }

  function Added(ps: seq<Point>, ts: int, rate: real): seq<Point> {
    if rate <= 0.0 then ps else SortStable(ps + [Point(ts, rate)])
  }

  function RateAsof(ps: seq<Point>, t: int): Option<real> {
    if ps == [] then None else
      var i := BisectRight(ps, t) - 1;
      Some(if i < 0 then ps[0].rate else ps[i].rate)
  }

  class FxCurve {
    var points: seq<Point>

    constructor ()
      ensures points == []
    {
      points := [];
    }

    /** The new rate answers from its own time up to the next later point, and before everything if
        nothing is earlier; all other answers stay. */
    method Add(ts: int, rate: real)
      modifies this
      ensures points == Added(old(points), ts, rate)
      ensures Sorted(old(points)) ==> Sorted(points)
      ensures Sorted(old(points)) && rate > 0.0 ==> points != [] && forall t ::
        Found(points, t) == if old(points) == [] then Point(ts, rate)
            else Better(t, Found(old(points), t), Point(ts, rate))
    {
      if rate <= 0.0 {
        return;
      }
      points := points + [Point(ts, rate)];
      points := SortStable(points);
      if Sorted(old(points)) {
        AddAnswers(old(points), Point(ts, rate));
      }
    }
  }

  lemma {:induction false} SortKeepsSorted(ps: seq<Point>)
    requires Sorted(ps)
    ensures SortStable(ps) == ps
  {
    if ps != [] {
      var n := |ps| - 1;
      SortKeepsSorted(ps[..n]);
      assert BisectRight(ps[..n], ps[n].ts) == n;
      assert ps[..n] + [ps[n]] == ps;
    }
  }

  lemma SortSnoc(ps: seq<Point>, p: Point)
    requires Sorted(ps)
    ensures SortStable(ps + [p]) == InsertAfter(ps, p)
  {
    SortKeepsSorted(ps);
    assert (ps + [p])[..|ps|] == ps;
  }

  // --- what a lookup means ------------------------------------------------------------------------

  /** Of the point known so far and one added later, the one that answers for time `t`: the latest
      not after `t`, the later addition on a tie; if there is none, the earliest of all, the earlier
      addition on a tie. */
  function Better(t: int, q: Point, p: Point): Point {
    if p.ts <= t then (if p.ts < q.ts <= t then q else p)
    else if q.ts <= t || q.ts <= p.ts then q else p
  }

  /** The answer from the history of additions alone. */
  function Answer(h: seq<Point>, t: int): Point
    requires h != []
  {
    var n := |h| - 1;
    if n == 0 then h[0] else Better(t, Answer(h[..n], t), h[n])
  }

  function Found(ps: seq<Point>, t: int): Point
    requires ps != []
  {
    var i := BisectRight(ps, t) - 1;
    if i < 0 then ps[0] else ps[i]
  }

  lemma BisectIs(ps: seq<Point>, t: int, i: nat)
    requires i <= |ps| && (forall k :: 0 <= k < i ==> ps[k].ts <= t) && (forall k :: i <= k < |ps| ==> ps[k].ts > t)
    ensures BisectRight(ps, t) == i
    decreases |ps|
  {
    if i < |ps| {
      BisectIs(ps[..|ps| - 1], t, i);
    }
  }

  lemma {:induction false} BisectMonotone(ps: seq<Point>, s: int, t: int)
    requires s <= t
    ensures BisectRight(ps, s) <= BisectRight(ps, t)
  {
    if ps != [] && ps[|ps| - 1].ts > t {
      BisectMonotone(ps[..|ps| - 1], s, t);
    }
  }

  lemma InsertFound(ps: seq<Point>, p: Point, t: int)
    requires Sorted(ps) && ps != []
    ensures Found(InsertAfter(ps, p), t) == Better(t, Found(ps, t), p)
  {
    hide BisectRight;
    var m, i, r := BisectRight(ps, p.ts), BisectRight(ps, t), InsertAfter(ps, p);
    if p.ts <= t {
      BisectMonotone(ps, p.ts, t);
      BisectIs(r, t, i + 1);
    } else {
      BisectMonotone(ps, t, p.ts);
      BisectIs(r, t, i);
    }
  }

  /** Adding one point changes exactly the answers it is better for. */
  lemma AddAnswers(ps: seq<Point>, p: Point)
    requires Sorted(ps)
    ensures var r := SortStable(ps + [p]);
      r != [] && forall t :: Found(r, t) == if ps == [] then p else Better(t, Found(ps, t), p)
  {
    hide SortStable, Better;
    var r := SortStable(ps + [p]);
    SortSnoc(ps, p);
    if ps == [] {
      assert r == [p];
    } else {
      hide InsertAfter, Found;
      assert |r| > 0 by {
        InsertedNotEmpty(ps, p);
      }
      forall t
        ensures Found(r, t) == Better(t, Found(ps, t), p)
      {
        InsertFound(ps, p, t);
      }
    }
  }

  lemma InsertedNotEmpty(ps: seq<Point>, p: Point)
    ensures InsertAfter(ps, p) != []
  {
  }

  lemma SortEnds(h: seq<Point>)
    requires h != []
    ensures var n := |h| - 1;
      && SortStable(h) == InsertAfter(SortStable(h[..n]), h[n]) && SortStable(h) != []
      && (n == 0 ==> SortStable(h) == [h[0]])
  {
  }

  /** For any history of positive rates, appending and sorting and bisecting answers what the history
      says. */
  lemma {:induction false} CurveAnswers(h: seq<Point>, t: int)
    requires h != []
    ensures SortStable(h) != [] && RateAsof(SortStable(h), t) == Some(Answer(h, t).rate)
    ensures Found(SortStable(h), t) == Answer(h, t)
  {
    hide SortStable, BisectRight, InsertAfter, Better;
    var n := |h| - 1;
    SortEnds(h);
    if n > 0 {
      CurveAnswers(h[..n], t);
      InsertFound(SortStable(h[..n]), h[n], t);
    }
  }

  /** Adding one point at a time builds the sorted history. */
  lemma AddingBuilds(h: seq<Point>, p: Point)
    requires p.rate > 0.0
    ensures Added(SortStable(h), p.ts, p.rate) == SortStable(h + [p])
  {
    SortSnoc(SortStable(h), p);
    assert (h + [p])[..|h|] == h;
  }

  // --- the book -----------------------------------------------------------------------------------

  function CurveOf(cs: Curves, k: Pair): seq<Point> { if k in cs then cs[k] else [] }

  /** A zero rate fails on its reciprocal, after both curves exist. */
  function WithRate(cs: Curves, b: Currency, q: Currency, ts: int, rate: real): Curves {
    var cs1 := cs[(b, q) := Added(CurveOf(cs, (b, q)), ts, rate)];
    var inverse := CurveOf(cs1, (q, b));
    cs1[(q, b) := if rate == 0.0 then inverse else Added(inverse, ts, 1.0 / rate)]
  }

  function Fallback(b: Currency, q: Currency): Option<real> {
    if b == q then (if b.USD? || b.CNY? || b.HKD? then Some(1.0) else None)
    else match (b, q)
      case (USD, CNY) => Some(7.25)
      case (CNY, USD) => Some(1.0 / 7.25)
      case (USD, HKD) => Some(7.80)
      case (HKD, USD) => Some(1.0 / 7.80)
      case (CNY, HKD) => Some(7.80 / 7.25)
      case (HKD, CNY) => Some(7.25 / 7.80)
      case (EUR, USD) => Some(1.08)
      case (USD, EUR) => Some(1.0 / 1.08)
      case (GBP, USD) => Some(1.27)
      case (USD, GBP) => Some(1.0 / 1.27)
      case (USD, JPY) => Some(150.0)
      case (JPY, USD) => Some(1.0 / 150.0)
      case _ => None
  }

  const DEFAULT_PAIRS: set<Pair> := {
    (USD, CNY), (CNY, USD), (USD, HKD), (HKD, USD), (CNY, HKD), (HKD, CNY),
    (EUR, USD), (USD, EUR), (GBP, USD), (USD, GBP), (USD, JPY), (JPY, USD)}

  function Defaults(): Curves {
    map k | k in DEFAULT_PAIRS && Fallback(k.0, k.1).Some? :: [Point(0, Fallback(k.0, k.1).value)]
  }

  /** Units of `q` for one `b`; absent where the source raises a key error. The lookup through the
      dollar ends because each leg has one currency less that is not the dollar. */
  function Rate(cs: Curves, fallback: bool, b: Currency, q: Currency, t: int): Option<real>
    decreases (if b.USD? then 0 else 1) + (if q.USD? then 0 else 1)
  {
    if b == q then Some(1.0) else
      var direct := RateAsof(CurveOf(cs, (b, q)), t);
      if direct.Some? then direct
      else if !b.USD? && !q.USD? && Rate(cs, fallback, b, USD, t).Some? && Rate(cs, fallback, USD, q, t).Some?
      then Some(Times(Rate(cs, fallback, b, USD, t).value, Rate(cs, fallback, USD, q, t).value))
      else if fallback then Fallback(b, q) else None
  }

  class FxBook {
    var curves: map<Pair, FxCurve>
    var useFallback: bool

    /** No two pairs share a curve object. */
    ghost predicate Separate()
      reads this
    {
      forall j, k :: j in curves && k in curves && j != k ==> curves[j] != curves[k]
    }

    /** And every pair's curve is the inverse of the reversed pair's. */
    ghost predicate Valid()
      reads this, curves.Values
    {
      Separate() && Coherent(View())
    }

    function View(): Curves
      reads this, curves.Values
    {
      map k | k in curves :: curves[k].points
    }

    constructor ()
      ensures Valid() && View() == map[] && useFallback
    {
      curves, useFallback := map[], true;
      EmptyCoherent();
    }

    /** An empty curve for a pair that has none. */
    method Open(k: Pair)
      requires Separate()
      modifies this
      ensures Separate() && fresh(curves.Values - old(curves.Values)) && useFallback == old(useFallback)
      ensures k in curves && View() == old(View())[k := CurveOf(old(View()), k)]
    {
      if k !in curves {
        var empty := new FxCurve();
        curves := curves[k := empty];
      }
    }

    method AddTo(k: Pair, ts: int, rate: real)
      requires Separate() && k in curves
      modifies curves.Values
      ensures Separate() && View() == old(View())[k := Added(old(View())[k], ts, rate)]
    {
      hide Added;
      curves[k].Add(ts, rate);
    }

    method PutRate(b: Currency, q: Currency, ts: int, rate: real) returns (ok: bool)
      requires Separate()
      modifies this, curves.Values
      ensures Separate() && fresh(curves.Values - old(curves.Values)) && useFallback == old(useFallback)
      ensures View() == WithRate(old(View()), b, q, ts, rate) && ok == (rate != 0.0)
    {
      hide Added, View;
      ghost var v0 := View();
      Open((b, q));
      AddTo((b, q), ts, rate);
      assert View() == v0[(b, q) := Added(CurveOf(v0, (b, q)), ts, rate)];
      Open((q, b));
      if rate == 0.0 {
        return false;
      }
      AddTo((q, b), ts, 1.0 / rate);
      return true;
    }

    /** False where the source divides by zero; the book stays coherent either way. A positive rate is the
        answer for its pair wherever it is better than the old one, and its reciprocal for the reversed
        pair; no other curve changes, and any other rate changes none. */
    method SetRate(b: Currency, q: Currency, ts: int, rate: real) returns (ok: bool)
      requires Valid()
      modifies this, curves.Values
      ensures Valid() && fresh(curves.Values - old(curves.Values)) && useFallback == old(useFallback)
      ensures View() == WithRate(old(View()), b, q, ts, rate) && ok == (rate != 0.0)
      ensures b != q && rate > 0.0 ==> forall t ::
        var p := Newest(t, CurveOf(old(View()), (b, q)), Point(ts, rate));
        p.rate > 0.0 && RateOf(b, q, t) == Some(p.rate) && RateOf(q, b, t) == Some(1.0 / p.rate)
      ensures forall k :: rate <= 0.0 || k !in {(b, q), (q, b)} ==> CurveOf(View(), k) == CurveOf(old(View()), k)
    {
      hide WithRate, View, Coherent, CurveOf, Rate;
      ghost var v0 := View();
      SetRateCoherent(v0, b, q, ts, rate);
      OthersUntouched(v0, b, q, ts, rate);
      ok := PutRate(b, q, ts, rate);
      if b != q && rate > 0.0 {
        RateIsSet(v0, b, q, ts, rate, useFallback);
      }
    }

    function RateOf(b: Currency, q: Currency, t: int): Option<real>
      reads this, curves.Values
    {
      Rate(View(), useFallback, b, q, t)
    }

    /** There and back on the object. */
    lemma ThereAndBack(b: Currency, q: Currency, t: int)
      requires Valid()
      ensures var there, back := RateOf(b, q, t), RateOf(q, b, t);
        (there.Some? <==> back.Some?) && (there.Some? ==> Times(there.value, back.value) == 1.0)
    {
      hide Coherent, Rate, View, Times;
      RateRoundTrips(View(), useFallback, b, q, t);
    }
  }

  // --- the round trip -----------------------------------------------------------------------------

  ghost predicate Reciprocal(p: Point, q: Point) {
    p.ts == q.ts && p.rate > 0.0 && q.rate > 0.0 && Times(p.rate, q.rate) == 1.0
  }

  ghost predicate Inverse(a: seq<Point>, b: seq<Point>) {
    |a| == |b| && Sorted(a) && forall i :: 0 <= i < |a| ==> Reciprocal(a[i], b[i])
  }

  /** Every pair's curve is the point-by-point inverse of the reversed pair's. */
  ghost predicate Coherent(cs: Curves) {
    forall b, q :: b != q ==> Inverse(CurveOf(cs, (b, q)), CurveOf(cs, (q, b)))
  }

  lemma {:induction false} SameBisect(a: seq<Point>, b: seq<Point>, t: int)
    requires Inverse(a, b)
    ensures BisectRight(a, t) == BisectRight(b, t)
  {
    assert forall k :: 0 <= k < |a| ==> Reciprocal(a[k], b[k]);
    BisectIs(b, t, BisectRight(a, t));
  }

  lemma AddedInverse(a: seq<Point>, b: seq<Point>, ts: int, x: real, y: real)
    requires Inverse(a, b) && x > 0.0 && y > 0.0 && Times(x, y) == 1.0
    ensures Inverse(Added(a, ts, x), Added(b, ts, y))
  {
    hide BisectRight, SortStable, Times;
    var p, q := Point(ts, x), Point(ts, y);
    assert Reciprocal(p, q);
    assert Sorted(b) by {
      assert forall k :: 0 <= k < |a| ==> Reciprocal(a[k], b[k]);
    }
    SortSnoc(a, p);
    SortSnoc(b, q);
    SameBisect(a, b, ts);
    hide Reciprocal;
    var i, a', b' := BisectRight(a, ts), InsertAfter(a, p), InsertAfter(b, q);
    forall k | 0 <= k < |a'|
      ensures Reciprocal(a'[k], b'[k])
    {
      assert k < i ==> Reciprocal(a[k], b[k]);
      assert k > i ==> Reciprocal(a[k - 1], b[k - 1]);
    }
  }

  lemma ReciprocalSign(x: real)
    ensures x > 0.0 ==> 1.0 / x > 0.0 && Times(x, 1.0 / x) == 1.0 && Times(1.0 / x, x) == 1.0
    ensures x < 0.0 ==> 1.0 / x <= 0.0
  {
  }

  /** Whatever the rate, positive or not, setting it keeps the book coherent. */
  lemma SetRateCoherent(cs: Curves, b: Currency, q: Currency, ts: int, rate: real)
    requires Coherent(cs)
    ensures Coherent(WithRate(cs, b, q, ts, rate))
  {
    hide Inverse, SortStable, Times;
    var cs' := WithRate(cs, b, q, ts, rate);
    if rate != 0.0 {
      ReciprocalSign(rate);
    }
    forall x, y | x != y
      ensures Inverse(CurveOf(cs', (x, y)), CurveOf(cs', (y, x)))
    {
      assert Inverse(CurveOf(cs, (x, y)), CurveOf(cs, (y, x)));
      if rate > 0.0 && b != q {
        hide Added;
        if (x, y) == (b, q) {
          AddedInverse(CurveOf(cs, (b, q)), CurveOf(cs, (q, b)), ts, rate, 1.0 / rate);
        } else if (x, y) == (q, b) {
          AddedInverse(CurveOf(cs, (q, b)), CurveOf(cs, (b, q)), ts, 1.0 / rate, rate);
        }
      }
    }
  }

  // --- what setting a rate means ------------------------------------------------------------------

  /** The point that answers for `t` once `p` is added to a curve. */
  function Newest(t: int, ps: seq<Point>, p: Point): Point { if ps == [] then p else Better(t, Found(ps, t), p) }

  lemma {:induction false} OthersUntouched(cs: Curves, b: Currency, q: Currency, ts: int, rate: real)
    ensures forall k :: rate <= 0.0 || k !in {(b, q), (q, b)} ==>
      CurveOf(WithRate(cs, b, q, ts, rate), k) == CurveOf(cs, k)
  {
    hide SortStable;
    if rate < 0.0 {
      ReciprocalSign(rate);
    }
  }

  lemma PairSet(cs: Curves, b: Currency, q: Currency, ts: int, rate: real)
    requires b != q && rate > 0.0
    ensures var cs' := WithRate(cs, b, q, ts, rate);
      && CurveOf(cs', (b, q)) == SortStable(CurveOf(cs, (b, q)) + [Point(ts, rate)])
      && CurveOf(cs', (q, b)) == SortStable(CurveOf(cs, (q, b)) + [Point(ts, 1.0 / rate)])
  {
    hide SortStable;
    ReciprocalSign(rate);
  }

  lemma FoundPositive(a: seq<Point>, b: seq<Point>, t: int)
    requires Inverse(a, b) && a != []
    ensures Found(a, t).rate > 0.0
  {
    hide BisectRight, Times;
    var i := BisectRight(a, t) - 1;
    assert Reciprocal(a[if i < 0 then 0 else i], b[if i < 0 then 0 else i]);
  }

  lemma ReciprocalIs(x: real, y: real)
    requires Times(x, y) == 1.0 && x > 0.0
    ensures y == 1.0 / x
  {
  }

  /** After setting a positive rate the pair answers with it wherever it is newer than what the curve
      answered before, and the reversed pair with the reciprocal. */
  lemma RateIsSet(cs: Curves, b: Currency, q: Currency, ts: int, rate: real, fallback: bool)
    requires Coherent(cs) && b != q && rate > 0.0
    ensures var cs' := WithRate(cs, b, q, ts, rate);
      forall t :: var p := Newest(t, CurveOf(cs, (b, q)), Point(ts, rate));
        && p.rate > 0.0
        && Rate(cs', fallback, b, q, t) == Some(p.rate) && Rate(cs', fallback, q, b, t) == Some(1.0 / p.rate)
  {
    var cs', ps := WithRate(cs, b, q, ts, rate), CurveOf(cs, (b, q));
    assert Inverse(ps, CurveOf(cs, (q, b)));
    PairSet(cs, b, q, ts, rate);
    SetRateCoherent(cs, b, q, ts, rate);
    AddAnswers(ps, Point(ts, rate));
    hide WithRate, Coherent, Rate, SortStable, Found, Better, Times, CurveOf;
    forall t
      ensures var p := Newest(t, ps, Point(ts, rate));
        && p.rate > 0.0
        && Rate(cs', fallback, b, q, t) == Some(p.rate) && Rate(cs', fallback, q, b, t) == Some(1.0 / p.rate)
    {
      RateDirect(cs', fallback, b, q, t);
      RateRoundTrips(cs', fallback, b, q, t);
      NewestPositive(cs', b, q, t);
      ReciprocalIs(Rate(cs', fallback, b, q, t).value, Rate(cs', fallback, q, b, t).value);
    }
  }

  lemma NewestPositive(cs: Curves, b: Currency, q: Currency, t: int)
    requires Coherent(cs) && b != q && CurveOf(cs, (b, q)) != []
    ensures var ps := CurveOf(cs, (b, q)); Found(ps, t).rate > 0.0 && RateAsof(ps, t) == Some(Found(ps, t).rate)
  {
    hide Found;
    assert Inverse(CurveOf(cs, (b, q)), CurveOf(cs, (q, b)));
    FoundPositive(CurveOf(cs, (b, q)), CurveOf(cs, (q, b)), t);
    AsofIsFound(CurveOf(cs, (b, q)), t);
  }

  lemma AsofIsFound(ps: seq<Point>, t: int)
    requires ps != []
    ensures RateAsof(ps, t) == Some(Found(ps, t).rate)
  {
  }

  lemma FallbackInverse(b: Currency, q: Currency)
    ensures Fallback(b, q).Some? <==> Fallback(q, b).Some?
    ensures Fallback(b, q).Some? ==>
      Fallback(b, q).value > 0.0 && Fallback(q, b).value > 0.0
          && Times(Fallback(b, q).value, Fallback(q, b).value) == 1.0
  {
  }

  lemma DefaultCurve(b: Currency, q: Currency)
    ensures CurveOf(Defaults(), (b, q)) == if b != q
        && Fallback(b, q).Some? then [Point(0, Fallback(b, q).value)] else []
  {
    assert (b, q) in DEFAULT_PAIRS <==> b != q && Fallback(b, q).Some?;
  }

  lemma DefaultsCoherent()
    ensures Coherent(Defaults())
  {
    hide Defaults, Fallback, Times;
    forall b, q | b != q
      ensures Inverse(CurveOf(Defaults(), (b, q)), CurveOf(Defaults(), (q, b)))
    {
      FallbackInverse(b, q);
      DefaultCurve(b, q);
      DefaultCurve(q, b);
    }
  }

  datatype Setting = Setting(b: Currency, q: Currency, ts: int, rate: real)

  /** A book built by `set_rate` calls, from scratch or from the defaults. */
  function Built(defaults: bool, xs: seq<Setting>): Curves {
    if xs == [] then (if defaults then Defaults() else map[]) else
      var x := xs[|xs| - 1];
      WithRate(Built(defaults, xs[..|xs| - 1]), x.b, x.q, x.ts, x.rate)
  }

  lemma {:induction false} BuiltCoherent(defaults: bool, xs: seq<Setting>)
    ensures Coherent(Built(defaults, xs))
  {
    hide WithRate, Coherent, Defaults;
    if xs == [] {
      DefaultsCoherent();
      EmptyCoherent();
    } else {
      var x := xs[|xs| - 1];
      BuiltCoherent(defaults, xs[..|xs| - 1]);
      SetRateCoherent(Built(defaults, xs[..|xs| - 1]), x.b, x.q, x.ts, x.rate);
    }
  }

  lemma EmptyCoherent()
    ensures Coherent(map[])
  {
  }

  /** What the calls say of a pair, in their order: a positive rate set for it, or the reciprocal of one
      set for the reversed pair. */
  function SettingsOf(xs: seq<Setting>, b: Currency, q: Currency): seq<Point> {
    if xs == [] then [] else
      var before, x := SettingsOf(xs[..|xs| - 1], b, q), xs[|xs| - 1];
      if x.rate <= 0.0 then before
      else if (x.b, x.q) == (b, q) then before + [Point(x.ts, x.rate)]
      else if (x.b, x.q) == (q, b) then before + [Point(x.ts, 1.0 / x.rate)]
      else before
  }

  /** The same, after the default rate of the pair at time zero, if the book starts with defaults. */
  function HistoryOf(defaults: bool, xs: seq<Setting>, b: Currency, q: Currency): seq<Point> {
    (if defaults && Fallback(b, q).Some? then [Point(0, Fallback(b, q).value)] else []) + SettingsOf(xs, b, q)
  }

  lemma OnePointSorts(p: Point)
    ensures SortStable([p]) == [p] && SortStable([]) == []
  {
    assert [p][..0] == [];
    assert [][..0] + [p] + [][0..] == [p];
  }

  lemma HistorySnoc(defaults: bool, xs: seq<Setting>, b: Currency, q: Currency)
    requires xs != []
    ensures var before, x := HistoryOf(defaults, xs[..|xs| - 1], b, q), xs[|xs| - 1];
      HistoryOf(defaults, xs, b, q) ==
        if x.rate <= 0.0 then before
        else if (x.b, x.q) == (b, q) then before + [Point(x.ts, x.rate)]
        else if (x.b, x.q) == (q, b) then before + [Point(x.ts, 1.0 / x.rate)]
        else before
  {
    hide Fallback;
  }

  /** A built book keeps, for every pair, the sorted history of what was set for it. */
  lemma {:induction false} BuiltKeepsHistory(defaults: bool, xs: seq<Setting>, b: Currency, q: Currency)
    requires b != q
    ensures CurveOf(Built(defaults, xs), (b, q)) == SortStable(HistoryOf(defaults, xs, b, q))
  {
    hide SortStable, WithRate, Fallback, Defaults;
    if xs == [] {
      DefaultCurve(b, q);
      OnePointSorts(Point(0, if Fallback(b, q).Some? then Fallback(b, q).value else 0.0));
      assert HistoryOf(defaults, xs, b, q) == if defaults && Fallback(b, q).Some?
        then [Point(0, Fallback(b, q).value)] else [];
    } else {
      var n, x := |xs| - 1, xs[|xs| - 1];
      var cs, h := Built(defaults, xs[..n]), HistoryOf(defaults, xs[..n], b, q);
      BuiltKeepsHistory(defaults, xs[..n], b, q);
      HistorySnoc(defaults, xs, b, q);
      hide HistoryOf, CurveOf;
      OthersUntouched(cs, x.b, x.q, x.ts, x.rate);
      if x.rate > 0.0 && ((x.b, x.q) == (b, q) || (x.b, x.q) == (q, b)) {
        PairSet(cs, x.b, x.q, x.ts, x.rate);
        ReciprocalSign(x.rate);
        var p := Point(x.ts, if (x.b, x.q) == (b, q) then x.rate else 1.0 / x.rate);
        AddingBuilds(h, p);
      }
    }
  }

  /** So the rate of a pair that was ever set is the answer its history gives; any other pair goes through
      the dollar, and failing that to the fallback table. */
  lemma BuiltAnswersHistory(defaults: bool, xs: seq<Setting>, fallback: bool, b: Currency, q: Currency, t: int)
    requires b != q
    ensures var h, cs := HistoryOf(defaults, xs, b, q), Built(defaults, xs);
      Rate(cs, fallback, b, q, t) ==
        if h != [] then Some(Answer(h, t).rate)
        else
          var x, y := Rate(cs, fallback, b, USD, t), Rate(cs, fallback, USD, q, t);
          if !b.USD? && !q.USD? && x.Some? && y.Some? then Some(Times(x.value, y.value)) else OrFallback(fallback, b, q)
  {
    hide Built, SortStable, HistoryOf, Rate, CurveOf, RateAsof, OrFallback, Answer, Times;
    var h, cs := HistoryOf(defaults, xs, b, q), Built(defaults, xs);
    BuiltKeepsHistory(defaults, xs, b, q);
    OnePointSorts(Point(0, 0.0));
    if h != [] {
      CurveAnswers(h, t);
      RateDirect(cs, fallback, b, q, t);
    } else if b.USD? || q.USD? {
      RateDirect(cs, fallback, b, q, t);
    } else {
      RateVia(cs, fallback, b, q, t);
    }
  }

  /** The default table is consistent across the dollar: the direct rate is the product of its legs. */
  lemma FallbackTriangulates(b: Currency, q: Currency)
    requires !b.USD? && !q.USD? && b != q && Fallback(b, q).Some?
    ensures Fallback(b, USD).Some? && Fallback(USD, q).Some?
    ensures Fallback(b, q).value == Fallback(b, USD).value * Fallback(USD, q).value
  {
  }

  lemma AsofInverse(a: seq<Point>, b: seq<Point>, t: int)
    requires Inverse(a, b)
    ensures RateAsof(a, t).Some? <==> RateAsof(b, t).Some?
    ensures RateAsof(a, t).Some? ==> Times(RateAsof(a, t).value, RateAsof(b, t).value) == 1.0
  {
    hide BisectRight, Times;
    if a != [] {
      SameBisect(a, b, t);
      var i := BisectRight(a, t) - 1;
      var k := if i < 0 then 0 else i;
      assert Reciprocal(a[k], b[k]);
    }
  }

  lemma ProductOfInverses(x: real, x': real, y: real, y': real)
    requires Times(x, x') == 1.0 && Times(y, y') == 1.0
    ensures Times(Times(x, y), Times(y', x')) == 1.0
  {
    assert (x * y) * (y' * x') == (x * x') * (y * y');
  }

  ghost predicate RoundTrips(cs: Curves, fallback: bool, b: Currency, q: Currency, t: int) {
    var there, back := Rate(cs, fallback, b, q, t), Rate(cs, fallback, q, b, t);
    (there.Some? <==> back.Some?) && (there.Some? ==> Times(there.value, back.value) == 1.0)
  }

  function OrFallback(fallback: bool, b: Currency, q: Currency): Option<real> {
    if fallback then Fallback(b, q) else None
  }

  lemma RateDirect(cs: Curves, fallback: bool, b: Currency, q: Currency, t: int)
    requires b != q && (b.USD? || q.USD? || CurveOf(cs, (b, q)) != [])
    ensures var ps := CurveOf(cs, (b, q));
      Rate(cs, fallback, b, q, t) == if ps != [] then RateAsof(ps, t) else OrFallback(fallback, b, q)
  {
    hide Fallback, BisectRight, Times;
  }

  lemma RateVia(cs: Curves, fallback: bool, b: Currency, q: Currency, t: int)
    requires b != q && !b.USD? && !q.USD? && CurveOf(cs, (b, q)) == []
    ensures var x, y := Rate(cs, fallback, b, USD, t), Rate(cs, fallback, USD, q, t);
      Rate(cs, fallback, b, q, t) == if x.Some?
          && y.Some? then Some(Times(x.value, y.value)) else OrFallback(fallback, b, q)
  {
    hide Fallback, BisectRight, Times;
  }

  /** When a direct curve answers, or one leg is the dollar. */
  lemma DirectRoundTrips(cs: Curves, fallback: bool, b: Currency, q: Currency, t: int)
    requires Coherent(cs) && b != q && (b.USD? || q.USD? || CurveOf(cs, (b, q)) != [])
    ensures RoundTrips(cs, fallback, b, q, t)
  {
    hide Fallback, Rate, RateAsof, Times;
    FallbackInverse(b, q);
    assert Inverse(CurveOf(cs, (b, q)), CurveOf(cs, (q, b)));
    AsofInverse(CurveOf(cs, (b, q)), CurveOf(cs, (q, b)), t);
    RateDirect(cs, fallback, b, q, t);
    RateDirect(cs, fallback, q, b, t);
  }

  /** There and back is one, and possible one way exactly when the other: for every pair and time,
      through curves, the dollar and the fallback table. */
  lemma RateRoundTrips(cs: Curves, fallback: bool, b: Currency, q: Currency, t: int)
    requires Coherent(cs)
    ensures RoundTrips(cs, fallback, b, q, t)
  {
    if b != q {
      if b.USD? || q.USD? || CurveOf(cs, (b, q)) != [] {
        DirectRoundTrips(cs, fallback, b, q, t);
      } else {
        TriangulatedRoundTrips(cs, fallback, b, q, t);
      }
    }
  }

  lemma TriangulatedRoundTrips(cs: Curves, fallback: bool, b: Currency, q: Currency, t: int)
    requires Coherent(cs) && b != q && !b.USD? && !q.USD? && CurveOf(cs, (b, q)) == []
    ensures RoundTrips(cs, fallback, b, q, t)
  {
    hide Fallback, Rate, Times;
    assert Inverse(CurveOf(cs, (b, q)), CurveOf(cs, (q, b)));
    DirectRoundTrips(cs, fallback, b, USD, t);
    DirectRoundTrips(cs, fallback, USD, q, t);
    FallbackInverse(b, q);
    hide Coherent;
    RateVia(cs, fallback, b, q, t);
    RateVia(cs, fallback, q, b, t);
    var x, y := Rate(cs, fallback, b, USD, t), Rate(cs, fallback, USD, q, t);
    if x.Some? && y.Some? {
      ProductOfInverses(x.value, Rate(cs, fallback, USD, b, t).value, y.value, Rate(cs, fallback, q, USD, t).value);
    }
  }

  /** The same for every book a caller can build. */
  lemma BuiltRoundTrips(defaults: bool, xs: seq<Setting>, fallback: bool, b: Currency, q: Currency, t: int)
    ensures RoundTrips(Built(defaults, xs), fallback, b, q, t)
  {
    hide Built, Coherent, RoundTrips;
    BuiltCoherent(defaults, xs);
    RateRoundTrips(Built(defaults, xs), fallback, b, q, t);
  }
}
