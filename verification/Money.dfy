/** Real amounts. Proofs elsewhere hide the product of price and quantity and use only these laws. */
module Money {

  function MinR(a: real, b: real): real { if a <= b then a else b }
  function MaxR(a: real, b: real): real { if a <= b then b else a }
  function AbsR(x: real): real { if x < 0.0 then -x else x }

  /** A share of a base; none of nothing. */
  function Ratio(x: real, base: real): real { if base == 0.0 then 0.0 else x / base }

  function Times(px: real, qty: real): real { px * qty }

  lemma TimesAdds(px: real, a: real, b: real)
    ensures Times(px, a + b) == Times(px, a) + Times(px, b)
    ensures Times(px, 0.0) == 0.0
  {
  }

  lemma TimesAddsPx(p: real, q: real, qty: real)
    ensures Times(p + q, qty) == Times(p, qty) + Times(q, qty)
    ensures Times(0.0, qty) == 0.0
  {
  }

  lemma TimesNegates(px: real, qty: real)
    ensures Times(px, -qty) == -Times(px, qty)
  {
  }
}
