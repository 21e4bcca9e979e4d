/** Products, quotients and share counts: the arithmetic the accounting proofs lean on. Products are passed by
    name so that callers need not expand them. */
module Reals {

  /** A price times a number of shares. */
  function Times(x: real, n: int): real {
    x * n as real
  }

  function Magnitude(x: real): real {
    if x < 0.0 then -x else x
  }

  function Larger(x: real, y: real): real {
    if x < y then y else x
  }

  function Smaller(x: real, y: real): real {
    if y < x then y else x
  }

  lemma TimesAdds(x: real, m: int, n: int)
    ensures Times(x, m + n) == Times(x, m) + Times(x, n)
  {
  }

  lemma TimesNegates(x: real, n: int)
    ensures Times(x, -n) == -Times(x, n)
  {
  }

  lemma TimesSplits(x: real, y: real, n: int)
    ensures Times(x - y, n) == Times(x, n) - Times(y, n)
  {
  }

  lemma TimesOrdered(x: real, y: real, n: int)
    requires x <= y && n >= 0
    ensures Times(x, n) <= Times(y, n)
  {
  }

  lemma TimesCancels(x: real, y: real, n: int)
    requires n != 0 && Times(x, n) == Times(y, n)
    ensures x == y
  {
    assert x == Times(x, n) / n as real && y == Times(y, n) / n as real;
  }

  lemma QuotientTimes(x: real, n: int)
    requires n != 0
    ensures Times(x / n as real, n) == x
  {
  }

  lemma PositiveProduct(x: real, y: real, product: real)
    requires x > 0.0 && y > 0.0 && product == x * y
    ensures product > 0.0
  {
  }

  lemma ProductSign(x: real, y: real)
    requires x >= 0.0 && y >= 0.0
    ensures x * y >= 0.0
  {
  }

  lemma QuotientSign(x: real, d: real)
    requires x >= 0.0 && d > 0.0
    ensures x / d >= 0.0
  {
  }

  lemma CancelFactor(x: real, y: real, product: real)
    requires x != 0.0 && product == x * y
    ensures product / x == y
  {
  }

  lemma DivideOut(k: real, x: real)
    requires k > 0.0 && k * x <= 0.0
    ensures x <= 0.0
  {
  }
}
