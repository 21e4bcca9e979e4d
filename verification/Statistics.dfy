/** Sums, means and variances of price windows, and how far the newest price can lie from the mean. */
module Statistics {
  import opened Reals

  function Sum(xs: seq<real>): real {
    if xs == [] then 0.0 else Sum(xs[..|xs| - 1]) + xs[|xs| - 1]
  }

  function Mean(xs: seq<real>): real {
    if xs == [] then 0.0 else Sum(xs) / |xs| as real
  }

  function Square(x: real): real {
    x * x
  }

  /** The sum of squared distances from m. */
  function Spread(xs: seq<real>, m: real): real {
    if xs == [] then 0.0 else Spread(xs[..|xs| - 1], m) + Square(xs[|xs| - 1] - m)
  }

  /** Appending to a list of bounded length drops from the front. */
  function Push<T>(xs: seq<T>, x: T, bound: nat): seq<T>
    requires |xs| <= bound
    ensures |Push(xs, x, bound)| <= bound
  {
    if |xs| < bound then xs + [x] else (xs + [x])[1..]
  }

  /** The last n of a list, or all of it. */
  function Newest<T>(xs: seq<T>, n: nat): seq<T> {
    if |xs| <= n then xs else xs[|xs| - n..]
  }

  lemma NewestPushed<T>(xs: seq<T>, x: T, n: nat)
    ensures |Newest(xs, n)| <= n && Push(Newest(xs, n), x, n) == Newest(xs + [x], n)
  {
  }

  method SumOf(xs: seq<real>) returns (total: real)
    ensures total == Sum(xs)
  {
    total := 0.0;
    for i := 0 to |xs|
      invariant total == Sum(xs[..i])
    {
      assert xs[..i + 1][..i] == xs[..i];
      total := total + xs[i];
    }
    assert xs[..|xs|] == xs;
  }

  method SpreadOf(xs: seq<real>, m: real) returns (total: real)
    ensures total == Spread(xs, m)
  {
    total := 0.0;
    for i := 0 to |xs|
      invariant total == Spread(xs[..i], m)
    {
      assert xs[..i + 1][..i] == xs[..i];
      total := total + Square(xs[i] - m);
    }
    assert xs[..|xs|] == xs;
  }

  // ---------------------------------------------------------------------------------------------
  // Samuelson's inequality
  // ---------------------------------------------------------------------------------------------

  lemma SquareIsNotNegative(x: real)
    ensures Square(x) >= 0.0
  {
  }

  lemma ExpandStep(s: real, q: real, d: real, k: real, slack: real)
    requires slack == q + k * Square(d) - 2.0 * (s * d)
    ensures (k + 1.0) * (q + Square(d)) - Square(s + d) == (k * q - Square(s)) + slack
  {
  }

  lemma ExpandSlack(s: real, q: real, d: real, k: real, slack: real)
    requires slack == q + k * Square(d) - 2.0 * (s * d)
    ensures k * slack == (k * q - Square(s)) + Square(s - k * d)
  {
  }

  /** One step of the Cauchy-Schwarz bound. */
  lemma SquareStep(s: real, q: real, d: real, k: real)
    requires k >= 1.0 && Square(s) <= k * q
    ensures Square(s + d) <= (k + 1.0) * (q + Square(d))
  {
    hide Square;
    var slack := q + k * Square(d) - 2.0 * (s * d);
    ExpandStep(s, q, d, k, slack);
    ExpandSlack(s, q, d, k, slack);
    SquareIsNotNegative(s - k * d);
    NonNegativeFactor(k, slack);
  }

  lemma NonNegativeFactor(k: real, x: real)
    requires k >= 1.0 && k * x >= 0.0
    ensures x >= 0.0
  {
  }

  /** The sum of signed distances from m. */
  function Distance(xs: seq<real>, m: real): real {
    if xs == [] then 0.0 else Distance(xs[..|xs| - 1], m) + (xs[|xs| - 1] - m)
  }

  lemma CountNext(n: nat, x: real)
    ensures (n + 1) as real == n as real + 1.0 && (n + 1) as real * x == n as real * x + x
  {
    var k := n as real;
    assert (k + 1.0) * x == k * x + x;
  }

  lemma SingleDistance(xs: seq<real>, m: real)
    requires |xs| == 1
    ensures Distance(xs, m) == xs[0] - m && Spread(xs, m) == Square(xs[0] - m)
  {
    assert Distance(xs[..0], m) == 0.0 && Spread(xs[..0], m) == 0.0;
  }

  /** The square of the summed distances is at most the count times the spread. */
  lemma {:induction false} CauchySchwarz(xs: seq<real>, m: real, n: real)
    requires xs != [] && n == |xs| as real
    ensures Square(Distance(xs, m)) <= n * Spread(xs, m)
  {
    hide Square;
    if |xs| == 1 {
      SingleDistance(xs, m);
    } else {
      var rest := xs[..|xs| - 1];
      CauchySchwarz(rest, m, n - 1.0);
      SquareStep(Distance(rest, m), Spread(rest, m), xs[|xs| - 1] - m, n - 1.0);
    }
  }

  lemma {:induction false} DistanceFromMean(xs: seq<real>, m: real)
    ensures Distance(xs, m) == Sum(xs) - |xs| as real * m
  {
    if xs != [] {
      DistanceFromMean(xs[..|xs| - 1], m);
      CountNext(|xs| - 1, m);
    }
  }

  lemma DistancesCancel(xs: seq<real>)
    ensures Distance(xs, Mean(xs)) == 0.0
  {
    MeanTimesCount(xs);
    DistanceFromMean(xs, Mean(xs));
  }

  lemma NewestFromCentre(xs: seq<real>, m: real, n: real)
    requires xs != [] && n == |xs| as real && Distance(xs, m) == 0.0
    ensures n * Square(xs[|xs| - 1] - m) <= (n - 1.0) * Spread(xs, m)
  {
    if |xs| == 1 {
      SingleDistance(xs, m);
      assert Square(0.0) == 0.0;
    } else {
      var rest, d := xs[..|xs| - 1], xs[|xs| - 1] - m;
      CauchySchwarz(rest, m, n - 1.0);
      SquareOfNegation(Distance(rest, m), d);
      SpreadSplit(n, Square(d), Spread(rest, m), Spread(xs, m));
    }
  }

  lemma SquareOfNegation(x: real, y: real)
    requires x == -y
    ensures Square(x) == Square(y)
  {
  }

  /** The newest of n values lies within sqrt((n - 1) / n) times the root of the spread from the mean. */
  lemma Samuelson(xs: seq<real>, n: real)
    requires xs != [] && n == |xs| as real
    ensures n * Square(xs[|xs| - 1] - Mean(xs)) <= (n - 1.0) * Spread(xs, Mean(xs))
  {
    DistancesCancel(xs);
    NewestFromCentre(xs, Mean(xs), n);
  }

  lemma MeanTimesCount(xs: seq<real>)
    ensures |xs| as real * Mean(xs) == Sum(xs)
  {
  }

  lemma SpreadSplit(n: real, d2: real, rest: real, whole: real)
    requires d2 <= (n - 1.0) * rest && whole == rest + d2
    ensures n * d2 <= (n - 1.0) * whole
  {
    assert (n - 1.0) * whole == (n - 1.0) * rest + (n - 1.0) * d2;
    assert n * d2 == d2 + (n - 1.0) * d2;
  }

  /** The extreme case: n - 1 equal prices and one n below them. */
  function Drop(n: nat): seq<real>
    requires n >= 1
  {
    seq(n - 1, i => 0.0) + [-(n as real)]
  }

  lemma {:induction false} ZerosSum(k: nat, m: real)
    ensures Sum(seq(k, i => 0.0)) == 0.0 && Spread(seq(k, i => 0.0), m) == k as real * Square(m)
  {
    var zeros := seq(k, i => 0.0);
    if k > 0 {
      ZerosSum(k - 1, m);
      assert zeros[..k - 1] == seq(k - 1, i => 0.0);
      assert Square(0.0 - m) == Square(m);
      assert k as real * Square(m) == (k - 1) as real * Square(m) + Square(m);
    }
  }

  lemma DropStatistics(n: nat, x: real)
    requires n >= 1 && x == n as real
    ensures |Drop(n)| == n && Mean(Drop(n)) == -1.0
    ensures Spread(Drop(n), Mean(Drop(n))) == x * (x - 1.0)
  {
    var xs := Drop(n);
    assert xs[..n - 1] == seq(n - 1, i => 0.0);
    ZerosSum(n - 1, -1.0);
    assert Sum(xs) == -x;
    assert -x / x == -1.0;
    assert Square(-x - -1.0) == (x - 1.0) * (x - 1.0);
    assert (n - 1) as real * Square(-1.0) == x - 1.0;
    assert (x - 1.0) + (x - 1.0) * (x - 1.0) == x * (x - 1.0);
  }

  lemma PositiveSquare(x: real)
    requires x > 0.0
    ensures Square(x) > 0.0
  {
    PositiveProduct(x, x, Square(x));
  }

  lemma ScaleSquare(k: real, x: real, y: real)
    requires k > 0.0 && y > 0.0 && (x >= k * y || x <= -(k * y))
    ensures Square(x) >= Square(k) * Square(y)
  {
    var t := k * y;
    assert t > 0.0;
    assert Square(t) == Square(k) * Square(y);
    if x >= t { assert (x - t) * (x + t) >= 0.0; } else { assert (-x - t) * (-x + t) >= 0.0; }
    assert (x - t) * (x + t) == Square(x) - Square(t);
  }

}
