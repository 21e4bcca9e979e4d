/** Backtest metrics: the one-pass drawdown against its definition over all pairs, and the running totals. */
module Metrics {
  import opened Reals
  import opened Statistics

  /** A point of the equity curve. */
  datatype Point = Point(time: real, equity: real)

  datatype Report = Report(totalReturn: real, maxDrawdown: real, winRate: real, totalTrades: nat, winningTrades: nat,
                           losingTrades: nat, turnover: real, start: real, end: real, peak: real)

  function Equities(points: seq<Point>): seq<real> {
    seq(|points|, i requires 0 <= i < |points| => points[i].equity)
  }

  /** The highest value up to and including position j. */
  function Peak(curve: seq<real>, j: nat): real
    requires j < |curve|
    decreases j
  {
    if j == 0 then curve[0] else if curve[j] > Peak(curve, j - 1) then curve[j] else Peak(curve, j - 1)
  }

  /** How far below the peak so far the curve stands, as a part of that peak. */
  function DrawdownAt(curve: seq<real>, j: nat): real
    requires j < |curve| && Peak(curve, j) != 0.0
  {
    (Peak(curve, j) - curve[j]) / Peak(curve, j)
  }

  /** The largest drawdown over the positions with a positive peak, or zero if there is none. */
  ghost predicate IsMaxDrawdown(curve: seq<real>, dd: real) {
    && dd >= 0.0
    && (forall j :: 0 <= j < |curve| && Peak(curve, j) > 0.0 ==> DrawdownAt(curve, j) <= dd)
    && (dd > 0.0 ==> exists j :: 0 <= j < |curve| && Peak(curve, j) > 0.0 && DrawdownAt(curve, j) == dd)
  }

  class MetricsEngine {
    const initialCapital: real
    var running: bool
    var curve: seq<Point>  // one point for each exposure update, in order of arrival
    var winningTrades: nat
    var losingTrades: nat
    var totalTradedValue: real
    ghost var traded: seq<real>
    ghost var closes: seq<real>

    ghost predicate Valid()
      reads this
    {
      && totalTradedValue == Sum(traded)
      && winningTrades == CountAbove(closes) && losingTrades == CountBelow(closes)
    }

    constructor (initialCapital: real)
      ensures Valid() && this.initialCapital == initialCapital && !running
      ensures curve == [] && traded == closes == []
    {
      this.initialCapital := initialCapital;
      running, curve, winningTrades, losingTrades, totalTradedValue, traded, closes := false, [], 0, 0, 0.0, [], [];
    }

    method Start()
      requires Valid()
      modifies this`running
      ensures Valid() && running
    {
      running := true;
    }

    method OnExposure(time: real, equity: real)
      requires Valid()
      modifies this`curve
      ensures Valid() && curve == if running then old(curve) + [Point(time, equity)] else old(curve)
    {
      if running {
        curve := curve + [Point(time, equity)];
      }
    }

    method OnFill(fillPrice: real, fillQuantity: int)
      requires Valid()
      modifies this`totalTradedValue, this`traded
      ensures Valid() && traded == if running then old(traded) + [Times(fillPrice, fillQuantity)] else old(traded)
    {
      if running {
        totalTradedValue := totalTradedValue + Times(fillPrice, fillQuantity);
        traded := traded + [Times(fillPrice, fillQuantity)];
        assert traded[..|traded| - 1] == old(traded);
      }
    }

    /** A close at exactly zero counts neither way. */
    method OnClose(realizedPnl: real)
      requires Valid()
      modifies this`winningTrades, this`losingTrades, this`closes
      ensures Valid() && closes == if running then old(closes) + [realizedPnl] else old(closes)
    {
      hide CountAbove, CountBelow, Sum;
      if running {
        if realizedPnl > 0.0 {
          winningTrades := winningTrades + 1;
        } else if realizedPnl < 0.0 {
          losingTrades := losingTrades + 1;
        }
        CountsNext(closes, realizedPnl);
        closes := closes + [realizedPnl];
      }
    }

    /** One pass, keeping the peak so far. */
    method ComputeMaxDrawdown() returns (maxDd: real)
      ensures IsMaxDrawdown(Equities(curve), maxDd)
    {
      if |curve| < 2 {
        return 0.0;
      }
      ghost var equities := Equities(curve);
      var peak := curve[0].equity;
      maxDd := 0.0;
      for i := 0 to |curve|
        invariant peak == if i == 0 then curve[0].equity else Peak(equities, i - 1)
        invariant maxDd >= 0.0
        invariant forall j :: 0 <= j < i && Peak(equities, j) > 0.0 ==> DrawdownAt(equities, j) <= maxDd
        invariant maxDd > 0.0 ==> exists j :: 0 <= j < i && Peak(equities, j) > 0.0 && DrawdownAt(equities, j) == maxDd
      {
        var eq := curve[i].equity;
        if eq > peak {
          peak := eq;
        }
        assert peak == Peak(equities, i);
        if peak > 0.0 {
          var dd := (peak - eq) / peak;
          assert dd == DrawdownAt(equities, i);
          if dd > maxDd {
            maxDd := dd;
          }
        }
      }
    }

    method PeakEquity() returns (peak: real)
      requires curve != []
      ensures peak == Peak(Equities(curve), |curve| - 1)
    {
      peak := curve[0].equity;
      for i := 1 to |curve|
        invariant peak == Peak(Equities(curve), i - 1)
      {
        if curve[i].equity > peak {
          peak := curve[i].equity;
        }
      }
    }

    method AverageEquity() returns (average: real)
      requires curve != []
      ensures average == Mean(Equities(curve))
    {
      var total := SumOf(Equities(curve));
      average := total / |curve| as real;
    }

    method WinRate() returns (rate: real)
      ensures var trades := winningTrades + losingTrades;
        if trades == 0 then rate == 0.0 else Times(rate, trades) == winningTrades as real && 0.0 <= rate <= 1.0
    {
      var trades := winningTrades + losingTrades;
      if trades == 0 {
        return 0.0;
      }
      rate := winningTrades as real / trades as real;
      PartOfWhole(winningTrades, trades, rate);
    }

    /** What the report says of the curve: its ends, its peak, the change from end to end, the largest drawdown,
        and how often the average equity was traded. */
    ghost predicate Describes(r: Report)
      requires curve != []
      reads this
    {
      var equities := Equities(curve);
      && |equities| == |curve| && (forall i :: 0 <= i < |curve| ==> equities[i] == curve[i].equity)
      && r.start == equities[0] && r.end == equities[|curve| - 1]
      && r.peak == Peak(equities, |curve| - 1)
      && IsMaxDrawdown(equities, r.maxDrawdown)
      && (if r.start > 0.0 then r.start * (1.0 + r.totalReturn) == r.end else r.totalReturn == 0.0)
      && (if Mean(equities) > 0.0 then r.turnover * Mean(equities) == Sum(traded) else r.turnover == 0.0)
    }

    /** Everything but the annualized figures; without a curve only the trades are reported. */
    method Compute() returns (r: Report)
      requires Valid()
      ensures r.winningTrades == CountAbove(closes) && r.losingTrades == CountBelow(closes)
      ensures r.totalTrades == r.winningTrades + r.losingTrades
      ensures if r.totalTrades == 0 then r.winRate == 0.0
              else Times(r.winRate, r.totalTrades) == r.winningTrades as real
      ensures if curve == [] then r.start == r.end == r.peak == r.totalReturn == r.maxDrawdown == r.turnover == 0.0
              else Describes(r)
    {
      hide Mean, Times, Peak, IsMaxDrawdown, CountAbove, CountBelow, Sum;
      var totalTrades := winningTrades + losingTrades;
      var winRate := WinRate();
      if |curve| == 0 {
        return Report(0.0, 0.0, winRate, totalTrades, winningTrades, losingTrades, 0.0, 0.0, 0.0, 0.0);
      }
      var start, end := curve[0].equity, curve[|curve| - 1].equity;
      var peak := PeakEquity();
      var totalReturn := if start > 0.0 then (end - start) / start else 0.0;
      ReturnReaches(start, end, totalReturn);
      var maxDd := ComputeMaxDrawdown();
      var average := AverageEquity();
      var turnover := if average > 0.0 then totalTradedValue / average else 0.0;
      assert average > 0.0 ==> turnover * average == totalTradedValue;
      return Report(totalReturn, maxDd, winRate, totalTrades, winningTrades, losingTrades, turnover, start, end, peak);
    }
  }

  lemma ReturnReaches(start: real, end: real, change: real)
    requires start > 0.0 ==> change == (end - start) / start
    ensures start > 0.0 ==> start * (1.0 + change) == end
  {
    if start > 0.0 {
      assert start * change == end - start;
    }
  }

  lemma PartOfWhole(part: nat, whole: nat, rate: real)
    requires part <= whole && whole > 0 && rate == part as real / whole as real
    ensures Times(rate, whole) == part as real && 0.0 <= rate <= 1.0
  {
    var p, w := part as real, whole as real;
    QuotientSign(p, w);
    QuotientSign(w - p, w);
    SplitQuotient(w, p);
  }

  function CountAbove(xs: seq<real>): nat {
    if xs == [] then 0 else CountAbove(xs[..|xs| - 1]) + if xs[|xs| - 1] > 0.0 then 1 else 0
  }

  function CountBelow(xs: seq<real>): nat {
    if xs == [] then 0 else CountBelow(xs[..|xs| - 1]) + if xs[|xs| - 1] < 0.0 then 1 else 0
  }

  lemma {:induction false} AboveAre(xs: seq<real>)
    ensures CountAbove(xs) == |set i | 0 <= i < |xs| && xs[i] > 0.0|
  {
    if xs != [] {
      var last := |xs| - 1;
      var rest := xs[..last];
      AboveAre(rest);
      assert (set i | 0 <= i < |xs| && xs[i] > 0.0)
          == (set i | 0 <= i < |rest| && rest[i] > 0.0) + if xs[last] > 0.0 then {last} else {};
    }
  }

  lemma {:induction false} BelowAre(xs: seq<real>)
    ensures CountBelow(xs) == |set i | 0 <= i < |xs| && xs[i] < 0.0|
  {
    if xs != [] {
      var last := |xs| - 1;
      var rest := xs[..last];
      BelowAre(rest);
      assert (set i | 0 <= i < |xs| && xs[i] < 0.0)
          == (set i | 0 <= i < |rest| && rest[i] < 0.0) + if xs[last] < 0.0 then {last} else {};
    }
  }

  /** Wins are the closes above zero, losses those below. */
  lemma CountsAre(xs: seq<real>)
    ensures CountAbove(xs) == |set i | 0 <= i < |xs| && xs[i] > 0.0|
    ensures CountBelow(xs) == |set i | 0 <= i < |xs| && xs[i] < 0.0|
  {
    AboveAre(xs);
    BelowAre(xs);
  }

  lemma CountsNext(xs: seq<real>, x: real)
    ensures CountAbove(xs + [x]) == CountAbove(xs) + if x > 0.0 then 1 else 0
    ensures CountBelow(xs + [x]) == CountBelow(xs) + if x < 0.0 then 1 else 0
  {
    assert (xs + [x])[..|xs|] == xs;
  }

  // ---------------------------------------------------------------------------------------------
  // The definition over all pairs
  // ---------------------------------------------------------------------------------------------

  /** The peak is the highest value so far, and one of them. */
  lemma {:induction false} PeakIsHighest(curve: seq<real>, j: nat)
    requires j < |curve|
    ensures forall i :: 0 <= i <= j ==> curve[i] <= Peak(curve, j)
    ensures exists i :: 0 <= i <= j && curve[i] == Peak(curve, j)
  {
    if j > 0 {
      PeakIsHighest(curve, j - 1);
      if curve[j] <= Peak(curve, j - 1) {
        var i :| 0 <= i <= j - 1 && curve[i] == Peak(curve, j - 1);
        assert curve[i] == Peak(curve, j);
      } else {
        assert curve[j] == Peak(curve, j);
      }
    } else {
      assert curve[0] == Peak(curve, 0);
    }
  }

  predicate AllPositive(curve: seq<real>) {
    forall i :: 0 <= i < |curve| ==> curve[i] > 0.0
  }

  lemma SplitQuotient(x: real, e: real)
    requires x > 0.0
    ensures (x - e) / x == 1.0 - e / x
  {
    assert x / x == 1.0;
    assert (x - e) / x == x / x - e / x;
  }

  lemma LossGrowsWithPeak(low: real, peak: real, e: real)
    requires 0.0 < low <= peak && e > 0.0
    ensures (low - e) / low <= (peak - e) / peak < 1.0
  {
    SplitQuotient(low, e);
    SplitQuotient(peak, e);
    assert e / low - e / peak == e * (peak - low) / (low * peak);
    PositiveProduct(low, peak, low * peak);
    ProductSign(e, peak - low);
    QuotientSign(e * (peak - low), low * peak);
    PositiveQuotient(e, peak);
  }

  lemma PositiveQuotient(x: real, d: real)
    requires x > 0.0 && d > 0.0
    ensures x / d > 0.0
  {
  }

  /** On a curve of positive values, the one-pass result is the largest loss between any two moments, as a part of
      the value at the first, the later one never before the earlier; and it lies in [0, 1). */
  lemma MaxDrawdownOverPairs(curve: seq<real>, dd: real)
    requires curve != [] && AllPositive(curve) && IsMaxDrawdown(curve, dd)
    ensures 0.0 <= dd < 1.0
    ensures forall i, j :: 0 <= i <= j < |curve| ==> (curve[i] - curve[j]) / curve[i] <= dd
    ensures exists i, j :: 0 <= i <= j < |curve| && (curve[i] - curve[j]) / curve[i] == dd
  {
    forall i, j | 0 <= i <= j < |curve| ensures (curve[i] - curve[j]) / curve[i] <= dd {
      PeakIsHighest(curve, j);
      assert curve[i] <= Peak(curve, j);
      LossGrowsWithPeak(curve[i], Peak(curve, j), curve[j]);
    }
    if dd > 0.0 {
      var j :| 0 <= j < |curve| && Peak(curve, j) > 0.0 && DrawdownAt(curve, j) == dd;
      PeakIsHighest(curve, j);
      var i :| 0 <= i <= j && curve[i] == Peak(curve, j);
      LossGrowsWithPeak(curve[i], curve[i], curve[j]);
      assert (curve[i] - curve[j]) / curve[i] == dd;
    } else {
      assert (curve[0] - curve[0]) / curve[0] == 0.0;
    }
  }

  /** The definition leaves no choice. */
  lemma MaxDrawdownIsUnique(curve: seq<real>, a: real, b: real)
    requires IsMaxDrawdown(curve, a) && IsMaxDrawdown(curve, b)
    ensures a == b
  {
  }
}
