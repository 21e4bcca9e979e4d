/** The Bollinger-band strategy: signal when the newest close touches a band of sample deviations around its
    window's mean. Square roots are given, as in mean reversion. */
module Bollinger {
  import opened Basics
  import opened Reals
  import opened Statistics

  datatype Params = Params(strategy: string, window: nat, numStd: real, size: int)

  /** The sample deviation: the divisor is one less than the number of prices. */
  predicate IsSampleStd(std: real, xs: seq<real>) {
    std >= 0.0
    && if |xs| <= 1 then std == 0.0 else Square(std) == Spread(xs, Mean(xs)) / (|xs| - 1) as real
  }

  const TINY := 0.000000000001

  function Pushed(p: Params, prices: seq<real>, close: real): seq<real>
    requires |prices| <= p.window
  {
    Push(prices, close, p.window)
  }

  /** A window of one price has no sample deviation: the division by zero raises. */
  predicate Raises(p: Params, xs: seq<real>) {
    |xs| == p.window == 1
  }

  function SideFor(p: Params, xs: seq<real>, close: real, std: real): Option<Side> {
    if |xs| < p.window || Raises(p, xs) || std < TINY then None
    else if close <= Mean(xs) - p.numStd * std then Some(Buy)
    else if close >= Mean(xs) + p.numStd * std then Some(Sell)
    else None
  }

  /** Every symbol's window, and what has been signalled. */
  datatype State = State(prices: map<Symbol, seq<real>>, emitted: seq<Signal>) {

    function PricesOf(s: Symbol): seq<real> {
      if s in prices then prices[s] else []
    }

    predicate Fits(p: Params) {
      forall s :: s in prices ==> |prices[s]| <= p.window
    }
  }

  /** A bar's close, with the sample deviation of the window it completes. */
  datatype Bar = Bar(symbol: Symbol, close: real, std: real)

  function Step(p: Params, st: State, bar: Bar): State
    requires st.Fits(p)
    ensures Step(p, st, bar).Fits(p)
  {
    var xs := Pushed(p, st.PricesOf(bar.symbol), bar.close);
    var side := SideFor(p, xs, bar.close, bar.std);
    State(st.prices[bar.symbol := xs],
          st.emitted + if side.Some? then [Signal(p.strategy, bar.symbol, side.value, p.size)] else [])
  }

  class BollingerBandsStrategy {
    const params: Params
    var running: bool
    var prices: map<Symbol, seq<real>>
    var emitted: seq<Signal>

    ghost predicate Valid()
      reads this
    {
      View().Fits(params)
    }

    function View(): State
      reads this
    {
      State(prices, emitted)
    }

    constructor (params: Params)
      ensures Valid() && this.params == params && !running && emitted == [] && prices == map[]
    {
      this.params := params;
      running, prices, emitted := false, map[], [];
    }

    method Start()
      modifies this`running
      ensures running
    {
      running := true;
    }

    method EmitSignal(symbol: Symbol, side: Side)
      modifies this`emitted
      ensures emitted == old(emitted) + if running then [Signal(params.strategy, symbol, side, params.size)] else []
    {
      if running {
        emitted := emitted + [Signal(params.strategy, symbol, side, params.size)];
      }
    }

    method ComputeSma(symbol: Symbol) returns (mean: real)
      requires symbol in prices
      ensures mean == Mean(prices[symbol])
    {
      if |prices[symbol]| == 0 {
        return 0.0;
      }
      var total := SumOf(prices[symbol]);
      return total / |prices[symbol]| as real;
    }

    method ComputeStd(symbol: Symbol, std: real) returns (deviation: real)
      requires symbol in prices && |prices[symbol]| != 1 && IsSampleStd(std, prices[symbol])
      ensures deviation == std
    {
      var window := prices[symbol];
      if |window| == 0 {
        return 0.0;
      }
      var mean := ComputeSma(symbol);
      var spread := SpreadOf(window, mean);
      var variance := spread / (|window| - 1) as real;
      assert Square(std) == variance;
      return std;
    }

    /** A full window of one price makes the division by zero raise. */
    method OnBarClose(symbol: Symbol, close: real, std: real) returns (raised: bool)
      requires Valid()
      requires var xs := Pushed(params, View().PricesOf(symbol), close); |xs| == params.window ==> IsSampleStd(std, xs)
      modifies this
      ensures Valid() && running == old(running)
      ensures raised == Raises(params, Pushed(params, old(View()).PricesOf(symbol), close))
      ensures var next := Step(params, old(View()), Bar(symbol, close, std));
        View() == if running then next else next.(emitted := old(emitted))
    {
      hide Mean, IsSampleStd, Push;
      if symbol !in prices {
        prices := prices[symbol := []];
      }
      prices := prices[symbol := Push(prices[symbol], close, params.window)];
      if |prices[symbol]| < params.window {
        return false;
      }
      var sma := ComputeSma(symbol);
      if |prices[symbol]| == 1 {
        return true;
      }
      var deviation := ComputeStd(symbol, std);
      var upper := sma + params.numStd * deviation;
      var lower := sma - params.numStd * deviation;
      if deviation < TINY {
        return false;
      }
      if close <= lower {
        EmitSignal(symbol, Buy);
      } else if close >= upper {
        EmitSignal(symbol, Sell);
      }
      return false;
    }
  }

  // ---------------------------------------------------------------------------------------------
  // When the bands can be touched at all
  // ---------------------------------------------------------------------------------------------

  /** A close that touches a band of k sample deviations bounds k: k^2 n is at most (n - 1)^2. */
  lemma TouchBound(k: real, xs: seq<real>, std: real, n: real)
    requires |xs| >= 2 && n == |xs| as real && IsSampleStd(std, xs) && std > 0.0 && k > 0.0
    requires var d := xs[|xs| - 1] - Mean(xs); d >= k * std || d <= -(k * std)
    ensures Square(k) * n <= Square(n - 1.0)
  {
    hide Square, Mean, Spread;
    var d := xs[|xs| - 1] - Mean(xs);
    ScaleSquare(k, d, std);
    Samuelson(xs, n);
    PositiveSquare(std);
    assert (|xs| - 1) as real == n - 1.0;
    SampleSpread(n - 1.0, Square(std), Spread(xs, Mean(xs)));
    CancelSample(n, Square(d), Square(k), Square(std), Spread(xs, Mean(xs)));
  }

  lemma SampleSpread(m: real, v: real, spread: real)
    requires m > 0.0 && v == spread / m
    ensures spread == m * v
  {
  }

  lemma CancelSample(n: real, d2: real, k2: real, v: real, spread: real)
    requires n >= 1.0 && v > 0.0 && d2 >= k2 * v && spread == (n - 1.0) * v && n * d2 <= (n - 1.0) * spread
    ensures k2 * n <= Square(n - 1.0)
  {
    var gap := d2 - k2 * v;
    assert n * gap >= 0.0;
    assert n * gap == n * d2 - n * (k2 * v);
    assert (n - 1.0) * ((n - 1.0) * v) == v * Square(n - 1.0);
    assert v * (k2 * n - Square(n - 1.0)) == n * (k2 * v) - v * Square(n - 1.0);
    DivideOut(v, k2 * n - Square(n - 1.0));
  }

  /** The close of a full window that cannot reach its bands signals nothing. */
  lemma WideBandsAreSilent(p: Params, prices: seq<real>, close: real, std: real)
    requires |prices| <= p.window
    requires var xs := Pushed(p, prices, close); |xs| == p.window ==> IsSampleStd(std, xs)
    requires p.numStd > 0.0 && Square(p.numStd) * p.window as real > Square(p.window as real - 1.0)
    ensures SideFor(p, Pushed(p, prices, close), close, std) == None
  {
    var xs := Pushed(p, prices, close);
    if |xs| == p.window >= 2 && std >= TINY {
      assert xs[|xs| - 1] == close;
      var d, b := close - Mean(xs), p.numStd * std;
      if d >= b || d <= -b {
        TouchBound(p.numStd, xs, std, p.window as real);
      }
    }
  }

  // ---------------------------------------------------------------------------------------------
  // Runs over any interleaving of symbols
  // ---------------------------------------------------------------------------------------------

  function Run(p: Params, bars: seq<Bar>): State
    ensures Run(p, bars).Fits(p)
  {
    if bars == [] then State(map[], []) else Step(p, Run(p, bars[..|bars| - 1]), bars[|bars| - 1])
  }

  /** Each bar that completes a window carries that window's deviation. */
  predicate Measured(p: Params, bars: seq<Bar>) {
    bars == [] ||
      var past, bar := bars[..|bars| - 1], bars[|bars| - 1];
      var window := Pushed(p, Run(p, past).PricesOf(bar.symbol), bar.close);
      Measured(p, past) && (|window| == p.window ==> IsSampleStd(bar.std, window))
  }

  /** The closes of a symbol. */
  function ClosesOf(bars: seq<Bar>, s: Symbol): seq<real> {
    if bars == [] then []
    else
      var last := bars[|bars| - 1];
      ClosesOf(bars[..|bars| - 1], s) + if last.symbol == s then [last.close] else []
  }

  /** A symbol's window holds its newest closes. */
  lemma {:induction false} WindowIsNewest(p: Params, bars: seq<Bar>, s: Symbol)
    ensures Run(p, bars).PricesOf(s) == Newest(ClosesOf(bars, s), p.window)
  {
    if bars != [] {
      var past, bar := bars[..|bars| - 1], bars[|bars| - 1];
      hide SideFor, Mean, Push;
      WindowIsNewest(p, past, s);
      NewestPushed(ClosesOf(past, s), bar.close, p.window);
    }
  }

  /** In every run, a bar leads to a signal for its symbol, and to no other: a purchase if the symbol's newest closes
      fill a window of more than one, differ, and the close lies at least so many sample deviations below their
      mean; else a sale if it lies as many above. */
  lemma SignalsAtBands(p: Params, past: seq<Bar>, bar: Bar)
    ensures var s := bar.symbol;
      var before, after := Run(p, past), Run(p, past + [bar]);
      var window := Newest(ClosesOf(past, s) + [bar.close], p.window);
      var d := bar.close - Mean(window);
      && (forall x :: x != s ==> after.PricesOf(x) == before.PricesOf(x))
      && after.emitted == before.emitted
           + if |window| < p.window || p.window == 1 || bar.std < 0.000000000001 then []
             else if d <= -(p.numStd * bar.std) then [Signal(p.strategy, s, Buy, p.size)]
             else if d >= p.numStd * bar.std then [Signal(p.strategy, s, Sell, p.size)]
             else []
  {
    hide Mean, Push, ClosesOf, Newest, SideFor;
    assert (past + [bar])[..|past|] == past;
    WindowIsNewest(p, past, bar.symbol);
    NewestPushed(ClosesOf(past, bar.symbol), bar.close, p.window);
    SideAtBands(p, Newest(ClosesOf(past, bar.symbol) + [bar.close], p.window), bar.close, bar.std);
  }

  lemma SideAtBands(p: Params, xs: seq<real>, close: real, std: real)
    requires |xs| <= p.window
    ensures var d := close - Mean(xs);
      SideFor(p, xs, close, std) ==
        if |xs| < p.window || p.window == 1 || std < 0.000000000001 then None
        else if d <= -(p.numStd * std) then Some(Buy)
        else if d >= p.numStd * std then Some(Sell)
        else None
  {
    hide Mean;
  }

  /** With bands out of reach no run signals anything. */
  lemma {:induction false} WideRunsAreSilent(p: Params, bars: seq<Bar>)
    requires Measured(p, bars)
    requires p.numStd > 0.0 && Square(p.numStd) * p.window as real > Square(p.window as real - 1.0)
    ensures Run(p, bars).emitted == []
  {
    if bars != [] {
      hide Mean, IsSampleStd, Square, SideFor, Pushed;
      var past, bar := bars[..|bars| - 1], bars[|bars| - 1];
      WideRunsAreSilent(p, past);
      WideBandsAreSilent(p, Run(p, past).PricesOf(bar.symbol), bar.close, bar.std);
    }
  }

  /** n - 1 zero closes and one at -n. */
  function Plunge(s: Symbol, n: nat, root: real): seq<Bar>
    requires n >= 1
  {
    seq(n - 1, i => Bar(s, 0.0, 0.0)) + [Bar(s, -(n as real), root)]
  }

  lemma {:induction false} QuietStart(p: Params, s: Symbol, k: nat)
    requires k < p.window
    ensures var bars := seq(k, i => Bar(s, 0.0, 0.0));
      && Measured(p, bars) && Run(p, bars).emitted == [] && Run(p, bars).PricesOf(s) == seq(k, i => 0.0)
  {
    if k > 0 {
      QuietStart(p, s, k - 1);
      var bars := seq(k, i => Bar(s, 0.0, 0.0));
      assert bars[..k - 1] == seq(k - 1, i => Bar(s, 0.0, 0.0));
      assert seq(k - 1, i => 0.0) + [0.0] == seq(k, i => 0.0);
    }
  }

  lemma PlungeSignals(p: Params, s: Symbol, root: real)
    requires p.window >= 2 && root >= 1.0 && Square(root) == p.window as real
    requires p.numStd * root <= p.window as real - 1.0
    ensures Measured(p, Plunge(s, p.window, root)) && Run(p, Plunge(s, p.window, root)).emitted != []
  {
    hide SideFor, IsSampleStd, Square, Pushed;
    var bars := Plunge(s, p.window, root);
    assert bars[..p.window - 1] == seq(p.window - 1, i => Bar(s, 0.0, 0.0));
    QuietStart(p, s, p.window - 1);
    PlungeTouches(p, root);
  }

  /** With root the square root of the window size: the strategy stays silent on every price history exactly
      when its bands are out of reach. The extreme history is n - 1 equal closes and then a plunge. */
  lemma SilentIff(p: Params, s: Symbol, root: real)
    requires p.window >= 2 && root >= 1.0 && Square(root) == p.window as real
    ensures (forall bars :: Measured(p, bars) ==> Run(p, bars).emitted == [])
       <==> p.numStd * root > p.window as real - 1.0
  {
    hide *;
    if p.numStd * root > p.window as real - 1.0 {
      if p.numStd <= 0.0 { ProductSign(-p.numStd, root); }
      ProductGrows(p.numStd * root, p.window as real - 1.0, p.numStd, root);
      forall bars | Measured(p, bars) ensures Run(p, bars).emitted == [] {
        WideRunsAreSilent(p, bars);
      }
    } else {
      PlungeSignals(p, s, root);
    }
  }

  lemma ProductGrows(x: real, y: real, k: real, r: real)
    requires x > y >= 0.0 && x == k * r
    ensures Square(k) * Square(r) > Square(y)
  {
    assert Square(k) * Square(r) == Square(x) by { SquareOfProduct(k, r, x); }
    PositiveProduct(x - y, x + y, Square(x) - Square(y));
  }

  lemma SquareOfProduct(k: real, r: real, x: real)
    requires x == k * r
    ensures Square(x) == Square(k) * Square(r)
  {
    assert (k * r) * (k * r) == (k * k) * (r * r);
  }

  lemma PlungeTouches(p: Params, root: real)
    requires p.window >= 2 && root >= 1.0 && Square(root) == p.window as real
    requires p.numStd * root <= p.window as real - 1.0
    ensures var zeros := seq(p.window - 1, i => 0.0);
      && Pushed(p, zeros, -(p.window as real)) == Drop(p.window)
      && IsSampleStd(root, Drop(p.window))
      && SideFor(p, Drop(p.window), -(p.window as real), root) == Some(Buy)
  {
    var n := p.window as real;
    DropStatistics(p.window, n);
    CancelFactor(n - 1.0, n, Spread(Drop(p.window), Mean(Drop(p.window))));
    assert (p.window - 1) as real == n - 1.0;
  }
}
