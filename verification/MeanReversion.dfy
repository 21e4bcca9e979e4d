/** The mean-reversion strategy: enter when the newest close is far from its window's mean, leave when it is
    back. Square roots are given: `std` is a non-negative number whose square is the variance. */
module MeanReversion {
  import opened Basics
  import opened Reals
  import opened Statistics

  datatype Params = Params(strategy: string, window: nat, entryZ: real, exitZ: real, size: int)

  datatype Holding = Long | Short

  function Variance(xs: seq<real>): real {
    if xs == [] then 0.0 else Spread(xs, Mean(xs)) / |xs| as real
  }

  predicate IsStd(std: real, xs: seq<real>) {
    std >= 0.0 && Square(std) == Variance(xs)
  }

  /** One symbol's state. */
  datatype Watch = Watch(prices: seq<real>, holding: Option<Holding>)

  /** What a full window with z-score z leads to: the side to signal and the new holding. */
  function Decide(p: Params, holding: Option<Holding>, z: real): (Option<Side>, Option<Holding>) {
    if holding.None? && z <= -p.entryZ then (Some(Buy), Some(Long))
    else if holding.None? && z >= p.entryZ then (Some(Sell), Some(Short))
    else if holding == Some(Long) && z >= -p.exitZ then (Some(Sell), None)
    else if holding == Some(Short) && z <= p.exitZ then (Some(Buy), None)
    else (None, holding)
  }

  function Pushed(p: Params, watch: Watch, close: real): seq<real>
    requires |watch.prices| <= p.window
  {
    Push(watch.prices, close, p.window)
  }

  function OnClose(p: Params, watch: Watch, close: real, std: real): (Option<Side>, Watch)
    requires |watch.prices| <= p.window
  {
    var prices := Pushed(p, watch, close);
    if |prices| < p.window || std == 0.0 then (None, Watch(prices, watch.holding))
    else
      var (side, holding) := Decide(p, watch.holding, (close - Mean(prices)) / std);
      (side, Watch(prices, holding))
  }

  datatype State = State(watches: map<Symbol, Watch>, emitted: seq<Signal>) {

    function WatchOf(s: Symbol): Watch {
      if s in watches then watches[s] else Watch([], None)
    }

    predicate Fits(p: Params) {
      forall s :: s in watches ==> |watches[s].prices| <= p.window
    }
  }

  /** A bar's close, with the deviation of the window it completes. */
  datatype Bar = Bar(symbol: Symbol, close: real, std: real)

  function Step(p: Params, st: State, bar: Bar): State
    requires st.Fits(p)
    ensures Step(p, st, bar).Fits(p)
  {
    var (side, watch) := OnClose(p, st.WatchOf(bar.symbol), bar.close, bar.std);
    State(st.watches[bar.symbol := watch],
          st.emitted + if side.Some? then [Signal(p.strategy, bar.symbol, side.value, p.size)] else [])
  }

  class MeanReversionStrategy {
    const params: Params
    var running: bool
    var prices: map<Symbol, seq<real>>
    var positionSide: map<Symbol, Option<Holding>>
    var emitted: seq<Signal>

    ghost predicate Valid()
      reads this
    {
      prices.Keys == positionSide.Keys && forall s :: s in prices ==> |prices[s]| <= params.window
    }

    ghost function WatchOf(s: Symbol): Watch
      reads this
      requires Valid()
    {
      if s in prices then Watch(prices[s], positionSide[s]) else Watch([], None)
    }

    constructor (params: Params)
      ensures Valid() && this.params == params && !running && emitted == [] && prices == map[]
    {
      this.params := params;
      running, prices, positionSide, emitted := false, map[], map[], [];
    }

    method Start()
      modifies this`running
      ensures running
    {
      running := true;
    }

    method EmitSignal(symbol: Symbol, side: Side)
      modifies this`emitted
      ensures emitted == old(emitted) + if running then [Signal(params.strategy, symbol, side, params.size)] else []
    {
      if running {
        emitted := emitted + [Signal(params.strategy, symbol, side, params.size)];
      }
    }

    /** Mean and deviation of the symbol's window; `std` is the root of the variance. */
    method ComputeStats(symbol: Symbol, std: real) returns (mean: real, deviation: real)
      requires Valid() && symbol in prices && IsStd(std, prices[symbol])
      ensures mean == Mean(prices[symbol]) && deviation == std
    {
      var window := prices[symbol];
      if |window| == 0 {
        RootOfNothing(std);
        return 0.0, 0.0;
      }
      var total := SumOf(window);
      mean := total / |window| as real;
      var spread := SpreadOf(window, mean);
      var variance := spread / |window| as real;
      assert Square(std) == variance;
      deviation := std;
    }

    method OnBarClose(symbol: Symbol, close: real, std: real)
      requires Valid()
      requires var window := Pushed(params, WatchOf(symbol), close);
        |window| == params.window ==> IsStd(std, window)
      modifies this
      ensures Valid() && running == old(running)
      ensures var (side, watch) := OnClose(params, old(WatchOf(symbol)), close, std);
        && WatchOf(symbol) == watch
        && emitted == old(emitted)
             + if running && side.Some? then [Signal(params.strategy, symbol, side.value, params.size)] else []
      ensures forall s :: s != symbol ==> WatchOf(s) == old(WatchOf(s))
    {
      hide Mean, IsStd, Decide, Push;
      if symbol !in prices {
        prices := prices[symbol := []];
        positionSide := positionSide[symbol := None];
      }
      prices := prices[symbol := Push(prices[symbol], close, params.window)];
      if |prices[symbol]| < params.window {
        return;
      }
      var mean, deviation := ComputeStats(symbol, std);
      if deviation == 0.0 {
        return;
      }
      Act(symbol, (close - mean) / deviation);
    }

    /** What a strategy started before any of the bars has seen, holds and has signalled. */
    ghost predicate Follows(bars: seq<Bar>)
      requires Valid()
      reads this
    {
      emitted == Run(params, bars).emitted && forall s :: WatchOf(s) == Run(params, bars).WatchOf(s)
    }

    /** One more bar of a run: the strategy goes on to follow it, and signals its symbol only. */
    method Follow(bar: Bar, ghost past: seq<Bar>)
      requires Valid() && running && Follows(past) && Measured(params, past + [bar])
      modifies this
      ensures Valid() && running && Follows(past + [bar])
      ensures old(emitted) <= emitted
      ensures forall i :: |old(emitted)| <= i < |emitted| ==> emitted[i].symbol == bar.symbol
    {
      assert (past + [bar])[..|past|] == past;
      hide OnClose, IsStd, Pushed;
      OnBarClose(bar.symbol, bar.close, bar.std);
    }

    /** Compares the z-score with the thresholds of the side currently held. */
    method Act(symbol: Symbol, z: real)
      requires Valid() && symbol in prices
      modifies this`positionSide, this`emitted
      ensures Valid()
      ensures var (side, holding) := Decide(params, old(positionSide)[symbol], z);
        && positionSide == old(positionSide)[symbol := holding]
        && emitted == old(emitted)
             + if running && side.Some? then [Signal(params.strategy, symbol, side.value, params.size)] else []
    {
      var current := positionSide[symbol];
      if current.None? && z <= -params.entryZ {
        EmitSignal(symbol, Buy);
        positionSide := positionSide[symbol := Some(Long)];
      } else if current.None? && z >= params.entryZ {
        EmitSignal(symbol, Sell);
        positionSide := positionSide[symbol := Some(Short)];
      } else if current == Some(Long) && z >= -params.exitZ {
        EmitSignal(symbol, Sell);
        positionSide := positionSide[symbol := None];
      } else if current == Some(Short) && z <= params.exitZ {
        EmitSignal(symbol, Buy);
        positionSide := positionSide[symbol := None];
      } else {
        assert positionSide[symbol := current] == positionSide;
      }
    }
  }

  lemma RootOfNothing(std: real)
    requires IsStd(std, [])
    ensures std == 0.0
  {
    if std > 0.0 {
      PositiveSquare(std);
    }
  }

  // ---------------------------------------------------------------------------------------------
  // Runs over any interleaving of symbols
  // ---------------------------------------------------------------------------------------------

  function Run(p: Params, bars: seq<Bar>): State
    ensures Run(p, bars).Fits(p)
  {
    if bars == [] then State(map[], []) else Step(p, Run(p, bars[..|bars| - 1]), bars[|bars| - 1])
  }

  /** Each bar that completes a window carries that window's deviation. */
  predicate Measured(p: Params, bars: seq<Bar>) {
    bars == [] ||
      var past, bar := bars[..|bars| - 1], bars[|bars| - 1];
      var window := Pushed(p, Run(p, past).WatchOf(bar.symbol), bar.close);
      Measured(p, past) && (|window| == p.window ==> IsStd(bar.std, window))
  }

  lemma {:induction false} MeasuredPrefix(p: Params, bars: seq<Bar>, k: nat)
    requires Measured(p, bars) && k <= |bars|
    ensures Measured(p, bars[..k])
  {
    if k < |bars| {
      hide Pushed, IsStd;
      MeasuredPrefix(p, bars[..|bars| - 1], k);
      assert bars[..|bars| - 1][..k] == bars[..k];
    } else {
      assert bars[..k] == bars;
    }
  }

  function SignedSize(signals: seq<Signal>, s: Symbol): int {
    if signals == [] then 0
    else
      var last := signals[|signals| - 1];
      SignedSize(signals[..|signals| - 1], s)
      + if last.symbol != s then 0 else if last.side == Buy then last.size else -last.size
  }

  function SizeOf(p: Params, holding: Option<Holding>): int {
    match holding
    case None => 0
    case Some(Long) => p.size
    case Some(Short) => -p.size
  }

  /** Each decision signals exactly the change of what is held. */
  lemma DecisionMatchesHolding(p: Params, holding: Option<Holding>, z: real)
    ensures var (side, next) := Decide(p, holding, z);
      SizeOf(p, next) == SizeOf(p, holding)
        + if side == Some(Buy) then p.size else if side == Some(Sell) then -p.size else 0
    ensures var (side, next) := Decide(p, holding, z); side.None? || side == Some(Buy) || side == Some(Sell)
  {
  }

  lemma CloseMatchesHolding(p: Params, watch: Watch, close: real, std: real)
    requires |watch.prices| <= p.window
    ensures var (side, next) := OnClose(p, watch, close, std);
      && (side.None? || side == Some(Buy) || side == Some(Sell))
      && SizeOf(p, next.holding) == SizeOf(p, watch.holding)
           + if side == Some(Buy) then p.size else if side == Some(Sell) then -p.size else 0
  {
    hide Decide, Mean, SizeOf;
    if std != 0.0 {
      DecisionMatchesHolding(p, watch.holding, (close - Mean(Pushed(p, watch, close))) / std);
    }
  }

  lemma SignedNext(signals: seq<Signal>, signal: Signal, s: Symbol)
    ensures SignedSize(signals + [signal], s) == SignedSize(signals, s)
            + if signal.symbol != s then 0 else if signal.side == Buy then signal.size else -signal.size
  {
    assert (signals + [signal])[..|signals|] == signals;
  }

  lemma StepMatchesHolding(p: Params, st: State, bar: Bar, s: Symbol)
    requires st.Fits(p) && SignedSize(st.emitted, s) == SizeOf(p, st.WatchOf(s).holding)
    ensures var next := Step(p, st, bar); SignedSize(next.emitted, s) == SizeOf(p, next.WatchOf(s).holding)
  {
    hide OnClose, SizeOf, Pushed, SignedSize;
    CloseMatchesHolding(p, st.WatchOf(bar.symbol), bar.close, bar.std);
    var (side, watch) := OnClose(p, st.WatchOf(bar.symbol), bar.close, bar.std);
    if side.Some? {
      SignedNext(st.emitted, Signal(p.strategy, bar.symbol, side.value, p.size), s);
    } else {
      assert Step(p, st, bar).emitted == st.emitted;
    }
  }

  /** Whatever the prices and however symbols are interleaved, what has been signalled for a symbol adds up
      to one position of the configured size in the direction held, or to none. */
  lemma {:induction false} NeverPyramids(p: Params, bars: seq<Bar>, s: Symbol)
    ensures var st := Run(p, bars); SignedSize(st.emitted, s) == SizeOf(p, st.WatchOf(s).holding)
  {
    if bars != [] {
      hide Step;
      NeverPyramids(p, bars[..|bars| - 1], s);
      StepMatchesHolding(p, Run(p, bars[..|bars| - 1]), bars[|bars| - 1], s);
    }
  }

  // ---------------------------------------------------------------------------------------------
  // What is signalled when
  // ---------------------------------------------------------------------------------------------

  /** The closes of a symbol. */
  function ClosesOf(bars: seq<Bar>, s: Symbol): seq<real> {
    if bars == [] then []
    else
      var last := bars[|bars| - 1];
      ClosesOf(bars[..|bars| - 1], s) + if last.symbol == s then [last.close] else []
  }

  /** A symbol's window holds its newest closes. */
  lemma {:induction false} WindowIsNewest(p: Params, bars: seq<Bar>, s: Symbol)
    ensures Run(p, bars).WatchOf(s).prices == Newest(ClosesOf(bars, s), p.window)
  {
    if bars != [] {
      var past, bar := bars[..|bars| - 1], bars[|bars| - 1];
      hide Decide, Mean, Push;
      WindowIsNewest(p, past, s);
      NewestPushed(ClosesOf(past, s), bar.close, p.window);
    }
  }

  /** The side a position was entered on. */
  function Entered(holding: Option<Holding>): Option<Side> {
    match holding
    case None => None
    case Some(Long) => Some(Buy)
    case Some(Short) => Some(Sell)
  }

  lemma ScoreReaches(d: real, std: real, k: real)
    requires std > 0.0
    ensures d / std >= k <==> d >= k * std
    ensures d / std <= k <==> d <= k * std
    ensures d / std <= -k <==> d <= -(k * std)
    ensures d / std >= -k <==> d >= -(k * std)
  {
    var z := d / std;
    assert z * std == d;
    ScaleOrder(z, k, std);
    ScaleOrder(k, z, std);
    ScaleOrder(z, -k, std);
    ScaleOrder(-k, z, std);
    assert -k * std == -(k * std);
  }

  lemma ScaleOrder(x: real, y: real, k: real)
    requires k > 0.0
    ensures x <= y ==> x * k <= y * k
    ensures x < y ==> x * k < y * k
  {
    if x < y { PositiveProduct(y - x, k, (y - x) * k); }
  }

  /** When a close buys: so far below the mean from flat, or no further above it than the exit when short. */
  predicate Buys(p: Params, entered: Option<Side>, d: real, std: real) {
    if entered.None? then d <= -(p.entryZ * std) else entered == Some(Sell) && d <= p.exitZ * std
  }

  /** When it sells: so far above the mean from flat, or no further below it than the exit when long. */
  predicate Sells(p: Params, entered: Option<Side>, d: real, std: real) {
    if entered.None? then d >= p.entryZ * std else entered == Some(Buy) && d >= -(p.exitZ * std)
  }

  function Left(entered: Option<Side>, side: Side): Option<Side> {
    if entered.Some? then None else Some(side)
  }

  lemma CloseByDistance(p: Params, watch: Watch, close: real, std: real)
    requires |watch.prices| <= p.window && std >= 0.0
    ensures var window := Push(watch.prices, close, p.window);
      var d, entered := close - Mean(window), Entered(watch.holding);
      var (side, next) := OnClose(p, watch, close, std);
      && next.prices == window
      && if |window| < p.window || std == 0.0 then side == None && Entered(next.holding) == entered
         else if Buys(p, entered, d, std) then side == Some(Buy) && Entered(next.holding) == Left(entered, Buy)
         else if Sells(p, entered, d, std) then side == Some(Sell) && Entered(next.holding) == Left(entered, Sell)
         else side == None && Entered(next.holding) == entered
  {
    hide Mean, Push;
    if std > 0.0 {
      var d := close - Mean(Push(watch.prices, close, p.window));
      ScoreReaches(d, std, p.entryZ);
      ScoreReaches(d, std, p.exitZ);
      hide *;
    }
  }

  /** In every run, a bar leads to a signal for its symbol, and to no other, exactly as follows: none while the
      symbol's newest closes do not fill a window or do not differ; else by how far the close lies from their mean
      and by the side the position was entered on. */
  lemma SignalsByDistance(p: Params, past: seq<Bar>, bar: Bar)
    requires Measured(p, past + [bar])
    ensures var s := bar.symbol;
      var before, after := Run(p, past), Run(p, past + [bar]);
      var entered := Entered(before.WatchOf(s).holding);
      var window := Newest(ClosesOf(past, s) + [bar.close], p.window);
      var d := bar.close - Mean(window);
      && (forall x :: x != s ==> after.WatchOf(x) == before.WatchOf(x))
      && if |window| < p.window || bar.std == 0.0 then
           after.emitted == before.emitted && Entered(after.WatchOf(s).holding) == entered
         else if Buys(p, entered, d, bar.std) then
           && after.emitted == before.emitted + [Signal(p.strategy, s, Buy, p.size)]
           && Entered(after.WatchOf(s).holding) == Left(entered, Buy)
         else if Sells(p, entered, d, bar.std) then
           && after.emitted == before.emitted + [Signal(p.strategy, s, Sell, p.size)]
           && Entered(after.WatchOf(s).holding) == Left(entered, Sell)
         else after.emitted == before.emitted && Entered(after.WatchOf(s).holding) == entered
  {
    hide Mean, Push, OnClose, Buys, Sells, ClosesOf, Newest;
    assert (past + [bar])[..|past|] == past;
    WindowIsNewest(p, past, bar.symbol);
    NewestPushed(ClosesOf(past, bar.symbol), bar.close, p.window);
    var watch := Run(p, past).WatchOf(bar.symbol);
    if |Push(watch.prices, bar.close, p.window)| == p.window {
      CloseByDistance(p, watch, bar.close, bar.std);
    } else {
      CloseByDistance(p, watch, bar.close, 0.0);
      assert OnClose(p, watch, bar.close, bar.std) == OnClose(p, watch, bar.close, 0.0) by {
        ShortWindow(p, watch, bar.close, bar.std);
        ShortWindow(p, watch, bar.close, 0.0);
      }
    }
  }

  lemma ShortWindow(p: Params, watch: Watch, close: real, std: real)
    requires |watch.prices| <= p.window && |Push(watch.prices, close, p.window)| < p.window
    ensures OnClose(p, watch, close, std) == (None, Watch(Push(watch.prices, close, p.window), watch.holding))
  {
  }

  // ---------------------------------------------------------------------------------------------
  // The z-score of a window is bounded
  // ---------------------------------------------------------------------------------------------

  /** A close whose z-score reaches k in either direction can only complete a window of more than k squared
      bars. */
  lemma ReachesBound(k: real, xs: seq<real>, std: real, n: real)
    requires xs != [] && n == |xs| as real && IsStd(std, xs) && std != 0.0 && k > 0.0
    requires var z := (xs[|xs| - 1] - Mean(xs)) / std; z >= k || z <= -k
    ensures Square(k) <= n - 1.0
  {
    var d := xs[|xs| - 1] - Mean(xs);
    assert d >= k * std || d <= -(k * std) by { QuotientReaches(d, std, k); }
    ScaleSquare(k, d, std);
    Samuelson(xs, n);
    assert n * Square(std) == Spread(xs, Mean(xs));
    CancelBound(n, Square(d), Square(k), Square(std));
  }

  lemma QuotientReaches(d: real, std: real, k: real)
    requires std > 0.0 && (d / std >= k || d / std <= -k)
    ensures d >= k * std || d <= -(k * std)
  {
    var z := d / std;
    assert z * std == d;
    if z >= k { assert (z - k) * std >= 0.0; } else { assert (z + k) * std <= 0.0; }
  }

  lemma CancelBound(n: real, d2: real, k2: real, v: real)
    requires n >= 1.0 && v > 0.0 && d2 >= k2 * v
    requires n * d2 <= (n - 1.0) * (n * v)
    ensures k2 <= n - 1.0
  {
    assert n * (d2 - (n - 1.0) * v) == n * d2 - (n - 1.0) * (n * v);
    DivideOut(n, d2 - (n - 1.0) * v);
    assert v * (k2 - (n - 1.0)) == k2 * v - (n - 1.0) * v;
    DivideOut(v, k2 - (n - 1.0));
  }

  /** With z-scores that cannot reach the entry threshold, no position is ever taken and nothing signalled. */
  lemma {:induction false} HighThresholdIsSilent(p: Params, bars: seq<Bar>)
    requires Measured(p, bars) && p.entryZ > 0.0 && Square(p.entryZ) > p.window as real - 1.0
    ensures var st := Run(p, bars); st.emitted == [] && forall s :: st.WatchOf(s).holding == None
  {
    if bars != [] {
      var past, bar := bars[..|bars| - 1], bars[|bars| - 1];
      HighThresholdIsSilent(p, past);
      hide Mean, IsStd, Square, OnClose;
      SilentClose(p, Run(p, past).WatchOf(bar.symbol), bar.close, bar.std);
      forall s ensures Run(p, bars).WatchOf(s).holding == None {
        assert Run(p, past).WatchOf(s).holding == None;
      }
    }
  }

  lemma SilentClose(p: Params, watch: Watch, close: real, std: real)
    requires |watch.prices| <= p.window && watch.holding == None
    requires |Pushed(p, watch, close)| == p.window ==> IsStd(std, Pushed(p, watch, close))
    requires p.entryZ > 0.0 && Square(p.entryZ) > p.window as real - 1.0
    ensures OnClose(p, watch, close, std) == (None, Watch(Pushed(p, watch, close), None))
  {
    hide Mean, Square;
    var xs := Pushed(p, watch, close);
    if |xs| == p.window && std != 0.0 {
      if xs == [] {
        RootOfNothing(std);
      } else {
        assert xs[|xs| - 1] == close;
        var z := (close - Mean(xs)) / std;
        if z >= p.entryZ || z <= -p.entryZ {
          ReachesBound(p.entryZ, xs, std, p.window as real);
        }
      }
    }
  }

  // ---------------------------------------------------------------------------------------------
  // and the bound is reached
  // ---------------------------------------------------------------------------------------------

  /** n - 1 zero closes and one at -n. */
  function Plunge(s: Symbol, n: nat, root: real): seq<Bar>
    requires n >= 1
  {
    seq(n - 1, i => Bar(s, 0.0, 0.0)) + [Bar(s, -(n as real), root)]
  }

  lemma {:induction false} QuietStart(p: Params, s: Symbol, k: nat)
    requires k < p.window
    ensures var bars := seq(k, i => Bar(s, 0.0, 0.0));
      && Measured(p, bars) && Run(p, bars).emitted == []
      && Run(p, bars).WatchOf(s) == Watch(seq(k, i => 0.0), None)
  {
    if k > 0 {
      QuietStart(p, s, k - 1);
      var bars := seq(k, i => Bar(s, 0.0, 0.0));
      assert bars[..k - 1] == seq(k - 1, i => Bar(s, 0.0, 0.0));
      assert seq(k - 1, i => 0.0) + [0.0] == seq(k, i => 0.0);
    }
  }

  lemma RootDivides(root: real, v: real)
    requires root != 0.0 && Square(root) == v
    ensures v / root == root && -v / root == -root
  {
    assert v == root * root;
    assert root * root / root == root;
  }

  lemma PlungeClose(p: Params, root: real)
    requires p.window >= 2
    requires root >= 0.0 && Square(root) == p.window as real - 1.0 && p.entryZ <= root
    ensures var watch := Watch(seq(p.window - 1, i => 0.0), None);
      && Pushed(p, watch, -(p.window as real)) == Drop(p.window) && IsStd(root, Drop(p.window))
      && OnClose(p, watch, -(p.window as real), root).0 == Some(Buy)
  {
    var n := p.window;
    var nr := n as real;
    DropStatistics(n, nr);
    CancelFactor(nr, nr - 1.0, Spread(Drop(n), Mean(Drop(n))));
    assert root != 0.0;
    RootDivides(root, nr - 1.0);
    assert -nr - -1.0 == -(nr - 1.0);
  }

  lemma PlungeSignals(p: Params, s: Symbol, root: real)
    requires p.window >= 2
    requires root >= 0.0 && Square(root) == p.window as real - 1.0 && p.entryZ <= root
    ensures Measured(p, Plunge(s, p.window, root)) && Run(p, Plunge(s, p.window, root)).emitted != []
  {
    hide OnClose, IsStd, Square, Pushed;
    var bars := Plunge(s, p.window, root);
    assert bars[..p.window - 1] == seq(p.window - 1, i => Bar(s, 0.0, 0.0));
    QuietStart(p, s, p.window - 1);
    PlungeClose(p, root);
  }

  /** Given the root of window - 1: the strategy stays silent on every price history exactly when its entry
      threshold exceeds that root. */
  lemma SilentIff(p: Params, s: Symbol, root: real)
    requires p.window >= 2 && root >= 0.0 && Square(root) == p.window as real - 1.0
    ensures (forall bars :: Measured(p, bars) ==> Run(p, bars).emitted == []) <==> p.entryZ > root
  {
    if p.entryZ > root {
      assert Square(p.entryZ) > Square(root) by {
        PositiveProduct(p.entryZ - root, p.entryZ + root, Square(p.entryZ) - Square(root));
      }
      forall bars | Measured(p, bars) ensures Run(p, bars).emitted == [] {
        HighThresholdIsSilent(p, bars);
      }
    } else {
      PlungeSignals(p, s, root);
    }
  }
}
