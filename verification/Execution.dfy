/** The execution engine: throttling, sizing and the table of active orders. Retries are not configured. */
module Execution {
  import opened Basics
  import opened Broker
  import opened Reals

  datatype Method = Fixed | PercentEquity | Volatility

  datatype Sizing = Sizing(how: Method, fraction: real, atr: map<Symbol, real>)

  /** Truncation towards zero. */
  function Trunc(x: real): int {
    if x >= 0.0 then x.Floor else -((-x).Floor)
  }

  /** How many units a budget pays for, but one at least. */
  function UnitsFor(budget: real, unit: real): int
    requires unit > 0.0
  {
    var computed := Trunc(budget / unit);
    if computed < 1 then 1 else computed
  }

  /** The part of the equity to spend on one order. */
  function RiskAmount(sizing: Sizing, equity: real): real {
    equity * sizing.fraction
  }

  function ComputeSize(sizing: Sizing, suggested: int, price: Option<real>, equity: real, symbol: Symbol): int {
    if sizing.how.Fixed? || price.None? || price.value <= 0.0 then suggested
    else if sizing.how.PercentEquity? then
      if equity <= 0.0 then suggested else UnitsFor(RiskAmount(sizing, equity), price.value)
    else if symbol !in sizing.atr || sizing.atr[symbol] <= 0.0 then suggested
    else
      var budget := if equity > 0.0 then RiskAmount(sizing, equity) else Times(price.value, suggested);
      UnitsFor(budget, sizing.atr[symbol])
  }

  datatype ExecEvent = OrderRequested(request: Request) | OrderThrottled(symbol: Symbol, side: Side)

  datatype ActiveOrder = ActiveOrder(symbol: Symbol, side: Side, quantity: int, orderType: OrderType)

  datatype Settings = Settings(sizing: Sizing, orderType: OrderType, throttleDelay: real)

  /** The value of the execution engine's state. */
  datatype Exec = Exec(lastOrderTime: map<Symbol, real>, active: map<nat, ActiveOrder>, prices: map<Symbol, real>,
                       equity: real) {

    predicate Throttles(settings: Settings, symbol: Symbol, now: real) {
      settings.throttleDelay > 0.0 && symbol in lastOrderTime
      && settings.throttleDelay - (now - lastOrderTime[symbol]) > 0.0
    }

    function SizeOf(settings: Settings, signal: Signal): int {
      var price := if signal.symbol in prices then Some(prices[signal.symbol]) else None;
      ComputeSize(settings.sizing, signal.size, price, equity, signal.symbol)
    }

    /** The order request an approved signal leads to, if any. */
    function RequestFor(settings: Settings, signal: Signal, now: real): Option<Request> {
      if Throttles(settings, signal.symbol, now) || SizeOf(settings, signal) <= 0 then None
      else Some(Request(signal.symbol, signal.side, SizeOf(settings, signal), settings.orderType, None))
    }

    function OnSubmitted(order: Order): Exec {
      this.(active := active[order.id := ActiveOrder(order.symbol, order.side, order.quantity, order.orderType)])
    }

    function OnFilled(id: nat): Exec {
      this.(active := active - {id})
    }
  }

  class ExecutionEngine {
    const settings: Settings
    var running: bool
    var lastOrderTime: map<Symbol, real>
    var active: map<nat, ActiveOrder>
    var prices: map<Symbol, real>
    var equity: real
    var published: seq<ExecEvent>

    function View(): Exec
      reads this
    {
      Exec(lastOrderTime, active, prices, equity)
    }

    constructor (settings: Settings)
      ensures this.settings == settings && !running && published == []
      ensures View() == Exec(map[], map[], map[], 100000.0)
    {
      this.settings := settings;
      running, lastOrderTime, active, prices, equity, published := false, map[], map[], map[], 100000.0, [];
    }

    method Start()
      modifies this`running
      ensures running
    {
      running := true;
    }

    /** Stopping forgets the tables but keeps the equity last heard of. */
    method Stop()
      modifies this
      ensures !running && published == old(published)
      ensures View() == if old(running) then Exec(map[], map[], map[], old(equity)) else old(View())
    {
      if running {
        running, lastOrderTime, active, prices := false, map[], map[], map[];
      }
    }

    method ThrottleRemaining(symbol: Symbol, now: real) returns (remaining: real)
      ensures remaining == if symbol in lastOrderTime
                           then Larger(0.0, settings.throttleDelay - (now - lastOrderTime[symbol])) else 0.0
      ensures remaining > 0.0 && settings.throttleDelay > 0.0 <==> View().Throttles(settings, symbol, now)
    {
      if symbol !in lastOrderTime {
        return 0.0;
      }
      var elapsed := now - lastOrderTime[symbol];
      remaining := settings.throttleDelay - elapsed;
      if remaining < 0.0 {
        remaining := 0.0;
      }
    }

    /** `now` is the time of the throttle check, `later` the time once the request has been published. */
    method OnApprovedSignal(signal: Signal, now: real, later: real)
      modifies this`lastOrderTime, this`published
      ensures running && old(View()).Throttles(settings, signal.symbol, now) ==>
        View() == old(View()) && published == old(published) + [OrderThrottled(signal.symbol, signal.side)]
      ensures !running || !old(View()).Throttles(settings, signal.symbol, now) ==>
        var request := old(View()).RequestFor(settings, signal, now);
        if running && request.Some?
        then published == old(published) + [OrderRequested(request.value)]
             && View() == old(View()).(lastOrderTime := old(lastOrderTime)[signal.symbol := later])
        else View() == old(View()) && published == old(published)
    {
      if !running {
        return;
      }
      if settings.throttleDelay > 0.0 {
        var delay := ThrottleRemaining(signal.symbol, now);
        if delay > 0.0 {
          published := published + [OrderThrottled(signal.symbol, signal.side)];
          return;
        }
      }
      var price := if signal.symbol in prices then Some(prices[signal.symbol]) else None;
      var finalSize := ComputeSize(settings.sizing, signal.size, price, equity, signal.symbol);
      if finalSize <= 0 {
        return;
      }
      published := published
        + [OrderRequested(Request(signal.symbol, signal.side, finalSize, settings.orderType, None))];
      lastOrderTime := lastOrderTime[signal.symbol := later];
    }

    method OnTick(symbol: Symbol, price: real)
      modifies this`prices
      ensures prices == if running then old(prices)[symbol := price] else old(prices)
    {
      if running {
        prices := prices[symbol := price];
      }
    }

    method OnSubmitted(order: Order)
      modifies this`active
      ensures active == if running
        then old(active)[order.id := ActiveOrder(order.symbol, order.side, order.quantity, order.orderType)]
        else old(active)
    {
      if running {
        active := active[order.id := ActiveOrder(order.symbol, order.side, order.quantity, order.orderType)];
      }
    }

    method OnFilled(id: nat)
      modifies this`active
      ensures active == if running then old(active) - {id} else old(active)
    {
      if running {
        active := active - {id};
      }
    }

    method OnExposureUpdate(equity: real)
      modifies this`equity
      ensures this.equity == if running then equity else old(this.equity)
    {
      if running {
        this.equity := equity;
      }
    }
  }

  // ---------------------------------------------------------------------------------------------
  // What sizing and throttling promise
  // ---------------------------------------------------------------------------------------------

  lemma FloorOfQuotient(budget: real, unit: real, n: int)
    requires budget >= 0.0 && unit > 0.0 && n == (budget / unit).Floor
    ensures n >= 0 && Times(unit, n) <= budget < Times(unit, n + 1)
  {
    var q, low, high := budget / unit, n as real, (n + 1) as real;
    QuotientSign(budget, unit);
    assert q * unit == budget;
    ScaleOrdered(low, q, unit, Times(unit, n), budget);
    ScaleStrictly(q, high, unit, budget, Times(unit, n + 1));
  }

  lemma ScaleOrdered(x: real, y: real, k: real, kx: real, ky: real)
    requires x <= y && k > 0.0 && kx == k * x && ky == y * k
    ensures kx <= ky
  {
    assert ky - kx == k * (y - x);
  }

  lemma ScaleStrictly(x: real, y: real, k: real, kx: real, ky: real)
    requires x < y && k > 0.0 && kx == x * k && ky == k * y
    ensures kx < ky
  {
    assert ky - kx == k * (y - x);
  }

  /** The number of units a budget pays for, and one at least. */
  ghost predicate MostAffordable(size: int, budget: real, unit: real) {
    size >= 1 && (size == 1 || Times(unit, size) <= budget) && budget < Times(unit, size + 1)
  }

  lemma UnitsAreMostAffordable(budget: real, unit: real)
    requires unit > 0.0
    ensures MostAffordable(UnitsFor(budget, unit), budget, unit)
  {
    ScaleOrdered(1.0, 2.0, unit, Times(unit, 1), 2.0 * unit);
    assert Times(unit, 2) == 2.0 * unit;
    if budget >= 0.0 {
      QuotientSign(budget, unit);
      FloorOfQuotient(budget, unit, (budget / unit).Floor);
    } else {
      QuotientSign(-budget, unit);
      assert -budget / unit == -(budget / unit);
    }
  }

  /** Percent-of-equity sizing buys the most shares the equity fraction pays for at the last price, and one at
      least; without a usable price or equity the suggestion stands. */
  lemma PercentEquitySize(sizing: Sizing, suggested: int, price: Option<real>, equity: real, s: Symbol)
    requires sizing.how.PercentEquity?
    ensures var size := ComputeSize(sizing, suggested, price, equity, s);
      if price.None? || price.value <= 0.0 || equity <= 0.0 then size == suggested
      else MostAffordable(size, equity * sizing.fraction, price.value)
  {
    hide UnitsFor;
    if price.Some? && price.value > 0.0 && equity > 0.0 {
      UnitsAreMostAffordable(RiskAmount(sizing, equity), price.value);
    }
  }

  /** Volatility sizing spends the same fraction in units of the average range, or without equity the
      suggestion's value in such units. */
  lemma VolatilitySize(sizing: Sizing, suggested: int, price: Option<real>, equity: real, s: Symbol)
    requires sizing.how.Volatility?
    ensures var size := ComputeSize(sizing, suggested, price, equity, s);
      if price.None? || price.value <= 0.0 || s !in sizing.atr || sizing.atr[s] <= 0.0 then size == suggested
      else
        var budget := if equity > 0.0 then equity * sizing.fraction else price.value * suggested as real;
        MostAffordable(size, budget, sizing.atr[s])
  {
    hide UnitsFor;
    if price.Some? && price.value > 0.0 && s in sizing.atr && sizing.atr[s] > 0.0 {
      var budget := if equity > 0.0 then RiskAmount(sizing, equity) else Times(price.value, suggested);
      UnitsAreMostAffordable(budget, sizing.atr[s]);
    }
  }
}
