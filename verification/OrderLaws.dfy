/** Which signals become orders, and for how many shares, at every moment of every run of the wired engine. */
module OrderLaws {
  import opened Basics
  import opened Commitments
  import opened Execution
  import opened Pipeline
  import opened Portfolio
  import opened PortfolioLaws
  import opened Reals
  import opened Risk
  import opened Sums
  import opened Throttling
  import Broker
  import BrokerLaws

  // ---------------------------------------------------------------------------------------------
  // What execution and risk know
  // ---------------------------------------------------------------------------------------------

  /** The last tick of a symbol. */
  function LastTick(inputs: seq<Pipeline.Input>, s: Symbol): Option<Pipeline.Input> {
    if inputs == [] then None
    else
      var last := inputs[|inputs| - 1];
      if last.Tick? && last.symbol == s then Some(last) else LastTick(inputs[..|inputs| - 1], s)
  }

  /** Risk knows the time and execution the price of the last tick. */
  ghost predicate Knows(sys: System, s: Symbol, tick: Option<Pipeline.Input>) {
    match tick
    case None => s !in sys.exec.prices && s !in sys.lastTick
    case Some(t) =>
      && t.Tick? && s in sys.exec.prices && s in sys.lastTick
      && sys.exec.prices[s] == t.price && sys.lastTick[s] == t.time
  }

  /** Execution knows the equity of the moment; before the first fill it goes by its own starting figure. */
  ghost predicate Informed(sys: System) {
    sys.books.Valid() && sys.exec.equity == if sys.books.symbols == [] then 100000.0 else sys.books.Equity()
  }

  lemma {:induction false} DeliverInforms(sys: System, events: seq<Broker.Event>)
    requires Informed(sys)
    ensures var next := Deliver(sys, events);
      Informed(next) && next.exec.prices == sys.exec.prices && next.lastTick == sys.lastTick
  {
    if events != [] {
      hide Books.Equity, Books.Valid;
      var past, e := events[..|events| - 1], events[|events| - 1];
      DeliverInforms(sys, past);
      if e.OrderFilled? {
        var fill := Ledger.Fill(e.side, e.quantity, e.fillPrice);
        StepKeepsValid(Deliver(sys, past).books, Filled(e.symbol, fill));
        FillLists(Deliver(sys, past).books, e.symbol, fill);
      }
    }
  }

  lemma FillLists(b: Books, s: Symbol, fill: Ledger.Fill)
    requires b.Valid()
    ensures b.AfterFill(s, fill).symbols != []
  {
    assert s in b.lots ==> s in b.symbols;
  }

  lemma BrokerStepInforms(cfg: Config, sys: System, input: BrokerLaws.Input)
    requires Informed(sys)
    ensures var next := BrokerStep(cfg, sys, input);
      Informed(next) && next.exec.prices == sys.exec.prices && next.lastTick == sys.lastTick
  {
    hide Books.Equity;
    DeliverInforms(sys.(broker := BrokerLaws.Step(cfg.terms, sys.broker, input)),
                   BrokerLaws.StepEvents(cfg.terms, sys.broker, input));
  }

  /** A mark of a symbol without a position changes no equity. */
  lemma IdleMark(b: Books, s: Symbol, mark: real)
    requires b.Valid() && s !in b.lots
    ensures b.AfterMark(s, mark).Equity() == b.Equity()
  {
    hide Times;
    SumSame(b.symbols, b.Realized(), b.AfterMark(s, mark).Realized());
    SumSame(b.symbols, b.Unrealized(), b.AfterMark(s, mark).Unrealized());
  }

  lemma MarkInforms(sys: System, s: Symbol, price: Option<real>)
    requires Informed(sys)
    ensures var next := MarkStep(sys, s, price);
      Informed(next) && next.exec.prices == sys.exec.prices && next.lastTick == sys.lastTick
  {
    hide Books.Equity;
    if price.Some? && s !in sys.books.lots {
      IdleMark(sys.books, s, price.value);
    }
  }

  lemma ArriveInforms(cfg: Config, sys: System, input: Pipeline.Input, s: Symbol, tick: Option<Pipeline.Input>)
    requires Informed(sys) && Knows(sys, s, tick)
    ensures Informed(Arrive(cfg, sys, input))
    ensures Knows(Arrive(cfg, sys, input), s, if input.Tick? && input.symbol == s then Some(input) else tick)
  {
    hide BrokerStep, MarkStep, Books.Equity, Books.Valid;
    match input {
      case Bar(symbol, close, _) => BrokerStepInforms(cfg, sys, BrokerLaws.Priced(symbol, close));
      case Tick(symbol, price, bid, ask, time, _) =>
        var seen := Seen(sys, symbol, price, time);
        BrokerStepInforms(cfg, seen, BrokerLaws.Priced(symbol, price));
        var priced := if price != 0.0 then BrokerStep(cfg, seen, BrokerLaws.Priced(symbol, price)) else seen;
        MarkInforms(priced, symbol, TickPrice(price, bid, ask));
      case Disconnect =>
      case KillSwitch(_) =>
    }
  }

  lemma {:induction false} SignalsInform(cfg: Config, sys: System, es: seq<Emission>, s: Symbol,
        tick: Option<Pipeline.Input>)
    requires Informed(sys) && Knows(sys, s, tick)
    ensures Informed(OnSignals(cfg, sys, es)) && Knows(OnSignals(cfg, sys, es), s, tick)
  {
    if es != [] {
      hide BrokerStep, RequestOf, Books.Equity, Books.Valid;
      var past, last := es[..|es| - 1], es[|es| - 1];
      SignalsInform(cfg, sys, past, s, tick);
      var mid := OnSignals(cfg, sys, past);
      match RequestOf(cfg, mid, last) {
        case None =>
        case Some(request) => BrokerStepInforms(cfg, mid, BrokerLaws.Requested(request));
      }
    }
  }

  lemma {:induction false} RunInforms(cfg: Config, inputs: seq<Pipeline.Input>, s: Symbol)
    ensures Informed(Pipeline.Run(cfg, inputs)) && Knows(Pipeline.Run(cfg, inputs), s, LastTick(inputs, s))
  {
    if inputs != [] {
      hide Arrive, OnSignals, Informed, Knows;
      var past, last := inputs[..|inputs| - 1], inputs[|inputs| - 1];
      RunInforms(cfg, past, s);
      ArriveInforms(cfg, Pipeline.Run(cfg, past), last, s, LastTick(past, s));
      SignalsInform(cfg, Arrive(cfg, Pipeline.Run(cfg, past), last), Emissions(last), s, LastTick(inputs, s));
    }
  }

  /** At every moment risk goes by the last tick's time, execution by its price and by the equity of the moment. */
  lemma MomentInforms(cfg: Config, inputs: seq<Pipeline.Input>, k: nat, j: nat, s: Symbol)
    requires k < |inputs| && j <= |Emissions(inputs[k])|
    ensures Informed(Moment(cfg, inputs, k, j)) && Knows(Moment(cfg, inputs, k, j), s, LastTick(inputs[..k + 1], s))
  {
    hide Arrive, OnSignals, Informed, Knows;
    assert inputs[..k + 1][..k] == inputs[..k];
    RunInforms(cfg, inputs[..k], s);
    ArriveInforms(cfg, Pipeline.Run(cfg, inputs[..k]), inputs[k], s, LastTick(inputs[..k], s));
    SignalsInform(cfg, Arrive(cfg, Pipeline.Run(cfg, inputs[..k]), inputs[k]), Emissions(inputs[k])[..j], s,
                  LastTick(inputs[..k + 1], s));
  }

  // ---------------------------------------------------------------------------------------------
  // How many shares
  // ---------------------------------------------------------------------------------------------

  /** What sizing goes by: the last tick's price and the equity. */
  function PriceSeen(inputs: seq<Pipeline.Input>, s: Symbol): Option<real> {
    var tick := LastTick(inputs, s);
    if tick.Some? && tick.value.Tick? then Some(tick.value.price) else None
  }

  ghost function EquitySeen(b: Books): real {
    if b.symbols == [] then 100000.0 else b.Equity()
  }

  /** Sizing has nothing to go by, and the suggestion stands. */
  predicate SuggestionStands(sizing: Sizing, price: Option<real>, equity: real, s: Symbol) {
    || sizing.how.Fixed? || price.None? || price.value <= 0.0
    || (sizing.how.PercentEquity? && equity <= 0.0)
    || (sizing.how.Volatility? && (s !in sizing.atr || sizing.atr[s] <= 0.0))
  }

  /** The shares ordered: the suggestion; or the most that a part of the equity pays for, one at least; or the most
      units of average range that it pays for, or without equity the suggestion's value pays for. */
  ghost predicate RightSize(sizing: Sizing, size: int, suggested: int, price: Option<real>, equity: real, s: Symbol) {
    if SuggestionStands(sizing, price, equity, s) then size == suggested
    else if sizing.how.PercentEquity? then
      && size >= 1 && (size == 1 || price.value * size as real <= equity * sizing.fraction)
      && equity * sizing.fraction < price.value * (size + 1) as real
    else
      var budget := if equity > 0.0 then equity * sizing.fraction else price.value * suggested as real;
      && size >= 1 && (size == 1 || sizing.atr[s] * size as real <= budget)
      && budget < sizing.atr[s] * (size + 1) as real
  }

  lemma SizeIsRight(sizing: Sizing, suggested: int, price: Option<real>, equity: real, s: Symbol)
    ensures RightSize(sizing, ComputeSize(sizing, suggested, price, equity, s), suggested, price, equity, s)
  {
    hide UnitsFor;
    if !SuggestionStands(sizing, price, equity, s) {
      if sizing.how.PercentEquity? {
        UnitsAreMostAffordable(RiskAmount(sizing, equity), price.value);
      } else {
        UnitsAreMostAffordable(if equity > 0.0 then RiskAmount(sizing, equity) else Times(price.value, suggested),
                               sizing.atr[s]);
      }
    }
  }

  /** Everything asked for so far, at a moment of a run. */
  ghost function AskedBy(cfg: Config, inputs: seq<Pipeline.Input>, k: nat, j: nat): seq<Asked>
    requires k < |inputs| && j <= |Emissions(inputs[k])|
  {
    Requests(cfg, inputs[..k])
    + RequestedBy(cfg, Arrive(cfg, Pipeline.Run(cfg, inputs[..k]), inputs[k]), Emissions(inputs[k])[..j])
  }

  lemma MomentRemembers(cfg: Config, inputs: seq<Pipeline.Input>, k: nat, j: nat)
    requires k < |inputs| && j <= |Emissions(inputs[k])|
    ensures Remembers(Moment(cfg, inputs, k, j), AskedBy(cfg, inputs, k, j))
  {
    hide Arrive, OnSignals, Remembers, Requests, RequestedBy, Spaced;
    RunRemembers(cfg, inputs[..k]);
    ArriveRemembers(cfg, Pipeline.Run(cfg, inputs[..k]), inputs[k], Requests(cfg, inputs[..k]));
    SignalsRemember(cfg, Arrive(cfg, Pipeline.Run(cfg, inputs[..k]), inputs[k]), Emissions(inputs[k])[..j],
                    Requests(cfg, inputs[..k]));
  }

  /** The delay since the symbol's last request is over, or there is nothing to wait for. */
  predicate Due(delay: real, log: seq<Asked>, e: Emission) {
    delay <= 0.0 || LastAsked(log, e.signal.symbol).None? || e.now >= LastAsked(log, e.signal.symbol).value + delay
  }

  /** At every moment of every run, the signal emitted next leads to an order exactly if trading is on, it breaks no
      rule, its symbol's last request is the throttle delay ago, and - where the suggestion stands - it suggests
      shares at all; and the order is the signal's, for the right number of shares at the last tick's price and the
      equity of the moment. */
  lemma SignalsBecomeOrders(cfg: Config, inputs: seq<Pipeline.Input>, k: nat, j: nat)
    requires k < |inputs| && j < |Emissions(inputs[k])|
    ensures var sys, e := Moment(cfg, inputs, k, j), Emissions(inputs[k])[j];
      var s, sizing, price := e.signal.symbol, cfg.settings.sizing, PriceSeen(inputs[..k + 1], e.signal.symbol);
      var request := RequestOf(cfg, sys, e);
      && (request.Some? <==>
            && !sys.killed && (forall rule :: !Breaks(rule, cfg.limits, sys.books, sys.lastTick, e.wall, e.signal))
            && Due(cfg.settings.throttleDelay, AskedBy(cfg, inputs, k, j), e)
            && (SuggestionStands(sizing, price, EquitySeen(sys.books), s) ==> e.signal.size > 0))
      && (request.Some? ==>
            exists size :: RightSize(sizing, size, e.signal.size, price, EquitySeen(sys.books), s)
              && request.value == Broker.Request(s, e.signal.side, size, cfg.settings.orderType, None))
  {
    var sys, e := Moment(cfg, inputs, k, j), Emissions(inputs[k])[j];
    MomentInforms(cfg, inputs, k, j, e.signal.symbol);
    MomentRemembers(cfg, inputs, k, j);
    hide Moment, AskedBy, RequestedBy, LastTick, Breaks;
    var log, price := AskedBy(cfg, inputs, k, j), PriceSeen(inputs[..k + 1], e.signal.symbol);
    assert (if e.signal.symbol in sys.exec.prices then Some(sys.exec.prices[e.signal.symbol]) else None) == price;
    OrderFor(cfg, sys, e, log, price);
  }

  lemma OrderFor(cfg: Config, sys: System, e: Emission, log: seq<Asked>, price: Option<real>)
    requires Remembers(sys, log) && sys.exec.equity == EquitySeen(sys.books)
    requires (if e.signal.symbol in sys.exec.prices then Some(sys.exec.prices[e.signal.symbol]) else None) == price
    ensures var s, sizing := e.signal.symbol, cfg.settings.sizing;
      var request := RequestOf(cfg, sys, e);
      && (request.Some? <==>
            && !sys.killed && (forall rule :: !Breaks(rule, cfg.limits, sys.books, sys.lastTick, e.wall, e.signal))
            && Due(cfg.settings.throttleDelay, log, e)
            && (SuggestionStands(sizing, price, EquitySeen(sys.books), s) ==> e.signal.size > 0))
      && (request.Some? ==>
            exists size :: RightSize(sizing, size, e.signal.size, price, EquitySeen(sys.books), s)
              && request.value == Broker.Request(s, e.signal.side, size, cfg.settings.orderType, None))
  {
    hide Breaks, Approves, ComputeSize, RightSize, LastAsked, EquitySeen;
    var s := e.signal.symbol;
    var size := ComputeSize(cfg.settings.sizing, e.signal.size, price, sys.exec.equity, s);
    ApprovalIff(cfg.limits, sys.killed, sys.books, sys.lastTick, e.wall, e.signal);
    SizeIsRight(cfg.settings.sizing, e.signal.size, price, sys.exec.equity, s);
    SizeIsPositive(cfg.settings.sizing, size, e.signal.size, price, sys.exec.equity, s);
    assert sys.exec.SizeOf(cfg.settings, e.signal) == size;
    assert sys.exec.Throttles(cfg.settings, s, e.now) <==> !Due(cfg.settings.throttleDelay, log, e);
  }

  lemma SizeIsPositive(sizing: Sizing, size: int, suggested: int, price: Option<real>, equity: real, s: Symbol)
    requires RightSize(sizing, size, suggested, price, equity, s)
    ensures size > 0 <==> (SuggestionStands(sizing, price, equity, s) ==> suggested > 0)
  {
  }
}
