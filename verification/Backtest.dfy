/** The component objects wired together as a backtest wires them. Delivery to subscribers is the direct call
    that synchronous publishing makes; the result is the pipeline's step. */
module Backtest {
  import opened Basics
  import opened Execution
  import opened Pipeline
  import opened Portfolio
  import opened Risk
  import Broker
  import BrokerLaws
  import Commitments
  import PipelineLaws
  import MeanReversion
  import PortfolioLaws
  import Vwap

  method StartedLedger(cfg: Config) returns (pm: PositionManager)
    ensures fresh(pm) && pm.Valid() && pm.running && pm.positions == map[]
    ensures pm.View() == PortfolioLaws.Flat(cfg.capital, cfg.symbolLimit)
  {
    pm := new PositionManager(cfg.capital, cfg.symbolLimit);
    pm.Start();
  }

  method StartedRisk(cfg: Config, pm: PositionManager) returns (risk: RiskEngine)
    ensures fresh(risk) && risk.pm == pm && risk.limits == cfg.limits
    ensures risk.running && !risk.killSwitch && risk.lastTickTime == map[]
  {
    risk := new RiskEngine(pm, cfg.limits);
    risk.Start();
  }

  method StartedExecution(cfg: Config) returns (exec: ExecutionEngine)
    ensures fresh(exec) && exec.running && exec.settings == cfg.settings
    ensures exec.View() == Exec(map[], map[], map[], 100000.0)
  {
    exec := new ExecutionEngine(cfg.settings);
    exec.Start();
  }

  method StartedBroker(cfg: Config) returns (broker: Broker.SimulatedBroker)
    ensures fresh(broker) && broker.Valid() && broker.running && broker.terms == cfg.terms
    ensures broker.View() == BrokerLaws.Empty(0)
  {
    broker := new Broker.SimulatedBroker(cfg.terms);
    broker.Start();
  }

  /** A row of a tick file. */
  datatype Quote = Quote(symbol: Symbol, price: real, volume: int, bid: real, ask: real, time: real)

  /** The tick or bar as the engine gets it, with whatever the strategies make of it. */
  predicate CarriesQuote(input: Input, q: Quote) {
    input.Tick? && input == Tick(q.symbol, q.price, q.bid, q.ask, q.time, input.emissions)
  }

  predicate CarriesBar(input: Input, bar: MeanReversion.Bar) {
    input.Bar? && input == Bar(bar.symbol, bar.close, input.emissions)
  }

  predicate CarryQuotes(inputs: seq<Input>, quotes: seq<Quote>) {
    |inputs| == |quotes| && forall i :: 0 <= i < |quotes| ==> CarriesQuote(inputs[i], quotes[i])
  }

  /** The ticks a strategy gets to see. */
  function TicksOf(quotes: seq<Quote>): seq<Vwap.Tick> {
    if quotes == [] then []
    else
      var last := quotes[|quotes| - 1];
      TicksOf(quotes[..|quotes| - 1]) + [Vwap.Tick(last.symbol, Vwap.Trade(last.price, last.volume))]
  }

  /** The signals emitted in the course of a run. */
  function SignalsIn(inputs: seq<Input>): seq<Signal> {
    if inputs == [] then [] else SignalsIn(inputs[..|inputs| - 1]) + SignalsOf(inputs[|inputs| - 1])
  }

  /** What a strategy has emitted since is what the run has carried. */
  predicate Carried(before: seq<Signal>, after: seq<Signal>, inputs: seq<Input>) {
    after == before + SignalsIn(inputs)
  }

  /** The run is the quotes, one by one, with the signals the strategy emits on them. */
  predicate Played(quotes: seq<Quote>, before: seq<Signal>, after: seq<Signal>, inputs: seq<Input>) {
    CarryQuotes(inputs, quotes) && Carried(before, after, inputs)
  }

  function SignalsOf(input: Input): seq<Signal> {
    seq(|Emissions(input)|, i requires 0 <= i < |Emissions(input)| => Emissions(input)[i].signal)
  }

  /** Each signal with whatever the clock reads on its way. */
  method Stamped(signals: seq<Signal>) returns (es: seq<Emission>)
    ensures |es| == |signals| && forall i :: 0 <= i < |es| ==> es[i].signal == signals[i]
  {
    es := [];
    for i := 0 to |signals|
      invariant |es| == i && forall j :: 0 <= j < i ==> es[j].signal == signals[j]
    {
      var wall: real, now: real, later: real := *, *, *;
      es := es + [Emission(signals[i], wall, now, later)];
    }
  }

  /** The strategy hears of a tick; what it signals goes out. */
  method HearQuote(q: Quote, strategy: Vwap.VwapReversionStrategy, ghost past: seq<Vwap.Tick>)
    returns (es: seq<Emission>)
    requires strategy.Valid() && strategy.running && strategy.Follows(past)
    modifies strategy
    ensures strategy.Valid() && strategy.running
    ensures strategy.Follows(past + [Vwap.Tick(q.symbol, Vwap.Trade(q.price, q.volume))])
    ensures var input := Tick(q.symbol, q.price, q.bid, q.ask, q.time, es);
      Carried(old(strategy.emitted), strategy.emitted, [input]) && PipelineLaws.Backtest([input])
  {
    hide Vwap.VwapReversionStrategy.Valid, Carried;
    var heard := |strategy.emitted|;
    strategy.Follow(Vwap.Tick(q.symbol, Vwap.Trade(q.price, q.volume)), past);
    es := Stamped(strategy.emitted[heard..]);
    CarriedOne(old(strategy.emitted), strategy.emitted, Tick(q.symbol, q.price, q.bid, q.ask, q.time, es));
  }

  method HearBar(bar: MeanReversion.Bar, strategy: MeanReversion.MeanReversionStrategy,
        ghost past: seq<MeanReversion.Bar>)
    returns (es: seq<Emission>)
    requires strategy.Valid() && strategy.running && strategy.Follows(past)
    requires MeanReversion.Measured(strategy.params, past + [bar])
    modifies strategy
    ensures strategy.Valid() && strategy.running && strategy.Follows(past + [bar])
    ensures var input := Bar(bar.symbol, bar.close, es);
      Carried(old(strategy.emitted), strategy.emitted, [input]) && PipelineLaws.Backtest([input])
  {
    hide MeanReversion.MeanReversionStrategy.Valid, MeanReversion.MeanReversionStrategy.Follows, MeanReversion.Measured;
    hide Carried;
    var heard := |strategy.emitted|;
    strategy.Follow(bar, past);
    es := Stamped(strategy.emitted[heard..]);
    CarriedOne(old(strategy.emitted), strategy.emitted, Bar(bar.symbol, bar.close, es));
  }

  class Wiring {
    const cfg: Config
    const pm: PositionManager
    const risk: RiskEngine
    const exec: ExecutionEngine
    const broker: Broker.SimulatedBroker

    ghost function Objects(): set<object>
      reads pm`positions
    {
      {pm, risk, exec, broker} + pm.positions.Values
    }

    ghost predicate Valid()
      reads Objects(), pm
    {
      && pm.Valid() && broker.Valid() && risk.pm == pm
      && pm.running && risk.running && exec.running && broker.running
      && risk.limits == cfg.limits && exec.settings == cfg.settings && broker.terms == cfg.terms
    }

    ghost function View(): System
      reads pm, risk, exec, broker
    {
      System(pm.View(), broker.View(), exec.View(), risk.killSwitch, risk.lastTickTime)
    }

    constructor (cfg: Config)
      ensures Valid() && fresh(Objects()) && this.cfg == cfg && View() == Fresh(cfg)
    {
      hide PositionManager.Valid, Broker.SimulatedBroker.Valid;
      this.cfg := cfg;
      var pm := StartedLedger(cfg);
      var risk := StartedRisk(cfg, pm);
      var exec := StartedExecution(cfg);
      var broker := StartedBroker(cfg);
      this.pm, this.risk, this.exec, this.broker := pm, risk, exec, broker;
    }

    /** One broker event reaches execution and the ledger. */
    method DeliverOne(e: Broker.Event)
      requires Valid()
      modifies pm, pm.positions.Values, exec
      ensures Valid() && fresh(pm.positions.Values - old(pm.positions.Values))
      ensures View() == Pipeline.DeliverOne(old(View()), e)
    {
      hide PositionManager.Valid, Broker.SimulatedBroker.Valid, Books.Equity, Books.AfterFill, FillEvents;
      match e {
        case OrderSubmitted(order) => exec.OnSubmitted(order);
        case OrderStatusFilled(_) =>
        case OrderFilled(id, symbol, side, price, quantity) =>
          exec.OnFilled(id);
          pm.ProcessFill(symbol, side, quantity, price);
          var equity := pm.EquityNow();
          exec.OnExposureUpdate(equity);
      }
    }

    method Deliver(events: seq<Broker.Event>)
      requires Valid()
      modifies pm, pm.positions.Values, exec
      ensures Valid() && fresh(pm.positions.Values - old(pm.positions.Values))
      ensures View() == Pipeline.Deliver(old(View()), events)
    {
      for i := 0 to |events|
        invariant Valid() && fresh(pm.positions.Values - old(pm.positions.Values))
        invariant View() == Pipeline.Deliver(old(View()), events[..i])
      {
        assert events[..i + 1][..i] == events[..i];
        DeliverOne(events[i]);
      }
      assert events[..|events|] == events;
    }

    /** What the broker has published since a point of its log is delivered. */
    method DeliverSince(mark: nat, ghost before: System, ghost input: BrokerLaws.Input)
      requires Valid() && mark == |before.broker.published|
      requires View() == before.(broker := BrokerLaws.Step(cfg.terms, before.broker, input))
      modifies pm, pm.positions.Values, exec
      ensures Valid() && fresh(pm.positions.Values - old(pm.positions.Values))
      ensures View() == BrokerStep(cfg, before, input)
    {
      BrokerLaws.StepPublishes(cfg.terms, before.broker, input);
      hide BrokerLaws.Step, BrokerLaws.StepEvents, Pipeline.Deliver;
      assert broker.published[mark..] == BrokerLaws.StepEvents(cfg.terms, before.broker, input);
      Deliver(broker.published[mark..]);
    }

    method OnRequest(request: Broker.Request)
      requires Valid()
      modifies pm, pm.positions.Values, exec, broker
      ensures Valid() && fresh(pm.positions.Values - old(pm.positions.Values))
      ensures View() == BrokerStep(cfg, old(View()), BrokerLaws.Requested(request))
    {
      hide Broker.AfterRequest, BrokerStep;
      ghost var before := View();
      var mark := |broker.published|;
      broker.OnOrderRequest(request);
      DeliverSince(mark, before, BrokerLaws.Requested(request));
    }

    /** Risk hears the signal; its first answer tells whether it approves. */
    method AskRisk(e: Emission) returns (approved: bool)
      requires Valid()
      modifies risk
      ensures Valid() && View() == old(View())
      ensures approved == Approves(cfg.limits, View().killed, View().books, View().lastTick, e.wall, e.signal)
    {
      hide BrokenRule, PositionManager.Valid, Broker.SimulatedBroker.Valid;
      var heard := |risk.published|;
      risk.OnSignal(e.signal, e.wall);
      return risk.published[heard].SignalApproved?;
    }

    /** Execution hears the approval; it asks for an order unless it throttles or sizes to nothing. */
    method AskExecution(e: Emission) returns (request: Option<Broker.Request>)
      requires Valid()
      modifies exec
      ensures Valid() && request == old(View()).exec.RequestFor(cfg.settings, e.signal, e.now)
      ensures var before := old(View());
        View() == if request.None? then before
                  else before.(exec := before.exec.(
                         lastOrderTime := before.exec.lastOrderTime[e.signal.symbol := e.later]))
    {
      hide Exec.SizeOf, Exec.Throttles, PositionManager.Valid, Broker.SimulatedBroker.Valid;
      var asked := |exec.published|;
      exec.OnApprovedSignal(e.signal, e.now, e.later);
      if asked < |exec.published| && exec.published[asked].OrderRequested? {
        return Some(exec.published[asked].request);
      }
      return None;
    }

    /** A signal runs through risk, execution and the broker before anything else happens. */
    method OnSignal(e: Emission)
      requires Valid()
      modifies pm, pm.positions.Values, exec, broker, risk
      ensures Valid() && fresh(pm.positions.Values - old(pm.positions.Values))
      ensures View() == Pipeline.OnSignal(cfg, old(View()), e)
    {
      hide Valid, Approves, Exec.RequestFor, BrokerStep;
      ghost var before := View();
      var approved := AskRisk(e);
      if approved {
        var request := AskExecution(e);
        if request.Some? {
          OrderTimesKeepToThemselves(cfg, before, BrokerLaws.Requested(request.value),
                                     before.exec.lastOrderTime[e.signal.symbol := e.later]);
          OnRequest(request.value);
        }
      }
    }

    method OnSignals(es: seq<Emission>)
      requires Valid()
      modifies pm, pm.positions.Values, exec, broker, risk
      ensures Valid() && fresh(pm.positions.Values - old(pm.positions.Values))
      ensures View() == Pipeline.OnSignals(cfg, old(View()), es)
    {
      hide Pipeline.OnSignal;
      for i := 0 to |es|
        invariant Valid() && fresh(pm.positions.Values - old(pm.positions.Values))
        invariant View() == Pipeline.OnSignals(cfg, old(View()), es[..i])
      {
        assert es[..i + 1][..i] == es[..i];
        OnSignal(es[i]);
      }
      assert es[..|es|] == es;
    }

    method OnBarClose(symbol: Symbol, close: real)
      requires Valid()
      modifies pm, pm.positions.Values, exec, broker
      ensures Valid() && fresh(pm.positions.Values - old(pm.positions.Values))
      ensures View() == BrokerStep(cfg, old(View()), BrokerLaws.Priced(symbol, close))
    {
      hide Broker.AfterPrice, BrokerStep;
      ghost var before := View();
      var mark := |broker.published|;
      broker.OnBarClose(symbol, close);
      DeliverSince(mark, before, BrokerLaws.Priced(symbol, close));
    }

    /** Risk, execution, the broker and the ledger see the tick in turn; the ledger's exposure update goes back
        to execution. */
    method OnTick(symbol: Symbol, price: real, bid: real, ask: real, time: real)
      requires Valid()
      modifies pm, pm.positions.Values, exec, broker, risk
      ensures Valid() && fresh(pm.positions.Values - old(pm.positions.Values))
      ensures View() == Pipeline.OnTick(cfg, old(View()), symbol, price, bid, ask, time)
    {
      hide BrokerStep, MarkStep;
      risk.OnTick(symbol, time);
      exec.OnTick(symbol, price);
      PriceBroker(symbol, price);
      Mark(symbol, price, bid, ask);
    }

    method Mark(symbol: Symbol, price: real, bid: real, ask: real)
      requires Valid()
      modifies pm, exec
      ensures Valid() && pm.positions == old(pm.positions)
      ensures View() == MarkStep(old(View()), symbol, TickPrice(price, bid, ask))
    {
      hide Books.Equity, TickEvents;
      pm.OnTick(symbol, price, bid, ask);
      if TickPrice(price, bid, ask).Some? {
        var pos := pm.Find(symbol);
        if pos != null {
          var equity := pm.EquityNow();
          exec.OnExposureUpdate(equity);
        }
      }
    }

    method PriceBroker(symbol: Symbol, price: real)
      requires Valid()
      modifies pm, pm.positions.Values, exec, broker
      ensures Valid() && fresh(pm.positions.Values - old(pm.positions.Values))
      ensures View() == if price == 0.0 then old(View())
                        else BrokerStep(cfg, old(View()), BrokerLaws.Priced(symbol, price))
    {
      hide Broker.AfterPrice, BrokerStep;
      ghost var before := View();
      var mark := |broker.published|;
      broker.OnTick(symbol, price);
      if price != 0.0 {
        DeliverSince(mark, before, BrokerLaws.Priced(symbol, price));
      }
    }

    method OnInput(input: Input)
      requires Valid()
      modifies pm, pm.positions.Values, exec, broker, risk
      ensures Valid() && fresh(pm.positions.Values - old(pm.positions.Values))
      ensures View() == Pipeline.Step(cfg, old(View()), input)
    {
      hide Valid, Arrive, Pipeline.OnSignals;
      ArriveAt(input);
      OnSignals(Emissions(input));
    }

    /** What comes before the strategies see the input. */
    method ArriveAt(input: Input)
      requires Valid()
      modifies pm, pm.positions.Values, exec, broker, risk
      ensures Valid() && fresh(pm.positions.Values - old(pm.positions.Values))
      ensures View() == Arrive(cfg, old(View()), input)
    {
      hide BrokerStep, Pipeline.OnTick, PositionManager.Valid, Broker.SimulatedBroker.Valid;
      match input {
        case Bar(symbol, close, _) => OnBarClose(symbol, close);
        case Tick(symbol, price, bid, ask, time, _) => OnTick(symbol, price, bid, ask, time);
        case Disconnect => risk.OnDisconnect();
        case KillSwitch(on) => if on { risk.ActivateKillSwitch(); } else { risk.DeactivateKillSwitch(); }
      }
    }

    /** A whole backtest: the objects end in the pipeline's final state, so its laws hold of them. */
    method Run(inputs: seq<Input>)
      requires Valid() && View() == Fresh(cfg)
      modifies pm, pm.positions.Values, exec, broker, risk
      ensures Valid() && View() == Pipeline.Run(cfg, inputs)
      ensures PipelineLaws.Backtest(inputs) ==> pm.View().NonZero() <= PipelineLaws.Cap(cfg)
      ensures PipelineLaws.ValuedAtMarket(cfg, inputs, pm.View(), broker.completed)
      ensures exec.active == map[]
    {
      hide Pipeline.Step, Books.Equity, Books.Snapshot, Books.NonZero, PipelineLaws.ValuedAtMarket;
      for i := 0 to |inputs|
        invariant Valid() && fresh(pm.positions.Values - old(pm.positions.Values))
        invariant View() == Pipeline.Run(cfg, inputs[..i])
      {
        assert inputs[..i + 1][..i] == inputs[..i];
        OnInput(inputs[i]);
      }
      assert inputs[..|inputs|] == inputs;
      PipelineLaws.EquityReconciles(cfg, inputs);
      if PipelineLaws.Backtest(inputs) {
        BacktestEnds(cfg, inputs);
      }
    }

    /** A tick runs through the components and then the VWAP strategy, whose signals follow at once. */
    method OnQuote(q: Quote, strategy: Vwap.VwapReversionStrategy, ghost past: seq<Vwap.Tick>)
      returns (ghost input: Input)
      requires Valid() && strategy.Valid() && strategy.running && strategy.Follows(past)
      modifies pm, pm.positions.Values, exec, broker, risk, strategy
      ensures Valid() && fresh(pm.positions.Values - old(pm.positions.Values))
      ensures strategy.Valid() && strategy.running
      ensures strategy.Follows(past + [Vwap.Tick(q.symbol, Vwap.Trade(q.price, q.volume))])
      ensures CarriesQuote(input, q) && Carried(old(strategy.emitted), strategy.emitted, [input])
      ensures View() == Pipeline.Step(cfg, old(View()), input) && PipelineLaws.Backtest([input])
    {
      hide Pipeline.OnTick, Pipeline.OnSignals, Valid, Vwap.VwapReversionStrategy.Valid, Carried;
      hide Vwap.VwapReversionStrategy.Follows, PipelineLaws.Backtest;
      OnTick(q.symbol, q.price, q.bid, q.ask, q.time);
      assert strategy !in Objects();
      var es := HearQuote(q, strategy, past);
      input := Tick(q.symbol, q.price, q.bid, q.ask, q.time, es);
      OnSignals(es);
    }

    /** A backtest of the VWAP strategy on any ticks, zero prices among them: the position limit, the equity
        identity and the strategy's own law hold at its end, whatever the ticks. */
    method RunVwap(strategy: Vwap.VwapReversionStrategy, quotes: seq<Quote>) returns (ghost inputs: seq<Input>)
      requires Valid() && View() == Fresh(cfg)
      requires strategy.Valid() && strategy.running && strategy.Follows([])
      modifies pm, pm.positions.Values, exec, broker, risk, strategy
      ensures Valid() && strategy.Valid() && strategy.Follows(TicksOf(quotes))
      ensures |TicksOf(quotes)| == |quotes| && forall i :: 0 <= i < |quotes| ==>
        TicksOf(quotes)[i] == Vwap.Tick(quotes[i].symbol, Vwap.Trade(quotes[i].price, quotes[i].volume))
      ensures Played(quotes, old(strategy.emitted), strategy.emitted, inputs)
      ensures pm.View().NonZero() <= PipelineLaws.Cap(cfg)
      ensures PipelineLaws.ValuedAtMarket(cfg, inputs, pm.View(), broker.completed)
      ensures broker.held == [] && broker.pending == [] && exec.active == map[]
    {
      inputs := PlayQuotes(strategy, quotes);
      hide *;
      PipelineLaws.EquityReconciles(cfg, inputs);
      BacktestEnds(cfg, inputs);
      TicksAre(quotes);
    }

    /** The objects and the strategy stand where the quotes played so far have taken them. */
    ghost predicate Playing(strategy: Vwap.VwapReversionStrategy, quotes: seq<Quote>, before: seq<Signal>,
          inputs: seq<Input>)
      reads Objects(), pm, strategy
    {
      && Valid() && strategy.Valid() && strategy.running && strategy.Follows(TicksOf(quotes))
      && Played(quotes, before, strategy.emitted, inputs)
      && View() == Pipeline.Run(cfg, inputs) && PipelineLaws.Backtest(inputs)
    }

    lemma PlayStarts(strategy: Vwap.VwapReversionStrategy)
      requires Valid() && View() == Fresh(cfg)
      requires strategy.Valid() && strategy.running && strategy.Follows([])
      ensures Playing(strategy, [], strategy.emitted, [])
    {
      hide Valid, Vwap.VwapReversionStrategy.Follows;
      NothingYet(cfg);
    }

    method PlayQuotes(strategy: Vwap.VwapReversionStrategy, quotes: seq<Quote>) returns (ghost inputs: seq<Input>)
      requires Valid() && View() == Fresh(cfg)
      requires strategy.Valid() && strategy.running && strategy.Follows([])
      modifies pm, pm.positions.Values, exec, broker, risk, strategy
      ensures Playing(strategy, quotes, old(strategy.emitted), inputs)
    {
      PlayStarts(strategy);
      hide *;
      inputs := [];
      assert quotes[..0] == [];
      for i := 0 to |quotes|
        invariant fresh(pm.positions.Values - old(pm.positions.Values))
        invariant Playing(strategy, quotes[..i], old(strategy.emitted), inputs)
      {
        assert quotes[..i + 1] == quotes[..i] + [quotes[i]];
        inputs := PlayQuote(strategy, quotes[..i], quotes[i], old(strategy.emitted), inputs);
      }
      assert quotes[..|quotes|] == quotes;
    }

    method PlayQuote(strategy: Vwap.VwapReversionStrategy, ghost quotes: seq<Quote>, q: Quote,
          ghost before: seq<Signal>, ghost inputs: seq<Input>)
      returns (ghost next: seq<Input>)
      requires Playing(strategy, quotes, before, inputs)
      modifies pm, pm.positions.Values, exec, broker, risk, strategy
      ensures fresh(pm.positions.Values - old(pm.positions.Values))
      ensures Playing(strategy, quotes + [q], before, next)
    {
      hide Valid, Vwap.VwapReversionStrategy.Valid, Vwap.VwapReversionStrategy.Follows, Played, Pipeline.Step;
      hide CarriesQuote, PipelineLaws.Backtest, TicksOf, Carried;
      TicksNext(quotes, q);
      ghost var emitted := strategy.emitted;
      ghost var input := OnQuote(q, strategy, TicksOf(quotes));
      PlayedNext(quotes, q, before, emitted, strategy.emitted, inputs, input);
      OneMoreInput(cfg, inputs, input);
      next := inputs + [input];
    }

    /** A bar prices its symbol at the broker and then reaches the mean-reversion strategy, whose signals follow at
        once. */
    method OnStrategyBar(bar: MeanReversion.Bar, strategy: MeanReversion.MeanReversionStrategy,
          ghost past: seq<MeanReversion.Bar>)
      returns (ghost input: Input)
      requires Valid() && strategy.Valid() && strategy.running && strategy.Follows(past)
      requires MeanReversion.Measured(strategy.params, past + [bar])
      modifies pm, pm.positions.Values, exec, broker, risk, strategy
      ensures Valid() && fresh(pm.positions.Values - old(pm.positions.Values))
      ensures strategy.Valid() && strategy.running && strategy.Follows(past + [bar])
      ensures CarriesBar(input, bar) && Carried(old(strategy.emitted), strategy.emitted, [input])
      ensures View() == Pipeline.Step(cfg, old(View()), input) && PipelineLaws.Backtest([input])
    {
      hide BrokerStep, Pipeline.OnSignals, Valid, MeanReversion.MeanReversionStrategy.Valid, MeanReversion.Measured;
      hide Carried, MeanReversion.MeanReversionStrategy.Follows, PipelineLaws.Backtest;
      OnBarClose(bar.symbol, bar.close);
      assert strategy !in Objects();
      var es := HearBar(bar, strategy, past);
      input := Bar(bar.symbol, bar.close, es);
      OnSignals(es);
    }

    /** A backtest of the mean-reversion strategy on any bars. */
    method RunMeanReversion(strategy: MeanReversion.MeanReversionStrategy, bars: seq<MeanReversion.Bar>)
      returns (ghost inputs: seq<Input>)
      requires Valid() && View() == Fresh(cfg)
      requires strategy.Valid() && strategy.running && strategy.Follows([])
      requires MeanReversion.Measured(strategy.params, bars)
      modifies pm, pm.positions.Values, exec, broker, risk, strategy
      ensures Valid() && strategy.Valid() && strategy.Follows(bars)
      ensures |inputs| == |bars| && forall i :: 0 <= i < |bars| ==> CarriesBar(inputs[i], bars[i])
      ensures Carried(old(strategy.emitted), strategy.emitted, inputs)
      ensures pm.View().NonZero() <= PipelineLaws.Cap(cfg)
      ensures PipelineLaws.ValuedAtMarket(cfg, inputs, pm.View(), broker.completed)
      ensures broker.held == [] && broker.pending == [] && exec.active == map[]
    {
      hide Valid, MeanReversion.MeanReversionStrategy.Valid, MeanReversion.MeanReversionStrategy.Follows, Pipeline.Step;
      hide Carried;
      hide Books.Equity, Books.Snapshot, Books.NonZero, MeanReversion.Measured, PipelineLaws.Backtest;
      hide PipelineLaws.ValuedAtMarket, CarriesBar;
      NothingYet(cfg);
      inputs := [];
      for i := 0 to |bars|
        invariant Valid() && fresh(pm.positions.Values - old(pm.positions.Values))
        invariant strategy.Valid() && strategy.running && strategy.Follows(bars[..i])
        invariant |inputs| == i && forall j :: 0 <= j < i ==> CarriesBar(inputs[j], bars[j])
        invariant Carried(old(strategy.emitted), strategy.emitted, inputs)
        invariant View() == Pipeline.Run(cfg, inputs) && PipelineLaws.Backtest(inputs)
      {
        assert bars[..i + 1] == bars[..i] + [bars[i]];
        MeanReversion.MeasuredPrefix(strategy.params, bars, i + 1);
        ghost var emitted := strategy.emitted;
        ghost var input := OnStrategyBar(bars[i], strategy, bars[..i]);
        CarriedNext(old(strategy.emitted), emitted, strategy.emitted, inputs, input);
        OneMoreInput(cfg, inputs, input);
        inputs := inputs + [input];
      }
      assert bars[..|bars|] == bars;
      PipelineLaws.EquityReconciles(cfg, inputs);
      BacktestEnds(cfg, inputs);
    }
  }

  lemma NothingYet(cfg: Config)
    ensures Pipeline.Run(cfg, []) == Fresh(cfg) && PipelineLaws.Backtest([])
    ensures TicksOf([]) == [] && forall emitted :: Played([], emitted, emitted, []) && Carried(emitted, emitted, [])
  {
  }

  lemma CarriedNext(before: seq<Signal>, mid: seq<Signal>, after: seq<Signal>, inputs: seq<Input>, input: Input)
    requires Carried(before, mid, inputs) && Carried(mid, after, [input])
    ensures Carried(before, after, inputs + [input])
  {
    hide SignalsOf;
    assert (inputs + [input])[..|inputs|] == inputs;
    OneSignals(input);
    assert (before + SignalsIn(inputs)) + SignalsOf(input) == before + (SignalsIn(inputs) + SignalsOf(input));
  }

  lemma OneSignals(input: Input)
    ensures SignalsIn([input]) == SignalsOf(input)
  {
    hide SignalsOf;
    assert [input][..0] == [];
    assert SignalsIn([input]) == SignalsIn([]) + SignalsOf(input);
  }

  lemma CarriedOne(before: seq<Signal>, after: seq<Signal>, input: Input)
    requires before <= after && |Emissions(input)| == |after| - |before|
    requires forall i :: 0 <= i < |Emissions(input)| ==> Emissions(input)[i].signal == after[|before| + i]
    ensures Carried(before, after, [input])
  {
    OneSignals(input);
    assert SignalsOf(input) == after[|before|..];
  }

  lemma PlayedNext(quotes: seq<Quote>, q: Quote, before: seq<Signal>, mid: seq<Signal>, after: seq<Signal>,
        inputs: seq<Input>, input: Input)
    requires Played(quotes, before, mid, inputs) && CarriesQuote(input, q) && Carried(mid, after, [input])
    ensures Played(quotes + [q], before, after, inputs + [input])
  {
    CarriedNext(before, mid, after, inputs, input);
    hide Carried, CarriesQuote;
  }

  lemma TicksNext(quotes: seq<Quote>, q: Quote)
    ensures TicksOf(quotes + [q]) == TicksOf(quotes) + [Vwap.Tick(q.symbol, Vwap.Trade(q.price, q.volume))]
  {
    assert (quotes + [q])[..|quotes|] == quotes;
  }

  lemma {:induction false} TicksAre(quotes: seq<Quote>)
    ensures |TicksOf(quotes)| == |quotes| && forall i :: 0 <= i < |quotes| ==>
      TicksOf(quotes)[i] == Vwap.Tick(quotes[i].symbol, Vwap.Trade(quotes[i].price, quotes[i].volume))
  {
    if quotes != [] {
      TicksAre(quotes[..|quotes| - 1]);
    }
  }

  lemma OneMoreInput(cfg: Config, inputs: seq<Input>, input: Input)
    requires PipelineLaws.Backtest(inputs) && PipelineLaws.Backtest([input])
    ensures PipelineLaws.Backtest(inputs + [input])
    ensures Pipeline.Run(cfg, inputs + [input]) == Pipeline.Step(cfg, Pipeline.Run(cfg, inputs), input)
  {
    hide Pipeline.Step;
    assert (inputs + [input])[..|inputs|] == inputs;
    assert [input][0] == input;
  }

  lemma BacktestEnds(cfg: Config, inputs: seq<Input>)
    requires PipelineLaws.Backtest(inputs)
    ensures Pipeline.Run(cfg, inputs).books.NonZero() <= PipelineLaws.Cap(cfg)
    ensures PipelineLaws.Settled(Pipeline.Run(cfg, inputs))
  {
    PipelineLaws.BacktestIsWired(cfg, inputs);
    PipelineLaws.WiredStaysSettled(cfg, inputs);
    Commitments.PositionLimitHolds(cfg, inputs);
  }

  /** Nothing the broker or the ledger does reads or changes the times of the last orders. */
  lemma {:induction false} DeliverKeepsOrderTimes(sys: System, events: seq<Broker.Event>, times: map<Symbol, real>)
    ensures Pipeline.Deliver(sys, events).exec.lastOrderTime == sys.exec.lastOrderTime
    ensures var next := Pipeline.Deliver(sys, events);
      Pipeline.Deliver(sys.(exec := sys.exec.(lastOrderTime := times)), events)
      == next.(exec := next.exec.(lastOrderTime := times))
  {
    if events != [] {
      DeliverKeepsOrderTimes(sys, events[..|events| - 1], times);
    }
  }

  lemma OrderTimesKeepToThemselves(cfg: Config, sys: System, input: BrokerLaws.Input, times: map<Symbol, real>)
    ensures var next := BrokerStep(cfg, sys, input);
      && next.exec.lastOrderTime == sys.exec.lastOrderTime
      && BrokerStep(cfg, sys.(exec := sys.exec.(lastOrderTime := times)), input)
         == next.(exec := next.exec.(lastOrderTime := times))
  {
    hide Pipeline.Deliver;
    DeliverKeepsOrderTimes(sys.(broker := BrokerLaws.Step(cfg.terms, sys.broker, input)),
                           BrokerLaws.StepEvents(cfg.terms, sys.broker, input), times);
  }
}
