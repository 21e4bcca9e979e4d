/** The engine wired as for a backtest: one synchronous chain from a price through strategies, risk and
    execution to the broker and the ledger. Strategies are arbitrary: they are the signals they emit. */
module Pipeline {
  import opened Basics
  import opened Execution
  import opened Ledger
  import opened Portfolio
  import opened PortfolioLaws
  import opened Risk
  import Broker
  import BrokerLaws

  datatype Config = Config(capital: real, symbolLimit: Option<real>, limits: Limits, settings: Settings,
                           terms: Broker.Terms)

  datatype System = System(books: Books, broker: Broker.Book, exec: Exec, killed: bool, lastTick: map<Symbol, real>)

  /** A signal as a strategy emits it, with the clock readings taken on its way: risk reads the wall clock, execution
      a monotonic one, before and after it asks for the order. */
  datatype Emission = Emission(signal: Signal, wall: real, now: real, later: real)

  datatype Input =
    | Bar(symbol: Symbol, close: real, emissions: seq<Emission>)
    | Tick(symbol: Symbol, price: real, bid: real, ask: real, time: real, emissions: seq<Emission>)
    | Disconnect
    | KillSwitch(on: bool)

  function Fresh(cfg: Config): System {
    System(Flat(cfg.capital, cfg.symbolLimit), BrokerLaws.Empty(0), Exec(map[], map[], map[], 100000.0), false, map[])
  }

  /** One broker event reaches its subscribers: execution first, then the ledger, whose exposure update
      carries the new equity back to execution. */
  ghost function DeliverOne(sys: System, e: Broker.Event): System {
    match e
    case OrderSubmitted(order) => sys.(exec := sys.exec.OnSubmitted(order))
    case OrderStatusFilled(_) => sys
    case OrderFilled(id, symbol, side, price, quantity) =>
      var books := sys.books.AfterFill(symbol, Fill(side, quantity, price));
      sys.(books := books, exec := sys.exec.OnFilled(id).(equity := books.Equity()))
  }

  ghost function Deliver(sys: System, events: seq<Broker.Event>): System {
    if events == [] then sys else DeliverOne(Deliver(sys, events[..|events| - 1]), events[|events| - 1])
  }

  /** A broker step, with everything it publishes delivered. */
  ghost function BrokerStep(cfg: Config, sys: System, input: BrokerLaws.Input): System {
    Deliver(sys.(broker := BrokerLaws.Step(cfg.terms, sys.broker, input)),
            BrokerLaws.StepEvents(cfg.terms, sys.broker, input))
  }

  ghost function RequestOf(cfg: Config, sys: System, e: Emission): Option<Broker.Request> {
    if Approves(cfg.limits, sys.killed, sys.books, sys.lastTick, e.wall, e.signal)
    then sys.exec.RequestFor(cfg.settings, e.signal, e.now)
    else None
  }

  /** A signal runs the whole chain before the next one is emitted. */
  ghost function OnSignal(cfg: Config, sys: System, e: Emission): System {
    match RequestOf(cfg, sys, e)
    case None => sys
    case Some(request) =>
      var next := BrokerStep(cfg, sys, BrokerLaws.Requested(request));
      next.(exec := next.exec.(lastOrderTime := next.exec.lastOrderTime[e.signal.symbol := e.later]))
  }

  ghost function OnSignals(cfg: Config, sys: System, es: seq<Emission>): System {
    if es == [] then sys else OnSignal(cfg, OnSignals(cfg, sys, es[..|es| - 1]), es[|es| - 1])
  }

  /** The ledger marks the symbol; if it holds a position record, its exposure update reaches execution. */
  ghost function MarkStep(sys: System, symbol: Symbol, price: Option<real>): System {
    match price
    case None => sys
    case Some(mark) =>
      var books := sys.books.AfterMark(symbol, mark);
      var equity := if symbol in books.lots then books.Equity() else sys.exec.equity;
      sys.(books := books, exec := sys.exec.(equity := equity))
  }

  /** Risk notes the time of a tick and execution its price. */
  function Seen(sys: System, symbol: Symbol, price: real, time: real): System {
    sys.(lastTick := sys.lastTick[symbol := time], exec := sys.exec.(prices := sys.exec.prices[symbol := price]))
  }

  /** A tick passes risk, execution, broker and ledger in the order they subscribed; the broker ignores a price
      of zero. */
  ghost function OnTick(cfg: Config, sys: System, symbol: Symbol, price: real, bid: real, ask: real, time: real)
    : System
  {
    var seen := Seen(sys, symbol, price, time);
    var priced := if price != 0.0 then BrokerStep(cfg, seen, BrokerLaws.Priced(symbol, price)) else seen;
    MarkStep(priced, symbol, TickPrice(price, bid, ask))
  }

  /** The system when the strategies get to see the input. */
  ghost function Arrive(cfg: Config, sys: System, input: Input): System {
    match input
    case Bar(symbol, close, _) => BrokerStep(cfg, sys, BrokerLaws.Priced(symbol, close))
    case Tick(symbol, price, bid, ask, time, _) => OnTick(cfg, sys, symbol, price, bid, ask, time)
    case Disconnect => sys.(killed := true)
    case KillSwitch(on) => sys.(killed := on)
  }

  function Emissions(input: Input): seq<Emission> {
    if input.Bar? || input.Tick? then input.emissions else []
  }

  ghost function Step(cfg: Config, sys: System, input: Input): System {
    OnSignals(cfg, Arrive(cfg, sys, input), Emissions(input))
  }

  ghost function RunFrom(cfg: Config, sys: System, inputs: seq<Input>): System {
    if inputs == [] then sys else Step(cfg, RunFrom(cfg, sys, inputs[..|inputs| - 1]), inputs[|inputs| - 1])
  }

  ghost function Run(cfg: Config, inputs: seq<Input>): System {
    RunFrom(cfg, Fresh(cfg), inputs)
  }
}
