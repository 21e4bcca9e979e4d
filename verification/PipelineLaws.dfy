/** What holds of the wired engine at every event boundary of every run. */
module PipelineLaws {
  import opened Basics
  import opened Execution
  import opened Ledger
  import opened Pipeline
  import opened Portfolio
  import opened PortfolioLaws
  import opened Risk
  import opened Sums
  import opened Sequences
  import opened Reals
  import Broker
  import BrokerLaws
  import Valuation

  // ---------------------------------------------------------------------------------------------
  // Reconciliation of ledger and broker
  // ---------------------------------------------------------------------------------------------

  function FillOf(e: Broker.Event): Fill
    requires e.OrderFilled?
  {
    Fill(e.side, e.quantity, e.fillPrice)
  }

  function FillsIn(log: seq<Broker.Event>, s: Symbol): seq<Fill> {
    if log == [] then []
    else
      var e := log[|log| - 1];
      FillsIn(log[..|log| - 1], s) + if e.OrderFilled? && e.symbol == s then [FillOf(e)] else []
  }

  function CashIn(log: seq<Broker.Event>): real {
    if log == [] then 0.0
    else
      var e := log[|log| - 1];
      CashIn(log[..|log| - 1]) + if e.OrderFilled? then FillOf(e).Cash() else 0.0
  }

  predicate PositiveFills(events: seq<Broker.Event>) {
    forall e :: e in events && e.OrderFilled? ==> e.quantity > 0
  }

  /** The books are what the fill events in the log make them. */
  ghost predicate Tracks(cfg: Config, books: Books, log: seq<Broker.Event>) {
    && books.Valid() && books.capital == cfg.capital
    && (forall s :: books.LotOf(s) == Ledger.Run(EMPTY, FillsIn(log, s)))
    && (forall s :: s in books.lots <==> FillsIn(log, s) != [])
    && (forall s :: books.LotOf(s).FlatIsFree())
    && Sum(books.symbols, Balances(books)) == CashIn(log)
  }

  lemma FillTracks(cfg: Config, books: Books, log: seq<Broker.Event>, e: Broker.Event)
    requires Tracks(cfg, books, log) && e.OrderFilled? && e.quantity > 0
    ensures Tracks(cfg, books.AfterFill(e.symbol, FillOf(e)), log + [e])
  {
    hide Apply, Lot.Balance, Fill.Cash, Lot.FlatIsFree, Sum, Books.Valid;
    var next, more := books.AfterFill(e.symbol, FillOf(e)), log + [e];
    assert more[..|log|] == log;
    FillMovesBalance(books, e.symbol, FillOf(e));
    assert next.Valid() by { StepKeepsValid(books, Filled(e.symbol, FillOf(e))); }
    forall s ensures next.LotOf(s) == Ledger.Run(EMPTY, FillsIn(more, s)) && next.LotOf(s).FlatIsFree()
             ensures s in next.lots <==> FillsIn(more, s) != [] {
      FillOneSymbol(books, log, e, s);
    }
  }

  lemma FillOneSymbol(books: Books, log: seq<Broker.Event>, e: Broker.Event, s: Symbol)
    requires e.OrderFilled? && books.LotOf(s) == Ledger.Run(EMPTY, FillsIn(log, s))
    ensures books.AfterFill(e.symbol, FillOf(e)).LotOf(s) == Ledger.Run(EMPTY, FillsIn(log + [e], s))
    ensures s != e.symbol ==> books.AfterFill(e.symbol, FillOf(e)).LotOf(s) == books.LotOf(s)
    ensures FillsIn(log + [e], s) == FillsIn(log, s) + if s == e.symbol then [FillOf(e)] else []
  {
    hide Apply;
    var more := log + [e];
    assert more[..|log|] == log;
    if s == e.symbol {
      var fills := FillsIn(log, s);
      assert (fills + [FillOf(e)])[..|fills|] == fills;
    } else {
      assert FillsIn(more, s) == FillsIn(log, s);
    }
  }

  lemma OtherEventTracks(cfg: Config, books: Books, log: seq<Broker.Event>, e: Broker.Event)
    requires Tracks(cfg, books, log) && !e.OrderFilled?
    ensures Tracks(cfg, books, log + [e])
  {
    hide Ledger.Run, Lot.FlatIsFree, Lot.Balance, Books.Valid, Sum;
    var more := log + [e];
    assert more[..|log|] == log;
    forall s ensures FillsIn(more, s) == FillsIn(log, s) {
    }
  }

  lemma {:induction false} DeliverTracks(cfg: Config, sys: System, log: seq<Broker.Event>, events: seq<Broker.Event>)
    requires Tracks(cfg, sys.books, log) && PositiveFills(events)
    ensures Tracks(cfg, Deliver(sys, events).books, log + events)
    ensures Deliver(sys, events).broker == sys.broker
  {
    hide Tracks, Books.Equity;
    if events == [] {
      assert log + events == log;
    } else {
      var past, e := events[..|events| - 1], events[|events| - 1];
      DeliverTracks(cfg, sys, log, past);
      assert log + events == (log + past) + [e];
      var books := Deliver(sys, past).books;
      if e.OrderFilled? { FillTracks(cfg, books, log + past, e); } else { OtherEventTracks(cfg, books, log + past, e); }
    }
  }

  lemma {:induction false} DeliverConcat(sys: System, xs: seq<Broker.Event>, ys: seq<Broker.Event>)
    ensures Deliver(sys, xs + ys) == Deliver(Deliver(sys, xs), ys)
  {
    if ys == [] {
      assert xs + ys == xs;
    } else {
      DeliverConcat(sys, xs, ys[..|ys| - 1]);
      assert (xs + ys)[..|xs + ys| - 1] == xs + ys[..|ys| - 1];
    }
  }

  /** Delivery changes books and execution's tables only, and of those not the times of the last orders. */
  lemma {:induction false} DeliverKeepsRest(sys: System, events: seq<Broker.Event>)
    ensures var next := Deliver(sys, events);
      && next.killed == sys.killed && next.broker == sys.broker
      && next.exec.lastOrderTime == sys.exec.lastOrderTime
  {
    if events != [] {
      DeliverKeepsRest(sys, events[..|events| - 1]);
    }
  }

  /** What the delivery of one complete fill amounts to. */
  lemma DeliverFill(sys: System, terms: Broker.Terms, order: Broker.Order, price: real)
    ensures var fill := Fill(order.side, order.quantity, terms.Slip(price, order.side));
            var next := Deliver(sys, Broker.FillEvents(terms, order, price));
      && next.books == sys.books.AfterFill(order.symbol, fill)
      && (sys.exec.active == map[] ==> next.exec.active == map[])
      && next.broker == sys.broker && next.killed == sys.killed
  {
    hide Books.Equity, Apply;
    var es := Broker.FillEvents(terms, order, price);
    assert es[..2] == [es[0], es[1]] && es[..2][..1] == [es[0]] && es[..2][..1][..0] == [];
    assert Deliver(sys, es[..2][..1]) == DeliverOne(sys, es[0]);
    assert Deliver(sys, es[..2]) == DeliverOne(Deliver(sys, es[..2][..1]), es[1]);
    assert Deliver(sys, es) == DeliverOne(Deliver(sys, es[..2]), es[2]);
  }

  lemma {:induction false} DeliverEach(sys: System, terms: Broker.Terms, orders: seq<Broker.Order>, price: real)
    requires sys.exec.active == map[]
    ensures Deliver(sys, BrokerLaws.EachEvents(terms, orders, price)).exec.active == map[]
  {
    if orders != [] {
      var past, order := orders[..|orders| - 1], orders[|orders| - 1];
      var at := Broker.PriceFor(order, price);
      DeliverEach(sys, terms, past, price);
      DeliverConcat(sys, BrokerLaws.EachEvents(terms, past, price), Broker.FillEvents(terms, order, at));
      DeliverFill(Deliver(sys, BrokerLaws.EachEvents(terms, past, price)), terms, order, at);
    }
  }

  predicate Positive(orders: seq<Broker.Order>) {
    forall o :: o in orders ==> o.quantity > 0
  }

  lemma {:induction false} EachFillPositive(terms: Broker.Terms, orders: seq<Broker.Order>, price: real)
    requires Positive(orders)
    ensures PositiveFills(BrokerLaws.EachEvents(terms, orders, price))
  {
    if orders != [] {
      EachFillPositive(terms, orders[..|orders| - 1], price);
    }
  }

  /** What every event boundary keeps. */
  ghost predicate Sound(cfg: Config, sys: System) {
    && Tracks(cfg, sys.books, sys.broker.published)
    && BrokerLaws.InStep(sys.broker) && PositiveFills(sys.broker.published)
    && Positive(sys.broker.held) && Positive(sys.broker.pending)
    && sys.exec.active == map[]
  }

  lemma BrokerStepFillsPositive(terms: Broker.Terms, b: Broker.Book, input: BrokerLaws.Input)
    requires Positive(b.held) && Positive(b.pending)
    requires input.Requested? ==> input.request.quantity > 0
    ensures PositiveFills(BrokerLaws.StepEvents(terms, b, input))
    ensures Positive(BrokerLaws.Step(terms, b, input).held) && Positive(BrokerLaws.Step(terms, b, input).pending)
  {
    match input {
      case Priced(symbol, price) =>
        FilterMembers(Broker.Of(symbol), b.held);
        FilterMembers(Broker.NotOf(symbol), b.held);
        FilterMembers(Broker.CrossedBy(symbol, price), b.pending);
        FilterMembers(Broker.NotCrossedBy(symbol, price), b.pending);
        EachFillPositive(terms, Filter(Broker.Of(symbol), b.held), price);
        EachFillPositive(terms, Filter(Broker.CrossedBy(symbol, price), b.pending), price);
        BrokerLaws.PriceKeeps(terms, b, symbol, price);
      case Requested(request) =>
    }
  }

  lemma BrokerStepClears(cfg: Config, sys: System, input: BrokerLaws.Input)
    requires sys.exec.active == map[]
    ensures BrokerStep(cfg, sys, input).exec.active == map[]
  {
    hide Deliver, BrokerLaws.EachEvents;
    var b := sys.broker;
    var mid := sys.(broker := BrokerLaws.Step(cfg.terms, b, input));
    match input {
      case Priced(symbol, price) =>
        DeliverTwice(mid, cfg.terms, Filter(Broker.Of(symbol), b.held),
                     Filter(Broker.CrossedBy(symbol, price), b.pending), price);
      case Requested(request) =>
        DeliverNothing(mid);
        if request.symbol in b.prices {
          DeliverFill(mid, cfg.terms, Broker.OrderFor(request, b.counter + 1), b.prices[request.symbol]);
        }
    }
  }

  lemma DeliverNothing(sys: System)
    ensures Deliver(sys, []) == sys
  {
  }

  lemma DeliverTwice(sys: System, terms: Broker.Terms, xs: seq<Broker.Order>, ys: seq<Broker.Order>, price: real)
    requires sys.exec.active == map[]
    ensures Deliver(sys, BrokerLaws.EachEvents(terms, xs, price) + BrokerLaws.EachEvents(terms, ys, price)).exec.active
         == map[]
  {
    hide Deliver, BrokerLaws.EachEvents;
    DeliverEach(sys, terms, xs, price);
    DeliverEach(Deliver(sys, BrokerLaws.EachEvents(terms, xs, price)), terms, ys, price);
    DeliverConcat(sys, BrokerLaws.EachEvents(terms, xs, price), BrokerLaws.EachEvents(terms, ys, price));
  }

  lemma BrokerStepSound(cfg: Config, sys: System, input: BrokerLaws.Input)
    requires Sound(cfg, sys)
    requires input.Requested? ==> input.request.quantity > 0
    ensures Sound(cfg, BrokerStep(cfg, sys, input))
  {
    BrokerStepFillsPositive(cfg.terms, sys.broker, input);
    BrokerLaws.StepPublishes(cfg.terms, sys.broker, input);
    BrokerLaws.StepKeepsStep(cfg.terms, sys.broker, input);
    BrokerStepClears(cfg, sys, input);
    DeliverTracks(cfg, sys.(broker := BrokerLaws.Step(cfg.terms, sys.broker, input)), sys.broker.published,
                  BrokerLaws.StepEvents(cfg.terms, sys.broker, input));
  }

  lemma {:induction false} SignalsSound(cfg: Config, sys: System, es: seq<Emission>)
    requires Sound(cfg, sys)
    ensures Sound(cfg, OnSignals(cfg, sys, es))
  {
    if es != [] {
      SignalsSound(cfg, sys, es[..|es| - 1]);
      var mid := OnSignals(cfg, sys, es[..|es| - 1]);
      match RequestOf(cfg, mid, es[|es| - 1]) {
        case None =>
        case Some(request) => BrokerStepSound(cfg, mid, BrokerLaws.Requested(request));
      }
    }
  }

  lemma MarkTracks(cfg: Config, books: Books, log: seq<Broker.Event>, s: Symbol, mark: real)
    requires Tracks(cfg, books, log)
    ensures Tracks(cfg, books.AfterMark(s, mark), log)
  {
    hide Ledger.Run, Lot.Balance, Lot.FlatIsFree, FillsIn, CashIn;
    SumUpdate(books.symbols, Balances(books), Balances(books.AfterMark(s, mark)), s);
  }

  lemma ArriveSound(cfg: Config, sys: System, input: Pipeline.Input)
    requires Sound(cfg, sys)
    ensures Sound(cfg, Arrive(cfg, sys, input))
  {
    hide Tracks, BrokerStep, Books.Equity;
    match input {
      case Bar(symbol, close, _) => BrokerStepSound(cfg, sys, BrokerLaws.Priced(symbol, close));
      case Tick(symbol, price, bid, ask, time, _) =>
        var seen := Seen(sys, symbol, price, time);
        BrokerStepSound(cfg, seen, BrokerLaws.Priced(symbol, price));
        var priced := if price != 0.0 then BrokerStep(cfg, seen, BrokerLaws.Priced(symbol, price)) else seen;
        MarkTracks(cfg, priced.books, priced.broker.published, symbol, (bid + ask) / 2.0);
        MarkTracks(cfg, priced.books, priced.broker.published, symbol, price);
      case Disconnect =>
      case KillSwitch(_) =>
    }
  }

  lemma FreshIsSound(cfg: Config)
    ensures Sound(cfg, Fresh(cfg))
  {
    assert forall s :: FillsIn([], s) == [];
  }

  lemma {:induction false} RunSound(cfg: Config, sys: System, inputs: seq<Pipeline.Input>)
    requires Sound(cfg, sys)
    ensures Sound(cfg, RunFrom(cfg, sys, inputs))
  {
    if inputs != [] {
      hide Sound, Arrive, OnSignals;
      var before := RunFrom(cfg, sys, inputs[..|inputs| - 1]);
      RunSound(cfg, sys, inputs[..|inputs| - 1]);
      ArriveSound(cfg, before, inputs[|inputs| - 1]);
      SignalsSound(cfg, Arrive(cfg, before, inputs[|inputs| - 1]), Emissions(inputs[|inputs| - 1]));
    }
  }

  // ---- from fill events to completed orders ----

  function FillsOfCompleted(completed: seq<Broker.Completed>, s: Symbol): seq<Fill> {
    if completed == [] then []
    else
      var c := completed[|completed| - 1];
      FillsOfCompleted(completed[..|completed| - 1], s)
      + if c.symbol == s then [Fill(c.side, c.quantity, c.fillPrice)] else []
  }

  function CashOfCompleted(completed: seq<Broker.Completed>): real {
    if completed == [] then 0.0
    else
      var c := completed[|completed| - 1];
      CashOfCompleted(completed[..|completed| - 1]) + Fill(c.side, c.quantity, c.fillPrice).Cash()
  }

  lemma {:induction false} OnlyFillsMatter(log: seq<Broker.Event>, s: Symbol)
    ensures FillsIn(log, s) == FillsIn(Filter(BrokerLaws.IsFill(), log), s)
    ensures CashIn(log) == CashIn(Filter(BrokerLaws.IsFill(), log))
  {
    if log != [] {
      hide Fill.Cash;
      var p, last := BrokerLaws.IsFill(), |log| - 1;
      OnlyFillsMatter(log[..last], s);
      FilterNext(p, log, last);
      assert log[..last + 1] == log;
      if p(log[last]) {
        assert Filter(p, log)[..|Filter(p, log)| - 1] == Filter(p, log[..last]);
      } else {
        assert Filter(p, log) == Filter(p, log[..last]);
      }
    }
  }

  lemma {:induction false} AnnouncedFills(completed: seq<Broker.Completed>, s: Symbol)
    ensures FillsIn(BrokerLaws.Announced(completed), s) == FillsOfCompleted(completed, s)
    ensures CashIn(BrokerLaws.Announced(completed)) == CashOfCompleted(completed)
  {
    if completed != [] {
      hide Fill.Cash;
      AnnouncedFills(completed[..|completed| - 1], s);
      var log := BrokerLaws.Announced(completed);
      assert log[..|log| - 1] == BrokerLaws.Announced(completed[..|completed| - 1]);
    }
  }

  lemma {:induction false} FillsInPositive(log: seq<Broker.Event>, s: Symbol)
    requires PositiveFills(log)
    ensures NonNegative(FillsIn(log, s))
  {
    if log != [] {
      FillsInPositive(log[..|log| - 1], s);
    }
  }

  /** At every event boundary of every run, for every strategy, sizing, throttle and order type: each
      symbol's ledger is the one the broker's completed orders make. Its quantity is their signed sum and its
      balance the cash of their fill prices; commission plays no part. */
  lemma Reconciliation(cfg: Config, inputs: seq<Pipeline.Input>, s: Symbol)
    ensures var sys := Pipeline.Run(cfg, inputs);
            var fills := FillsOfCompleted(sys.broker.completed, s);
      && sys.books.LotOf(s) == Ledger.Run(EMPTY, fills)
      && sys.books.LotOf(s).quantity == NetQuantity(fills)
      && sys.books.LotOf(s).Balance() == NetCash(fills)
  {
    FreshIsSound(cfg);
    RunSound(cfg, Fresh(cfg), inputs);
    var sys := Pipeline.Run(cfg, inputs);
    OnlyFillsMatter(sys.broker.published, s);
    AnnouncedFills(sys.broker.completed, s);
    FillsInPositive(sys.broker.published, s);
    CashConservation(FillsIn(sys.broker.published, s));
  }

  // ---- what the account is worth ----

  /** The price the ledger last marked a symbol at: ticks mark, bars do not. */
  function LastMark(inputs: seq<Pipeline.Input>, s: Symbol): Option<real> {
    if inputs == [] then None
    else
      var last := inputs[|inputs| - 1];
      if last.Tick? && last.symbol == s && TickPrice(last.price, last.bid, last.ask).Some?
      then TickPrice(last.price, last.bid, last.ask)
      else LastMark(inputs[..|inputs| - 1], s)
  }

  /** The shares of a symbol the completed orders add up to. */
  function Held(completed: seq<Broker.Completed>, s: Symbol): int {
    NetQuantity(FillsOfCompleted(completed, s))
  }

  /** What one of them is worth: the last mark, or without any the average cost. */
  function Worth(inputs: seq<Pipeline.Input>, completed: seq<Broker.Completed>, s: Symbol): real {
    if LastMark(inputs, s).Some? then LastMark(inputs, s).value
    else Ledger.Run(EMPTY, FillsOfCompleted(completed, s)).avgCost
  }

  /** Equity is the starting capital, the cash of all completed orders, and their net quantities at the market. Gross
      exposure counts the quantities without their sign, and leverage is gross over equity. The table lists each
      symbol with a completed order once. */
  ghost predicate ValuedAtMarket(cfg: Config, inputs: seq<Pipeline.Input>, b: Books, completed: seq<Broker.Completed>) {
    var net := Sum(b.symbols, s => Times(Worth(inputs, completed, s), Held(completed, s)));
    var gross := Sum(b.symbols, s => Times(Worth(inputs, completed, s), Abs(Held(completed, s))));
    && Distinct(b.symbols) && (forall s :: s in b.symbols <==> FillsOfCompleted(completed, s) != [])
    && b.Equity() == cfg.capital + CashOfCompleted(completed) + net
    && b.Snapshot() == Exposure(gross, net, Count(b.symbols, s => Held(completed, s) > 0),
                                Count(b.symbols, s => Held(completed, s) < 0))
    && b.Leverage() == if b.Equity() <= 0.0 then 0.0 else gross / b.Equity()
  }

  lemma {:induction false} DeliverKeepsMarks(sys: System, events: seq<Broker.Event>)
    ensures Deliver(sys, events).books.marks == sys.books.marks
  {
    if events != [] {
      DeliverKeepsMarks(sys, events[..|events| - 1]);
    }
  }

  lemma BrokerStepKeepsMarks(cfg: Config, sys: System, input: BrokerLaws.Input)
    ensures BrokerStep(cfg, sys, input).books.marks == sys.books.marks
  {
    DeliverKeepsMarks(sys.(broker := BrokerLaws.Step(cfg.terms, sys.broker, input)),
                      BrokerLaws.StepEvents(cfg.terms, sys.broker, input));
  }

  lemma {:induction false} SignalsKeepMarks(cfg: Config, sys: System, es: seq<Emission>)
    ensures OnSignals(cfg, sys, es).books.marks == sys.books.marks
  {
    if es != [] {
      hide BrokerStep, RequestOf;
      var mid := OnSignals(cfg, sys, es[..|es| - 1]);
      SignalsKeepMarks(cfg, sys, es[..|es| - 1]);
      match RequestOf(cfg, mid, es[|es| - 1]) {
        case None =>
        case Some(request) => BrokerStepKeepsMarks(cfg, mid, BrokerLaws.Requested(request));
      }
    }
  }

  ghost predicate MarkedAt(marks: map<Symbol, real>, s: Symbol, mark: Option<real>) {
    if s in marks then mark == Some(marks[s]) else mark == None
  }

  lemma ArriveMarks(cfg: Config, sys: System, input: Pipeline.Input, s: Symbol, mark: Option<real>)
    requires MarkedAt(sys.books.marks, s, mark)
    ensures MarkedAt(Arrive(cfg, sys, input).books.marks, s,
              if input.Tick? && input.symbol == s && TickPrice(input.price, input.bid, input.ask).Some?
              then TickPrice(input.price, input.bid, input.ask) else mark)
  {
    hide BrokerStep, Books.Equity, TickPrice;
    match input {
      case Bar(symbol, close, _) => BrokerStepKeepsMarks(cfg, sys, BrokerLaws.Priced(symbol, close));
      case Tick(symbol, price, bid, ask, time, _) =>
        BrokerStepKeepsMarks(cfg, Seen(sys, symbol, price, time), BrokerLaws.Priced(symbol, price));
      case Disconnect =>
      case KillSwitch(_) =>
    }
  }

  lemma {:induction false} MarksFollow(cfg: Config, inputs: seq<Pipeline.Input>, s: Symbol)
    ensures MarkedAt(Pipeline.Run(cfg, inputs).books.marks, s, LastMark(inputs, s))
  {
    if inputs != [] {
      hide Arrive, OnSignals, MarkedAt, TickPrice;
      var past, last := inputs[..|inputs| - 1], inputs[|inputs| - 1];
      MarksFollow(cfg, past, s);
      ArriveMarks(cfg, Pipeline.Run(cfg, past), last, s, LastMark(past, s));
      SignalsKeepMarks(cfg, Arrive(cfg, Pipeline.Run(cfg, past), last), Emissions(last));
    } else {
      assert MarkedAt(map[], s, None);
    }
  }

  /** The books of a run hold, symbol by symbol, what the completed orders make, at the marks of the ticks. */
  lemma SymbolReconciles(cfg: Config, inputs: seq<Pipeline.Input>, s: Symbol)
    ensures var b, completed := Pipeline.Run(cfg, inputs).books, Pipeline.Run(cfg, inputs).broker.completed;
      && (s in b.lots <==> FillsOfCompleted(completed, s) != [])
      && b.LotOf(s).quantity == Held(completed, s) && b.PriceOf(s) == Worth(inputs, completed, s)
  {
    hide Pipeline.Run, Lot.Balance, Lot.FlatIsFree, Ledger.Run, NetQuantity;
    Reconciliation(cfg, inputs, s);
    FreshIsSound(cfg);
    RunSound(cfg, Fresh(cfg), inputs);
    RunIsFromFresh(cfg, inputs);
    var sys := Pipeline.Run(cfg, inputs);
    OnlyFillsMatter(sys.broker.published, s);
    AnnouncedFills(sys.broker.completed, s);
    MarksFollow(cfg, inputs, s);
  }

  lemma RunIsFromFresh(cfg: Config, inputs: seq<Pipeline.Input>)
    ensures Pipeline.Run(cfg, inputs) == RunFrom(cfg, Fresh(cfg), inputs)
  {
  }

  /** At every event boundary of every run the account is valued at the market, and no order is left in execution's
      table of active orders. */
  lemma EquityReconciles(cfg: Config, inputs: seq<Pipeline.Input>)
    ensures var sys := Pipeline.Run(cfg, inputs);
      ValuedAtMarket(cfg, inputs, sys.books, sys.broker.completed) && sys.exec.active == map[]
  {
    hide Ledger.Run, Times, Sum, Count, RunFrom, NetQuantity, FillsOfCompleted;
    FreshIsSound(cfg);
    RunSound(cfg, Fresh(cfg), inputs);
    var sys := Pipeline.Run(cfg, inputs);
    var b, completed := sys.books, sys.broker.completed;
    OnlyFillsMatter(sys.broker.published, Symbol(""));
    AnnouncedFills(completed, Symbol(""));
    PnlIsBalanceAndHoldings(b);
    forall s ensures s in b.lots <==> FillsOfCompleted(completed, s) != []
             ensures b.LotOf(s).quantity == Held(completed, s) && b.PriceOf(s) == Worth(inputs, completed, s) {
      SymbolReconciles(cfg, inputs, s);
    }
    hide Worth, Held, Books.PriceOf, Books.LotOf, Pipeline.Run;
    Valuation.ExposureOf(b, s => Worth(inputs, completed, s), s => Held(completed, s));
    SumSame(b.symbols, s => Times((x => Worth(inputs, completed, x))(s), (x => Held(completed, x))(s)),
            s => Times(Worth(inputs, completed, s), Held(completed, s)));
    SumSame(b.symbols, s => Times((x => Worth(inputs, completed, x))(s), Abs((x => Held(completed, x))(s))),
            s => Times(Worth(inputs, completed, s), Abs(Held(completed, s))));
    CountSame(b.symbols, s => (x => Held(completed, x))(s) > 0, s => Held(completed, s) > 0);
    CountSame(b.symbols, s => (x => Held(completed, x))(s) < 0, s => Held(completed, s) < 0);
  }

  // ---------------------------------------------------------------------------------------------
  // The position limit
  // ---------------------------------------------------------------------------------------------

  function Cap(cfg: Config): nat {
    if cfg.limits.maxConcurrentPositions < 0 then 0 else cfg.limits.maxConcurrentPositions
  }

  /** Nothing waits at the broker. */
  ghost predicate Settled(sys: System) {
    sys.broker.held == [] && sys.broker.pending == []
  }

  /** Every signal names a symbol the broker has a price for by the time strategies see the input. */
  ghost predicate Wired(cfg: Config, inputs: seq<Pipeline.Input>) {
    inputs != [] ==>
      var past, last := inputs[..|inputs| - 1], inputs[|inputs| - 1];
      && Wired(cfg, past)
      && forall e :: e in Emissions(last) ==>
           e.signal.symbol in Arrive(cfg, Pipeline.Run(cfg, past), last).broker.prices
  }

  lemma PriceSettled(cfg: Config, sys: System, symbol: Symbol, price: real)
    requires Settled(sys)
    ensures BrokerStep(cfg, sys, BrokerLaws.Priced(symbol, price))
         == sys.(broker := sys.broker.(prices := sys.broker.prices[symbol := price]))
  {
  }

  lemma ArriveSettled(cfg: Config, sys: System, input: Pipeline.Input)
    requires Settled(sys)
    ensures Settled(Arrive(cfg, sys, input))
    ensures input.Bar? || (input.Tick? && input.price != 0.0) ==> input.symbol in Arrive(cfg, sys, input).broker.prices
  {
    hide BrokerStep, Books.Equity;
    match input {
      case Bar(symbol, close, _) => PriceSettled(cfg, sys, symbol, close);
      case Tick(symbol, price, bid, ask, time, _) => PriceSettled(cfg, Seen(sys, symbol, price, time), symbol, price);
      case Disconnect =>
      case KillSwitch(_) =>
    }
  }

  /** A signal on a priced symbol leaves nothing waiting: its order fills at once, or, carrying no limit
      price, is dropped. */
  lemma SignalSettled(cfg: Config, sys: System, e: Emission)
    requires Settled(sys) && e.signal.symbol in sys.broker.prices
    ensures Settled(OnSignal(cfg, sys, e)) && OnSignal(cfg, sys, e).broker.prices == sys.broker.prices
  {
    hide Deliver, Approves, Exec.SizeOf, Exec.Throttles;
    match RequestOf(cfg, sys, e) {
      case None =>
      case Some(request) =>
        var input := BrokerLaws.Requested(request);
        DeliverKeepsRest(sys.(broker := BrokerLaws.Step(cfg.terms, sys.broker, input)),
                         BrokerLaws.StepEvents(cfg.terms, sys.broker, input));
    }
  }

  lemma {:induction false} SignalsSettled(cfg: Config, sys: System, es: seq<Emission>)
    requires Settled(sys) && forall e :: e in es ==> e.signal.symbol in sys.broker.prices
    ensures Settled(OnSignals(cfg, sys, es)) && OnSignals(cfg, sys, es).broker.prices == sys.broker.prices
  {
    if es != [] {
      hide OnSignal, Settled;
      SignalsSettled(cfg, sys, es[..|es| - 1]);
      SignalSettled(cfg, OnSignals(cfg, sys, es[..|es| - 1]), es[|es| - 1]);
    }
  }

  /** With signals on priced symbols only, no order ever waits. */
  lemma {:induction false} WiredStaysSettled(cfg: Config, inputs: seq<Pipeline.Input>)
    requires Wired(cfg, inputs)
    ensures Settled(Pipeline.Run(cfg, inputs))
  {
    if inputs != [] {
      hide Arrive, OnSignals;
      var past, last := inputs[..|inputs| - 1], inputs[|inputs| - 1];
      WiredStaysSettled(cfg, past);
      ArriveSettled(cfg, Pipeline.Run(cfg, past), last);
      SignalsSettled(cfg, Arrive(cfg, Pipeline.Run(cfg, past), last), Emissions(last));
    }
  }

  /** The backtest's wiring: strategies signal the symbol of the bar or the non-zero tick they were given. */
  predicate Backtest(inputs: seq<Pipeline.Input>) {
    forall i :: 0 <= i < |inputs| ==>
      forall e :: e in Emissions(inputs[i]) ==>
        e.signal.symbol == inputs[i].symbol && (inputs[i].Tick? ==> inputs[i].price != 0.0)
  }

  lemma {:induction false} BacktestIsWired(cfg: Config, inputs: seq<Pipeline.Input>)
    requires Backtest(inputs)
    ensures Wired(cfg, inputs)
  {
    if inputs != [] {
      hide Arrive;
      var past, last := inputs[..|inputs| - 1], inputs[|inputs| - 1];
      BacktestIsWired(cfg, past);
      WiredStaysSettled(cfg, past);
      ArriveSettled(cfg, Pipeline.Run(cfg, past), last);
    }
  }

  // ---- why the tick must carry a price ----

  const LOOSE := Config(100.0, None, Limits(1, 1.0, 10.0, 1, 1.0),
                        Settings(Sizing(Fixed, 0.0, map[]), Broker.Market, 0.0), Broker.Terms(0.0, 0.0))

  function BuyOne(s: Symbol): Emission {
    Emission(Signal("any", s, Buy, 1), 0.0, 0.0, 0.0)
  }

  function Unpriced(s: Symbol): Pipeline.Input {
    Tick(s, 0.0, 0.0, 0.0, 0.0, [BuyOne(s)])
  }

  lemma HoldsUnpriced(sys: System, s: Symbol)
    requires sys.books == Flat(100.0, None) && !sys.killed && s !in sys.broker.prices
    ensures var next := Pipeline.Step(LOOSE, sys, Unpriced(s));
      && next.books == sys.books && !next.killed
      && next.broker == sys.broker.(counter := sys.broker.counter + 1,
           held := sys.broker.held + [Broker.Order(sys.broker.counter + 1, s, Buy, 1, Broker.Market, None)])
  {
    hide OnSignal;
    var seen := Arrive(LOOSE, sys, Unpriced(s));
    assert Emissions(Unpriced(s))[..0] == [];
    assert OnSignals(LOOSE, seen, [BuyOne(s)]) == OnSignal(LOOSE, seen, BuyOne(s));
    HoldsOrder(seen, s);
  }

  lemma HoldsOrder(sys: System, s: Symbol)
    requires sys.books.(marks := map[]) == Flat(100.0, None) && !sys.killed && s !in sys.broker.prices
    requires s in sys.lastTick && sys.lastTick[s] == 0.0
    ensures var next := OnSignal(LOOSE, sys, BuyOne(s));
      && next.books == sys.books && !next.killed
      && next.broker == sys.broker.(counter := sys.broker.counter + 1,
           held := sys.broker.held + [Broker.Order(sys.broker.counter + 1, s, Buy, 1, Broker.Market, None)])
  {
    ApprovesOne(sys.books, sys.lastTick, s);
    hide Approves, Books.NonZero, Books.Equity;
    assert sys.exec.RequestFor(LOOSE.settings, BuyOne(s).signal, 0.0)
        == Some(Broker.Request(s, Buy, 1, Broker.Market, None));
    DeliverNothing(BrokerStep(LOOSE, sys, BrokerLaws.Requested(Broker.Request(s, Buy, 1, Broker.Market, None))));
  }

  lemma ApprovesOne(books: Books, lastTick: map<Symbol, real>, s: Symbol)
    requires books.(marks := map[]) == Flat(100.0, None) && s in lastTick && lastTick[s] == 0.0
    ensures Approves(LOOSE.limits, false, books, lastTick, 0.0, BuyOne(s).signal)
  {
    assert books.Equity() == 100.0 && books.Snapshot().gross == 0.0 && books.NonZero() == 0;
  }

  lemma FirstPriceFills(sys: System, order: Broker.Order, rest: seq<Broker.Order>)
    requires sys.broker.held == [order] + rest && sys.broker.pending == []
    requires order.orderType.Market? && forall o :: o in rest ==> o.symbol != order.symbol
    ensures var next := Pipeline.Step(LOOSE, sys, Bar(order.symbol, 1.0, []));
      && next.books == sys.books.AfterFill(order.symbol, Fill(order.side, order.quantity, 1.0))
      && next.broker.held == rest && next.broker.pending == []
  {
    hide Apply, Books.Equity;
    var b := sys.broker;
    var ours, others := Broker.Of(order.symbol), Broker.NotOf(order.symbol);
    assert ([order] + rest)[1..] == rest;
    FilterEmpty(ours, rest);
    FilterAll(others, rest);
    assert Filter(ours, b.held) == [order] && Filter(others, b.held) == rest;
    BrokerLaws.PriceKeeps(LOOSE.terms, b, order.symbol, 1.0);
    assert [order][..0] == [];
    assert BrokerLaws.EachEvents(LOOSE.terms, [order][..0], 1.0) == [];
    var events := BrokerLaws.StepEvents(LOOSE.terms, b, BrokerLaws.Priced(order.symbol, 1.0));
    assert events == Broker.FillEvents(LOOSE.terms, order, 1.0);
    DeliverFill(sys.(broker := BrokerLaws.Step(LOOSE.terms, b, BrokerLaws.Priced(order.symbol, 1.0))),
                LOOSE.terms, order, 1.0);
  }

  /** Signals emitted on two ticks that carry no price are both approved while no position is open yet; their
      orders wait, and the first prices open two positions under a limit of one. */
  lemma UnpricedSignalsBreakTheLimit()
    ensures var a, b := Symbol("A"), Symbol("B");
      Pipeline.Run(LOOSE, [Unpriced(a), Unpriced(b), Bar(a, 1.0, []), Bar(b, 1.0, [])]).books.NonZero() == 2
      && LOOSE.limits.maxConcurrentPositions == 1
  {
    hide Pipeline.Step;
    var a, b := Symbol("A"), Symbol("B");
    assert a != b by { assert "A"[0] != "B"[0]; }
    var inputs := [Unpriced(a), Unpriced(b), Bar(a, 1.0, []), Bar(b, 1.0, [])];
    assert inputs[..3] == [Unpriced(a), Unpriced(b), Bar(a, 1.0, [])];
    assert inputs[..3][..2] == [Unpriced(a), Unpriced(b)];
    assert inputs[..3][..2][..1] == [Unpriced(a)];
    assert inputs[..3][..2][..1][..0] == [];
    var s0 := Fresh(LOOSE);
    var s1 := Pipeline.Step(LOOSE, s0, Unpriced(a));
    var s2 := Pipeline.Step(LOOSE, s1, Unpriced(b));
    var s3 := Pipeline.Step(LOOSE, s2, Bar(a, 1.0, []));
    assert RunFrom(LOOSE, s0, inputs[..3][..2]) == s2 by {
      assert RunFrom(LOOSE, s0, inputs[..3][..2][..1]) == s1;
    }
    assert RunFrom(LOOSE, s0, inputs[..3]) == s3;
    HoldsUnpriced(s0, a);
    HoldsUnpriced(s1, b);
    FirstPriceFills(s2, s2.broker.held[0], s2.broker.held[1..]);
    FirstPriceFills(s3, s3.broker.held[0], []);
    TwoOpen(a, b);
  }

  lemma TwoOpen(a: Symbol, b: Symbol)
    requires a != b
    ensures Flat(100.0, None).AfterFill(a, Fill(Buy, 1, 1.0)).AfterFill(b, Fill(Buy, 1, 1.0)).NonZero() == 2
  {
    var one := Flat(100.0, None).AfterFill(a, Fill(Buy, 1, 1.0));
    FillMovesNonZero(Flat(100.0, None), a, Fill(Buy, 1, 1.0));
    StepKeepsValid(Flat(100.0, None), Filled(a, Fill(Buy, 1, 1.0)));
    FillMovesNonZero(one, b, Fill(Buy, 1, 1.0));
  }

  // ---------------------------------------------------------------------------------------------
  // The kill switch
  // ---------------------------------------------------------------------------------------------

  /** A disconnect and the switch halt trading, and only the switch lifts the halt: bars and ticks leave it. */
  lemma HaltsAndLifts(cfg: Config, sys: System, input: Pipeline.Input)
    ensures Pipeline.Step(cfg, sys, input).killed
         == match input
            case Disconnect => true
            case KillSwitch(on) => on
            case _ => sys.killed
  {
    hide BrokerStep, MarkStep, Pipeline.OnSignals;
    var arrived := Arrive(cfg, sys, input);
    SignalsKeepHalt(cfg, arrived, Emissions(input));
    match input {
      case Bar(symbol, close, _) => BrokerStepKeepsHalt(cfg, sys, BrokerLaws.Priced(symbol, close));
      case Tick(symbol, price, bid, ask, time, _) =>
        var seen := Seen(sys, symbol, price, time);
        BrokerStepKeepsHalt(cfg, seen, BrokerLaws.Priced(symbol, price));
        var priced := if price != 0.0 then BrokerStep(cfg, seen, BrokerLaws.Priced(symbol, price)) else seen;
        MarkKeepsHalt(priced, symbol, TickPrice(price, bid, ask));
      case Disconnect =>
      case KillSwitch(_) =>
    }
  }

  lemma MarkKeepsHalt(sys: System, s: Symbol, price: Option<real>)
    ensures MarkStep(sys, s, price).killed == sys.killed
  {
  }

  lemma BrokerStepKeepsHalt(cfg: Config, sys: System, input: BrokerLaws.Input)
    ensures BrokerStep(cfg, sys, input).killed == sys.killed
  {
    DeliverKeepsRest(sys.(broker := BrokerLaws.Step(cfg.terms, sys.broker, input)),
                     BrokerLaws.StepEvents(cfg.terms, sys.broker, input));
  }

  lemma {:induction false} SignalsKeepHalt(cfg: Config, sys: System, es: seq<Emission>)
    ensures Pipeline.OnSignals(cfg, sys, es).killed == sys.killed
  {
    if es != [] {
      hide BrokerStep, RequestOf;
      var mid := Pipeline.OnSignals(cfg, sys, es[..|es| - 1]);
      SignalsKeepHalt(cfg, sys, es[..|es| - 1]);
      match RequestOf(cfg, mid, es[|es| - 1]) {
        case None =>
        case Some(request) => BrokerStepKeepsHalt(cfg, mid, BrokerLaws.Requested(request));
      }
    }
  }

  /** Once the switch is on, and until it is turned off, the broker receives no order at all. */
  lemma {:induction false} KilledTakesNoOrders(cfg: Config, sys: System, inputs: seq<Pipeline.Input>)
    requires sys.killed && forall i :: 0 <= i < |inputs| ==> inputs[i] != KillSwitch(false)
    ensures RunFrom(cfg, sys, inputs).killed && RunFrom(cfg, sys, inputs).broker.counter == sys.broker.counter
  {
    if inputs != [] {
      var past, last := inputs[..|inputs| - 1], inputs[|inputs| - 1];
      KilledTakesNoOrders(cfg, sys, past);
      ArriveKilled(cfg, RunFrom(cfg, sys, past), last);
      SignalsKilled(cfg, Arrive(cfg, RunFrom(cfg, sys, past), last), Emissions(last));
    }
  }

  lemma ArriveKilled(cfg: Config, sys: System, input: Pipeline.Input)
    requires sys.killed && input != KillSwitch(false)
    ensures Arrive(cfg, sys, input).killed && Arrive(cfg, sys, input).broker.counter == sys.broker.counter
  {
    if input.Bar? || input.Tick? {
      var price := if input.Bar? then input.close else input.price;
      var arrived := BrokerLaws.Priced(input.symbol, price);
      var seen := if input.Bar? then sys else Seen(sys, input.symbol, price, input.time);
      BrokerLaws.PriceKeeps(cfg.terms, sys.broker, input.symbol, price);
      DeliverKeepsRest(seen.(broker := BrokerLaws.Step(cfg.terms, sys.broker, arrived)),
                       BrokerLaws.StepEvents(cfg.terms, sys.broker, arrived));
    }
  }

  lemma {:induction false} SignalsKilled(cfg: Config, sys: System, es: seq<Emission>)
    requires sys.killed
    ensures OnSignals(cfg, sys, es) == sys
  {
    if es != [] {
      SignalsKilled(cfg, sys, es[..|es| - 1]);
    }
  }
}
