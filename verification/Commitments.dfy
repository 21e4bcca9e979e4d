/** The position limit, exactly. Risk counts open positions only; an order that waits for a first price is a
    position to come. What is open and what waits together are the commitments. */
module Commitments {
  import opened Basics
  import opened Execution
  import opened Ledger
  import opened Pipeline
  import opened PipelineLaws
  import opened Portfolio
  import opened PortfolioLaws
  import opened Risk
  import opened Sequences
  import opened Sums
  import Broker
  import BrokerLaws

  /** How an order will move its symbol's quantity. */
  function SignedOf(order: Broker.Order): int {
    Fill(order.side, order.quantity, 0.0).Signed()
  }

  function NetOf(orders: seq<Broker.Order>, s: Symbol): int {
    if orders == [] then 0
    else
      var last := orders[|orders| - 1];
      NetOf(orders[..|orders| - 1], s) + if last.symbol == s then SignedOf(last) else 0
  }

  /** The quantity of a symbol once its held orders have been filled. */
  function Eventual(sys: System, s: Symbol): int {
    sys.books.LotOf(s).quantity + NetOf(sys.broker.held, s)
  }

  function Touched(sys: System): seq<Symbol> {
    sys.books.symbols + seq(|sys.broker.held|, i requires 0 <= i < |sys.broker.held| => sys.broker.held[i].symbol)
  }

  ghost function CommittedSymbols(sys: System): set<Symbol> {
    set s | s in Touched(sys) && Eventual(sys, s) != 0
  }

  /** The number of symbols whose open quantity and held orders together are not zero. */
  ghost function Committed(sys: System): nat {
    |CommittedSymbols(sys)|
  }

  /** Only market orders wait, on symbols without a price; a symbol without a price is flat. */
  ghost predicate Orderly(sys: System) {
    && sys.books.Valid() && sys.broker.pending == []
    && (forall o :: o in sys.broker.held ==> o.orderType.Market? && o.symbol !in sys.broker.prices)
    && (forall s :: s !in sys.broker.prices ==> sys.books.LotOf(s).quantity == 0)
  }

  // ---------------------------------------------------------------------------------------------
  // Counting commitments
  // ---------------------------------------------------------------------------------------------

  lemma {:induction false} NetOfAbsent(orders: seq<Broker.Order>, s: Symbol)
    requires forall o :: o in orders ==> o.symbol != s
    ensures NetOf(orders, s) == 0
  {
    if orders != [] {
      assert orders[|orders| - 1] in orders;
      NetOfAbsent(orders[..|orders| - 1], s);
    }
  }

  lemma NetOfNext(orders: seq<Broker.Order>, order: Broker.Order, s: Symbol)
    ensures NetOf(orders + [order], s) == NetOf(orders, s) + if order.symbol == s then SignedOf(order) else 0
  {
    assert (orders + [order])[..|orders|] == orders;
  }

  lemma {:induction false} NetOfKept(p: Broker.Order -> bool, orders: seq<Broker.Order>, s: Symbol)
    requires forall o :: o in orders && o.symbol == s ==> p(o)
    ensures NetOf(Filter(p, orders), s) == NetOf(orders, s)
  {
    if orders != [] {
      hide SignedOf;
      var rest, last := orders[..|orders| - 1], orders[|orders| - 1];
      assert last in orders;
      NetOfKept(p, rest, s);
      FilterLast(p, orders);
      if p(last) {
        NetOfNext(Filter(p, rest), last, s);
      } else {
        assert Filter(p, orders) == Filter(p, rest);
      }
    }
  }

  /** A selection by symbol holds all of its orders and none of the others. */
  lemma NetOfSelection(orders: seq<Broker.Order>, symbol: Symbol, s: Symbol)
    ensures NetOf(Filter(Broker.Of(symbol), orders), s) == if s == symbol then NetOf(orders, s) else 0
    ensures NetOf(Filter(Broker.NotOf(symbol), orders), s) == if s == symbol then 0 else NetOf(orders, s)
  {
    hide NetOf, Filter;
    var ours, others := Broker.Of(symbol), Broker.NotOf(symbol);
    FilterMembers(ours, orders);
    FilterMembers(others, orders);
    if s == symbol {
      NetOfKept(ours, orders, s);
      NetOfAbsent(Filter(others, orders), s);
    } else {
      NetOfKept(others, orders, s);
      NetOfAbsent(Filter(ours, orders), s);
    }
  }

  lemma CommittedMembers(sys: System)
    requires sys.books.Valid()
    ensures forall s :: s in CommittedSymbols(sys) <==> Eventual(sys, s) != 0
  {
    forall s | Eventual(sys, s) != 0 ensures s in Touched(sys) {
      if s !in sys.books.symbols {
        if forall o :: o in sys.broker.held ==> o.symbol != s {
          NetOfAbsent(sys.broker.held, s);
        } else {
          var i :| 0 <= i < |sys.broker.held| && sys.broker.held[i].symbol == s;
          assert Touched(sys)[|sys.books.symbols| + i] == s;
        }
      }
    }
  }

  lemma SameCommitments(a: System, b: System)
    requires a.books.Valid() && b.books.Valid() && forall s :: Eventual(a, s) == Eventual(b, s)
    ensures Committed(a) == Committed(b)
  {
    hide Eventual;
    CommittedMembers(a);
    CommittedMembers(b);
    assert CommittedSymbols(a) == CommittedSymbols(b);
  }

  /** When one symbol's commitment changes, the count changes by what happens at that symbol. */
  lemma OneCommitment(a: System, b: System, k: Symbol)
    requires a.books.Valid() && b.books.Valid() && forall s :: s != k ==> Eventual(a, s) == Eventual(b, s)
    ensures Committed(b) == Committed(a)
            + (if Eventual(b, k) != 0 then 1 else 0) - (if Eventual(a, k) != 0 then 1 else 0)
  {
    hide Eventual, Books.Valid, CommittedSymbols;
    CommittedMembers(a);
    CommittedMembers(b);
    SizeWithout(CommittedSymbols(a), k);
    SizeWithout(CommittedSymbols(b), k);
    assert CommittedSymbols(a) - {k} == CommittedSymbols(b) - {k};
  }

  lemma SizeWithout<T>(xs: set<T>, x: T)
    ensures |xs| == |xs - {x}| + if x in xs then 1 else 0
  {
    if x in xs {
      assert xs == (xs - {x}) + {x};
    } else {
      assert xs == xs - {x};
    }
  }

  /** The symbols whose held orders do not cancel out. */
  ghost function WaitingSymbols(sys: System): set<Symbol> {
    set s | s in Touched(sys) && NetOf(sys.broker.held, s) != 0
  }

  /** Commitments are open positions and, apart from them, symbols waited for; with nothing held there are no
      others than the open ones. */
  lemma OpenAndWaiting(sys: System)
    requires Orderly(sys)
    ensures Committed(sys) == sys.books.NonZero() + |WaitingSymbols(sys)|
    ensures sys.broker.held == [] ==> WaitingSymbols(sys) == {}
  {
    hide Touched;
    var p := sys.books.Open();
    CountIsSize(sys.books.symbols, p);
    CommittedMembers(sys);
    var open := set s | s in sys.books.symbols && p(s);
    forall s ensures s in CommittedSymbols(sys) <==> s in open || s in WaitingSymbols(sys)
             ensures !(s in open && s in WaitingSymbols(sys)) {
      OneOrTheOther(sys, s);
    }
    assert CommittedSymbols(sys) == open + WaitingSymbols(sys) && open !! WaitingSymbols(sys);
  }

  lemma OneOrTheOther(sys: System, s: Symbol)
    requires Orderly(sys)
    ensures sys.books.LotOf(s).quantity == 0 || NetOf(sys.broker.held, s) == 0
    ensures sys.books.LotOf(s).quantity != 0 ==> s in sys.books.symbols
    ensures NetOf(sys.broker.held, s) != 0 ==> s in Touched(sys)
  {
    if forall o :: o in sys.broker.held ==> o.symbol != s {
      NetOfAbsent(sys.broker.held, s);
    } else {
      var i :| 0 <= i < |sys.broker.held| && sys.broker.held[i].symbol == s;
      assert Touched(sys)[|sys.books.symbols| + i] == s;
      assert sys.broker.held[i] in sys.broker.held;
    }
  }

  // ---------------------------------------------------------------------------------------------
  // What each step does to the commitments
  // ---------------------------------------------------------------------------------------------

  /** Filling orders moves each symbol's quantity by its orders' signed sizes. */
  lemma {:induction false} DeliverQuantities(sys: System, terms: Broker.Terms, orders: seq<Broker.Order>, price: real)
    requires sys.books.Valid()
    ensures var next := Deliver(sys, BrokerLaws.EachEvents(terms, orders, price));
      && next.books.Valid() && next.broker == sys.broker
      && forall s :: next.books.LotOf(s).quantity == sys.books.LotOf(s).quantity + NetOf(orders, s)
  {
    if orders != [] {
      hide Books.Valid, Apply, Fill.Signed;
      var past, order := orders[..|orders| - 1], orders[|orders| - 1];
      var at := Broker.PriceFor(order, price);
      DeliverQuantities(sys, terms, past, price);
      DeliverConcat(sys, BrokerLaws.EachEvents(terms, past, price), Broker.FillEvents(terms, order, at));
      DeliverOrder(Deliver(sys, BrokerLaws.EachEvents(terms, past, price)), terms, order, at);
    }
  }

  lemma DeliverOrder(sys: System, terms: Broker.Terms, order: Broker.Order, price: real)
    requires sys.books.Valid()
    ensures var next := Deliver(sys, Broker.FillEvents(terms, order, price));
      && next.books.Valid() && next.broker == sys.broker
      && forall s :: next.books.LotOf(s).quantity
                  == sys.books.LotOf(s).quantity + if order.symbol == s then SignedOf(order) else 0
  {
    hide Deliver, Books.AfterFill, Broker.FillEvents, Broker.Terms.Slip;
    var fill := Fill(order.side, order.quantity, terms.Slip(price, order.side));
    DeliverFill(sys, terms, order, price);
    FillMovesQuantity(sys.books, order.symbol, fill);
    assert fill.Signed() == SignedOf(order);
  }

  lemma FillMovesQuantity(b: Books, symbol: Symbol, fill: Fill)
    requires b.Valid()
    ensures var next := b.AfterFill(symbol, fill);
      && next.Valid()
      && forall s :: next.LotOf(s).quantity == b.LotOf(s).quantity + if symbol == s then fill.Signed() else 0
  {
    hide Apply, Lot.Balance, Fill.Cash, DropsCost, Fill.Signed;
    StepKeepsValid(b, Filled(symbol, fill));
    StepBalancesIff(b.LotOf(symbol), fill);
  }

  /** A price turns held orders into positions and changes no commitment. */
  lemma PriceCommits(cfg: Config, sys: System, symbol: Symbol, price: real)
    requires Orderly(sys)
    ensures var next := BrokerStep(cfg, sys, BrokerLaws.Priced(symbol, price));
      && Orderly(next) && (forall s :: Eventual(next, s) == Eventual(sys, s))
      && next.broker.held == Filter(Broker.NotOf(symbol), sys.broker.held)
  {
    hide NetOf, Books.Valid, Deliver;
    var b := sys.broker;
    var ours := Filter(Broker.Of(symbol), b.held);
    var mid := sys.(broker := BrokerLaws.Step(cfg.terms, b, BrokerLaws.Priced(symbol, price)));
    BrokerLaws.PriceKeeps(cfg.terms, b, symbol, price);
    FilterMembers(Broker.NotOf(symbol), b.held);
    assert BrokerLaws.StepEvents(cfg.terms, b, BrokerLaws.Priced(symbol, price))
        == BrokerLaws.EachEvents(cfg.terms, ours, price) by {
      var events := BrokerLaws.EachEvents(cfg.terms, ours, price);
      assert events + [] == events;
    }
    DeliverQuantities(mid, cfg.terms, ours, price);
    forall s ensures NetOf(ours, s) == (if s == symbol then NetOf(b.held, s) else 0)
                     && NetOf(mid.broker.held, s) == (if s == symbol then 0 else NetOf(b.held, s)) {
      NetOfSelection(b.held, symbol, s);
    }
    forall s | s !in mid.broker.prices ensures NetOf(ours, s) == 0 && s !in b.prices {
    }
  }

  /** A request commits its symbol to the order's signed size if market orders are sent, and to nothing
      otherwise: execution sets no limit price, without which the broker drops a limit order. */
  lemma RequestCommits(cfg: Config, sys: System, request: Broker.Request)
    requires Orderly(sys) && request.limitPrice == None
    ensures var next := BrokerStep(cfg, sys, BrokerLaws.Requested(request));
      && Orderly(next)
      && forall s :: Eventual(next, s) == Eventual(sys, s)
                     + if s == request.symbol && request.orderType.Market?
                       then SignedOf(Broker.OrderFor(request, 0)) else 0
  {
    hide NetOf, Books.Valid, Deliver, Fill.Signed;
    var b := sys.broker;
    var order := Broker.OrderFor(request, b.counter + 1);
    var mid := sys.(broker := BrokerLaws.Step(cfg.terms, b, BrokerLaws.Requested(request)));
    assert Deliver(mid, []) == mid by { DeliverNothing(mid); }
    if order.orderType.Market? {
      if order.symbol in b.prices {
        DeliverOrder(mid, cfg.terms, order, b.prices[order.symbol]);
      } else {
        forall s
          ensures NetOf(b.held + [order], s) == NetOf(b.held, s) + if order.symbol == s then SignedOf(order) else 0
        {
          NetOfNext(b.held, order, s);
        }
      }
    }
  }

  lemma ArriveCommits(cfg: Config, sys: System, input: Pipeline.Input)
    requires Orderly(sys)
    ensures Orderly(Arrive(cfg, sys, input)) && forall s :: Eventual(Arrive(cfg, sys, input), s) == Eventual(sys, s)
  {
    hide BrokerStep, NetOf, Pipeline.OnTick;
    match input {
      case Bar(symbol, close, _) => PriceCommits(cfg, sys, symbol, close);
      case Tick(symbol, price, bid, ask, time, _) => TickCommits(cfg, sys, symbol, price, bid, ask, time);
      case Disconnect =>
      case KillSwitch(_) =>
    }
  }

  lemma TickCommits(cfg: Config, sys: System, symbol: Symbol, price: real, bid: real, ask: real, time: real)
    requires Orderly(sys)
    ensures var next := Pipeline.OnTick(cfg, sys, symbol, price, bid, ask, time);
      Orderly(next) && forall s :: Eventual(next, s) == Eventual(sys, s)
  {
    hide BrokerStep, NetOf, Orderly, MarkStep;
    var seen := Seen(sys, symbol, price, time);
    assert Orderly(seen) by { SameOrder(sys, seen); }
    PriceCommits(cfg, seen, symbol, price);
    var priced := if price != 0.0 then BrokerStep(cfg, seen, BrokerLaws.Priced(symbol, price)) else seen;
    MarkCommits(priced, symbol, TickPrice(price, bid, ask));
  }

  lemma SameOrder(a: System, b: System)
    requires Orderly(a) && a.books == b.books && a.broker == b.broker
    ensures Orderly(b)
  {
  }

  lemma MarkCommits(sys: System, symbol: Symbol, price: Option<real>)
    requires Orderly(sys)
    ensures var next := MarkStep(sys, symbol, price);
      Orderly(next) && forall s :: Eventual(next, s) == Eventual(sys, s)
  {
    hide NetOf, Books.Equity;
  }

  /** The change a signal makes to its symbol's commitment. */
  ghost function Added(cfg: Config, sys: System, e: Emission): int {
    match RequestOf(cfg, sys, e)
    case None => 0
    case Some(request) => if request.orderType.Market? then SignedOf(Broker.OrderFor(request, 0)) else 0
  }

  lemma SignalCommits(cfg: Config, sys: System, e: Emission)
    requires Orderly(sys)
    ensures var next := OnSignal(cfg, sys, e);
      && Orderly(next)
      && forall s :: Eventual(next, s) == Eventual(sys, s) + if s == e.signal.symbol then Added(cfg, sys, e) else 0
  {
    hide BrokerStep, NetOf, SignedOf, Exec.SizeOf, Exec.Throttles, Approves;
    match RequestOf(cfg, sys, e) {
      case None =>
      case Some(request) => RequestCommits(cfg, sys, request);
    }
  }

  // ---------------------------------------------------------------------------------------------
  // The exact condition at one moment
  // ---------------------------------------------------------------------------------------------

  /** Inputs on which strategies emit nothing: prices and switch operations. */
  predicate PriceOnly(inputs: seq<Pipeline.Input>) {
    forall i :: 0 <= i < |inputs| ==> Emissions(inputs[i]) == []
  }

  /** Whatever prices come next, the open positions stay within the limit. */
  ghost predicate StaysWithin(cfg: Config, sys: System) {
    forall inputs :: PriceOnly(inputs) ==> RunFrom(cfg, sys, inputs).books.NonZero() <= Cap(cfg)
  }

  lemma {:induction false} PricesKeepCommitments(cfg: Config, sys: System, inputs: seq<Pipeline.Input>)
    requires Orderly(sys) && PriceOnly(inputs)
    ensures var next := RunFrom(cfg, sys, inputs);
      && Orderly(next) && (forall s :: Eventual(next, s) == Eventual(sys, s)) && Committed(next) == Committed(sys)
  {
    if inputs != [] {
      hide Arrive, Eventual;
      var past, last := inputs[..|inputs| - 1], inputs[|inputs| - 1];
      PricesKeepCommitments(cfg, sys, past);
      ArriveCommits(cfg, RunFrom(cfg, sys, past), last);
      assert RunFrom(cfg, sys, inputs) == Arrive(cfg, RunFrom(cfg, sys, past), last);
      SameCommitments(sys, RunFrom(cfg, sys, inputs));
    }
  }

  /** One bar for each held order. */
  function Clearing(held: seq<Broker.Order>): seq<Pipeline.Input> {
    seq(|held|, i requires 0 <= i < |held| => Bar(held[i].symbol, 1.0, []))
  }

  /** Pricing the held orders' symbols one after the other leaves none of them waiting. */
  lemma {:induction false} ClearingClears(cfg: Config, sys: System, k: nat)
    requires Orderly(sys) && k <= |sys.broker.held|
    ensures var left := RunFrom(cfg, sys, Clearing(sys.broker.held)[..k]).broker.held;
      && (forall o :: o in left ==> o in sys.broker.held)
      && (forall i :: 0 <= i < k ==> AllUnlike(left, sys.broker.held[i].symbol))
    decreases k
  {
    hide Orderly, Eventual, NetOf, AllUnlike, Clearing, Pipeline.Step;
    if k > 0 {
      var held := sys.broker.held;
      var inputs := Clearing(held);
      assert |inputs| == |held| && inputs[k - 1] == Bar(held[k - 1].symbol, 1.0, []) by { ClearingAt(held, k - 1); }
      ClearingClears(cfg, sys, k - 1);
      ClearingIsQuiet(held, k - 1);
      PricesKeepCommitments(cfg, sys, inputs[..k - 1]);
      RunNext(cfg, sys, inputs, k - 1);
      BarReleases(cfg, RunFrom(cfg, sys, inputs[..k - 1]), held[k - 1].symbol, held, k - 1);
    }
  }

  predicate AllUnlike(orders: seq<Broker.Order>, symbol: Symbol) {
    forall o :: o in orders ==> o.symbol != symbol
  }

  lemma ClearingAt(held: seq<Broker.Order>, i: nat)
    requires i < |held|
    ensures |Clearing(held)| == |held| && Clearing(held)[i] == Bar(held[i].symbol, 1.0, [])
  {
  }

  lemma ClearingIsQuiet(held: seq<Broker.Order>, k: nat)
    requires k <= |held|
    ensures PriceOnly(Clearing(held)[..k])
  {
    var inputs := Clearing(held)[..k];
    forall i | 0 <= i < k ensures Emissions(inputs[i]) == [] {
      ClearingAt(held, i);
    }
  }

  lemma RunNext(cfg: Config, sys: System, inputs: seq<Pipeline.Input>, k: nat)
    requires k < |inputs|
    ensures RunFrom(cfg, sys, inputs[..k + 1]) == Pipeline.Step(cfg, RunFrom(cfg, sys, inputs[..k]), inputs[k])
  {
    hide Pipeline.Step;
    assert inputs[..k + 1][..k] == inputs[..k];
  }

  lemma BarReleases(cfg: Config, sys: System, symbol: Symbol, held: seq<Broker.Order>, k: nat)
    requires Orderly(sys) && k <= |held| && forall i :: 0 <= i < k ==> AllUnlike(sys.broker.held, held[i].symbol)
    ensures var left := Pipeline.Step(cfg, sys, Bar(symbol, 1.0, [])).broker.held;
      && (forall o :: o in left ==> o in sys.broker.held) && AllUnlike(left, symbol)
      && (forall i :: 0 <= i < k ==> AllUnlike(left, held[i].symbol))
  {
    hide BrokerStep, Orderly, Eventual;
    BarOnly(cfg, sys, symbol);
    PriceCommits(cfg, sys, symbol, 1.0);
    FilterMembers(Broker.NotOf(symbol), sys.broker.held);
    var left := Pipeline.Step(cfg, sys, Bar(symbol, 1.0, [])).broker.held;
    forall i | 0 <= i < k ensures AllUnlike(left, held[i].symbol) {
      assert AllUnlike(sys.broker.held, held[i].symbol);
    }
  }

  lemma BarOnly(cfg: Config, sys: System, symbol: Symbol)
    ensures Pipeline.Step(cfg, sys, Bar(symbol, 1.0, [])) == BrokerStep(cfg, sys, BrokerLaws.Priced(symbol, 1.0))
  {
  }

  /** From any moment on, the open positions stay within the limit under every sequence of prices if and only
      if the commitments are within it now. */
  lemma StaysWithinIff(cfg: Config, sys: System)
    requires Orderly(sys)
    ensures StaysWithin(cfg, sys) <==> Committed(sys) <= Cap(cfg)
  {
    hide Orderly, Eventual, Committed, RunFrom;
    if Committed(sys) <= Cap(cfg) {
      forall inputs | PriceOnly(inputs) ensures RunFrom(cfg, sys, inputs).books.NonZero() <= Cap(cfg) {
        PricesKeepCommitments(cfg, sys, inputs);
        OpenAndWaiting(RunFrom(cfg, sys, inputs));
      }
    } else {
      var inputs := Clearing(sys.broker.held);
      ClearingOpens(cfg, sys);
      assert PriceOnly(inputs) && RunFrom(cfg, sys, inputs).books.NonZero() > Cap(cfg);
    }
  }

  lemma ClearingOpens(cfg: Config, sys: System)
    requires Orderly(sys)
    ensures RunFrom(cfg, sys, Clearing(sys.broker.held)).books.NonZero() == Committed(sys)
  {
    hide Orderly, Eventual, Committed, RunFrom, PriceOnly;
    var inputs := Clearing(sys.broker.held);
    assert inputs[..|sys.broker.held|] == inputs;
    ClearingClears(cfg, sys, |sys.broker.held|);
    ClearingIsQuiet(sys.broker.held, |inputs|);
    PricesKeepCommitments(cfg, sys, inputs);
    NoneLeft(RunFrom(cfg, sys, inputs).broker.held, sys.broker.held);
    OpenAndWaiting(RunFrom(cfg, sys, inputs));
  }

  lemma NoneLeft(left: seq<Broker.Order>, held: seq<Broker.Order>)
    requires forall o :: o in left ==> o in held
    requires forall i :: 0 <= i < |held| ==> AllUnlike(left, held[i].symbol)
    ensures left == []
  {
    hide AllUnlike;
    if left != [] {
      var o := left[0];
      assert o in left && o in held;
      var i :| 0 <= i < |held| && held[i] == o;
      UnlikeEach(left, held[i].symbol, o);
    }
  }

  lemma UnlikeEach(orders: seq<Broker.Order>, symbol: Symbol, o: Broker.Order)
    requires AllUnlike(orders, symbol) && o in orders
    ensures o.symbol != symbol
  {
  }

  /** The signals that break the limit: an order for a symbol that is neither open nor waited for, when the
      commitments fill the limit already. */
  ghost predicate Overcommits(cfg: Config, sys: System, e: Emission) {
    Eventual(sys, e.signal.symbol) == 0 && Added(cfg, sys, e) != 0 && Committed(sys) >= Cap(cfg)
  }

  lemma SignalKeepsIff(cfg: Config, sys: System, e: Emission)
    requires Orderly(sys) && Committed(sys) <= Cap(cfg)
    ensures Committed(OnSignal(cfg, sys, e)) <= Cap(cfg) <==> !Overcommits(cfg, sys, e)
  {
    hide Eventual, Added, OnSignal;
    SignalCommits(cfg, sys, e);
    OneCommitment(sys, OnSignal(cfg, sys, e), e.signal.symbol);
  }

  // ---------------------------------------------------------------------------------------------
  // The exact condition over a run
  // ---------------------------------------------------------------------------------------------

  /** The system after j signals on the k-th input. */
  ghost function Moment(cfg: Config, inputs: seq<Pipeline.Input>, k: nat, j: nat): System
    requires k < |inputs| && j <= |Emissions(inputs[k])|
  {
    OnSignals(cfg, Arrive(cfg, Pipeline.Run(cfg, inputs[..k]), inputs[k]), Emissions(inputs[k])[..j])
  }

  lemma MomentStarts(cfg: Config, inputs: seq<Pipeline.Input>, k: nat)
    requires k < |inputs|
    ensures Moment(cfg, inputs, k, 0) == Arrive(cfg, Pipeline.Run(cfg, inputs[..k]), inputs[k])
  {
    assert Emissions(inputs[k])[..0] == [];
  }

  lemma MomentNext(cfg: Config, inputs: seq<Pipeline.Input>, k: nat, j: nat)
    requires k < |inputs| && j < |Emissions(inputs[k])|
    ensures Moment(cfg, inputs, k, j + 1) == OnSignal(cfg, Moment(cfg, inputs, k, j), Emissions(inputs[k])[j])
  {
    hide OnSignal, Arrive;
    assert Emissions(inputs[k])[..j + 1][..j] == Emissions(inputs[k])[..j];
  }

  lemma MomentEnds(cfg: Config, inputs: seq<Pipeline.Input>, k: nat)
    requires k < |inputs|
    ensures Pipeline.Run(cfg, inputs[..k + 1]) == Moment(cfg, inputs, k, |Emissions(inputs[k])|)
  {
    hide OnSignals, Arrive;
    assert inputs[..k + 1][..k] == inputs[..k];
    assert Emissions(inputs[k])[..|Emissions(inputs[k])|] == Emissions(inputs[k]);
  }

  lemma {:induction false} MomentIsOrderly(cfg: Config, inputs: seq<Pipeline.Input>, k: nat, j: nat)
    requires k < |inputs| && j <= |Emissions(inputs[k])|
    ensures Orderly(Moment(cfg, inputs, k, j))
    decreases k, j, 1
  {
    hide Moment, Orderly, Arrive, Eventual;
    if j > 0 {
      MomentIsOrderly(cfg, inputs, k, j - 1);
      MomentNext(cfg, inputs, k, j - 1);
      SignalCommits(cfg, Moment(cfg, inputs, k, j - 1), Emissions(inputs[k])[j - 1]);
    } else {
      RunIsOrderly(cfg, inputs, k);
      MomentStarts(cfg, inputs, k);
      ArriveCommits(cfg, Pipeline.Run(cfg, inputs[..k]), inputs[k]);
    }
  }

  lemma {:induction false} RunIsOrderly(cfg: Config, inputs: seq<Pipeline.Input>, k: nat)
    requires k <= |inputs|
    ensures Orderly(Pipeline.Run(cfg, inputs[..k]))
    decreases k, 0, 0
  {
    hide Moment, Orderly, Pipeline.Step;
    if k == 0 {
      assert inputs[..0] == [];
      FreshIsOrderly(cfg);
    } else {
      MomentIsOrderly(cfg, inputs, k - 1, |Emissions(inputs[k - 1])|);
      MomentEnds(cfg, inputs, k - 1);
    }
  }

  lemma FreshIsOrderly(cfg: Config)
    ensures Orderly(Fresh(cfg))
  {
  }

  /** No signal up to the j-th on the k-th input breaks the limit. */
  ghost predicate CarefulUpTo(cfg: Config, inputs: seq<Pipeline.Input>, k: nat, j: nat) {
    forall k', j' :: 0 <= k' < |inputs| && 0 <= j' < |Emissions(inputs[k'])| && (k' < k || (k' == k && j' < j)) ==>
      !Overcommits(cfg, Moment(cfg, inputs, k', j'), Emissions(inputs[k'])[j'])
  }

  lemma {:induction false} CarefulMoments(cfg: Config, inputs: seq<Pipeline.Input>, k: nat, j: nat)
    requires k < |inputs| && j <= |Emissions(inputs[k])| && CarefulUpTo(cfg, inputs, k, j)
    ensures Committed(Moment(cfg, inputs, k, j)) <= Cap(cfg)
    decreases k, j
  {
    hide Moment, Arrive, Eventual, Overcommits, Committed;
    if j > 0 {
      CarefulMoments(cfg, inputs, k, j - 1);
      MomentIsOrderly(cfg, inputs, k, j - 1);
      MomentNext(cfg, inputs, k, j - 1);
      SignalKeepsIff(cfg, Moment(cfg, inputs, k, j - 1), Emissions(inputs[k])[j - 1]);
    } else {
      RunIsOrderly(cfg, inputs, k);
      MomentStarts(cfg, inputs, k);
      ArriveCommits(cfg, Pipeline.Run(cfg, inputs[..k]), inputs[k]);
      SameCommitments(Pipeline.Run(cfg, inputs[..k]), Moment(cfg, inputs, k, 0));
      if k > 0 {
        CarefulMoments(cfg, inputs, k - 1, |Emissions(inputs[k - 1])|);
        MomentEnds(cfg, inputs, k - 1);
      } else {
        assert inputs[..0] == [];
        FreshIsUncommitted(cfg);
      }
    }
  }

  lemma FreshIsUncommitted(cfg: Config)
    ensures Committed(Fresh(cfg)) == 0
  {
    assert CommittedSymbols(Fresh(cfg)) == {};
  }

  /** The position limit holds at every moment of a run and under all prices that may follow it, if and only if
      no signal asks for a new symbol when open and waiting positions fill the limit. */
  lemma PositionLimitIff(cfg: Config, inputs: seq<Pipeline.Input>)
    ensures (forall k, j :: 0 <= k < |inputs| && 0 <= j <= |Emissions(inputs[k])| ==>
               StaysWithin(cfg, Moment(cfg, inputs, k, j)))
       <==> (forall k, j :: 0 <= k < |inputs| && 0 <= j < |Emissions(inputs[k])| ==>
               !Overcommits(cfg, Moment(cfg, inputs, k, j), Emissions(inputs[k])[j]))
  {
    hide Moment, StaysWithin, Overcommits, Orderly, Committed;
    forall k, j | 0 <= k < |inputs| && 0 <= j <= |Emissions(inputs[k])|
      ensures StaysWithin(cfg, Moment(cfg, inputs, k, j)) <==> Committed(Moment(cfg, inputs, k, j)) <= Cap(cfg)
    {
      MomentIsOrderly(cfg, inputs, k, j);
      StaysWithinIff(cfg, Moment(cfg, inputs, k, j));
    }
    if forall k, j :: 0 <= k < |inputs| && 0 <= j < |Emissions(inputs[k])| ==>
         !Overcommits(cfg, Moment(cfg, inputs, k, j), Emissions(inputs[k])[j]) {
      forall k, j | 0 <= k < |inputs| && 0 <= j <= |Emissions(inputs[k])|
        ensures StaysWithin(cfg, Moment(cfg, inputs, k, j))
      {
        CarefulMoments(cfg, inputs, k, j);
      }
    } else {
      var k, j :| 0 <= k < |inputs| && 0 <= j < |Emissions(inputs[k])|
                  && Overcommits(cfg, Moment(cfg, inputs, k, j), Emissions(inputs[k])[j]);
      MomentIsOrderly(cfg, inputs, k, j);
      MomentNext(cfg, inputs, k, j);
      if Committed(Moment(cfg, inputs, k, j)) <= Cap(cfg) {
        SignalKeepsIff(cfg, Moment(cfg, inputs, k, j), Emissions(inputs[k])[j]);
        assert !StaysWithin(cfg, Moment(cfg, inputs, k, j + 1));
      } else {
        assert !StaysWithin(cfg, Moment(cfg, inputs, k, j));
      }
    }
  }

  // ---------------------------------------------------------------------------------------------
  // Backtests are careful
  // ---------------------------------------------------------------------------------------------

  /** With nothing waiting, what risk counts is all there is. */
  lemma SettledNeverOvercommits(cfg: Config, sys: System, e: Emission)
    requires Orderly(sys) && Settled(sys)
    ensures !Overcommits(cfg, sys, e)
  {
    hide Committed, Books.NonZero, Books.Equity, Books.Leverage, Exec.SizeOf, Exec.Throttles, SignedOf;
    OpenAndWaiting(sys);
  }

  lemma {:induction false} WiredPrefix(cfg: Config, inputs: seq<Pipeline.Input>, k: nat)
    requires Wired(cfg, inputs) && k <= |inputs|
    ensures Wired(cfg, inputs[..k])
  {
    hide Arrive;
    if k < |inputs| {
      WiredPrefix(cfg, inputs[..|inputs| - 1], k);
      assert inputs[..|inputs| - 1][..k] == inputs[..k];
    } else {
      assert inputs[..k] == inputs;
    }
  }

  lemma WiredMomentSettled(cfg: Config, inputs: seq<Pipeline.Input>, k: nat, j: nat)
    requires Wired(cfg, inputs) && k < |inputs| && j <= |Emissions(inputs[k])|
    ensures Settled(Moment(cfg, inputs, k, j))
  {
    hide Arrive, OnSignals, Settled;
    WiredPrefix(cfg, inputs, k + 1);
    assert inputs[..k + 1][..k] == inputs[..k];
    WiredStaysSettled(cfg, inputs[..k]);
    ArriveSettled(cfg, Pipeline.Run(cfg, inputs[..k]), inputs[k]);
    SignalsSettled(cfg, Arrive(cfg, Pipeline.Run(cfg, inputs[..k]), inputs[k]), Emissions(inputs[k])[..j]);
  }

  /** When signals name priced symbols only, the position limit holds at every moment of the run, whatever the
      strategies emit, through flips and any number of signals on one bar, and under all prices to come. */
  lemma PositionLimitHolds(cfg: Config, inputs: seq<Pipeline.Input>)
    requires Wired(cfg, inputs)
    ensures forall k, j :: 0 <= k < |inputs| && 0 <= j <= |Emissions(inputs[k])| ==>
              StaysWithin(cfg, Moment(cfg, inputs, k, j))
    ensures Pipeline.Run(cfg, inputs).books.NonZero() <= Cap(cfg)
  {
    hide Moment, Orderly, Settled, Overcommits, Pipeline.Step, Wired;
    forall k, j | 0 <= k < |inputs| && 0 <= j < |Emissions(inputs[k])|
      ensures !Overcommits(cfg, Moment(cfg, inputs, k, j), Emissions(inputs[k])[j])
    {
      MomentIsOrderly(cfg, inputs, k, j);
      WiredMomentSettled(cfg, inputs, k, j);
      SettledNeverOvercommits(cfg, Moment(cfg, inputs, k, j), Emissions(inputs[k])[j]);
    }
    PositionLimitIff(cfg, inputs);
    if inputs != [] {
      var last := |inputs| - 1;
      MomentEnds(cfg, inputs, last);
      assert inputs[..last + 1] == inputs;
      WithinNow(cfg, Moment(cfg, inputs, last, |Emissions(inputs[last])|));
    }
  }

  lemma WithinNow(cfg: Config, sys: System)
    requires StaysWithin(cfg, sys)
    ensures sys.books.NonZero() <= Cap(cfg)
  {
    assert PriceOnly([]) && RunFrom(cfg, sys, []) == sys;
  }
}
