/** What holds of the simulated broker's book over every sequence of prices and requests since a start. */
module BrokerLaws {
  import opened Basics
  import opened Broker
  import opened Reals
  import opened Sequences

  /** A price is a bar's close or a tick's non-zero price. */
  datatype Input = Priced(symbol: Symbol, price: real) | Requested(request: Request)

  function Step(terms: Terms, b: Book, input: Input): Book {
    match input
    case Priced(symbol, price) => AfterPrice(terms, b, symbol, price)
    case Requested(request) => AfterRequest(terms, b, request)
  }

  /** The book of a broker that has just been started with `counter` ids already used. */
  function Empty(counter: nat): Book {
    Book(counter, map[], [], [], [], [])
  }

  function RunBroker(terms: Terms, counter: nat, inputs: seq<Input>): Book {
    if inputs == [] then Empty(counter)
    else Step(terms, RunBroker(terms, counter, inputs[..|inputs| - 1]), inputs[|inputs| - 1])
  }

  predicate Acceptable(request: Request) {
    request.orderType.Market? || (request.orderType.Limit? && request.limitPrice.Some?)
  }

  function RequestCount(inputs: seq<Input>): nat {
    if inputs == [] then 0
    else RequestCount(inputs[..|inputs| - 1]) + if inputs[|inputs| - 1].Requested? then 1 else 0
  }

  /** The orders taken on, read off the requests alone: the i-th request gets the i-th id. */
  function Accepted(counter: nat, inputs: seq<Input>): seq<Order> {
    if inputs == [] then []
    else
      var past, last := inputs[..|inputs| - 1], inputs[|inputs| - 1];
      Accepted(counter, past) +
      (if last.Requested? && Acceptable(last.request)
       then [OrderFor(last.request, counter + RequestCount(inputs))] else [])
  }

  // ---------------------------------------------------------------------------------------------
  // Every accepted order is in exactly one place
  // ---------------------------------------------------------------------------------------------

  /** What an order keeps from acceptance to its fill. */
  datatype Ticket = Ticket(id: nat, symbol: Symbol, side: Side, quantity: int)

  function TicketOf(order: Order): Ticket {
    Ticket(order.id, order.symbol, order.side, order.quantity)
  }

  /** How many of the orders carry the ticket. */
  function Copies(t: Ticket, orders: seq<Order>): nat {
    if orders == [] then 0
    else Copies(t, orders[..|orders| - 1]) + if TicketOf(orders[|orders| - 1]) == t then 1 else 0
  }

  /** How many completed entries carry the ticket. */
  function Filled(t: Ticket, completed: seq<Completed>): nat {
    if completed == [] then 0
    else
      var c := completed[|completed| - 1];
      Filled(t, completed[..|completed| - 1]) + if Ticket(c.id, c.symbol, c.side, c.quantity) == t then 1 else 0
  }

  lemma {:induction false} CopiesConcat(t: Ticket, xs: seq<Order>, ys: seq<Order>)
    ensures Copies(t, xs + ys) == Copies(t, xs) + Copies(t, ys)
  {
    if ys == [] {
      assert xs + ys == xs;
    } else {
      CopiesConcat(t, xs, ys[..|ys| - 1]);
      assert (xs + ys)[..|xs + ys| - 1] == xs + ys[..|ys| - 1];
    }
  }

  lemma {:induction false} CopiesSplit(t: Ticket, p: Order -> bool, q: Order -> bool, orders: seq<Order>)
    requires forall x :: x in orders ==> (q(x) <==> !p(x))
    ensures Copies(t, orders) == Copies(t, Filter(p, orders)) + Copies(t, Filter(q, orders))
  {
    if orders != [] {
      var first, rest := orders[..1], orders[1..];
      CopiesSplit(t, p, q, rest);
      assert orders == first + rest && [orders[0]] == first;
      CopiesConcat(t, first, rest);
      assert orders[0] in orders;
      if p(orders[0]) {
        CopiesConcat(t, first, Filter(p, rest));
        assert Filter(q, orders) == Filter(q, rest);
      } else {
        CopiesConcat(t, first, Filter(q, rest));
        assert Filter(p, orders) == Filter(p, rest);
      }
    }
  }

  lemma FillAddsCopy(t: Ticket, terms: Terms, b: Book, order: Order, price: real)
    ensures Filled(t, b.Fill(terms, order, price).completed) == Filled(t, b.completed) + Copies(t, [order])
  {
    var c := CompletedAt(terms, order, price);
    assert (b.completed + [c])[..|b.completed|] == b.completed;
  }

  lemma {:induction false} FillEachKeeps(terms: Terms, b: Book, orders: seq<Order>, price: real)
    ensures var next := FillEach(terms, b, orders, price);
      next.counter == b.counter && next.prices == b.prices && next.held == b.held && next.pending == b.pending
  {
    if orders != [] {
      FillEachKeeps(terms, b, orders[..|orders| - 1], price);
    }
  }

  lemma {:induction false} FillEachAddsCopies(t: Ticket, terms: Terms, b: Book, orders: seq<Order>, price: real)
    ensures Filled(t, FillEach(terms, b, orders, price).completed) == Filled(t, b.completed) + Copies(t, orders)
  {
    if orders != [] {
      var past, order := orders[..|orders| - 1], orders[|orders| - 1];
      FillEachAddsCopies(t, terms, b, past, price);
      FillAddsCopy(t, terms, FillEach(terms, b, past, price), order, PriceFor(order, price));
      CopiesConcat(t, past, [order]);
      assert orders == past + [order];
    }
  }

  function InBook(t: Ticket, b: Book): nat {
    Copies(t, b.held) + Copies(t, b.pending) + Filled(t, b.completed)
  }

  /** The book after the held orders of a newly priced symbol have been filled. */
  function Released(terms: Terms, b: Book, symbol: Symbol, price: real): Book {
    FillEach(terms, b.(prices := b.prices[symbol := price]), Filter(Of(symbol), b.held), price)
    .(held := Filter(NotOf(symbol), b.held))
  }

  lemma PriceKeeps(terms: Terms, b: Book, symbol: Symbol, price: real)
    ensures var next := AfterPrice(terms, b, symbol, price);
      && next.counter == b.counter && next.prices == b.prices[symbol := price]
      && next.held == Filter(NotOf(symbol), b.held)
      && next.pending == Filter(NotCrossedBy(symbol, price), b.pending)
  {
    FillEachKeeps(terms, b.(prices := b.prices[symbol := price]), Filter(Of(symbol), b.held), price);
    FillEachKeeps(terms, Released(terms, b, symbol, price), Filter(CrossedBy(symbol, price), b.pending), price);
  }

  lemma PriceKeepsCopies(t: Ticket, terms: Terms, b: Book, symbol: Symbol, price: real)
    ensures InBook(t, AfterPrice(terms, b, symbol, price)) == InBook(t, b)
  {
    hide FillEach;
    PriceKeeps(terms, b, symbol, price);
    FillEachKeeps(terms, b.(prices := b.prices[symbol := price]), Filter(Of(symbol), b.held), price);
    FillEachAddsCopies(t, terms, b.(prices := b.prices[symbol := price]), Filter(Of(symbol), b.held), price);
    FillEachAddsCopies(t, terms, Released(terms, b, symbol, price), Filter(CrossedBy(symbol, price), b.pending), price);
    CopiesSplit(t, Of(symbol), NotOf(symbol), b.held);
    CopiesSplit(t, CrossedBy(symbol, price), NotCrossedBy(symbol, price), b.pending);
  }

  lemma RequestAddsCopy(t: Ticket, terms: Terms, b: Book, request: Request)
    ensures InBook(t, AfterRequest(terms, b, request)) == InBook(t, b)
            + if Acceptable(request) then Copies(t, [OrderFor(request, b.counter + 1)]) else 0
  {
    hide Copies, Filled, FillEvents, CompletedAt, Crossed;
    var order := OrderFor(request, b.counter + 1);
    var next := AfterRequest(terms, b, request);
    if next.held != b.held {
      CopiesConcat(t, b.held, [order]);
    } else if next.pending != b.pending {
      CopiesConcat(t, b.pending, [order]);
    } else if Acceptable(request) {
      FillAddsCopy(t, terms, b.(counter := b.counter + 1), order, b.prices[order.symbol]);
    }
  }

  lemma {:induction false} CounterCounts(terms: Terms, counter: nat, inputs: seq<Input>)
    ensures RunBroker(terms, counter, inputs).counter == counter + RequestCount(inputs)
  {
    if inputs != [] {
      hide AfterPrice;
      var past, last := inputs[..|inputs| - 1], inputs[|inputs| - 1];
      CounterCounts(terms, counter, past);
      if last.Priced? {
        PriceKeeps(terms, RunBroker(terms, counter, past), last.symbol, last.price);
      }
    }
  }

  lemma StepAddsCopies(t: Ticket, terms: Terms, b: Book, input: Input)
    ensures InBook(t, Step(terms, b, input)) == InBook(t, b)
            + if input.Requested? && Acceptable(input.request)
              then Copies(t, [OrderFor(input.request, b.counter + 1)]) else 0
  {
    hide AfterPrice, AfterRequest, InBook, Copies;
    match input {
      case Priced(symbol, price) => PriceKeepsCopies(t, terms, b, symbol, price);
      case Requested(request) => RequestAddsCopy(t, terms, b, request);
    }
  }

  /** Each ticket is in the book as often as it was accepted. */
  lemma {:induction false} CopiesConserved(t: Ticket, terms: Terms, counter: nat, inputs: seq<Input>)
    ensures InBook(t, RunBroker(terms, counter, inputs)) == Copies(t, Accepted(counter, inputs))
  {
    if inputs != [] {
      hide Step, InBook, Copies, AfterPrice, AfterRequest, Accepted, RequestCount;
      var past, last := inputs[..|inputs| - 1], inputs[|inputs| - 1];
      CopiesConserved(t, terms, counter, past);
      CounterCounts(terms, counter, past);
      StepAddsCopies(t, terms, RunBroker(terms, counter, past), last);
      AcceptedAddsCopy(t, counter, inputs);
    }
  }

  lemma AcceptedAddsCopy(t: Ticket, counter: nat, inputs: seq<Input>)
    requires inputs != []
    ensures var past, last := inputs[..|inputs| - 1], inputs[|inputs| - 1];
      Copies(t, Accepted(counter, inputs)) == Copies(t, Accepted(counter, past))
        + if last.Requested? && Acceptable(last.request)
          then Copies(t, [OrderFor(last.request, counter + RequestCount(past) + 1)]) else 0
  {
    hide Copies, Acceptable;
    var past, last := inputs[..|inputs| - 1], inputs[|inputs| - 1];
    if last.Requested? && Acceptable(last.request) {
      CopiesConcat(t, Accepted(counter, past), [OrderFor(last.request, counter + RequestCount(inputs))]);
    } else {
      assert Accepted(counter, inputs) == Accepted(counter, past);
    }
  }

  lemma {:induction false} AcceptedIds(counter: nat, inputs: seq<Input>)
    ensures var orders := Accepted(counter, inputs);
      && DistinctIds(orders)
      && (forall i :: 0 <= i < |orders| ==>
            counter < orders[i].id <= counter + RequestCount(inputs) && Acceptable(RequestOf(orders[i])))
  {
    if inputs != [] {
      AcceptedIds(counter, inputs[..|inputs| - 1]);
    }
  }

  function RequestOf(order: Order): Request {
    Request(order.symbol, order.side, order.quantity, order.orderType, order.limitPrice)
  }

  lemma {:induction false} CopiesOfDistinct(order: Order, orders: seq<Order>)
    requires DistinctIds(orders)
    ensures order in orders ==> Copies(TicketOf(order), orders) == 1
    ensures (forall x :: x in orders ==> x.id != order.id) ==> Copies(TicketOf(order), orders) == 0
  {
    if orders != [] {
      var rest, last := orders[..|orders| - 1], orders[|orders| - 1];
      CopiesOfDistinct(order, rest);
      if last == order {
        forall x | x in rest ensures x.id != order.id {
          var i :| 0 <= i < |rest| && rest[i] == x;
          assert orders[i].id != orders[|orders| - 1].id;
        }
      } else if order in rest {
        var i :| 0 <= i < |rest| && rest[i] == order;
        assert orders[i].id != orders[|orders| - 1].id;
      }
    }
  }

  /** At every moment of every run, an accepted order is held, resting or completed, once in all, with its
      symbol, side and full quantity; and the book holds nothing that was not accepted. */
  lemma ExactlyOnePlace(terms: Terms, counter: nat, inputs: seq<Input>)
    ensures var b, orders := RunBroker(terms, counter, inputs), Accepted(counter, inputs);
      && (forall o :: o in orders ==>
            Copies(TicketOf(o), b.held) + Copies(TicketOf(o), b.pending) + Filled(TicketOf(o), b.completed) == 1)
      && (forall t :: Copies(t, orders) == 0 ==>
            Copies(t, b.held) == Copies(t, b.pending) == Filled(t, b.completed) == 0)
  {
    var b, orders := RunBroker(terms, counter, inputs), Accepted(counter, inputs);
    AcceptedIds(counter, inputs);
    forall o | o in orders ensures InBook(TicketOf(o), b) == 1 {
      CopiesConserved(TicketOf(o), terms, counter, inputs);
      CopiesOfDistinct(o, orders);
    }
    forall t ensures InBook(t, b) == Copies(t, orders) {
      CopiesConserved(t, terms, counter, inputs);
    }
  }

  // ---------------------------------------------------------------------------------------------
  // Fills are announced exactly as they are recorded
  // ---------------------------------------------------------------------------------------------

  function IsFill(): Event -> bool {
    (e: Event) => e.OrderFilled?
  }

  function Announced(completed: seq<Completed>): seq<Event> {
    if completed == [] then []
    else
      var c := completed[|completed| - 1];
      Announced(completed[..|completed| - 1]) + [OrderFilled(c.id, c.symbol, c.side, c.fillPrice, c.quantity)]
  }

  predicate InStep(b: Book) {
    Filter(IsFill(), b.published) == Announced(b.completed)
  }

  lemma FillKeepsStep(terms: Terms, b: Book, order: Order, price: real)
    requires InStep(b)
    ensures InStep(b.Fill(terms, order, price))
  {
    var events, c := FillEvents(terms, order, price), CompletedAt(terms, order, price);
    FilterConcat(IsFill(), b.published, events);
    assert Filter(IsFill(), events) == [events[2]] by {
      assert events == [events[0]] + ([events[1]] + [events[2]]);
      FilterConcat(IsFill(), [events[0]], [events[1]] + [events[2]]);
      FilterConcat(IsFill(), [events[1]], [events[2]]);
    }
    assert (b.completed + [c])[..|b.completed|] == b.completed;
  }

  lemma {:induction false} FillEachKeepsStep(terms: Terms, b: Book, orders: seq<Order>, price: real)
    requires InStep(b)
    ensures InStep(FillEach(terms, b, orders, price))
  {
    if orders != [] {
      var past, order := orders[..|orders| - 1], orders[|orders| - 1];
      FillEachKeepsStep(terms, b, past, price);
      FillKeepsStep(terms, FillEach(terms, b, past, price), order, PriceFor(order, price));
    }
  }

  lemma StepKeepsStep(terms: Terms, b: Book, input: Input)
    requires InStep(b)
    ensures InStep(Step(terms, b, input))
  {
    hide FillEach, FillEvents, Announced, Filter;
    match input {
      case Priced(symbol, price) =>
        FillEachKeepsStep(terms, b.(prices := b.prices[symbol := price]), Filter(Of(symbol), b.held), price);
        FillEachKeepsStep(terms, Released(terms, b, symbol, price), Filter(CrossedBy(symbol, price), b.pending), price);
      case Requested(request) =>
        if request.symbol in b.prices {
          var order := OrderFor(request, b.counter + 1);
          FillKeepsStep(terms, b.(counter := b.counter + 1), order, b.prices[request.symbol]);
        }
    }
  }

  /** The fill events published are, one for one and in order, the completed orders. */
  lemma {:induction false} FillsAreAnnouncedOnce(terms: Terms, counter: nat, inputs: seq<Input>)
    ensures InStep(RunBroker(terms, counter, inputs))
  {
    if inputs != [] {
      var past, last := inputs[..|inputs| - 1], inputs[|inputs| - 1];
      FillsAreAnnouncedOnce(terms, counter, past);
      StepKeepsStep(terms, RunBroker(terms, counter, past), last);
    }
  }

  // ---------------------------------------------------------------------------------------------
  // What waits, waits rightly
  // ---------------------------------------------------------------------------------------------

  predicate WaitsRightly(o: Order, prices: map<Symbol, real>) {
    && o.orderType.Limit? && o.limitPrice.Some?
    && (o.symbol in prices ==>
          if o.side == Buy then prices[o.symbol] > o.limitPrice.value else prices[o.symbol] < o.limitPrice.value)
  }

  ghost predicate Waiting(b: Book) {
    && (forall o :: o in b.held ==> o.orderType.Market? && o.symbol !in b.prices)
    && (forall o :: o in b.pending ==> WaitsRightly(o, b.prices))
  }

  lemma StepKeepsWaiting(terms: Terms, b: Book, input: Input)
    requires Waiting(b)
    ensures Waiting(Step(terms, b, input))
  {
    match input {
      case Priced(symbol, price) =>
        PriceKeeps(terms, b, symbol, price);
        hide AfterPrice;
        FilterMembers(NotOf(symbol), b.held);
        FilterMembers(NotCrossedBy(symbol, price), b.pending);
      case Requested(request) =>
    }
  }

  /** No held order's symbol has a known price, and no resting order is crossed at its symbol's last price. */
  lemma {:induction false} NothingWaitsThatCouldFill(terms: Terms, counter: nat, inputs: seq<Input>)
    ensures Waiting(RunBroker(terms, counter, inputs))
  {
    if inputs != [] {
      hide Step;
      NothingWaitsThatCouldFill(terms, counter, inputs[..|inputs| - 1]);
      StepKeepsWaiting(terms, RunBroker(terms, counter, inputs[..|inputs| - 1]), inputs[|inputs| - 1]);
    }
  }

  // ---------------------------------------------------------------------------------------------
  // First come, first served
  // ---------------------------------------------------------------------------------------------

  function MarketOf(s: Symbol): Order -> bool {
    (o: Order) => o.orderType.Market? && o.symbol == s
  }

  /** The orders announced as submitted, in order. */
  function Submitted(published: seq<Event>): seq<Order> {
    if published == [] then []
    else
      var last := published[|published| - 1];
      Submitted(published[..|published| - 1]) + if last.OrderSubmitted? then [last.order] else []
  }

  ghost predicate InTurn(b: Book, accepted: seq<Order>, s: Symbol) {
    Filter(MarketOf(s), accepted) == Filter(MarketOf(s), Submitted(b.published)) + Filter(MarketOf(s), b.held)
  }

  lemma FillSubmits(terms: Terms, b: Book, order: Order, price: real)
    ensures Submitted(b.Fill(terms, order, price).published) == Submitted(b.published) + [order]
  {
    var events := FillEvents(terms, order, price);
    assert b.published + events == ((b.published + [events[0]]) + [events[1]]) + [events[2]];
    SubmittedNext(b.published, events[0]);
    SubmittedNext(b.published + [events[0]], events[1]);
    SubmittedNext((b.published + [events[0]]) + [events[1]], events[2]);
  }

  lemma SubmittedNext(published: seq<Event>, e: Event)
    ensures Submitted(published + [e]) == Submitted(published) + if e.OrderSubmitted? then [e.order] else []
  {
    assert (published + [e])[..|published|] == published;
  }

  lemma {:induction false} FillEachSubmits(terms: Terms, b: Book, orders: seq<Order>, price: real)
    ensures Submitted(FillEach(terms, b, orders, price).published) == Submitted(b.published) + orders
  {
    if orders != [] {
      var past, order := orders[..|orders| - 1], orders[|orders| - 1];
      FillEachSubmits(terms, b, past, price);
      FillSubmits(terms, FillEach(terms, b, past, price), order, PriceFor(order, price));
      assert orders == past + [order];
    }
  }

  lemma PriceSubmits(terms: Terms, b: Book, symbol: Symbol, price: real)
    ensures Submitted(AfterPrice(terms, b, symbol, price).published)
         == Submitted(b.published) + (Filter(Of(symbol), b.held) + Filter(CrossedBy(symbol, price), b.pending))
  {
    hide FillEach, Submitted, Filter;
    FillEachSubmits(terms, b.(prices := b.prices[symbol := price]), Filter(Of(symbol), b.held), price);
    FillEachSubmits(terms, Released(terms, b, symbol, price), Filter(CrossedBy(symbol, price), b.pending), price);
  }

  /** What is announced comes off the front of what waited and what is new. */
  lemma TurnNext(b: Book, next: Book, accepted: seq<Order>, added: seq<Order>, moved: seq<Order>, s: Symbol)
    requires InTurn(b, accepted, s) && Submitted(next.published) == Submitted(b.published) + moved
    requires var m := MarketOf(s);
      Filter(m, b.held) + Filter(m, added) == Filter(m, moved) + Filter(m, next.held)
    ensures InTurn(next, accepted + added, s)
  {
    hide Filter, Submitted, MarketOf;
    var m := MarketOf(s);
    FilterConcat(m, accepted, added);
    FilterConcat(m, Submitted(b.published), moved);
    var told := Filter(m, Submitted(b.published));
    assert (told + Filter(m, b.held)) + Filter(m, added) == told + (Filter(m, b.held) + Filter(m, added));
    assert (told + Filter(m, moved)) + Filter(m, next.held) == told + (Filter(m, moved) + Filter(m, next.held));
  }

  lemma HeldSplit(held: seq<Order>, pending: seq<Order>, symbol: Symbol, price: real, s: Symbol)
    requires forall o :: o in pending ==> o.orderType.Limit?
    ensures var m := MarketOf(s);
      Filter(m, held) == Filter(m, Filter(Of(symbol), held) + Filter(CrossedBy(symbol, price), pending))
                         + Filter(m, Filter(NotOf(symbol), held))
  {
    var m, crossed := MarketOf(s), Filter(CrossedBy(symbol, price), pending);
    FilterMembers(CrossedBy(symbol, price), pending);
    FilterEmpty(m, crossed);
    FilterMembers(Of(symbol), held);
    FilterMembers(NotOf(symbol), held);
    if s == symbol {
      FilterWithin(m, Of(symbol), held);
      FilterEmpty(m, Filter(NotOf(symbol), held));
    } else {
      FilterWithin(m, NotOf(symbol), held);
      FilterEmpty(m, Filter(Of(symbol), held));
    }
    hide Filter;
    FilterConcat(m, Filter(Of(symbol), held), crossed);
  }

  lemma PriceKeepsTurn(terms: Terms, b: Book, accepted: seq<Order>, symbol: Symbol, price: real, s: Symbol)
    requires InTurn(b, accepted, s) && Waiting(b)
    ensures InTurn(AfterPrice(terms, b, symbol, price), accepted, s)
  {
    assert forall o :: o in b.pending ==> o.orderType.Limit?;
    hide *;
    PriceSubmits(terms, b, symbol, price);
    PriceKeeps(terms, b, symbol, price);
    HeldSplit(b.held, b.pending, symbol, price, s);
    FilterEmpty(MarketOf(s), []);
    assert Filter(MarketOf(s), b.held) + [] == Filter(MarketOf(s), b.held) && accepted + [] == accepted;
    TurnNext(b, AfterPrice(terms, b, symbol, price), accepted, [],
             Filter(Of(symbol), b.held) + Filter(CrossedBy(symbol, price), b.pending), s);
  }

  lemma RequestKeepsTurn(terms: Terms, b: Book, accepted: seq<Order>, request: Request, s: Symbol)
    requires InTurn(b, accepted, s) && Waiting(b)
    ensures var order := OrderFor(request, b.counter + 1);
      InTurn(AfterRequest(terms, b, request), accepted + if Acceptable(request) then [order] else [], s)
  {
    var order, next := OrderFor(request, b.counter + 1), AfterRequest(terms, b, request);
    assert Filter(MarketOf(s), []) == [];
    if Acceptable(request) && next.completed != b.completed {
      FillSubmits(terms, b.(counter := b.counter + 1), order, b.prices[request.symbol]);
      if request.orderType.Market? && request.symbol == s {
        FilterEmpty(MarketOf(s), b.held);
      } else {
        FilterEmpty(MarketOf(s), [order]);
      }
      hide Filter, Submitted, Waiting, InTurn, MarketOf;
      TurnNext(b, next, accepted, [order], [order], s);
    } else if request.orderType.Market? {
      FilterConcat(MarketOf(s), b.held, [order]);
      hide Filter, Submitted, Waiting, InTurn, MarketOf;
      TurnNext(b, next, accepted, [order], [], s);
    } else {
      FilterEmpty(MarketOf(s), [order]);
      hide Filter, Submitted, Waiting, InTurn, MarketOf;
      TurnNext(b, next, accepted, if Acceptable(request) then [order] else [], [], s);
    }
  }

  /** What an input adds to the orders taken on. */
  function TakenOn(b: Book, input: Input): seq<Order> {
    if input.Requested? && Acceptable(input.request) then [OrderFor(input.request, b.counter + 1)] else []
  }

  lemma AcceptedNext(terms: Terms, counter: nat, past: seq<Input>, last: Input)
    ensures Accepted(counter, past + [last])
         == Accepted(counter, past) + TakenOn(RunBroker(terms, counter, past), last)
  {
    hide OrderFor;
    CounterCounts(terms, counter, past);
    assert (past + [last])[..|past|] == past;
  }

  lemma StepKeepsTurn(terms: Terms, b: Book, accepted: seq<Order>, input: Input, s: Symbol)
    requires InTurn(b, accepted, s) && Waiting(b)
    ensures InTurn(Step(terms, b, input), accepted + TakenOn(b, input), s)
  {
    hide AfterPrice, AfterRequest, InTurn, Waiting, Acceptable, OrderFor;
    match input {
      case Priced(symbol, price) =>
        PriceKeepsTurn(terms, b, accepted, symbol, price, s);
        assert accepted + [] == accepted;
      case Requested(request) => RequestKeepsTurn(terms, b, accepted, request, s);
    }
  }

  /** Over every run, a symbol's market orders are filled in the order in which they were asked for: those announced as
      submitted, followed by those still held, are exactly those accepted. */
  lemma {:induction false} MarketOrdersInTurn(terms: Terms, counter: nat, inputs: seq<Input>, s: Symbol)
    ensures InTurn(RunBroker(terms, counter, inputs), Accepted(counter, inputs), s)
  {
    if inputs != [] {
      var past, last := inputs[..|inputs| - 1], inputs[|inputs| - 1];
      var b := RunBroker(terms, counter, past);
      assert RunBroker(terms, counter, inputs) == Step(terms, b, last);
      hide *;
      MarketOrdersInTurn(terms, counter, past, s);
      NothingWaitsThatCouldFill(terms, counter, past);
      AcceptedNext(terms, counter, past, last);
      assert past + [last] == inputs;
      StepKeepsTurn(terms, b, Accepted(counter, past), last, s);
    }
  }

  // ---------------------------------------------------------------------------------------------
  // Each order on its own
  // ---------------------------------------------------------------------------------------------

  function LastPrice(inputs: seq<Input>, s: Symbol): Option<real> {
    if inputs == [] then None
    else
      var last := inputs[|inputs| - 1];
      if last.Priced? && last.symbol == s then Some(last.price) else LastPrice(inputs[..|inputs| - 1], s)
  }

  /** A price is good enough for a limit. */
  predicate Meets(side: Side, price: real, limit: real) {
    (side == Buy && price <= limit) || (side != Buy && price >= limit)
  }

  /** The price, before slippage, at which the i-th input's request has been filled by the end: a market order at
      the last price before it, or the first after; a limit order at the last price before it if that is good enough,
      or else at its limit as soon as some later price is. */
  function GivenPrice(inputs: seq<Input>, i: nat): Option<real>
    requires i < |inputs| && inputs[i].Requested?
    decreases |inputs|
  {
    var request, last := inputs[i].request, inputs[|inputs| - 1];
    var limit := request.limitPrice;
    if |inputs| == i + 1 then
      var price := LastPrice(inputs[..i], request.symbol);
      if request.orderType.Limit? && price.Some? && limit.Some? && !Meets(request.side, price.value, limit.value)
      then None else price
    else
      var before := GivenPrice(inputs[..|inputs| - 1], i);
      if before.Some? || !last.Priced? || last.symbol != request.symbol then before
      else if !request.orderType.Limit? then Some(last.price)
      else if limit.Some? && Meets(request.side, last.price, limit.value) then limit
      else None
  }

  /** The order of the i-th input's request. */
  function OrderAt(counter: nat, inputs: seq<Input>, i: nat): Order
    requires i < |inputs| && inputs[i].Requested?
  {
    OrderFor(inputs[i].request, counter + RequestCount(inputs[..i + 1]))
  }

  /** The order is completed at a price, slipped, with the commission; or it still waits where its type waits. */
  predicate HasFate(terms: Terms, b: Book, o: Order, price: Option<real>) {
    match price
    case Some(p) =>
      Completed(o.id, o.symbol, o.side, o.quantity, terms.Slip(p, o.side), terms.commission) in b.completed
    case None => if o.orderType.Market? then o in b.held else o in b.pending
  }

  lemma {:induction false} PricesAreLast(terms: Terms, counter: nat, inputs: seq<Input>, s: Symbol)
    ensures var prices := RunBroker(terms, counter, inputs).prices;
      LastPrice(inputs, s) == if s in prices then Some(prices[s]) else None
  {
    if inputs != [] {
      hide AfterPrice;
      var past, last := inputs[..|inputs| - 1], inputs[|inputs| - 1];
      PricesAreLast(terms, counter, past, s);
      if last.Priced? {
        PriceKeeps(terms, RunBroker(terms, counter, past), last.symbol, last.price);
      }
    }
  }

  /** Filling orders completes each of them, and takes back nothing. */
  lemma {:induction false} FillEachCompletes(terms: Terms, b: Book, orders: seq<Order>, price: real)
    ensures var done := FillEach(terms, b, orders, price).completed;
      && (forall c :: c in b.completed ==> c in done)
      && (forall o :: o in orders ==> CompletedAt(terms, o, PriceFor(o, price)) in done)
  {
    if orders != [] {
      hide CompletedAt, PriceFor;
      var past, last := orders[..|orders| - 1], orders[|orders| - 1];
      FillEachCompletes(terms, b, past, price);
      var done := FillEach(terms, b, past, price).completed;
      assert FillEach(terms, b, orders, price).completed == done + [CompletedAt(terms, last, PriceFor(last, price))];
      assert orders == past + [last];
    }
  }

  lemma PriceCompletes(terms: Terms, b: Book, symbol: Symbol, price: real, o: Order)
    ensures var next := AfterPrice(terms, b, symbol, price);
      && (forall c :: c in b.completed ==> c in next.completed)
      && (o in b.held ==> if o.symbol == symbol then CompletedAt(terms, o, PriceFor(o, price)) in next.completed
                          else o in next.held)
      && (o in b.pending ==> if CrossedBy(symbol, price)(o)
                             then CompletedAt(terms, o, PriceFor(o, price)) in next.completed else o in next.pending)
  {
    hide FillEach, CompletedAt, PriceFor;
    PriceKeeps(terms, b, symbol, price);
    FilterMembers(Of(symbol), b.held);
    FilterMembers(NotOf(symbol), b.held);
    FilterMembers(CrossedBy(symbol, price), b.pending);
    FilterMembers(NotCrossedBy(symbol, price), b.pending);
    FillEachCompletes(terms, b.(prices := b.prices[symbol := price]), Filter(Of(symbol), b.held), price);
    FillEachCompletes(terms, Released(terms, b, symbol, price), Filter(CrossedBy(symbol, price), b.pending), price);
  }

  /** What one more price does to an order's fate. */
  lemma PriceDecides(terms: Terms, b: Book, symbol: Symbol, price: real, o: Order, fate: Option<real>)
    requires HasFate(terms, b, o, fate) && Acceptable(RequestOf(o))
    ensures HasFate(terms, AfterPrice(terms, b, symbol, price), o,
      if fate.Some? || symbol != o.symbol then fate
      else if !o.orderType.Limit? then Some(price)
      else if Meets(o.side, price, o.limitPrice.value) then o.limitPrice
      else None)
  {
    hide AfterPrice;
    PriceCompletes(terms, b, symbol, price, o);
  }

  lemma RequestKeepsFate(terms: Terms, b: Book, request: Request, o: Order, fate: Option<real>)
    requires HasFate(terms, b, o, fate)
    ensures HasFate(terms, AfterRequest(terms, b, request), o, fate)
  {
  }

  lemma RequestDecides(terms: Terms, b: Book, request: Request, price: Option<real>)
    requires Acceptable(request)
    requires price == if request.symbol in b.prices then Some(b.prices[request.symbol]) else None
    ensures HasFate(terms, AfterRequest(terms, b, request), OrderFor(request, b.counter + 1),
      if request.orderType.Limit? && price.Some? && request.limitPrice.Some?
         && !Meets(request.side, price.value, request.limitPrice.value) then None else price)
  {
  }

  /** Every order of every run meets the fate its own request, the price before it and the prices after it decide,
      whatever else is in the book. */
  lemma {:induction false} EachOrderMeetsItsFate(terms: Terms, counter: nat, inputs: seq<Input>, i: nat)
    requires i < |inputs| && inputs[i].Requested? && Acceptable(inputs[i].request)
    ensures HasFate(terms, RunBroker(terms, counter, inputs), OrderAt(counter, inputs, i), GivenPrice(inputs, i))
    decreases |inputs|
  {
    hide HasFate, AfterPrice, AfterRequest;
    var past, last := inputs[..|inputs| - 1], inputs[|inputs| - 1];
    var b := RunBroker(terms, counter, past);
    if |inputs| == i + 1 {
      assert inputs[..i] == past && inputs[..i + 1] == inputs;
      CounterCounts(terms, counter, past);
      PricesAreLast(terms, counter, past, last.request.symbol);
      RequestDecides(terms, b, last.request, LastPrice(past, last.request.symbol));
    } else {
      assert past[i] == inputs[i] && past[..i + 1] == inputs[..i + 1];
      EachOrderMeetsItsFate(terms, counter, past, i);
      match last {
        case Priced(symbol, price) =>
          PriceDecides(terms, b, symbol, price, OrderAt(counter, inputs, i), GivenPrice(past, i));
        case Requested(request) =>
          RequestKeepsFate(terms, b, request, OrderAt(counter, inputs, i), GivenPrice(past, i));
      }
    }
  }

  // ---------------------------------------------------------------------------------------------
  // What a step publishes
  // ---------------------------------------------------------------------------------------------

  function EachEvents(terms: Terms, orders: seq<Order>, price: real): seq<Event> {
    if orders == [] then []
    else
      var order := orders[|orders| - 1];
      EachEvents(terms, orders[..|orders| - 1], price) + FillEvents(terms, order, PriceFor(order, price))
  }

  function StepEvents(terms: Terms, b: Book, input: Input): seq<Event> {
    match input
    case Priced(symbol, price) =>
      EachEvents(terms, Filter(Of(symbol), b.held), price)
      + EachEvents(terms, Filter(CrossedBy(symbol, price), b.pending), price)
    case Requested(request) =>
      if request.symbol in b.prices && Acceptable(request)
         && Allows(OrderFor(request, b.counter + 1), b.prices[request.symbol])
      then FillEvents(terms, OrderFor(request, b.counter + 1), b.prices[request.symbol])
      else []
  }

  lemma {:induction false} FillEachPublishes(terms: Terms, b: Book, orders: seq<Order>, price: real)
    ensures FillEach(terms, b, orders, price).published == b.published + EachEvents(terms, orders, price)
  {
    if orders != [] {
      FillEachPublishes(terms, b, orders[..|orders| - 1], price);
    }
  }

  lemma StepPublishes(terms: Terms, b: Book, input: Input)
    ensures Step(terms, b, input).published == b.published + StepEvents(terms, b, input)
  {
    hide FillEach, EachEvents;
    match input {
      case Priced(symbol, price) =>
        FillEachPublishes(terms, b.(prices := b.prices[symbol := price]), Filter(Of(symbol), b.held), price);
        FillEachPublishes(terms, Released(terms, b, symbol, price), Filter(CrossedBy(symbol, price), b.pending), price);
      case Requested(request) =>
    }
  }

  // ---------------------------------------------------------------------------------------------
  // Limits are honoured
  // ---------------------------------------------------------------------------------------------

  /** A price at which the order may fill: for a limit order, one on the right side of its limit. */
  predicate Allows(o: Order, price: real) {
    o.orderType.Limit? ==> o.limitPrice.Some? && Crossed(o.side, price, o.limitPrice.value)
  }

  /** The k-th completed order was announced in full: submitted, reported filled, and filled. */
  predicate ToldAt(published: seq<Event>, completed: seq<Completed>, k: nat, o: Order) {
    && k < |completed| && |published| == 3 * |completed|
    && published[3 * k] == OrderSubmitted(o)
    && published[3 * k + 1] == OrderStatusFilled(o.id)
    && published[3 * k + 2] == OrderFilled(o.id, o.symbol, o.side, completed[k].fillPrice, o.quantity)
  }

  /** The k-th entry completes one of the orders, at a price it allows before slippage. */
  ghost predicate Completes(terms: Terms, orders: seq<Order>, published: seq<Event>, completed: seq<Completed>, k: nat)
    requires k < |completed|
  {
    exists o, price :: o in orders && Allows(o, price)
                    && completed[k] == CompletedAt(terms, o, price) && ToldAt(published, completed, k, o)
  }

  ghost predicate Honest(terms: Terms, orders: seq<Order>, b: Book) {
    && (forall o :: o in b.held ==> o in orders && o.orderType.Market?)
    && (forall o :: o in b.pending ==> o in orders && o.orderType.Limit? && o.limitPrice.Some?)
    && |b.published| == 3 * |b.completed|
    && (forall k :: 0 <= k < |b.completed| ==> Completes(terms, orders, b.published, b.completed, k))
  }

  lemma FillKeepsHonest(terms: Terms, orders: seq<Order>, b: Book, order: Order, price: real)
    requires Honest(terms, orders, b) && order in orders && Allows(order, price)
    ensures Honest(terms, orders, b.Fill(terms, order, price))
  {
    var next, n := b.Fill(terms, order, price), |b.completed|;
    forall k | 0 <= k < n ensures Completes(terms, orders, next.published, next.completed, k) {
      assert Completes(terms, orders, b.published, b.completed, k);
      var o, p :| o in orders && Allows(o, p)
               && b.completed[k] == CompletedAt(terms, o, p) && ToldAt(b.published, b.completed, k, o);
      assert ToldAt(next.published, next.completed, k, o);
    }
    assert ToldAt(next.published, next.completed, n, order);
    assert Completes(terms, orders, next.published, next.completed, n);
  }

  lemma {:induction false} FillEachKeepsHonest(terms: Terms, orders: seq<Order>, b: Book, filled: seq<Order>,
        price: real)
    requires Honest(terms, orders, b)
    requires forall o :: o in filled ==> o in orders && Allows(o, PriceFor(o, price))
    ensures Honest(terms, orders, FillEach(terms, b, filled, price))
  {
    if filled != [] {
      var past, order := filled[..|filled| - 1], filled[|filled| - 1];
      FillEachKeepsHonest(terms, orders, b, past, price);
      FillKeepsHonest(terms, orders, FillEach(terms, b, past, price), order, PriceFor(order, price));
    }
  }

  lemma MoreOrdersStayHonest(terms: Terms, orders: seq<Order>, more: seq<Order>, b: Book)
    requires Honest(terms, orders, b)
    ensures Honest(terms, orders + more, b)
  {
    forall k | 0 <= k < |b.completed| ensures Completes(terms, orders + more, b.published, b.completed, k) {
      assert Completes(terms, orders, b.published, b.completed, k);
      var o, p :| o in orders && Allows(o, p)
               && b.completed[k] == CompletedAt(terms, o, p) && ToldAt(b.published, b.completed, k, o);
      assert o in orders + more;
    }
  }

  lemma PriceKeepsHonest(terms: Terms, orders: seq<Order>, b: Book, symbol: Symbol, price: real)
    requires Honest(terms, orders, b)
    ensures Honest(terms, orders, AfterPrice(terms, b, symbol, price))
  {
    FilterMembers(Of(symbol), b.held);
    FilterMembers(NotOf(symbol), b.held);
    FilterMembers(CrossedBy(symbol, price), b.pending);
    FilterMembers(NotCrossedBy(symbol, price), b.pending);
    var priced := b.(prices := b.prices[symbol := price]);
    FillEachKeeps(terms, priced, Filter(Of(symbol), b.held), price);
    FillEachKeepsHonest(terms, orders, priced, Filter(Of(symbol), b.held), price);
    var released := Released(terms, b, symbol, price);
    FillEachKeeps(terms, released, Filter(CrossedBy(symbol, price), b.pending), price);
    FillEachKeepsHonest(terms, orders, released, Filter(CrossedBy(symbol, price), b.pending), price);
  }

  lemma RequestKeepsHonest(terms: Terms, orders: seq<Order>, b: Book, request: Request)
    requires Honest(terms, orders, b)
    requires Acceptable(request) ==> OrderFor(request, b.counter + 1) in orders
    ensures Honest(terms, orders, AfterRequest(terms, b, request))
  {
    var order := OrderFor(request, b.counter + 1);
    if Acceptable(request) && request.symbol in b.prices && Allows(order, b.prices[request.symbol]) {
      FillKeepsHonest(terms, orders, b.(counter := b.counter + 1), order, b.prices[request.symbol]);
    }
  }

  lemma {:induction false} FillsAreHonest(terms: Terms, counter: nat, inputs: seq<Input>)
    ensures Honest(terms, Accepted(counter, inputs), RunBroker(terms, counter, inputs))
  {
    if inputs != [] {
      var past, last := inputs[..|inputs| - 1], inputs[|inputs| - 1];
      var b := RunBroker(terms, counter, past);
      FillsAreHonest(terms, counter, past);
      var orders := Accepted(counter, inputs);
      MoreOrdersStayHonest(terms, Accepted(counter, past), orders[|Accepted(counter, past)|..], b);
      assert orders == Accepted(counter, past) + orders[|Accepted(counter, past)|..];
      match last {
        case Priced(symbol, price) => PriceKeepsHonest(terms, orders, b, symbol, price);
        case Requested(request) =>
          CounterCounts(terms, counter, past);
          RequestKeepsHonest(terms, orders, b, request);
      }
    }
  }

  /** Without slippage no limit order is ever completed at a price worse than its limit. */
  lemma LimitsAreHonoured(terms: Terms, counter: nat, inputs: seq<Input>, o: Order, c: Completed)
    requires terms.slippageBps == 0.0
    requires o in Accepted(counter, inputs) && o.orderType.Limit?
    requires c in RunBroker(terms, counter, inputs).completed && c.id == o.id
    ensures o.limitPrice.Some? && c.quantity == o.quantity
    ensures if o.side == Buy then c.fillPrice <= o.limitPrice.value else c.fillPrice >= o.limitPrice.value
  {
    hide RunBroker, Accepted;
    var orders := Accepted(counter, inputs);
    FillsAreHonest(terms, counter, inputs);
    AcceptedIds(counter, inputs);
    var b := RunBroker(terms, counter, inputs);
    var k :| 0 <= k < |b.completed| && b.completed[k] == c;
    assert Completes(terms, orders, b.published, b.completed, k);
    var o', price :| o' in orders && Allows(o', price) && c == CompletedAt(terms, o', price);
    assert o' == o;
  }

  /** The broker publishes three events for each completed order, in order, about an order it has accepted, and
      nothing else. */
  lemma FillsAreToldInFull(terms: Terms, counter: nat, inputs: seq<Input>, k: nat)
    requires k < |RunBroker(terms, counter, inputs).completed|
    ensures var b := RunBroker(terms, counter, inputs); var c := b.completed[k];
      && |b.published| == 3 * |b.completed|
      && exists o :: o in Accepted(counter, inputs) && ToldAt(b.published, b.completed, k, o)
                  && TicketOf(o) == Ticket(c.id, c.symbol, c.side, c.quantity)
  {
    hide RunBroker, Accepted, ToldAt;
    var orders, b := Accepted(counter, inputs), RunBroker(terms, counter, inputs);
    FillsAreHonest(terms, counter, inputs);
    assert Completes(terms, orders, b.published, b.completed, k);
  }

  // ---------------------------------------------------------------------------------------------
  // Slippage, rounded to cents
  // ---------------------------------------------------------------------------------------------

  /** Fewest whole cents that are no less than a price, and most that are no more. */
  function CentsAbove(price: real): int {
    -((-(price * 100.0)).Floor)
  }

  function CentsBelow(price: real): int {
    (price * 100.0).Floor
  }

  /** Some number of cents comes within half a cent of `cents` from below; from exactly half a cent away the
      tie must go to `cents`. */
  predicate ReachesUp(x: real, cents: int) {
    x > cents as real - 0.5 || (x == cents as real - 0.5 && cents % 2 == 0)
  }

  predicate ReachesDown(x: real, cents: int) {
    x < cents as real + 0.5 || (x == cents as real + 0.5 && cents % 2 == 0)
  }

  lemma NearestReaches(x: real, cents: int)
    ensures Nearest(x) >= cents <==> ReachesUp(x, cents)
    ensures Nearest(x) <= cents <==> ReachesDown(x, cents)
  {
  }

  /** The order never gets a better price than the market's: a buy pays no less, any other side receives no
      more. */
  predicate Costs(terms: Terms, price: real, side: Side) {
    if side == Buy then terms.Slip(price, side) >= price else terms.Slip(price, side) <= price
  }

  lemma CentsCompare(n: int, price: real)
    ensures n as real / 100.0 >= price <==> n >= CentsAbove(price)
    ensures n as real / 100.0 <= price <==> n <= CentsBelow(price)
  {
    assert n as real / 100.0 >= price <==> n as real >= price * 100.0;
  }

  /** Rounding can undo slippage. It costs the order nothing less than the market price exactly if the moved
      price comes near enough to the first whole cent on the far side of the market. */
  lemma SlippageCostsIff(terms: Terms, price: real, side: Side)
    requires terms.slippageBps != 0.0
    ensures Costs(terms, price, side) <==>
      if side == Buy then ReachesUp(terms.Moved(price, side) * 100.0, CentsAbove(price))
      else ReachesDown(terms.Moved(price, side) * 100.0, CentsBelow(price))
  {
    hide Nearest, CentsAbove, CentsBelow, Terms.Moved;
    var x := terms.Moved(price, side) * 100.0;
    NearestReaches(x, CentsAbove(price));
    NearestReaches(x, CentsBelow(price));
    CentsCompare(Nearest(x), price);
  }

  predicate IsWholeCents(price: real) {
    CentsBelow(price) as real == price * 100.0
  }

  /** Slippage on a price of whole cents, or slippage of half a cent and more, always costs; and no order is
      ever favoured by more than half a cent. */
  lemma SlippageCosts(terms: Terms, price: real, side: Side)
    requires terms.slippageBps >= 0.0 && price >= 0.0
    ensures IsWholeCents(price) || price * (terms.slippageBps / 10000.0) >= 0.005 ==> Costs(terms, price, side)
    ensures if side == Buy then terms.Slip(price, side) >= price - 0.005 else terms.Slip(price, side) <= price + 0.005
  {
    if terms.slippageBps > 0.0 {
      var shift := price * (terms.slippageBps / 10000.0);
      ProductSign(price, terms.slippageBps / 10000.0);
      MovedBy(terms, price, side, shift);
      MovedCosts(terms, price, side, shift);
    }
  }

  lemma MovedCosts(terms: Terms, price: real, side: Side, shift: real)
    requires terms.slippageBps != 0.0 && shift >= 0.0
    requires terms.Moved(price, side) == if side == Buy then price + shift else price - shift
    ensures IsWholeCents(price) || shift >= 0.005 ==> Costs(terms, price, side)
    ensures if side == Buy then terms.Slip(price, side) >= price - 0.005 else terms.Slip(price, side) <= price + 0.005
  {
    hide Terms.Moved, CentsAbove, CentsBelow, RoundCents, ReachesUp, ReachesDown, IsWholeCents;
    SlippageCostsIff(terms, price, side);
    RoundingIsNear(terms.Moved(price, side));
    if IsWholeCents(price) || shift >= 0.005 {
      FarEnough(price, shift, terms.Moved(price, side) * 100.0);
    }
  }

  lemma FarEnough(price: real, shift: real, x: real)
    requires shift >= 0.0 && (IsWholeCents(price) || shift >= 0.005)
    ensures x == (price + shift) * 100.0 ==> ReachesUp(x, CentsAbove(price))
    ensures x == (price - shift) * 100.0 ==> ReachesDown(x, CentsBelow(price))
  {
    var p, d := price * 100.0, shift * 100.0;
    assert (price + shift) * 100.0 == p + d && (price - shift) * 100.0 == p - d;
    assert CentsBelow(price) == p.Floor && CentsAbove(price) == -((-p).Floor);
    hide CentsBelow, CentsAbove;
    FarEnoughInCents(p, d);
  }

  lemma FarEnoughInCents(p: real, d: real)
    requires d >= 0.0 && (p.Floor as real == p || d >= 0.5)
    ensures ReachesUp(p + d, -((-p).Floor)) && ReachesDown(p - d, p.Floor)
  {
    assert p.Floor as real == p ==> -((-p).Floor) == p.Floor;
    assert -((-p).Floor) as real < p + 1.0;
  }

  lemma MovedBy(terms: Terms, price: real, side: Side, shift: real)
    requires shift == price * (terms.slippageBps / 10000.0)
    ensures terms.Moved(price, side) == if side == Buy then price + shift else price - shift
  {
  }

  lemma RoundingIsNear(x: real)
    ensures x - 0.005 <= RoundCents(x) <= x + 0.005
  {
    var z := x * 100.0;
    assert z - 0.5 <= Nearest(z) as real <= z + 0.5;
  }

  /** At the backtest's five basis points a buy at 1.004 pays 1.00 and a sale at 1.006 receives 1.01. */
  lemma SlippageCanFavour(terms: Terms)
    requires terms.slippageBps == 5.0
    ensures terms.Slip(1.004, Buy) == 1.0 && !Costs(terms, 1.004, Buy)
    ensures terms.Slip(1.006, Sell) == 1.01 && !Costs(terms, 1.006, Sell)
  {
    MovedBy(terms, 1.004, Buy, 0.000502);
    MovedBy(terms, 1.006, Sell, 0.000503);
    assert Nearest(100.4502) == 100;
    assert Nearest(100.5497) == 101;
  }
}
