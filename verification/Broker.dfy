/** The simulated broker: market orders wait for a first price, limit orders rest until crossed. */
module Broker {
  import opened Basics
  import opened Sequences

  datatype OrderType = Market | Limit | OtherType(text: string)

  datatype Order = Order(id: nat, symbol: Symbol, side: Side, quantity: int, orderType: OrderType,
                         limitPrice: Option<real>)

  datatype Completed = Completed(id: nat, symbol: Symbol, side: Side, quantity: int, fillPrice: real, commission: real)

  datatype Event =
    | OrderSubmitted(order: Order)
    | OrderStatusFilled(id: nat)
    | OrderFilled(id: nat, symbol: Symbol, side: Side, fillPrice: real, quantity: int)

  /** The nearest integer, and of two equally near ones the even. */
  function Nearest(x: real): int {
    var low := x.Floor;
    var rest := x - low as real;
    if rest < 0.5 || (rest == 0.5 && low % 2 == 0) then low else low + 1
  }

  /** Rounding to two decimals. */
  function RoundCents(x: real): real {
    Nearest(x * 100.0) as real / 100.0
  }

  /** Fixed for a session. */
  datatype Terms = Terms(slippageBps: real, commission: real) {

    /** The price moved against the order, before rounding. */
    function Moved(price: real, side: Side): real {
      if side == Buy then price * (1.0 + slippageBps / 10000.0) else price * (1.0 - slippageBps / 10000.0)
    }

    function Slip(price: real, side: Side): real {
      if slippageBps == 0.0 then price else RoundCents(Moved(price, side))
    }
  }

  /** The value of the broker's state since it was last started. The order tables are keyed by id and listed
      in insertion order. */
  datatype Book = Book(counter: nat, prices: map<Symbol, real>, held: seq<Order>, pending: seq<Order>,
                       completed: seq<Completed>, published: seq<Event>) {

    function Fill(terms: Terms, order: Order, price: real): Book {
      this.(completed := completed + [CompletedAt(terms, order, price)],
            published := published + FillEvents(terms, order, price))
    }
  }

  function CompletedAt(terms: Terms, order: Order, price: real): Completed {
    Completed(order.id, order.symbol, order.side, order.quantity, terms.Slip(price, order.side), terms.commission)
  }

  function FillEvents(terms: Terms, order: Order, price: real): seq<Event> {
    [OrderSubmitted(order), OrderStatusFilled(order.id),
     OrderFilled(order.id, order.symbol, order.side, terms.Slip(price, order.side), order.quantity)]
  }

  /** Any side other than a buy is treated as a sell here. */
  predicate Crossed(side: Side, marketPrice: real, limitPrice: real) {
    if side == Buy then marketPrice <= limitPrice else marketPrice >= limitPrice
  }

  /** Limit orders fill at their own limit, the others at the market. */
  function PriceFor(order: Order, price: real): real {
    if order.orderType.Limit? && order.limitPrice.Some? then order.limitPrice.value else price
  }

  function FillEach(terms: Terms, b: Book, orders: seq<Order>, price: real): Book {
    if orders == [] then b
    else
      var order := orders[|orders| - 1];
      FillEach(terms, b, orders[..|orders| - 1], price)
      .Fill(terms, order, PriceFor(order, price))
  }

  function Of(symbol: Symbol): Order -> bool {
    (order: Order) => order.symbol == symbol
  }

  function NotOf(symbol: Symbol): Order -> bool {
    (order: Order) => order.symbol != symbol
  }

  function CrossedBy(symbol: Symbol, price: real): Order -> bool {
    (order: Order) =>
      order.symbol == symbol && order.limitPrice.Some? && Crossed(order.side, price, order.limitPrice.value)
  }

  function NotCrossedBy(symbol: Symbol, price: real): Order -> bool {
    (order: Order) => !CrossedBy(symbol, price)(order)
  }

  function Same(order: Order): Order -> bool {
    (x: Order) => x == order
  }

  function WithId(id: nat): Order -> bool {
    (x: Order) => x.id == id
  }

  /** A new price: every held order of the symbol fills, then every resting order it crosses. */
  function AfterPrice(terms: Terms, b: Book, symbol: Symbol, price: real): Book {
    var priced := b.(prices := b.prices[symbol := price]);
    var released := FillEach(terms, priced, Filter(Of(symbol), b.held), price)
      .(held := Filter(NotOf(symbol), b.held));
    FillEach(terms, released, Filter(CrossedBy(symbol, price), b.pending), price)
      .(pending := Filter(NotCrossedBy(symbol, price), b.pending))
  }

  datatype Request = Request(symbol: Symbol, side: Side, quantity: int, orderType: OrderType, limitPrice: Option<real>)

  function OrderFor(request: Request, id: nat): Order {
    Order(id, request.symbol, request.side, request.quantity, request.orderType, request.limitPrice)
  }

  /** A request takes the next id whether or not its type is one the broker acts on. */
  function AfterRequest(terms: Terms, b: Book, request: Request): Book {
    var order := OrderFor(request, b.counter + 1);
    var next := b.(counter := b.counter + 1);
    if order.orderType.Market? then
      if order.symbol in b.prices then next.Fill(terms, order, b.prices[order.symbol])
      else next.(held := b.held + [order])
    else if order.orderType.Limit? && order.limitPrice.Some? then
      if order.symbol in b.prices && Crossed(order.side, b.prices[order.symbol], order.limitPrice.value)
      then next.Fill(terms, order, b.prices[order.symbol])
      else next.(pending := b.pending + [order])
    else next
  }

  predicate DistinctIds(orders: seq<Order>) {
    forall i, j :: 0 <= i < j < |orders| ==> orders[i].id != orders[j].id
  }

  predicate AllLimit(orders: seq<Order>) {
    forall i :: 0 <= i < |orders| ==> orders[i].orderType.Limit? && orders[i].limitPrice.Some?
  }

  predicate AllMarket(orders: seq<Order>) {
    forall i :: 0 <= i < |orders| ==> orders[i].orderType.Market?
  }

  class SimulatedBroker {
    const terms: Terms
    var running: bool
    var counter: nat
    var prices: map<Symbol, real>
    var held: seq<Order>
    var pending: seq<Order>
    var completed: seq<Completed>
    var published: seq<Event>

    function View(): Book
      reads this
    {
      Book(counter, prices, held, pending, completed, published)
    }

    /** Held orders are market orders; the pending table is keyed by id and holds limit orders. */
    ghost predicate Valid()
      reads this
    {
      AllMarket(held) && AllLimit(pending) && DistinctIds(pending)
      && forall i :: 0 <= i < |pending| ==> pending[i].id <= counter
    }

    constructor (terms: Terms)
      ensures Valid() && !running && this.terms == terms && View() == Book(0, map[], [], [], [], [])
    {
      this.terms := terms;
      running, counter, prices, held, pending, completed, published := false, 0, map[], [], [], [], [];
    }

    method Start()
      modifies this`running
      ensures running
    {
      running := true;
    }

    /** Stopping forgets everything but the id counter. */
    method Stop()
      requires Valid()
      modifies this
      ensures Valid() && !running
      ensures View() == if old(running) then old(View()).(prices := map[], held := [], pending := [], completed := [])
                        else old(View())
    {
      if !running {
        return;
      }
      running, prices, held, pending, completed := false, map[], [], [], [];
    }

    method FillOrder(order: Order, price: real)
      modifies this`completed, this`published
      ensures View() == old(View()).Fill(terms, order, price)
    {
      var filledPrice := terms.Slip(price, order.side);
      published := published + [OrderSubmitted(order)];
      published := published + [OrderStatusFilled(order.id)];
      published := published + [OrderFilled(order.id, order.symbol, order.side, filledPrice, order.quantity)];
      completed := completed
        + [Completed(order.id, order.symbol, order.side, order.quantity, filledPrice, terms.commission)];
    }

    method OnOrderRequest(request: Request)
      requires Valid()
      modifies this
      ensures Valid() && running == old(running)
      ensures View() == if running then AfterRequest(terms, old(View()), request) else old(View())
    {
      if !running {
        return;
      }
      counter := counter + 1;
      var order := OrderFor(request, counter);
      if order.orderType.Market? {
        if order.symbol in prices {
          FillOrder(order, prices[order.symbol]);
        } else {
          held := held + [order];
        }
      } else if order.orderType.Limit? && order.limitPrice.Some? {
        if order.symbol in prices && Crossed(order.side, prices[order.symbol], order.limitPrice.value) {
          FillOrder(order, prices[order.symbol]);
        } else {
          pending := pending + [order];
        }
      }
    }

    method OnBarClose(symbol: Symbol, close: real)
      requires Valid()
      modifies this
      ensures Valid() && running == old(running)
      ensures View() == if running then AfterPrice(terms, old(View()), symbol, close) else old(View())
    {
      if !running {
        return;
      }
      prices := prices[symbol := close];
      assert prices[symbol := close] == prices;
      TryFillHeldOrders(symbol, close);
    }

    method OnTick(symbol: Symbol, price: real)
      requires Valid()
      modifies this
      ensures Valid() && running == old(running)
      ensures View() == if running && price != 0.0 then AfterPrice(terms, old(View()), symbol, price) else old(View())
    {
      if !running || price == 0.0 {
        return;
      }
      prices := prices[symbol := price];
      assert prices[symbol := price] == prices;
      TryFillHeldOrders(symbol, price);
    }

    method TryFillHeldOrders(symbol: Symbol, price: real)
      requires Valid() && symbol in prices && prices[symbol] == price
      modifies this`held, this`pending, this`completed, this`published
      ensures Valid()
      ensures View() == AfterPrice(terms, old(View()), symbol, price)
    {
      ghost var b := View();
      assert b.prices[symbol := price] == b.prices;
      ReleaseHeld(symbol, price);
      FillCrossed(symbol, price);
    }

    /** Fills the held orders of the symbol in order, then removes them one by one. */
    method ReleaseHeld(symbol: Symbol, price: real)
      requires Valid()
      modifies this`held, this`completed, this`published
      ensures Valid()
      ensures View() == FillEach(terms, old(View()), Filter(Of(symbol), old(held)), price)
                        .(held := Filter(NotOf(symbol), old(held)))
    {
      var toRemove := FillHeld(symbol, price);
      RemoveHeld(symbol, toRemove);
      FilterMembers(NotOf(symbol), old(held));
      forall i | 0 <= i < |held| ensures held[i].orderType.Market? {
        assert held[i] in old(held);
      }
    }

    method FillHeld(symbol: Symbol, price: real) returns (filled: seq<Order>)
      requires AllMarket(held)
      modifies this`completed, this`published
      ensures filled == Filter(Of(symbol), held)
      ensures View() == FillEach(terms, old(View()), filled, price)
    {
      filled := [];
      for i := 0 to |held|
        invariant filled == Filter(Of(symbol), held[..i])
        invariant View() == FillEach(terms, old(View()), filled, price)
      {
        FilterNext(Of(symbol), held, i);
        var order := held[i];
        if order.symbol == symbol {
          FillOrder(order, price);
          assert (filled + [order])[..|filled|] == filled;
          filled := filled + [order];
        }
      }
      assert held[..|held|] == held;
    }

    method RemoveHeld(symbol: Symbol, toRemove: seq<Order>)
      requires toRemove == Filter(Of(symbol), held)
      modifies this`held
      ensures held == Filter(NotOf(symbol), old(held))
    {
      for j := 0 to |toRemove|
        invariant toRemove[j..] == Filter(Of(symbol), held)
        invariant Filter(NotOf(symbol), held) == Filter(NotOf(symbol), old(held))
      {
        var order := toRemove[j];
        FilterMembers(Of(symbol), held);
        RemoveSelected(Of(symbol), NotOf(symbol), Same(order), held);
        held := RemoveFirst(Same(order), held);
      }
      FilterNone(Of(symbol), held);
      FilterAll(NotOf(symbol), held);
    }

    /** Fills the crossed resting orders in order, then drops them from the table by id. */
    method FillCrossed(symbol: Symbol, price: real)
      requires Valid()
      modifies this`pending, this`completed, this`published
      ensures Valid()
      ensures View() == FillEach(terms, old(View()), Filter(CrossedBy(symbol, price), old(pending)), price)
                        .(pending := Filter(NotCrossedBy(symbol, price), old(pending)))
    {
      var toRemove := FillPending(symbol, price);
      RemovePending(symbol, price, toRemove);
    }

    method FillPending(symbol: Symbol, price: real) returns (ids: seq<nat>)
      requires AllLimit(pending)
      modifies this`completed, this`published
      ensures ids == Ids(Filter(CrossedBy(symbol, price), pending))
      ensures View() == FillEach(terms, old(View()), Filter(CrossedBy(symbol, price), pending), price)
    {
      ids := [];
      ghost var crossed := [];
      for i := 0 to |pending|
        invariant crossed == Filter(CrossedBy(symbol, price), pending[..i])
        invariant ids == Ids(crossed)
        invariant View() == FillEach(terms, old(View()), crossed, price)
      {
        FilterNext(CrossedBy(symbol, price), pending, i);
        var order := pending[i];
        if order.symbol == symbol && order.limitPrice.Some? && Crossed(order.side, price, order.limitPrice.value) {
          FillOrder(order, order.limitPrice.value);
          assert (crossed + [order])[..|crossed|] == crossed;
          crossed := crossed + [order];
          ids := ids + [order.id];
        }
      }
      assert pending[..|pending|] == pending;
    }

    method RemovePending(symbol: Symbol, price: real, toRemove: seq<nat>)
      requires Valid() && toRemove == Ids(Filter(CrossedBy(symbol, price), pending))
      modifies this`pending
      ensures Valid()
      ensures pending == Filter(NotCrossedBy(symbol, price), old(pending))
    {
      hide Filter, RemoveFirst, DistinctIds, AllLimit;
      ghost var crossed := Filter(CrossedBy(symbol, price), pending);
      for j := 0 to |toRemove|
        invariant crossed[j..] == Filter(CrossedBy(symbol, price), pending)
        invariant Filter(NotCrossedBy(symbol, price), pending) == Filter(NotCrossedBy(symbol, price), old(pending))
        invariant Valid()
      {
        assert crossed[j] == crossed[j..][0];
        RemoveCrossed(symbol, price, pending, counter);
        pending := RemoveFirst(WithId(toRemove[j]), pending);
      }
      FilterNone(CrossedBy(symbol, price), pending);
      FilterAll(NotCrossedBy(symbol, price), pending);
    }
  }

  /** Dropping the first crossed order by its id drops nothing else. */
  lemma RemoveCrossed(symbol: Symbol, price: real, orders: seq<Order>, bound: nat)
    requires Filter(CrossedBy(symbol, price), orders) != []
    requires DistinctIds(orders) && AllLimit(orders) && forall i :: 0 <= i < |orders| ==> orders[i].id <= bound
    ensures var crossed := Filter(CrossedBy(symbol, price), orders);
      var rest := RemoveFirst(WithId(crossed[0].id), orders);
      && Filter(CrossedBy(symbol, price), rest) == crossed[1..]
      && Filter(NotCrossedBy(symbol, price), rest) == Filter(NotCrossedBy(symbol, price), orders)
      && DistinctIds(rest) && AllLimit(rest) && forall i :: 0 <= i < |rest| ==> rest[i].id <= bound
  {
    hide Filter, RemoveFirst;
    var first := Filter(CrossedBy(symbol, price), orders)[0];
    FilterMembers(CrossedBy(symbol, price), orders);
    assert first in Filter(CrossedBy(symbol, price), orders);
    RemoveSelected(CrossedBy(symbol, price), NotCrossedBy(symbol, price), WithId(first.id), orders);
    RemoveKeepsTable(WithId(first.id), orders, bound);
  }

  function Ids(orders: seq<Order>): seq<nat> {
    seq(|orders|, i requires 0 <= i < |orders| => orders[i].id)
  }

  lemma {:induction false} RemoveKeepsTable(matches: Order -> bool, orders: seq<Order>, bound: nat)
    requires DistinctIds(orders) && AllLimit(orders) && forall i :: 0 <= i < |orders| ==> orders[i].id <= bound
    ensures var rest := RemoveFirst(matches, orders);
      && DistinctIds(rest) && AllLimit(rest)
      && (forall x :: x in rest ==> x in orders)
      && (forall i :: 0 <= i < |rest| ==> rest[i].id <= bound)
  {
    if orders != [] && !matches(orders[0]) {
      RemoveKeepsTable(matches, orders[1..], bound);
      var kept := RemoveFirst(matches, orders[1..]);
      forall k | 0 <= k < |kept| ensures kept[k].id != orders[0].id && kept[k].id <= bound {
        assert kept[k] in orders[1..];
      }
    }
  }
}
