/** The position manager: many symbols, marks, equity and exposure, and the events each fill publishes. */
module Portfolio {
  import opened Basics
  import opened Ledger
  import opened Reals
  import opened Sums
  
  datatype Exposure = Exposure(gross: real, net: real, longs: nat, shorts: nat)

  datatype Event =
    | PositionOpened(symbol: Symbol, quantity: int, avgCost: real)
    | PositionClosed(symbol: Symbol, realizedPnl: real)
    | PnLUpdated(symbol: Symbol, unrealizedPnl: real, realizedPnl: real)
    | PositionUpdated(symbol: Symbol, quantity: int, avgCost: real, marketPrice: real)
    | ExposureUpdated(snapshot: Exposure, leverage: real, equity: real)
    | ExposureLimitHit(current: real, limit: real)

  function LotIn(lots: map<Symbol, Lot>, s: Symbol): Lot {
    if s in lots then lots[s] else EMPTY
  }

  /** The value of the position manager's state. `symbols` is the insertion order of the position table. */
  datatype Books = Books(capital: real, limit: Option<real>, symbols: seq<Symbol>, lots: map<Symbol, Lot>,
                         marks: map<Symbol, real>) {

    ghost predicate Valid() {
      && Distinct(symbols)
      && (forall s :: s in symbols <==> s in lots)
    }

    function LotOf(s: Symbol): Lot {
      LotIn(lots, s)
    }

    /** The last mark, or the position's own cost while the symbol has never been marked. */
    function PriceOf(s: Symbol): real {
      if s in marks then marks[s] else LotOf(s).avgCost
    }

    function UnrealizedOf(s: Symbol): real {
      var lot := LotOf(s);
      if lot.quantity > 0 then Times(PriceOf(s) - lot.avgCost, lot.quantity)
      else if lot.quantity < 0 then Times(lot.avgCost - PriceOf(s), Abs(lot.quantity))
      else 0.0
    }

    function GrossOf(s: Symbol): real {
      Times(PriceOf(s), Abs(LotOf(s).quantity))
    }

    function NetOf(s: Symbol): real {
      Times(PriceOf(s), LotOf(s).quantity)
    }

    ghost function Realized(): Symbol -> real { s => LotOf(s).realizedPnl }
    ghost function Unrealized(): Symbol -> real { s => UnrealizedOf(s) }
    ghost function Gross(): Symbol -> real { s => GrossOf(s) }
    ghost function Net(): Symbol -> real { s => NetOf(s) }
    ghost function Long(): Symbol -> bool { s => LotOf(s).quantity > 0 }
    ghost function Short(): Symbol -> bool { s => LotOf(s).quantity < 0 }
    ghost function Open(): Symbol -> bool { s => LotOf(s).quantity != 0 }

    ghost function Equity(): real {
      capital + (Sum(symbols, Realized()) + Sum(symbols, Unrealized()))
    }

    ghost function Snapshot(): Exposure {
      Exposure(Sum(symbols, Gross()), Sum(symbols, Net()), Count(symbols, Long()), Count(symbols, Short()))
    }

    ghost function Leverage(): real {
      if Equity() <= 0.0 then 0.0 else Snapshot().gross / Equity()
    }

    ghost function NonZero(): nat {
      Count(symbols, Open())
    }

    function AfterFill(s: Symbol, fill: Fill): Books {
      this.(symbols := if s in lots then symbols else symbols + [s],
            lots := lots[s := Apply(LotOf(s), fill)])
    }

    function AfterMark(s: Symbol, price: real): Books {
      this.(marks := marks[s := price])
    }
  }

  function LimitEvents(b: Books, symbols: seq<Symbol>): seq<Event> {
    if symbols == [] || b.limit.None? || b.limit.value <= 0.0 then []
    else
      var s := symbols[|symbols| - 1];
      LimitEvents(b, symbols[..|symbols| - 1])
      + if b.GrossOf(s) > b.limit.value then [ExposureLimitHit(b.GrossOf(s), b.limit.value)] else []
  }

  ghost function ExposureEvents(b: Books): seq<Event> {
    [ExposureUpdated(b.Snapshot(), b.Leverage(), b.Equity())] + LimitEvents(b, b.symbols)
  }

  /** What a fill announces about the position's life: opened from flat, closed to flat, or neither. */
  function LifeEvents(before: Lot, after: Lot, s: Symbol): seq<Event> {
    if before.quantity == 0 && after.quantity != 0 then [PositionOpened(s, after.quantity, after.avgCost)]
    else if before.quantity != 0 && after.quantity == 0 then [PositionClosed(s, after.realizedPnl)]
    else []
  }

  ghost function FillEvents(b: Books, s: Symbol, fill: Fill): seq<Event> {
    var next := b.AfterFill(s, fill);
    LifeEvents(b.LotOf(s), next.LotOf(s), s)
    + [PnLUpdated(s, next.UnrealizedOf(s), next.LotOf(s).realizedPnl)]
    + ExposureEvents(next)
  }

  /** The price a tick carries: its last price, else the middle of a two-sided quote, else nothing. */
  function TickPrice(price: real, bid: real, ask: real): Option<real> {
    var p := if price == 0.0 && bid != 0.0 && ask != 0.0 then (bid + ask) / 2.0 else price;
    if p == 0.0 then None else Some(p)
  }

  ghost function TickEvents(b: Books, s: Symbol, price: real): seq<Event> {
    var next := b.AfterMark(s, price);
    if s !in b.lots then []
    else
      [PnLUpdated(s, next.UnrealizedOf(s), next.LotOf(s).realizedPnl),
       PositionUpdated(s, next.LotOf(s).quantity, next.LotOf(s).avgCost, price)]
      + ExposureEvents(next)
  }

  // ---------------------------------------------------------------------------------------------
  // The objects
  // ---------------------------------------------------------------------------------------------

  class Position {
    const symbol: Symbol
    var quantity: int
    var avgCost: real
    var realizedPnl: real

    constructor (symbol: Symbol)
      ensures this.symbol == symbol && Value() == EMPTY
    {
      this.symbol := symbol;
      quantity, avgCost, realizedPnl := 0, 0.0, 0.0;
    }

    function Value(): Lot
      reads this
    {
      Lot(quantity, avgCost, realizedPnl)
    }

    /** The four-way branch on side and direction, in place. */
    method Update(side: Side, fillQty: int, fillPrice: real)
      modifies this
      ensures Value() == Apply(old(Value()), Fill(side, fillQty, fillPrice))
    {
      var prevQty := quantity;
      if side == Buy {
        if prevQty >= 0 {
          var newQty := prevQty + fillQty;
          avgCost := if newQty > 0
            then AverageCost(avgCost, prevQty, fillPrice, fillQty)
            else 0.0;
          quantity := newQty;
        } else {
          var covering := Min(fillQty, Abs(prevQty));
          realizedPnl := realizedPnl + Times(avgCost - fillPrice, covering);
          var remainingBuy := fillQty - covering;
          quantity := prevQty + covering;
          if remainingBuy > 0 {
            quantity := remainingBuy;
            avgCost := fillPrice;
          } else if quantity == 0 {
            avgCost := 0.0;
          }
        }
      } else if side == Sell {
        if prevQty <= 0 {
          var newQty := prevQty - fillQty;
          avgCost := if newQty < 0
            then AverageCost(avgCost, Abs(prevQty), fillPrice, fillQty)
            else 0.0;
          quantity := newQty;
        } else {
          var covering := Min(fillQty, prevQty);
          realizedPnl := realizedPnl + Times(fillPrice - avgCost, covering);
          var remainingSell := fillQty - covering;
          quantity := prevQty - covering;
          if remainingSell > 0 {
            quantity := -remainingSell;
            avgCost := fillPrice;
          } else if quantity == 0 {
            avgCost := 0.0;
          }
        }
      }
    }
  }

  lemma UpdateTwice<K, V>(m: map<K, V>, k: K, before: V, after: V)
    ensures m[k := before][k := after] == m[k := after]
  {
  }

  class PositionManager {
    const initialCapital: real
    const maxSymbolExposure: Option<real>
    var order: seq<Symbol>
    var positions: map<Symbol, Position>
    var marketPrices: map<Symbol, real>
    var running: bool
    var published: seq<Event>
    ghost var lots: map<Symbol, Lot>  // the values of the records in the table

    /** The insertion order lists exactly the keys of the table. */
    ghost predicate Listed()
      reads `order, `positions
    {
      Distinct(order) && forall s :: s in order <==> s in positions
    }

    ghost predicate Valid()
      reads `order, `positions, `lots, positions.Values
    {
      && Listed()
      && lots.Keys == positions.Keys
      && (forall s :: s in positions ==> positions[s].symbol == s && positions[s].Value() == lots[s])
    }

    ghost function View(): Books
      reads `order, `lots, `marketPrices
    {
      Books(initialCapital, maxSymbolExposure, order, lots, marketPrices)
    }

    constructor (initialCapital: real, maxSymbolExposure: Option<real>)
      ensures Valid() && !running && published == [] && positions == map[]
      ensures View() == Books(initialCapital, maxSymbolExposure, [], map[], map[])
    {
      this.initialCapital, this.maxSymbolExposure := initialCapital, maxSymbolExposure;
      order, positions, marketPrices, running, published := [], map[], map[], false, [];
      lots := map[];
    }

    method Start()
      modifies this`running
      ensures running
    {
      running := true;
    }

    method Stop()
      modifies this`running
      ensures !running
    {
      running := false;
    }

    method TotalRealizedPnl() returns (total: real)
      requires Valid()
      ensures total == Sum(order, View().Realized())
    {
      ghost var f := View().Realized();
      total := 0.0;
      for i := 0 to |order|
        invariant total == Sum(order[..i], f)
      {
        SumNext(order, i, f);
        total := total + positions[order[i]].realizedPnl;
      }
      assert order[..|order|] == order;
    }

    method ComputeUnrealizedPnl() returns (total: real)
      requires Valid()
      ensures total == Sum(order, View().Unrealized())
    {
      ghost var f := View().Unrealized();
      total := 0.0;
      for i := 0 to |order|
        invariant total == Sum(order[..i], f)
      {
        SumNext(order, i, f);
        var upnl := UnrealizedPnl(order[i], positions[order[i]]);
        total := total + upnl;
      }
      assert order[..|order|] == order;
    }

    method UnrealizedPnl(symbol: Symbol, pos: Position) returns (upnl: real)
      requires Valid() && symbol in positions && positions[symbol] == pos
      ensures upnl == View().UnrealizedOf(symbol)
    {
      var price := if symbol in marketPrices then marketPrices[symbol] else pos.avgCost;
      if pos.quantity > 0 {
        return Times(price - pos.avgCost, pos.quantity);
      }
      if pos.quantity < 0 {
        return Times(pos.avgCost - price, Abs(pos.quantity));
      }
      return 0.0;
    }

    method EquityNow() returns (equity: real)
      requires Valid()
      ensures equity == View().Equity()
    {
      var realized := TotalRealizedPnl();
      var unrealized := ComputeUnrealizedPnl();
      equity := initialCapital + (realized + unrealized);
    }

    /** One pass over the table; a short's value is subtracted from the net. */
    method ExposureNow() returns (snapshot: Exposure)
      requires Valid()
      ensures snapshot == View().Snapshot()
    {
      hide Times, Distinct;
      ghost var b := View();
      var gross, net, longs, shorts := 0.0, 0.0, 0, 0;
      for i := 0 to |order|
        invariant gross == Sum(order[..i], b.Gross()) && net == Sum(order[..i], b.Net())
        invariant longs == Count(order[..i], b.Long()) && shorts == Count(order[..i], b.Short())
      {
        var pos := positions[order[i]];
        var price := if order[i] in marketPrices then marketPrices[order[i]] else pos.avgCost;
        SumNext(order, i, b.Gross());
        SumNext(order, i, b.Net());
        CountNext(order, i, b.Long());
        CountNext(order, i, b.Short());
        TimesNegates(price, pos.quantity);
        var value := Times(price, Abs(pos.quantity));
        if pos.quantity > 0 {
          gross, net, longs := gross + value, net + value, longs + 1;
        } else if pos.quantity < 0 {
          gross, net, shorts := gross + value, net - value, shorts + 1;
        }
      }
      assert order[..|order|] == order;
      snapshot := Exposure(gross, net, longs, shorts);
    }

    method LeverageNow() returns (leverage: real)
      requires Valid()
      ensures leverage == View().Leverage()
    {
      var eq := EquityNow();
      if eq <= 0.0 {
        return 0.0;
      }
      var snapshot := ExposureNow();
      return snapshot.gross / eq;
    }

    method PublishExposure()
      requires Valid()
      modifies this`published
      ensures published == old(published) + ExposureEvents(View())
    {
      hide Distinct, Books.Snapshot, Books.Leverage, Books.Equity;
      var snapshot := ExposureNow();
      var leverage := LeverageNow();
      var equity := EquityNow();
      published := published + [ExposureUpdated(snapshot, leverage, equity)];
      if maxSymbolExposure.Some? && maxSymbolExposure.value > 0.0 {
        PublishLimits(maxSymbolExposure.value);
      }
    }

    /** One warning for every symbol whose value exceeds the limit, in table order. */
    method PublishLimits(limit: real)
      requires Valid() && maxSymbolExposure == Some(limit) && limit > 0.0
      modifies this`published
      ensures published == old(published) + LimitEvents(View(), order)
    {
      hide Distinct, Times;
      ghost var b := View();
      for i := 0 to |order|
        invariant published == old(published) + LimitEvents(b, order[..i])
      {
        assert order[..i + 1][..i] == order[..i];
        var pos := positions[order[i]];
        var price := if order[i] in marketPrices then marketPrices[order[i]] else pos.avgCost;
        var value := Times(price, Abs(pos.quantity));
        if value > limit {
          published := published + [ExposureLimitHit(value, limit)];
        }
      }
      assert order[..|order|] == order;
    }

    /** The symbol's record, created if this is its first fill. */
    method FindOrCreate(symbol: Symbol) returns (pos: Position)
      requires Valid()
      modifies this`order, this`positions, this`lots
      ensures Valid() && symbol in positions && positions[symbol] == pos
      ensures positions.Values <= old(positions.Values) + {pos} && (pos in old(positions.Values) || fresh(pos))
      ensures lots == old(lots)[symbol := LotIn(old(lots), symbol)]
      ensures order == if symbol in old(lots) then old(order) else old(order) + [symbol]
    {
      if symbol !in positions {
        pos := new Position(symbol);
        DistinctSnoc(order, symbol);
        hide Distinct;
        order := order + [symbol];
        positions, lots := positions[symbol := pos], lots[symbol := EMPTY];
      } else {
        pos := positions[symbol];
        assert lots[symbol := lots[symbol]] == lots;
      }
    }

    method UpdatePosition(symbol: Symbol, side: Side, fillQty: int, fillPrice: real)
      requires Valid()
      modifies this`order, this`positions, this`lots, positions.Values
      ensures Valid() && fresh(positions.Values - old(positions.Values))
      ensures symbol in positions && positions[symbol].Value() == lots[symbol]
      ensures lots == old(lots)[symbol := Apply(LotIn(old(lots), symbol), Fill(side, fillQty, fillPrice))]
      ensures order == if symbol in old(lots) then old(order) else old(order) + [symbol]
    {
      hide Apply, Listed, LotIn;
      var pos := FindOrCreate(symbol);
      UpdateTwice(old(lots), symbol, LotIn(old(lots), symbol), Apply(pos.Value(), Fill(side, fillQty, fillPrice)));
      pos.Update(side, fillQty, fillPrice);
      lots := lots[symbol := pos.Value()];
    }

    method ProcessFill(symbol: Symbol, side: Side, fillQty: int, fillPrice: real)
      requires Valid()
      modifies this, positions.Values
      ensures Valid() && running == old(running) && fresh(positions.Values - old(positions.Values))
      ensures !running ==> View() == old(View()) && published == old(published)
      ensures running ==> View() == old(View()).AfterFill(symbol, Fill(side, fillQty, fillPrice))
      ensures running ==> published == old(published) + FillEvents(old(View()), symbol, Fill(side, fillQty, fillPrice))
    {
      hide Valid, ExposureEvents, Apply, Times, LifeEvents;
      if !running {
        return;
      }
      var oldPos := Find(symbol);
      var oldQty := if oldPos == null then 0 else oldPos.quantity;
      UpdatePosition(symbol, side, fillQty, fillPrice);
      var pos := positions[symbol];
      PublishLife(symbol, oldQty, pos);
      var upnl := UnrealizedPnl(symbol, pos);
      published := published + [PnLUpdated(symbol, upnl, pos.realizedPnl)];
      PublishExposure();
    }

    method PublishLife(symbol: Symbol, oldQty: int, pos: Position)
      modifies this`published
      ensures forall before: Lot :: before.quantity == oldQty ==>
        published == old(published) + LifeEvents(before, pos.Value(), symbol)
    {
      if oldQty == 0 && pos.quantity != 0 {
        published := published + [PositionOpened(symbol, pos.quantity, pos.avgCost)];
      } else if oldQty != 0 && pos.quantity == 0 {
        published := published + [PositionClosed(symbol, pos.realizedPnl)];
      }
    }

    /** Table lookup. */
    method Find(symbol: Symbol) returns (pos: Position?)
      requires Valid()
      ensures if symbol in lots then symbol in positions && pos == positions[symbol] else pos == null
      ensures pos != null ==> pos.Value() == lots[symbol]
    {
      pos := if symbol in positions then positions[symbol] else null;
    }

    method OnTick(symbol: Symbol, tickPrice: real, bid: real, ask: real)
      requires Valid()
      modifies this`marketPrices, this`published
      ensures Valid()
      ensures var p := TickPrice(tickPrice, bid, ask);
        if running && p.Some?
        then View() == old(View()).AfterMark(symbol, p.value)
             && published == old(published) + TickEvents(old(View()), symbol, p.value)
        else View() == old(View()) && published == old(published)
    {
      hide Valid, ExposureEvents, Times;
      if !running {
        return;
      }
      var price := tickPrice;
      if price == 0.0 && bid != 0.0 && ask != 0.0 {
        price := (bid + ask) / 2.0;
      }
      if price == 0.0 {
        return;
      }
      marketPrices := marketPrices[symbol := price];
      var pos := Find(symbol);
      if pos != null {
        var upnl := UnrealizedPnl(symbol, pos);
        published := published + [PnLUpdated(symbol, upnl, pos.realizedPnl)];
        published := published + [PositionUpdated(symbol, pos.quantity, pos.avgCost, price)];
        PublishExposure();
      }
    }
  }
}
