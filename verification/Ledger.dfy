/** The average-cost ledger of one symbol: what a fill does to a position, and what a whole history of
    fills amounts to. */
module Ledger {
  import opened Basics
  import opened Reals
  import opened Sums

  /** The value of a position record: signed quantity, average cost of the open part, realized PnL. */
  datatype Lot = Lot(quantity: int, avgCost: real, realizedPnl: real) {

    /** What the books say was paid out and taken in: realized PnL less the cost of what is still open. */
    function Balance(): real {
      realizedPnl - Times(avgCost, quantity)
    }

    /** Realized PnL plus the open part valued at a given price. */
    function TotalPnl(mark: real): real {
      realizedPnl + Times(mark - avgCost, quantity)
    }

    /** A flat position carries no cost. */
    predicate FlatIsFree() {
      quantity == 0 ==> avgCost == 0.0
    }
  }

  const EMPTY := Lot(0, 0.0, 0.0)

  datatype Fill = Fill(side: Side, quantity: int, price: real) {

    function Signed(): int {
      if side == Buy then quantity else if side == Sell then -quantity else 0
    }

    /** Money received by the account for this fill. */
    function Cash(): real {
      -Times(price, Signed())
    }
  }

  function Abs(n: int): nat {
    if n < 0 then -n else n
  }

  function Min(a: int, b: int): int {
    if a < b then a else b
  }

  /** The cost per share of `held` shares at `avg` together with `added` shares at `price`. */
  function AverageCost(avg: real, held: int, price: real, added: int): real
    requires held + added != 0
  {
    (Times(avg, held) + Times(price, added)) / (held + added) as real
  }

  /** One fill against a position: a fill on its own side (or from flat) averages the cost; a fill against
      it realizes the covered part, and an excess opens the other side at the fill price. Should a negative
      fill quantity leave nothing on the fill's side, the cost is dropped. */
  function Apply(lot: Lot, fill: Fill): Lot {
    if fill.side == Buy then
      if lot.quantity >= 0 then Extend(lot, fill, lot.quantity + fill.quantity)
      else
        var covering := Min(fill.quantity, Abs(lot.quantity));
        Reduce(lot, fill, Times(lot.avgCost - fill.price, covering), lot.quantity + covering,
               fill.quantity - covering)
    else if fill.side == Sell then
      if lot.quantity <= 0 then Extend(lot, fill, lot.quantity - fill.quantity)
      else
        var covering := Min(fill.quantity, lot.quantity);
        Reduce(lot, fill, Times(fill.price - lot.avgCost, covering), lot.quantity - covering,
               -(fill.quantity - covering))
    else lot
  }

  function Extend(lot: Lot, fill: Fill, newQty: int): Lot {
    var held := Abs(lot.quantity);
    var kept := held + fill.quantity > 0;
    lot.(quantity := newQty,
         avgCost := if kept then AverageCost(lot.avgCost, held, fill.price, fill.quantity) else 0.0)
  }

  function Reduce(lot: Lot, fill: Fill, gain: real, left: int, excess: int): Lot {
    var realized := lot.realizedPnl + gain;
    if excess != 0 then Lot(excess, fill.price, realized)
    else Lot(left, if left == 0 then 0.0 else lot.avgCost, realized)
  }

  function Run(lot: Lot, fills: seq<Fill>): Lot {
    if fills == [] then lot else Apply(Run(lot, fills[..|fills| - 1]), fills[|fills| - 1])
  }

  function NetQuantity(fills: seq<Fill>): int {
    if fills == [] then 0 else NetQuantity(fills[..|fills| - 1]) + fills[|fills| - 1].Signed()
  }

  function NetCash(fills: seq<Fill>): real {
    if fills == [] then 0.0 else NetCash(fills[..|fills| - 1]) + fills[|fills| - 1].Cash()
  }

  predicate NonNegative(fills: seq<Fill>) {
    forall i :: 0 <= i < |fills| ==> fills[i].quantity >= 0
  }

  // ---------------------------------------------------------------------------------------------
  // Cash conservation
  // ---------------------------------------------------------------------------------------------

  /** The exact condition under which one fill keeps the books in balance, for every fill quantity. A fill
      loses money from the books only when a negative quantity on the position's own side takes it to
      zero or through zero while cost is still attached to it. */
  ghost predicate DropsCost(lot: Lot, fill: Fill) {
    && ((fill.side == Buy && lot.quantity >= 0) || (fill.side == Sell && lot.quantity <= 0))
    && Abs(lot.quantity) + fill.quantity <= 0
    && Times(lot.avgCost, Abs(lot.quantity)) + Times(fill.price, fill.quantity) != 0.0
  }

  lemma ExtendBalances(lot: Lot, fill: Fill, next: Lot)
    requires next == Apply(lot, fill)
    requires (fill.side == Buy && lot.quantity >= 0) || (fill.side == Sell && lot.quantity <= 0)
    ensures next.quantity == lot.quantity + fill.Signed()
    ensures next.Balance() == lot.Balance() + fill.Cash() <==> !DropsCost(lot, fill)
  {
    var held, total := Abs(lot.quantity), Abs(lot.quantity) + fill.quantity;
    var cost := Times(lot.avgCost, held) + Times(fill.price, fill.quantity);
    TimesNegates(lot.avgCost, held);
    TimesNegates(fill.price, fill.quantity);
    TimesNegates(next.avgCost, total);
    if total > 0 {
      QuotientTimes(cost, total);
      assert next.avgCost == cost / total as real;
    }
  }

  lemma ReduceBalances(lot: Lot, fill: Fill, next: Lot)
    requires next == Apply(lot, fill)
    requires (fill.side == Buy && lot.quantity < 0) || (fill.side == Sell && lot.quantity > 0)
    ensures next.quantity == lot.quantity + fill.Signed()
    ensures next.Balance() == lot.Balance() + fill.Cash()
  {
    var a, p, q, s := lot.avgCost, fill.price, lot.quantity, fill.Signed();
    var covering := Min(fill.quantity, Abs(q));
    var c := if fill.side == Buy then covering else -covering;
    TimesSplits(a, p, covering);
    TimesSplits(p, a, covering);
    TimesNegates(a, covering);
    TimesNegates(p, covering);
    TimesAdds(a, q, c);
    TimesAdds(p, c, s - c);
  }

  lemma StepBalancesIff(lot: Lot, fill: Fill)
    ensures Apply(lot, fill).quantity == lot.quantity + fill.Signed()
    ensures Apply(lot, fill).Balance() == lot.Balance() + fill.Cash() <==> !DropsCost(lot, fill)
  {
    var next := Apply(lot, fill);
    if (fill.side == Buy && lot.quantity >= 0) || (fill.side == Sell && lot.quantity <= 0) {
      ExtendBalances(lot, fill, next);
    } else if fill.side == Buy || fill.side == Sell {
      ReduceBalances(lot, fill, next);
    }
  }

  /** A fill of zero or more shares always keeps the books in balance. */
  lemma StepBalances(lot: Lot, fill: Fill)
    requires fill.quantity >= 0 && lot.FlatIsFree()
    ensures Apply(lot, fill).quantity == lot.quantity + fill.Signed()
    ensures Apply(lot, fill).Balance() == lot.Balance() + fill.Cash()
    ensures Apply(lot, fill).FlatIsFree()
  {
    StepBalancesIff(lot, fill);
  }

  /** Over every fill sequence the position holds the net quantity and its books equal the net cash. */
  lemma {:induction false} CashConservation(fills: seq<Fill>)
    requires NonNegative(fills)
    ensures var end := Run(EMPTY, fills);
      && end.quantity == NetQuantity(fills)
      && end.Balance() == NetCash(fills)
      && end.FlatIsFree()
  {
    if fills != [] {
      CashConservation(fills[..|fills| - 1]);
      StepBalances(Run(EMPTY, fills[..|fills| - 1]), fills[|fills| - 1]);
    }
  }

  // ---------------------------------------------------------------------------------------------
  // Splitting a fill
  // ---------------------------------------------------------------------------------------------

  /** The part of a fill that closes existing exposure. */
  function Covered(quantity: int, side: Side, size: int): int {
    if side == Buy && quantity < 0 then Min(size, -quantity)
    else if side == Sell && quantity > 0 then Min(size, quantity)
    else 0
  }

  /** Gain per covered share. */
  function Edge(lot: Lot, fill: Fill): real {
    if fill.side == Buy then lot.avgCost - fill.price else fill.price - lot.avgCost
  }

  lemma RealizesOnlyCovered(lot: Lot, fill: Fill, edge: real, covered: int)
    requires edge == Edge(lot, fill) && covered == Covered(lot.quantity, fill.side, fill.quantity)
    ensures Apply(lot, fill).realizedPnl == lot.realizedPnl + Times(edge, covered)
  {
  }

  /** A lot is determined by its quantity, its realized PnL and its balance. */
  lemma LotDetermined(a: Lot, b: Lot)
    requires a.FlatIsFree() && b.FlatIsFree()
    requires a.quantity == b.quantity && a.realizedPnl == b.realizedPnl && a.Balance() == b.Balance()
    ensures a == b
  {
    if a.quantity != 0 {
      TimesCancels(a.avgCost, b.avgCost, a.quantity);
    }
  }

  /** One fill of a + b leaves exactly the position that a and then b at the same price leave, whether it
      adds, covers partly, closes or flips. */
  lemma SplitFill(lot: Lot, side: Side, a: int, b: int, price: real)
    requires lot.FlatIsFree() && a >= 0 && b >= 0
    ensures Apply(Apply(lot, Fill(side, a, price)), Fill(side, b, price)) == Apply(lot, Fill(side, a + b, price))
  {
    if side == Buy || side == Sell {
      var first, second, whole := Fill(side, a, price), Fill(side, b, price), Fill(side, a + b, price);
      var mid := Apply(lot, first);
      var parts, one := Apply(mid, second), Apply(lot, whole);
      assert parts.quantity == one.quantity && parts.Balance() == one.Balance()
             && parts.FlatIsFree() && one.FlatIsFree() by {
        SplitBalances(lot, side, a, b, price);
      }
      assert parts.realizedPnl == one.realizedPnl by { SplitRealizes(lot, side, a, b, price); }
      LotDetermined(parts, one);
    }
  }

  lemma SplitBalances(lot: Lot, side: Side, a: int, b: int, price: real)
    requires lot.FlatIsFree() && a >= 0 && b >= 0
    ensures var parts := Apply(Apply(lot, Fill(side, a, price)), Fill(side, b, price));
            var one := Apply(lot, Fill(side, a + b, price));
      parts.quantity == one.quantity && parts.Balance() == one.Balance() && parts.FlatIsFree() && one.FlatIsFree()
  {
    var first, second, whole := Fill(side, a, price), Fill(side, b, price), Fill(side, a + b, price);
    StepBalances(lot, first);
    StepBalances(Apply(lot, first), second);
    StepBalances(lot, whole);
    CashAdds(side, a, b, price);
  }

  lemma CashAdds(side: Side, a: int, b: int, price: real)
    ensures Fill(side, a + b, price).Cash() == Fill(side, a, price).Cash() + Fill(side, b, price).Cash()
  {
    var x, y := Fill(side, a, price).Signed(), Fill(side, b, price).Signed();
    TimesAdds(price, x, y);
  }

  lemma SplitRealizes(lot: Lot, side: Side, a: int, b: int, price: real)
    requires lot.FlatIsFree() && a >= 0 && b >= 0
    ensures Apply(Apply(lot, Fill(side, a, price)), Fill(side, b, price)).realizedPnl
         == Apply(lot, Fill(side, a + b, price)).realizedPnl
  {
    hide Apply;
    var first, second := Fill(side, a, price), Fill(side, b, price);
    var mid := Apply(lot, first);
    var e, c, d := Edge(lot, first), Covered(lot.quantity, side, a), Covered(mid.quantity, side, b);
    var f := Edge(mid, second);
    SecondPartCovers(lot, side, a, b, price, e, f, c, d);
    RealizesOnlyCovered(lot, first, e, c);
    RealizesOnlyCovered(mid, second, f, d);
    RealizesOnlyCovered(lot, Fill(side, a + b, price), e, c + d);
    TimesAdds(e, c, d);
  }

  lemma SecondPartCovers(lot: Lot, side: Side, a: int, b: int, price: real, e: real, f: real, c: int, d: int)
    requires lot.FlatIsFree() && a >= 0 && b >= 0
    requires e == Edge(lot, Fill(side, a, price)) && c == Covered(lot.quantity, side, a)
    requires var mid := Apply(lot, Fill(side, a, price));
      f == Edge(mid, Fill(side, b, price)) && d == Covered(mid.quantity, side, b)
    ensures Covered(lot.quantity, side, a + b) == c + d
    ensures Times(f, d) == Times(e, d)
  {
    StepBalances(lot, Fill(side, a, price));
    if d != 0 {
      CoveringKeepsCost(lot, Fill(side, a, price));
    }
  }

  /** Covering that stops short of closing leaves the average cost alone. */
  lemma CoveringKeepsCost(lot: Lot, fill: Fill)
    requires fill.quantity >= 0
    requires fill.side == Buy ==> lot.quantity < 0 && Apply(lot, fill).quantity < 0
    requires fill.side == Sell ==> lot.quantity > 0 && Apply(lot, fill).quantity > 0
    ensures Apply(lot, fill).avgCost == lot.avgCost
  {
    StepBalancesIff(lot, fill);
  }

  function PartsTotal(parts: seq<int>): int {
    if parts == [] then 0 else PartsTotal(parts[..|parts| - 1]) + parts[|parts| - 1]
  }

  function InParts(side: Side, parts: seq<int>, price: real): seq<Fill> {
    seq(|parts|, i requires 0 <= i < |parts| => Fill(side, parts[i], price))
  }

  /** An order filled in any number of parts at one price leaves the position one whole fill leaves. */
  lemma {:induction false} SplitIntoParts(lot: Lot, side: Side, parts: seq<int>, price: real)
    requires lot.FlatIsFree()
    requires |parts| > 0 && forall i :: 0 <= i < |parts| ==> parts[i] >= 0
    ensures PartsTotal(parts) >= 0
    ensures Run(lot, InParts(side, parts, price)) == Apply(lot, Fill(side, PartsTotal(parts), price))
    decreases |parts|
  {
    var last := |parts| - 1;
    assert InParts(side, parts, price)[..last] == InParts(side, parts[..last], price);
    if last == 0 {
      assert Run(lot, InParts(side, parts[..0], price)) == lot;
      assert PartsTotal(parts[..0]) == 0;
    } else {
      SplitIntoParts(lot, side, parts[..last], price);
      SplitFill(lot, side, PartsTotal(parts[..last]), parts[last], price);
    }
  }

  // ---------------------------------------------------------------------------------------------
  // Reordering fills
  // ---------------------------------------------------------------------------------------------

  lemma {:induction false} NetWithout(fills: seq<Fill>, i: nat)
    requires i < |fills|
    ensures NetQuantity(fills) == NetQuantity(fills[..i] + fills[i + 1..]) + fills[i].Signed()
    ensures NetCash(fills) == NetCash(fills[..i] + fills[i + 1..]) + fills[i].Cash()
    decreases |fills|
  {
    var last := |fills| - 1;
    var rest := fills[..i] + fills[i + 1..];
    if i == last {
      assert rest == fills[..last];
    } else {
      NetWithout(fills[..last], i);
      assert rest[..|rest| - 1] == fills[..last][..i] + fills[..last][i + 1..];
      assert rest[|rest| - 1] == fills[last];
    }
  }

  lemma {:induction false} NetIgnoresOrder(xs: seq<Fill>, ys: seq<Fill>)
    requires multiset(xs) == multiset(ys)
    ensures NetQuantity(xs) == NetQuantity(ys) && NetCash(xs) == NetCash(ys)
    decreases |xs|
  {
    if xs == [] {
      assert |multiset(ys)| == 0;
    } else {
      var i := FindLast(xs, ys);
      NetIgnoresOrder(xs[..|xs| - 1], ys[..i] + ys[i + 1..]);
      NetWithout(ys, i);
    }
  }

  /** In whatever order a day's fills arrive, the position ends at the same quantity and, at any common
      mark, the same total PnL. */
  lemma OrderOfFillsIsIrrelevant(xs: seq<Fill>, ys: seq<Fill>, mark: real)
    requires NonNegative(xs) && multiset(xs) == multiset(ys)
    ensures Run(EMPTY, xs).quantity == Run(EMPTY, ys).quantity
    ensures Run(EMPTY, xs).TotalPnl(mark) == Run(EMPTY, ys).TotalPnl(mark)
  {
    NonNegativeIgnoresOrder(xs, ys);
    NetIgnoresOrder(xs, ys);
    var quantity, cash := NetQuantity(xs), NetCash(xs);
    TotalPnlOfRun(xs, quantity, cash, mark);
    TotalPnlOfRun(ys, quantity, cash, mark);
  }

  lemma NonNegativeIgnoresOrder(xs: seq<Fill>, ys: seq<Fill>)
    requires NonNegative(xs) && multiset(xs) == multiset(ys)
    ensures NonNegative(ys)
  {
    forall i | 0 <= i < |ys| ensures ys[i].quantity >= 0 {
      assert ys[i] in multiset(xs);
    }
  }

  /** Total PnL at a mark is net cash plus the net quantity at that mark. */
  lemma TotalPnlOfRun(fills: seq<Fill>, quantity: int, cash: real, mark: real)
    requires NonNegative(fills) && quantity == NetQuantity(fills) && cash == NetCash(fills)
    ensures Run(EMPTY, fills).quantity == quantity
    ensures Run(EMPTY, fills).TotalPnl(mark) == cash + Times(mark, quantity)
  {
    hide Run;
    CashConservation(fills);
    TotalPnlFromBalance(Run(EMPTY, fills), mark);
  }

  lemma TotalPnlFromBalance(lot: Lot, mark: real)
    ensures lot.TotalPnl(mark) == lot.Balance() + Times(mark, lot.quantity)
  {
    TimesSplits(mark, lot.avgCost, lot.quantity);
  }

  /** Realized PnL alone may depend on the order: buying dear before or after selling. */
  lemma RealizedDependsOnOrder()
    ensures var dear, cheap, sale := Fill(Buy, 1, 3.0), Fill(Buy, 1, 1.0), Fill(Sell, 1, 2.0);
      && Run(EMPTY, [dear, sale, cheap]).realizedPnl == -1.0
      && Run(EMPTY, [cheap, sale, dear]).realizedPnl == 1.0
      && multiset([dear, sale, cheap]) == multiset([cheap, sale, dear])
  {
    var dear, cheap, sale := Fill(Buy, 1, 3.0), Fill(Buy, 1, 1.0), Fill(Sell, 1, 2.0);
    RunOfThree(dear, sale, cheap);
    RunOfThree(cheap, sale, dear);
    assert Apply(EMPTY, dear) == Lot(1, 3.0, 0.0) && Apply(EMPTY, cheap) == Lot(1, 1.0, 0.0);
  }

  lemma RunOfThree(a: Fill, b: Fill, c: Fill)
    ensures Run(EMPTY, [a, b, c]) == Apply(Apply(Apply(EMPTY, a), b), c)
  {
    assert [a, b, c][..2] == [a, b] && [a, b][..1] == [a] && [a][..0] == [];
    assert Run(EMPTY, [a]) == Apply(EMPTY, a);
    assert Run(EMPTY, [a, b]) == Apply(Apply(EMPTY, a), b);
  }

  // ---------------------------------------------------------------------------------------------
  // Average cost stays among the prices that built the position
  // ---------------------------------------------------------------------------------------------

  /** The prices of the fills that opened or increased the position since it was last flat or flipped,
      read off the fill history and the signed quantity alone. */
  function OpeningPrices(fills: seq<Fill>): seq<real> {
    if fills == [] then []
    else
      var past, fill := fills[..|fills| - 1], fills[|fills| - 1];
      var before, after := NetQuantity(past), NetQuantity(fills);
      if after == 0 then []
      else if before == 0 || (before > 0) != (after > 0) then [fill.price]
      else if Abs(after) > Abs(before) then OpeningPrices(past) + [fill.price]
      else OpeningPrices(past)
  }

  ghost predicate InHull(x: real, prices: seq<real>) {
    exists i, j :: 0 <= i < |prices| && 0 <= j < |prices| && prices[i] <= x <= prices[j]
  }

  lemma HullGrows(x: real, y: real, p: real, prices: seq<real>)
    requires InHull(x, prices)
    requires x <= y <= p || p <= y <= x
    ensures InHull(y, prices + [p])
  {
    var i, j :| 0 <= i < |prices| && 0 <= j < |prices| && prices[i] <= x <= prices[j];
    var more := prices + [p];
    assert more[|prices|] == p && more[i] == prices[i] && more[j] == prices[j];
    if x <= y <= p { assert more[i] <= y <= more[|prices|]; } else { assert more[|prices|] <= y <= more[j]; }
  }

  lemma WeightedMeanBetween(a: real, m: real, p: real, n: real)
    requires m > 0.0 && n >= 0.0
    ensures var y := (a * m + p * n) / (m + n); a <= y <= p || p <= y <= a
  {
    var t := m + n;
    assert (a * m + p * n) / t - a == (p - a) * n / t;
    assert p - (a * m + p * n) / t == (p - a) * m / t;
    var gap := if p >= a then p - a else a - p;
    ProductSign(gap, n);
    ProductSign(gap, m);
    QuotientSign(gap * n, t);
    QuotientSign(gap * m, t);
    if p < a {
      assert (p - a) * n / t == -(gap * n / t) && (p - a) * m / t == -(gap * m / t);
    }
  }

  /** Averaging moves the cost from the old cost towards the fill price. */
  lemma AverageCostBetween(a: real, m: nat, p: real, n: nat)
    requires m + n > 0 && (m == 0 ==> a == 0.0)
    ensures var y := AverageCost(a, m, p, n);
      if m == 0 then y == p else if n == 0 then y == a else a <= y <= p || p <= y <= a
  {
    if m > 0 && n > 0 {
      assert (m + n) as real == m as real + n as real;
      WeightedMeanBetween(a, m as real, p, n as real);
    }
  }

  /** How one fill of zero or more shares moves the average cost. */
  ghost predicate CostMoves(lot: Lot, fill: Fill, after: Lot) {
    if lot.quantity == 0 || (lot.quantity > 0) != (after.quantity > 0) then after.avgCost == fill.price
    else if Abs(after.quantity) > Abs(lot.quantity) then
      lot.avgCost <= after.avgCost <= fill.price || fill.price <= after.avgCost <= lot.avgCost
    else after.avgCost == lot.avgCost
  }

  lemma ExtendingMovesCost(lot: Lot, fill: Fill)
    requires fill.quantity >= 0 && lot.FlatIsFree() && Apply(lot, fill).quantity != 0
    requires (fill.side == Buy && lot.quantity >= 0) || (fill.side == Sell && lot.quantity <= 0)
    ensures CostMoves(lot, fill, Apply(lot, fill))
  {
    AverageCostBetween(lot.avgCost, Abs(lot.quantity), fill.price, fill.quantity);
  }

  lemma CostStep(lot: Lot, fill: Fill)
    requires fill.quantity >= 0 && lot.FlatIsFree() && Apply(lot, fill).quantity != 0
    ensures CostMoves(lot, fill, Apply(lot, fill))
  {
    if (fill.side == Buy && lot.quantity >= 0) || (fill.side == Sell && lot.quantity <= 0) {
      ExtendingMovesCost(lot, fill);
    }
  }

  /** While a position is open its average cost lies within the prices that built it. */
  lemma {:induction false} CostStaysInHull(fills: seq<Fill>)
    requires NonNegative(fills) && NetQuantity(fills) != 0
    ensures InHull(Run(EMPTY, fills).avgCost, OpeningPrices(fills))
  {
    var past, fill := fills[..|fills| - 1], fills[|fills| - 1];
    CashConservation(past);
    CashConservation(fills);
    var lot, after := Run(EMPTY, past), Run(EMPTY, fills);
    CostStep(lot, fill);
    if lot.quantity == 0 || (lot.quantity > 0) != (after.quantity > 0) {
      assert [fill.price][0] == after.avgCost;
    } else {
      CostStaysInHull(past);
      if Abs(after.quantity) > Abs(lot.quantity) {
        HullGrows(lot.avgCost, after.avgCost, fill.price, OpeningPrices(past));
      }
    }
  }
}
