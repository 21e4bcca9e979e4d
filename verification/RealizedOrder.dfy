/** When realized PnL does not depend on the order of the fills: total PnL never does, but what of it counts as
    realized may. */
module RealizedOrder {
  import opened Basics
  import opened Ledger
  import opened Reals
  import opened Sequences

  /** A quantity counted in a side's direction. */
  function Toward(side: Side, quantity: int): int {
    if side == Buy then quantity else -quantity
  }

  /** Fills that move the position to a side. */
  function To(side: Side): Fill -> bool {
    (fill: Fill) => fill.side == side && fill.quantity > 0
  }

  function NotTo(side: Side): Fill -> bool {
    (fill: Fill) => !To(side)(fill)
  }

  /** The side the fills end on, unless they end flat. */
  function NetSide(fills: seq<Fill>): Side {
    if NetQuantity(fills) > 0 then Buy else Sell
  }

  predicate OneSided(side: Side, fills: seq<Fill>) {
    forall fill :: fill in fills ==> !To(Opposite(side))(fill)
  }

  predicate OnePrice(side: Side, fills: seq<Fill>) {
    forall x, y :: x in fills && y in fills && To(side)(x) && To(side)(y) ==> x.price == y.price
  }

  /** Every order of the fills realizes the same. */
  ghost predicate RealizedIsFixed(fills: seq<Fill>) {
    forall other :: multiset(other) == multiset(fills) ==>
      Run(EMPTY, other).realizedPnl == Run(EMPTY, fills).realizedPnl
  }

  // ---------------------------------------------------------------------------------------------
  // Where the order does not matter
  // ---------------------------------------------------------------------------------------------

  lemma OneSidedStep(side: Side, lot: Lot, fill: Fill)
    requires side == Buy || side == Sell
    requires Toward(side, lot.quantity) >= 0 && fill.quantity >= 0 && !To(Opposite(side))(fill)
    ensures Toward(side, Apply(lot, fill).quantity) >= 0 && Apply(lot, fill).realizedPnl == lot.realizedPnl
  {
    hide AverageCost;
    RealizesOnlyCovered(lot, fill, Edge(lot, fill), Covered(lot.quantity, fill.side, fill.quantity));
    TimesZero(Edge(lot, fill));
  }

  lemma TimesZero(x: real)
    ensures Times(x, 0) == 0.0
  {
  }

  /** Fills that never go against a position realize nothing. */
  lemma {:induction false} OneSidedRealizesNothing(side: Side, lot: Lot, fills: seq<Fill>)
    requires side == Buy || side == Sell
    requires Toward(side, lot.quantity) >= 0 && NonNegative(fills) && OneSided(side, fills)
    ensures Toward(side, Run(lot, fills).quantity) >= 0 && Run(lot, fills).realizedPnl == lot.realizedPnl
  {
    if fills != [] {
      hide Apply;
      var past, last := fills[..|fills| - 1], fills[|fills| - 1];
      assert last in fills;
      OneSidedRealizesNothing(side, lot, past);
      OneSidedStep(side, Run(lot, past), last);
    }
  }

  lemma OnePriceStep(side: Side, price: real, lot: Lot, fill: Fill)
    requires side == Buy || side == Sell
    requires Toward(side, lot.quantity) > 0 ==> lot.avgCost == price
    requires lot.FlatIsFree() && fill.quantity >= 0 && (To(side)(fill) ==> fill.price == price)
    ensures Toward(side, Apply(lot, fill).quantity) > 0 ==> Apply(lot, fill).avgCost == price
  {
    hide AverageCost, Times;
    if fill.side == side && Toward(side, lot.quantity) >= 0 && Abs(lot.quantity) + fill.quantity > 0 {
      AverageOfOnePrice(lot.avgCost, Abs(lot.quantity), fill.price, fill.quantity, price);
    }
  }

  lemma AverageOfOnePrice(avg: real, held: nat, paid: real, added: nat, price: real)
    requires held + added > 0 && (held > 0 ==> avg == price) && (added > 0 ==> paid == price)
    ensures AverageCost(avg, held, paid, added) == price
  {
    TimesAdds(price, held, added);
    assert Times(avg, held) == Times(price, held) && Times(paid, added) == Times(price, added);
    var n := (held + added) as real;
    assert price * n / n == price;
  }

  /** When all fills to a side have one price, that is what an open position on it costs. */
  lemma {:induction false} OnePriceCosts(side: Side, price: real, fills: seq<Fill>)
    requires side == Buy || side == Sell
    requires NonNegative(fills) && forall x :: x in fills && To(side)(x) ==> x.price == price
    ensures Toward(side, Run(EMPTY, fills).quantity) > 0 ==> Run(EMPTY, fills).avgCost == price
  {
    if fills != [] {
      hide Apply;
      var past, last := fills[..|fills| - 1], fills[|fills| - 1];
      assert last in fills;
      OnePriceCosts(side, price, past);
      CashConservation(past);
      OnePriceStep(side, price, Run(EMPTY, past), last);
    }
  }

  /** Realized PnL is net cash and the cost of what is open. */
  lemma RealizedIsCashAndCost(fills: seq<Fill>)
    requires NonNegative(fills)
    ensures Run(EMPTY, fills).quantity == NetQuantity(fills)
    ensures Run(EMPTY, fills).realizedPnl
         == NetCash(fills) + Times(Run(EMPTY, fills).avgCost, NetQuantity(fills))
  {
    hide Run;
    CashConservation(fills);
  }

  lemma SomeFillTo(side: Side, fills: seq<Fill>) returns (fill: Fill)
    requires side == Buy || side == Sell
    requires NonNegative(fills) && Toward(side, NetQuantity(fills)) > 0
    ensures fill in fills && To(side)(fill)
  {
    var past, last := fills[..|fills| - 1], fills[|fills| - 1];
    if To(side)(last) {
      fill := last;
    } else {
      fill := SomeFillTo(side, past);
    }
  }

  lemma SameMembers(xs: seq<Fill>, ys: seq<Fill>)
    requires multiset(xs) == multiset(ys)
    ensures forall x :: x in xs <==> x in ys
  {
    assert forall x :: x in xs <==> x in multiset(xs);
    assert forall x :: x in ys <==> x in multiset(ys);
  }

  lemma SameRealized(fills: seq<Fill>, other: seq<Fill>)
    requires NonNegative(fills) && multiset(other) == multiset(fills)
    requires var side := NetSide(fills); NetQuantity(fills) == 0 || OneSided(side, fills) || OnePrice(side, fills)
    ensures Run(EMPTY, other).realizedPnl == Run(EMPTY, fills).realizedPnl
  {
    hide Run;
    var side := NetSide(fills);
    NonNegativeIgnoresOrder(fills, other);
    NetIgnoresOrder(fills, other);
    SameMembers(fills, other);
    RealizedIsCashAndCost(fills);
    RealizedIsCashAndCost(other);
    if NetQuantity(fills) == 0 {
      TimesZero(Run(EMPTY, fills).avgCost);
      TimesZero(Run(EMPTY, other).avgCost);
    } else if OneSided(side, fills) {
      OneSidedRealizesNothing(side, EMPTY, fills);
      OneSidedRealizesNothing(side, EMPTY, other);
    } else {
      var fill := SomeFillTo(side, fills);
      OnePriceCosts(side, fill.price, fills);
      OnePriceCosts(side, fill.price, other);
    }
  }

  // ---------------------------------------------------------------------------------------------
  // Where it does
  // ---------------------------------------------------------------------------------------------

  lemma {:induction false} RunConcat(lot: Lot, xs: seq<Fill>, ys: seq<Fill>)
    ensures Run(lot, xs + ys) == Run(Run(lot, xs), ys)
  {
    if ys == [] {
      assert xs + ys == xs;
    } else {
      hide Apply;
      RunConcat(lot, xs, ys[..|ys| - 1]);
      assert (xs + ys)[..|xs + ys| - 1] == xs + ys[..|ys| - 1];
    }
  }

  lemma {:induction false} NetConcat(xs: seq<Fill>, ys: seq<Fill>)
    ensures NetQuantity(xs + ys) == NetQuantity(xs) + NetQuantity(ys)
  {
    if ys == [] {
      assert xs + ys == xs;
    } else {
      NetConcat(xs, ys[..|ys| - 1]);
      assert (xs + ys)[..|xs + ys| - 1] == xs + ys[..|ys| - 1];
    }
  }

  lemma NetOfOne(fill: Fill)
    ensures NetQuantity([fill]) == fill.Signed()
  {
    assert [fill][..0] == [];
  }

  /** Two fills to the same side that together cover a position on the other and more: the first covers what it
      can, the second the rest. */
  lemma PairRealizes(side: Side, lot: Lot, u: Fill, v: Fill, r: int, c: int)
    requires (side == Buy || side == Sell) && To(side)(u) && To(side)(v)
    requires r == -Toward(side, lot.quantity) && 0 < r < u.quantity + v.quantity && c == Min(u.quantity, r)
    ensures var last := Apply(Apply(lot, u), v);
      && last.realizedPnl == lot.realizedPnl + (Times(Edge(lot, u), c) + Times(Edge(lot, v), r - c))
      && Toward(side, last.quantity) > 0
  {
    hide Apply, Times;
    var mid := Apply(lot, u);
    StepBalancesIff(lot, u);
    StepBalancesIff(mid, v);
    RealizesOnlyCovered(lot, u, Edge(lot, u), c);
    RealizesOnlyCovered(mid, v, Edge(mid, v), r - c);
    if c < r {
      CoveringKeepsCost(lot, u);
    } else {
      TimesZero(Edge(mid, v));
      TimesZero(Edge(lot, v));
    }
  }

  /** Their order decides at which price the part both could cover is covered. */
  lemma SwapRealizes(side: Side, lot: Lot, u: Fill, v: Fill)
    requires (side == Buy || side == Sell) && To(side)(u) && To(side)(v) && u.price != v.price
    requires 0 < -Toward(side, lot.quantity) < u.quantity + v.quantity
    ensures Apply(Apply(lot, u), v).realizedPnl != Apply(Apply(lot, v), u).realizedPnl
    ensures Toward(side, Apply(Apply(lot, u), v).quantity) > 0 && Toward(side, Apply(Apply(lot, v), u).quantity) > 0
  {
    hide Apply, Times;
    var r := -Toward(side, lot.quantity);
    var c, d := Min(u.quantity, r), Min(v.quantity, r);
    PairRealizes(side, lot, u, v, r, c);
    PairRealizes(side, lot, v, u, r, d);
    var x, y := Edge(lot, u), Edge(lot, v);
    TimesAdds(x, r - d, c + d - r);
    TimesAdds(y, r - c, c + d - r);
    if Times(x, c + d - r) == Times(y, c + d - r) {
      TimesCancels(x, y, c + d - r);
    }
  }

  lemma {:induction false} FilterSplits(side: Side, fills: seq<Fill>)
    ensures multiset(Filter(NotTo(side), fills) + Filter(To(side), fills)) == multiset(fills)
  {
    if fills != [] {
      FilterSplits(side, fills[1..]);
      assert fills == [fills[0]] + fills[1..];
    }
  }

  lemma {:induction false} AwayFromSide(side: Side, fills: seq<Fill>)
    requires side == Buy || side == Sell
    requires NonNegative(fills) && forall x :: x in fills ==> !To(side)(x)
    ensures Toward(side, NetQuantity(fills)) <= 0
    ensures (exists x :: x in fills && To(Opposite(side))(x)) ==> Toward(side, NetQuantity(fills)) < 0
  {
    if fills != [] {
      var past, last := fills[..|fills| - 1], fills[|fills| - 1];
      assert last in fills && fills == past + [last];
      AwayFromSide(side, past);
    }
  }

  /** Among fills to one side, not all at one price, that more than cover s: an order of them in which two
      neighbours of different prices cover the last of it. */
  lemma Straddle(side: Side, fills: seq<Fill>, s: int, i: nat, j: nat)
    returns (before: seq<Fill>, u: Fill, v: Fill, after: seq<Fill>)
    requires side == Buy || side == Sell
    requires forall x :: x in fills ==> To(side)(x)
    requires i < j < |fills| && fills[i].price != fills[j].price
    requires 0 < s < Toward(side, NetQuantity(fills))
    ensures multiset(before + [u] + [v] + after) == multiset(fills) && u.price != v.price
    ensures var covered := Toward(side, NetQuantity(before)); covered < s < covered + u.quantity + v.quantity
  {
    hide NetQuantity;
    var x, y := fills[i], fills[j];
    var rest := WithoutPair(side, fills, i, j);
    var n := Reach(side, rest, s);
    assert rest == rest[..n] + rest[n..];
    if s < Toward(side, NetQuantity(rest[..n])) + x.quantity + y.quantity {
      before, u, v, after := rest[..n], x, y, rest[n..];
      Rearranged(rest[..n], rest[n..], x, y);
    } else {
      var z := rest[n];
      assert z in rest && z.quantity > 0;
      before, v := rest[..n], z;
      u, after := if x.price != z.price then x else y, rest[n + 1..] + [if x.price != z.price then y else x];
      WithNext(rest, n, x, y);
    }
  }

  lemma WithoutPair(side: Side, fills: seq<Fill>, i: nat, j: nat) returns (rest: seq<Fill>)
    requires side == Buy || side == Sell
    requires forall x :: x in fills ==> To(side)(x)
    requires i < j < |fills|
    ensures multiset(rest + [fills[i]] + [fills[j]]) == multiset(fills) && forall x :: x in rest ==> To(side)(x)
    ensures fills[i].quantity > 0 && fills[j].quantity > 0
    ensures Toward(side, NetQuantity(fills))
         == Toward(side, NetQuantity(rest)) + fills[i].quantity + fills[j].quantity
  {
    var x, y := fills[i], fills[j];
    rest := fills[..i] + fills[i + 1..j] + fills[j + 1..];
    assert x in fills && y in fills;
    PullOut(fills, i, j);
    NetIgnoresOrder(fills, rest + [x] + [y]);
    NetConcat(rest + [x], [y]);
    NetConcat(rest, [x]);
    NetOfOne(x);
    NetOfOne(y);
  }

  lemma PullOut(fills: seq<Fill>, i: nat, j: nat)
    requires i < j < |fills|
    ensures multiset(fills[..i] + fills[i + 1..j] + fills[j + 1..] + [fills[i]] + [fills[j]]) == multiset(fills)
  {
    assert fills == fills[..i] + [fills[i]] + fills[i + 1..j] + [fills[j]] + fills[j + 1..];
  }

  lemma Rearranged(xs: seq<Fill>, ys: seq<Fill>, u: Fill, v: Fill)
    ensures multiset(xs + [u] + [v] + ys) == multiset(xs + ys + [u] + [v])
  {
  }

  lemma WithNext(rest: seq<Fill>, n: nat, x: Fill, y: Fill)
    requires n < |rest|
    ensures multiset(rest[..n] + [x] + [rest[n]] + (rest[n + 1..] + [y])) == multiset(rest + [x] + [y])
    ensures multiset(rest[..n] + [y] + [rest[n]] + (rest[n + 1..] + [x])) == multiset(rest + [x] + [y])
  {
    assert rest == rest[..n] + [rest[n]] + rest[n + 1..];
  }

  /** How many fills stay short of s. */
  lemma Reach(side: Side, fills: seq<Fill>, s: int) returns (n: nat)
    requires (side == Buy || side == Sell) && s > 0
    ensures n <= |fills| && Toward(side, NetQuantity(fills[..n])) < s
    ensures n == |fills| ==> fills[..n] == fills
    ensures n < |fills| ==> s <= Toward(side, NetQuantity(fills[..n])) + Toward(side, fills[n].Signed())
  {
    n := 0;
    while n < |fills| && Toward(side, NetQuantity(fills[..n + 1])) < s
      invariant n <= |fills| && Toward(side, NetQuantity(fills[..n])) < s
    {
      n := n + 1;
    }
    if n < |fills| {
      assert fills[..n + 1][..n] == fills[..n];
    }
  }

  /** Fills against the net side first, then those to it, two of them in either order: one realizes more. */
  lemma TwoOrders(side: Side, front: seq<Fill>, before: seq<Fill>, u: Fill, v: Fill, after: seq<Fill>)
    requires (side == Buy || side == Sell) && To(side)(u) && To(side)(v) && u.price != v.price
    requires NonNegative(front + before) && NonNegative(after) && forall x :: x in after ==> To(side)(x)
    requires 0 < -Toward(side, NetQuantity(front + before)) < u.quantity + v.quantity
    ensures Run(EMPTY, front + before + [u] + [v] + after).realizedPnl
         != Run(EMPTY, front + before + [v] + [u] + after).realizedPnl
  {
    hide Apply;
    var lot := Run(EMPTY, front + before);
    CashConservation(front + before);
    SwapRealizes(side, lot, u, v);
    Tail(side, front + before, u, v, after);
    Tail(side, front + before, v, u, after);
  }

  lemma Tail(side: Side, past: seq<Fill>, u: Fill, v: Fill, after: seq<Fill>)
    requires side == Buy || side == Sell
    requires NonNegative(after) && forall x :: x in after ==> To(side)(x)
    requires Toward(side, Apply(Apply(Run(EMPTY, past), u), v).quantity) > 0
    ensures Run(EMPTY, past + [u] + [v] + after).realizedPnl == Apply(Apply(Run(EMPTY, past), u), v).realizedPnl
  {
    hide Apply;
    var lot := Apply(Apply(Run(EMPTY, past), u), v);
    assert (past + [u])[..|past|] == past && (past + [u] + [v])[..|past| + 1] == past + [u];
    RunConcat(EMPTY, past + [u] + [v], after);
    OneSidedRealizesNothing(side, lot, after);
  }

  lemma RealizedVaries(fills: seq<Fill>)
    requires NonNegative(fills) && NetQuantity(fills) != 0
    requires !OneSided(NetSide(fills), fills) && !OnePrice(NetSide(fills), fills)
    ensures !RealizedIsFixed(fills)
  {
    hide Run, Filter, NetQuantity;
    var side := NetSide(fills);
    var front, opening := Parted(side, fills);
    var i, j := TwoPrices(side, opening);
    var before, u, v, after := Straddle(side, opening, -Toward(side, NetQuantity(front)), i, j);
    SameMembers(before + [u] + [v] + after, opening);
    Members(before, u, v, after);
    NetConcat(front, before);
    AllNonNegative(front + before);
    AllNonNegative(after);
    TwoOrders(side, front, before, u, v, after);
    OrdersOf(fills, front, opening, before, u, v, after);
  }

  /** The fills that go to the net side, and the others: these move the position away from it. */
  lemma Parted(side: Side, fills: seq<Fill>) returns (front: seq<Fill>, opening: seq<Fill>)
    requires NonNegative(fills) && NetQuantity(fills) != 0 && side == NetSide(fills)
    requires !OneSided(side, fills) && !OnePrice(side, fills)
    ensures multiset(front + opening) == multiset(fills)
    ensures (forall x :: x in front ==> x.quantity >= 0) && forall x :: x in opening ==> To(side)(x)
    ensures exists x, y :: x in opening && y in opening && x.price != y.price
    ensures 0 < -Toward(side, NetQuantity(front)) < Toward(side, NetQuantity(opening))
  {
    front, opening := Filter(NotTo(side), fills), Filter(To(side), fills);
    hide Filter, NetQuantity;
    FilterSplits(side, fills);
    FilterMembers(NotTo(side), fills);
    FilterMembers(To(side), fills);
    forall x | x in fills ensures x.quantity >= 0 {
    }
    AllNonNegative(front);
    AwayFromSide(side, front);
    NetIgnoresOrder(fills, front + opening);
    NetConcat(front, opening);
  }

  lemma AllNonNegative(fills: seq<Fill>)
    requires forall x :: x in fills ==> x.quantity >= 0
    ensures NonNegative(fills)
  {
  }

  lemma Members(before: seq<Fill>, u: Fill, v: Fill, after: seq<Fill>)
    ensures var all := before + [u] + [v] + after;
      && u in all && v in all && (forall x :: x in before ==> x in all) && (forall x :: x in after ==> x in all)
  {
    var all := before + [u] + [v] + after;
    assert all[|before|] == u && all[|before| + 1] == v;
  }

  lemma TwoPrices(side: Side, fills: seq<Fill>) returns (i: nat, j: nat)
    requires exists x, y :: x in fills && y in fills && x.price != y.price
    ensures i < j < |fills| && fills[i].price != fills[j].price
  {
    var x, y :| x in fills && y in fills && x.price != y.price;
    var a :| 0 <= a < |fills| && fills[a] == x;
    var b :| 0 <= b < |fills| && fills[b] == y;
    i, j := if a < b then a else b, if a < b then b else a;
  }

  lemma OrdersOf(fills: seq<Fill>, front: seq<Fill>, opening: seq<Fill>, before: seq<Fill>, u: Fill, v: Fill,
        after: seq<Fill>)
    requires multiset(front + opening) == multiset(fills)
    requires multiset(before + [u] + [v] + after) == multiset(opening)
    requires Run(EMPTY, front + before + [u] + [v] + after).realizedPnl
          != Run(EMPTY, front + before + [v] + [u] + after).realizedPnl
    ensures !RealizedIsFixed(fills)
  {
    hide *;
    Regrouped(front, before, u, v, after);
    Regrouped(front, before, v, u, after);
    assert multiset(front + opening) == multiset(front) + multiset(opening);
    NotFixed(fills, front + before + [u] + [v] + after, front + before + [v] + [u] + after);
  }

  lemma NotFixed(fills: seq<Fill>, one: seq<Fill>, two: seq<Fill>)
    requires multiset(one) == multiset(two) == multiset(fills)
    requires Run(EMPTY, one).realizedPnl != Run(EMPTY, two).realizedPnl
    ensures !RealizedIsFixed(fills)
  {
    hide Run;
  }

  lemma Regrouped(front: seq<Fill>, before: seq<Fill>, u: Fill, v: Fill, after: seq<Fill>)
    ensures multiset(front + before + [u] + [v] + after) == multiset(front) + multiset(before + [u] + [v] + after)
    ensures multiset(before + [u] + [v] + after) == multiset(before) + multiset{u, v} + multiset(after)
  {
    assert front + before + [u] + [v] + after == front + (before + [u] + [v] + after);
  }

  /** Every order of the fills realizes the same if and only if they end flat, or none of them goes against the
      side they end on, or all that go to that side have one price. */
  lemma RealizedIsFixedIff(fills: seq<Fill>)
    requires NonNegative(fills)
    ensures RealizedIsFixed(fills) <==>
      NetQuantity(fills) == 0 || OneSided(NetSide(fills), fills) || OnePrice(NetSide(fills), fills)
  {
    if NetQuantity(fills) == 0 || OneSided(NetSide(fills), fills) || OnePrice(NetSide(fills), fills) {
      forall other | multiset(other) == multiset(fills)
        ensures Run(EMPTY, other).realizedPnl == Run(EMPTY, fills).realizedPnl
      {
        SameRealized(fills, other);
      }
    } else {
      RealizedVaries(fills);
    }
  }
}
