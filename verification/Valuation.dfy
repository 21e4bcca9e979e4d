/** What the books are worth at the market, read off the fills and the marks alone; and what the position manager
    tells the world about it. */
module Valuation {
  import opened Basics
  import opened Ledger
  import opened Portfolio
  import opened PortfolioLaws
  import opened Reals
  import opened Sums

  /** The last price a symbol was marked at. */
  function LastMark(inputs: seq<Input>, s: Symbol): Option<real> {
    if inputs == [] then None
    else
      var last := inputs[|inputs| - 1];
      if last.Marked? && last.symbol == s then Some(last.price) else LastMark(inputs[..|inputs| - 1], s)
  }

  /** The position a symbol's own fills make. */
  function LotFrom(inputs: seq<Input>, s: Symbol): Lot {
    Run(EMPTY, FillsOf(inputs, s))
  }

  /** What a share is worth: its last mark, or its average cost while the symbol has never been marked. */
  function Worth(inputs: seq<Input>, s: Symbol): real {
    if LastMark(inputs, s).Some? then LastMark(inputs, s).value else LotFrom(inputs, s).avgCost
  }

  function Held(inputs: seq<Input>, s: Symbol): int {
    NetQuantity(FillsOf(inputs, s))
  }

  /** The symbols ever filled, in the order of their first fills. */
  function FilledSymbols(inputs: seq<Input>): seq<Symbol> {
    if inputs == [] then []
    else
      var before, last := FilledSymbols(inputs[..|inputs| - 1]), inputs[|inputs| - 1];
      before + if last.Filled? && last.symbol !in before then [last.symbol] else []
  }

  // ---------------------------------------------------------------------------------------------
  // Equity and exposure
  // ---------------------------------------------------------------------------------------------

  lemma {:induction false} MarksFollow(capital: real, limit: Option<real>, inputs: seq<Input>, s: Symbol)
    ensures var b := RunBooks(Flat(capital, limit), inputs);
      && (if s in b.marks then LastMark(inputs, s) == Some(b.marks[s]) else LastMark(inputs, s) == None)
      && (s in b.lots <==> FillsOf(inputs, s) != [])
      && b.capital == capital && b.limit == limit
  {
    if inputs != [] {
      hide Apply;
      MarksFollow(capital, limit, inputs[..|inputs| - 1], s);
    }
  }

  /** What the books say of a symbol is what its fills and marks say. */
  lemma SymbolFollows(capital: real, limit: Option<real>, inputs: seq<Input>, s: Symbol)
    requires NonNegativeInputs(inputs)
    ensures var b := RunBooks(Flat(capital, limit), inputs);
      && b.Valid() && (s in b.symbols <==> FillsOf(inputs, s) != [])
      && b.LotOf(s) == LotFrom(inputs, s) && b.LotOf(s).quantity == Held(inputs, s)
      && b.PriceOf(s) == Worth(inputs, s)
  {
    hide Run, RunBooks, FillsOf, NetQuantity, Times, Lot.Balance, NetCash;
    MarksFollow(capital, limit, inputs, s);
    SymbolsAreIndependent(capital, limit, inputs, s);
    FillsAreNonNegative(inputs, s);
    CashConservation(FillsOf(inputs, s));
  }

  lemma {:induction false} FillsAreNonNegative(inputs: seq<Input>, s: Symbol)
    requires NonNegativeInputs(inputs)
    ensures NonNegative(FillsOf(inputs, s))
  {
    if inputs != [] {
      FillsAreNonNegative(inputs[..|inputs| - 1], s);
    }
  }

  lemma {:induction false} SymbolsFollow(capital: real, limit: Option<real>, inputs: seq<Input>)
    ensures RunBooks(Flat(capital, limit), inputs).symbols == FilledSymbols(inputs)
  {
    if inputs != [] {
      hide Apply;
      var past := inputs[..|inputs| - 1];
      SymbolsFollow(capital, limit, past);
      SymbolsAreIndependent(capital, limit, past, Symbol(""));
    }
  }

  /** Over every run: the table lists each filled symbol once. Equity is the starting capital, the cash of all fills,
      and every symbol's net quantity at its last mark; that last term is the net exposure, gross exposure counts
      quantities without their sign, and leverage is gross over equity. A symbol never marked counts at its
      average cost. */
  lemma EquityIdentity(capital: real, limit: Option<real>, inputs: seq<Input>)
    requires NonNegativeInputs(inputs)
    ensures var b := RunBooks(Flat(capital, limit), inputs);
      var net := Sum(b.symbols, s => Times(Worth(inputs, s), Held(inputs, s)));
      var gross := Sum(b.symbols, s => Times(Worth(inputs, s), Abs(Held(inputs, s))));
      && Distinct(b.symbols) && (forall s :: s in b.symbols <==> FillsOf(inputs, s) != [])
      && b.Equity() == capital + CashOf(inputs) + net
      && b.Snapshot() == Exposure(gross, net, Count(b.symbols, s => Held(inputs, s) > 0),
                                  Count(b.symbols, s => Held(inputs, s) < 0))
      && b.Leverage() == if b.Equity() <= 0.0 then 0.0 else gross / b.Equity()
  {
    hide Run, Times, Sum, Count, RunBooks, NetQuantity;
    var b := RunBooks(Flat(capital, limit), inputs);
    forall s ensures b.LotOf(s).quantity == Held(inputs, s) && b.PriceOf(s) == Worth(inputs, s)
             ensures s in b.symbols <==> FillsOf(inputs, s) != [] {
      SymbolFollows(capital, limit, inputs, s);
    }
    MarksFollow(capital, limit, inputs, Symbol(""));
    BalancesAreCash(capital, limit, inputs);
    PnlIsBalanceAndHoldings(b);
    hide Worth, Held, Books.PriceOf, Books.LotOf;
    ExposureOf(b, s => Worth(inputs, s), s => Held(inputs, s));
    SumSame(b.symbols, s => Times((x => Worth(inputs, x))(s), (x => Held(inputs, x))(s)),
            s => Times(Worth(inputs, s), Held(inputs, s)));
    SumSame(b.symbols, s => Times((x => Worth(inputs, x))(s), Abs((x => Held(inputs, x))(s))),
            s => Times(Worth(inputs, s), Abs(Held(inputs, s))));
    CountSame(b.symbols, s => (x => Held(inputs, x))(s) > 0, s => Held(inputs, s) > 0);
    CountSame(b.symbols, s => (x => Held(inputs, x))(s) < 0, s => Held(inputs, s) < 0);
  }

  /** Exposure, and the value of the holdings in equity, from any account of what is held and what it is worth. */
  lemma ExposureOf(b: Books, worth: Symbol -> real, held: Symbol -> int)
    requires forall s :: s in b.symbols ==> b.PriceOf(s) == worth(s) && b.LotOf(s).quantity == held(s)
    ensures Sum(b.symbols, b.Net()) == Sum(b.symbols, s => Times(worth(s), held(s)))
    ensures b.Snapshot() == Exposure(Sum(b.symbols, s => Times(worth(s), Abs(held(s)))),
                                     Sum(b.symbols, s => Times(worth(s), held(s))),
                                     Count(b.symbols, s => held(s) > 0), Count(b.symbols, s => held(s) < 0))
  {
    hide Times, Sum, Count;
    SumSame(b.symbols, b.Net(), s => Times(worth(s), held(s)));
    SumSame(b.symbols, b.Gross(), s => Times(worth(s), Abs(held(s))));
    CountSame(b.symbols, b.Long(), s => held(s) > 0);
    CountSame(b.symbols, b.Short(), s => held(s) < 0);
  }

  // ---------------------------------------------------------------------------------------------
  // What is announced
  // ---------------------------------------------------------------------------------------------

  /** The gain of a position at a price per share. */
  lemma UnrealizedIsGain(b: Books, s: Symbol)
    ensures b.UnrealizedOf(s) == Times(b.PriceOf(s) - b.LotOf(s).avgCost, b.LotOf(s).quantity)
  {
    TimesNegates(b.PriceOf(s) - b.LotOf(s).avgCost, b.LotOf(s).quantity);
  }

  /** One warning per symbol whose value at the market exceeds the limit, in the order of the symbols. */
  function Warnings(limit: Option<real>, inputs: seq<Input>, symbols: seq<Symbol>): seq<Event> {
    if symbols == [] then []
    else
      var s := symbols[|symbols| - 1];
      var value := Times(Worth(inputs, s), Abs(Held(inputs, s)));
      Warnings(limit, inputs, symbols[..|symbols| - 1])
      + if limit.Some? && value > limit.value > 0.0 then [ExposureLimitHit(value, limit.value)] else []
  }

  lemma {:induction false} LimitsWarn(b: Books, inputs: seq<Input>, symbols: seq<Symbol>)
    requires forall s :: s in symbols ==> b.PriceOf(s) == Worth(inputs, s) && b.LotOf(s).quantity == Held(inputs, s)
    ensures LimitEvents(b, symbols) == Warnings(b.limit, inputs, symbols)
  {
    if symbols != [] {
      hide Times, Worth, Held, Books.PriceOf, Books.LotOf;
      LimitsWarn(b, inputs, symbols[..|symbols| - 1]);
    }
  }

  /** The PnL a symbol stands at: what its fills have realized, and its shares' gain over their average cost. */
  function PnlOf(inputs: seq<Input>, s: Symbol): Event {
    var lot := LotFrom(inputs, s);
    PnLUpdated(s, Times(Worth(inputs, s) - lot.avgCost, Held(inputs, s)), lot.realizedPnl)
  }

  /** The opening or closing of a symbol's position that the last input makes, if any. */
  function Life(past: seq<Input>, all: seq<Input>, s: Symbol): seq<Event> {
    var lot := LotFrom(all, s);
    if Held(past, s) == 0 && Held(all, s) != 0 then [PositionOpened(s, Held(all, s), lot.avgCost)]
    else if Held(past, s) != 0 && Held(all, s) == 0 then [PositionClosed(s, lot.realizedPnl)]
    else []
  }

  /** A fill reports opening or closing first, a mark the position after the PnL. */
  function Report(marked: bool, life: seq<Event>, pnl: Event, position: Event, exposure: Event, warnings: seq<Event>)
    : seq<Event>
  {
    if marked then [pnl, position, exposure] + warnings else life + [pnl, exposure] + warnings
  }

  /** What a fill or a mark announces, all of it as it stands afterwards: its symbol's opening or closing, its PnL,
      for a mark its position, then the exposure, leverage and equity, and the warnings. A mark of a symbol that
      was never filled announces nothing. */
  lemma Announcements(capital: real, limit: Option<real>, past: seq<Input>, input: Input)
    requires NonNegativeInputs(past + [input])
    ensures var all, s := past + [input], input.symbol; var b := RunBooks(Flat(capital, limit), all);
      StepEvents(RunBooks(Flat(capital, limit), past), input) ==
      if input.Marked? && FillsOf(past, s) == [] then []
      else
        var mark := if input.Marked? then input.price else 0.0;
        Report(input.Marked?, Life(past, all, s), PnlOf(all, s),
               PositionUpdated(s, Held(all, s), LotFrom(all, s).avgCost, mark),
               ExposureUpdated(b.Snapshot(), b.Leverage(), b.Equity()), Warnings(limit, all, FilledSymbols(all)))
  {
    hide *;
    var all, s := past + [input], input.symbol;
    var before, b := RunBooks(Flat(capital, limit), past), RunBooks(Flat(capital, limit), all);
    LastStep(Flat(capital, limit), past, input);
    StepSays(before, input);
    EarlierNonNegative(past, input);
    SymbolFollows(capital, limit, past, s);
    MarksFollow(capital, limit, past, s);
    SymbolFollows(capital, limit, all, s);
    WarningsFollow(capital, limit, all);
    LifeIs(before, b, past, all, s);
    PnlIs(b, all, s);
  }

  lemma LastStep(start: Books, past: seq<Input>, input: Input)
    ensures RunBooks(start, past + [input]) == Step(RunBooks(start, past), input)
  {
    assert (past + [input])[..|past|] == past;
  }

  lemma WarningsFollow(capital: real, limit: Option<real>, inputs: seq<Input>)
    requires NonNegativeInputs(inputs)
    ensures var b := RunBooks(Flat(capital, limit), inputs);
      LimitEvents(b, b.symbols) == Warnings(limit, inputs, FilledSymbols(inputs))
  {
    hide *;
    var b := RunBooks(Flat(capital, limit), inputs);
    forall s ensures b.PriceOf(s) == Worth(inputs, s) && b.LotOf(s).quantity == Held(inputs, s) {
      SymbolFollows(capital, limit, inputs, s);
    }
    MarksFollow(capital, limit, inputs, Symbol(""));
    SymbolsFollow(capital, limit, inputs);
    LimitsWarn(b, inputs, b.symbols);
  }

  lemma LifeIs(before: Books, b: Books, past: seq<Input>, all: seq<Input>, s: Symbol)
    requires before.LotOf(s).quantity == Held(past, s)
    requires b.LotOf(s) == LotFrom(all, s) && b.LotOf(s).quantity == Held(all, s)
    ensures LifeEvents(before.LotOf(s), b.LotOf(s), s) == Life(past, all, s)
  {
  }

  lemma PnlIs(b: Books, inputs: seq<Input>, s: Symbol)
    requires b.LotOf(s) == LotFrom(inputs, s) && b.LotOf(s).quantity == Held(inputs, s)
    requires b.PriceOf(s) == Worth(inputs, s)
    ensures PnLUpdated(s, Times(b.PriceOf(s) - b.LotOf(s).avgCost, b.LotOf(s).quantity), b.LotOf(s).realizedPnl)
         == PnlOf(inputs, s)
  {
  }

  /** The same, in the words of the books before and after. */
  lemma StepSays(b: Books, input: Input)
    ensures var s, next := input.symbol, Step(b, input); var lot := next.LotOf(s);
      StepEvents(b, input) ==
      if input.Marked? && s !in b.lots then []
      else
        var mark := if input.Marked? then input.price else 0.0;
        Report(input.Marked?, LifeEvents(b.LotOf(s), lot, s),
               PnLUpdated(s, Times(next.PriceOf(s) - lot.avgCost, lot.quantity), lot.realizedPnl),
               PositionUpdated(s, lot.quantity, lot.avgCost, mark),
               ExposureUpdated(next.Snapshot(), next.Leverage(), next.Equity()), LimitEvents(next, next.symbols))
  {
    hide Times, Apply, Books.Equity, Books.Leverage, Books.Snapshot, Books.PriceOf, LimitEvents, Books.UnrealizedOf;
    UnrealizedIsGain(Step(b, input), input.symbol);
  }

  lemma EarlierNonNegative(past: seq<Input>, input: Input)
    requires NonNegativeInputs(past + [input])
    ensures NonNegativeInputs(past)
  {
    assert forall i :: 0 <= i < |past| ==> past[i] == (past + [input])[i];
  }

  /** The price a tick marks with: its last price; without one, the point as far from the bid as from the ask, if
      both are there. */
  lemma TickMarks(price: real, bid: real, ask: real)
    ensures price != 0.0 ==> TickPrice(price, bid, ask) == Some(price)
    ensures price == 0.0 && TickPrice(price, bid, ask).Some? ==>
      bid != 0.0 && ask != 0.0 && TickPrice(price, bid, ask).value - bid == ask - TickPrice(price, bid, ask).value
    ensures price == 0.0 && TickPrice(price, bid, ask).None? ==> bid == 0.0 || ask == 0.0 || bid == -ask
  {
  }
}
