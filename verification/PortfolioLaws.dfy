/** What holds of the position manager over every sequence of fills and marks. */
module PortfolioLaws {
  import opened Basics
  import opened Ledger
  import opened Portfolio
  import opened Reals
  import opened Sums

  datatype Input = Filled(symbol: Symbol, fill: Fill) | Marked(symbol: Symbol, price: real)

  function Flat(capital: real, limit: Option<real>): Books {
    Books(capital, limit, [], map[], map[])
  }

  function Step(b: Books, input: Input): Books {
    match input
    case Filled(s, fill) => b.AfterFill(s, fill)
    case Marked(s, price) => b.AfterMark(s, price)
  }

  ghost function StepEvents(b: Books, input: Input): seq<Event> {
    match input
    case Filled(s, fill) => FillEvents(b, s, fill)
    case Marked(s, price) => TickEvents(b, s, price)
  }

  function RunBooks(b: Books, inputs: seq<Input>): Books {
    if inputs == [] then b else Step(RunBooks(b, inputs[..|inputs| - 1]), inputs[|inputs| - 1])
  }

  ghost function RunEvents(b: Books, inputs: seq<Input>): seq<Event> {
    if inputs == [] then []
    else
      var past := inputs[..|inputs| - 1];
      RunEvents(b, past) + StepEvents(RunBooks(b, past), inputs[|inputs| - 1])
  }

  function FillsOf(inputs: seq<Input>, s: Symbol): seq<Fill> {
    if inputs == [] then []
    else
      var last := inputs[|inputs| - 1];
      FillsOf(inputs[..|inputs| - 1], s) + if last.Filled? && last.symbol == s then [last.fill] else []
  }

  function CashOf(inputs: seq<Input>): real {
    if inputs == [] then 0.0
    else
      var last := inputs[|inputs| - 1];
      CashOf(inputs[..|inputs| - 1]) + if last.Filled? then last.fill.Cash() else 0.0
  }

  predicate NonNegativeInputs(inputs: seq<Input>) {
    forall i :: 0 <= i < |inputs| && inputs[i].Filled? ==> inputs[i].fill.quantity >= 0
  }

  // ---------------------------------------------------------------------------------------------
  // Each symbol is its own ledger
  // ---------------------------------------------------------------------------------------------

  lemma StepKeepsValid(b: Books, input: Input)
    requires b.Valid()
    ensures Step(b, input).Valid()
  {
    if input.Filled? && input.symbol !in b.lots {
      DistinctSnoc(b.symbols, input.symbol);
    }
  }

  /** Fills of other symbols and marks leave a symbol's ledger alone: the table holds, for every symbol,
      the position its own fills make. */
  lemma {:induction false} SymbolsAreIndependent(capital: real, limit: Option<real>, inputs: seq<Input>, s: Symbol)
    ensures RunBooks(Flat(capital, limit), inputs).Valid()
    ensures RunBooks(Flat(capital, limit), inputs).LotOf(s) == Run(EMPTY, FillsOf(inputs, s))
  {
    if inputs != [] {
      var past, last := inputs[..|inputs| - 1], inputs[|inputs| - 1];
      SymbolsAreIndependent(capital, limit, past, s);
      StepKeepsValid(RunBooks(Flat(capital, limit), past), last);
      var fills := FillsOf(past, s);
      if last.Filled? && last.symbol == s {
        assert (fills + [last.fill])[..|fills|] == fills;
      } else {
        assert FillsOf(inputs, s) == fills;
      }
    }
  }

  // ---------------------------------------------------------------------------------------------
  // Equity is capital, cash and holdings
  // ---------------------------------------------------------------------------------------------

  ghost function Balances(b: Books): Symbol -> real { s => b.LotOf(s).Balance() }
  ghost function Totals(b: Books): Symbol -> real { s => b.LotOf(s).TotalPnl(b.PriceOf(s)) }

  /** Filling one symbol moves a total over the table by the change at that symbol. */
  lemma FillShiftsSum(b: Books, s: Symbol, fill: Fill, f: Symbol -> real, g: Symbol -> real)
    requires b.Valid()
    requires forall x :: x != s ==> f(x) == g(x)
    requires s !in b.lots ==> f(s) == 0.0
    ensures Sum(b.AfterFill(s, fill).symbols, g) == Sum(b.symbols, f) + g(s) - f(s)
  {
    SumUpdate(b.symbols, f, g, s);
    SumSnoc(b.symbols, s, g);
  }

  lemma {:induction false} BalancesAreCash(capital: real, limit: Option<real>, inputs: seq<Input>)
    requires NonNegativeInputs(inputs)
    ensures var b := RunBooks(Flat(capital, limit), inputs);
      && b.Valid() && (forall s :: b.LotOf(s).FlatIsFree())
      && Sum(b.symbols, Balances(b)) == CashOf(inputs)
  {
    if inputs != [] {
      var past, last := inputs[..|inputs| - 1], inputs[|inputs| - 1];
      BalancesAreCash(capital, limit, past);
      var b := RunBooks(Flat(capital, limit), past);
      StepKeepsValid(b, last);
      match last {
        case Filled(s, fill) => FillMovesBalance(b, s, fill);
        case Marked(s, price) => SumUpdate(b.symbols, Balances(b), Balances(b.AfterMark(s, price)), s);
      }
    }
  }

  lemma FillMovesBalance(b: Books, s: Symbol, fill: Fill)
    requires b.Valid() && b.LotOf(s).FlatIsFree() && fill.quantity >= 0
    ensures var next := b.AfterFill(s, fill);
      && next.LotOf(s).FlatIsFree()
      && Sum(next.symbols, Balances(next)) == Sum(b.symbols, Balances(b)) + fill.Cash()
  {
    hide Apply, Times, Lot.Balance, Fill.Cash, Lot.FlatIsFree;
    StepBalances(b.LotOf(s), fill);
    BalanceOfEmpty();
    FillShiftsSum(b, s, fill, Balances(b), Balances(b.AfterFill(s, fill)));
  }

  lemma BalanceOfEmpty()
    ensures EMPTY.Balance() == 0.0
  {
  }

  lemma UnrealizedIsSigned(b: Books, s: Symbol)
    ensures b.LotOf(s).realizedPnl + b.UnrealizedOf(s) == b.LotOf(s).TotalPnl(b.PriceOf(s))
  {
    var d, q := b.PriceOf(s) - b.LotOf(s).avgCost, b.LotOf(s).quantity;
    TimesNegates(d, q);
  }

  /** Realized and unrealized PnL together are the books' balance and the net value of what is held. */
  lemma PnlIsBalanceAndHoldings(b: Books)
    ensures Sum(b.symbols, b.Realized()) + Sum(b.symbols, b.Unrealized())
         == Sum(b.symbols, Balances(b)) + Sum(b.symbols, b.Net())
  {
    hide Times, Lot.TotalPnl, Lot.Balance, Books.UnrealizedOf;
    forall s ensures b.Realized()(s) + b.Unrealized()(s) == Totals(b)(s) == Balances(b)(s) + b.Net()(s) {
      UnrealizedIsSigned(b, s);
      TotalPnlFromBalance(b.LotOf(s), b.PriceOf(s));
    }
    SumOfSums(b.symbols, b.Realized(), b.Unrealized(), Totals(b));
    SumOfSums(b.symbols, Balances(b), b.Net(), Totals(b));
  }

  lemma {:induction false} RunKeepsCapital(capital: real, limit: Option<real>, inputs: seq<Input>)
    ensures RunBooks(Flat(capital, limit), inputs).capital == capital
  {
    if inputs != [] {
      RunKeepsCapital(capital, limit, inputs[..|inputs| - 1]);
    }
  }

  // ---------------------------------------------------------------------------------------------
  // Opened and closed events
  // ---------------------------------------------------------------------------------------------

  /** Reads the life events of one symbol: Some(open) while they strictly alternate starting with an
      opening, None once they have not. */
  function Life(log: seq<Event>, s: Symbol): Option<bool> {
    if log == [] then Some(false)
    else
      var before := Life(log[..|log| - 1], s);
      match log[|log| - 1]
      case PositionOpened(x, _, _) => if x != s then before else if before == Some(false) then Some(true) else None
      case PositionClosed(x, _) => if x != s then before else if before == Some(true) then Some(false) else None
      case _ => before
  }

  /** Openings less closings, over all symbols. */
  function OpenBalance(log: seq<Event>): int {
    if log == [] then 0
    else
      var last := log[|log| - 1];
      OpenBalance(log[..|log| - 1]) + if last.PositionOpened? then 1 else if last.PositionClosed? then -1 else 0
  }

  predicate NoLife(log: seq<Event>) {
    forall i :: 0 <= i < |log| ==> !log[i].PositionOpened? && !log[i].PositionClosed?
  }

  lemma {:induction false} QuietTail(log: seq<Event>, more: seq<Event>, s: Symbol)
    requires NoLife(more)
    ensures Life(log + more, s) == Life(log, s) && OpenBalance(log + more) == OpenBalance(log)
  {
    if more == [] {
      assert log + more == log;
    } else {
      var last := |more| - 1;
      QuietTail(log, more[..last], s);
      assert (log + more)[..|log| + last] == log + more[..last];
    }
  }

  lemma {:induction false} LimitEventsAreQuiet(b: Books, symbols: seq<Symbol>)
    ensures NoLife(LimitEvents(b, symbols))
  {
    if symbols != [] {
      LimitEventsAreQuiet(b, symbols[..|symbols| - 1]);
    }
  }

  lemma ExposureEventsAreQuiet(b: Books)
    ensures NoLife(ExposureEvents(b))
  {
    hide Books.Equity, Books.Leverage, Books.Snapshot;
    LimitEventsAreQuiet(b, b.symbols);
  }

  lemma OneMore(log: seq<Event>, e: Event)
    ensures (log + [e])[..|log|] == log && (log + [e])[|log|] == e
  {
  }

  lemma {:induction false} LifeFollowsQuantity(capital: real, limit: Option<real>, inputs: seq<Input>, s: Symbol)
    ensures var b := RunBooks(Flat(capital, limit), inputs); var log := RunEvents(Flat(capital, limit), inputs);
      && b.Valid()
      && Life(log, s) == Some(b.LotOf(s).quantity != 0)
      && OpenBalance(log) == b.NonZero()
  {
    if inputs != [] {
      var past, last := inputs[..|inputs| - 1], inputs[|inputs| - 1];
      LifeFollowsQuantity(capital, limit, past, s);
      StepKeepsValid(RunBooks(Flat(capital, limit), past), last);
      match last {
        case Filled(x, fill) =>
          LifeFollowsQuantity(capital, limit, past, x);
          FillKeepsLife(RunEvents(Flat(capital, limit), past), RunBooks(Flat(capital, limit), past), x, fill, s);
        case Marked(x, price) =>
          MarkKeepsLife(RunEvents(Flat(capital, limit), past), RunBooks(Flat(capital, limit), past), x, price, s);
      }
    }
  }

  /** What one fill's life events do to the reading of a symbol. */
  lemma LifeNext(log: seq<Event>, before: Lot, after: Lot, x: Symbol, s: Symbol)
    requires Life(log, x) == Some(before.quantity != 0)
    ensures Life(log + LifeEvents(before, after, x), s)
         == if s == x then Some(after.quantity != 0) else Life(log, s)
    ensures OpenBalance(log + LifeEvents(before, after, x))
         == OpenBalance(log) + (if after.quantity != 0 then 1 else 0) - (if before.quantity != 0 then 1 else 0)
  {
    var life := LifeEvents(before, after, x);
    if life == [] {
      assert log + life == log;
    } else {
      OneMore(log, life[0]);
      assert log + life == log + [life[0]];
    }
  }

  lemma FillKeepsLife(log: seq<Event>, b: Books, x: Symbol, fill: Fill, s: Symbol)
    requires b.Valid()
    requires Life(log, s) == Some(b.LotOf(s).quantity != 0) && Life(log, x) == Some(b.LotOf(x).quantity != 0)
    requires OpenBalance(log) == b.NonZero()
    ensures var next := b.AfterFill(x, fill); var after := log + FillEvents(b, x, fill);
      Life(after, s) == Some(next.LotOf(s).quantity != 0) && OpenBalance(after) == next.NonZero()
  {
    hide Apply, Times, Books.NonZero, ExposureEvents, Books.UnrealizedOf, Life, OpenBalance, LifeEvents;
    var next := b.AfterFill(x, fill);
    var life := LifeEvents(b.LotOf(x), next.LotOf(x), x);
    var quiet := [PnLUpdated(x, next.UnrealizedOf(x), next.LotOf(x).realizedPnl)] + ExposureEvents(next);
    FillMovesNonZero(b, x, fill);
    LifeNext(log, b.LotOf(x), next.LotOf(x), x, s);
    ExposureEventsAreQuiet(next);
    QuietTail(log + life, quiet, s);
    assert log + FillEvents(b, x, fill) == log + life + quiet;
  }

  /** The number of open symbols moves only as the filled symbol opens or closes. */
  lemma FillMovesNonZero(b: Books, x: Symbol, fill: Fill)
    requires b.Valid()
    ensures b.AfterFill(x, fill).NonZero() == b.NonZero()
            + (if b.AfterFill(x, fill).LotOf(x).quantity != 0 then 1 else 0)
            - (if b.LotOf(x).quantity != 0 then 1 else 0)
  {
    hide Apply;
    var next := b.AfterFill(x, fill);
    CountUpdate(b.symbols, b.Open(), next.Open(), x);
    CountSnoc(b.symbols, x, next.Open());
  }

  lemma MarkKeepsLife(log: seq<Event>, b: Books, x: Symbol, price: real, s: Symbol)
    requires b.Valid()
    requires Life(log, s) == Some(b.LotOf(s).quantity != 0) && OpenBalance(log) == b.NonZero()
    ensures var next := b.AfterMark(x, price); var after := log + TickEvents(b, x, price);
      Life(after, s) == Some(next.LotOf(s).quantity != 0) && OpenBalance(after) == next.NonZero()
  {
    var next := b.AfterMark(x, price);
    CountUpdate(b.symbols, b.Open(), next.Open(), x);
    ExposureEventsAreQuiet(next);
    QuietTail(log, TickEvents(b, x, price), s);
  }

  /** From a flat start, whatever is filled and marked: every symbol's life events strictly alternate
      starting with an opening, the last one says whether the symbol is open, and openings less closings is
      the number of long and short positions in the exposure snapshot. */
  lemma OpenCloseProtocol(capital: real, limit: Option<real>, inputs: seq<Input>)
    ensures var b := RunBooks(Flat(capital, limit), inputs); var log := RunEvents(Flat(capital, limit), inputs);
      && (forall s :: Life(log, s) == Some(b.LotOf(s).quantity != 0))
      && OpenBalance(log) == b.Snapshot().longs + b.Snapshot().shorts
  {
    var b := RunBooks(Flat(capital, limit), inputs);
    forall s ensures Life(RunEvents(Flat(capital, limit), inputs), s) == Some(b.LotOf(s).quantity != 0) {
      LifeFollowsQuantity(capital, limit, inputs, s);
    }
    LifeFollowsQuantity(capital, limit, inputs, Symbol(""));
    CountOfCounts(b.symbols, b.Long(), b.Short(), b.Open());
  }
}
