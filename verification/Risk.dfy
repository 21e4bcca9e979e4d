/** The risk engine: six checks between a strategy's signal and an order. */
module Risk {
  import opened Basics
  import opened Ledger
  import opened Portfolio
  import opened Reals
  import opened Sums

  datatype Limits = Limits(maxPositionSize: int, maxDailyLoss: real, maxLeverage: real, maxConcurrentPositions: int,
                           staleMarketSeconds: real)

  datatype Rule = MaxPositionSize | MaxDailyLoss | MaxLeverage | MaxConcurrentPositions | StaleMarket

  datatype Reason = KillSwitchActive | Broken(rule: Rule)

  datatype RiskEvent =
    | SignalApproved(signal: Signal)
    | SignalRejected(signal: Signal, reason: Reason)
    | RiskViolation(signal: Signal, rule: Rule)
    | TradingHalted

  ghost predicate Reduces(b: Books, signal: Signal) {
    var q := b.LotOf(signal.symbol).quantity;
    (q > 0 && signal.side == Sell) || (q < 0 && signal.side == Buy)
  }

  /** The magnitude is what counts: a large gain trips the daily check as a large loss does. */
  ghost predicate DailyLossReached(limits: Limits, b: Books, signal: Signal) {
    !Reduces(b, signal) && Magnitude(Sum(b.symbols, b.Realized())) >= limits.maxDailyLoss
  }

  ghost predicate TooManyPositions(limits: Limits, b: Books, signal: Signal) {
    b.LotOf(signal.symbol).quantity == 0 && b.NonZero() >= limits.maxConcurrentPositions
  }

  predicate Stale(limits: Limits, lastTick: map<Symbol, real>, now: real, signal: Signal) {
    signal.symbol in lastTick && now - lastTick[signal.symbol] > limits.staleMarketSeconds
  }

  /** The first rule a signal breaks, in the order the engine lists them. The symbol-exposure check of the
      engine never objects. */
  ghost function BrokenRule(limits: Limits, b: Books, lastTick: map<Symbol, real>, now: real, signal: Signal)
    : Option<Rule>
  {
    if signal.size > limits.maxPositionSize then Some(MaxPositionSize)
    else if DailyLossReached(limits, b, signal) then Some(MaxDailyLoss)
    else if b.Equity() <= 0.0 || b.Leverage() >= limits.maxLeverage then Some(MaxLeverage)
    else if TooManyPositions(limits, b, signal) then Some(MaxConcurrentPositions)
    else if Stale(limits, lastTick, now, signal) then Some(StaleMarket)
    else None
  }

  ghost function Answer(limits: Limits, killed: bool, b: Books, lastTick: map<Symbol, real>, now: real, signal: Signal)
    : seq<RiskEvent>
  {
    if killed then [SignalRejected(signal, KillSwitchActive)]
    else
      match BrokenRule(limits, b, lastTick, now, signal)
      case Some(rule) => [SignalRejected(signal, Broken(rule)), RiskViolation(signal, rule)]
      case None => [SignalApproved(signal)]
  }

  ghost predicate Approves(limits: Limits, killed: bool, b: Books, lastTick: map<Symbol, real>, now: real,
        signal: Signal)
  {
    !killed && BrokenRule(limits, b, lastTick, now, signal) == None
  }

  class RiskEngine {
    const limits: Limits
    const pm: PositionManager
    var running: bool
    var killSwitch: bool
    var lastTickTime: map<Symbol, real>
    var published: seq<RiskEvent>

    constructor (pm: PositionManager, limits: Limits)
      ensures this.pm == pm && this.limits == limits
      ensures !running && !killSwitch && lastTickTime == map[] && published == []
    {
      this.pm, this.limits := pm, limits;
      running, killSwitch, lastTickTime, published := false, false, map[], [];
    }

    method Start()
      modifies this`running
      ensures running
    {
      running := true;
    }

    method Stop()
      modifies this`running
      ensures !running
    {
      running := false;
    }

    method ActivateKillSwitch()
      modifies this`killSwitch
      ensures killSwitch
    {
      killSwitch := true;
    }

    method DeactivateKillSwitch()
      modifies this`killSwitch
      ensures !killSwitch
    {
      killSwitch := false;
    }

    method OnDisconnect()
      modifies this`killSwitch, this`published
      ensures running ==> killSwitch && published == old(published) + [TradingHalted]
      ensures !running ==> killSwitch == old(killSwitch) && published == old(published)
    {
      if running {
        killSwitch := true;
        published := published + [TradingHalted];
      }
    }

    method OnTick(symbol: Symbol, time: real)
      modifies this`lastTickTime
      ensures lastTickTime == if running then old(lastTickTime)[symbol := time] else old(lastTickTime)
    {
      if running {
        lastTickTime := lastTickTime[symbol := time];
      }
    }

    /** All checks are evaluated, then the first objection in the list decides. */
    method OnSignal(signal: Signal, now: real)
      requires pm.Valid()
      modifies this`published
      ensures published == old(published) +
        if running then Answer(limits, killSwitch, pm.View(), lastTickTime, now, signal) else []
    {
      hide DailyLossReached, TooManyPositions, Stale, Books.Equity, Books.Leverage;
      if !running {
        return;
      }
      if killSwitch {
        published := published + [SignalRejected(signal, KillSwitchActive)];
        return;
      }
      var dailyLoss := CheckDailyLoss(signal);
      var leverage := CheckLeverage();
      var concurrent := CheckConcurrentPositions(signal);
      var checks := [
        (MaxPositionSize, signal.size > limits.maxPositionSize), (MaxDailyLoss, dailyLoss), (MaxLeverage, leverage),
        (MaxConcurrentPositions, concurrent), (StaleMarket, Stale(limits, lastTickTime, now, signal))];
      for i := 0 to |checks|
        invariant published == old(published)
        invariant forall j :: 0 <= j < i ==> !checks[j].1
      {
        if checks[i].1 {
          assert (0 < i ==> !checks[0].1) && (1 < i ==> !checks[1].1);
          assert (2 < i ==> !checks[2].1) && (3 < i ==> !checks[3].1);
          published := published + [SignalRejected(signal, Broken(checks[i].0))];
          published := published + [RiskViolation(signal, checks[i].0)];
          return;
        }
      }
      assert !checks[0].1 && !checks[1].1 && !checks[2].1 && !checks[3].1 && !checks[4].1;
      published := published + [SignalApproved(signal)];
    }

    method CheckDailyLoss(signal: Signal) returns (objects: bool)
      requires pm.Valid()
      ensures objects == DailyLossReached(limits, pm.View(), signal)
    {
      var pos := pm.Find(signal.symbol);
      var currentQty := if pos == null then 0 else pos.quantity;
      var isReducing := (currentQty > 0 && signal.side == Sell) || (currentQty < 0 && signal.side == Buy);
      if isReducing {
        return false;
      }
      var dailyLoss := pm.TotalRealizedPnl();
      return Magnitude(dailyLoss) >= limits.maxDailyLoss;
    }

    method CheckLeverage() returns (objects: bool)
      requires pm.Valid()
      ensures objects == (pm.View().Equity() <= 0.0 || pm.View().Leverage() >= limits.maxLeverage)
    {
      var equity := pm.EquityNow();
      if equity <= 0.0 {
        return true;
      }
      var leverage := pm.LeverageNow();
      return leverage >= limits.maxLeverage;
    }

    method CheckConcurrentPositions(signal: Signal) returns (objects: bool)
      requires pm.Valid()
      ensures objects == TooManyPositions(limits, pm.View(), signal)
    {
      var nonZero := 0;
      for i := 0 to |pm.order|
        invariant nonZero == Count(pm.order[..i], pm.View().Open())
      {
        CountNext(pm.order, i, pm.View().Open());
        if pm.positions[pm.order[i]].quantity != 0 {
          nonZero := nonZero + 1;
        }
      }
      assert pm.order[..|pm.order|] == pm.order;
      var pos := pm.Find(signal.symbol);
      if pos != null && pos.quantity != 0 {
        return false;
      }
      return nonZero >= limits.maxConcurrentPositions;
    }
  }

  // ---------------------------------------------------------------------------------------------
  // What an approval means
  // ---------------------------------------------------------------------------------------------

  /** A signal reduces its position exactly if a single share filled on its side, at any price, would bring the
      position nearer to flat. */
  lemma ReducesIff(b: Books, signal: Signal, price: real)
    ensures Reduces(b, signal) <==>
      Abs(Apply(b.LotOf(signal.symbol), Fill(signal.side, 1, price)).quantity) < Abs(b.LotOf(signal.symbol).quantity)
  {
    hide Apply, Lot.Balance, Fill.Cash, DropsCost;
    StepBalancesIff(b.LotOf(signal.symbol), Fill(signal.side, 1, price));
  }

  /** What a signal breaks, rule by rule. Only the daily check spares a signal that would bring its position nearer to
      flat, and it counts the magnitude of realized PnL, so that gains trip it too. */
  ghost predicate Breaks(rule: Rule, limits: Limits, b: Books, lastTick: map<Symbol, real>, now: real, signal: Signal) {
    match rule
    case MaxPositionSize => signal.size > limits.maxPositionSize
    case MaxDailyLoss =>
      && !(Abs(Apply(b.LotOf(signal.symbol), Fill(signal.side, 1, 0.0)).quantity)
           < Abs(b.LotOf(signal.symbol).quantity))
      && !(-limits.maxDailyLoss < Sum(b.symbols, s => b.LotOf(s).realizedPnl) < limits.maxDailyLoss)
    case MaxLeverage => b.Equity() <= 0.0 || b.Snapshot().gross >= limits.maxLeverage * b.Equity()
    case MaxConcurrentPositions =>
      b.LotOf(signal.symbol).quantity == 0
      && Count(b.symbols, s => b.LotOf(s).quantity != 0) >= limits.maxConcurrentPositions
    case StaleMarket => signal.symbol in lastTick && now > lastTick[signal.symbol] + limits.staleMarketSeconds
  }

  /** The order in which the rules are looked at. */
  function Place(rule: Rule): nat {
    match rule
    case MaxPositionSize => 0
    case MaxDailyLoss => 1
    case MaxLeverage => 2
    case MaxConcurrentPositions => 3
    case StaleMarket => 4
  }

  lemma LeverageAtLimit(gross: real, equity: real, limit: real)
    requires equity > 0.0
    ensures gross / equity >= limit <==> gross >= limit * equity
  {
    assert gross / equity * equity == gross;
    if gross / equity >= limit {
      ProductSign(gross / equity - limit, equity);
    } else {
      PositiveProduct(limit - gross / equity, equity, (limit - gross / equity) * equity);
    }
  }

  /** The rule found broken is broken, and none before it is; none is found only if all are kept. */
  lemma BrokenIsFirst(limits: Limits, b: Books, lastTick: map<Symbol, real>, now: real, signal: Signal)
    ensures var broken := BrokenRule(limits, b, lastTick, now, signal);
      && (broken.Some? ==> Breaks(broken.value, limits, b, lastTick, now, signal))
      && (forall rule :: Breaks(rule, limits, b, lastTick, now, signal) ==>
            broken.Some? && Place(broken.value) <= Place(rule))
  {
    hide Apply, Books.Equity, Books.Snapshot;
    ReducesIff(b, signal, 0.0);
    SumSame(b.symbols, b.Realized(), s => b.LotOf(s).realizedPnl);
    CountSame(b.symbols, b.Open(), s => b.LotOf(s).quantity != 0);
    if b.Equity() > 0.0 {
      LeverageAtLimit(b.Snapshot().gross, b.Equity(), limits.maxLeverage);
    }
  }

  /** A signal is approved exactly if trading is not halted and it breaks no rule. Otherwise it is rejected, for the
      halt or else for the first rule it breaks, and that rule alone is reported as violated. */
  lemma ApprovalIff(limits: Limits, killed: bool, b: Books, lastTick: map<Symbol, real>, now: real, signal: Signal)
    ensures var answer := Answer(limits, killed, b, lastTick, now, signal);
      && (SignalApproved(signal) in answer <==>
            !killed && forall rule :: !Breaks(rule, limits, b, lastTick, now, signal))
      && (Approves(limits, killed, b, lastTick, now, signal) <==> SignalApproved(signal) in answer)
      && (SignalRejected(signal, KillSwitchActive) in answer <==> killed)
      && (forall rule :: SignalRejected(signal, Broken(rule)) in answer <==> RiskViolation(signal, rule) in answer)
      && (forall rule :: RiskViolation(signal, rule) in answer <==>
            && !killed && Breaks(rule, limits, b, lastTick, now, signal)
            && forall other :: Breaks(other, limits, b, lastTick, now, signal) ==> Place(rule) <= Place(other))
      && (forall e :: e in answer ==> e.SignalApproved? || e.SignalRejected? || e.RiskViolation?)
  {
    hide BrokenRule, Breaks;
    BrokenIsFirst(limits, b, lastTick, now, signal);
    var answer := Answer(limits, killed, b, lastTick, now, signal);
    var broken := BrokenRule(limits, b, lastTick, now, signal);
    if !killed && broken.Some? {
      assert answer == [SignalRejected(signal, Broken(broken.value)), RiskViolation(signal, broken.value)];
      forall rule | Breaks(rule, limits, b, lastTick, now, signal) && Place(rule) <= Place(broken.value)
        ensures rule == broken.value
      {
      }
    }
  }
}
