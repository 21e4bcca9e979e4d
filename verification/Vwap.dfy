/** The VWAP strategy: running sums over a bounded window of trades. */
module Vwap {
  import opened Basics
  import opened Reals

  datatype Trade = Trade(price: real, volume: int) {

    predicate Acceptable() {
      volume > 0 && price > 0.0
    }

    function Value(): real {
      Times(price, volume)
    }
  }

  datatype Params = Params(strategy: string, window: nat, entryPct: real, exitPct: real, size: int)

  function TotalValue(ts: seq<Trade>): real {
    if ts == [] then 0.0 else TotalValue(ts[..|ts| - 1]) + ts[|ts| - 1].Value()
  }

  function TotalVolume(ts: seq<Trade>): int {
    if ts == [] then 0 else TotalVolume(ts[..|ts| - 1]) + ts[|ts| - 1].volume
  }

  /** The last n of a list, or all of it. */
  function Last<T>(ts: seq<T>, n: nat): seq<T> {
    if |ts| <= n then ts else ts[|ts| - n..]
  }

  predicate AllAcceptable(ts: seq<Trade>) {
    forall t :: t in ts ==> t.Acceptable()
  }

  /** The volume-weighted average price, computed from scratch. */
  function VwapOf(ts: seq<Trade>): real
    requires TotalVolume(ts) > 0
  {
    TotalValue(ts) / TotalVolume(ts) as real
  }

  function Deviation(price: real, vwap: real): real
    requires vwap != 0.0
  {
    (price - vwap) / vwap
  }

  /** An entry in a direction not last signalled; then, judged by the signal before that, an exit. */
  function Entry(p: Params, last: Option<Side>, deviation: real): Option<Side> {
    if deviation > p.entryPct && last != Some(Sell) then Some(Sell)
    else if deviation < -p.entryPct && last != Some(Buy) then Some(Buy)
    else None
  }

  predicate Exits(p: Params, last: Option<Side>, deviation: real) {
    last.Some? && Magnitude(deviation) < p.exitPct
  }

  function NextLast(p: Params, last: Option<Side>, deviation: real): Option<Side> {
    if Exits(p, last, deviation) then None
    else if Entry(p, last, deviation).Some? then Entry(p, last, deviation)
    else last
  }

  function Sides(p: Params, last: Option<Side>, deviation: real): seq<Side> {
    (if Entry(p, last, deviation).Some? then [Entry(p, last, deviation).value] else [])
    + (if Exits(p, last, deviation) then [Opposite(last.value)] else [])
  }

  function Signals(p: Params, s: Symbol, sides: seq<Side>): seq<Signal> {
    seq(|sides|, i requires 0 <= i < |sides| => Signal(p.strategy, s, sides[i], p.size))
  }

  // ---------------------------------------------------------------------------------------------
  // Sums over a sliding window
  // ---------------------------------------------------------------------------------------------

  lemma {:induction false} TotalsConcat(xs: seq<Trade>, ys: seq<Trade>)
    ensures TotalValue(xs + ys) == TotalValue(xs) + TotalValue(ys)
    ensures TotalVolume(xs + ys) == TotalVolume(xs) + TotalVolume(ys)
  {
    if ys == [] {
      assert xs + ys == xs;
    } else {
      TotalsConcat(xs, ys[..|ys| - 1]);
      assert (xs + ys)[..|xs + ys| - 1] == xs + ys[..|ys| - 1];
    }
  }

  lemma TotalsOfOne(t: Trade)
    ensures TotalValue([t]) == t.Value() && TotalVolume([t]) == t.volume
  {
    assert [t][..0] == [];
  }

  /** One more trade enters the window, and the oldest leaves a full one. */
  lemma WindowSlides(history: seq<Trade>, t: Trade, n: nat)
    requires n >= 1
    ensures var before, after := Last(history, n), Last(history + [t], n);
      && after == (if |before| == n then before[1..] else before) + [t]
      && TotalValue(after) == TotalValue(before) + t.Value() - (if |before| == n then before[0].Value() else 0.0)
      && TotalVolume(after) == TotalVolume(before) + t.volume - (if |before| == n then before[0].volume else 0)
  {
    var before := Last(history, n);
    TotalsOfOne(t);
    if |before| == n {
      assert before == [before[0]] + before[1..];
      TotalsConcat([before[0]], before[1..]);
      TotalsOfOne(before[0]);
      TotalsConcat(before[1..], [t]);
    } else {
      TotalsConcat(before, [t]);
    }
  }

  lemma {:induction false} TotalsPositive(ts: seq<Trade>)
    requires ts != [] && AllAcceptable(ts)
    ensures TotalVolume(ts) > 0 && TotalValue(ts) > 0.0
  {
    var t := ts[|ts| - 1];
    assert t.Acceptable();
    PositiveProduct(t.price, t.volume as real, t.Value());
    if |ts| > 1 {
      TotalsPositive(ts[..|ts| - 1]);
    } else {
      assert ts[..0] == [];
    }
  }

  lemma {:induction false} ValueBetween(ts: seq<Trade>, low: real, high: real)
    requires AllAcceptable(ts) && forall t :: t in ts ==> low <= t.price <= high
    ensures Times(low, TotalVolume(ts)) <= TotalValue(ts) <= Times(high, TotalVolume(ts))
  {
    if ts != [] {
      var rest, t := ts[..|ts| - 1], ts[|ts| - 1];
      ValueBetween(rest, low, high);
      assert t in ts && t.Acceptable();
      TimesAdds(low, TotalVolume(rest), t.volume);
      TimesAdds(high, TotalVolume(rest), t.volume);
      TimesOrdered(low, t.price, t.volume);
      TimesOrdered(t.price, high, t.volume);
      hide Times;
    }
  }

  /** The average of a window lies between any bounds its prices keep, in particular between the lowest and
      the highest of them. */
  lemma VwapBetween(ts: seq<Trade>, low: real, high: real)
    requires ts != [] && AllAcceptable(ts) && forall t :: t in ts ==> low <= t.price <= high
    ensures TotalVolume(ts) > 0 && low <= VwapOf(ts) <= high
  {
    TotalsPositive(ts);
    ValueBetween(ts, low, high);
    DivideBetween(low, high, TotalValue(ts), TotalVolume(ts));
  }

  lemma DivideBetween(low: real, high: real, value: real, volume: int)
    requires volume > 0 && Times(low, volume) <= value <= Times(high, volume)
    ensures low <= value / volume as real <= high
  {
    var v := volume as real;
    assert low == low * v / v && high == high * v / v;
  }

  function PricesOf(ts: seq<Trade>): seq<real> {
    seq(|ts|, i requires 0 <= i < |ts| => ts[i].price)
  }

  function VolumesOf(ts: seq<Trade>): seq<int> {
    seq(|ts|, i requires 0 <= i < |ts| => ts[i].volume)
  }

  lemma WindowIsPositive(history: seq<Trade>, window: nat)
    requires window >= 1 && history != []
    ensures AllAcceptable(history) ==>
      TotalVolume(Last(history, window)) > 0 && VwapOf(Last(history, window)) > 0.0
  {
    if AllAcceptable(history) {
      TotalsPositive(Last(history, window));
    }
  }

  /** Queues and running sums of one symbol, as they stand for a window of trades. */
  datatype Sums = Sums(prices: seq<real>, volumes: seq<int>, pv: real, vol: int)

  ghost function SumsOf(ts: seq<Trade>): Sums {
    Sums(PricesOf(ts), VolumesOf(ts), TotalValue(ts), TotalVolume(ts))
  }

  /** The incremental step: append, add, and subtract what a full window drops. */
  function Advance(s: Sums, t: Trade, window: nat): Sums
    requires |s.prices| == |s.volumes| && window >= 1
  {
    var added := Sums(s.prices + [t.price], s.volumes + [t.volume], s.pv + Times(t.price, t.volume), s.vol + t.volume);
    if |s.prices| == window
    then Sums(added.prices[1..], added.volumes[1..],
              added.pv - Times(s.prices[0], s.volumes[0]), added.vol - s.volumes[0])
    else added
  }

  /** The incremental step keeps the sums those of the window. */
  lemma AdvanceRefines(history: seq<Trade>, t: Trade, window: nat)
    requires window >= 1
    ensures Advance(SumsOf(Last(history, window)), t, window) == SumsOf(Last(history + [t], window))
  {
    hide Times;
    WindowSlides(history, t, window);
  }

  // ---------------------------------------------------------------------------------------------
  // The strategy
  // ---------------------------------------------------------------------------------------------

  class VwapReversionStrategy {
    const params: Params
    var running: bool
    var table: map<Symbol, Sums>  // the four tables of the strategy, which always hold the same symbols
    var lastSignal: map<Symbol, Side>
    var emitted: seq<Signal>
    ghost var history: map<Symbol, seq<Trade>>  // every accepted trade so far

    ghost function HistoryOf(s: Symbol): seq<Trade>
      reads `history
    {
      if s in history then history[s] else []
    }

    ghost function Window(s: Symbol): seq<Trade>
      reads `history
    {
      Last(HistoryOf(s), params.window)
    }

    /** The queues hold the last trades of the window and the running sums are their totals. */
    ghost predicate Valid()
      reads `table, `history
    {
      && params.window >= 1 && table.Keys == history.Keys
      && forall s :: s in table ==> AllAcceptable(history[s]) && table[s] == SumsOf(Last(history[s], params.window))
    }

    function LastOf(s: Symbol): Option<Side>
      reads `lastSignal
    {
      if s in lastSignal then Some(lastSignal[s]) else None
    }

    /** An empty window makes the first tick raise, so a window holds at least one trade. */
    constructor (params: Params)
      requires params.window >= 1
      ensures Valid() && this.params == params && !running && emitted == [] && history == map[] && lastSignal == map[]
    {
      this.params := params;
      running, table, lastSignal, emitted, history := false, map[], map[], [], map[];
    }

    method Start()
      modifies this`running
      ensures running
    {
      running := true;
    }

    method EmitSignal(symbol: Symbol, side: Side)
      modifies this`emitted
      ensures emitted == old(emitted) + if running then [Signal(params.strategy, symbol, side, params.size)] else []
    {
      if running {
        emitted := emitted + [Signal(params.strategy, symbol, side, params.size)];
      }
    }

    /** A tick without volume or price is ignored. Any other slides its symbol's window, and the strategy acts
        on the deviation from the average of exactly the trades in the window. */
    method OnTick(symbol: Symbol, trade: Trade)
      requires Valid()
      modifies this
      ensures Valid() && running == old(running)
      ensures trade.Acceptable() <==> trade.volume > 0 && trade.price > 0.0
      ensures !trade.Acceptable() ==>
        history == old(history) && lastSignal == old(lastSignal) && emitted == old(emitted)
      ensures trade.Acceptable() ==> history == old(history)[symbol := old(HistoryOf(symbol)) + [trade]]
      ensures trade.Acceptable() ==> TotalVolume(Window(symbol)) > 0 && VwapOf(Window(symbol)) > 0.0
      ensures trade.Acceptable() ==>
        var d := Deviation(trade.price, VwapOf(Window(symbol)));
        && LastOf(symbol) == NextLast(params, old(LastOf(symbol)), d)
        && (forall s :: s != symbol ==> LastOf(s) == old(LastOf(s)))
        && emitted == old(emitted)
             + if running then Signals(params, symbol, Sides(params, old(LastOf(symbol)), d)) else []
    {
      if trade.volume <= 0 || trade.price <= 0.0 {
        return;
      }
      hide Valid, Last, NextLast, Sides, Signals, TotalVolume, TotalValue;
      Record(symbol, trade);
      if table[symbol].vol <= 0 {
        return;
      }
      var vwap := table[symbol].pv / table[symbol].vol as real;
      Act(symbol, (trade.price - vwap) / vwap);
    }

    /** What a strategy started before any of the ticks has seen, remembers and has signalled for each symbol. */
    ghost predicate Follows(ticks: seq<Tick>)
      requires params.window >= 1
      reads this
    {
      forall s ::
        HistoryOf(s) == Accepted(ticks, s) && InStep(params, Accepted(ticks, s), LastOf(s), SidesOf(emitted, s))
    }

    /** One more tick of a run: the strategy goes on to follow it, and signals its symbol only, on a positive
        price only. */
    method Follow(tick: Tick, ghost past: seq<Tick>)
      requires Valid() && running && Follows(past)
      modifies this
      ensures Valid() && running && Follows(past + [tick])
      ensures old(emitted) <= emitted
      ensures forall i :: |old(emitted)| <= i < |emitted| ==>
        tick.trade.price > 0.0 && emitted[i] == Signal(params.strategy, tick.symbol, emitted[i].side, params.size)
    {
      assert params.window >= 1;
      hide Valid, InStep, NextLast, Sides, Signals, SidesOf, Accepted, Last, LastOf, VwapOf, TotalVolume, TotalValue;
      OnTick(tick.symbol, tick.trade);
      ghost var d: real, sides: seq<Side> := 0.0, [];
      if tick.trade.Acceptable() {
        d := Deviation(tick.trade.price, VwapOf(Last(old(HistoryOf(tick.symbol)) + [tick.trade], params.window)));
        sides := Sides(params, old(LastOf(tick.symbol)), d);
        SignalsAre(params, tick.symbol, sides);
      }
      forall s ensures HistoryOf(s) == Accepted(past + [tick], s)
               ensures InStep(params, Accepted(past + [tick], s), LastOf(s), SidesOf(emitted, s)) {
        ghost var trades, last := Accepted(past, s), old(LastOf(s));
        AcceptedNext(past, tick, s);
        if tick.trade.Acceptable() {
          SidesOfSignals(old(emitted), params, tick.symbol, sides, s);
          if s == tick.symbol {
            InStepNext(params, trades, tick.trade, last, old(SidesOf(emitted, s)));
          }
        }
      }
    }

    method Record(symbol: Symbol, trade: Trade)
      requires Valid() && trade.Acceptable()
      modifies this`table, this`history
      ensures Valid() && history == old(history)[symbol := old(HistoryOf(symbol)) + [trade]]
      ensures symbol in table
      ensures table[symbol].pv == TotalValue(Window(symbol)) && table[symbol].vol == TotalVolume(Window(symbol))
      ensures TotalVolume(Window(symbol)) > 0 && VwapOf(Window(symbol)) > 0.0
    {
      ghost var past := HistoryOf(symbol);
      if symbol !in table {
        table := table[symbol := Sums([], [], 0.0, 0)];
      }
      AdvanceRefines(past, trade, params.window);
      WindowIsPositive(past + [trade], params.window);
      Slide(symbol, trade);
      history := history[symbol := past + [trade]];
    }

    /** Appends to the queues and updates the running sums in place. */
    method Slide(symbol: Symbol, trade: Trade)
      requires params.window >= 1 && symbol in table && |table[symbol].prices| == |table[symbol].volumes|
      modifies this`table
      ensures table == old(table)[symbol := Advance(old(table[symbol]), trade, params.window)]
    {
      hide Times;
      var t := table[symbol];
      var full := |t.prices| == params.window;
      var oldPrice := if full then Some(t.prices[0]) else None;
      var oldVol := if |t.volumes| == params.window then Some(t.volumes[0]) else None;
      t := t.(prices := (t.prices + [trade.price])[(if full then 1 else 0)..]);
      t := t.(volumes := (t.volumes + [trade.volume])[(if full then 1 else 0)..]);
      t := t.(pv := t.pv + Times(trade.price, trade.volume), vol := t.vol + trade.volume);
      if oldPrice.Some? && oldVol.Some? {
        t := t.(pv := t.pv - Times(oldPrice.value, oldVol.value), vol := t.vol - oldVol.value);
      }
      table := table[symbol := t];
    }

    method Act(symbol: Symbol, deviation: real)
      modifies this`lastSignal, this`emitted
      ensures LastOf(symbol) == NextLast(params, old(LastOf(symbol)), deviation)
      ensures forall s :: s != symbol ==> LastOf(s) == old(LastOf(s))
      ensures emitted == old(emitted)
        + if running then Signals(params, symbol, Sides(params, old(LastOf(symbol)), deviation)) else []
    {
      var last := LastOf(symbol);
      if deviation > params.entryPct && last != Some(Sell) {
        EmitSignal(symbol, Sell);
        lastSignal := lastSignal[symbol := Sell];
      } else if deviation < -params.entryPct && last != Some(Buy) {
        EmitSignal(symbol, Buy);
        lastSignal := lastSignal[symbol := Buy];
      }
      if last.Some? && Magnitude(deviation) < params.exitPct {
        var opposite := if last.value == Sell then Buy else Sell;
        EmitSignal(symbol, opposite);
        lastSignal := lastSignal - {symbol};
      }
    }
  }

  // ---------------------------------------------------------------------------------------------
  // What the signals of one symbol add up to
  // ---------------------------------------------------------------------------------------------

  function Sign(side: Side): int {
    if side == Buy then 1 else if side == Sell then -1 else 0
  }

  function Held(last: Option<Side>): int {
    if last.Some? then Sign(last.value) else 0
  }

  function Net(sides: seq<Side>): int {
    if sides == [] then 0 else Net(sides[..|sides| - 1]) + Sign(sides[|sides| - 1])
  }

  /** The memory after a run of deviations. */
  function LastAfter(p: Params, deviations: seq<real>): Option<Side> {
    if deviations == [] then None
    else NextLast(p, LastAfter(p, deviations[..|deviations| - 1]), deviations[|deviations| - 1])
  }

  /** The sides signalled over a run of deviations. */
  function AllSides(p: Params, deviations: seq<real>): seq<Side> {
    if deviations == [] then []
    else
      var past, d := deviations[..|deviations| - 1], deviations[|deviations| - 1];
      AllSides(p, past) + Sides(p, LastAfter(p, past), d)
  }

  /** The strategy believes it holds one unit in the direction it remembers; its signals match that if they add
      up to it. */
  predicate Matches(p: Params, deviations: seq<real>) {
    Net(AllSides(p, deviations)) == Held(LastAfter(p, deviations))
  }

  lemma {:induction false} NetConcat(xs: seq<Side>, ys: seq<Side>)
    ensures Net(xs + ys) == Net(xs) + Net(ys)
  {
    if ys == [] {
      assert xs + ys == xs;
    } else {
      NetConcat(xs, ys[..|ys| - 1]);
      assert (xs + ys)[..|xs + ys| - 1] == xs + ys[..|ys| - 1];
    }
  }

  lemma NetOfSides(p: Params, last: Option<Side>, d: real)
    ensures Net(Sides(p, last, d))
         == Held(Entry(p, last, d)) + if Exits(p, last, d) then Sign(Opposite(last.value)) else 0
  {
    hide Net;
    var entry := if Entry(p, last, d).Some? then [Entry(p, last, d).value] else [];
    var exit := if Exits(p, last, d) then [Opposite(last.value)] else [];
    NetConcat(entry, exit);
    NetOfOne(Buy);
    NetOfOne(Sell);
  }

  lemma NetOfOne(side: Side)
    ensures Net([side]) == Sign(side) && Net([]) == 0
  {
    assert [side][..0] == [];
  }

  lemma {:induction false} LastIsASide(p: Params, deviations: seq<real>)
    ensures LastAfter(p, deviations) in {None, Some(Buy), Some(Sell)}
  {
    if deviations != [] {
      LastIsASide(p, deviations[..|deviations| - 1]);
    }
  }

  /** An entry made straight from the opposite side, a buy counted up and a sell down; one that the same tick also
      leaves counts the other way. */
  function Reversal(p: Params, last: Option<Side>, d: real): int {
    if last.None? || Entry(p, last, d).None? then 0
    else if Exits(p, last, d) then -Sign(Entry(p, last, d).value)
    else Sign(Entry(p, last, d).value)
  }

  function Reversals(p: Params, deviations: seq<real>): int {
    if deviations == [] then 0
    else
      var past, d := deviations[..|deviations| - 1], deviations[|deviations| - 1];
      Reversals(p, past) + Reversal(p, LastAfter(p, past), d)
  }

  lemma ReversalIsTheDrift(p: Params, last: Option<Side>, d: real)
    requires last in {None, Some(Buy), Some(Sell)}
    ensures Net(Sides(p, last, d)) == Held(NextLast(p, last, d)) - Held(last) - Reversal(p, last, d)
  {
    hide Net;
    NetOfSides(p, last, d);
  }

  /** For all thresholds: what has been signalled differs from the position believed in by the reversals. A
      reversal signals one unit where two would be needed; entering and leaving on one tick signals two where
      one would do. */
  lemma {:induction false} ReversalsAreTheDrift(p: Params, deviations: seq<real>)
    ensures Net(AllSides(p, deviations)) == Held(LastAfter(p, deviations)) - Reversals(p, deviations)
  {
    hide Net, Sides, NextLast, Reversal, Held;
    if deviations == [] {
      NothingHeld();
    } else {
      var past, d := deviations[..|deviations| - 1], deviations[|deviations| - 1];
      ReversalsAreTheDrift(p, past);
      LastIsASide(p, past);
      ReversalIsTheDrift(p, LastAfter(p, past), d);
      NetConcat(AllSides(p, past), Sides(p, LastAfter(p, past), d));
    }
  }

  lemma NothingHeld()
    ensures Net([]) == 0 && Held(None) == 0
  {
  }

  lemma RunNext(p: Params, deviations: seq<real>, d: real)
    ensures LastAfter(p, deviations + [d]) == NextLast(p, LastAfter(p, deviations), d)
    ensures AllSides(p, deviations + [d]) == AllSides(p, deviations) + Sides(p, LastAfter(p, deviations), d)
  {
    assert (deviations + [d])[..|deviations|] == deviations;
  }

  /** What one more deviation leads to: a sale beyond the upper threshold unless a sale was signalled last, else a
      purchase beyond the lower one unless a purchase was; and then, if anything was signalled before and the
      deviation is near, the opposite of that. The near deviation ends the position, an entry makes one, and
      anything else leaves it. */
  lemma SignalsByDeviation(p: Params, past: seq<real>, d: real)
    ensures var before, after := LastAfter(p, past), LastAfter(p, past + [d]);
      var sold := d > p.entryPct && before != Some(Sell);
      var bought := !sold && d < -p.entryPct && before != Some(Buy);
      var left := before.Some? && -p.exitPct < d < p.exitPct;
      && AllSides(p, past + [d]) == AllSides(p, past)
           + (if sold then [Sell] else if bought then [Buy] else [])
           + (if left then [if before == Some(Sell) then Buy else Sell] else [])
      && after == if left then None else if sold then Some(Sell) else if bought then Some(Buy) else before
  {
    RunNext(p, past, d);
    hide AllSides, LastAfter;
    assert forall xs: seq<Side>, ys: seq<Side>, zs: seq<Side> :: xs + (ys + zs) == (xs + ys) + zs;
  }

  /** The deviation is how much the price exceeds the average, in averages; the average is total value over total
      volume. */
  lemma DeviationIs(price: real, ts: seq<Trade>)
    requires ts != [] && AllAcceptable(ts)
    ensures TotalVolume(ts) > 0 && VwapOf(ts) > 0.0
    ensures price == VwapOf(ts) * (1.0 + Deviation(price, VwapOf(ts)))
    ensures TotalValue(ts) == VwapOf(ts) * TotalVolume(ts) as real
  {
    TotalsPositive(ts);
    var v, d := VwapOf(ts), Deviation(price, VwapOf(ts));
    QuotientTimes(TotalValue(ts), TotalVolume(ts));
    assert d * v == price - v;
  }

  // ---------------------------------------------------------------------------------------------
  // Runs of ticks over any interleaving of symbols
  // ---------------------------------------------------------------------------------------------

  datatype Tick = Tick(symbol: Symbol, trade: Trade)

  /** The trades of a symbol that the strategy takes notice of. */
  function Accepted(ticks: seq<Tick>, s: Symbol): (trades: seq<Trade>)
    ensures AllAcceptable(trades)
  {
    if ticks == [] then []
    else
      var last := ticks[|ticks| - 1];
      Accepted(ticks[..|ticks| - 1], s) + if last.symbol == s && last.trade.Acceptable() then [last.trade] else []
  }

  function SidesOf(signals: seq<Signal>, s: Symbol): seq<Side> {
    if signals == [] then []
    else
      var last := signals[|signals| - 1];
      SidesOf(signals[..|signals| - 1], s) + if last.symbol == s then [last.side] else []
  }

  /** Memory and signals of a symbol are those that the deviations of its trades lead to. */
  ghost predicate InStep(p: Params, trades: seq<Trade>, last: Option<Side>, sides: seq<Side>)
    requires p.window >= 1 && AllAcceptable(trades)
  {
    last == LastAfter(p, Deviations(p.window, trades)) && sides == AllSides(p, Deviations(p.window, trades))
  }

  lemma InStepNext(p: Params, trades: seq<Trade>, t: Trade, last: Option<Side>, sides: seq<Side>)
    requires p.window >= 1 && AllAcceptable(trades) && t.Acceptable() && InStep(p, trades, last, sides)
    ensures AllAcceptable(trades + [t])
    ensures var d := NewestDeviation(p.window, trades + [t]);
      InStep(p, trades + [t], NextLast(p, last, d), sides + Sides(p, last, d))
  {
    hide NextLast, Sides, LastAfter, AllSides;
    DeviationsNext(p.window, trades, t);
    RunNext(p, Deviations(p.window, trades), NewestDeviation(p.window, trades + [t]));
  }

  lemma AcceptedNext(ticks: seq<Tick>, tick: Tick, s: Symbol)
    ensures Accepted(ticks + [tick], s)
         == Accepted(ticks, s) + if tick.symbol == s && tick.trade.Acceptable() then [tick.trade] else []
  {
    assert (ticks + [tick])[..|ticks|] == ticks;
  }

  lemma SignalsAre(p: Params, s: Symbol, sides: seq<Side>)
    ensures forall i :: 0 <= i < |Signals(p, s, sides)| ==>
      Signals(p, s, sides)[i] == Signal(p.strategy, s, Signals(p, s, sides)[i].side, p.size)
  {
  }

  lemma SidesNext(signals: seq<Signal>, signal: Signal, s: Symbol)
    ensures SidesOf(signals + [signal], s) == SidesOf(signals, s) + if signal.symbol == s then [signal.side] else []
  {
    assert (signals + [signal])[..|signals|] == signals;
  }

  lemma SignalsNext(p: Params, s: Symbol, sides: seq<Side>, side: Side)
    ensures Signals(p, s, sides + [side]) == Signals(p, s, sides) + [Signal(p.strategy, s, side, p.size)]
  {
  }

  lemma {:induction false} SidesOfSignals(signals: seq<Signal>, p: Params, symbol: Symbol, sides: seq<Side>, s: Symbol)
    ensures SidesOf(signals + Signals(p, symbol, sides), s) == SidesOf(signals, s) + if s == symbol then sides else []
  {
    if sides == [] {
      assert signals + Signals(p, symbol, sides) == signals;
    } else {
      hide SidesOf, Signals;
      var past, side := sides[..|sides| - 1], sides[|sides| - 1];
      SidesOfSignals(signals, p, symbol, past, s);
      assert past + [side] == sides;
      SignalsNext(p, symbol, past, side);
      AppendOne(signals, Signals(p, symbol, past), Signal(p.strategy, symbol, side, p.size));
      SidesNext(signals + Signals(p, symbol, past), Signal(p.strategy, symbol, side, p.size), s);
      AppendOne(SidesOf(signals, s), past, side);
    }
  }

  lemma AppendOne<T>(xs: seq<T>, ys: seq<T>, z: T)
    ensures xs + (ys + [z]) == (xs + ys) + [z]
  {
  }

  // ---------------------------------------------------------------------------------------------
  // Reversals read off the deviations
  // ---------------------------------------------------------------------------------------------

  /** The side a deviation beyond the entry threshold stands for. */
  function Crossing(p: Params, d: real): Option<Side> {
    if d > p.entryPct then Some(Sell) else if d < -p.entryPct then Some(Buy) else None
  }

  /** Neither beyond the entry threshold nor near the average. */
  predicate Quiet(p: Params, d: real) {
    Crossing(p, d) == None && Magnitude(d) >= p.exitPct
  }

  /** The last deviation that is not quiet. */
  predicate LastTelling(p: Params, deviations: seq<real>, i: nat) {
    i < |deviations| && !Quiet(p, deviations[i]) && forall k :: i < k < |deviations| ==> Quiet(p, deviations[k])
  }

  /** Whether the deviations leave a position believed in: a crossing makes one and nearness ends it, and a
      deviation that is both, with an exit threshold beyond the entry threshold, makes one or ends one. */
  predicate Engaged(p: Params, deviations: seq<real>) {
    deviations != [] &&
      var past, d := deviations[..|deviations| - 1], deviations[|deviations| - 1];
      if Quiet(p, d) then Engaged(p, past)
      else Crossing(p, d).Some? && (Magnitude(d) < p.exitPct ==> !Engaged(p, past))
  }

  /** The j-th deviation crosses to one side while a position is believed in on the other: the last deviation
      before it that was not quiet crossed to that other side. */
  ghost predicate Flips(p: Params, deviations: seq<real>, j: nat) {
    && j < |deviations| && Crossing(p, deviations[j]).Some? && Engaged(p, deviations[..j])
    && exists i: nat :: LastTelling(p, deviations[..j], i)
                   && Crossing(p, deviations[i]) == Some(Opposite(Crossing(p, deviations[j]).value))
  }

  /** Flips to the buying side less flips to the selling side; a flip that is near as well counts the other way. */
  ghost function FlipBalance(p: Params, deviations: seq<real>): int {
    if deviations == [] then 0
    else
      var last := |deviations| - 1;
      FlipBalance(p, deviations[..last])
      + if !Flips(p, deviations, last) then 0
        else if Magnitude(deviations[last]) < p.exitPct then -Sign(Crossing(p, deviations[last]).value)
        else Sign(Crossing(p, deviations[last]).value)
  }

  /** With an exit threshold no larger than the entry threshold, a position is believed in exactly if the last
      deviation that was not quiet is a crossing. */
  lemma {:induction false} EngagedByCrossing(p: Params, deviations: seq<real>)
    requires p.exitPct <= p.entryPct && p.entryPct >= 0.0
    ensures Engaged(p, deviations) <==>
      exists i: nat :: LastTelling(p, deviations, i) && Crossing(p, deviations[i]).Some?
  {
    if deviations != [] {
      var last := |deviations| - 1;
      var past := deviations[..last];
      EngagedByCrossing(p, past);
      if Quiet(p, deviations[last]) {
        forall i: nat ensures LastTelling(p, deviations, i) <==> LastTelling(p, past, i) {
          TellingBefore(p, deviations, i);
        }
        if i: nat :| LastTelling(p, past, i) && Crossing(p, past[i]).Some? {
          assert LastTelling(p, deviations, i) && Crossing(p, deviations[i]).Some?;
        }
        if i: nat :| LastTelling(p, deviations, i) && Crossing(p, deviations[i]).Some? {
          assert LastTelling(p, past, i) && Crossing(p, past[i]).Some?;
        }
      } else {
        assert LastTelling(p, deviations, last);
        forall i: nat | LastTelling(p, deviations, i) ensures i == last {
          TellingAtEnd(p, deviations, i);
        }
      }
    }
  }

  /** The side remembered is that of the last deviation that was not quiet. */
  lemma {:induction false} MemoryIsLastTelling(p: Params, deviations: seq<real>)
    requires p.entryPct >= 0.0
    ensures LastAfter(p, deviations).Some? <==> Engaged(p, deviations)
    ensures Engaged(p, deviations) ==>
      && (exists i: nat :: LastTelling(p, deviations, i))
      && forall i: nat :: LastTelling(p, deviations, i) ==> LastAfter(p, deviations) == Crossing(p, deviations[i])
  {
    if deviations != [] {
      var last := |deviations| - 1;
      var past := deviations[..last];
      MemoryIsLastTelling(p, past);
      LastIsASide(p, past);
      if Quiet(p, deviations[last]) {
        forall i: nat ensures LastTelling(p, deviations, i) <==> LastTelling(p, past, i) {
          TellingBefore(p, deviations, i);
        }
      } else {
        assert LastTelling(p, deviations, last);
        forall i: nat | LastTelling(p, deviations, i) ensures i == last {
          TellingAtEnd(p, deviations, i);
        }
      }
    }
  }

  lemma TellingAtEnd(p: Params, deviations: seq<real>, i: nat)
    requires deviations != [] && !Quiet(p, deviations[|deviations| - 1]) && LastTelling(p, deviations, i)
    ensures i == |deviations| - 1
  {
  }

  lemma TellingBefore(p: Params, deviations: seq<real>, i: nat)
    requires deviations != [] && Quiet(p, deviations[|deviations| - 1])
    ensures LastTelling(p, deviations, i) <==> LastTelling(p, deviations[..|deviations| - 1], i)
  {
    var past := deviations[..|deviations| - 1];
    assert forall k :: 0 <= k < |past| ==> past[k] == deviations[k];
  }

  lemma FlipIsReversal(p: Params, deviations: seq<real>)
    requires p.entryPct >= 0.0 && deviations != []
    ensures var last := |deviations| - 1;
      var memory := LastAfter(p, deviations[..last]);
      && (Flips(p, deviations, last) <==> memory.Some? && Entry(p, memory, deviations[last]).Some?)
      && (Flips(p, deviations, last) ==> Entry(p, memory, deviations[last]) == Crossing(p, deviations[last]))
  {
    var last := |deviations| - 1;
    var past := deviations[..last];
    MemoryIsLastTelling(p, past);
    LastIsASide(p, past);
    hide LastTelling, Engaged;
    if LastAfter(p, past).Some? {
      var i: nat :| LastTelling(p, past, i);
      assert past[i] == deviations[i] by { TellingIsInside(p, past, i); }
    }
    forall i: nat | LastTelling(p, past, i) ensures i < |past| && past[i] == deviations[i] {
      TellingIsInside(p, past, i);
    }
  }

  lemma TellingIsInside(p: Params, deviations: seq<real>, i: nat)
    requires LastTelling(p, deviations, i)
    ensures i < |deviations|
  {
  }

  lemma {:induction false} ReversalsAreFlips(p: Params, deviations: seq<real>)
    requires p.entryPct >= 0.0
    ensures Reversals(p, deviations) == FlipBalance(p, deviations)
  {
    if deviations != [] {
      hide Flips, Entry;
      ReversalsAreFlips(p, deviations[..|deviations| - 1]);
      FlipIsReversal(p, deviations);
    }
  }

  /** The signals of a run match the believed position if and only if its deviations flip as often from above to
      below as from below to above. */
  lemma SignalsMatchBeliefIff(p: Params, deviations: seq<real>)
    requires p.entryPct >= 0.0
    ensures Matches(p, deviations) <==> FlipBalance(p, deviations) == 0
  {
    ReversalsAreTheDrift(p, deviations);
    ReversalsAreFlips(p, deviations);
  }

  // ---------------------------------------------------------------------------------------------
  // From trades to deviations
  // ---------------------------------------------------------------------------------------------

  /** How far the newest of the trades lies from the average of its window. */
  ghost function NewestDeviation(window: nat, trades: seq<Trade>): real
    requires window >= 1 && trades != [] && AllAcceptable(trades)
  {
    WindowIsPositive(trades, window);
    Deviation(trades[|trades| - 1].price, VwapOf(Last(trades, window)))
  }

  ghost function Deviations(window: nat, trades: seq<Trade>): (ds: seq<real>)
    requires window >= 1 && AllAcceptable(trades)
    ensures |ds| == |trades|
  {
    if trades == [] then [] else Deviations(window, trades[..|trades| - 1]) + [NewestDeviation(window, trades)]
  }

  lemma DeviationsNext(window: nat, trades: seq<Trade>, t: Trade)
    requires window >= 1 && AllAcceptable(trades) && t.Acceptable()
    ensures AllAcceptable(trades + [t])
    ensures Deviations(window, trades + [t]) == Deviations(window, trades) + [NewestDeviation(window, trades + [t])]
  {
    assert (trades + [t])[..|trades|] == trades;
  }

  /** A positive price is never a whole average or more below the average. */
  lemma {:induction false} DeviationsAboveMinusOne(window: nat, trades: seq<Trade>)
    requires window >= 1 && AllAcceptable(trades)
    ensures forall d :: d in Deviations(window, trades) ==> d > -1.0
  {
    if trades != [] {
      DeviationsAboveMinusOne(window, trades[..|trades| - 1]);
      WindowIsPositive(trades, window);
      assert trades[|trades| - 1].Acceptable();
      QuotientAbove(trades[|trades| - 1].price, VwapOf(Last(trades, window)));
    }
  }

  lemma QuotientAbove(price: real, vwap: real)
    requires price > 0.0 && vwap > 0.0
    ensures Deviation(price, vwap) > -1.0
  {
    ExceedsPart(price - vwap, vwap, -1.0);
  }

  lemma {:induction false} OneSidedMatches(p: Params, deviations: seq<real>)
    requires p.entryPct >= 1.0 && forall d :: d in deviations ==> d > -1.0
    ensures LastAfter(p, deviations) in {None, Some(Sell)} && Reversals(p, deviations) == 0
  {
    if deviations != [] {
      var past := deviations[..|deviations| - 1];
      assert deviations[|deviations| - 1] in deviations && forall d :: d in past ==> d in deviations;
      OneSidedMatches(p, past);
    }
  }

  lemma {:induction false} ZerosMatch(p: Params, deviations: seq<real>)
    requires p.entryPct >= 0.0 && forall d :: d in deviations ==> d == 0.0
    ensures LastAfter(p, deviations) == None && Reversals(p, deviations) == 0
  {
    if deviations != [] {
      var past := deviations[..|deviations| - 1];
      assert deviations[|deviations| - 1] in deviations && forall d :: d in past ==> d in deviations;
      ZerosMatch(p, past);
    }
  }

  lemma LevelDeviation(window: nat, trades: seq<Trade>, price: real)
    requires window >= 1 && trades != [] && AllAcceptable(trades)
    requires forall t :: t in Last(trades, window) ==> t.price == price
    ensures NewestDeviation(window, trades) == 0.0
  {
    var ts := Last(trades, window);
    assert ts[|ts| - 1] == trades[|trades| - 1] && ts[|ts| - 1] in ts;
    VwapBetween(ts, price, price);
  }

  lemma {:induction false} WindowOfOneIsLevel(trades: seq<Trade>)
    requires AllAcceptable(trades)
    ensures forall d :: d in Deviations(1, trades) ==> d == 0.0
  {
    if trades != [] {
      WindowOfOneIsLevel(trades[..|trades| - 1]);
      LevelDeviation(1, trades, trades[|trades| - 1].price);
    }
  }

  /** Two deviations on which every strategy with a threshold below one signals too little or too much. */
  lemma OppositeEntriesDrift(p: Params, start: seq<real>, up: real, down: real)
    requires LastAfter(p, start) == None && Reversals(p, start) == 0
    requires up > p.entryPct && down < -p.entryPct
    ensures !Matches(p, start + [up] + [down])
  {
    var one, two := start + [up], start + [up] + [down];
    assert one[..|start|] == start && two[..|one|] == one;
    assert LastAfter(p, one) == Some(Sell) && Reversals(p, one) == 0;
    assert Reversals(p, two) != 0;
    ReversalsAreTheDrift(p, two);
  }

  lemma AverageOfTwo(a: Trade, b: Trade)
    requires a.volume == 1 && b.volume == 1
    ensures TotalVolume([a, b]) == 2 && TotalValue([a, b]) == a.price + b.price
  {
    assert [a, b] == [a] + [b];
    TotalsConcat([a], [b]);
    TotalsOfOne(a);
    TotalsOfOne(b);
  }

  lemma AverageOfThree(a: Trade, b: Trade, c: Trade)
    requires a.volume == 1 && b.volume == 1 && c.volume == 1
    ensures TotalVolume([a, b, c]) == 3 && TotalValue([a, b, c]) == a.price + b.price + c.price
  {
    assert [a, b, c] == [a, b] + [c];
    TotalsConcat([a, b], [c]);
    AverageOfTwo(a, b);
    TotalsOfOne(c);
  }

  /** The deviations of three trades of one share each. */
  lemma DeviationsOfThree(window: nat, x: real, y: real, z: real)
    requires window >= 2 && x > 0.0 && y > 0.0 && z > 0.0
    ensures var trades := [Trade(x, 1), Trade(y, 1), Trade(z, 1)];
      && AllAcceptable(trades)
      && Deviations(window, trades) == [0.0] + [Deviation(y, (x + y) / 2.0)]
           + [Deviation(z, if window == 2 then (y + z) / 2.0 else (x + y + z) / 3.0)]
  {
    var a, b, c := Trade(x, 1), Trade(y, 1), Trade(z, 1);
    hide TotalValue, TotalVolume;
    assert [] + [a] == [a] && [a] + [b] == [a, b] && [a, b] + [c] == [a, b, c];
    DeviationsNext(window, [], a);
    DeviationsNext(window, [a], b);
    DeviationsNext(window, [a, b], c);
    LevelDeviation(window, [a], x);
    AverageOfTwo(a, b);
    AverageOfTwo(b, c);
    AverageOfThree(a, b, c);
    assert Last([a, b, c], window) == if window == 2 then [b, c] else [a, b, c];
  }

  /** Up to four times the distance to one, and back: both deviations lie beyond the threshold. */
  lemma SpikeCrosses(e: real, y: real, vwap: real)
    requires 0.0 <= e < 1.0 && y == 4.0 / (1.0 - e) && (vwap == (y + 1.0) / 2.0 || vwap == (1.0 + y + 1.0) / 3.0)
    ensures y > 0.0 && Deviation(y, (1.0 + y) / 2.0) > e && vwap != 0.0 && Deviation(1.0, vwap) < -e
  {
    assert y * (1.0 - e) == 4.0;
    if y <= 0.0 { ProductSign(-y, 1.0 - e); }
    ExceedsPart(y - (1.0 + y) / 2.0, (1.0 + y) / 2.0, e);
    ExceedsPart(vwap - 1.0, vwap, e);
    assert (1.0 - vwap) / vwap == -((vwap - 1.0) / vwap);
  }

  lemma ExceedsPart(x: real, v: real, e: real)
    requires v > 0.0 && x > e * v
    ensures x / v > e
  {
    assert x / v * v == x;
  }

  /** For all thresholds and windows: the signals match the believed position on every history of trades if and
      only if no reversal can ever occur: because prices are never a whole average below the average, or because
      the window is the newest trade alone. */
  lemma SignalsAlwaysMatchIff(p: Params)
    requires p.window >= 1
    ensures (forall trades :: AllAcceptable(trades) ==> Matches(p, Deviations(p.window, trades)))
       <==> p.entryPct >= 1.0 || (p.entryPct >= 0.0 && p.window == 1)
  {
    if p.entryPct >= 1.0 || (p.entryPct >= 0.0 && p.window == 1) {
      forall trades | AllAcceptable(trades) ensures Matches(p, Deviations(p.window, trades)) {
        ReversalsAreTheDrift(p, Deviations(p.window, trades));
        if p.entryPct >= 1.0 {
          DeviationsAboveMinusOne(p.window, trades);
          OneSidedMatches(p, Deviations(p.window, trades));
        } else {
          WindowOfOneIsLevel(trades);
          ZerosMatch(p, Deviations(p.window, trades));
        }
      }
    } else if p.entryPct < 0.0 {
      LevelDrifts(p);
    } else {
      SpikeDrifts(p);
    }
  }

  lemma SpikeDrifts(p: Params)
    requires p.window >= 2 && 0.0 <= p.entryPct < 1.0
    ensures exists trades :: AllAcceptable(trades) && !Matches(p, Deviations(p.window, trades))
  {
    var y := 4.0 / (1.0 - p.entryPct);
    var vwap := if p.window == 2 then (y + 1.0) / 2.0 else (1.0 + y + 1.0) / 3.0;
    SpikeCrosses(p.entryPct, y, vwap);
    DeviationsOfThree(p.window, 1.0, y, 1.0);
    ZerosMatch(p, [0.0]);
    OppositeEntriesDrift(p, [0.0], Deviation(y, (1.0 + y) / 2.0), Deviation(1.0, vwap));
    assert !Matches(p, Deviations(p.window, [Trade(1.0, 1), Trade(y, 1), Trade(1.0, 1)]));
  }

  lemma LevelDrifts(p: Params)
    requires p.window >= 1 && p.entryPct < 0.0
    ensures exists trades :: AllAcceptable(trades) && !Matches(p, Deviations(p.window, trades))
  {
    var t := Trade(1.0, 1);
    assert [] + [t] == [t] && [t] + [t] == [t, t];
    DeviationsNext(p.window, [], t);
    DeviationsNext(p.window, [t], t);
    LevelDeviation(p.window, [t], 1.0);
    LevelDeviation(p.window, [t, t], 1.0);
    OppositeEntriesDrift(p, [], 0.0, 0.0);
    assert [] + [0.0] == [0.0];
    assert !Matches(p, Deviations(p.window, [t, t]));
  }

  /** Trades at 100, 110 and 90 in a window of two: a sale, then a purchase. The strategy believes to hold one
      unit and holds none. */
  lemma ReversalLeavesNothing(strategy: string, size: int)
    ensures var p := Params(strategy, 2, 0.01, 0.002, size);
      var trades := [Trade(100.0, 1), Trade(110.0, 1), Trade(90.0, 1)];
      && AllAcceptable(trades)
      && AllSides(p, Deviations(2, trades)) == [Sell, Buy] && Net([Sell, Buy]) == 0
      && LastAfter(p, Deviations(2, trades)) == Some(Buy)
  {
    var p := Params(strategy, 2, 0.01, 0.002, size);
    DeviationsOfThree(2, 100.0, 110.0, 90.0);
    var up, down := Deviation(110.0, 105.0), Deviation(90.0, 100.0);
    assert up > 0.01 && down < -0.01;
    SaleThenPurchase(p, up, down);
    NetConcat([Sell], [Buy]);
    assert [Sell] + [Buy] == [Sell, Buy];
    NetOfOne(Sell);
    NetOfOne(Buy);
  }

  lemma SaleThenPurchase(p: Params, up: real, down: real)
    requires p.entryPct == 0.01 && p.exitPct == 0.002 && up > 0.01 && down < -0.01
    ensures AllSides(p, [0.0] + [up] + [down]) == [Sell, Buy] && LastAfter(p, [0.0] + [up] + [down]) == Some(Buy)
  {
    assert [] + [0.0] == [0.0];
    RunNext(p, [], 0.0);
    RunNext(p, [0.0], up);
    RunNext(p, [0.0] + [up], down);
  }
}
