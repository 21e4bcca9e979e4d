/** The throttle over whole runs: when execution asked for which orders, and how far apart. */
module Throttling {
  import opened Basics
  import opened Execution
  import opened Pipeline
  import Broker
  import BrokerLaws
  import PipelineLaws
  import Risk

  /** A signal that led to an order request, with the clock readings taken on its way, and the request. */
  datatype Asked = Asked(emission: Emission, request: Broker.Request) {

    function Symbol(): Symbol {
      emission.signal.symbol
    }
  }

  /** The requests the signals of the list led to. */
  ghost function RequestedBy(cfg: Config, sys: System, es: seq<Emission>): seq<Asked> {
    if es == [] then []
    else
      var past, last := es[..|es| - 1], es[|es| - 1];
      var request := RequestOf(cfg, OnSignals(cfg, sys, past), last);
      RequestedBy(cfg, sys, past) + if request.Some? then [Asked(last, request.value)] else []
  }

  /** All requests of a run, in order. */
  ghost function Requests(cfg: Config, inputs: seq<Pipeline.Input>): seq<Asked> {
    if inputs == [] then []
    else
      var past, last := inputs[..|inputs| - 1], inputs[|inputs| - 1];
      Requests(cfg, past) + RequestedBy(cfg, Arrive(cfg, Pipeline.Run(cfg, past), last), Emissions(last))
  }

  /** When a symbol was last asked for. */
  function LastAsked(log: seq<Asked>, s: Symbol): Option<real> {
    if log == [] then None
    else if log[|log| - 1].Symbol() == s then Some(log[|log| - 1].emission.later)
    else LastAsked(log[..|log| - 1], s)
  }

  /** A request comes no sooner than the delay after the last one for its symbol. */
  predicate SpacedAfter(delay: real, past: seq<Asked>, asked: Asked) {
    var last := LastAsked(past, asked.Symbol());
    last.Some? ==> asked.emission.now >= last.value + delay
  }

  predicate Spaced(delay: real, log: seq<Asked>) {
    forall j :: 0 <= j < |log| ==> SpacedAfter(delay, log[..j], log[j])
  }

  /** Execution's table of order times is read off the log of requests. */
  ghost predicate Remembers(sys: System, log: seq<Asked>) {
    forall s :: LastAsked(log, s)
             == if s in sys.exec.lastOrderTime then Some(sys.exec.lastOrderTime[s]) else None
  }

  // ---------------------------------------------------------------------------------------------
  // Nothing but a request touches the table
  // ---------------------------------------------------------------------------------------------

  lemma PriceKeepsTimes(cfg: Config, sys: System, symbol: Symbol, price: real)
    ensures BrokerStep(cfg, sys, BrokerLaws.Priced(symbol, price)).exec.lastOrderTime == sys.exec.lastOrderTime
  {
    var input := BrokerLaws.Priced(symbol, price);
    PipelineLaws.DeliverKeepsRest(sys.(broker := BrokerLaws.Step(cfg.terms, sys.broker, input)),
                                  BrokerLaws.StepEvents(cfg.terms, sys.broker, input));
  }

  lemma ArriveRemembers(cfg: Config, sys: System, input: Pipeline.Input, log: seq<Asked>)
    requires Remembers(sys, log)
    ensures Remembers(Arrive(cfg, sys, input), log)
  {
    hide BrokerStep, LastAsked;
    match input {
      case Bar(symbol, close, _) => PriceKeepsTimes(cfg, sys, symbol, close);
      case Tick(symbol, price, bid, ask, time, _) =>
        PriceKeepsTimes(cfg, Seen(sys, symbol, price, time), symbol, price);
      case Disconnect =>
      case KillSwitch(_) =>
    }
  }

  lemma LastAskedNext(log: seq<Asked>, asked: Asked, s: Symbol)
    ensures LastAsked(log + [asked], s) == if asked.Symbol() == s then Some(asked.emission.later) else LastAsked(log, s)
  {
    assert (log + [asked])[..|log|] == log;
  }

  lemma RequestRemembers(cfg: Config, sys: System, e: Emission, log: seq<Asked>)
    requires Remembers(sys, log) && RequestOf(cfg, sys, e).Some?
    ensures var asked := Asked(e, RequestOf(cfg, sys, e).value);
      && Remembers(OnSignal(cfg, sys, e), log + [asked])
      && (cfg.settings.throttleDelay > 0.0 ==> SpacedAfter(cfg.settings.throttleDelay, log, asked))
  {
    hide LastAsked, Exec.SizeOf, Deliver, Risk.Approves;
    var asked := Asked(e, RequestOf(cfg, sys, e).value);
    var input := BrokerLaws.Requested(asked.request);
    PipelineLaws.DeliverKeepsRest(sys.(broker := BrokerLaws.Step(cfg.terms, sys.broker, input)),
                                  BrokerLaws.StepEvents(cfg.terms, sys.broker, input));
    forall s ensures LastAsked(log + [asked], s) == if e.signal.symbol == s then Some(e.later) else LastAsked(log, s) {
      LastAskedNext(log, asked, s);
    }
  }

  lemma SpacedNext(delay: real, log: seq<Asked>, e: Asked)
    requires Spaced(delay, log) && SpacedAfter(delay, log, e)
    ensures Spaced(delay, log + [e])
  {
    var more := log + [e];
    forall j | 0 <= j < |more| ensures SpacedAfter(delay, more[..j], more[j]) {
      assert more[..j] == log[..j];
      if j < |log| {
        assert more[j] == log[j];
      } else {
        assert log[..j] == log;
      }
    }
  }

  lemma {:induction false} SignalsRemember(cfg: Config, sys: System, es: seq<Emission>, log: seq<Asked>)
    requires Remembers(sys, log)
    requires cfg.settings.throttleDelay > 0.0 ==> Spaced(cfg.settings.throttleDelay, log)
    ensures var more := log + RequestedBy(cfg, sys, es);
      && Remembers(OnSignals(cfg, sys, es), more)
      && (cfg.settings.throttleDelay > 0.0 ==> Spaced(cfg.settings.throttleDelay, more))
  {
    if es == [] {
      assert log + [] == log;
    } else {
      hide OnSignal, RequestOf, Remembers, Spaced, SpacedAfter;
      var past, last := es[..|es| - 1], es[|es| - 1];
      SignalsRemember(cfg, sys, past, log);
      var mid, soFar := OnSignals(cfg, sys, past), log + RequestedBy(cfg, sys, past);
      if RequestOf(cfg, mid, last).Some? {
        var asked := Asked(last, RequestOf(cfg, mid, last).value);
        RequestRemembers(cfg, mid, last, soFar);
        if cfg.settings.throttleDelay > 0.0 {
          SpacedNext(cfg.settings.throttleDelay, soFar, asked);
        }
        assert log + RequestedBy(cfg, sys, es) == soFar + [asked];
      } else {
        assert OnSignals(cfg, sys, es) == mid by { NoRequestNoChange(cfg, mid, last); }
        assert log + RequestedBy(cfg, sys, es) == soFar;
      }
    }
  }

  lemma NoRequestNoChange(cfg: Config, sys: System, e: Emission)
    requires RequestOf(cfg, sys, e).None?
    ensures OnSignal(cfg, sys, e) == sys
  {
  }

  lemma {:induction false} RunRemembers(cfg: Config, inputs: seq<Pipeline.Input>)
    ensures Remembers(Pipeline.Run(cfg, inputs), Requests(cfg, inputs))
    ensures cfg.settings.throttleDelay > 0.0 ==> Spaced(cfg.settings.throttleDelay, Requests(cfg, inputs))
  {
    if inputs != [] {
      hide Arrive, OnSignals, RequestedBy, Remembers, Spaced;
      var past, last := inputs[..|inputs| - 1], inputs[|inputs| - 1];
      RunRemembers(cfg, past);
      ArriveRemembers(cfg, Pipeline.Run(cfg, past), last, Requests(cfg, past));
      SignalsRemember(cfg, Arrive(cfg, Pipeline.Run(cfg, past), last), Emissions(last), Requests(cfg, past));
    }
  }

  // ---------------------------------------------------------------------------------------------
  // What reaches the broker
  // ---------------------------------------------------------------------------------------------

  /** The price an input brings to the broker. */
  function PriceIn(input: Pipeline.Input): seq<BrokerLaws.Input> {
    match input
    case Bar(symbol, close, _) => [BrokerLaws.Priced(symbol, close)]
    case Tick(symbol, price, _, _, _, _) => if price != 0.0 then [BrokerLaws.Priced(symbol, price)] else []
    case _ => []
  }

  function AsInputs(log: seq<Asked>): seq<BrokerLaws.Input> {
    seq(|log|, i requires 0 <= i < |log| => BrokerLaws.Requested(log[i].request))
  }

  /** What the broker gets to see of a run: prices, and between them the logged requests. */
  ghost function BrokerInputs(cfg: Config, inputs: seq<Pipeline.Input>): seq<BrokerLaws.Input> {
    if inputs == [] then []
    else
      var past, last := inputs[..|inputs| - 1], inputs[|inputs| - 1];
      BrokerInputs(cfg, past) + PriceIn(last)
      + AsInputs(RequestedBy(cfg, Arrive(cfg, Pipeline.Run(cfg, past), last), Emissions(last)))
  }

  lemma BrokerNext(terms: Broker.Terms, past: seq<BrokerLaws.Input>, input: BrokerLaws.Input)
    ensures BrokerLaws.RunBroker(terms, 0, past + [input])
         == BrokerLaws.Step(terms, BrokerLaws.RunBroker(terms, 0, past), input)
  {
    assert (past + [input])[..|past|] == past;
  }

  lemma StepReachesBroker(cfg: Config, sys: System, input: BrokerLaws.Input)
    ensures BrokerStep(cfg, sys, input).broker == BrokerLaws.Step(cfg.terms, sys.broker, input)
  {
    PipelineLaws.DeliverKeepsRest(sys.(broker := BrokerLaws.Step(cfg.terms, sys.broker, input)),
                                  BrokerLaws.StepEvents(cfg.terms, sys.broker, input));
  }

  lemma ArriveReachesBroker(cfg: Config, sys: System, input: Pipeline.Input, past: seq<BrokerLaws.Input>)
    requires sys.broker == BrokerLaws.RunBroker(cfg.terms, 0, past)
    ensures Arrive(cfg, sys, input).broker == BrokerLaws.RunBroker(cfg.terms, 0, past + PriceIn(input))
  {
    hide BrokerStep, BrokerLaws.Step, BrokerLaws.RunBroker;
    assert past + [] == past;
    match input {
      case Bar(symbol, close, _) =>
        StepReachesBroker(cfg, sys, BrokerLaws.Priced(symbol, close));
        BrokerNext(cfg.terms, past, BrokerLaws.Priced(symbol, close));
      case Tick(symbol, price, bid, ask, time, _) =>
        StepReachesBroker(cfg, Seen(sys, symbol, price, time), BrokerLaws.Priced(symbol, price));
        BrokerNext(cfg.terms, past, BrokerLaws.Priced(symbol, price));
      case Disconnect =>
      case KillSwitch(_) =>
    }
  }

  lemma {:induction false} SignalsReachBroker(cfg: Config, sys: System, es: seq<Emission>, past: seq<BrokerLaws.Input>)
    requires sys.broker == BrokerLaws.RunBroker(cfg.terms, 0, past)
    ensures OnSignals(cfg, sys, es).broker
         == BrokerLaws.RunBroker(cfg.terms, 0, past + AsInputs(RequestedBy(cfg, sys, es)))
  {
    hide BrokerStep, BrokerLaws.Step, BrokerLaws.RunBroker, RequestOf, AsInputs;
    if es == [] {
      AsInputsNone();
      assert past + [] == past;
    } else {
      var before, last := es[..|es| - 1], es[|es| - 1];
      SignalsReachBroker(cfg, sys, before, past);
      var mid, log := OnSignals(cfg, sys, before), RequestedBy(cfg, sys, before);
      match RequestOf(cfg, mid, last) {
        case None =>
          assert RequestedBy(cfg, sys, es) == log;
        case Some(request) =>
          StepReachesBroker(cfg, mid, BrokerLaws.Requested(request));
          BrokerNext(cfg.terms, past + AsInputs(log), BrokerLaws.Requested(request));
          AsInputsNext(past, log, Asked(last, request));
      }
    }
  }

  lemma AsInputsNone()
    ensures AsInputs([]) == []
  {
  }

  lemma AsInputsNext(past: seq<BrokerLaws.Input>, log: seq<Asked>, asked: Asked)
    ensures past + AsInputs(log + [asked]) == (past + AsInputs(log)) + [BrokerLaws.Requested(asked.request)]
  {
  }

  /** The broker of the wired engine goes through a run of its own on the prices and the logged requests, so that
      all its laws hold there. */
  lemma {:induction false} BrokerRuns(cfg: Config, inputs: seq<Pipeline.Input>)
    ensures Pipeline.Run(cfg, inputs).broker == BrokerLaws.RunBroker(cfg.terms, 0, BrokerInputs(cfg, inputs))
  {
    if inputs != [] {
      hide Arrive, OnSignals, RequestedBy, BrokerLaws.RunBroker;
      var past, last := inputs[..|inputs| - 1], inputs[|inputs| - 1];
      var sys := Pipeline.Run(cfg, past);
      BrokerRuns(cfg, past);
      ArriveReachesBroker(cfg, sys, last, BrokerInputs(cfg, past));
      SignalsReachBroker(cfg, Arrive(cfg, sys, last), Emissions(last), BrokerInputs(cfg, past) + PriceIn(last));
    }
  }

  /** The requests among the broker's inputs, in order. */
  function RequestsIn(inputs: seq<BrokerLaws.Input>): seq<Broker.Request> {
    if inputs == [] then []
    else
      var last := inputs[|inputs| - 1];
      RequestsIn(inputs[..|inputs| - 1]) + if last.Requested? then [last.request] else []
  }

  lemma {:induction false} RequestsInConcat(xs: seq<BrokerLaws.Input>, ys: seq<BrokerLaws.Input>)
    ensures RequestsIn(xs + ys) == RequestsIn(xs) + RequestsIn(ys)
  {
    if ys == [] {
      assert xs + ys == xs;
    } else {
      RequestsInConcat(xs, ys[..|ys| - 1]);
      assert (xs + ys)[..|xs + ys| - 1] == xs + ys[..|ys| - 1];
    }
  }

  function RequestsOf(log: seq<Asked>): seq<Broker.Request> {
    seq(|log|, i requires 0 <= i < |log| => log[i].request)
  }

  lemma {:induction false} AsInputsRequests(log: seq<Asked>)
    ensures RequestsIn(AsInputs(log)) == RequestsOf(log)
  {
    if log != [] {
      var past := log[..|log| - 1];
      AsInputsRequests(past);
      assert AsInputs(log)[..|log| - 1] == AsInputs(past);
      assert RequestsOf(log) == RequestsOf(past) + [log[|log| - 1].request];
    }
  }

  /** Among them are exactly the logged ones. */
  lemma {:induction false} BrokerGetsTheRequests(cfg: Config, inputs: seq<Pipeline.Input>)
    ensures RequestsIn(BrokerInputs(cfg, inputs)) == RequestsOf(Requests(cfg, inputs))
  {
    hide Arrive, RequestedBy, RequestsIn, AsInputs, RequestsOf, PriceIn;
    if inputs == [] {
      NothingAsked();
    } else {
      var past, last := inputs[..|inputs| - 1], inputs[|inputs| - 1];
      var more := RequestedBy(cfg, Arrive(cfg, Pipeline.Run(cfg, past), last), Emissions(last));
      BrokerGetsTheRequests(cfg, past);
      RequestsInConcat(BrokerInputs(cfg, past) + PriceIn(last), AsInputs(more));
      RequestsInConcat(BrokerInputs(cfg, past), PriceIn(last));
      PricesAskNothing(last);
      AsInputsRequests(more);
      RequestsOfConcat(Requests(cfg, past), more);
    }
  }

  lemma NothingAsked()
    ensures RequestsIn([]) == [] && RequestsOf([]) == []
  {
  }

  lemma RequestsOfConcat(xs: seq<Asked>, ys: seq<Asked>)
    ensures RequestsOf(xs + ys) == RequestsOf(xs) + RequestsOf(ys)
    ensures RequestsOf(xs) + [] == RequestsOf(xs)
  {
  }

  lemma PricesAskNothing(input: Pipeline.Input)
    ensures RequestsIn(PriceIn(input)) == []
  {
    assert forall x: BrokerLaws.Input :: [x][..0] == [];
  }

  /** Each request is its signal's: the same symbol and side, for some shares, of the configured type and without a
      limit price; and where sizing is fixed, for the shares suggested. */
  predicate Answers(cfg: Config, asked: Asked) {
    var request, signal := asked.request, asked.emission.signal;
    && request.symbol == signal.symbol && request.side == signal.side && request.quantity > 0
    && request.orderType == cfg.settings.orderType && request.limitPrice == None
    && (cfg.settings.sizing.how.Fixed? ==> request.quantity == signal.size)
  }

  lemma {:induction false} SignalsAnswered(cfg: Config, sys: System, es: seq<Emission>)
    ensures forall asked :: asked in RequestedBy(cfg, sys, es) ==> Answers(cfg, asked)
  {
    if es != [] {
      hide OnSignals, Exec.Throttles;
      SignalsAnswered(cfg, sys, es[..|es| - 1]);
    }
  }

  lemma {:induction false} RequestsAnswer(cfg: Config, inputs: seq<Pipeline.Input>)
    ensures forall asked :: asked in Requests(cfg, inputs) ==> Answers(cfg, asked)
  {
    if inputs != [] {
      hide Arrive, RequestedBy, Answers;
      var past, last := inputs[..|inputs| - 1], inputs[|inputs| - 1];
      RequestsAnswer(cfg, past);
      SignalsAnswered(cfg, Arrive(cfg, Pipeline.Run(cfg, past), last), Emissions(last));
    }
  }

  // ---------------------------------------------------------------------------------------------
  // The law
  // ---------------------------------------------------------------------------------------------

  predicate SameSymbol(log: seq<Asked>, i: nat, j: nat)
    requires i < |log| && j < |log|
  {
    log[i].Symbol() == log[j].Symbol()
  }

  /** Between i and j the symbol of j was not asked for. */
  predicate Consecutive(log: seq<Asked>, i: nat, j: nat)
    requires i < j < |log|
  {
    SameSymbol(log, i, j) && forall k :: i < k < j ==> !SameSymbol(log, k, j)
  }

  lemma {:induction false} LastAskedIs(log: seq<Asked>, s: Symbol, i: nat)
    requires i < |log| && log[i].Symbol() == s
    requires forall k :: i < k < |log| ==> log[k].Symbol() != s
    ensures LastAsked(log, s) == Some(log[i].emission.later)
  {
    if i < |log| - 1 {
      assert log[|log| - 1].Symbol() != s;
      LastAskedIs(log[..|log| - 1], s, i);
    }
  }

  /** The latest request for the symbol of j before j. */
  lemma LatestBefore(log: seq<Asked>, i: nat, j: nat) returns (k: nat)
    requires i < j < |log| && SameSymbol(log, i, j)
    ensures i <= k < j && Consecutive(log, k, j)
  {
    k := j - 1;
    while !SameSymbol(log, k, j)
      decreases k
      invariant i <= k < j && forall m :: k < m < j ==> !SameSymbol(log, m, j)
    {
      k := k - 1;
    }
  }

  predicate ConsecutiveApart(delay: real, log: seq<Asked>) {
    forall i, j :: 0 <= i < j < |log| && Consecutive(log, i, j) ==> log[j].emission.now >= log[i].emission.later + delay
  }

  /** In every run the broker receives exactly the logged requests, in order; and with a throttle delay any two for
      one symbol with none between are at least that delay apart: from the moment the first had been published to
      the moment the second was let through. */
  lemma RequestsAreSpaced(cfg: Config, inputs: seq<Pipeline.Input>)
    ensures var received := BrokerInputs(cfg, inputs);
      && Pipeline.Run(cfg, inputs).broker == BrokerLaws.RunBroker(cfg.terms, 0, received)
      && RequestsIn(received) == RequestsOf(Requests(cfg, inputs))
    ensures forall asked :: asked in Requests(cfg, inputs) ==> Answers(cfg, asked)
    ensures var log, delay := Requests(cfg, inputs), cfg.settings.throttleDelay;
      delay > 0.0 ==> ConsecutiveApart(delay, log)
  {
    RunRemembers(cfg, inputs);
    BrokerRuns(cfg, inputs);
    RequestsAnswer(cfg, inputs);
    BrokerGetsTheRequests(cfg, inputs);
    var log, delay := Requests(cfg, inputs), cfg.settings.throttleDelay;
    if delay > 0.0 {
      hide Requests, Pipeline.Run;
      forall i, j | 0 <= i < j < |log| && Consecutive(log, i, j)
        ensures log[j].emission.now >= log[i].emission.later + delay
      {
        assert SpacedAfter(delay, log[..j], log[j]);
        forall k | i < k < j ensures log[..j][k].Symbol() != log[j].Symbol() {
          assert !SameSymbol(log, k, j);
        }
        LastAskedIs(log[..j], log[j].Symbol(), i);
      }
    }
  }

  lemma {:induction false} AllApart(delay: real, log: seq<Asked>, i: nat, j: nat)
    requires delay > 0.0 && ConsecutiveApart(delay, log)
    requires forall asked :: asked in log ==> asked.emission.now <= asked.emission.later
    requires i < j < |log| && SameSymbol(log, i, j)
    ensures log[j].emission.now >= log[i].emission.later + delay
    decreases j
  {
    var k := LatestBefore(log, i, j);
    if i < k {
      AllApart(delay, log, i, k);
      assert log[k] in log;
    }
  }

  /** With a clock that never runs backwards, so that no request is published before it was let through, that
      holds of any two requests for a symbol. */
  lemma AllRequestsAreSpaced(cfg: Config, inputs: seq<Pipeline.Input>)
    requires cfg.settings.throttleDelay > 0.0
    requires forall asked :: asked in Requests(cfg, inputs) ==> asked.emission.now <= asked.emission.later
    ensures var log := Requests(cfg, inputs);
      forall i, j :: 0 <= i < j < |log| && SameSymbol(log, i, j) ==>
        log[j].emission.now >= log[i].emission.later + cfg.settings.throttleDelay
  {
    RequestsAreSpaced(cfg, inputs);
    hide Requests, ConsecutiveApart;
    var log := Requests(cfg, inputs);
    forall i, j | 0 <= i < j < |log| && SameSymbol(log, i, j)
      ensures log[j].emission.now >= log[i].emission.later + cfg.settings.throttleDelay
    {
      AllApart(cfg.settings.throttleDelay, log, i, j);
    }
  }
}
