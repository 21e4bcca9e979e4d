/** Draining: what a producer that waits for both lanes to be done may conclude. */
module Drain {
  import opened Basics
  import opened EventBus
  import opened Queueing
  import opened Scheduling
  import opened Sequences

  /** A drain in progress remembers which of the two lanes has been seen with nothing unfinished. */
  datatype Draining = Draining(queues: Queues, highJoined: bool, normalJoined: bool) {

    predicate Returned() {
      highJoined && normalJoined
    }
  }

  function Begin(q: Queues): Draining {
    Draining(q, q.Unfinished(HighLane) == 0, q.Unfinished(NormalLane) == 0)
  }

  function In(lane: Lane): Event -> bool {
    (e: Event) => LaneOf(e) == lane
  }

  function Part(lane: Lane, es: seq<Event>): seq<Event> {
    Filter(In(lane), es)
  }

  /** One step of the processing loop: take an event, high lane first; or publish the next event of the handlers
      running; or, when they have published everything, finish the event in flight. A lane left with nothing
      unfinished is joined. Handlers may suspend anywhere, so a drain may begin and go on between any two steps. */
  function Step(w: Wiring, d: Draining): Draining {
    var q := d.queues;
    match q.inFlight
    case Some(e) =>
      if q.rest != [] then d.(queues := q.(rest := q.rest[1..]).With(q.rest[0]))
      else
        var next := q.(inFlight := None);
        var lane := LaneOf(e);
        Draining(next, d.highJoined || (lane == HighLane && next.Unfinished(HighLane) == 0),
                 d.normalJoined || (lane == NormalLane && next.Unfinished(NormalLane) == 0))
    case None =>
      if q.high != [] || q.normal != [] then
        var taking := q.Taking();
        d.(queues := taking.(rest := Emissions(w, taking.inFlight.value)))
      else d
  }

  function Steps(w: Wiring, d: Draining, n: nat): Draining {
    if n == 0 then d else Step(w, Steps(w, d, n - 1))
  }

  /** Moments of the processing loop: what the handlers of the event in flight have published is still waiting,
      since nothing else is taken meanwhile; whatever else waits has come from anywhere. */
  ghost predicate Moment(w: Wiring, q: Queues) {
    && q.InLanes()
    && (q.inFlight.Some? ==> exists done :: Underway(w, q, done))
  }

  ghost predicate Underway(w: Wiring, q: Queues, done: seq<Event>)
    requires q.inFlight.Some?
  {
    Emissions(w, q.inFlight.value) == done + q.rest && forall x :: x in done ==> x in q.high || x in q.normal
  }

  /** From any moment, in the middle of a dispatch too, whenever a drain started then returns, everything has been
      dispatched. */
  ghost predicate DrainIsSound(w: Wiring) {
    forall q: Queues, n: nat :: Moment(w, q) && Steps(w, Begin(q), n).Returned() ==> Steps(w, Begin(q), n).queues.Idle()
  }

  /** What handlers may publish: those of a high event nothing normal, and those of a normal event something
      high only together with something normal. */
  ghost predicate MixesSafely(w: Wiring) {
    && (forall e, x :: LaneOf(e) == HighLane && x in Emissions(w, e) ==> LaneOf(x) == HighLane)
    && (forall e, x :: LaneOf(e) == NormalLane && x in Emissions(w, e) && LaneOf(x) == HighLane ==>
          Part(NormalLane, Emissions(w, e)) != [])
  }

  // ---------------------------------------------------------------------------------------------
  // Safe mixing makes draining sound
  // ---------------------------------------------------------------------------------------------

  /** A lane is joined only while or after it had nothing unfinished. While a normal event is in flight, high
      events wait behind a joined high lane only beside normal ones; a joined normal lane stays empty. */
  ghost predicate Consistent(w: Wiring, d: Draining) {
    var q := d.queues;
    && Moment(w, q)
    && (!d.highJoined ==> q.Unfinished(HighLane) > 0) && (!d.normalJoined ==> q.Unfinished(NormalLane) > 0)
    && (d.normalJoined ==> q.Unfinished(NormalLane) == 0)
    && (d.highJoined && q.inFlight.Some? && LaneOf(q.inFlight.value) == NormalLane && q.high != [] ==>
          q.normal != [] || Part(NormalLane, q.rest) != [])
    && (d.highJoined && d.normalJoined ==> q.Idle())
  }

  lemma PublishingKeepsMoment(w: Wiring, q: Queues)
    requires Moment(w, q) && q.inFlight.Some? && q.rest != []
    ensures Moment(w, q.(rest := q.rest[1..]).With(q.rest[0]))
  {
    var done :| Underway(w, q, done);
    var next := q.(rest := q.rest[1..]).With(q.rest[0]);
    assert done + q.rest == (done + [q.rest[0]]) + next.rest;
    assert Underway(w, next, done + [q.rest[0]]);
  }

  lemma TakingKeepsMoment(w: Wiring, q: Queues)
    requires Moment(w, q) && q.inFlight.None? && (q.high != [] || q.normal != [])
    ensures var taking := q.Taking(); Moment(w, taking.(rest := Emissions(w, taking.inFlight.value)))
  {
    var taking := q.Taking();
    var next := taking.(rest := Emissions(w, taking.inFlight.value));
    assert [] + next.rest == next.rest;
    assert Underway(w, next, []);
  }

  /** A normal event that publishes something high does so beside something normal, published before or after. */
  lemma BesideNormal(w: Wiring, q: Queues)
    requires MixesSafely(w) && Moment(w, q) && q.inFlight.Some? && q.rest != []
    requires LaneOf(q.inFlight.value) == NormalLane && LaneOf(q.rest[0]) == HighLane
    ensures q.normal != [] || Part(NormalLane, q.rest[1..]) != []
  {
    var e := q.inFlight.value;
    var done :| Underway(w, q, done);
    assert q.rest[0] in Emissions(w, e);
    FilterMembers(In(NormalLane), Emissions(w, e));
    var x := Part(NormalLane, Emissions(w, e))[0];
    assert x in Part(NormalLane, Emissions(w, e));
    if x !in done {
      assert x in q.rest && x != q.rest[0];
      FilterMembers(In(NormalLane), q.rest[1..]);
    }
  }

  lemma PublishStaysConsistent(w: Wiring, d: Draining)
    requires MixesSafely(w) && Consistent(w, d) && d.queues.inFlight.Some? && d.queues.rest != []
    ensures Consistent(w, Step(w, d))
  {
    var q := d.queues;
    PublishingKeepsMoment(w, q);
    var done :| Underway(w, q, done);
    assert q.rest[0] in Emissions(w, q.inFlight.value);
    if LaneOf(q.inFlight.value) == NormalLane && LaneOf(q.rest[0]) == HighLane {
      BesideNormal(w, q);
    }
    hide Moment;
  }

  lemma StepStaysConsistent(w: Wiring, d: Draining)
    requires MixesSafely(w) && Consistent(w, d)
    ensures Consistent(w, Step(w, d))
  {
    var q := d.queues;
    if q.inFlight.Some? && q.rest != [] {
      PublishStaysConsistent(w, d);
    } else if q.inFlight.None? && (q.high != [] || q.normal != []) {
      TakingKeepsMoment(w, q);
      hide Moment;
    }
  }

  lemma {:induction false} StepsStayConsistent(w: Wiring, q: Queues, n: nat)
    requires MixesSafely(w) && Moment(w, q)
    ensures Consistent(w, Steps(w, Begin(q), n))
  {
    if n > 0 {
      hide Step, Consistent;
      StepsStayConsistent(w, q, n - 1);
      StepStaysConsistent(w, Steps(w, Begin(q), n - 1));
    }
  }

  // ---------------------------------------------------------------------------------------------
  // Unsafe mixing makes some drain return early
  // ---------------------------------------------------------------------------------------------

  lemma {:induction false} StepsAdd(w: Wiring, d: Draining, m: nat, n: nat)
    ensures Steps(w, Steps(w, d, m), n) == Steps(w, d, m + n)
  {
    hide Step;
    if n > 0 {
      StepsAdd(w, d, m, n - 1);
    }
  }

  lemma StepsZero(w: Wiring, d: Draining)
    ensures Steps(w, d, 0) == d
  {
  }

  lemma OneStep(w: Wiring, d: Draining)
    ensures Steps(w, d, 1) == Step(w, d)
  {
    assert Steps(w, d, 0) == d;
  }

  /** The queues once the handlers of the event in flight have published everything. */
  function Published(q: Queues): Queues {
    q.(high := q.high + Part(HighLane, q.rest), normal := q.normal + Part(NormalLane, q.rest), rest := [])
  }

  lemma {:induction false} PublishAll(w: Wiring, d: Draining)
    requires d.queues.inFlight.Some?
    ensures Steps(w, d, |d.queues.rest|) == d.(queues := Published(d.queues))
    decreases |d.queues.rest|
  {
    var q := d.queues;
    if q.rest == [] {
      assert q.high + [] == q.high && q.normal + [] == q.normal;
    } else {
      var next := Step(w, d);
      PublishAll(w, next);
      PublishedNext(q);
      OneStep(w, d);
      hide Step;
      StepsAdd(w, d, 1, |next.queues.rest|);
    }
  }

  lemma PublishedNext(q: Queues)
    requires q.rest != []
    ensures Published(q.(rest := q.rest[1..]).With(q.rest[0])) == Published(q)
  {
    var x, rest := q.rest[0], q.rest[1..];
    var high, normal := Part(HighLane, rest), Part(NormalLane, rest);
    if LaneOf(x) == HighLane {
      assert (q.high + [x]) + high == q.high + ([x] + high);
      assert q.normal + normal == q.normal + ([] + normal);
    } else {
      assert (q.normal + [x]) + normal == q.normal + ([x] + normal);
      assert q.high + high == q.high + ([] + high);
    }
  }

  /** The event in flight is dispatched to its end. */
  function Finished(w: Wiring, d: Draining): Draining
    requires d.queues.inFlight.Some?
  {
    Step(w, d.(queues := Published(d.queues)))
  }

  lemma FinishInFlight(w: Wiring, d: Draining)
    requires d.queues.inFlight.Some?
    ensures Steps(w, d, |d.queues.rest| + 1) == Finished(w, d)
  {
    hide Step, Published;
    PublishAll(w, d);
    OneStep(w, d.(queues := Published(d.queues)));
    StepsAdd(w, d, |d.queues.rest|, 1);
  }

  /** The next event is taken and dispatched to its end. */
  function Dispatched(w: Wiring, d: Draining): Draining
    requires d.queues.inFlight.None? && (d.queues.high != [] || d.queues.normal != [])
  {
    Finished(w, Step(w, d))
  }

  function LengthOf(w: Wiring, d: Draining): nat
    requires d.queues.inFlight.None? && (d.queues.high != [] || d.queues.normal != [])
  {
    |Step(w, d).queues.rest| + 2
  }

  lemma DispatchNext(w: Wiring, d: Draining)
    requires d.queues.inFlight.None? && (d.queues.high != [] || d.queues.normal != [])
    ensures Steps(w, d, LengthOf(w, d)) == Dispatched(w, d)
  {
    OneStep(w, d);
    FinishInFlight(w, Step(w, d));
    hide Step;
    StepsAdd(w, d, 1, |Step(w, d).queues.rest| + 1);
  }

  lemma PartNext(w: Wiring, p: Event -> bool, es: seq<Event>)
    requires Ranked(w) && es != []
    ensures Load(w, One(), Filter(p, es))
         == Load(w, One(), Filter(p, es[..|es| - 1])) + if p(es[|es| - 1]) then Load(w, One(), [es[|es| - 1]]) else 0
  {
    hide Filter, Load;
    FilterLast(p, es);
    var e := es[|es| - 1];
    var kept := Filter(p, es[..|es| - 1]);
    if p(e) {
      LoadConcat(w, One(), kept, [e]);
    } else {
      assert kept + [] == kept;
    }
  }

  lemma LoadLast(w: Wiring, es: seq<Event>)
    requires Ranked(w) && es != []
    ensures Load(w, One(), es) == Load(w, One(), es[..|es| - 1]) + Load(w, One(), [es[|es| - 1]])
  {
    hide Load;
    LoadConcat(w, One(), es[..|es| - 1], [es[|es| - 1]]);
    assert es == es[..|es| - 1] + [es[|es| - 1]];
  }

  lemma {:induction false} PartWeighsLess(w: Wiring, p: Event -> bool, es: seq<Event>)
    requires Ranked(w)
    ensures Load(w, One(), Filter(p, es)) <= Load(w, One(), es)
    decreases |es|
  {
    if es != [] {
      PartWeighsLess(w, p, es[..|es| - 1]);
      LoadLast(w, es);
      PartNext(w, p, es);
    }
  }

  /** Dispatching the oldest event of a lane leaves less work, however its handlers' events are laid out. */
  lemma LaneShrinks(w: Wiring, lane: seq<Event>, p: Event -> bool)
    requires Ranked(w) && lane != []
    ensures Load(w, One(), lane[1..] + Filter(p, Emissions(w, lane[0]))) < Load(w, One(), lane)
  {
    LoadWithout(w, One(), lane, 0);
    assert lane[..0] + lane[1..] == lane[1..];
    PartWeighsLess(w, p, Emissions(w, lane[0]));
    LoadConcat(w, One(), lane[1..], Filter(p, Emissions(w, lane[0])));
  }

  /** Normal events wait behind a joined normal lane, and the high lane is joined or still to run dry. */
  ghost predicate Outrun(d: Draining) {
    && d.normalJoined && d.queues.inFlight == None && d.queues.normal != []
    && (forall e :: e in d.queues.high ==> LaneOf(e) == HighLane)
    && (d.highJoined || d.queues.high != [])
  }

  lemma OutrunShrinks(w: Wiring, d: Draining)
    requires Ranked(w) && Outrun(d) && d.queues.high != []
    ensures var next := Dispatched(w, d);
      Outrun(next) && Load(w, One(), next.queues.high) < Load(w, One(), d.queues.high)
  {
    var e := d.queues.high[0];
    LaneShrinks(w, d.queues.high, In(HighLane));
    FilterMembers(In(HighLane), Emissions(w, e));
  }

  /** The high lane runs dry, and the drain returns over what waits in the normal one. */
  lemma {:induction false} ReturnsOverNormal(w: Wiring, d: Draining) returns (n: nat)
    requires Ranked(w) && Outrun(d)
    ensures Steps(w, d, n).Returned() && !Steps(w, d, n).queues.Idle()
    decreases Load(w, One(), d.queues.high)
  {
    StepsZero(w, d);
    hide Step, Steps, Dispatched, LengthOf;
    if d.queues.high == [] {
      n := 0;
    } else {
      OutrunShrinks(w, d);
      DispatchNext(w, d);
      var m := ReturnsOverNormal(w, Dispatched(w, d));
      StepsAdd(w, d, LengthOf(w, d), m);
      n := LengthOf(w, d) + m;
    }
  }

  lemma NormalOutrun(w: Wiring, e: Event, x: Event)
    requires LaneOf(e) == NormalLane && x in Emissions(w, e) && LaneOf(x) == HighLane
    requires Part(NormalLane, Emissions(w, e)) == []
    ensures !DrainIsSound(w)
  {
    var q := Queues([], [e], None, []);
    DispatchNext(w, Begin(q));
    FilterMembers(In(HighLane), Emissions(w, e));
    var end := Dispatched(w, Begin(q));
    assert x in end.queues.high;
    assert end.Returned() && !end.queues.Idle();
    assert Moment(w, q);
  }

  lemma HighOutrun(w: Wiring, e: Event, x: Event)
    requires Ranked(w)
    requires LaneOf(e) == HighLane && x in Emissions(w, e) && LaneOf(x) == NormalLane
    ensures !DrainIsSound(w)
  {
    var q := Queues([e], [], None, []);
    assert Moment(w, q);
    HighStartsOutrun(w, q, e, x);
    DispatchNext(w, Begin(q));
    hide Step, Steps, Moment, Dispatched, LengthOf;
    var k := LengthOf(w, Begin(q));
    var n := ReturnsOverNormal(w, Dispatched(w, Begin(q)));
    StepsAdd(w, Begin(q), k, n);
    assert Steps(w, Begin(q), k + n).Returned() && !Steps(w, Begin(q), k + n).queues.Idle();
  }

  lemma HighStartsOutrun(w: Wiring, q: Queues, e: Event, x: Event)
    requires LaneOf(e) == HighLane && x in Emissions(w, e) && LaneOf(x) == NormalLane
    requires q == Queues([e], [], None, [])
    ensures Outrun(Dispatched(w, Begin(q)))
  {
    FilterMembers(In(HighLane), Emissions(w, e));
    FilterMembers(In(NormalLane), Emissions(w, e));
  }

  /** For handlers whose work ends, draining means that everything has been dispatched if and only if the
      handlers mix the two lanes safely; keeping to one lane is the simplest way to do so. */
  lemma DrainIsSoundIff(w: Wiring)
    requires Ranked(w)
    ensures DrainIsSound(w) <==> MixesSafely(w)
  {
    if MixesSafely(w) {
      forall q: Queues, n: nat | Moment(w, q) && Steps(w, Begin(q), n).Returned()
        ensures Steps(w, Begin(q), n).queues.Idle()
      {
        StepsStayConsistent(w, q, n);
      }
    } else if e, x :| LaneOf(e) == HighLane && x in Emissions(w, e) && LaneOf(x) != HighLane {
      HighOutrun(w, e, x);
    } else {
      var e, x :| LaneOf(e) == NormalLane && x in Emissions(w, e) && LaneOf(x) == HighLane
                  && Part(NormalLane, Emissions(w, e)) == [];
      NormalOutrun(w, e, x);
    }
  }

  lemma OneLaneMixesSafely(w: Wiring)
    requires forall e, x :: x in Emissions(w, e) ==> LaneOf(x) == LaneOf(e)
    ensures MixesSafely(w)
  {
  }

  // ---------------------------------------------------------------------------------------------
  // Draining ends
  // ---------------------------------------------------------------------------------------------

  /** A lane not yet joined has something unfinished. */
  ghost predicate Pending(d: Draining) {
    && d.queues.InLanes()
    && (!d.highJoined ==> d.queues.Unfinished(HighLane) > 0)
    && (!d.normalJoined ==> d.queues.Unfinished(NormalLane) > 0)
  }

  lemma {:induction false} RunsDry(w: Wiring, d: Draining) returns (n: nat)
    requires Ranked(w) && Pending(d) && d.queues.inFlight == None
    ensures Steps(w, d, n).Returned()
    decreases Load(w, One(), d.queues.high) + Load(w, One(), d.queues.normal)
  {
    StepsZero(w, d);
    hide Step, Steps, Dispatched, LengthOf;
    if d.queues.high == [] && d.queues.normal == [] {
      n := 0;
    } else {
      DispatchShrinks(w, d);
      DispatchNext(w, d);
      var m := RunsDry(w, Dispatched(w, d));
      StepsAdd(w, d, LengthOf(w, d), m);
      n := LengthOf(w, d) + m;
    }
  }

  lemma DispatchShrinks(w: Wiring, d: Draining)
    requires Ranked(w) && Pending(d) && d.queues.inFlight == None && (d.queues.high != [] || d.queues.normal != [])
    ensures var next := Dispatched(w, d);
      && Pending(next) && next.queues.inFlight == None
      && Load(w, One(), next.queues.high) + Load(w, One(), next.queues.normal)
         < Load(w, One(), d.queues.high) + Load(w, One(), d.queues.normal)
  {
    var q := d.queues;
    DispatchMoves(w, d);
    hide *;
    if q.high != [] {
      var es := Emissions(w, q.high[0]);
      TakingWeighs(w, q.high, Part(HighLane, es));
      LoadConcat(w, One(), q.normal, Part(NormalLane, es));
      PartsWeigh(w, es);
    } else {
      var es := Emissions(w, q.normal[0]);
      TakingWeighs(w, q.normal, Part(NormalLane, es));
      LoadConcat(w, One(), [], Part(HighLane, es));
      PartsWeigh(w, es);
    }
  }

  lemma TakingWeighs(w: Wiring, lane: seq<Event>, added: seq<Event>)
    requires Ranked(w) && lane != []
    ensures Load(w, One(), lane[1..] + added) + Load(w, One(), Emissions(w, lane[0])) + 1
         == Load(w, One(), lane) + Load(w, One(), added)
  {
    LoadConcat(w, One(), lane[1..], added);
    LoadWithout(w, One(), lane, 0);
    assert lane[..0] + lane[1..] == lane[1..];
  }

  /** A dispatch takes the oldest event of the lane to run and leaves what its handlers emit, lane by lane. */
  lemma DispatchMoves(w: Wiring, d: Draining)
    requires Pending(d) && d.queues.inFlight == None && (d.queues.high != [] || d.queues.normal != [])
    ensures var q, next := d.queues, Dispatched(w, d);
      var es := Emissions(w, if q.high != [] then q.high[0] else q.normal[0]);
      && Pending(next) && next.queues.inFlight == None
      && next.queues.high == (if q.high != [] then q.high[1..] else []) + Part(HighLane, es)
      && next.queues.normal == (if q.high != [] then q.normal else q.normal[1..]) + Part(NormalLane, es)
  {
    hide Part, Emissions;
    FinishKeepsPending(w, Step(w, d));
  }

  /** The two parts of a list of events weigh what the list does. */
  lemma {:induction false} PartsWeigh(w: Wiring, es: seq<Event>)
    requires Ranked(w)
    ensures Load(w, One(), Part(HighLane, es)) + Load(w, One(), Part(NormalLane, es)) == Load(w, One(), es)
    decreases |es|
  {
    if es != [] {
      PartsWeigh(w, es[..|es| - 1]);
      LoadLast(w, es);
      PartNext(w, In(HighLane), es);
      PartNext(w, In(NormalLane), es);
    }
  }

  lemma FinishKeepsPending(w: Wiring, d: Draining)
    requires Pending(d) && d.queues.inFlight.Some?
    ensures Pending(Finished(w, d)) && Finished(w, d).queues.inFlight == None
  {
    FilterMembers(In(HighLane), d.queues.rest);
    FilterMembers(In(NormalLane), d.queues.rest);
  }

  /** Whatever is queued or in flight when it starts, a drain returns. */
  lemma DrainReturns(w: Wiring, q: Queues)
    requires Ranked(w) && q.InLanes()
    ensures exists n: nat :: Steps(w, Begin(q), n).Returned()
  {
    if q.inFlight.None? {
      var n := RunsDry(w, Begin(q));
    } else {
      FinishKeepsPending(w, Begin(q));
      FinishInFlight(w, Begin(q));
      hide Finished, Steps;
      var n := RunsDry(w, Finished(w, Begin(q)));
      StepsAdd(w, Begin(q), |q.rest| + 1, n);
    }
  }

  // ---------------------------------------------------------------------------------------------
  // The queue object goes through these steps
  // ---------------------------------------------------------------------------------------------

  /** One round of the processing loop on the queue itself: get, dispatch, mark as done. */
  method ProcessNext(pq: PriorityQueue, w: Wiring, ghost d: Draining)
    requires pq.Valid() && pq.lastSource == None && pq.View() == d.queues
    requires pq.high.waiting != [] || pq.normal.waiting != []
    modifies pq, pq.high, pq.normal
    ensures pq.Valid() && pq.lastSource == None
    ensures pq.View() == Steps(w, d, LengthOf(w, d)).queues
  {
    hide PriorityQueue.Valid, Published;
    DispatchNext(w, d);
    var e := pq.Get();
    PublishEach(pq, Emissions(w, e), Step(w, d).queues.(rest := []));
    pq.TaskDone();
  }

  /** What the handlers of the event in flight publish. */
  method PublishEach(pq: PriorityQueue, es: seq<Event>, ghost q: Queues)
    requires pq.Valid() && pq.View() == q && q.rest == []
    modifies pq.high, pq.normal
    ensures pq.Valid() && pq.View() == Published(q.(rest := es))
  {
    hide PriorityQueue.Valid, Published;
    PublishedNone(q);
    for i := 0 to |es|
      invariant pq.Valid() && pq.View() == Published(q.(rest := es[..i]))
    {
      PublishedLast(q, es[..i], es[i]);
      assert es[..i + 1] == es[..i] + [es[i]];
      pq.Put(es[i]);
    }
    assert es[..|es|] == es;
  }

  lemma PublishedNone(q: Queues)
    requires q.rest == []
    ensures Published(q) == q
  {
    assert q.high + [] == q.high && q.normal + [] == q.normal;
  }

  lemma PublishedLast(q: Queues, es: seq<Event>, e: Event)
    ensures Published(q.(rest := es + [e])) == Published(q.(rest := es)).With(e)
  {
    FilterConcat(In(HighLane), es, [e]);
    FilterConcat(In(NormalLane), es, [e]);
    var high, normal := Part(HighLane, es), Part(NormalLane, es);
    assert q.high + (high + [e]) == q.high + high + [e] && q.normal + (normal + [e]) == q.normal + normal + [e];
    assert high + [] == high && normal + [] == normal;
  }
}
