/** Depth-first synchronous dispatch and queued dispatch in any order do the same work. */
module Scheduling {
  import opened EventBus

  /** Fixed subscribers: for each event, what each handler it reaches publishes, handler by handler. The rank
      falls from an event to what its handlers publish. */
  datatype Wiring = Wiring(reactions: Event -> seq<seq<Event>>, rank: Event -> nat)

  ghost predicate Ranked(w: Wiring) {
    forall e, r, x :: r in w.reactions(e) && x in r ==> w.rank(x) < w.rank(e)
  }

  function Flatten(rs: seq<seq<Event>>): seq<Event> {
    if rs == [] then [] else Flatten(rs[..|rs| - 1]) + rs[|rs| - 1]
  }

  function Emissions(w: Wiring, e: Event): seq<Event> {
    Flatten(w.reactions(e))
  }

  lemma {:induction false} FlattenMembers(rs: seq<seq<Event>>)
    ensures forall x :: x in Flatten(rs) ==> exists r :: r in rs && x in r
  {
    if rs != [] {
      FlattenMembers(rs[..|rs| - 1]);
      forall x | x in Flatten(rs) ensures exists r :: r in rs && x in r {
        if x in rs[|rs| - 1] {
        } else {
          assert x in Flatten(rs[..|rs| - 1]);
          var r :| r in rs[..|rs| - 1] && x in r;
          assert r in rs;
        }
      }
    }
  }

  lemma EmissionsRankLower(w: Wiring, e: Event)
    requires Ranked(w)
    ensures forall x :: x in Emissions(w, e) ==> w.rank(x) < w.rank(e)
  {
    FlattenMembers(w.reactions(e));
  }

  /** One more than the highest rank. */
  ghost function Height(w: Wiring, es: seq<Event>): nat
    ensures forall x :: x in es ==> w.rank(x) < Height(w, es)
  {
    if es == [] then 0
    else
      var rest, last := Height(w, es[..|es| - 1]), w.rank(es[|es| - 1]) + 1;
      if rest < last then last else rest
  }

  lemma {:induction false} HeightAtMost(w: Wiring, es: seq<Event>, bound: nat)
    requires forall x :: x in es ==> w.rank(x) < bound
    ensures Height(w, es) <= bound
  {
    if es != [] {
      HeightAtMost(w, es[..|es| - 1], bound);
    }
  }

  lemma HeightFalls(w: Wiring, es: seq<Event>)
    requires Ranked(w) && es != []
    ensures Height(w, es[..|es| - 1]) <= Height(w, es)
    ensures Height(w, Emissions(w, es[|es| - 1])) < Height(w, es)
  {
    var last := es[|es| - 1];
    EmissionsRankLower(w, last);
    HeightAtMost(w, Emissions(w, last), w.rank(last));
  }

  // ---------------------------------------------------------------------------------------------
  // Work, measured by any weight
  // ---------------------------------------------------------------------------------------------

  ghost function Total(g: Event -> nat, es: seq<Event>): nat {
    if es == [] then 0 else Total(g, es[..|es| - 1]) + g(es[|es| - 1])
  }

  /** The total weight of the events and of everything that follows from them. */
  ghost function Load(w: Wiring, g: Event -> nat, es: seq<Event>): nat
    requires Ranked(w)
    decreases Height(w, es), |es|
  {
    if es == [] then 0
    else
      HeightFalls(w, es);
      Load(w, g, es[..|es| - 1]) + g(es[|es| - 1]) + Load(w, g, Emissions(w, es[|es| - 1]))
  }

  /** The order in which synchronous publishing dispatches: each event, then all that follows from it. */
  ghost function DepthFirst(w: Wiring, es: seq<Event>): seq<Event>
    requires Ranked(w)
    decreases Height(w, es), |es|
  {
    if es == [] then []
    else
      HeightFalls(w, es);
      DepthFirst(w, es[..|es| - 1]) + [es[|es| - 1]] + DepthFirst(w, Emissions(w, es[|es| - 1]))
  }

  ghost function One(): Event -> nat { e => 1 }
  ghost function HandlerCount(w: Wiring): Event -> nat { e => |w.reactions(e)| }
  ghost function OfKind(kind: Kind): Event -> nat { (e: Event) => if e.kind == kind then 1 else 0 }
  ghost function Is(x: Event): Event -> nat { e => if e == x then 1 else 0 }

  lemma {:induction false} TotalConcat(g: Event -> nat, xs: seq<Event>, ys: seq<Event>)
    ensures Total(g, xs + ys) == Total(g, xs) + Total(g, ys)
  {
    if ys == [] {
      assert xs + ys == xs;
    } else {
      TotalConcat(g, xs, ys[..|ys| - 1]);
      assert (xs + ys)[..|xs + ys| - 1] == xs + ys[..|ys| - 1];
    }
  }

  lemma {:induction false} LoadConcat(w: Wiring, g: Event -> nat, xs: seq<Event>, ys: seq<Event>)
    requires Ranked(w)
    ensures Load(w, g, xs + ys) == Load(w, g, xs) + Load(w, g, ys)
    decreases |ys|
  {
    if ys == [] {
      assert xs + ys == xs;
    } else {
      LoadConcat(w, g, xs, ys[..|ys| - 1]);
      assert (xs + ys)[..|xs + ys| - 1] == xs + ys[..|ys| - 1];
    }
  }

  lemma LoadOfOne(w: Wiring, g: Event -> nat, e: Event)
    requires Ranked(w)
    ensures Load(w, g, [e]) == g(e) + Load(w, g, Emissions(w, e))
  {
    assert [e][..0] == [];
    assert Load(w, g, [e][..0]) == 0;
  }

  lemma LoadWithout(w: Wiring, g: Event -> nat, es: seq<Event>, i: nat)
    requires Ranked(w) && i < |es|
    ensures Load(w, g, es) == Load(w, g, es[..i] + es[i + 1..]) + g(es[i]) + Load(w, g, Emissions(w, es[i]))
  {
    assert es == es[..i] + ([es[i]] + es[i + 1..]);
    LoadConcat(w, g, es[..i], [es[i]] + es[i + 1..]);
    LoadConcat(w, g, [es[i]], es[i + 1..]);
    LoadConcat(w, g, es[..i], es[i + 1..]);
    LoadOfOne(w, g, es[i]);
  }

  /** Synchronous dispatch does exactly the work that follows from what is published. */
  lemma {:induction false} DepthFirstDoesTheWork(w: Wiring, g: Event -> nat, es: seq<Event>)
    requires Ranked(w)
    ensures Total(g, DepthFirst(w, es)) == Load(w, g, es)
    decreases Height(w, es), |es|
  {
    if es != [] {
      HeightFalls(w, es);
      var past, last := es[..|es| - 1], es[|es| - 1];
      DepthFirstDoesTheWork(w, g, past);
      DepthFirstDoesTheWork(w, g, Emissions(w, last));
      TotalConcat(g, DepthFirst(w, past) + [last], DepthFirst(w, Emissions(w, last)));
      TotalConcat(g, DepthFirst(w, past), [last]);
      assert [last][..0] == [] && Total(g, [last][..0]) == 0;
    }
  }

  // ---------------------------------------------------------------------------------------------
  // Queued dispatch
  // ---------------------------------------------------------------------------------------------

  /** Taking the i-th waiting event appends what its handlers publish. */
  function QueueAfter(w: Wiring, queue: seq<Event>, i: nat): seq<Event>
    requires i < |queue|
  {
    queue[..i] + queue[i + 1..] + Emissions(w, queue[i])
  }

  /** A schedule says, step by step, which waiting event is taken. */
  predicate Fits(w: Wiring, queue: seq<Event>, picks: seq<nat>)
    decreases |picks|
  {
    picks == [] || (picks[0] < |queue| && Fits(w, QueueAfter(w, queue, picks[0]), picks[1..]))
  }

  function Taken(w: Wiring, queue: seq<Event>, picks: seq<nat>): seq<Event>
    requires Fits(w, queue, picks)
    decreases |picks|
  {
    if picks == [] then []
    else [queue[picks[0]]] + Taken(w, QueueAfter(w, queue, picks[0]), picks[1..])
  }

  function Left(w: Wiring, queue: seq<Event>, picks: seq<nat>): seq<Event>
    requires Fits(w, queue, picks)
    decreases |picks|
  {
    if picks == [] then queue else Left(w, QueueAfter(w, queue, picks[0]), picks[1..])
  }

  /** At every point of every schedule, what has been dispatched and what the queue still stands for add up
      to the work of the queue at the start, by any weight. */
  lemma {:induction false} ScheduleConservesWork(w: Wiring, g: Event -> nat, queue: seq<Event>, picks: seq<nat>)
    requires Ranked(w) && Fits(w, queue, picks)
    ensures Total(g, Taken(w, queue, picks)) + Load(w, g, Left(w, queue, picks)) == Load(w, g, queue)
    decreases |picks|
  {
    if picks != [] {
      var i := picks[0];
      var next := QueueAfter(w, queue, i);
      ScheduleConservesWork(w, g, next, picks[1..]);
      LoadWithout(w, g, queue, i);
      LoadConcat(w, g, queue[..i] + queue[i + 1..], Emissions(w, queue[i]));
      TotalConcat(g, [queue[i]], Taken(w, next, picks[1..]));
      assert [queue[i]][..0] == [] && Total(g, [queue[i]][..0]) == 0;
    }
  }

  lemma {:induction false} TotalOfOne(es: seq<Event>)
    ensures Total(One(), es) == |es|
  {
    if es != [] {
      TotalOfOne(es[..|es| - 1]);
    }
  }

  lemma {:induction false} TotalOfIs(x: Event, es: seq<Event>)
    ensures Total(Is(x), es) == multiset(es)[x]
  {
    if es != [] {
      TotalOfIs(x, es[..|es| - 1]);
      assert es == es[..|es| - 1] + [es[|es| - 1]];
    }
  }

  lemma {:induction false} LoadAtLeastLength(w: Wiring, es: seq<Event>)
    requires Ranked(w)
    ensures Load(w, One(), es) >= |es|
    decreases |es|
  {
    if es != [] {
      LoadAtLeastLength(w, es[..|es| - 1]);
    }
  }

  /** No schedule is longer than the work there is, and one that is as long as the work empties the queue. */
  lemma SchedulesEnd(w: Wiring, queue: seq<Event>, picks: seq<nat>)
    requires Ranked(w) && Fits(w, queue, picks)
    ensures |picks| <= Load(w, One(), queue)
    ensures |picks| == Load(w, One(), queue) <==> Left(w, queue, picks) == []
  {
    ScheduleConservesWork(w, One(), queue, picks);
    TotalOfOne(Taken(w, queue, picks));
    TakenLength(w, queue, picks);
    LoadAtLeastLength(w, Left(w, queue, picks));
  }

  lemma {:induction false} TakenLength(w: Wiring, queue: seq<Event>, picks: seq<nat>)
    requires Fits(w, queue, picks)
    ensures |Taken(w, queue, picks)| == |picks|
    decreases |picks|
  {
    if picks != [] {
      TakenLength(w, QueueAfter(w, queue, picks[0]), picks[1..]);
    }
  }

  /** Synchronous publishing and any queued schedule run to its end dispatch the same events equally often. */
  lemma SyncAndAsyncDispatchTheSame(w: Wiring, roots: seq<Event>, picks: seq<nat>)
    requires Ranked(w) && Fits(w, roots, picks) && Left(w, roots, picks) == []
    ensures multiset(Taken(w, roots, picks)) == multiset(DepthFirst(w, roots))
  {
    forall x ensures multiset(Taken(w, roots, picks))[x] == multiset(DepthFirst(w, roots))[x] {
      ScheduleConservesWork(w, Is(x), roots, picks);
      DepthFirstDoesTheWork(w, Is(x), roots);
      TotalOfIs(x, Taken(w, roots, picks));
      TotalOfIs(x, DepthFirst(w, roots));
    }
  }

  lemma {:induction false} DepthFirstConcat(w: Wiring, xs: seq<Event>, ys: seq<Event>)
    requires Ranked(w)
    ensures DepthFirst(w, xs + ys) == DepthFirst(w, xs) + DepthFirst(w, ys)
    decreases |ys|
  {
    if ys == [] {
      assert xs + ys == xs;
    } else {
      DepthFirstConcat(w, xs, ys[..|ys| - 1]);
      assert (xs + ys)[..|xs + ys| - 1] == xs + ys[..|ys| - 1];
    }
  }

  lemma DepthFirstOfOne(w: Wiring, e: Event)
    requires Ranked(w)
    ensures DepthFirst(w, [e]) == [e] + DepthFirst(w, Emissions(w, e))
  {
    assert [e][..0] == [];
    assert DepthFirst(w, [e][..0]) == [];
  }

  lemma TotalNext(g: Event -> nat, es: seq<Event>, e: Event)
    ensures Total(g, es + [e]) == Total(g, es) + g(e)
  {
    assert (es + [e])[..|es|] == es;
  }

  // ---------------------------------------------------------------------------------------------
  // The bus in both modes
  // ---------------------------------------------------------------------------------------------

  class ModalBus {
    const w: Wiring
    var syncMode: bool
    var queue: seq<Event>
    var totalPublished: nat
    var totalDispatched: nat
    var eventsByType: map<Kind, nat>
    ghost var published: seq<Event>
    ghost var dispatched: seq<Event>
    ghost var outstanding: nat  // handlers of dispatches in progress that have not been reached yet

    /** The counters count what has been published and how many handlers have been reached. */
    ghost predicate Valid()
      reads `totalPublished, `totalDispatched, `eventsByType, `published, `dispatched, `outstanding
    {
      && totalPublished == Total(One(), published)
      && totalDispatched + outstanding == Total(HandlerCount(w), dispatched)
      && (forall kind :: (if kind in eventsByType then eventsByType[kind] else 0) == Total(OfKind(kind), published))
    }

    /** What publishing `es` from a given state leads to: in synchronous mode all the work that follows from
        them, depth first; in queued mode only their place in the queue. */
    ghost predicate Handled(p: seq<Event>, d: seq<Event>, q: seq<Event>, es: seq<Event>)
      requires Ranked(w)
      reads this
    {
      if syncMode then queue == q && dispatched == d + DepthFirst(w, es) && published == p + DepthFirst(w, es)
      else queue == q + es && dispatched == d && published == p + es
    }

    constructor (w: Wiring)
      requires Ranked(w)
      ensures Valid() && this.w == w && queue == published == dispatched == [] && outstanding == 0 && !syncMode
    {
      this.w := w;
      syncMode, queue, totalPublished, totalDispatched, eventsByType := false, [], 0, 0, map[];
      published, dispatched, outstanding := [], [], 0;
    }

    method CountPublished(e: Event)
      requires Valid()
      modifies this`totalPublished, this`eventsByType, this`published
      ensures Valid() && published == old(published) + [e]
    {
      hide Total;
      totalPublished := totalPublished + 1;
      eventsByType := eventsByType[e.kind := (if e.kind in eventsByType then eventsByType[e.kind] else 0) + 1];
      TotalNext(One(), published, e);
      forall kind {
        TotalNext(OfKind(kind), published, e);
      }
      published := published + [e];
    }

    method PublishEvent(e: Event)
      requires Ranked(w) && Valid()
      modifies this
      ensures Valid() && syncMode == old(syncMode) && outstanding == old(outstanding)
      ensures Handled(old(published), old(dispatched), old(queue), [e])
      decreases w.rank(e), 2
    {
      hide Valid, DepthFirst, Total;
      CountPublished(e);
      if syncMode {
        Dispatch(e);
        DepthFirstOfOne(w, e);
      } else {
        queue := queue + [e];
      }
    }

    /** What one handler publishes. */
    method PublishEach(es: seq<Event>, ghost bound: nat)
      requires Ranked(w) && Valid() && forall x :: x in es ==> w.rank(x) < bound
      modifies this
      ensures Valid() && syncMode == old(syncMode) && outstanding == old(outstanding)
      ensures Handled(old(published), old(dispatched), old(queue), es)
      decreases bound, 0
    {
      hide Valid, DepthFirst, Total;
      DepthFirstOfNone(w);
      for i := 0 to |es|
        invariant Valid() && syncMode == old(syncMode) && outstanding == old(outstanding)
        invariant Handled(old(published), old(dispatched), old(queue), es[..i])
      {
        DepthFirstConcat(w, es[..i], [es[i]]);
        assert es[..i + 1] == es[..i] + [es[i]];
        PublishEvent(es[i]);
      }
      assert es[..|es|] == es;
    }

    method Dispatch(e: Event)
      requires Ranked(w) && Valid()
      modifies this
      ensures Valid() && syncMode == old(syncMode) && outstanding == old(outstanding)
      ensures Handled(old(published), old(dispatched) + [e], old(queue), Emissions(w, e))
      decreases w.rank(e), 1
    {
      hide Valid, DepthFirst, Total;
      DepthFirstOfNone(w);
      var reactions := w.reactions(e);
      StartDispatch(e);
      for i := 0 to |reactions|
        invariant Valid() && syncMode == old(syncMode) && outstanding == old(outstanding) + |reactions| - i
        invariant Handled(old(published), old(dispatched) + [e], old(queue), Flatten(reactions[..i]))
      {
        DepthFirstConcat(w, Flatten(reactions[..i]), reactions[i]);
        assert reactions[..i + 1][..i] == reactions[..i];
        CountHandler();
        assert reactions[i] in w.reactions(e);
        PublishEach(reactions[i], w.rank(e));
      }
      assert reactions[..|reactions|] == reactions;
    }

    ghost method StartDispatch(e: Event)
      requires Valid()
      modifies this`dispatched, this`outstanding
      ensures Valid() && dispatched == old(dispatched) + [e] && outstanding == old(outstanding) + |w.reactions(e)|
    {
      hide Total, Ranked;
      TotalNext(HandlerCount(w), dispatched, e);
      dispatched, outstanding := dispatched + [e], outstanding + |w.reactions(e)|;
    }

    method CountHandler()
      requires Valid() && outstanding > 0
      modifies this`totalDispatched, this`outstanding
      ensures Valid() && outstanding == old(outstanding) - 1
    {
      totalDispatched := totalDispatched + 1;
      outstanding := outstanding - 1;
    }

    /** Publishing in synchronous mode: nothing is left to do afterwards. */
    method RunSync(roots: seq<Event>)
      requires Ranked(w) && Valid() && queue == published == dispatched == [] && outstanding == 0
      modifies this
      ensures queue == [] && AllWorkDone(roots)
    {
      syncMode := true;
      PublishEach(roots, Height(w, roots));
      assert dispatched == published == DepthFirst(w, roots);
      forall g: Event -> nat ensures Total(g, dispatched) == Total(g, published) == Load(w, g, roots) {
        DepthFirstDoesTheWork(w, g, roots);
      }
    }

    /** Publishing in queued mode, interleaved in any way with a processing loop that takes waiting events in
        any order, until nothing is left to publish or to process. */
    method RunQueued(roots: seq<Event>)
      requires Ranked(w) && Valid() && queue == published == dispatched == [] && outstanding == 0
      modifies this
      ensures queue == [] && AllWorkDone(roots)
    {
      syncMode := false;
      var next := 0;
      while next < |roots| || queue != []
        invariant Valid() && !syncMode && outstanding == 0 && next <= |roots|
        invariant Balanced(roots[..next])
        decreases Load(w, One(), queue) + Load(w, One(), roots[next..]), |roots| - next
      {
        if * {
          if next < |roots| {
            next := PublishNext(roots, next);
          } else {
            ProcessOne(roots[..next]);
          }
        } else {
          if queue != [] {
            ProcessOne(roots[..next]);
          } else {
            next := PublishNext(roots, next);
          }
        }
      }
      assert roots[..|roots|] == roots;
      forall g: Event -> nat ensures Total(g, dispatched) == Total(g, published) == Load(w, g, roots) {
        assert Load(w, g, []) == 0;
      }
    }

    /** The two modes end in the same counters: each is a weight of the same work. */
    ghost predicate AllWorkDone(roots: seq<Event>)
      reads this
    {
      && Ranked(w)
      && (forall g: Event -> nat :: Total(g, dispatched) == Total(g, published) == Load(w, g, roots))
      && totalPublished == Load(w, One(), roots)
      && totalDispatched == Load(w, HandlerCount(w), roots)
      && (forall kind :: (if kind in eventsByType then eventsByType[kind] else 0) == Load(w, OfKind(kind), roots))
    }

    /** Work published so far is dispatched or still stands in the queue. */
    ghost predicate Balanced(soFar: seq<Event>)
      requires Ranked(w)
      reads this
    {
      && (forall g: Event -> nat :: Total(g, dispatched) + Load(w, g, queue) == Load(w, g, soFar))
      && (forall g: Event -> nat :: Total(g, published) == Total(g, dispatched) + Total(g, queue))
    }

    method PublishNext(roots: seq<Event>, i: nat) returns (next: nat)
      requires Ranked(w) && Valid() && !syncMode && outstanding == 0 && i < |roots| && Balanced(roots[..i])
      modifies this
      ensures Valid() && !syncMode && outstanding == 0 && next == i + 1 && Balanced(roots[..next])
      ensures Load(w, One(), queue) + Load(w, One(), roots[next..])
           == old(Load(w, One(), queue)) + Load(w, One(), roots[i..])
    {
      hide Valid, Load, Total, DepthFirst;
      PublishEvent(roots[i]);
      next := i + 1;
      assert roots[..next] == roots[..i] + [roots[i]] && roots[i..] == [roots[i]] + roots[next..];
      forall g: Event -> nat ensures Total(g, dispatched) + Load(w, g, queue) == Load(w, g, roots[..next]) {
        LoadConcat(w, g, old(queue), [roots[i]]);
        LoadConcat(w, g, roots[..i], [roots[i]]);
      }
      forall g: Event -> nat ensures Total(g, published) == Total(g, dispatched) + Total(g, queue) {
        TotalNext(g, old(queue), roots[i]);
        TotalNext(g, old(published), roots[i]);
      }
      LoadConcat(w, One(), old(queue), [roots[i]]);
      LoadConcat(w, One(), [roots[i]], roots[next..]);
    }

    method ProcessOne(ghost soFar: seq<Event>)
      requires Ranked(w) && Valid() && !syncMode && outstanding == 0 && queue != [] && Balanced(soFar)
      modifies this
      ensures Valid() && !syncMode && outstanding == 0 && Balanced(soFar)
      ensures Load(w, One(), queue) < old(Load(w, One(), queue))
    {
      hide Load, Total, DepthFirst;
      var i :| 0 <= i < |queue|;
      var e := queue[i];
      queue := queue[..i] + queue[i + 1..];
      ghost var rest := queue;
      Dispatch(e);
      forall g: Event -> nat ensures Total(g, dispatched) + Load(w, g, queue) == Load(w, g, soFar) {
        LoadWithout(w, g, old(queue), i);
        LoadConcat(w, g, rest, Emissions(w, e));
        TotalNext(g, old(dispatched), e);
      }
      forall g: Event -> nat ensures Total(g, published) == Total(g, dispatched) + Total(g, queue) {
        TotalWithout(g, old(queue), i);
        TotalConcat(g, rest, Emissions(w, e));
        TotalConcat(g, old(published), Emissions(w, e));
        TotalNext(g, old(dispatched), e);
      }
      LoadWithout(w, One(), old(queue), i);
      LoadConcat(w, One(), rest, Emissions(w, e));
    }
  }

  lemma DepthFirstOfNone(w: Wiring)
    requires Ranked(w)
    ensures DepthFirst(w, []) == []
  {
  }

  lemma TotalWithout(g: Event -> nat, es: seq<Event>, i: nat)
    requires i < |es|
    ensures Total(g, es) == Total(g, es[..i] + es[i + 1..]) + g(es[i])
  {
    var front, back := es[..i], es[i + 1..];
    TotalConcat(g, front, back);
    TotalConcat(g, front + [es[i]], back);
    TotalNext(g, front, es[i]);
    assert es == front + [es[i]] + back;
  }

  // ---------------------------------------------------------------------------------------------
  // The bus with subscriptions dispatches depth first
  // ---------------------------------------------------------------------------------------------

  /** What the handlers of an event do on a bus with subscriptions: each publishes its reaction. */
  function Script(w: Wiring, e: Event): seq<Call>
    requires Ranked(w)
    decreases w.rank(e), 2, 0
  {
    CallsFor(w, w.reactions(e), w.rank(e))
  }

  function CallsFor(w: Wiring, reactions: seq<seq<Event>>, bound: nat): seq<Call>
    requires Ranked(w) && forall r, x :: r in reactions && x in r ==> w.rank(x) < bound
    decreases bound, 1, |reactions|
  {
    if reactions == [] then []
    else CallsFor(w, reactions[..|reactions| - 1], bound) + [Call(ActsFor(w, reactions[|reactions| - 1], bound), false)]
  }

  function ActsFor(w: Wiring, es: seq<Event>, bound: nat): seq<Act>
    requires Ranked(w) && forall x :: x in es ==> w.rank(x) < bound
    decreases bound, 0, |es|
  {
    if es == [] then []
    else
      var last := es[|es| - 1];
      ActsFor(w, es[..|es| - 1], bound) + [Publish(last, Script(w, last))]
  }

  /** Every handler due takes part in the wiring. */
  ghost predicate Fitting(w: Wiring, due: Event -> nat) {
    forall e :: due(e) == |w.reactions(e)|
  }

  lemma {:induction false} ActsPrefix(due: Event -> nat, acts: seq<Act>, act: Act, n: nat)
    requires n <= |acts|
    ensures ActsOrder(due, acts + [act], n) == ActsOrder(due, acts, n)
    decreases n
  {
    if n > 0 {
      ActsPrefix(due, acts, act, n - 1);
    }
  }

  lemma {:induction false} CallsPrefix(due: Event -> nat, calls: seq<Call>, call: Call, n: nat)
    requires n <= |calls|
    ensures CallsOrder(due, calls + [call], n) == CallsOrder(due, calls, n)
    decreases n
  {
    if n > 0 {
      CallsPrefix(due, calls, call, n - 1);
    }
  }

  lemma {:induction false} ActsAreDepthFirst(w: Wiring, due: Event -> nat, es: seq<Event>, bound: nat)
    requires Ranked(w) && Fitting(w, due) && forall x :: x in es ==> w.rank(x) < bound
    ensures var acts := ActsFor(w, es, bound);
      |acts| == |es| && Plain(acts) && ActsOrder(due, acts, |acts|) == DepthFirst(w, es)
    decreases bound, 0, |es|
  {
    if es != [] {
      var past, last := es[..|es| - 1], es[|es| - 1];
      var acts := ActsFor(w, past, bound);
      ActsAreDepthFirst(w, due, past, bound);
      ScriptIsDepthFirst(w, due, last);
      ActsPrefix(due, acts, Publish(last, Script(w, last)), |acts|);
      hide Script, DepthFirst;
      DepthFirstConcat(w, past, [last]);
      DepthFirstOfOne(w, last);
      assert past + [last] == es;
    } else {
      DepthFirstOfNone(w);
    }
  }

  lemma {:induction false} CallsAreDepthFirst(w: Wiring, due: Event -> nat, reactions: seq<seq<Event>>, bound: nat)
    requires Ranked(w) && Fitting(w, due) && forall r, x :: r in reactions && x in r ==> w.rank(x) < bound
    ensures var calls := CallsFor(w, reactions, bound);
      |calls| == |reactions| && PlainCalls(calls)
      && CallsOrder(due, calls, |calls|) == DepthFirst(w, Flatten(reactions))
    decreases bound, 1, |reactions|
  {
    if reactions != [] {
      var past, last := reactions[..|reactions| - 1], reactions[|reactions| - 1];
      var calls := CallsFor(w, past, bound);
      CallsAreDepthFirst(w, due, past, bound);
      ActsAreDepthFirst(w, due, last, bound);
      CallsPrefix(due, calls, Call(ActsFor(w, last, bound), false), |calls|);
      DepthFirstConcat(w, Flatten(past), last);
    } else {
      DepthFirstOfNone(w);
    }
  }

  lemma {:induction false} ScriptIsDepthFirst(w: Wiring, due: Event -> nat, e: Event)
    requires Ranked(w) && Fitting(w, due)
    ensures PlainCalls(Script(w, e)) && [e] + CallsOrder(due, Script(w, e), due(e)) == DepthFirst(w, [e])
    decreases w.rank(e), 2, 0
  {
    CallsAreDepthFirst(w, due, w.reactions(e), w.rank(e));
    DepthFirstOfOne(w, e);
  }

  /** On a bus whose subscriptions fit the wiring, publishing in synchronous mode dispatches in depth-first order:
      the two buses do the same. */
  method PublishWired(bus: EventBus, w: Wiring, e: Event, ghost due: Event -> nat)
    requires Ranked(w) && Fitting(w, due) && bus.Valid() && Serves(bus.trace, due)
    modifies bus
    ensures bus.Valid() && Serves(bus.trace, due)
    ensures Begun(bus.trace) == old(Begun(bus.trace)) + DepthFirst(w, [e])
    ensures bus.totalPublished == old(bus.totalPublished) + |DepthFirst(w, [e])|
  {
    hide EventBus.Valid, Serves, Begun;
    ScriptIsDepthFirst(w, due, e);
    bus.CountsBegun();
    var _ := bus.PublishEvent(e, Script(w, e), due);
    bus.CountsBegun();
  }
}
