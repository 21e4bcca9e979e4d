/** Subscriptions, the handler cache and synchronous dispatch. Handlers are arbitrary: a script says what each
    reached handler does, including subscribing, unsubscribing and publishing from inside a dispatch. */
module EventBus {
  import opened Basics
  import opened Sequences

  datatype Kind = Kind(name: string)

  datatype Priority = Low | Normal | High | Critical

  datatype Event = Event(kind: Kind, priority: Priority, payload: int)

  /** What a filter says of an event. */
  datatype Verdict = Accept | Reject | Raise

  datatype Entry = Entry(handler: nat, filter: Option<Event -> Verdict>)

  function Judge(entry: Entry, e: Event): Verdict {
    if entry.filter.None? then Accept else entry.filter.value(e)
  }

  datatype Act =
    | Subscribe(kind: Kind, entry: Entry)
    | SubscribeAll(entry: Entry)
    | Unsubscribe(kind: Kind, handler: nat)
    | Publish(event: Event, calls: seq<Call>)

  /** What one handler invocation does before it returns, raises or is cut off by its time limit. */
  datatype Call = Call(acts: seq<Act>, raises: bool)

  // ---------------------------------------------------------------------------------------------
  // The history of a bus, and what it says should happen
  // ---------------------------------------------------------------------------------------------

  datatype Item =
    | Subscribed(kind: Kind, entry: Entry)
    | SubscribedAll(entry: Entry)
    | Unsubscribed(kind: Kind, handler: nat)
    | Began(id: nat, event: Event)
    | Reached(id: nat, handler: nat)
    | Failed(id: nat, kind: Kind)

  ghost function OtherThan(handler: nat): Entry -> bool {
    (entry: Entry) => entry.handler != handler
  }

  ghost function AcceptsEvent(e: Event): Entry -> bool {
    (entry: Entry) => entry.filter.None? || entry.filter.value(e) == Accept
  }

  /** The entries subscribed to a kind, in subscription order. */
  ghost function Present(trace: seq<Item>, kind: Kind): seq<Entry> {
    if trace == [] then []
    else
      var before, last := Present(trace[..|trace| - 1], kind), trace[|trace| - 1];
      if last.Subscribed? && last.kind == kind then before + [last.entry]
      else if last.Unsubscribed? && last.kind == kind then Filter(OtherThan(last.handler), before)
      else before
  }

  ghost function PresentAll(trace: seq<Item>): seq<Entry> {
    if trace == [] then []
    else
      var before, last := PresentAll(trace[..|trace| - 1]), trace[|trace| - 1];
      if last.SubscribedAll? then before + [last.entry] else before
  }

  ghost function HandlersOf(entries: seq<Entry>): seq<nat> {
    seq(|entries|, i requires 0 <= i < |entries| => entries[i].handler)
  }

  ghost predicate RaisesOn(entry: Entry, e: Event) {
    entry.filter.Some? && entry.filter.value(e) == Raise
  }

  /** The entries before the first whose filter raises: that ends a dispatch. */
  ghost function Asked(e: Event, entries: seq<Entry>): seq<Entry> {
    if entries == [] || RaisesOn(entries[0], e) then [] else [entries[0]] + Asked(e, entries[1..])
  }

  /** The handlers an event published now is due to reach: subscribers of its kind, then the wildcards, as far as
      their filters accept it and none has raised. */
  ghost function Due(trace: seq<Item>, e: Event): seq<nat> {
    HandlersOf(Filter(AcceptsEvent(e), Asked(e, Present(trace, e.kind) + PresentAll(trace))))
  }

  /** The handlers a dispatch did reach. */
  ghost function ReachedBy(trace: seq<Item>, id: nat): seq<nat> {
    if trace == [] then []
    else
      var last := trace[|trace| - 1];
      ReachedBy(trace[..|trace| - 1], id) + if last.Reached? && last.id == id then [last.handler] else []
  }

  ghost predicate ExactAt(trace: seq<Item>, p: nat)
    requires p < |trace|
  {
    trace[p].Began? ==> ReachedBy(trace[p..], trace[p].id) == Due(trace[..p], trace[p].event)
  }

  /** Every dispatch begun at or after `from` reached exactly the handlers due when it began. */
  ghost predicate Exact(trace: seq<Item>, from: nat) {
    forall p {:trigger ExactAt(trace, p)} :: from <= p < |trace| ==> ExactAt(trace, p)
  }

  ghost predicate IdsWithin(trace: seq<Item>, low: nat, high: nat) {
    forall i :: 0 <= i < |trace| && (trace[i].Began? || trace[i].Reached?) ==> low <= trace[i].id < high
  }

  ghost function Published(trace: seq<Item>): nat {
    if trace == [] then 0 else Published(trace[..|trace| - 1]) + if trace[|trace| - 1].Began? then 1 else 0
  }

  ghost function PublishedOf(trace: seq<Item>, kind: Kind): nat {
    if trace == [] then 0
    else
      var last := trace[|trace| - 1];
      PublishedOf(trace[..|trace| - 1], kind) + if last.Began? && last.event.kind == kind then 1 else 0
  }

  ghost function Dispatched(trace: seq<Item>): nat {
    if trace == [] then 0 else Dispatched(trace[..|trace| - 1]) + if trace[|trace| - 1].Reached? then 1 else 0
  }

  ghost function Failures(trace: seq<Item>): nat {
    if trace == [] then 0 else Failures(trace[..|trace| - 1]) + if trace[|trace| - 1].Failed? then 1 else 0
  }

  ghost function FailuresOf(trace: seq<Item>, kind: Kind): nat {
    if trace == [] then 0
    else
      var last := trace[|trace| - 1];
      FailuresOf(trace[..|trace| - 1], kind) + if last.Failed? && last.kind == kind then 1 else 0
  }

  /** An entry is present exactly if some subscription made it and no later unsubscription named its handler. */
  ghost predicate Stands(trace: seq<Item>, kind: Kind, entry: Entry, i: nat) {
    && i < |trace| && trace[i] == Subscribed(kind, entry)
    && forall j :: i < j < |trace| ==> trace[j] != Unsubscribed(kind, entry.handler)
  }

  /** A subscription that stood before the last item stands after it unless that item ends it. */
  lemma StandsNext(trace: seq<Item>, kind: Kind, entry: Entry)
    requires trace != []
    ensures var past, last := trace[..|trace| - 1], trace[|trace| - 1];
      (exists i: nat :: Stands(trace, kind, entry, i)) <==>
      last == Subscribed(kind, entry)
      || (last != Unsubscribed(kind, entry.handler) && exists i: nat :: Stands(past, kind, entry, i))
  {
    var past, last := trace[..|trace| - 1], trace[|trace| - 1];
    if i: nat :| Stands(past, kind, entry, i) && last != Unsubscribed(kind, entry.handler) {
      assert Stands(trace, kind, entry, i);
    }
    if i: nat :| Stands(trace, kind, entry, i) {
      if i < |past| {
        assert last != Unsubscribed(kind, entry.handler);
        assert Stands(past, kind, entry, i);
      }
    }
    if last == Subscribed(kind, entry) {
      assert Stands(trace, kind, entry, |past|);
    }
  }

  lemma {:induction false} PresentIffSubscriptionStands(trace: seq<Item>, kind: Kind, entry: Entry)
    ensures entry in Present(trace, kind) <==> exists i :: Stands(trace, kind, entry, i)
  {
    if trace != [] {
      var past, last := trace[..|trace| - 1], trace[|trace| - 1];
      PresentIffSubscriptionStands(past, kind, entry);
      StandsNext(trace, kind, entry);
      hide Stands;
      if last.Unsubscribed? {
        FilterMembers(OtherThan(last.handler), Present(past, kind));
      }
    }
  }

  lemma {:induction false} ReachedByConcat(xs: seq<Item>, ys: seq<Item>, id: nat)
    ensures ReachedBy(xs + ys, id) == ReachedBy(xs, id) + ReachedBy(ys, id)
  {
    if ys == [] {
      assert xs + ys == xs;
    } else {
      ReachedByConcat(xs, ys[..|ys| - 1], id);
      assert (xs + ys)[..|xs + ys| - 1] == xs + ys[..|ys| - 1];
    }
  }

  lemma {:induction false} ReachedByOthers(trace: seq<Item>, low: nat, high: nat, id: nat)
    requires IdsWithin(trace, low, high) && !(low <= id < high)
    ensures ReachedBy(trace, id) == []
  {
    if trace != [] {
      ReachedByOthers(trace[..|trace| - 1], low, high, id);
    }
  }

  /** Items of newer dispatches change nothing about an older one. */
  lemma ExactAtExtends(trace: seq<Item>, more: seq<Item>, p: nat, low: nat, high: nat)
    requires p < |trace| && ExactAt(trace, p)
    requires IdsWithin(more, low, high) && (trace[p].Began? ==> !(low <= trace[p].id < high))
    ensures ExactAt(trace + more, p)
  {
    if trace[p].Began? {
      assert (trace + more)[p..] == trace[p..] + more;
      assert (trace + more)[..p] == trace[..p];
      ReachedByConcat(trace[p..], more, trace[p].id);
      ReachedByOthers(more, low, high, trace[p].id);
    }
  }

  lemma ExactExtends(trace: seq<Item>, more: seq<Item>, from: nat, low: nat, high: nat)
    requires Exact(trace, from) && IdsWithin(trace, 0, low)
    requires IdsWithin(more, low, high) && Exact(trace + more, |trace|)
    ensures Exact(trace + more, from)
  {
    forall p | from <= p < |trace + more| ensures ExactAt(trace + more, p) {
      if p < |trace| {
        ExactAtExtends(trace, more, p, low, high);
      }
    }
  }

  /** The history in the middle of a dispatch that began after `past`: newer dispatches are done and exact. */
  ghost predicate Running(past: seq<Item>, began: Item, trace: seq<Item>, next: nat) {
    && began.Began? && began.id < next
    && past + [began] <= trace
    && IdsWithin(past, 0, began.id)
    && IdsWithin(trace[|past|..], began.id, next)
    && Exact(trace, |past| + 1)
    && (forall p :: |past| < p < |trace| && trace[p].Began? ==> trace[p].id > began.id)
  }

  lemma RunningStarts(past: seq<Item>, began: Item)
    requires began.Began? && IdsWithin(past, 0, began.id)
    ensures Running(past, began, past + [began], began.id + 1)
    ensures ReachedBy((past + [began])[|past|..], began.id) == []
  {
    assert (past + [began])[|past|..] == [began] && [began][..0] == [];
    assert ReachedBy([began][..0], began.id) == [];
  }

  /** Beginning, reaching and failing change no subscription. */
  lemma BeginningKeeps(past: seq<Item>, item: Item)
    requires item.Began? || item.Reached? || item.Failed?
    ensures forall kind :: Present(past + [item], kind) == Present(past, kind)
    ensures PresentAll(past + [item]) == PresentAll(past)
  {
    assert (past + [item])[..|past|] == past;
  }

  lemma BeginningCounts(past: seq<Item>, id: nat, e: Event)
    ensures var trace := past + [Began(id, e)];
      && Published(trace) == Published(past) + 1 && Dispatched(trace) == Dispatched(past)
      && Failures(trace) == Failures(past) && (forall kind :: FailuresOf(trace, kind) == FailuresOf(past, kind))
      && (forall kind :: PublishedOf(trace, kind) == PublishedOf(past, kind) + if e.kind == kind then 1 else 0)
  {
    assert (past + [Began(id, e)])[..|past|] == past;
  }

  lemma SubscribingPresent(past: seq<Item>, kind: Kind, entry: Entry)
    ensures var trace := past + [Subscribed(kind, entry)];
      && (forall k :: Present(trace, k) == Present(past, k) + if k == kind then [entry] else [])
      && PresentAll(trace) == PresentAll(past)
  {
    assert (past + [Subscribed(kind, entry)])[..|past|] == past;
  }

  lemma UnsubscribingPresent(past: seq<Item>, kind: Kind, handler: nat)
    ensures var trace := past + [Unsubscribed(kind, handler)];
      && (forall k :: Present(trace, k)
                   == if k == kind then Filter(OtherThan(handler), Present(past, k)) else Present(past, k))
      && PresentAll(trace) == PresentAll(past)
  {
    assert (past + [Unsubscribed(kind, handler)])[..|past|] == past;
  }

  lemma SubscribingCounts(past: seq<Item>, item: Item)
    requires item.Subscribed? || item.SubscribedAll? || item.Unsubscribed?
    ensures var trace := past + [item];
      && Published(trace) == Published(past) && Dispatched(trace) == Dispatched(past)
      && Failures(trace) == Failures(past)
      && (forall kind :: PublishedOf(trace, kind) == PublishedOf(past, kind))
      && (forall kind :: FailuresOf(trace, kind) == FailuresOf(past, kind))
  {
    assert (past + [item])[..|past|] == past;
  }

  lemma BeginningIsQuiet(past: seq<Item>, began: Item, kind: Kind)
    requires began.Began?
    ensures Present(past + [began], kind) == Present(past, kind)
    ensures PresentAll(past + [began]) == PresentAll(past)
  {
    assert (past + [began])[..|past|] == past;
  }

  lemma RunningReached(past: seq<Item>, began: Item, trace: seq<Item>, next: nat, item: Item)
    requires Running(past, began, trace, next)
    requires item.Failed? || (item.Reached? && item.id == began.id)
    ensures Running(past, began, trace + [item], next)
    ensures ReachedBy((trace + [item])[|past|..], began.id)
         == ReachedBy(trace[|past|..], began.id) + if item.Reached? then [item.handler] else []
  {
    forall p | |past| < p < |trace| + 1 ensures ExactAt(trace + [item], p) {
      if p < |trace| {
        ExactAtExtends(trace, [item], p, began.id, began.id + 1);
      }
    }
    var own := trace[|past|..];
    assert (trace + [item])[|past|..] == own + [item] && (own + [item])[..|own|] == own;
  }

  lemma RunningNested(past: seq<Item>, began: Item, trace: seq<Item>, next: nat, more: seq<Item>, next': nat)
    requires Running(past, began, trace, next) && next <= next'
    requires IdsWithin(more, next, next') && Exact(trace + more, |trace|)
    ensures Running(past, began, trace + more, next')
    ensures ReachedBy((trace + more)[|past|..], began.id) == ReachedBy(trace[|past|..], began.id)
  {
    assert IdsWithin(trace, 0, next) by {
      assert trace == past + trace[|past|..];
    }
    ExactExtends(trace, more, |past| + 1, next, next');
    var own := trace[|past|..];
    assert (trace + more)[|past|..] == own + more;
    ReachedByConcat(own, more, began.id);
    ReachedByOthers(more, next, next', began.id);
  }

  /** A dispatch with no handler left to reach is exact. */
  lemma DispatchDone(past: seq<Item>, began: Item, trace: seq<Item>, next: nat, handlers: seq<Entry>)
    requires Running(past, began, trace, next)
    requires handlers == Present(past, began.event.kind) + PresentAll(past)
    requires ReachedBy(trace[|past|..], began.id)
          == HandlersOf(Filter(AcceptsEvent(began.event), Asked(began.event, handlers)))
    ensures Exact(trace, |past|) && IdsWithin(trace[|past|..], began.id, next) && began.id < next
    ensures past <= trace && past + [began] <= trace
  {
    assert trace[..|past|] == past && trace[|past|] == began;
    assert ExactAt(trace, |past|);
  }

  /** While no filter has raised, every entry so far has been asked. */
  lemma {:induction false} AskedSoFar(e: Event, entries: seq<Entry>, i: nat)
    requires i <= |entries| && forall j :: 0 <= j < i ==> Judge(entries[j], e) != Raise
    ensures i == |entries| || Judge(entries[i], e) == Raise ==> Asked(e, entries) == entries[..i]
    decreases i
  {
    if i > 0 {
      AskedSoFar(e, entries[1..], i - 1);
      assert entries[..i] == [entries[0]] + entries[1..][..i - 1];
    }
  }

  lemma HandlersOfConcat(xs: seq<Entry>, ys: seq<Entry>)
    ensures HandlersOf(xs + ys) == HandlersOf(xs) + HandlersOf(ys)
  {
  }

  // ---------------------------------------------------------------------------------------------
  // Handlers that only publish
  // ---------------------------------------------------------------------------------------------

  /** Nothing but publications, by handlers that do not raise. */
  predicate Plain(acts: seq<Act>)
    decreases acts
  {
    forall i :: 0 <= i < |acts| ==> acts[i].Publish? && PlainCalls(acts[i].calls)
  }

  predicate PlainCalls(calls: seq<Call>)
    decreases calls
  {
    forall i :: 0 <= i < |calls| ==> !calls[i].raises && Plain(calls[i].acts)
  }

  /** The events dispatched, in the order their dispatches began. */
  ghost function Begun(trace: seq<Item>): seq<Event> {
    if trace == [] then []
    else
      var last := trace[|trace| - 1];
      Begun(trace[..|trace| - 1]) + if last.Began? then [last.event] else []
  }

  ghost function HasKind(kind: Kind): Event -> bool { (e: Event) => e.kind == kind }
  ghost function Reaches(): Item -> bool { (item: Item) => item.Reached? }
  ghost function Fails(): Item -> bool { (item: Item) => item.Failed? }
  ghost function FailsOn(kind: Kind): Item -> bool { (item: Item) => item.Failed? && item.kind == kind }

  /** What the bus counts: the dispatches begun, in all and of each kind, the handlers reached and the failures. */
  lemma {:induction false} CountersCount(trace: seq<Item>, kind: Kind)
    ensures Published(trace) == |Begun(trace)| && PublishedOf(trace, kind) == |Filter(HasKind(kind), Begun(trace))|
    ensures Dispatched(trace) == |Filter(Reaches(), trace)|
    ensures Failures(trace) == |Filter(Fails(), trace)| && FailuresOf(trace, kind) == |Filter(FailsOn(kind), trace)|
  {
    if trace != [] {
      var past, last := trace[..|trace| - 1], trace[|trace| - 1];
      CountersCount(past, kind);
      FilterLast(Reaches(), trace);
      FilterLast(Fails(), trace);
      FilterLast(FailsOn(kind), trace);
      if last.Began? {
        FilterLast(HasKind(kind), Begun(trace));
        assert Begun(trace)[..|Begun(past)|] == Begun(past);
      } else {
        assert Begun(trace) == Begun(past);
      }
    }
  }

  /** No filter raises, and so many handlers are due for each event. */
  ghost predicate Serves(trace: seq<Item>, due: Event -> nat) {
    && (forall e: Event, entry :: entry in Present(trace, e.kind) + PresentAll(trace) ==> Judge(entry, e) != Raise)
    && (forall e :: |Due(trace, e)| == due(e))
  }

  /** The events the first n acts publish, each followed by what its handlers publish in turn: the i-th handler due
      does what the i-th call says. */
  ghost function ActsOrder(due: Event -> nat, acts: seq<Act>, n: nat): seq<Event>
    decreases acts, n
  {
    if n == 0 then []
    else
      ActsOrder(due, acts, n - 1)
      + if n <= |acts| && acts[n - 1].Publish?
        then [acts[n - 1].event] + CallsOrder(due, acts[n - 1].calls, due(acts[n - 1].event)) else []
  }

  ghost function CallsOrder(due: Event -> nat, calls: seq<Call>, n: nat): seq<Event>
    decreases calls, n
  {
    if n == 0 then []
    else
      CallsOrder(due, calls, n - 1)
      + if n <= |calls| then ActsOrder(due, calls[n - 1].acts, |calls[n - 1].acts|) else []
  }

  lemma NoCalls(due: Event -> nat, calls: seq<Call>)
    ensures CallsOrder(due, calls, 0) == []
  {
  }

  lemma NextCall(due: Event -> nat, calls: seq<Call>, c: nat)
    ensures CallsOrder(due, calls, c + 1)
         == CallsOrder(due, calls, c)
            + if c < |calls| then ActsOrder(due, calls[c].acts, |calls[c].acts|) else []
  {
  }

  lemma ItemServes(trace: seq<Item>, item: Item, due: Event -> nat)
    requires item.Began? || item.Reached? || item.Failed?
    ensures Serves(trace, due) ==> Serves(trace + [item], due)
    ensures Begun(trace + [item]) == Begun(trace) + if item.Began? then [item.event] else []
  {
    assert (trace + [item])[..|trace|] == trace;
    BeginningKeeps(trace, item);
    assert forall e :: Due(trace + [item], e) == Due(trace, e);
  }

  /** All handlers of the list are asked, and those that accept are as many as are due. */
  lemma ServesHandlers(trace: seq<Item>, due: Event -> nat, e: Event, handlers: seq<Entry>)
    requires Serves(trace, due) && handlers == Present(trace, e.kind) + PresentAll(trace)
    ensures forall i :: 0 <= i < |handlers| ==> Judge(handlers[i], e) != Raise
    ensures |HandlersOf(Filter(AcceptsEvent(e), handlers))| == due(e)
  {
    assert forall i :: 0 <= i < |handlers| ==> handlers[i] in handlers;
    AskedSoFar(e, handlers, |handlers|);
    assert handlers[..|handlers|] == handlers;
    assert |Due(trace, e)| == due(e);
  }

  // ---------------------------------------------------------------------------------------------
  // The bus
  // ---------------------------------------------------------------------------------------------

  class EventBus {
    var subscribers: map<Kind, seq<Entry>>
    var wildcards: seq<Entry>
    var cache: map<Kind, seq<Entry>>
    var totalPublished: nat
    var totalDispatched: nat
    var totalErrors: nat
    var eventsByType: map<Kind, nat>
    var errorsByType: map<Kind, nat>
    ghost var trace: seq<Item>
    ghost var nextId: nat

    function Registered(kind: Kind): seq<Entry>
      reads `subscribers
    {
      if kind in subscribers then subscribers[kind] else []
    }

    /** Tables, cache and counters agree with the history. */
    ghost predicate Valid()
      reads this
    {
      && (forall kind :: Registered(kind) == Present(trace, kind))
      && wildcards == PresentAll(trace)
      && (forall kind :: kind in cache ==> cache[kind] == Present(trace, kind) + PresentAll(trace))
      && IdsWithin(trace, 0, nextId)
      && totalPublished == Published(trace) && totalDispatched == Dispatched(trace) && totalErrors == Failures(trace)
      && (forall kind :: (if kind in eventsByType then eventsByType[kind] else 0) == PublishedOf(trace, kind))
      && (forall kind :: (if kind in errorsByType then errorsByType[kind] else 0) == FailuresOf(trace, kind))
    }

    lemma CountsBegun()
      requires Valid()
      ensures totalPublished == |Begun(trace)|
    {
      CountersCount(trace, Kind(""));
    }

    constructor ()
      ensures Valid() && trace == []
    {
      subscribers, wildcards, cache, eventsByType, errorsByType := map[], [], map[], map[], map[];
      totalPublished, totalDispatched, totalErrors := 0, 0, 0;
      trace, nextId := [], 0;
    }

    method HandlersFor(kind: Kind) returns (handlers: seq<Entry>)
      requires Valid()
      modifies this`cache
      ensures Valid() && handlers == Present(trace, kind) + PresentAll(trace)
    {
      if kind in cache {
        return cache[kind];
      }
      handlers := Registered(kind) + wildcards;
      cache := cache[kind := handlers];
    }

    method AddSubscriber(kind: Kind, entry: Entry)
      requires Valid()
      modifies this`subscribers, this`cache, this`trace
      ensures Valid() && trace == old(trace) + [Subscribed(kind, entry)]
    {
      hide Published, PublishedOf, Dispatched, Failures, FailuresOf, Present, PresentAll;
      SubscribingCounts(trace, Subscribed(kind, entry));
      SubscribingPresent(trace, kind, entry);
      subscribers := subscribers[kind := Registered(kind) + [entry]];
      cache := map[];
      trace := trace + [Subscribed(kind, entry)];
    }

    method AddWildcard(entry: Entry)
      requires Valid()
      modifies this`wildcards, this`cache, this`trace
      ensures Valid() && trace == old(trace) + [SubscribedAll(entry)]
    {
      hide Published, PublishedOf, Dispatched, Failures, FailuresOf;
      SubscribingCounts(trace, SubscribedAll(entry));
      wildcards := wildcards + [entry];
      cache := map[];
      trace := trace + [SubscribedAll(entry)];
      assert trace[..|trace| - 1] == old(trace);
    }

    method Without(entries: seq<Entry>, handler: nat) returns (kept: seq<Entry>)
      ensures kept == Filter(OtherThan(handler), entries)
    {
      kept := [];
      for i := 0 to |entries|
        invariant kept == Filter(OtherThan(handler), entries[..i])
      {
        FilterNext(OtherThan(handler), entries, i);
        if entries[i].handler != handler {
          kept := kept + [entries[i]];
        }
      }
      assert entries[..|entries|] == entries;
    }

    /** Drops every entry of the handler; a kind left without entries leaves the table. */
    method RemoveSubscriber(kind: Kind, handler: nat)
      requires Valid()
      modifies this`subscribers, this`cache, this`trace
      ensures Valid() && trace == old(trace) + [Unsubscribed(kind, handler)]
    {
      hide Published, PublishedOf, Dispatched, Failures, FailuresOf, Present, PresentAll, Filter;
      SubscribingCounts(trace, Unsubscribed(kind, handler));
      UnsubscribingPresent(trace, kind, handler);
      var kept := Without(Registered(kind), handler);
      subscribers := if |kept| == 0 then subscribers - {kind} else subscribers[kind := kept];
      cache := map[];
      trace := trace + [Unsubscribed(kind, handler)];
    }

    /** What has happened since a given moment: the history has grown, dispatches begun since then carry new
        ids, and each of them is exact. */
    ghost predicate Since(past: seq<Item>, id: nat)
      reads `trace, `nextId
    {
      && id <= nextId && past <= trace
      && IdsWithin(trace[|past|..], id, nextId)
      && Exact(trace, |past|)
    }

    /** Since `before`, with so many handlers due for each event, the events planned have been dispatched and the
        handlers due are still the same. */
    ghost predicate Went(due: Event -> nat, before: seq<Item>, planned: seq<Event>)
      reads `trace
    {
      Serves(before, due) ==> Serves(trace, due) && Begun(trace) == Begun(before) + planned
    }

    /** Runs what a handler, or the program around the bus, does with the bus, until a publication raises. Handlers
        that only publish are dispatched to depth first. */
    method Perform(acts: seq<Act>, ghost due: Event -> nat) returns (raised: bool)
      requires Valid()
      modifies this
      ensures Valid() && Since(old(trace), old(nextId))
      ensures Plain(acts) && Serves(old(trace), due) ==> !raised
      ensures Plain(acts) ==> Went(due, old(trace), ActsOrder(due, acts, |acts|))
      decreases acts
    {
      hide Serves, Begun;
      raised := false;
      for i := 0 to |acts|
        invariant Valid() && Since(old(trace), old(nextId))
        invariant Plain(acts) ==> Went(due, old(trace), ActsOrder(due, acts, i))
      {
        ghost var past, id := trace, nextId;
        raised := false;
        match acts[i] {
          case Subscribe(kind, entry) => AddSubscriber(kind, entry);
          case SubscribeAll(entry) => AddWildcard(entry);
          case Unsubscribe(kind, handler) => RemoveSubscriber(kind, handler);
          case Publish(event, calls) => raised := PublishEvent(event, calls, due);
        }
        SinceAdds(old(trace), past, old(nextId), id);
        if raised {
          return;
        }
      }
    }

    lemma SinceAdds(before: seq<Item>, past: seq<Item>, oldId: nat, id: nat)
      requires oldId <= id && before <= past && IdsWithin(past, 0, id)
      requires IdsWithin(past[|before|..], oldId, id) && Exact(past, |before|)
      requires Since(past, id)
      ensures Since(before, oldId)
    {
      var more := trace[|past|..];
      assert trace == past + more;
      assert trace[|before|..] == past[|before|..] + more;
      ExactExtends(past, more, |before|, id, nextId);
    }

    method CountPublished(event: Event)
      requires Valid()
      modifies this`totalPublished, this`eventsByType, this`trace, this`nextId
      ensures Valid() && IdsWithin(old(trace), 0, old(nextId))
      ensures trace == old(trace) + [Began(old(nextId), event)] && nextId == old(nextId) + 1
    {
      hide Present, PresentAll, Published, PublishedOf, Dispatched, Failures, FailuresOf;
      BeginningKeeps(trace, Began(nextId, event));
      BeginningCounts(trace, nextId, event);
      totalPublished := totalPublished + 1;
      var sameKind := if event.kind in eventsByType then eventsByType[event.kind] else 0;
      eventsByType := eventsByType[event.kind := sameKind + 1];
      trace, nextId := trace + [Began(nextId, event)], nextId + 1;
    }

    /** Publishing in synchronous mode: count, then dispatch at once. */
    method PublishEvent(event: Event, calls: seq<Call>, ghost due: Event -> nat) returns (raised: bool)
      requires Valid()
      modifies this
      ensures Valid() && Since(old(trace), old(nextId))
      ensures |trace| > |old(trace)| && trace[|old(trace)|] == Began(old(nextId), event)
      ensures PlainCalls(calls) && Serves(old(trace), due) ==> !raised
      ensures PlainCalls(calls) ==> Went(due, old(trace), [event] + CallsOrder(due, calls, due(event)))
      decreases calls
    {
      hide Valid, Exact, IdsWithin, Serves, Begun;
      CountPublished(event);
      ItemServes(old(trace), Began(old(nextId), event), due);
      raised := Dispatch(event, calls, old(trace), Began(old(nextId), event), due);
    }

    method NoteReached(ghost id: nat, handler: nat)
      requires Valid() && id < nextId
      modifies this`totalDispatched, this`trace
      ensures Valid() && trace == old(trace) + [Reached(id, handler)]
    {
      hide Present, PresentAll;
      BeginningKeeps(trace, Reached(id, handler));
      totalDispatched := totalDispatched + 1;
      trace := trace + [Reached(id, handler)];
      assert trace[..|trace| - 1] == old(trace);
    }

    method NoteFailed(ghost id: nat, kind: Kind)
      requires Valid()
      modifies this`totalErrors, this`errorsByType, this`trace
      ensures Valid() && trace == old(trace) + [Failed(id, kind)]
    {
      hide Present, PresentAll;
      BeginningKeeps(trace, Failed(id, kind));
      totalErrors := totalErrors + 1;
      errorsByType := errorsByType[kind := (if kind in errorsByType then errorsByType[kind] else 0) + 1];
      trace := trace + [Failed(id, kind)];
      assert trace[..|trace| - 1] == old(trace);
    }

    /** One reached handler runs. It fails if it raises itself or lets a publication's exception through. */
    method RunHandler(call: Call, kind: Kind, ghost past: seq<Item>, ghost began: Item, ghost due: Event -> nat)
      requires Valid() && |past| < |trace| && Running(past, began, trace, nextId)
      modifies this
      ensures Valid() && |old(trace)| <= |trace| && Running(past, began, trace, nextId)
      ensures ReachedBy(trace[|past|..], began.id) == ReachedBy(old(trace)[|past|..], began.id)
      ensures !call.raises && Plain(call.acts) ==> Went(due, old(trace), ActsOrder(due, call.acts, |call.acts|))
      decreases call, 1
    {
      hide Valid, Running, Exact, ReachedBy, Serves, Begun;
      var raised := Perform(call.acts, due);
      ghost var more := trace[|old(trace)|..];
      assert trace == old(trace) + more;
      RunningNested(past, began, old(trace), old(nextId), more, nextId);
      if raised || call.raises {
        RunningReached(past, began, trace, nextId, Failed(began.id, kind));
        NoteFailed(began.id, kind);
      }
    }

    /** An accepting entry's handler is reached: it does what the c-th call says, if there is one. */
    method Reach(entry: Entry, calls: seq<Call>, c: nat, kind: Kind, ghost past: seq<Item>, ghost began: Item,
          ghost due: Event -> nat)
      requires Valid() && |past| < |trace| && Running(past, began, trace, nextId)
      modifies this
      ensures Valid() && |past| < |trace| && Running(past, began, trace, nextId)
      ensures ReachedBy(trace[|past|..], began.id) == ReachedBy(old(trace)[|past|..], began.id) + [entry.handler]
      ensures PlainCalls(calls) ==>
        Went(due, old(trace), if c < |calls| then ActsOrder(due, calls[c].acts, |calls[c].acts|) else [])
      decreases calls, 0
    {
      hide Valid, Exact, ReachedBy, Present, PresentAll, IdsWithin, Serves, Begun;
      ItemServes(trace, Reached(began.id, entry.handler), due);
      RunningReached(past, began, trace, nextId, Reached(began.id, entry.handler));
      NoteReached(began.id, entry.handler);
      if c < |calls| {
        RunHandler(calls[c], kind, past, began, due);
      }
    }

    /** Reaches the accepting handlers of the list as it was when the dispatch began. The c-th reached handler
        does what the c-th call of the script says, and nothing if there is none. A handler that raises is
        counted and the next one is still reached; a filter that raises ends the dispatch. */
    method Dispatch(event: Event, calls: seq<Call>, ghost past: seq<Item>, ghost began: Item, ghost due: Event -> nat)
      returns (raised: bool)
      requires Valid() && began.Began? && began.event == event
      requires trace == past + [began] && nextId == began.id + 1 && IdsWithin(past, 0, began.id)
      modifies this
      ensures Valid() && Since(past, began.id)
      ensures past + [began] <= trace
      ensures PlainCalls(calls) && Serves(old(trace), due) ==> !raised
      ensures PlainCalls(calls) ==> Went(due, old(trace), CallsOrder(due, calls, due(event)))
      decreases calls, 1
    {
      hide Valid, Running, Exact, ReachedBy, Present, PresentAll, IdsWithin, Asked, Filter, HandlersOf, Serves, Begun;
      hide Judge, AcceptsEvent, PlainCalls, CallsOrder, ActsOrder;
      RunningStarts(past, began);
      BeginningIsQuiet(past, began, event.kind);
      var handlers := HandlersFor(event.kind);
      var c := 0;
      NoHandlers(event, handlers);
      NoCalls(due, calls);
      if Serves(trace, due) {
        ServesHandlers(trace, due, event, handlers);
      }
      for i := 0 to |handlers|
        invariant Valid() && |past| < |trace| && Running(past, began, trace, nextId)
        invariant ReachedBy(trace[|past|..], began.id) == HandlersOf(Filter(AcceptsEvent(event), handlers[..i]))
        invariant forall j :: 0 <= j < i ==> Judge(handlers[j], event) != Raise
        invariant c == |HandlersOf(Filter(AcceptsEvent(event), handlers[..i]))|
        invariant PlainCalls(calls) ==> Went(due, old(trace), CallsOrder(due, calls, c))
      {
        NextHandler(event, handlers, i);
        var verdict := Judge(handlers[i], event);
        if verdict.Raise? {
          AskedSoFar(event, handlers, i);
          DispatchDone(past, began, trace, nextId, handlers);
          return true;
        }
        if verdict.Accept? {
          NextCall(due, calls, c);
          Reach(handlers[i], calls, c, event.kind, past, began, due);
          c := c + 1;
        }
      }
      AskedSoFar(event, handlers, |handlers|);
      assert handlers[..|handlers|] == handlers;
      DispatchDone(past, began, trace, nextId, handlers);
      return false;
    }
  }

  lemma NoHandlers(e: Event, handlers: seq<Entry>)
    ensures HandlersOf(Filter(AcceptsEvent(e), handlers[..0])) == []
  {
  }

  lemma NextHandler(e: Event, handlers: seq<Entry>, i: nat)
    requires i < |handlers|
    ensures HandlersOf(Filter(AcceptsEvent(e), handlers[..i + 1]))
         == HandlersOf(Filter(AcceptsEvent(e), handlers[..i]))
            + if Judge(handlers[i], e) == Accept then [handlers[i].handler] else []
  {
    FilterNext(AcceptsEvent(e), handlers, i);
    HandlersOfConcat(Filter(AcceptsEvent(e), handlers[..i]), [handlers[i]]);
  }
}
