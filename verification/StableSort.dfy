/** Sorting by time, keeping events of equal time in the order they were given. */
module StableSort {
  import opened Sequences

  datatype Event = Event(time: real, payload: int)

  predicate InOrder(es: seq<Event>) {
    forall i, j :: 0 <= i < j < |es| ==> es[i].time <= es[j].time
  }

  function At(time: real): Event -> bool {
    (e: Event) => e.time == time
  }

  /** Puts an event after all events that are not later. */
  function Insert(es: seq<Event>, e: Event): seq<Event> {
    if es == [] || es[|es| - 1].time <= e.time then es + [e]
    else Insert(es[..|es| - 1], e) + [es[|es| - 1]]
  }

  function SortByTime(es: seq<Event>): seq<Event> {
    if es == [] then [] else Insert(SortByTime(es[..|es| - 1]), es[|es| - 1])
  }

  /** In time order, with the events of each moment in their given order. */
  ghost predicate IsStableSort(given: seq<Event>, sorted: seq<Event>) {
    InOrder(sorted) && forall t :: Filter(At(t), sorted) == Filter(At(t), given)
  }

  lemma {:induction false} InsertKeepsOrder(es: seq<Event>, e: Event)
    requires InOrder(es)
    ensures InOrder(Insert(es, e))
    ensures forall x :: x in Insert(es, e) <==> x == e || x in es
  {
    if es != [] && es[|es| - 1].time > e.time {
      var rest, last := es[..|es| - 1], es[|es| - 1];
      InsertKeepsOrder(rest, e);
      assert es == rest + [last];
      var front := Insert(rest, e);
      forall i | 0 <= i < |front| ensures front[i].time <= last.time {
        assert front[i] in front;
        if front[i] in rest {
          var k :| 0 <= k < |rest| && rest[k] == front[i];
          assert es[k].time <= es[|es| - 1].time;
        }
      }
    }
  }

  lemma {:induction false} InsertKeepsMoments(es: seq<Event>, e: Event, t: real)
    requires InOrder(es)
    ensures Filter(At(t), Insert(es, e)) == Filter(At(t), es + [e])
  {
    if es != [] && es[|es| - 1].time > e.time {
      var rest, last := es[..|es| - 1], es[|es| - 1];
      InsertKeepsMoments(rest, e, t);
      assert es == rest + [last];
      FilterConcat(At(t), Insert(rest, e), [last]);
      FilterConcat(At(t), rest, [e]);
      FilterConcat(At(t), es, [e]);
      FilterConcat(At(t), rest, [last]);
    }
  }

  /** The function sorts stably. */
  lemma {:induction false} SortsStably(given: seq<Event>)
    ensures IsStableSort(given, SortByTime(given))
  {
    if given != [] {
      var rest, last := given[..|given| - 1], given[|given| - 1];
      SortsStably(rest);
      InsertKeepsOrder(SortByTime(rest), last);
      forall t ensures Filter(At(t), SortByTime(given)) == Filter(At(t), given) {
        InsertKeepsMoments(SortByTime(rest), last, t);
        FilterConcat(At(t), SortByTime(rest), [last]);
        FilterConcat(At(t), rest, [last]);
        assert given == rest + [last];
      }
    }
  }

  lemma {:induction false} SameMomentsSameOrder(a: seq<Event>, b: seq<Event>)
    requires InOrder(a) && InOrder(b) && forall t :: Filter(At(t), a) == Filter(At(t), b)
    ensures a == b
    decreases |a|
  {
    if a == [] {
      NothingAtAnyTime(b);
    } else if b == [] {
      NothingAtAnyTime(a);
    } else {
      EarliestFirst(a, b);
      EarliestFirst(b, a);
      var t := a[0].time;
      assert Filter(At(t), a)[0] == a[0] && Filter(At(t), b)[0] == b[0];
      forall u ensures Filter(At(u), a[1..]) == Filter(At(u), b[1..]) {
        assert Filter(At(u), a) == (if u == t then [a[0]] else []) + Filter(At(u), a[1..]);
        assert Filter(At(u), b) == (if u == t then [b[0]] else []) + Filter(At(u), b[1..]);
        if u == t {
          assert Filter(At(u), a)[1..] == Filter(At(u), a[1..]);
          assert Filter(At(u), b)[1..] == Filter(At(u), b[1..]);
        } else {
          assert Filter(At(u), a) == Filter(At(u), a[1..]);
          assert Filter(At(u), b) == Filter(At(u), b[1..]);
        }
      }
      SameMomentsSameOrder(a[1..], b[1..]);
      assert a == [a[0]] + a[1..] && b == [b[0]] + b[1..];
    }
  }

  lemma NothingAtAnyTime(es: seq<Event>)
    requires forall t :: Filter(At(t), es) == []
    ensures es == []
  {
    if es != [] {
      FilterMembers(At(es[0].time), es);
    }
  }

  lemma EarliestFirst(a: seq<Event>, b: seq<Event>)
    requires InOrder(a) && a != [] && b != [] && forall t :: Filter(At(t), a) == Filter(At(t), b)
    ensures a[0].time <= b[0].time
  {
    var t := b[0].time;
    FilterMembers(At(t), a);
    FilterMembers(At(t), b);
    assert b[0] in Filter(At(t), b);
    var k :| 0 <= k < |a| && a[k] == b[0];
  }

  /** There is only one stable sort of a list. */
  lemma StableSortIsUnique(given: seq<Event>, sorted: seq<Event>)
    ensures IsStableSort(given, sorted) <==> sorted == SortByTime(given)
  {
    SortsStably(given);
    if IsStableSort(given, sorted) {
      SameMomentsSameOrder(sorted, SortByTime(given));
    }
  }
}
