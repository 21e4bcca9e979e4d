/** Selecting from and removing from lists, as the engine's collect-then-remove loops do. */
module Sequences {

  function Filter<T>(p: T -> bool, xs: seq<T>): seq<T> {
    if xs == [] then [] else (if p(xs[0]) then [xs[0]] else []) + Filter(p, xs[1..])
  }

  /** Drops the first element that matches. */
  function RemoveFirst<T>(matches: T -> bool, xs: seq<T>): seq<T> {
    if xs == [] then [] else if matches(xs[0]) then xs[1..] else [xs[0]] + RemoveFirst(matches, xs[1..])
  }

  lemma {:induction false} FilterConcat<T>(p: T -> bool, xs: seq<T>, ys: seq<T>)
    ensures Filter(p, xs + ys) == Filter(p, xs) + Filter(p, ys)
  {
    if xs == [] {
      assert xs + ys == ys;
    } else {
      FilterConcat(p, xs[1..], ys);
      assert (xs + ys)[1..] == xs[1..] + ys && (xs + ys)[0] == xs[0];
      var head := if p(xs[0]) then [xs[0]] else [];
      assert head + (Filter(p, xs[1..]) + Filter(p, ys)) == (head + Filter(p, xs[1..])) + Filter(p, ys);
    }
  }

  lemma FilterNext<T>(p: T -> bool, xs: seq<T>, i: nat)
    requires i < |xs|
    ensures Filter(p, xs[..i + 1]) == Filter(p, xs[..i]) + if p(xs[i]) then [xs[i]] else []
  {
    assert xs[..i + 1] == xs[..i] + [xs[i]];
    FilterConcat(p, xs[..i], [xs[i]]);
  }

  lemma FilterLast<T>(p: T -> bool, xs: seq<T>)
    requires xs != []
    ensures Filter(p, xs) == Filter(p, xs[..|xs| - 1]) + if p(xs[|xs| - 1]) then [xs[|xs| - 1]] else []
  {
    FilterNext(p, xs, |xs| - 1);
    assert xs[..|xs| - 1 + 1] == xs;
  }

  lemma {:induction false} FilterMembers<T>(p: T -> bool, xs: seq<T>)
    ensures forall x :: x in Filter(p, xs) <==> x in xs && p(x)
  {
    if xs != [] {
      FilterMembers(p, xs[1..]);
    }
  }

  lemma {:induction false} FilterAll<T>(p: T -> bool, xs: seq<T>)
    requires forall x :: x in xs ==> p(x)
    ensures Filter(p, xs) == xs
  {
    if xs != [] {
      FilterAll(p, xs[1..]);
    }
  }

  lemma {:induction false} FilterEmpty<T>(p: T -> bool, xs: seq<T>)
    requires forall x :: x in xs ==> !p(x)
    ensures Filter(p, xs) == []
  {
    if xs != [] {
      FilterEmpty(p, xs[1..]);
    }
  }

  lemma {:induction false} FilterNone<T>(p: T -> bool, xs: seq<T>)
    requires Filter(p, xs) == []
    ensures forall x :: x in xs ==> !p(x)
  {
    if xs != [] {
      FilterNone(p, xs[1..]);
    }
  }

  /** Selecting from a selection that keeps everything wanted. */
  lemma {:induction false} FilterWithin<T>(p: T -> bool, q: T -> bool, xs: seq<T>)
    requires forall x :: x in xs && p(x) ==> q(x)
    ensures Filter(p, Filter(q, xs)) == Filter(p, xs)
  {
    if xs != [] {
      FilterWithin(p, q, xs[1..]);
      FilterConcat(p, if q(xs[0]) then [xs[0]] else [], Filter(q, xs[1..]));
    }
  }

  /** Removing the first selected element takes it off the front of the selection and leaves the rest of
      the list as it was. */
  lemma {:induction false} RemoveSelected<T>(p: T -> bool, q: T -> bool, matches: T -> bool, xs: seq<T>)
    requires forall x :: x in xs ==> (q(x) <==> !p(x)) && (matches(x) ==> p(x))
    requires Filter(p, xs) != [] && matches(Filter(p, xs)[0])
    ensures Filter(p, RemoveFirst(matches, xs)) == Filter(p, xs)[1..]
    ensures Filter(q, RemoveFirst(matches, xs)) == Filter(q, xs)
    ensures forall x :: x in RemoveFirst(matches, xs) ==> x in xs
  {
    if !p(xs[0]) {
      RemoveSelected(p, q, matches, xs[1..]);
      assert RemoveFirst(matches, xs)[1..] == RemoveFirst(matches, xs[1..]);
    }
  }
}
