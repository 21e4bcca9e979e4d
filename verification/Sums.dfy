/** Totals over the keys of an insertion-ordered dictionary, and a step through a permutation. */
module Sums {
  import opened Basics

  predicate Distinct<T(==)>(keys: seq<T>) {
    forall i, j :: 0 <= i < j < |keys| ==> keys[i] != keys[j]
  }

  lemma DistinctSnoc<T>(keys: seq<T>, k: T)
    requires Distinct(keys) && k !in keys
    ensures Distinct(keys + [k])
  {
  }

  ghost function Sum(keys: seq<Symbol>, f: Symbol -> real): real {
    if keys == [] then 0.0 else Sum(keys[..|keys| - 1], f) + f(keys[|keys| - 1])
  }

  ghost function Count(keys: seq<Symbol>, p: Symbol -> bool): nat {
    if keys == [] then 0 else Count(keys[..|keys| - 1], p) + if p(keys[|keys| - 1]) then 1 else 0
  }

  /** Changing a function at one key changes the total by the difference there. */
  lemma {:induction false} SumUpdate(keys: seq<Symbol>, f: Symbol -> real, g: Symbol -> real, k: Symbol)
    requires Distinct(keys)
    requires forall x :: x in keys && x != k ==> f(x) == g(x)
    ensures Sum(keys, g) == Sum(keys, f) + if k in keys then g(k) - f(k) else 0.0
  {
    if keys != [] {
      var rest := keys[..|keys| - 1];
      SumUpdate(rest, f, g, k);
      assert keys == rest + [keys[|keys| - 1]];
    }
  }

  lemma {:induction false} CountUpdate(keys: seq<Symbol>, p: Symbol -> bool, q: Symbol -> bool, k: Symbol)
    requires Distinct(keys)
    requires forall x :: x in keys && x != k ==> p(x) == q(x)
    ensures Count(keys, q) == Count(keys, p)
            + if k in keys then (if q(k) then 1 else 0) - (if p(k) then 1 else 0) else 0
  {
    if keys != [] {
      var rest := keys[..|keys| - 1];
      CountUpdate(rest, p, q, k);
      assert keys == rest + [keys[|keys| - 1]];
    }
  }

  lemma {:induction false} SumOfSums(keys: seq<Symbol>, f: Symbol -> real, g: Symbol -> real, h: Symbol -> real)
    requires forall x :: x in keys ==> h(x) == f(x) + g(x)
    ensures Sum(keys, h) == Sum(keys, f) + Sum(keys, g)
  {
    if keys != [] {
      SumOfSums(keys[..|keys| - 1], f, g, h);
    }
  }

  lemma {:induction false} CountOfCounts(keys: seq<Symbol>, p: Symbol -> bool, q: Symbol -> bool, r: Symbol -> bool)
    requires forall x :: x in keys ==> (r(x) <==> p(x) || q(x)) && !(p(x) && q(x))
    ensures Count(keys, r) == Count(keys, p) + Count(keys, q)
  {
    if keys != [] {
      CountOfCounts(keys[..|keys| - 1], p, q, r);
    }
  }

  lemma {:induction false} CountIsSize(keys: seq<Symbol>, p: Symbol -> bool)
    requires Distinct(keys)
    ensures Count(keys, p) == |set k | k in keys && p(k)|
  {
    if keys != [] {
      var rest, last := keys[..|keys| - 1], keys[|keys| - 1];
      CountIsSize(rest, p);
      assert Distinct(rest) && last !in rest;
      SetNext(keys, p);
    }
  }

  lemma SetNext(keys: seq<Symbol>, p: Symbol -> bool)
    requires keys != []
    ensures var last := keys[|keys| - 1];
      (set k | k in keys && p(k)) == (set k | k in keys[..|keys| - 1] && p(k)) + if p(last) then {last} else {}
  {
    assert keys == keys[..|keys| - 1] + [keys[|keys| - 1]];
  }

  lemma {:induction false} SumSame(keys: seq<Symbol>, f: Symbol -> real, g: Symbol -> real)
    requires forall x :: x in keys ==> f(x) == g(x)
    ensures Sum(keys, f) == Sum(keys, g)
  {
    if keys != [] {
      SumSame(keys[..|keys| - 1], f, g);
    }
  }

  lemma {:induction false} CountSame(keys: seq<Symbol>, p: Symbol -> bool, q: Symbol -> bool)
    requires forall x :: x in keys ==> p(x) == q(x)
    ensures Count(keys, p) == Count(keys, q)
  {
    if keys != [] {
      CountSame(keys[..|keys| - 1], p, q);
    }
  }

  lemma SumNext(keys: seq<Symbol>, i: nat, f: Symbol -> real)
    requires i < |keys|
    ensures Sum(keys[..i + 1], f) == Sum(keys[..i], f) + f(keys[i])
  {
    assert keys[..i + 1][..i] == keys[..i];
  }

  lemma CountNext(keys: seq<Symbol>, i: nat, p: Symbol -> bool)
    requires i < |keys|
    ensures Count(keys[..i + 1], p) == Count(keys[..i], p) + if p(keys[i]) then 1 else 0
  {
    assert keys[..i + 1][..i] == keys[..i];
  }

  lemma SumSnoc(keys: seq<Symbol>, k: Symbol, f: Symbol -> real)
    ensures Sum(keys + [k], f) == Sum(keys, f) + f(k)
  {
    assert (keys + [k])[..|keys|] == keys;
  }

  lemma CountSnoc(keys: seq<Symbol>, k: Symbol, p: Symbol -> bool)
    ensures Count(keys + [k], p) == Count(keys, p) + if p(k) then 1 else 0
  {
    assert (keys + [k])[..|keys|] == keys;
  }

  /** Where the last element of a sequence sits in a permutation of it. */
  lemma FindLast<T>(xs: seq<T>, ys: seq<T>) returns (i: nat)
    requires xs != [] && multiset(xs) == multiset(ys)
    ensures i < |ys| && ys[i] == xs[|xs| - 1]
    ensures multiset(xs[..|xs| - 1]) == multiset(ys[..i] + ys[i + 1..])
  {
    var last := |xs| - 1;
    var x := xs[last];
    assert x in multiset(ys);
    i :| 0 <= i < |ys| && ys[i] == x;
    assert ys == ys[..i] + [ys[i]] + ys[i + 1..];
    assert multiset(ys[..i] + ys[i + 1..]) == multiset(ys) - multiset{x};
    assert xs == xs[..last] + [x];
    assert multiset(xs[..last]) == multiset(xs) - multiset{x};
  }
}
