/** Sequences that keep the first element of each key, and sequences filtered in order. */
module Firsts {
  import opened Common

  function KeysOf<T(==), K(==)>(xs: seq<T>, key: T -> K): set<K> { set x | x in xs :: key(x) }

  function Distinct<T(==), K(==)>(xs: seq<T>, key: T -> K): seq<T> {
    if xs == [] then []
    else
      var before, last := Distinct(xs[..|xs| - 1], key), xs[|xs| - 1];
      if key(last) in KeysOf(before, key) then before else before + [last]
  }

  predicate DistinctOn<T(!new), K(==)>(xs: seq<T>, key: T -> K) {
    forall i, j :: 0 <= i < j < |xs| ==> key(xs[i]) != key(xs[j])
  }

  lemma KeysSnoc<T(!new), K>(xs: seq<T>, x: T, key: T -> K)
    ensures KeysOf(xs + [x], key) == KeysOf(xs, key) + {key(x)}
  {
    forall k | k in KeysOf(xs, key) + {key(x)}
      ensures k in KeysOf(xs + [x], key)
    {
      if k in KeysOf(xs, key) {
        var y :| y in xs && key(y) == k;
        assert y in xs + [x];
      } else {
        assert x in xs + [x];
      }
    }
  }

  lemma KeysConcat<T(!new), K>(a: seq<T>, b: seq<T>, key: T -> K)
    ensures KeysOf(a + b, key) == KeysOf(a, key) + KeysOf(b, key)
  {
    forall k | k in KeysOf(a, key) + KeysOf(b, key)
      ensures k in KeysOf(a + b, key)
    {
      var y :| (y in a || y in b) && key(y) == k;
      assert y in a + b;
    }
  }

  /** Distinct keys, the same keys, and only given elements. */
  lemma {:induction false} DistinctLaws<T(!new), K>(xs: seq<T>, key: T -> K)
    ensures DistinctOn(Distinct(xs, key), key)
    ensures KeysOf(Distinct(xs, key), key) == KeysOf(xs, key)
    ensures forall x :: x in Distinct(xs, key) ==> x in xs
    decreases |xs|
  {
    if xs != [] {
      var init, last := xs[..|xs| - 1], xs[|xs| - 1];
      assert xs == init + [last];
      DistinctLaws(init, key);
      KeysSnoc(init, last, key);
      var before := Distinct(init, key);
      if key(last) !in KeysOf(before, key) {
        KeysSnoc(before, last, key);
        forall i | 0 <= i < |before|
          ensures key(before[i]) != key(last)
        {
          assert before[i] in before;
        }
      }
    }
  }

  lemma DistinctSnoc<T(!new), K>(xs: seq<T>, x: T, key: T -> K)
    ensures var before := Distinct(xs, key);
            Distinct(xs + [x], key) == if key(x) in KeysOf(before, key) then before else before + [x]
  {
    assert (xs + [x])[..|xs|] == xs;
  }

  predicate NoneBefore<T(==,!new), K(==)>(xs: seq<T>, i: nat, key: T -> K)
    requires i < |xs|
  {
    forall j :: 0 <= j < i ==> key(xs[j]) != key(xs[i])
  }

  /** What is kept is exactly the first element of each key. */
  lemma {:induction false} DistinctIffFirst<T(!new), K>(xs: seq<T>, x: T, key: T -> K)
    ensures x in Distinct(xs, key) <==> exists i :: 0 <= i < |xs| && xs[i] == x && NoneBefore(xs, i, key)
    decreases |xs|
  {
    if xs != [] {
      var init, last := xs[..|xs| - 1], |xs| - 1;
      assert xs == init + [xs[last]];
      DistinctIffFirst(init, x, key);
      DistinctLaws(init, key);
      LastIsFirst(xs, key);
      assert forall i :: 0 <= i < last ==> (NoneBefore(init, i, key) <==> NoneBefore(xs, i, key));
    }
  }

  lemma LastIsFirst<T(!new), K>(xs: seq<T>, key: T -> K)
    requires xs != []
    ensures NoneBefore(xs, |xs| - 1, key) <==> key(xs[|xs| - 1]) !in KeysOf(xs[..|xs| - 1], key)
  {
    var init := xs[..|xs| - 1];
    if key(xs[|xs| - 1]) in KeysOf(init, key) {
      var y :| y in init && key(y) == key(xs[|xs| - 1]);
      var j :| 0 <= j < |init| && init[j] == y;
      assert key(xs[j]) == key(xs[|xs| - 1]);
    }
    forall j | 0 <= j < |xs| - 1
      ensures key(xs[j]) in KeysOf(init, key)
    {
      assert init[j] in init;
    }
  }

  /** Two elements of a sequence with distinct keys that share a key are one. */
  lemma SameKeySameElement<T(!new), K>(xs: seq<T>, key: T -> K, x: T, y: T)
    requires DistinctOn(xs, key) && x in xs && y in xs && key(x) == key(y)
    ensures x == y
  {
    var i :| 0 <= i < |xs| && xs[i] == x;
    var j :| 0 <= j < |xs| && xs[j] == y;
  }

  /** What `xs` adds to elements whose keys are `seen`. */
  function DistinctFrom<T(==), K(==)>(seen: set<K>, xs: seq<T>, key: T -> K): seq<T> {
    if xs == [] then []
    else
      var init, last := xs[..|xs| - 1], xs[|xs| - 1];
      DistinctFrom(seen, init, key) + if key(last) in seen + KeysOf(init, key) then [] else [last]
  }

  lemma {:induction false} DistinctConcat<T(!new), K>(a: seq<T>, b: seq<T>, key: T -> K)
    ensures Distinct(a + b, key) == Distinct(a, key) + DistinctFrom(KeysOf(a, key), b, key)
    decreases |b|
  {
    if b == [] {
      assert a + b == a;
    } else {
      var init := b[..|b| - 1];
      assert (a + b)[..|a + b| - 1] == a + init;
      DistinctConcat(a, init, key);
      DistinctLaws(a + init, key);
      KeysConcat(a, init, key);
    }
  }

  lemma {:induction false} DistinctFromConcat<T(!new), K>(seen: set<K>, a: seq<T>, b: seq<T>, key: T -> K)
    ensures DistinctFrom(seen, a + b, key) == DistinctFrom(seen, a, key) + DistinctFrom(seen + KeysOf(a, key), b, key)
    decreases |b|
  {
    if b == [] {
      assert a + b == a;
    } else {
      var init := b[..|b| - 1];
      assert (a + b)[..|a + b| - 1] == a + init;
      DistinctFromConcat(seen, a, init, key);
      KeysConcat(a, init, key);
    }
  }

  /** A key that does not occur need not be remembered. */
  lemma {:induction false} DistinctFromUnseen<T(!new), K>(seen: set<K>, k: K, xs: seq<T>, key: T -> K)
    requires k !in KeysOf(xs, key)
    ensures DistinctFrom(seen + {k}, xs, key) == DistinctFrom(seen, xs, key)
    decreases |xs|
  {
    if xs != [] {
      var init, last := xs[..|xs| - 1], xs[|xs| - 1];
      assert xs == init + [last];
      KeysSnoc(init, last, key);
      DistinctFromUnseen(seen, k, init, key);
    }
  }

  /** An element is kept if no element before it has its key. */
  lemma {:induction false} FirstIsKept<T(!new), K>(a: seq<T>, x: T, c: seq<T>, key: T -> K)
    requires key(x) !in KeysOf(a, key)
    ensures x in Distinct(a + [x] + c, key)
  {
    DistinctConcat(a + [x], c, key);
    assert (a + [x])[..|a|] == a;
    DistinctLaws(a, key);
  }

  /** Moving the first element of its key forward moves it in the result, and changes nothing else. */
  lemma {:induction false} DistinctMoved<T(!new), K>(a: seq<T>, b: seq<T>, x: T, c: seq<T>, key: T -> K)
    returns (p: seq<T>, q: seq<T>, r: seq<T>)
    requires key(x) !in KeysOf(a, key) && key(x) !in KeysOf(b, key)
    ensures p == Distinct(a, key) && p + q == Distinct(a + b, key)
    ensures Distinct(a + b + [x] + c, key) == p + q + [x] + r
    ensures Distinct(a + [x] + b + c, key) == p + [x] + q + r
  {
    var ka, kb, kx := KeysOf(a, key), KeysOf(b, key), {key(x)};
    p, q, r := Distinct(a, key), DistinctFrom(ka, b, key), DistinctFrom(ka + kb + kx, c, key);
    DistinctConcat(a, b, key);
    KeysConcat(a, b, key);
    DistinctThen(a + b, x, c, key);
    DistinctThenConcat(a, x, b, c, key);
    assert ka + kx + kb == ka + kb + kx;
  }

  /** A new key, and what comes after it. */
  lemma {:induction false} DistinctThen<T(!new), K>(a: seq<T>, x: T, c: seq<T>, key: T -> K)
    requires key(x) !in KeysOf(a, key)
    ensures Distinct(a + [x] + c, key) == Distinct(a, key) + [x] + DistinctFrom(KeysOf(a, key) + {key(x)}, c, key)
  {
    DistinctConcat(a + [x], c, key);
    KeysSnoc(a, x, key);
    DistinctSnoc(a, x, key);
    DistinctLaws(a, key);
  }

  lemma {:induction false} DistinctThenConcat<T(!new), K>(a: seq<T>, x: T, b: seq<T>, c: seq<T>, key: T -> K)
    requires key(x) !in KeysOf(a, key) && key(x) !in KeysOf(b, key)
    ensures var ka, kb, kx := KeysOf(a, key), KeysOf(b, key), {key(x)};
            Distinct(a + [x] + b + c, key) ==
            Distinct(a, key) + [x] + DistinctFrom(ka, b, key) + DistinctFrom(ka + kx + kb, c, key)
  {
    DistinctConcat(a + [x] + b, c, key);
    DistinctThen(a, x, b, key);
    KeysConcat(a + [x], b, key);
    KeysSnoc(a, x, key);
    DistinctFromUnseen(KeysOf(a, key), key(x), b, key);
  }

  // ---------------------------------------------------------------- filtering

  function Filter<T(==,!new)>(xs: seq<T>, keep: T -> bool): (r: seq<T>)
    ensures forall x :: x in r <==> x in xs && keep(x)
    ensures |r| <= |xs|
  {
    if xs == [] then []
    else
      assert xs == xs[..|xs| - 1] + [xs[|xs| - 1]];
      Filter(xs[..|xs| - 1], keep) + if keep(xs[|xs| - 1]) then [xs[|xs| - 1]] else []
  }

  lemma {:induction false} FilterConcat<T(!new)>(a: seq<T>, b: seq<T>, keep: T -> bool)
    ensures Filter(a + b, keep) == Filter(a, keep) + Filter(b, keep)
    decreases |b|
  {
    if b == [] {
      assert a + b == a;
    } else {
      assert (a + b)[..|a + b| - 1] == a + b[..|b| - 1];
      FilterConcat(a, b[..|b| - 1], keep);
    }
  }

  /** Filtering twice is filtering by both, however the conjunction is written. */
  lemma {:induction false} FilterTwice<T(!new)>(xs: seq<T>, f: T -> bool, g: T -> bool, both: T -> bool)
    requires forall x :: both(x) <==> f(x) && g(x)
    ensures Filter(Filter(xs, f), g) == Filter(xs, both)
    decreases |xs|
  {
    if xs != [] {
      var init, last := xs[..|xs| - 1], xs[|xs| - 1];
      FilterTwice(init, f, g, both);
      FilterConcat(Filter(init, f), if f(last) then [last] else [], g);
      assert [last][..0] == [];
    }
  }

  /** Any two elements in order stay in order, and stay two. */
  ghost predicate Ordered<T(!new)>(xs: seq<T>, r: (T, T) -> bool) {
    forall i, j :: 0 <= i < j < |xs| ==> r(xs[i], xs[j])
  }

  lemma {:induction false} FilterOrdered<T(!new)>(xs: seq<T>, keep: T -> bool, r: (T, T) -> bool)
    requires Ordered(xs, r)
    ensures Ordered(Filter(xs, keep), r)
    decreases |xs|
  {
    if xs != [] {
      var init, last := xs[..|xs| - 1], xs[|xs| - 1];
      FilterOrdered(init, keep, r);
      forall y | y in init
        ensures r(y, last)
      {
        var i :| 0 <= i < |init| && init[i] == y;
        assert r(xs[i], xs[|xs| - 1]);
      }
    }
  }

  /** Position `i` holds `x`, which passes the filter behind fewer than `k` others. */
  predicate Among<T(==,!new)>(xs: seq<T>, keep: T -> bool, k: nat, x: T, i: nat) {
    i < |xs| && xs[i] == x && keep(x) && |Filter(xs[..i], keep)| < k
  }

  predicate Picked<T(==,!new)>(xs: seq<T>, keep: T -> bool, k: nat, x: T) {
    exists i :: 0 <= i < |xs| && Among(xs, keep, k, x, i)
  }

  lemma PickedSnoc<T(!new)>(xs: seq<T>, keep: T -> bool, k: nat, x: T)
    requires xs != []
    ensures var init, last := xs[..|xs| - 1], xs[|xs| - 1];
            Picked(xs, keep, k, x) <==>
            Picked(init, keep, k, x) || (last == x && keep(x) && |Filter(init, keep)| < k)
  {
    var init, last := xs[..|xs| - 1], |xs| - 1;
    assert forall i :: 0 <= i < last ==> xs[..i] == init[..i];
    assert xs[..last] == init;
    if Picked(init, keep, k, x) {
      var i :| 0 <= i < |init| && Among(init, keep, k, x, i);
      assert Among(xs, keep, k, x, i);
    }
    if Picked(xs, keep, k, x) {
      var i :| 0 <= i < |xs| && Among(xs, keep, k, x, i);
      if i < last { assert Among(init, keep, k, x, i); }
    }
    if xs[last] == x && keep(x) && |Filter(init, keep)| < k { assert Among(xs, keep, k, x, last); }
  }

  /** The first `k` elements that pass a filter are those that pass it behind fewer than `k` others. */
  lemma {:induction false} TakeOfFilter<T(!new)>(xs: seq<T>, keep: T -> bool, k: nat, x: T)
    ensures x in Take(Filter(xs, keep), k) <==> Picked(xs, keep, k, x)
    decreases |xs|
  {
    if xs != [] {
      var init, last := xs[..|xs| - 1], xs[|xs| - 1];
      TakeOfFilter(init, keep, k, x);
      PickedSnoc(xs, keep, k, x);
      if keep(last) {
        assert Filter(xs, keep) == Filter(init, keep) + [last];
        TakeSnoc(Filter(init, keep), last, k, x);
      } else {
        assert Filter(xs, keep) == Filter(init, keep);
      }
    }
  }

  lemma TakeSnoc<T>(xs: seq<T>, last: T, k: nat, x: T)
    ensures x in Take(xs + [last], k) <==> x in Take(xs, k) || (x == last && |xs| < k)
  {
    if |xs| < k {
      assert Take(xs + [last], k) == Take(xs, k) + [last];
    } else {
      assert Take(xs + [last], k) == Take(xs, k);
    }
  }
}
