/** Fusing first-stage and reranker scores (codeintel/domain/reranking.py), over the reals. */
module Reranking {
  import opened Common

  datatype Hit = Hit(score: real, path: string, startLine: nat)

  datatype Failure = LengthMismatch

  // ---------------------------------------------------------------- normalisation

  function Least(values: seq<real>): real
    requires values != []
  {
    if |values| == 1 then values[0]
    else var before, last := Least(values[..|values| - 1]), values[|values| - 1]; if last < before then last else before
  }

  function Greatest(values: seq<real>): real
    requires values != []
  {
    if |values| == 1 then values[0]
    else
      var before, last := Greatest(values[..|values| - 1]), values[|values| - 1];
      if last > before then last else before
  }

  lemma {:induction false} Extremes(values: seq<real>)
    requires values != []
    ensures forall i :: 0 <= i < |values| ==> Least(values) <= values[i] <= Greatest(values)
    ensures Least(values) in values && Greatest(values) in values
    decreases |values|
  {
    if |values| > 1 { Extremes(values[..|values| - 1]); }
  }

  /** One value on the scale from `lo` to `hi`. */
  function Scaled(v: real, lo: real, hi: real): real {
    if hi - lo <= 0.0 then 0.5 else (v - lo) / (hi - lo)
  }

  function Normalized(values: seq<real>): (r: seq<real>)
    ensures |r| == |values|
  {
    if values == [] then []
    else
      var lo, hi := Least(values), Greatest(values);
      seq(|values|, i requires 0 <= i < |values| => Scaled(values[i], lo, hi))
  }

  lemma Times(w: real, x: real, y: real)
    requires w >= 0.0 && x <= y
    ensures w * x <= w * y
  {
    assert w * y - w * x == w * (y - x);
  }

  lemma Scale(a: real, x: real, y: real)
    requires a > 0.0
    ensures x < y <==> a * x < a * y
  {
    assert a * y - a * x == a * (y - x);
  }

  /** Dividing by a positive span keeps order, strictly, and sends the span to 1. */
  lemma QuotientLaws(a: real, b: real, span: real)
    requires span > 0.0 && 0.0 <= a <= b <= span
    ensures 0.0 <= a / span <= b / span <= 1.0
    ensures a < b ==> a / span < b / span
  {
    var p, q := a / span, b / span;
    assert span * p == a && span * q == b;
    Scale(span, p, 0.0);
    Scale(span, q, p);
    Scale(span, p, q);
    Scale(span, 1.0, q);
  }

  /** Normalising keeps order and lands in [0, 1]. */
  lemma NormalizedLaws(values: seq<real>, i: nat, j: nat)
    requires i < |values| && j < |values| && values[i] <= values[j]
    ensures 0.0 <= Normalized(values)[i] <= Normalized(values)[j] <= 1.0
    ensures values[i] < values[j] ==> Normalized(values)[i] < Normalized(values)[j]
  {
    var lo, hi := Least(values), Greatest(values);
    Extremes(values);
    if hi - lo > 0.0 { QuotientLaws(values[i] - lo, values[j] - lo, hi - lo); }
  }

  ghost predicate Increasing(g: real -> real) { forall x, y :: x < y ==> g(x) < g(y) }

  function Mapped(values: seq<real>, g: real -> real): (r: seq<real>)
    ensures |r| == |values|
  {
    seq(|values|, i requires 0 <= i < |values| => g(values[i]))
  }

  lemma {:induction false} ExtremesOfMapped(values: seq<real>, g: real -> real)
    requires values != [] && Increasing(g)
    ensures Least(Mapped(values, g)) == g(Least(values)) && Greatest(Mapped(values, g)) == g(Greatest(values))
    decreases |values|
  {
    if |values| > 1 {
      var init, last := values[..|values| - 1], values[|values| - 1];
      assert Mapped(values, g)[..|values| - 1] == Mapped(init, g);
      ExtremesOfMapped(init, g);
    }
  }

  function At(a: real, b: real, v: real): real { a * v + b }

  function Affine(a: real, b: real): real -> real { (v: real) => At(a, b, v) }

  lemma AffineIncreasing(a: real, b: real)
    requires a > 0.0
    ensures Increasing(Affine(a, b))
  {
    var g := Affine(a, b);
    forall x: real, y: real | x < y
      ensures g(x) < g(y)
    {
      Scale(a, x, y);
      assert At(a, b, x) < At(a, b, y);
    }
  }

  lemma ScaledAffine(v: real, lo: real, hi: real, a: real, b: real)
    requires a > 0.0
    ensures Scaled(At(a, b, v), At(a, b, lo), At(a, b, hi)) == Scaled(v, lo, hi)
  {
    assert At(a, b, hi) - At(a, b, lo) == a * (hi - lo);
    assert At(a, b, v) - At(a, b, lo) == a * (v - lo);
    Scale(a, 0.0, hi - lo);
    if hi - lo > 0.0 { Cancel(a, v - lo, hi - lo); }
  }

  lemma Cancel(a: real, x: real, y: real)
    requires a > 0.0 && y > 0.0 && a * y > 0.0
    ensures (a * x) / (a * y) == x / y
  {
    var q := x / y;
    assert x == q * y;
    assert a * x == q * (a * y);
  }

  lemma NormalizedAt(values: seq<real>, i: nat)
    requires i < |values|
    ensures Normalized(values)[i] == Scaled(values[i], Least(values), Greatest(values))
  {
  }

  /** Rescaling all values by one positive affine map changes nothing after normalisation. */
  lemma NormalizedAffine(values: seq<real>, a: real, b: real)
    requires a > 0.0
    ensures Normalized(Mapped(values, Affine(a, b))) == Normalized(values)
  {
    var mapped := Mapped(values, Affine(a, b));
    if values != [] {
      AffineIncreasing(a, b);
      ExtremesOfMapped(values, Affine(a, b));
      forall i | 0 <= i < |values|
        ensures Normalized(mapped)[i] == Normalized(values)[i]
      {
        NormalizedAt(values, i);
        NormalizedAt(mapped, i);
        ScaledAffine(values[i], Least(values), Greatest(values), a, b);
      }
    }
  }

  // ---------------------------------------------------------------- fusion

  function Clamped(blend: real): real { if blend < 0.0 then 0.0 else if blend > 1.0 then 1.0 else blend }

  function ScoresOf(hits: seq<Hit>): (r: seq<real>)
    ensures |r| == |hits|
  {
    seq(|hits|, i requires 0 <= i < |hits| => hits[i].score)
  }

  function Blend(w: real, rerank: real, base: real): real {
    var v := 1.0 - w;
    w * rerank + v * base
  }

  function Fused(hits: seq<Hit>, scores: seq<real>, blend: real): (r: seq<real>)
    requires |hits| == |scores|
    ensures |r| == |hits|
  {
    var base, rerank := Normalized(ScoresOf(hits)), Normalized(scores);
    seq(|hits|, i requires 0 <= i < |hits| => Blend(Clamped(blend), rerank[i], base[i]))
  }

  lemma BetweenTimes(w: real, x: real, y: real)
    requires w >= 0.0 && 0.0 <= x <= y <= 1.0
    ensures 0.0 <= w * x <= w * y <= w
  {
    Times(w, 0.0, x);
    Times(w, x, y);
    Times(w, y, 1.0);
  }

  lemma WeightedLaws(w: real, v: real, r: real, b: real, r': real, b': real)
    requires 0.0 <= w && 0.0 <= v && 0.0 <= r' <= r <= 1.0 && 0.0 <= b' <= b <= 1.0
    ensures 0.0 <= w * r' + v * b' <= w * r + v * b <= w + v
  {
    BetweenTimes(w, r', r);
    BetweenTimes(v, b', b);
  }

  lemma BlendLaws(w: real, r: real, b: real, r': real, b': real)
    requires 0.0 <= w <= 1.0 && 0.0 <= r' <= r <= 1.0 && 0.0 <= b' <= b <= 1.0
    ensures 0.0 <= Blend(w, r', b') <= Blend(w, r, b) <= 1.0
  {
    WeightedLaws(w, 1.0 - w, r, b, r', b');
  }

  /** A hit at least as good on both signals fuses at least as high; every fused score lies in [0, 1]. */
  lemma FusedLaws(hits: seq<Hit>, scores: seq<real>, blend: real, i: nat, j: nat)
    requires |hits| == |scores| && i < |hits| && j < |hits| && hits[j].score <= hits[i].score && scores[j] <= scores[i]
    ensures 0.0 <= Fused(hits, scores, blend)[j] <= Fused(hits, scores, blend)[i] <= 1.0
  {
    NormalizedLaws(ScoresOf(hits), j, i);
    NormalizedLaws(scores, j, i);
    BlendLaws(Clamped(blend), Normalized(scores)[i], Normalized(ScoresOf(hits))[i], Normalized(scores)[j],
              Normalized(ScoresOf(hits))[j]);
  }

  // ---------------------------------------------------------------- the order

  /** Higher fused score first; the earlier candidate on a tie. */
  predicate Before(f: seq<real>, i: nat, j: nat)
    requires i < |f| && j < |f|
  {
    f[i] > f[j] || (f[i] == f[j] && i < j)
  }

  function Place(f: seq<real>, order: seq<nat>, i: nat): seq<nat>
    requires i < |f| && forall k :: 0 <= k < |order| ==> order[k] < |f|
  {
    if order == [] || Before(f, order[|order| - 1], i) then order + [i]
    else Place(f, order[..|order| - 1], i) + [order[|order| - 1]]
  }

  predicate InOrder(f: seq<real>, order: seq<nat>) {
    && (forall k :: 0 <= k < |order| ==> order[k] < |f|)
    && (forall a, b :: 0 <= a < b < |order| ==> Before(f, order[a], order[b]))
  }

  lemma {:induction false} PlaceLaws(f: seq<real>, order: seq<nat>, i: nat)
    requires i < |f| && InOrder(f, order) && i !in order
    ensures var r := Place(f, order, i);
            InOrder(f, r) && |r| == |order| + 1 && forall k :: k in r <==> k in order || k == i
    decreases |order|
  {
    if order != [] && !Before(f, order[|order| - 1], i) {
      var init, last := order[..|order| - 1], order[|order| - 1];
      assert order == init + [last];
      PlaceLaws(f, init, i);
      var inner := Place(f, init, i);
      forall k | 0 <= k < |inner|
        ensures Before(f, inner[k], last)
      {
        assert inner[k] in inner;
        if inner[k] != i { FrontIsBefore(f, order, inner[k]); }
      }
    }
  }

  lemma FrontIsBefore(f: seq<real>, order: seq<nat>, x: nat)
    requires order != [] && InOrder(f, order) && x in order[..|order| - 1]
    ensures x < |f| && Before(f, x, order[|order| - 1])
  {
    var j :| 0 <= j < |order| - 1 && order[j] == x;
  }

  /** The first `n` candidates in order of their fused scores. */
  function Ranked(f: seq<real>, n: nat): (order: seq<nat>)
    requires n <= |f|
    ensures InOrder(f, order) && |order| == n && forall i :: i in order <==> 0 <= i < n
  {
    if n == 0 then []
    else PlaceLaws(f, Ranked(f, n - 1), n - 1); Place(f, Ranked(f, n - 1), n - 1)
  }

  predicate SameElements(a: seq<nat>, b: seq<nat>) {
    (forall i :: i in a ==> i in b) && (forall i :: i in b ==> i in a)
  }

  /** There is only one such order: any list of all the candidates, each before the next, is the ranking. */
  lemma {:induction false} OrderIsUnique(f: seq<real>, a: seq<nat>, b: seq<nat>)
    requires InOrder(f, a) && InOrder(f, b) && SameElements(a, b)
    ensures a == b
    decreases |a|
  {
    if b != [] { assert b[0] in b; }
    if a != [] {
      assert a[|a| - 1] in a;
      var x, y := a[|a| - 1], b[|b| - 1];
      LastIsLast(f, a, b);
      FrontInOrder(f, a);
      FrontInOrder(f, b);
      OrderIsUnique(f, a[..|a| - 1], b[..|b| - 1]);
      assert a == a[..|a| - 1] + [x] && b == b[..|b| - 1] + [y];
    }
  }

  lemma FrontInOrder(f: seq<real>, a: seq<nat>)
    requires InOrder(f, a) && a != []
    ensures InOrder(f, a[..|a| - 1])
  {
  }

  lemma LastIsLast(f: seq<real>, a: seq<nat>, b: seq<nat>)
    requires InOrder(f, a) && InOrder(f, b) && SameElements(a, b) && a != [] && b != []
    ensures a[|a| - 1] == b[|b| - 1]
    ensures SameElements(a[..|a| - 1], b[..|b| - 1])
  {
    var x, y := a[|a| - 1], b[|b| - 1];
    assert x in a && y in b;
    var i :| 0 <= i < |b| && b[i] == x;
    var j :| 0 <= j < |a| && a[j] == y;
    assert x == y;
    var initA, initB := a[..|a| - 1], b[..|b| - 1];
    forall k | k in initA || k in initB
      ensures k in initA && k in initB
    {
      Front(f, a, k);
      Front(f, b, k);
    }
  }

  lemma Front(f: seq<real>, a: seq<nat>, k: nat)
    requires InOrder(f, a) && a != []
    ensures k in a[..|a| - 1] <==> k in a && k != a[|a| - 1]
  {
    if k in a && k != a[|a| - 1] {
      var i :| 0 <= i < |a| && a[i] == k;
      assert a[..|a| - 1][i] == k;
    }
    if k in a[..|a| - 1] { FrontIsBefore(f, a, k); }
  }

  // ---------------------------------------------------------------- the reranked list

  function Picked(hits: seq<Hit>, f: seq<real>, order: seq<nat>): (r: seq<Hit>)
    requires |f| == |hits| && forall k :: 0 <= k < |order| ==> order[k] < |hits|
    ensures |r| == |order|
  {
    seq(|order|, k requires 0 <= k < |order| => hits[order[k]].(score := f[order[k]]))
  }

  function Reranked(hits: seq<Hit>, scores: seq<real>, blend: real): Result<seq<Hit>, Failure> {
    if |hits| != |scores| then Err(LengthMismatch)
    else var f := Fused(hits, scores, blend); Ok(Picked(hits, f, Ranked(f, |hits|)))
  }

  method RerankHits(hits: seq<Hit>, scores: seq<real>, blend: real) returns (r: Result<seq<Hit>, Failure>)
    ensures r == Reranked(hits, scores, blend)
  {
    if |hits| != |scores| { return Err(LengthMismatch); }
    var weight := Clamped(blend);
    var base, rerank := Normalized(ScoresOf(hits)), Normalized(scores);
    ghost var f := Fused(hits, scores, blend);
    var scored: seq<(real, nat, Hit)> := [];
    for index := 0 to |hits|
      invariant |scored| == index && forall i :: 0 <= i < index ==> scored[i] == (f[i], i, hits[i])
    {
      var fused := Blend(weight, rerank[index], base[index]);
      scored := scored + [(fused, index, hits[index])];
    }
    var fused := seq(|scored|, i requires 0 <= i < |scored| => scored[i].0);
    assert fused == f;
    var order := Ranked(fused, |hits|);
    var out := seq(|order|, k requires 0 <= k < |order| => scored[order[k]].2.(score := scored[order[k]].0));
    assert out == Picked(hits, f, order);
    r := Ok(out);
  }

  /** Where candidate `i` ends up. */
  lemma Position(f: seq<real>, i: nat) returns (p: nat)
    requires i < |f|
    ensures p < |f| && Ranked(f, |f|)[p] == i
  {
    assert i in Ranked(f, |f|);
    p :| 0 <= p < |f| && Ranked(f, |f|)[p] == i;
  }

  /** The result is a permutation of the candidates, sorted by a score in [0, 1], ties in candidate order. */
  lemma RerankedIsSortedPermutation(hits: seq<Hit>, scores: seq<real>, blend: real)
    requires |hits| == |scores|
    ensures var f, r := Fused(hits, scores, blend), Reranked(hits, scores, blend).value;
            var order := Ranked(f, |hits|);
            && |r| == |hits| && InOrder(f, order) && (forall i :: i in order <==> 0 <= i < |hits|)
            && (forall k :: 0 <= k < |r| ==> r[k] == hits[order[k]].(score := f[order[k]]) && 0.0 <= r[k].score <= 1.0)
            && (forall a, b :: 0 <= a < b < |r| ==>
                r[a].score > r[b].score || (r[a].score == r[b].score && order[a] < order[b]))
  {
    var f := Fused(hits, scores, blend);
    forall i | 0 <= i < |hits|
      ensures 0.0 <= f[i] <= 1.0
    {
      FusedLaws(hits, scores, blend, i, i);
    }
    var order := Ranked(f, |hits|);
    assert forall k :: 0 <= k < |order| ==> order[k] in order;
  }

  lemma BeforeAt(f: seq<real>, order: seq<nat>, a: nat, b: nat)
    requires InOrder(f, order) && a < b < |order|
    ensures Before(f, order[a], order[b])
  {
  }

  lemma OrderFollows(f: seq<real>, order: seq<nat>, a: nat, b: nat)
    requires InOrder(f, order) && a < |order| && b < |order| && order[a] < order[b] && f[order[a]] >= f[order[b]]
    ensures a < b
  {
    if b < a { BeforeAt(f, order, b, a); }
  }

  /** No hit falls below a later one that it matches or beats on both signals: `i` stays above `j`. */
  lemma DominanceIsKept(hits: seq<Hit>, scores: seq<real>, blend: real, i: nat, j: nat) returns (a: nat, b: nat)
    requires |hits| == |scores| && i < j < |hits| && hits[i].score >= hits[j].score && scores[i] >= scores[j]
    ensures a < b < |hits|
    ensures var order := Ranked(Fused(hits, scores, blend), |hits|); order[a] == i && order[b] == j
  {
    var f := Fused(hits, scores, blend);
    a := Position(f, i);
    b := Position(f, j);
    FusedLaws(hits, scores, blend, i, j);
    OrderFollows(f, Ranked(f, |hits|), a, b);
  }

  function Counting(n: nat): seq<nat> { seq(n, i requires 0 <= i < n => i) }

  lemma FusedAtZero(hits: seq<Hit>, scores: seq<real>, blend: real, i: nat)
    requires |hits| == |scores| && blend <= 0.0 && i < |hits|
    ensures Fused(hits, scores, blend)[i] == Normalized(ScoresOf(hits))[i]
  {
    assert Clamped(blend) == 0.0;
    assert Blend(0.0, Normalized(scores)[i], Normalized(ScoresOf(hits))[i]) == Normalized(ScoresOf(hits))[i];
  }

  lemma CountingInOrder(f: seq<real>)
    requires forall i, j :: 0 <= i < j < |f| ==> f[i] >= f[j]
    ensures Ranked(f, |f|) == Counting(|f|)
  {
    var counting := Counting(|f|);
    forall i: nat
      ensures i in counting <==> i < |f|
    {
      if i < |f| { assert counting[i] == i; }
    }
    OrderIsUnique(f, Ranked(f, |f|), counting);
  }

  /** With no weight on the reranker, candidates already sorted by score stay where they are. */
  lemma ZeroBlendKeepsSortedInput(hits: seq<Hit>, scores: seq<real>, blend: real)
    requires |hits| == |scores| && blend <= 0.0
    requires forall i, j :: 0 <= i < j < |hits| ==> hits[i].score >= hits[j].score
    ensures Ranked(Fused(hits, scores, blend), |hits|) == Counting(|hits|)
  {
    var f := Fused(hits, scores, blend);
    forall i, j | 0 <= i < j < |f|
      ensures f[i] >= f[j]
    {
      NormalizedLaws(ScoresOf(hits), j, i);
      FusedAtZero(hits, scores, blend, i);
      FusedAtZero(hits, scores, blend, j);
    }
    CountingInOrder(f);
  }

  /** Any positive affine rescaling of the reranker's scores gives the very same list. */
  lemma AffineInvariance(hits: seq<Hit>, scores: seq<real>, blend: real, a: real, b: real)
    requires a > 0.0
    ensures Reranked(hits, Mapped(scores, Affine(a, b)), blend) == Reranked(hits, scores, blend)
  {
    NormalizedAffine(scores, a, b);
  }

  // ---------------------------------------------------------------- what the blend weighs

  /** Normalising sends the least value to 0, the greatest to 1, and keeps proportions; equal values become a half. */
  lemma NormalizedIsProportional(values: seq<real>, lo: nat, hi: nat, i: nat)
    requires lo < |values| && hi < |values| && i < |values|
    requires forall k :: 0 <= k < |values| ==> values[lo] <= values[k] <= values[hi]
    ensures if values[lo] == values[hi] then Normalized(values)[i] == 0.5
            else Normalized(values)[lo] == 0.0 && Normalized(values)[hi] == 1.0
                 && Normalized(values)[i] * (values[hi] - values[lo]) == values[i] - values[lo]
  {
    Extremes(values);
    assert Least(values) == values[lo] && Greatest(values) == values[hi];
    NormalizedAt(values, i);
    NormalizedAt(values, lo);
    NormalizedAt(values, hi);
    if values[lo] < values[hi] { ProportionalQuotient(values[i] - values[lo], values[hi] - values[lo]); }
  }

  lemma ProportionalQuotient(a: real, span: real)
    requires span > 0.0
    ensures (a / span) * span == a && 0.0 / span == 0.0 && span / span == 1.0
  {
  }

  /** Lists that compare alike are ranked alike. */
  lemma SameRanking(f: seq<real>, g: seq<real>)
    requires |f| == |g|
    requires forall i, j :: 0 <= i < |f| && 0 <= j < |f| ==> (f[i] < f[j] <==> g[i] < g[j])
    ensures Ranked(f, |f|) == Ranked(g, |g|)
  {
    var a, b := Ranked(f, |f|), Ranked(g, |g|);
    forall x, y | 0 <= x < y < |a|
      ensures Before(g, a[x], a[y])
    {
      BeforeAt(f, a, x, y);
    }
    OrderIsUnique(g, a, b);
  }

  lemma NormalizedCompares(values: seq<real>, i: nat, j: nat)
    requires i < |values| && j < |values|
    ensures values[i] < values[j] <==> Normalized(values)[i] < Normalized(values)[j]
  {
    if values[i] <= values[j] { NormalizedLaws(values, i, j); } else { NormalizedLaws(values, j, i); }
    if values[j] <= values[i] { NormalizedLaws(values, j, i); }
  }

  lemma NormalizedRanks(values: seq<real>)
    ensures Ranked(Normalized(values), |values|) == Ranked(values, |values|)
  {
    forall i, j | 0 <= i < |values| && 0 <= j < |values|
      ensures Normalized(values)[i] < Normalized(values)[j] <==> values[i] < values[j]
    {
      NormalizedCompares(values, i, j);
    }
    SameRanking(Normalized(values), values);
  }

  lemma FusedAtOne(hits: seq<Hit>, scores: seq<real>, blend: real)
    requires |hits| == |scores| && blend >= 1.0
    ensures Fused(hits, scores, blend) == Normalized(scores)
  {
    forall i | 0 <= i < |hits|
      ensures Fused(hits, scores, blend)[i] == Normalized(scores)[i]
    {
      assert Blend(1.0, Normalized(scores)[i], Normalized(ScoresOf(hits))[i]) == Normalized(scores)[i];
    }
  }

  /** With all the weight on the reranker its scores alone decide, ties in candidate order. */
  lemma FullBlendFollowsReranker(hits: seq<Hit>, scores: seq<real>, blend: real)
    requires |hits| == |scores| && blend >= 1.0
    ensures Ranked(Fused(hits, scores, blend), |hits|) == Ranked(scores, |scores|)
  {
    FusedAtOne(hits, scores, blend);
    NormalizedRanks(scores);
  }

  /** With none, the first stage's scores alone decide. */
  lemma ZeroBlendFollowsFirstStage(hits: seq<Hit>, scores: seq<real>, blend: real)
    requires |hits| == |scores| && blend <= 0.0
    ensures Ranked(Fused(hits, scores, blend), |hits|) == Ranked(ScoresOf(hits), |hits|)
  {
    forall i | 0 <= i < |hits|
      ensures Fused(hits, scores, blend)[i] == Normalized(ScoresOf(hits))[i]
    {
      FusedAtZero(hits, scores, blend, i);
    }
    assert Fused(hits, scores, blend) == Normalized(ScoresOf(hits));
    NormalizedRanks(ScoresOf(hits));
  }

  /** In between, a fused score lies as far from the one end to the other as the blend says. */
  lemma BlendInterpolates(hits: seq<Hit>, scores: seq<real>, blend: real, i: nat)
    requires |hits| == |scores| && 0.0 <= blend <= 1.0 && i < |hits|
    ensures var first, last := Fused(hits, scores, 0.0)[i], Fused(hits, scores, 1.0)[i];
            Fused(hits, scores, blend)[i] == first + blend * (last - first)
  {
    FusedAtZero(hits, scores, 0.0, i);
    FusedAtOne(hits, scores, 1.0);
    var base, rerank := Normalized(ScoresOf(hits))[i], Normalized(scores)[i];
    assert Blend(blend, rerank, base) == base + blend * (rerank - base);
  }
}
