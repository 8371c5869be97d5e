/** Sums over sequences of reals. */
module Sums {
  import opened Sorting

  /** Σ f(v) over v in s. */
  function SumOf(f: real -> real, s: seq<real>): real {
    if s == [] then 0.0 else SumOf(f, s[..|s| - 1]) + f(s[|s| - 1])
  }

  function Itself(): real -> real {
    (v: real) => v
  }

  function SquareFrom(c: real): real -> real {
    (v: real) => (v - c) * (v - c)
  }

  function DistanceFrom(c: real): real -> real {
    (v: real) => if v < c then c - v else v - c
  }

  function Sum(s: seq<real>): real {
    SumOf(Itself(), s)
  }

  function Squares(s: seq<real>, c: real): real {
    SumOf(SquareFrom(c), s)
  }

  function Distances(s: seq<real>, c: real): real {
    SumOf(DistanceFrom(c), s)
  }

  lemma SumPrefix(f: real -> real, s: seq<real>, i: nat)
    requires i < |s|
    ensures SumOf(f, s[..i + 1]) == SumOf(f, s[..i]) + f(s[i])
  {
    assert s[..i + 1][..i] == s[..i];
  }

  lemma SumSingle(f: real -> real, x: real)
    ensures SumOf(f, [x]) == f(x)
  {
    assert [x][..0] == [];
  }

  lemma PositiveProduct(a: real, b: real, q: real)
    requires q == a * b && 0.0 < a && 0.0 < b
    ensures 0.0 < q
  {
  }

  lemma SquareSign(e: real, q: real)
    requires q == e * e
    ensures if e == 0.0 then q == 0.0 else 0.0 < q
  {
    if e > 0.0 {
      PositiveProduct(e, e, q);
    } else if e < 0.0 {
      PositiveProduct(-e, -e, q);
    }
  }

  lemma {:induction false} SumRemove(f: real -> real, s: seq<real>, i: nat)
    requires i < |s|
    ensures SumOf(f, s) == SumOf(f, s[..i] + s[i + 1..]) + f(s[i])
    decreases |s|
  {
    var n := |s| - 1;
    if i == n {
      assert s[..i] + s[i + 1..] == s[..n];
    } else {
      SumRemove(f, s[..n], i);
      RemoveBeforeLast(s, i);
      SumSnoc(f, s[..n][..i] + s[..n][i + 1..], s[n]);
    }
  }

  lemma RemoveBeforeLast(s: seq<real>, i: nat)
    requires i < |s| - 1
    ensures s[..i] + s[i + 1..] == s[..|s| - 1][..i] + s[..|s| - 1][i + 1..] + [s[|s| - 1]]
  {
  }

  lemma SumSnoc(f: real -> real, s: seq<real>, x: real)
    ensures SumOf(f, s + [x]) == SumOf(f, s) + f(x)
  {
    assert (s + [x])[..|s|] == s;
  }

  /** A sum does not depend on the order of its terms. */
  lemma {:induction false} SumPermuted(f: real -> real, s: seq<real>, t: seq<real>)
    requires multiset(s) == multiset(t)
    ensures SumOf(f, s) == SumOf(f, t)
    decreases |s|
  {
    assert |s| == |multiset(s)| == |multiset(t)| == |t|;
    if s != [] {
      var n := |s| - 1;
      assert s[n] in multiset(t);
      var i :| 0 <= i < |t| && t[i] == s[n];
      var rest := t[..i] + t[i + 1..];
      SumRemove(f, t, i);
      WithoutEqual(s, n, t, i);
      assert s[..n] + s[n + 1..] == s[..n];
      SumPermuted(f, s[..n], rest);
    }
  }

  lemma {:induction false} SquaresVanishIff(s: seq<real>, c: real)
    ensures 0.0 <= Squares(s, c) && (Squares(s, c) == 0.0 <==> forall i | 0 <= i < |s| :: s[i] == c)
    decreases |s|
  {
    if s != [] {
      SquaresVanishIff(s[..|s| - 1], c);
      SquareSign(s[|s| - 1] - c, SquareFrom(c)(s[|s| - 1]));
    }
  }

  /** Σ (v − c)² = Σ v² − 2c Σ v + n c². */
  lemma {:induction false} SquaresExpand(s: seq<real>, c: real)
    ensures Squares(s, c) == Squares(s, 0.0) - 2.0 * c * Sum(s) + |s| as real * c * c
    decreases |s|
  {
    if s != [] {
      var init, v := s[..|s| - 1], s[|s| - 1];
      SquaresExpand(init, c);
      assert |s| as real == |init| as real + 1.0;
      SquareStep(Squares(init, 0.0), Sum(init), |init| as real, v, c);
    }
  }

  lemma SquareStep(q: real, t: real, n: real, v: real, c: real)
    ensures (q - 2.0 * c * t + n * c * c) + (v - c) * (v - c)
         == (q + (v - 0.0) * (v - 0.0)) - 2.0 * c * (t + v) + (n + 1.0) * c * c
  {
  }

  /** (Σ |v − c|)² ≤ n Σ (v − c)². */
  lemma {:induction false} DistancesSquared(s: seq<real>, c: real)
    ensures Distances(s, c) * Distances(s, c) <= |s| as real * Squares(s, c)
    decreases |s|
  {
    if s != [] {
      var init, v := s[..|s| - 1], s[|s| - 1];
      DistancesSquared(init, c);
      SquaresVanishIff(init, c);
      CauchyStep(Distances(init, c), Squares(init, c), |init| as real, DistanceFrom(c)(v));
      assert DistanceFrom(c)(v) * DistanceFrom(c)(v) == SquareFrom(c)(v);
    }
  }

  lemma CauchyStep(t: real, q: real, n: real, a: real)
    requires t * t <= n * q && 0.0 <= n && 0.0 <= q && (n == 0.0 ==> t == 0.0)
    requires n == 0.0 || n >= 1.0
    ensures (t + a) * (t + a) <= (n + 1.0) * (q + a * a)
  {
    if n > 0.0 {
      var d := t - n * a;
      assert 0.0 <= d * d;
      assert d * d == t * t - 2.0 * n * (t * a) + n * (n * (a * a));
      assert n * (q - 2.0 * (t * a) + n * (a * a)) >= 0.0;
      assert q - 2.0 * (t * a) + n * (a * a) >= 0.0;
    }
    assert (t + a) * (t + a) == t * t + 2.0 * (t * a) + a * a;
    assert (n + 1.0) * (q + a * a) == n * q + q + n * (a * a) + a * a;
  }

  /** Adding up (hi − v)(v − lo), which is never negative between the bounds. */
  lemma {:induction false} BetweenBounds(s: seq<real>, lo: real, hi: real)
    requires forall v | v in s :: lo <= v <= hi
    ensures Squares(s, 0.0) <= (hi + lo) * Sum(s) - |s| as real * (hi * lo)
    decreases |s|
  {
    if s != [] {
      var init, v := s[..|s| - 1], s[|s| - 1];
      assert forall u | u in init :: u in s;
      BetweenBounds(init, lo, hi);
      assert v in s;
      BetweenStep(Squares(init, 0.0), Sum(init), |init| as real, v, lo, hi);
    }
  }

  lemma ProductNonNegative(a: real, b: real)
    requires 0.0 <= a && 0.0 <= b
    ensures 0.0 <= a * b
  {
  }

  lemma BetweenStep(q: real, t: real, n: real, v: real, lo: real, hi: real)
    requires q <= (hi + lo) * t - n * (hi * lo) && lo <= v <= hi
    ensures q + (v - 0.0) * (v - 0.0) <= (hi + lo) * (t + v) - (n + 1.0) * (hi * lo)
  {
    ProductNonNegative(hi - v, v - lo);
    assert (hi - v) * (v - lo) == (hi + lo) * v - v * v - hi * lo;
  }
}
