/** One score for many: the six aggregation strategies. */
module Scoring {
  import opened Sums
  import opened Sorting
  import opened Choice

  datatype Strategy = Mean | Median | Mode | Max | Min | Stddev | Unrecognised(name: string)

  /** A result: not-a-number, an exact number, or the non-negative root of one. */
  datatype Value = NaN | Num(v: real) | Root(radicand: real)

  function SquareOf(r: Value): real
    requires !r.NaN?
  {
    if r.Num? then r.v * r.v else r.radicand
  }

  function AtMost(): (real, real) -> bool {
    (a: real, b: real) => a <= b
  }

  /** The middle of a sorted list, or midway between its two middles. */
  function Middle(s: seq<real>): real
    requires s != []
  {
    var mid := |s| / 2;
    if |s| % 2 == 1 then s[mid] else (s[mid - 1] + s[mid]) / 2.0
  }

  function MeanOf(s: seq<real>): real
    requires s != []
  {
    Sum(s) / |s| as real
  }

  /** What each strategy asks for. */
  ghost predicate IsAggregate(s: seq<real>, strategy: Strategy, r: Value) {
    if s == [] then r.NaN?
    else match strategy
      case Median => exists t :: IsSortOf(AtMost(), t, s) && |t| == |s| && r == Num(Middle(t))
      case Mode =>
        r.Num? && r.v in s &&
        forall x | x in s :: multiset(s)[x] < multiset(s)[r.v] || (multiset(s)[x] == multiset(s)[r.v] && r.v <= x)
      case Max => r.Num? && r.v in s && forall x | x in s :: x <= r.v
      case Min => r.Num? && r.v in s && forall x | x in s :: r.v <= x
      case Stddev =>
        r == if |s| < 2 then Num(0.0) else Root(Squares(s, MeanOf(s)) / (|s| - 1) as real)
      case _ => r == Num(MeanOf(s))
  }

  method Aggregate(scores: seq<real>, strategy: Strategy) returns (r: Value)
    ensures IsAggregate(scores, strategy, r)
  {
    if |scores| == 0 {
      return NaN;
    }
    match strategy
    case Median => r := MiddleScore(scores);
    case Mode => r := MostFrequent(scores);
    case Max => r := Greatest(scores);
    case Min => r := Least(scores);
    case Stddev => r := Deviation(scores);
    case _ =>
      var t := Accumulate(scores);
      r := Num(t / |scores| as real);
  }

  method MiddleScore(scores: seq<real>) returns (r: Value)
    requires scores != []
    ensures IsAggregate(scores, Median, r)
  {
    var cp := Sort(scores, AtMost());
    assert |cp| == |multiset(cp)| == |scores|;
    var mid := |cp| / 2;
    if |cp| % 2 == 1 {
      return Num(cp[mid]);
    }
    return Num((cp[mid - 1] + cp[mid]) / 2.0);
  }

  method Greatest(scores: seq<real>) returns (r: Value)
    requires scores != []
    ensures IsAggregate(scores, Max, r)
  {
    var m := scores[0];
    for i := 1 to |scores|
      invariant m in scores && forall k | 0 <= k < i :: scores[k] <= m
    {
      if scores[i] > m {
        m := scores[i];
      }
    }
    r := Num(m);
  }

  method Least(scores: seq<real>) returns (r: Value)
    requires scores != []
    ensures IsAggregate(scores, Min, r)
  {
    var m := scores[0];
    for i := 1 to |scores|
      invariant m in scores && forall k | 0 <= k < i :: m <= scores[k]
    {
      if scores[i] < m {
        m := scores[i];
      }
    }
    r := Num(m);
  }

  /** The two-pass sample deviation. */
  method Deviation(scores: seq<real>) returns (r: Value)
    requires scores != []
    ensures IsAggregate(scores, Stddev, r)
  {
    if |scores| < 2 {
      return Num(0.0);
    }
    var t := Accumulate(scores);
    var m := t / |scores| as real;
    var sq := 0.0;
    for i := 0 to |scores|
      invariant sq == Squares(scores[..i], m)
    {
      SumPrefix(SquareFrom(m), scores, i);
      sq := sq + (scores[i] - m) * (scores[i] - m);
    }
    assert scores[..|scores|] == scores;
    r := Root(sq / (|scores| - 1) as real);
  }

  method Accumulate(scores: seq<real>) returns (t: real)
    ensures t == Sum(scores)
  {
    t := 0.0;
    for i := 0 to |scores|
      invariant t == Sum(scores[..i])
    {
      SumPrefix(Itself(), scores, i);
      t := t + scores[i];
    }
    assert scores[..|scores|] == scores;
  }

  /** The counting map, then a walk over it in no particular order. */
  method MostFrequent(scores: seq<real>) returns (r: Value)
    requires scores != []
    ensures IsAggregate(scores, Mode, r)
  {
    var counts: map<real, nat> := map[];
    for i := 0 to |scores|
      invariant forall x :: x in counts <==> x in scores[..i]
      invariant forall x | x in counts :: counts[x] == multiset(scores[..i])[x]
    {
      var v := scores[i];
      assert scores[..i + 1] == scores[..i] + [v];
      counts := counts[v := (if v in counts then counts[v] else 0) + 1];
    }
    assert scores[..|scores|] == scores;

    var best, bestCount := scores[0], 0;
    var todo := counts.Keys;
    while todo != {}
      invariant todo <= counts.Keys && best in scores
      invariant bestCount == 0 ==> todo == counts.Keys
      invariant bestCount > 0 ==> counts[best] == bestCount
      invariant forall x | x in counts && x !in todo :: counts[x] < bestCount || (counts[x] == bestCount && best <= x)
      decreases |todo|
    {
      var v := Any(todo);
      var c := counts[v];
      assert c > 0;
      if c > bestCount || (c == bestCount && v < best) {
        best, bestCount := v, c;
      }
      todo := todo - {v};
    }
    assert scores[0] in counts.Keys;
    r := Num(best);
  }

  // ----------------------------------------------------- order does not matter

  /** Scores in another order, visited in another order: the same result, for every strategy. */
  lemma AggregateIgnoresOrder(s: seq<real>, t: seq<real>, strategy: Strategy, v: Value, w: Value)
    requires multiset(s) == multiset(t) && IsAggregate(s, strategy, v) && IsAggregate(t, strategy, w)
    ensures v == w
  {
    assert |s| == |multiset(s)| == |multiset(t)| == |t|;
    forall x ensures x in s <==> x in t {
      assert x in s <==> x in multiset(s);
    }
    if s != [] {
      SumPermuted(Itself(), s, t);
      SumPermuted(SquareFrom(MeanOf(s)), s, t);
      if strategy.Median? {
        var a :| IsSortOf(AtMost(), a, s) && |a| == |s| && v == Num(Middle(a));
        var b :| IsSortOf(AtMost(), b, t) && |b| == |t| && w == Num(Middle(b));
        SortUnique(AtMost(), a, b);
      }
    }
  }

  // ------------------------------------------------ the deviation, pair by pair

  /** (x − y)², summed over all pairs of scores, in both orders. */
  function PairSquares(s: seq<real>): real {
    SumOf(SquaresAround(s), s)
  }

  function SquaresAround(s: seq<real>): real -> real {
    (v: real) => Squares(s, v)
  }

  /** Moving the centre from the mean to v adds n (v − mean)². */
  lemma AroundMean(s: seq<real>, mean: real, v: real)
    requires s != [] && mean == MeanOf(s)
    ensures Squares(s, v) == Squares(s, mean) + |s| as real * ((v - mean) * (v - mean))
  {
    SquaresFromMean(s, mean);
    SquaresExpand(s, v);
    assert Sum(s) == |s| as real * mean;
    CompletedSquare(|s| as real, mean, v);
  }

  lemma CompletedSquare(n: real, mean: real, v: real)
    ensures n * v * v - 2.0 * v * (n * mean) == n * ((v - mean) * (v - mean)) - n * (mean * mean)
  {
  }

  function Always(k: real): real -> real {
    (v: real) => k
  }

  function Scaled(n: real, f: real -> real): real -> real {
    (v: real) => n * f(v)
  }

  lemma {:induction false} AlwaysSum(k: real, t: seq<real>)
    ensures SumOf(Always(k), t) == |t| as real * k
    decreases |t|
  {
    if t != [] {
      AlwaysSum(k, t[..|t| - 1]);
      assert |t| as real == (|t| - 1) as real + 1.0;
      Distribute(k, (|t| - 1) as real, 1.0);
    }
  }

  lemma {:induction false} ScaledSum(n: real, f: real -> real, t: seq<real>)
    ensures SumOf(Scaled(n, f), t) == n * SumOf(f, t)
    decreases |t|
  {
    if t != [] {
      ScaledSum(n, f, t[..|t| - 1]);
      Distribute(n, SumOf(f, t[..|t| - 1]), f(t[|t| - 1]));
    }
  }

  lemma Distribute(n: real, x: real, y: real)
    ensures n * (x + y) == n * x + n * y && (x + y) * n == x * n + y * n
  {
  }

  lemma {:induction false} SumAdds(f: real -> real, g: real -> real, h: real -> real, t: seq<real>)
    requires forall i | 0 <= i < |t| :: h(t[i]) == f(t[i]) + g(t[i])
    ensures SumOf(h, t) == SumOf(f, t) + SumOf(g, t)
    decreases |t|
  {
    if t != [] {
      SumAdds(f, g, h, t[..|t| - 1]);
    }
  }

  lemma AroundMeanAt(s: seq<real>, mean: real, v: real)
    requires s != [] && mean == MeanOf(s)
    ensures SquaresAround(s)(v) == Always(Squares(s, mean))(v) + Scaled(|s| as real, SquareFrom(mean))(v)
  {
    AroundMean(s, mean, v);
  }

  lemma PairsAroundMean(s: seq<real>, mean: real)
    requires s != [] && mean == MeanOf(s)
    ensures PairSquares(s) == SumOf(Always(Squares(s, mean)), s) + SumOf(Scaled(|s| as real, SquareFrom(mean)), s)
  {
    forall i | 0 <= i < |s|
      ensures SquaresAround(s)(s[i]) ==
              Always(Squares(s, mean))(s[i]) + Scaled(|s| as real, SquareFrom(mean))(s[i])
    {
      AroundMeanAt(s, mean, s[i]);
    }
    SumAdds(Always(Squares(s, mean)), Scaled(|s| as real, SquareFrom(mean)), SquaresAround(s), s);
  }

  /** Without mention of the mean: 2n(n − 1) sd² is the sum of the squared differences of all pairs. */
  lemma DeviationIsPairwise(s: seq<real>, sd: Value)
    requires s != [] && IsAggregate(s, Stddev, sd)
    ensures 2.0 * (|s| as real * ((|s| - 1) as real * SquareOf(sd))) == PairSquares(s)
  {
    var mean := MeanOf(s);
    PairsAroundMean(s, mean);
    AlwaysSum(Squares(s, mean), s);
    ScaledSum(|s| as real, SquareFrom(mean), s);
    DeviationTimes(s, mean, sd);
    Twice(|s| as real, (|s| - 1) as real * SquareOf(sd), Squares(s, mean), PairSquares(s));
  }

  lemma Twice(n: real, x: real, q: real, total: real)
    requires x == q && total == n * q + n * q
    ensures 2.0 * (n * x) == total
  {
  }

  lemma DeviationTimes(s: seq<real>, mean: real, sd: Value)
    requires s != [] && mean == MeanOf(s) && IsAggregate(s, Stddev, sd)
    ensures (|s| - 1) as real * SquareOf(sd) == Squares(s, mean)
  {
    if |s| == 1 {
      assert s == [s[0]];
      SumSingle(Itself(), s[0]);
      SumSingle(SquareFrom(mean), s[0]);
    } else {
      var m := (|s| - 1) as real;
      assert m * (Squares(s, mean) / m) == Squares(s, mean);
    }
  }

  // -------------------------------------------------------- how they lie together

  lemma {:induction false} SumBetween(s: seq<real>, lo: real, hi: real)
    requires forall i | 0 <= i < |s| :: lo <= s[i] <= hi
    ensures |s| as real * lo <= Sum(s) <= |s| as real * hi
    decreases |s|
  {
    if s != [] {
      SumBetween(s[..|s| - 1], lo, hi);
      assert |s| as real == (|s| - 1) as real + 1.0;
      Distribute(lo, (|s| - 1) as real, 1.0);
      Distribute(hi, (|s| - 1) as real, 1.0);
    }
  }

  lemma MeanBetween(s: seq<real>, lo: real, hi: real)
    requires s != [] && forall i | 0 <= i < |s| :: lo <= s[i] <= hi
    ensures lo <= MeanOf(s) <= hi
  {
    SumBetween(s, lo, hi);
    QuotientBetween(|s| as real, Sum(s), MeanOf(s), lo, hi);
  }

  lemma QuotientBetween(n: real, total: real, q: real, lo: real, hi: real)
    requires n > 0.0 && q == total / n && n * lo <= total <= n * hi
    ensures lo <= q <= hi
  {
    assert n * q == total;
    CancelFactor(n, lo, q);
    CancelFactor(n, q, hi);
  }

  lemma MiddleBetween(s: seq<real>, t: seq<real>, lo: real, hi: real)
    requires t != [] && IsSortOf(AtMost(), t, s) && forall x | x in s :: lo <= x <= hi
    ensures lo <= Middle(t) <= hi
  {
    forall i | 0 <= i < |t| ensures lo <= t[i] <= hi {
      assert t[i] in multiset(t) && t[i] in multiset(s) && t[i] in s;
    }
  }

  /** The least score, then mean, median and mode in any order, then the greatest. */
  lemma AllLieBetween(s: seq<real>, lo: real, mid: real, hi: real, strategy: Strategy)
    requires s != [] && IsAggregate(s, Min, Num(lo)) && IsAggregate(s, Max, Num(hi))
    requires !strategy.Stddev? && IsAggregate(s, strategy, Num(mid))
    ensures lo <= mid <= hi && lo in s && hi in s
  {
    if strategy.Median? {
      var t :| IsSortOf(AtMost(), t, s) && |t| == |s| && Num(mid) == Num(Middle(t));
      MiddleBetween(s, t, lo, hi);
    } else if strategy.Mean? || strategy.Unrecognised? {
      forall i | 0 <= i < |s| ensures lo <= s[i] <= hi {
        assert s[i] in s;
      }
      MeanBetween(s, lo, hi);
    }
  }

  /** When no score comes twice, the mode is the least of them. */
  lemma ModeOfDistinct(s: seq<real>, mode: real, lo: real)
    requires s != [] && Distinct(s) && IsAggregate(s, Mode, Num(mode)) && IsAggregate(s, Min, Num(lo))
    ensures mode == lo
  {
    DistinctIffCounts(s);
    assert multiset(s)[lo] <= 1 && multiset(s)[mode] <= 1;
    assert lo in multiset(s) && mode in multiset(s);
  }

  // --------------------------------------------------------- the median, mirrored

  function Negated(s: seq<real>): seq<real> {
    seq(|s|, i requires 0 <= i < |s| => -s[i])
  }

  /** Negated and turned round. */
  function Mirrored(s: seq<real>): seq<real> {
    seq(|s|, i requires 0 <= i < |s| => -s[|s| - 1 - i])
  }

  lemma {:induction false} NegatedBag(s: seq<real>, x: real)
    ensures multiset(Negated(s))[x] == multiset(s)[-x]
    decreases |s|
  {
    if s != [] {
      var init, last := s[..|s| - 1], s[|s| - 1];
      NegatedBag(init, x);
      assert s == init + [last] && Negated(s) == Negated(init) + [-last];
    }
  }

  lemma {:induction false} MirroredBag(s: seq<real>, x: real)
    ensures multiset(Mirrored(s))[x] == multiset(s)[-x]
    decreases |s|
  {
    if s != [] {
      var init, last := s[..|s| - 1], s[|s| - 1];
      MirroredBag(init, x);
      assert s == init + [last] && Mirrored(s) == [-last] + Mirrored(init);
    }
  }

  lemma MirroredSorted(s: seq<real>, t: seq<real>)
    requires IsSortOf(AtMost(), t, s)
    ensures IsSortOf(AtMost(), Mirrored(t), Negated(s))
  {
    forall i, j | 0 <= i < j < |t| ensures AtMost()(Mirrored(t)[i], Mirrored(t)[j]) {
      assert AtMost()(t[|t| - 1 - j], t[|t| - 1 - i]);
    }
    forall x ensures multiset(Mirrored(t))[x] == multiset(Negated(s))[x] {
      NegatedBag(s, x);
      MirroredBag(t, x);
    }
  }

  lemma MiddleMirrored(s: seq<real>, t: seq<real>, u: seq<real>)
    requires t != [] && IsSortOf(AtMost(), t, s) && IsSortOf(AtMost(), u, Negated(s))
    ensures u != [] && Middle(u) == -Middle(t)
  {
    MirroredSorted(s, t);
    SortUnique(AtMost(), Mirrored(t), u);
  }

  /** The median leans neither way: negate the scores, and it is negated. */
  lemma MedianMirrors(s: seq<real>, median: real, mirrored: real)
    requires s != [] && IsAggregate(s, Median, Num(median)) && IsAggregate(Negated(s), Median, Num(mirrored))
    ensures mirrored == -median
  {
    var t :| IsSortOf(AtMost(), t, s) && |t| == |s| && Num(median) == Num(Middle(t));
    var u :| IsSortOf(AtMost(), u, Negated(s)) && |u| == |Negated(s)| && Num(mirrored) == Num(Middle(u));
    MiddleMirrored(s, t, u);
  }

  // ------------------------------------------------- median against everything

  lemma DistancesEnds(s: seq<real>, c: real)
    requires |s| >= 2
    ensures Distances(s, c) ==
            DistanceFrom(c)(s[0]) + Distances(s[1..|s| - 1], c) + DistanceFrom(c)(s[|s| - 1])
  {
    var init := s[..|s| - 1];
    SumRemove(DistanceFrom(c), init, 0);
    assert init[..0] + init[1..] == s[1..|s| - 1];
  }

  lemma {:induction false} MiddleIsClosest(s: seq<real>, c: real)
    requires s != [] && SortedBy(AtMost(), s)
    ensures Distances(s, Middle(s)) <= Distances(s, c) && s[0] <= Middle(s) <= s[|s| - 1]
    decreases |s|
  {
    if |s| == 1 {
      assert s == [s[0]];
      SumSingle(DistanceFrom(c), s[0]);
      SumSingle(DistanceFrom(s[0]), s[0]);
    } else {
      var inner := s[1..|s| - 1];
      DistancesEnds(s, c);
      DistancesEnds(s, Middle(s));
      assert AtMost()(s[0], s[|s| - 1]);
      if inner != [] {
        MiddleIsClosest(inner, c);
        assert Middle(inner) == Middle(s);
        assert AtMost()(s[0], inner[0]) && AtMost()(inner[|inner| - 1], s[|s| - 1]);
      }
    }
  }

  /** No number is closer to the scores in total than their median. */
  lemma MedianMinimises(s: seq<real>, median: real, c: real)
    requires s != [] && IsAggregate(s, Median, Num(median))
    ensures Distances(s, median) <= Distances(s, c)
  {
    var t :| IsSortOf(AtMost(), t, s) && |t| == |s| && median == Middle(t);
    MiddleIsClosest(t, c);
    SumPermuted(DistanceFrom(median), t, s);
    SumPermuted(DistanceFrom(c), t, s);
  }

  lemma {:induction false} SumWithinDistances(s: seq<real>, c: real)
    ensures -Distances(s, c) <= Sum(s) - |s| as real * c <= Distances(s, c)
    decreases |s|
  {
    if s != [] {
      SumWithinDistances(s[..|s| - 1], c);
    }
  }

  lemma SquareMonotone(a: real, b: real)
    requires -b <= a <= b
    ensures a * a <= b * b
  {
    ProductNonNegative(b - a, b + a);
  }

  lemma CancelFactor(n: real, x: real, y: real)
    requires n > 0.0 && n * x <= n * y
    ensures x <= y
  {
  }

  lemma GapWithinSquares(s: seq<real>, mean: real, median: real)
    requires s != [] && mean == MeanOf(s) && Distances(s, median) <= Distances(s, mean)
    ensures |s| as real * ((mean - median) * (mean - median)) <= Squares(s, mean)
  {
    var n, d := |s| as real, Distances(s, mean);
    assert n * mean == Sum(s);
    SumWithinDistances(s, median);
    var gap := n * (mean - median);
    assert gap == Sum(s) - n * median;
    SquareMonotone(gap, d);
    DistancesSquared(s, mean);
    SquaredGap(n, mean - median, Squares(s, mean));
  }

  /** Mean and median lie within one standard deviation of each other, for any scores at all. */
  lemma MeanNearMedian(s: seq<real>, mean: real, median: real, sd: Value)
    requires s != [] && IsAggregate(s, Mean, Num(mean)) && IsAggregate(s, Median, Num(median)) &&
             IsAggregate(s, Stddev, sd)
    ensures (mean - median) * (mean - median) <= SquareOf(sd)
  {
    MedianMinimises(s, median, mean);
    GapWithinDeviation(s, mean, median);
  }

  lemma GapWithinDeviation(s: seq<real>, mean: real, median: real)
    requires s != [] && mean == MeanOf(s) && Distances(s, median) <= Distances(s, mean)
    ensures |s| == 1 ==> mean == median
    ensures |s| > 1 ==> (mean - median) * (mean - median) <= Squares(s, mean) / (|s| - 1) as real
  {
    var n := |s| as real;
    GapWithinSquares(s, mean, median);
    if |s| == 1 {
      assert s == [s[0]];
      SumSingle(Itself(), s[0]);
      SumSingle(DistanceFrom(mean), s[0]);
      SumSingle(DistanceFrom(median), s[0]);
    } else {
      SquareSign(mean - median, (mean - median) * (mean - median));
      Lessened(n, (mean - median) * (mean - median), Squares(s, mean));
    }
  }

  lemma SquaredGap(n: real, e: real, q: real)
    requires n >= 1.0 && (n * e) * (n * e) <= n * q
    ensures n * (e * e) <= q
  {
    assert (n * e) * (n * e) == n * (n * (e * e));
    CancelFactor(n, n * (e * e), q);
  }

  lemma Lessened(n: real, x: real, q: real)
    requires n > 1.0 && 0.0 <= x && n * x <= q
    ensures x <= q / (n - 1.0)
  {
    assert (n - 1.0) * x == n * x - x;
    assert (n - 1.0) * (q / (n - 1.0)) == q;
    CancelFactor(n - 1.0, x, q / (n - 1.0));
  }

  // ------------------------------------------------------- spread against range

  lemma SquaresFromMean(s: seq<real>, mean: real)
    requires s != [] && mean == MeanOf(s)
    ensures Squares(s, mean) == Squares(s, 0.0) - |s| as real * (mean * mean)
  {
    SquaresExpand(s, mean);
    assert Sum(s) == |s| as real * mean;
    assert 2.0 * mean * (|s| as real * mean) == 2.0 * (|s| as real * (mean * mean));
    assert |s| as real * mean * mean == |s| as real * (mean * mean);
  }

  /** (n − 1) sd² is at most n (max − mean)(mean − min), for any scores at all. */
  lemma SpreadWithinRange(s: seq<real>, mean: real, lo: real, hi: real, sd: Value)
    requires s != [] && IsAggregate(s, Mean, Num(mean)) && IsAggregate(s, Min, Num(lo)) &&
             IsAggregate(s, Max, Num(hi)) && IsAggregate(s, Stddev, sd)
    ensures (|s| - 1) as real * SquareOf(sd) <= |s| as real * ((hi - mean) * (mean - lo))
  {
    var n := |s| as real;
    SquaresFromMean(s, mean);
    BetweenBounds(s, lo, hi);
    assert Sum(s) == n * mean;
    assert (hi - mean) * (mean - lo) == hi * mean + lo * mean - mean * mean - hi * lo;
    assert (hi + lo) * (n * mean) == n * (hi * mean + lo * mean);
    if |s| == 1 {
      assert s == [s[0]] && SumOf(Itself(), s[..0]) == 0.0;
      assert mean == s[0] && lo == s[0];
    } else {
      assert (|s| - 1) as real * SquareOf(sd) == Squares(s, mean);
    }
  }

  /** The standard deviation vanishes exactly when all scores agree. */
  lemma NoSpreadIff(s: seq<real>, sd: Value)
    requires s != [] && IsAggregate(s, Stddev, sd)
    ensures SquareOf(sd) == 0.0 <==> forall i, j | 0 <= i < j < |s| :: s[i] == s[j]
  {
    if |s| >= 2 {
      var mean := MeanOf(s);
      SquaresVanishIff(s, mean);
      Quotient(Squares(s, mean), (|s| - 1) as real);
      if forall i, j | 0 <= i < j < |s| :: s[i] == s[j] {
        ConstantMean(s, s[0]);
      }
    }
  }

  lemma Quotient(q: real, m: real)
    requires m > 0.0
    ensures q / m == 0.0 <==> q == 0.0
  {
    assert m * (q / m) == q;
  }

  lemma {:induction false} ConstantMean(s: seq<real>, c: real)
    requires forall i | 0 <= i < |s| :: s[i] == c
    ensures Sum(s) == |s| as real * c && (s != [] ==> MeanOf(s) == c)
    decreases |s|
  {
    if s != [] {
      ConstantMean(s[..|s| - 1], c);
    }
  }
}
