/** Arithmetic used by the engine: sums, the median of a list, its mean and
    sample standard deviation, and the integer rounding of square roots that
    the date code applies to the standard deviation.

    Means are kept as exact rationals and the standard deviation as the exact
    square root of a rational, so that `Math.round`, `Math.floor` and
    `Math.ceil` of it can be computed with integers only. */
module Numbers {

  type Pos = n: int | n > 0 witness 1

  /** The rational number num / den. */
  datatype Ratio = Ratio(num: int, den: Pos)

  /** The nonnegative real number sqrt(num / den). */
  datatype Root = SqrtOf(num: nat, den: Pos)

  function Sum(s: seq<int>): int
  {
    if |s| == 0 then 0 else s[0] + Sum(s[1..])
  }

  lemma {:induction false} SumBounds(s: seq<int>, lo: int, hi: int)
    requires forall k :: 0 <= k < |s| ==> lo <= s[k] <= hi
    ensures lo * |s| <= Sum(s) <= hi * |s|
  {
    if |s| > 0 {
      SumBounds(s[1..], lo, hi);
      assert lo * |s| == lo + lo * (|s| - 1);
      assert hi * |s| == hi + hi * (|s| - 1);
    }
  }

  // ---------------------------------------------------------------------
  // Sorting and the median
  // ---------------------------------------------------------------------

  predicate SortedAsc(s: seq<int>)
  {
    forall i, j :: 0 <= i < j < |s| ==> s[i] <= s[j]
  }

  lemma PrependSorted(h: int, t: seq<int>)
    requires SortedAsc(t)
    requires forall k :: 0 <= k < |t| ==> h <= t[k]
    ensures SortedAsc([h] + t)
  {
    var r := [h] + t;
    forall i, j | 0 <= i < j < |r|
      ensures r[i] <= r[j]
    {
      assert r[j] == t[j - 1];
      if i > 0 { assert r[i] == t[i - 1]; }
    }
  }

  /** Inserts x into an ascending list. */
  function Insert(x: int, s: seq<int>): (r: seq<int>)
    requires SortedAsc(s)
    ensures SortedAsc(r)
    ensures multiset(r) == multiset(s) + multiset{x}
    ensures forall k :: 0 <= k < |r| ==> r[k] == x || r[k] in s
  {
    if |s| == 0 then [x]
    else if x <= s[0] then
      PrependSorted(x, s);
      [x] + s
    else
      var rest := Insert(x, s[1..]);
      assert s == [s[0]] + s[1..];
      assert forall k :: 0 <= k < |rest| ==> s[0] <= rest[k];
      PrependSorted(s[0], rest);
      var r := [s[0]] + rest;
      assert forall k :: 1 <= k < |r| ==> r[k] == rest[k - 1];
      r
  }

  /** The numeric ascending sort `[...values].sort((a, b) => a - b)`. */
  function SortAsc(s: seq<int>): (r: seq<int>)
    ensures SortedAsc(r)
    ensures multiset(r) == multiset(s)
  {
    if |s| == 0 then []
    else
      assert s == [s[0]] + s[1..];
      Insert(s[0], SortAsc(s[1..]))
  }

  /** Two ascending lists holding the same values are the same list. */
  lemma {:induction false} SortedUnique(a: seq<int>, b: seq<int>)
    requires SortedAsc(a) && SortedAsc(b)
    requires multiset(a) == multiset(b)
    ensures a == b
  {
    if |a| == 0 {
      assert |b| == |multiset(b)| == 0;
    } else {
      assert |b| == |multiset(b)| == |multiset(a)| == |a|;
      assert a[0] in multiset(b);
      assert b[0] in multiset(a);
      assert b[0] <= a[0];
      assert a[0] <= b[0];
      assert a == [a[0]] + a[1..];
      assert b == [b[0]] + b[1..];
      assert multiset(a[1..]) == multiset(a) - multiset{a[0]};
      assert multiset(b[1..]) == multiset(b) - multiset{b[0]};
      SortedUnique(a[1..], b[1..]);
    }
  }

  /** The median of a list: its middle value once sorted, or the mean of the
      two middle values, rounded down, when the length is even; 0 for an
      empty list. */
  function Median(values: seq<int>): int
  {
    if |values| == 0 then 0
    else
      var sorted := SortAsc(values);
      assert |sorted| == |multiset(sorted)| == |values|;
      var mid := |sorted| / 2;
      if |sorted| % 2 != 0 then sorted[mid] else (sorted[mid - 1] + sorted[mid]) / 2
  }

  /** The median lies within any range that holds every value. */
  lemma MedianInRange(values: seq<int>, lo: int, hi: int)
    requires |values| > 0
    requires forall k :: 0 <= k < |values| ==> lo <= values[k] <= hi
    ensures lo <= Median(values) <= hi
  {
    var sorted := SortAsc(values);
    assert |sorted| == |multiset(sorted)| == |values|;
    forall k | 0 <= k < |sorted|
      ensures lo <= sorted[k] <= hi
    {
      assert sorted[k] in multiset(values);
    }
  }

  /** A list of odd length has its median among its values. */
  lemma MedianOfOddLength(values: seq<int>)
    requires |values| % 2 == 1
    ensures Median(values) in values
  {
    var sorted := SortAsc(values);
    assert |sorted| == |multiset(sorted)| == |values|;
    assert sorted[|sorted| / 2] in multiset(values);
  }

  /** The median depends only on which values occur, not on their order. */
  lemma MedianIgnoresOrder(a: seq<int>, b: seq<int>)
    requires multiset(a) == multiset(b)
    ensures Median(a) == Median(b)
  {
    SortedUnique(SortAsc(a), SortAsc(b));
    assert |a| == |multiset(a)| == |b|;
  }

  // ---------------------------------------------------------------------
  // Mean and sample standard deviation
  // ---------------------------------------------------------------------

  /** The arithmetic mean `values.reduce((a, b) => a + b, 0) / values.length`. */
  function Mean(values: seq<int>): Ratio
    requires |values| > 0
  {
    Ratio(Sum(values), |values|)
  }

  /** The mean lies within any range that holds every value. */
  lemma MeanInRange(values: seq<int>, lo: int, hi: int)
    requires |values| > 0
    requires forall k :: 0 <= k < |values| ==> lo <= values[k] <= hi
    ensures lo * Mean(values).den <= Mean(values).num <= hi * Mean(values).den
  {
    SumBounds(values, lo, hi);
  }

  function Square(x: int): nat
  {
    x * x
  }

  /** The sum of (v - mean)^2 over the values, scaled by mean.den^2 so that it
      stays an integer. */
  function SumSquaredDeviations(values: seq<int>, mean: Ratio): nat
  {
    if |values| == 0 then 0
    else Square(mean.den * values[0] - mean.num) + SumSquaredDeviations(values[1..], mean)
  }

  lemma {:induction false} SumSquaredDeviationsZero(values: seq<int>, mean: Ratio)
    ensures SumSquaredDeviations(values, mean) == 0
        <==> forall k :: 0 <= k < |values| ==> mean.den * values[k] == mean.num
  {
    if |values| > 0 {
      SumSquaredDeviationsZero(values[1..], mean);
      var x := mean.den * values[0] - mean.num;
      assert Square(x) == 0 <==> x == 0 by {
        if x != 0 {
          assert x * x > 0 by {
            if x > 0 { assert x * x >= x; } else { assert x * x >= -x; }
          }
        }
      }
      assert forall k :: 1 <= k < |values| ==> values[k] == values[1..][k - 1];
    }
  }

  /** The sample standard deviation of the values about the given mean
      (dividing by n - 1), or 1 for fewer than two values. */
  function StdDev(values: seq<int>, mean: Ratio): (r: Root)
  {
    if |values| <= 1 then SqrtOf(1, 1)
    else
      assert mean.den * mean.den > 0;
      SqrtOf(SumSquaredDeviations(values, mean), mean.den * mean.den * (|values| - 1))
  }

  /** With at least two values, the standard deviation is zero exactly when
      every value equals the mean. */
  lemma StdDevZero(values: seq<int>, mean: Ratio)
    requires |values| >= 2
    ensures StdDev(values, mean).num == 0
        <==> forall k :: 0 <= k < |values| ==> mean.den * values[k] == mean.num
  {
    SumSquaredDeviationsZero(values, mean);
  }

  // ---------------------------------------------------------------------
  // Integer floor, ceiling and rounding of sqrt(num / den)
  // ---------------------------------------------------------------------

  lemma SquareMono(a: nat, b: nat, den: Pos)
    requires a <= b
    ensures a * a * den <= b * b * den
  {
    assert a * a <= a * b <= b * b;
  }

  lemma SquareStep(m: nat, den: Pos)
    ensures (m + 1) * (m + 1) * den == m * m * den + (2 * m + 1) * den
    ensures m * m * den < (m + 1) * (m + 1) * den
  {
    assert (m + 1) * (m + 1) == m * m + 2 * m + 1;
  }

  function FloorSqrtFrom(num: nat, den: Pos, m: nat): (r: nat)
    requires m * m * den <= num
    ensures r * r * den <= num < (r + 1) * (r + 1) * den
    decreases num - m * m * den
  {
    SquareStep(m, den);
    if (m + 1) * (m + 1) * den <= num then FloorSqrtFrom(num, den, m + 1) else m
  }

  /** The largest r with r <= sqrt(num / den), i.e. `Math.floor` of it. */
  function FloorSqrt(num: nat, den: Pos): (r: nat)
    ensures r * r * den <= num < (r + 1) * (r + 1) * den
  {
    FloorSqrtFrom(num, den, 0)
  }

  /** The floor characterisation pins the value down. */
  lemma FloorSqrtUnique(num: nat, den: Pos, m: nat)
    requires m * m * den <= num < (m + 1) * (m + 1) * den
    ensures FloorSqrt(num, den) == m
  {
    var r := FloorSqrt(num, den);
    if r < m {
      SquareMono(r + 1, m, den);
    } else if r > m {
      SquareMono(m + 1, r, den);
    }
  }

  lemma FloorSqrtMono(a: nat, b: nat, den: Pos)
    requires a <= b
    ensures FloorSqrt(a, den) <= FloorSqrt(b, den)
  {
    var x, y := FloorSqrt(a, den), FloorSqrt(b, den);
    if y < x {
      SquareMono(y + 1, x, den);
    }
  }

  /** The smallest r with sqrt(num / den) <= r, i.e. `Math.ceil` of it. */
  function CeilSqrt(num: nat, den: Pos): (r: nat)
    ensures num <= r * r * den
    ensures r == 0 || (r - 1) * (r - 1) * den < num
  {
    var f := FloorSqrt(num, den);
    if f * f * den == num then f else f + 1
  }

  lemma CeilSqrtUnique(num: nat, den: Pos, m: nat)
    requires num <= m * m * den
    requires m == 0 || (m - 1) * (m - 1) * den < num
    ensures CeilSqrt(num, den) == m
  {
    var r := CeilSqrt(num, den);
    if r < m {
      SquareMono(r, m - 1, den);
    } else if r > m {
      SquareMono(m, r - 1, den);
    }
  }

  lemma CeilSqrtMono(a: nat, b: nat, den: Pos)
    requires a <= b
    ensures CeilSqrt(a, den) <= CeilSqrt(b, den)
  {
    var x, y := CeilSqrt(a, den), CeilSqrt(b, den);
    if y < x {
      SquareMono(y, x - 1, den);
    }
  }

  /** The floor never exceeds the ceiling, and they differ by at most one. */
  lemma FloorLeCeil(num: nat, den: Pos)
    ensures FloorSqrt(num, den) <= CeilSqrt(num, den) <= FloorSqrt(num, den) + 1
  {
  }

  /** `Math.round` of sqrt(num / den): the integer r with
      r - 1/2 <= sqrt(num / den) < r + 1/2, stated without fractions. */
  function RoundSqrt(num: nat, den: Pos): (r: nat)
    ensures r == 0 || (2 * r - 1) * (2 * r - 1) * den <= 4 * num
    ensures 4 * num < (2 * r + 1) * (2 * r + 1) * den
  {
    var s := FloorSqrt(4 * num, den);
    HalfUp(num, den, s);
    (s + 1) / 2
  }

  lemma HalfUp(num: nat, den: Pos, s: nat)
    requires s * s * den <= 4 * num < (s + 1) * (s + 1) * den
    ensures var r := (s + 1) / 2;
      (r == 0 || (2 * r - 1) * (2 * r - 1) * den <= 4 * num) &&
      4 * num < (2 * r + 1) * (2 * r + 1) * den
  {
    var r := (s + 1) / 2;
    if s == 2 * r {
      if r > 0 { SquareMono(2 * r - 1, 2 * r, den); }
    } else {
      assert s == 2 * r - 1;
      SquareMono(2 * r, 2 * r + 1, den);
    }
  }

  function Floor(x: Root): nat { FloorSqrt(x.num, x.den) }
  function Ceil(x: Root): nat { CeilSqrt(x.num, x.den) }
  function Round(x: Root): nat { RoundSqrt(x.num, x.den) }
}
