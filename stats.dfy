/**
 * The reduction of one target's samples to a summary record, shared by
 * `bench/parse-results.mjs` and its older copy `bench/results.mjs`
 * (`getMean`, `getStandardDeviation` and the body of `parseBenchRuns`).
 * Samples are whole numbers; mean and variance are exact quotients of
 * whole numbers.  The standard deviation is the square root of the
 * variance, which is not modelled.
 */
module Stats {
  import opened Wrappers
  import opened Ordering

  function Sum(s: seq<int>): int {
    if s == [] then 0 else s[0] + Sum(s[1..])
  }

  /** An exact quotient `num / den`, the value a JavaScript division approximates. */
  datatype Quotient = Quotient(num: int, den: nat)

  function Value(q: Quotient): real
    requires q.den > 0
  {
    q.num as real / q.den as real
  }

  /** `getMean`: the sum divided by the count. */
  function Mean(s: seq<int>): Quotient
    requires |s| > 0
  {
    Quotient(Sum(s), |s|)
  }

  function Square(d: int): int {
    d * d
  }

  /**
   * `Math.pow(x - mean, 2)` for `mean == total / n`, multiplied by `n * n`
   * so that it stays a whole number: `(n * x - total)^2`.
   */
  function ScaledSquares(s: seq<int>, n: nat, total: int): int {
    if s == [] then 0 else Square(n * s[0] - total) + ScaledSquares(s[1..], n, total)
  }

  /**
   * `getStandardDeviation` squared: the population variance, the mean of the
   * squared deviations from the mean, i.e. the sum of `(x - S/n)^2` over
   * `n`, written as the sum of `(n * x - S)^2` over `n^3`.
   */
  function Variance(s: seq<int>): Quotient
    requires |s| > 0
  {
    Quotient(ScaledSquares(s, |s|, Sum(s)), |s| * |s| * |s|)
  }

  predicate AllEqual(s: seq<int>) {
    forall i, j :: 0 <= i < |s| && 0 <= j < |s| ==> s[i] == s[j]
  }

  // ---------------------------------------------------------------------
  // Sums do not depend on the order of the samples

  lemma {:induction false} SumRemove(s: seq<int>, k: nat)
    requires k < |s|
    ensures Sum(s) == s[k] + Sum(s[..k] + s[k + 1..])
  {
    if k > 0 {
      SumRemove(s[1..], k - 1);
      assert s[1..][..k - 1] + s[1..][k..] == (s[..k] + s[k + 1..])[1..];
    } else {
      assert s[..0] + s[1..] == s[1..];
    }
  }

  lemma {:induction false} ScaledSquaresRemove(s: seq<int>, n: nat, total: int, k: nat)
    requires k < |s|
    ensures ScaledSquares(s, n, total) == Square(n * s[k] - total) + ScaledSquares(s[..k] + s[k + 1..], n, total)
  {
    if k > 0 {
      ScaledSquaresRemove(s[1..], n, total, k - 1);
      assert s[1..][..k - 1] + s[1..][k..] == (s[..k] + s[k + 1..])[1..];
    } else {
      assert s[..0] + s[1..] == s[1..];
    }
  }

  /** Where the first element of `a` sits in its permutation `b`, and what is left of both. */
  lemma MatchFirst(a: seq<int>, b: seq<int>) returns (k: nat)
    requires multiset(a) == multiset(b) && a != []
    ensures k < |b| && b[k] == a[0]
    ensures multiset(a[1..]) == multiset(b[..k] + b[k + 1..])
  {
    assert a == [a[0]] + a[1..];
    assert a[0] in multiset(b);
    k :| 0 <= k < |b| && b[k] == a[0];
    assert b == b[..k] + [b[k]] + b[k + 1..];
    assert multiset(b) == multiset(b[..k]) + multiset{b[k]} + multiset(b[k + 1..]);
    assert multiset(b[..k] + b[k + 1..]) == multiset(b[..k]) + multiset(b[k + 1..]);
    assert multiset(a) == multiset{a[0]} + multiset(a[1..]);
    calc {
      multiset(a[1..]);
      multiset(a) - multiset{a[0]};
      multiset(b) - multiset{b[k]};
      multiset(b[..k]) + multiset(b[k + 1..]);
    }
  }

  /** Two orderings of the same samples have the same sum and the same squared deviations. */
  lemma {:induction false} SumsArePermutationInvariant(a: seq<int>, b: seq<int>, n: nat, total: int)
    requires multiset(a) == multiset(b)
    ensures Sum(a) == Sum(b)
    ensures ScaledSquares(a, n, total) == ScaledSquares(b, n, total)
    decreases |a|
  {
    if a == [] {
      assert |b| == |multiset(b)| == 0;
    } else {
      var k := MatchFirst(a, b);
      SumsArePermutationInvariant(a[1..], b[..k] + b[k + 1..], n, total);
      SumRemove(b, k);
      ScaledSquaresRemove(b, n, total, k);
    }
  }

  /** The mean and the variance of the sorted samples are those of the samples. */
  lemma SortPreservesMeanAndVariance(s: seq<int>, le: Comparator)
    requires |s| > 0
    ensures Mean(SortBy(s, le)) == Mean(s)
    ensures Variance(SortBy(s, le)) == Variance(s)
  {
    var r := SortBy(s, le);
    SumsArePermutationInvariant(r, s, |s|, Sum(s));
  }

  // ---------------------------------------------------------------------
  // The variance

  lemma {:induction false} ScaledSquaresNonNegative(s: seq<int>, n: nat, total: int)
    ensures ScaledSquares(s, n, total) >= 0
    ensures ScaledSquares(s, n, total) == 0 <==> forall i :: 0 <= i < |s| ==> n * s[i] == total
  {
    if s != [] {
      ScaledSquaresNonNegative(s[1..], n, total);
      assert Square(n * s[0] - total) >= 0;
      if ScaledSquares(s, n, total) == 0 {
        forall i | 0 <= i < |s| ensures n * s[i] == total {
          if i > 0 { assert s[i] == s[1..][i - 1]; }
        }
      }
      if forall i :: 0 <= i < |s| ==> n * s[i] == total {
        forall i | 0 <= i < |s[1..]| ensures n * s[1..][i] == total {
          assert s[1..][i] == s[i + 1];
        }
      }
    }
  }

  lemma {:induction false} SumOfConstant(s: seq<int>, c: int)
    requires forall i :: 0 <= i < |s| ==> s[i] == c
    ensures Sum(s) == |s| * c
  {
    if s != [] {
      SumOfConstant(s[1..], c);
    }
  }

  lemma CancelFactor(n: int, x: int, y: int)
    requires n > 0 && n * x == n * y
    ensures x == y
  {
  }

  lemma CubePositive(n: int)
    requires n > 0
    ensures n * n * n > 0
  {
    assert n * n > 0;
  }

  /** The variance is a well-formed quotient and never negative. */
  lemma VarianceNonNegative(s: seq<int>)
    requires |s| > 0
    ensures Variance(s).den > 0 && Variance(s).num >= 0 && Value(Variance(s)) >= 0.0
  {
    var n := |s|;
    ScaledSquaresNonNegative(s, n, Sum(s));
    CubePositive(n);
  }

  /** The variance is zero exactly when every sample is the same. */
  lemma VarianceZeroIffAllEqual(s: seq<int>)
    requires |s| > 0
    ensures Variance(s).num == 0 <==> AllEqual(s)
  {
    var n, total := |s|, Sum(s);
    ScaledSquaresNonNegative(s, n, total);
    CubePositive(n);
    if AllEqual(s) {
      SumOfConstant(s, s[0]);
      assert forall i :: 0 <= i < |s| ==> n * s[i] == total;
    }
    if Variance(s).num == 0 {
      assert ScaledSquares(s, n, total) == 0;
      forall i, j | 0 <= i < n && 0 <= j < n ensures s[i] == s[j] {
        CancelFactor(n, s[i], s[j]);
      }
    }
  }

  // ---------------------------------------------------------------------
  // The summary record

  /** The `percentile` package, a foreign library: a value for a rank and a sorted sample list. */
  type Percentile = (nat, seq<int>) -> int

  /**
   * One entry of the parsed statistics.  `stddev` is reported as
   * `Math.sqrt(variance)`; the `percentiles` map has one key per `pNN` field.
   */
  datatype Summary = Summary(
    min: int, max: int, mean: Quotient, median: int, variance: Quotient, percentiles: map<nat, int>)

  /**
   * The body of `parseBenchRuns` for one target: sort the samples with `le`
   * and read the record off the sorted array.  An empty list fails, since
   * `all[0].toFixed` is called on `undefined`.
   */
  function Summarize(samples: seq<int>, le: Comparator, ranks: set<nat>, percentile: Percentile): (r: Result<Summary>)
    ensures r.Success? <==> |samples| > 0
    ensures r.Success? ==>
      && r.value.min in samples && r.value.max in samples && r.value.median in samples
      && r.value.mean == Mean(samples)
      && r.value.variance == Variance(samples)
      && r.value.percentiles.Keys == ranks
  {
    if |samples| == 0 then Failure("TypeError: cannot read properties of undefined (reading 'toFixed')")
    else
      var all := SortBy(samples, le);
      SortPreservesMeanAndVariance(samples, le);
      assert all[0] in multiset(samples) && all[|all| - 1] in multiset(samples);
      assert all[|all| / 2] in multiset(samples);
      Success(Summary(
        min := all[0],
        max := all[|all| - 1],
        mean := Mean(all),
        median := all[|all| / 2],
        variance := Variance(all),
        percentiles := map rank | rank in ranks :: percentile(rank, all)))
  }

  /**
   * Under any total preorder the record's min precedes, and its max follows,
   * every sample, and the median lies between them.
   */
  lemma SummaryBounds(samples: seq<int>, le: Comparator, ranks: set<nat>, percentile: Percentile)
    requires TotalPreorder(le) && |samples| > 0
    ensures var s := Summarize(samples, le, ranks, percentile).value;
      && (forall x | x in samples :: le(s.min, x) && le(x, s.max))
      && le(s.min, s.median) && le(s.median, s.max)
  {
    SortedEnds(samples, le);
    SortBySorted(samples, le);
    var all := SortBy(samples, le);
    var s := Summarize(samples, le, ranks, percentile).value;
    assert all[|all| / 2] in multiset(samples);
  }

  /** The median is the element at index floor(n/2) of the sorted samples. */
  lemma MedianIsUpperMiddle(samples: seq<int>, le: Comparator, ranks: set<nat>, percentile: Percentile)
    requires TotalPreorder(le) && |samples| > 0
    ensures var s := Summarize(samples, le, ranks, percentile).value;
      var all := SortBy(samples, le);
      && Sorted(all, le) && multiset(all) == multiset(samples)
      && s.median == all[|samples| / 2]
  {
    SortBySorted(samples, le);
  }

  /** With a numeric comparator, min and max are the numeric extremes of the samples. */
  lemma NumericExtremes(samples: seq<int>, ranks: set<nat>, percentile: Percentile)
    requires |samples| > 0
    ensures var s := Summarize(samples, NumericLe, ranks, percentile).value;
      && s.min in samples && s.max in samples
      && forall x | x in samples :: s.min <= x <= s.max
  {
    NumericLeIsTotalPreorder();
    SummaryBounds(samples, NumericLe, ranks, percentile);
  }

  /**
   * The default `.sort()` puts 10 before 9, so for the samples [9, 10] the
   * reported min is 10 and the reported max is 9.
   */
  lemma DefaultOrderMisplacesExtremes(ranks: set<nat>, percentile: Percentile)
    ensures var s := Summarize([9, 10], JsDefaultLe, ranks, percentile).value;
      s.min == 10 && s.max == 9
  {
    assert NatString(10) == NatString(1) + [Digit(0)] == ['1', '0'];
    assert !JsDefaultLe(9, 10) by {
      assert DecimalString(9) == ['9'] && DecimalString(10) == ['1', '0'];
    }
    assert SortBy([10], JsDefaultLe) == [10];
    assert SortBy([9, 10], JsDefaultLe) == Insert(9, [10], JsDefaultLe) by {
      assert [9, 10][1..] == [10];
    }
  }

  /**
   * Samples whose decimal strings all have the same length (for instance
   * non-negative integers with the same number of digits) are ordered by the
   * default `.sort()` as by a numeric sort.
   */
  lemma DefaultOrderAgreesOnSameWidth(samples: seq<nat>, w: nat, ranks: set<nat>, percentile: Percentile)
    requires |samples| > 0
    requires forall i :: 0 <= i < |samples| ==> |NatString(samples[i])| == w
    ensures Summarize(samples, JsDefaultLe, ranks, percentile)
         == Summarize(samples, NumericLe, ranks, percentile)
  {
    assert forall x :: x in samples ==> x >= 0;
    AgreeingOrdersSortAlike(samples, w);
  }

  lemma {:induction false} AgreeingOrdersSortAlike(s: seq<int>, w: nat)
    requires forall i :: 0 <= i < |s| ==> s[i] >= 0 && |NatString(s[i])| == w
    ensures SortBy(s, JsDefaultLe) == SortBy(s, NumericLe)
  {
    if s != [] {
      AgreeingOrdersSortAlike(s[1..], w);
      var t := SortBy(s[1..], NumericLe);
      forall i | 0 <= i < |t| ensures t[i] >= 0 && |NatString(t[i])| == w {
        assert t[i] in multiset(s[1..]);
        var k :| 0 <= k < |s[1..]| && s[1..][k] == t[i];
        assert s[k + 1] == t[i];
      }
      InsertAgrees(s[0], t, w);
    }
  }

  lemma {:induction false} InsertAgrees(x: int, t: seq<int>, w: nat)
    requires x >= 0 && |NatString(x)| == w
    requires forall i :: 0 <= i < |t| ==> t[i] >= 0 && |NatString(t[i])| == w
    ensures Insert(x, t, JsDefaultLe) == Insert(x, t, NumericLe)
  {
    if t != [] {
      SameWidthOrdersAgree(x, t[0]);
      InsertAgrees(x, t[1..], w);
    }
  }

  lemma FourSamplesSorted()
    ensures SortBy([10, 20, 30, 40], NumericLe) == [10, 20, 30, 40]
  {
    SortingSortedIsIdentity([10, 20, 30, 40], NumericLe);
  }

  lemma FourSamplesWidth()
    ensures forall i :: 0 <= i < 4 ==> [10, 20, 30, 40][i] >= 0 && |NatString([10, 20, 30, 40][i])| == 2
  {
    forall i | 0 <= i < 4 ensures |NatString([10, 20, 30, 40][i])| == 2 {
      var x := [10, 20, 30, 40][i];
      assert NatString(x) == NatString(x / 10) + [Digit(x % 10)];
    }
  }

  lemma FourSamplesSum()
    ensures Sum([10, 20, 30, 40]) == 100
  {
    var xs := [10, 20, 30, 40];
    assert xs[1..] == [20, 30, 40] && [20, 30, 40][1..] == [30, 40] && [30, 40][1..] == [40];
  }

  /** The record's min, max and median are read off the sorted samples. */
  lemma SummaryReadsSorted(samples: seq<int>, le: Comparator, ranks: set<nat>, percentile: Percentile)
    requires |samples| > 0
    ensures var s := Summarize(samples, le, ranks, percentile).value;
      var all := SortBy(samples, le);
      && s.min == all[0] && s.max == all[|all| - 1] && s.median == all[|all| / 2]
  {
  }

  /** Four samples 10, 20, 30, 40: median 30 (the upper middle, no averaging), min 10, max 40. */
  lemma EvenCountMedianExample(ranks: set<nat>, percentile: Percentile)
    ensures var s := Summarize([10, 20, 30, 40], NumericLe, ranks, percentile).value;
      s.median == 30 && s.min == 10 && s.max == 40
  {
    SummaryReadsSorted([10, 20, 30, 40], NumericLe, ranks, percentile);
    FourSamplesSorted();
  }

  /** Four samples 10, 20, 30, 40: mean 25. */
  lemma EvenCountMeanExample(ranks: set<nat>, percentile: Percentile)
    ensures var s := Summarize([10, 20, 30, 40], NumericLe, ranks, percentile).value;
      s.mean.den > 0 && Value(s.mean) == 25.0
  {
    var s := Summarize([10, 20, 30, 40], NumericLe, ranks, percentile).value;
    FourSamplesSum();
    assert s.mean == Quotient(100, 4);
  }

  /** The default `.sort()` gives the same record for these four samples. */
  lemma EvenCountDefaultOrderExample(ranks: set<nat>, percentile: Percentile)
    ensures Summarize([10, 20, 30, 40], JsDefaultLe, ranks, percentile)
         == Summarize([10, 20, 30, 40], NumericLe, ranks, percentile)
  {
    FourSamplesWidth();
    AgreeingOrdersSortAlike([10, 20, 30, 40], 2);
  }
}
