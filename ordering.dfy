/**
 * Sorting of numeric samples as `Array.prototype.sort` does it, with the
 * comparator as a parameter.  The statistics call `.sort()` with no argument,
 * which orders numbers by their decimal strings (`JsDefaultLe` below); the
 * numeric order (`NumericLe`) is what the statistics evidently intend.
 */
module Ordering {

  /** `le(a, b)`: `a` may be placed before `b`. */
  type Comparator = (int, int) -> bool

  ghost predicate TotalPreorder(le: Comparator) {
    && (forall a, b :: le(a, b) || le(b, a))
    && (forall a, b, c :: le(a, b) && le(b, c) ==> le(a, c))
  }

  lemma Total(le: Comparator, a: int, b: int)
    requires TotalPreorder(le)
    ensures le(a, b) || le(b, a)
  {
  }

  lemma Transitive(le: Comparator, a: int, b: int, c: int)
    requires TotalPreorder(le) && le(a, b) && le(b, c)
    ensures le(a, c)
  {
  }

  predicate Sorted(s: seq<int>, le: Comparator) {
    forall i, j :: 0 <= i < j < |s| ==> le(s[i], s[j])
  }

  /** Places `x` before the first element it may precede. */
  function Insert(x: int, s: seq<int>, le: Comparator): (r: seq<int>)
    ensures multiset(r) == multiset(s) + multiset{x}
    ensures |r| == |s| + 1
  {
    if s == [] || le(x, s[0]) then [x] + s
    else
      assert s == [s[0]] + s[1..];
      [s[0]] + Insert(x, s[1..], le)
  }

  /** Insertion sort; for a total order its output is the one sorted permutation. */
  function SortBy(s: seq<int>, le: Comparator): (r: seq<int>)
    ensures multiset(r) == multiset(s)
    ensures |r| == |s|
  {
    if s == [] then []
    else
      assert s == [s[0]] + s[1..];
      Insert(s[0], SortBy(s[1..], le), le)
  }

  /** A sorted list stays sorted when an element that precedes all of it is put in front. */
  lemma ConsSorted(y: int, t: seq<int>, le: Comparator)
    requires Sorted(t, le)
    requires forall i :: 0 <= i < |t| ==> le(y, t[i])
    ensures Sorted([y] + t, le)
  {
    var r := [y] + t;
    forall i, j | 0 <= i < j < |r| ensures le(r[i], r[j]) {
      assert r[j] == t[j - 1];
      if i > 0 { assert r[i] == t[i - 1]; }
    }
  }

  lemma {:induction false} InsertSorted(x: int, s: seq<int>, le: Comparator)
    requires TotalPreorder(le) && Sorted(s, le)
    ensures Sorted(Insert(x, s, le), le)
  {
    if s == [] {
    } else if le(x, s[0]) {
      forall j | 0 <= j < |s| ensures le(x, s[j]) {
        if j > 0 { Transitive(le, x, s[0], s[j]); }
      }
      ConsSorted(x, s, le);
    } else {
      Total(le, x, s[0]);
      var t := Insert(x, s[1..], le);
      InsertSorted(x, s[1..], le);
      forall i | 0 <= i < |t| ensures le(s[0], t[i]) {
        var y := t[i];
        assert y in multiset(t);
        if y != x {
          assert y in multiset(s[1..]);
          var k :| 0 <= k < |s[1..]| && s[1..][k] == y;
          assert s[k + 1] == y;
        }
      }
      ConsSorted(s[0], t, le);
    }
  }

  /** `SortBy` sorts under any total preorder. */
  lemma {:induction false} SortBySorted(s: seq<int>, le: Comparator)
    requires TotalPreorder(le)
    ensures Sorted(SortBy(s, le), le)
  {
    if s != [] {
      SortBySorted(s[1..], le);
      InsertSorted(s[0], SortBy(s[1..], le), le);
    }
  }

  /** Samples already in order come out of `SortBy` unchanged. */
  lemma {:induction false} SortingSortedIsIdentity(s: seq<int>, le: Comparator)
    requires Sorted(s, le)
    ensures SortBy(s, le) == s
  {
    if s != [] {
      assert Sorted(s[1..], le);
      SortingSortedIsIdentity(s[1..], le);
      assert s == [s[0]] + s[1..];
    }
  }

  /** The first element of the sorted samples precedes every sample, the last follows every sample. */
  lemma SortedEnds(s: seq<int>, le: Comparator)
    requires TotalPreorder(le) && |s| > 0
    ensures var r := SortBy(s, le);
      forall x | x in s :: le(r[0], x) && le(x, r[|r| - 1])
  {
    var r := SortBy(s, le);
    SortBySorted(s, le);
    forall x | x in s ensures le(r[0], x) && le(x, r[|r| - 1]) {
      assert x in multiset(r);
      var k :| 0 <= k < |r| && r[k] == x;
      assert le(x, x) by { assert le(x, x) || le(x, x); }
    }
  }

  // ---------------------------------------------------------------------
  // Orders

  /** Ascending numeric order, the order a `(a, b) => a - b` comparator gives. */
  predicate NumericLe(a: int, b: int) {
    a <= b
  }

  lemma NumericLeIsTotalPreorder()
    ensures TotalPreorder(NumericLe)
  {
  }

  function Digit(d: int): (c: char)
    requires 0 <= d < 10
    ensures '0' <= c <= '9'
  {
    (48 + d) as char
  }

  /** Decimal digits of a natural number, without leading zeros. */
  function NatString(n: nat): (s: string)
    ensures 1 <= |s|
    ensures n < 10 <==> |s| == 1
    decreases n
  {
    if n < 10 then [Digit(n)] else NatString(n / 10) + [Digit(n % 10)]
  }

  /** `String(x)` for an integer-valued JavaScript number. */
  function DecimalString(x: int): string {
    if x < 0 then ['-'] + NatString(-x) else NatString(x)
  }

  /** JavaScript's `a <= b` on strings: code unit by code unit, a prefix first. */
  predicate LexLe(a: string, b: string) {
    if a == [] then true
    else if b == [] then false
    else if a[0] != b[0] then a[0] < b[0]
    else LexLe(a[1..], b[1..])
  }

  lemma {:induction false} LexTotal(a: string, b: string)
    ensures LexLe(a, b) || LexLe(b, a)
  {
    if a != [] && b != [] && a[0] == b[0] {
      LexTotal(a[1..], b[1..]);
    }
  }

  lemma {:induction false} LexTransitive(a: string, b: string, c: string)
    requires LexLe(a, b) && LexLe(b, c)
    ensures LexLe(a, c)
  {
    if a != [] && b != [] && c != [] && a[0] == b[0] && b[0] == c[0] {
      LexTransitive(a[1..], b[1..], c[1..]);
    }
  }

  /** The order `.sort()` without a comparator puts numbers in. */
  predicate JsDefaultLe(a: int, b: int) {
    LexLe(DecimalString(a), DecimalString(b))
  }

  lemma JsDefaultLeIsTotalPreorder()
    ensures TotalPreorder(JsDefaultLe)
  {
    forall a, b ensures JsDefaultLe(a, b) || JsDefaultLe(b, a) {
      LexTotal(DecimalString(a), DecimalString(b));
    }
    forall a, b, c | JsDefaultLe(a, b) && JsDefaultLe(b, c) ensures JsDefaultLe(a, c) {
      LexTransitive(DecimalString(a), DecimalString(b), DecimalString(c));
    }
  }

  /** Comparing two strings of equal length that differ only after their common part. */
  lemma {:induction false} LexLeSnoc(a: string, b: string, c: char, d: char)
    requires |a| == |b|
    ensures LexLe(a + [c], b + [d]) <==> (a == b && c <= d) || (a != b && LexLe(a, b))
  {
    if a == [] {
      assert (a + [c])[1..] == [] && (b + [d])[1..] == [];
    } else {
      assert (a + [c])[1..] == a[1..] + [c];
      assert (b + [d])[1..] == b[1..] + [d];
      LexLeSnoc(a[1..], b[1..], c, d);
      if a[0] == b[0] {
        assert a == [a[0]] + a[1..] && b == [b[0]] + b[1..];
        assert a == b <==> a[1..] == b[1..];
      }
    }
  }

  lemma {:induction false} LexLeAntisymmetric(a: string, b: string)
    requires LexLe(a, b) && LexLe(b, a)
    ensures a == b
  {
    if a != [] && b != [] {
      LexLeAntisymmetric(a[1..], b[1..]);
      assert a == [a[0]] + a[1..] && b == [b[0]] + b[1..];
    }
  }

  /**
   * For non-negative integers written with the same number of digits, the
   * string order and the numeric order agree.
   */
  lemma {:induction false} SameWidthOrdersAgree(a: nat, b: nat)
    requires |NatString(a)| == |NatString(b)|
    ensures JsDefaultLe(a, b) <==> NumericLe(a, b)
    decreases a + b
  {
    if a < 10 {
      assert b < 10;
      assert NatString(a) == [Digit(a)] && NatString(b) == [Digit(b)];
      assert Digit(a) as int == 48 + a && Digit(b) as int == 48 + b;
      assert Digit(a) <= Digit(b) <==> a <= b;
      assert DecimalString(a) == [Digit(a)] && DecimalString(b) == [Digit(b)];
      if a != b {
        assert Digit(a) != Digit(b);
        assert JsDefaultLe(a, b) <==> Digit(a) < Digit(b);
      } else {
        assert [Digit(a)][1..] == [];
        assert LexLe([], []);
      }
    } else {
      var A, B := NatString(a / 10), NatString(b / 10);
      assert NatString(a) == A + [Digit(a % 10)];
      assert NatString(b) == B + [Digit(b % 10)];
      LexLeSnoc(A, B, Digit(a % 10), Digit(b % 10));
      SameWidthOrdersAgree(a / 10, b / 10);
      SameWidthOrdersAgree(b / 10, a / 10);
      if A == B {
        assert a / 10 == b / 10;
      } else {
        assert a / 10 != b / 10;
      }
    }
  }
}
