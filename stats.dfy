/**
 * The running statistics every decoder variant keeps: bounded histories
 * (`collections.deque(maxlen=...)`), their arithmetic mean (`np.mean`) and
 * their median (`statistics.median`). Values are exact reals; the source
 * works in binary floating point.
 */
module Stats {

  /** `deque(maxlen=cap).append(x)` on a deque holding `q`: the newest `cap` values of `q + [x]`. */
  function PushBounded(q: seq<real>, x: real, cap: nat): (r: seq<real>)
    requires |q| <= cap
    ensures |q| < cap ==> r == q + [x]
    ensures 0 < cap && |q| == cap ==> r == q[1..] + [x]
    ensures cap == 0 ==> r == []
  {
    var all := q + [x];
    if |all| <= cap then all else all[|all| - cap..]
  }

  /** Every value of the history lies strictly above `lo`. */
  predicate AllAbove(q: seq<real>, lo: real)
  {
    forall i :: 0 <= i < |q| ==> q[i] > lo
  }

  /** Every value of the history lies strictly below `hi`. */
  predicate AllBelow(q: seq<real>, hi: real)
  {
    forall i :: 0 <= i < |q| ==> q[i] < hi
  }

  lemma {:induction false} PushKeepsAbove(q: seq<real>, x: real, cap: nat, lo: real)
    requires |q| <= cap && AllAbove(q, lo) && x > lo
    ensures AllAbove(PushBounded(q, x, cap), lo)
    ensures |PushBounded(q, x, cap)| <= cap
  {
  }

  function Sum(q: seq<real>): real
  {
    if q == [] then 0.0 else Sum(q[..|q| - 1]) + q[|q| - 1]
  }

  /** `np.mean`: the sum divided by the count. */
  function Mean(q: seq<real>): real
    requires q != []
  {
    Sum(q) / |q| as real
  }

  lemma {:induction false} SumBounds(q: seq<real>, lo: real, hi: real)
    requires forall i :: 0 <= i < |q| ==> lo <= q[i] <= hi
    ensures |q| as real * lo <= Sum(q) <= |q| as real * hi
  {
    if q != [] {
      var p := q[..|q| - 1];
      var x := q[|q| - 1];
      assert forall i :: 0 <= i < |p| ==> p[i] == q[i];
      SumBounds(p, lo, hi);
      var n := |p| as real;
      assert Sum(q) == Sum(p) + x;
      assert |q| as real == n + 1.0;
      assert lo <= x <= hi;
      OneMore(n, lo);
      OneMore(n, hi);
    }
  }

  /** Scaling by one more item adds the scaled value once more. */
  lemma OneMore(n: real, x: real)
    ensures (n + 1.0) * x == n * x + x
  {
  }

  lemma {:induction false} SumStrictlyAbove(q: seq<real>, lo: real)
    requires q != [] && AllAbove(q, lo)
    ensures Sum(q) > |q| as real * lo
  {
    if |q| > 1 {
      var p := q[..|q| - 1];
      SumStrictlyAbove(p, lo);
      OneMore(|p| as real, lo);
    }
  }

  /** The mean of a history whose values all exceed `lo` exceeds `lo` too. */
  lemma MeanAbove(q: seq<real>, lo: real)
    requires q != [] && AllAbove(q, lo)
    ensures Mean(q) > lo
  {
    SumStrictlyAbove(q, lo);
    var n := |q| as real;
    assert Sum(q) / n > lo by {
      assert Sum(q) > n * lo;
    }
  }

  /** The mean lies between the smallest and the largest bound of the values. */
  lemma MeanWithin(q: seq<real>, lo: real, hi: real)
    requires q != []
    requires forall i :: 0 <= i < |q| ==> lo <= q[i] <= hi
    ensures lo <= Mean(q) <= hi
  {
    SumBounds(q, lo, hi);
    var n := |q| as real;
    assert n * lo <= Sum(q) <= n * hi;
    DivWithin(Sum(q), n, lo, hi);
  }

  /** Dividing by a positive count keeps a value between the scaled bounds between the bounds. */
  lemma DivWithin(a: real, n: real, lo: real, hi: real)
    requires n > 0.0 && n * lo <= a <= n * hi
    ensures lo <= a / n <= hi
  {
    var m := a / n;
    assert m * n == a;
    assert (m - lo) * n == a - n * lo;
    assert (hi - m) * n == n * hi - a;
  }

  // ---------------------------------------------------------------- sorting

  predicate IsSorted(s: seq<real>)
  {
    forall i, j :: 0 <= i <= j < |s| ==> s[i] <= s[j]
  }

  /** Insert `x` into the sorted sequence `s`. */
  function Insert(s: seq<real>, x: real): (r: seq<real>)
    ensures |r| == |s| + 1
  {
    if s == [] then [x]
    else if x <= s[0] then [x] + s
    else [s[0]] + Insert(s[1..], x)
  }

  /** Inserting adds exactly `x` to the values. */
  lemma {:induction false} InsertCount(s: seq<real>, x: real)
    ensures multiset(Insert(s, x)) == multiset(s) + multiset{x}
  {
    if s != [] && !(x <= s[0]) {
      InsertCount(s[1..], x);
      assert s == [s[0]] + s[1..];
      assert Insert(s, x) == [s[0]] + Insert(s[1..], x);
    }
  }

  /** Inserting keeps a sorted sequence sorted. */
  lemma {:induction false} InsertSorted(s: seq<real>, x: real)
    requires IsSorted(s)
    ensures IsSorted(Insert(s, x))
  {
    if s != [] && !(x <= s[0]) {
      var rest := Insert(s[1..], x);
      InsertSorted(s[1..], x);
      InsertAbove(s[1..], x, s[0]);
      assert Insert(s, x) == [s[0]] + rest;
    }
  }

  /** A lower bound of `s` and of `x` bounds every value of the insertion. */
  lemma {:induction false} InsertAbove(s: seq<real>, x: real, lo: real)
    requires lo <= x && forall i :: 0 <= i < |s| ==> lo <= s[i]
    ensures forall i :: 0 <= i < |Insert(s, x)| ==> lo <= Insert(s, x)[i]
  {
    if s != [] && !(x <= s[0]) {
      InsertAbove(s[1..], x, lo);
      assert Insert(s, x) == [s[0]] + Insert(s[1..], x);
    }
  }

  /** `sorted(q)`: the values of `q` in ascending order. */
  function SortedCopy(q: seq<real>): (s: seq<real>)
    ensures |s| == |q|
  {
    if q == [] then []
    else Insert(SortedCopy(q[..|q| - 1]), q[|q| - 1])
  }

  /** The sorted copy is sorted and holds the same values, as often. */
  lemma {:induction false} SortedCopyFacts(q: seq<real>)
    ensures multiset(SortedCopy(q)) == multiset(q)
    ensures IsSorted(SortedCopy(q))
  {
    if q != [] {
      var p, x := q[..|q| - 1], q[|q| - 1];
      var sp := SortedCopy(p);
      assert SortedCopy(q) == Insert(sp, x);
      SortedCopyFacts(p);
      assert IsSorted(Insert(sp, x)) by {
        InsertSorted(sp, x);
      }
      assert multiset(Insert(sp, x)) == multiset(q) by {
        InsertCount(sp, x);
        assert q == p + [x];
      }
    }
  }

  /**
   * `statistics.median`: the middle value of the sorted data, or the average of
   * the two middle values when the count is even.
   */
  function Median(q: seq<real>): real
    requires q != []
  {
    var s := SortedCopy(q);
    var n := |s|;
    if n % 2 == 1 then s[n / 2] else (s[n / 2 - 1] + s[n / 2]) / 2.0
  }

  /** A value of the sorted copy is a value of the original. */
  lemma SortedValueFrom(q: seq<real>, k: nat)
    requires k < |q|
    ensures exists i :: 0 <= i < |q| && q[i] == SortedCopy(q)[k]
  {
    var s := SortedCopy(q);
    SortedCopyFacts(q);
    assert s[k] in multiset(s);
    assert s[k] in multiset(q);
  }

  /** The median of values that all exceed `lo` exceeds `lo`. */
  lemma MedianAbove(q: seq<real>, lo: real)
    requires q != [] && AllAbove(q, lo)
    ensures Median(q) > lo
  {
    var s := SortedCopy(q);
    var n := |s|;
    SortedValueFrom(q, n / 2);
    if n % 2 == 0 {
      SortedValueFrom(q, n / 2 - 1);
    }
  }

  /** The median of values that all lie below `hi` lies below `hi`. */
  lemma MedianBelow(q: seq<real>, hi: real)
    requires q != [] && AllBelow(q, hi)
    ensures Median(q) < hi
  {
    var s := SortedCopy(q);
    var n := |s|;
    SortedValueFrom(q, n / 2);
    if n % 2 == 0 {
      SortedValueFrom(q, n / 2 - 1);
    }
  }
}
