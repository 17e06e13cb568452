/**
 * `Array.prototype.filter`, the running sums of the `forEach` aggregations,
 * and the ordering that `Array.prototype.sort` establishes, over sequences.
 */
module Seqs {

  /** The elements of `s` that satisfy `keep`, in their original order. */
  function Filter<T(!new)>(s: seq<T>, keep: T -> bool): (r: seq<T>)
    ensures |r| <= |s|
    ensures forall x :: x in r <==> x in s && keep(x)
  {
    if |s| == 0 then []
    else (if keep(s[0]) then [s[0]] else []) + Filter(s[1..], keep)
  }

  /** Filtering a concatenation filters each part. */
  lemma {:induction false} FilterAppend<T(!new)>(a: seq<T>, b: seq<T>, keep: T -> bool)
    ensures Filter(a + b, keep) == Filter(a, keep) + Filter(b, keep)
  {
    if |a| > 0 {
      assert (a + b)[1..] == a[1..] + b;
      FilterAppend(a[1..], b, keep);
    } else {
      assert a + b == b;
    }
  }

  /**
   * The positions of `s` that `Filter` keeps. They are strictly increasing and
   * the k-th kept element is the element at the k-th position: filtering
   * preserves the input order.
   */
  lemma {:induction false} FilterPositions<T(!new)>(s: seq<T>, keep: T -> bool) returns (idx: seq<nat>)
    ensures |idx| == |Filter(s, keep)|
    ensures forall k :: 0 <= k < |idx| ==> idx[k] < |s| && s[idx[k]] == Filter(s, keep)[k]
    ensures forall k, l :: 0 <= k < l < |idx| ==> idx[k] < idx[l]
  {
    if |s| == 0 {
      idx := [];
    } else {
      var rest := FilterPositions(s[1..], keep);
      var tail := Filter(s[1..], keep);
      if keep(s[0]) {
        idx := KeptHead(s, keep, rest);
      } else {
        assert Filter(s, keep) == tail;
        idx := Shift(rest);
        forall k | 0 <= k < |idx|
          ensures idx[k] < |s| && s[idx[k]] == tail[k] && keep(s[idx[k]])
        {
          assert s[idx[k]] == s[1..][rest[k]];
        }
      }
    }
  }

  /** The step of `FilterPositions` when the head is kept. */
  lemma KeptHead<T(!new)>(s: seq<T>, keep: T -> bool, rest: seq<nat>) returns (idx: seq<nat>)
    requires |s| > 0 && keep(s[0])
    requires |rest| == |Filter(s[1..], keep)|
    requires forall k :: 0 <= k < |rest| ==> rest[k] < |s| - 1 && s[1..][rest[k]] == Filter(s[1..], keep)[k]
    requires forall k, l :: 0 <= k < l < |rest| ==> rest[k] < rest[l]
    ensures |idx| == |Filter(s, keep)|
    ensures forall k :: 0 <= k < |idx| ==> idx[k] < |s| && s[idx[k]] == Filter(s, keep)[k]
    ensures forall k, l :: 0 <= k < l < |idx| ==> idx[k] < idx[l]
  {
    var r := [s[0]] + Filter(s[1..], keep);
    assert Filter(s, keep) == r;
    idx := [0] + Shift(rest);
    forall k | 0 <= k < |idx|
      ensures idx[k] < |s| && s[idx[k]] == r[k]
    {
      if k > 0 {
        assert s[idx[k]] == s[1..][rest[k - 1]];
      }
    }
  }

  /** Every position moved one place to the right. */
  function Shift(idx: seq<nat>): (r: seq<nat>)
    ensures |r| == |idx|
    ensures forall k :: 0 <= k < |r| ==> r[k] == idx[k] + 1
  {
    seq(|idx|, k requires 0 <= k < |idx| => idx[k] + 1)
  }

  /** Filtering twice is filtering once by the conjunction. */
  lemma {:induction false} FilterFilter<T(!new)>(s: seq<T>, p: T -> bool, q: T -> bool, both: T -> bool)
    requires forall x :: both(x) == (p(x) && q(x))
    ensures Filter(Filter(s, p), q) == Filter(s, both)
  {
    if |s| > 0 {
      FilterAppend(if p(s[0]) then [s[0]] else [], Filter(s[1..], p), q);
      FilterFilter(s[1..], p, q, both);
    }
  }

  /** `xs.some(x => ys.includes(x))`, scanning `xs` from the left. */
  function SomeIn<T(==)>(xs: seq<T>, ys: seq<T>): (r: bool)
    ensures r <==> exists i :: 0 <= i < |xs| && xs[i] in ys
  {
    if |xs| == 0 then false
    else if xs[0] in ys then true
    else
      assert forall i :: 1 <= i < |xs| ==> xs[i] == xs[1..][i - 1];
      SomeIn(xs[1..], ys)
  }

  // ----- sums -----

  /** `f(s[0]) + f(s[1]) + ...`, accumulated from the left as `forEach` does. */
  function Sum<T>(s: seq<T>, f: T -> int): int
  {
    if |s| == 0 then 0 else Sum(s[..|s| - 1], f) + f(s[|s| - 1])
  }

  function SumReal<T>(s: seq<T>, f: T -> real): real
  {
    if |s| == 0 then 0.0 else SumReal(s[..|s| - 1], f) + f(s[|s| - 1])
  }

  lemma {:induction false} SumAppend<T>(a: seq<T>, b: seq<T>, f: T -> int)
    ensures Sum(a + b, f) == Sum(a, f) + Sum(b, f)
  {
    if |b| > 0 {
      assert (a + b)[..|a + b| - 1] == a + b[..|b| - 1];
      SumAppend(a, b[..|b| - 1], f);
    } else {
      assert a + b == a;
    }
  }

  lemma {:induction false} SumRealAppend<T>(a: seq<T>, b: seq<T>, f: T -> real)
    ensures SumReal(a + b, f) == SumReal(a, f) + SumReal(b, f)
  {
    if |b| > 0 {
      assert (a + b)[..|a + b| - 1] == a + b[..|b| - 1];
      SumRealAppend(a, b[..|b| - 1], f);
    } else {
      assert a + b == a;
    }
  }

  /** Replacing one element changes the sum by the difference of its terms. */
  lemma SumUpdate<T>(s: seq<T>, k: nat, x: T, f: T -> int)
    requires k < |s|
    ensures Sum(s[k := x], f) == Sum(s, f) - f(s[k]) + f(x)
  {
    assert s == s[..k] + [s[k]] + s[k + 1..];
    assert s[k := x] == s[..k] + [x] + s[k + 1..];
    SumAppend(s[..k] + [s[k]], s[k + 1..], f);
    SumAppend(s[..k] + [x], s[k + 1..], f);
    SumAppend(s[..k], [s[k]], f);
    SumAppend(s[..k], [x], f);
  }

  lemma SumRealUpdate<T>(s: seq<T>, k: nat, x: T, f: T -> real)
    requires k < |s|
    ensures SumReal(s[k := x], f) == SumReal(s, f) - f(s[k]) + f(x)
  {
    assert s == s[..k] + [s[k]] + s[k + 1..];
    assert s[k := x] == s[..k] + [x] + s[k + 1..];
    SumRealAppend(s[..k] + [s[k]], s[k + 1..], f);
    SumRealAppend(s[..k] + [x], s[k + 1..], f);
    SumRealAppend(s[..k], [s[k]], f);
    SumRealAppend(s[..k], [x], f);
  }

  /** One for an element satisfying `p`, zero otherwise. */
  function Indicator<T>(p: T -> bool): T -> int
  {
    x => if p(x) then 1 else 0
  }

  /** The number of elements satisfying `p`, as a sum of ones. */
  lemma {:induction false} CountIsSum<T(!new)>(s: seq<T>, p: T -> bool)
    ensures |Filter(s, p)| == Sum(s, Indicator(p))
  {
    if |s| > 0 {
      var init := s[..|s| - 1];
      assert s == init + [s[|s| - 1]];
      FilterAppend(init, [s[|s| - 1]], p);
      CountIsSum(init, p);
    }
  }

  /** Replacing one element changes the count by what the old and the new element contribute. */
  lemma CountUpdate<T(!new)>(s: seq<T>, k: nat, x: T, p: T -> bool)
    requires k < |s|
    ensures |Filter(s[k := x], p)| == |Filter(s, p)| - (if p(s[k]) then 1 else 0) + (if p(x) then 1 else 0)
  {
    CountIsSum(s, p);
    CountIsSum(s[k := x], p);
    SumUpdate(s, k, x, Indicator(p));
  }

  // ----- ordering -----

  /** `s` is in non-decreasing order of `key`. */
  predicate SortedBy<T>(s: seq<T>, key: T -> real)
  {
    forall i, j :: 0 <= i < j < |s| ==> key(s[i]) <= key(s[j])
  }
}
