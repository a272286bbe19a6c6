/**
  Reference sums over sequences. Every aggregate on the dashboard is, in the
  end, a sum of one number per element of a list; `SumBy` is the definition
  the folds of the page are compared against.
 */
module Sums {

  /** The sum of `f(x)` over the elements `x` of `s`, first element first. */
  function SumBy<T>(s: seq<T>, f: T -> real): real
    decreases |s|
  {
    if |s| == 0 then 0.0 else f(s[0]) + SumBy(s[1..], f)
  }

  /** Summing a concatenation is summing the parts. */
  lemma {:induction false} SumByAppend<T>(a: seq<T>, b: seq<T>, f: T -> real)
    ensures SumBy(a + b, f) == SumBy(a, f) + SumBy(b, f)
    decreases |a|
  {
    if |a| == 0 {
      assert a + b == b;
    } else {
      assert (a + b)[1..] == a[1..] + b;
      SumByAppend(a[1..], b, f);
    }
  }

  /** Adding one element at the end adds exactly its value. */
  lemma SumBySnoc<T>(s: seq<T>, x: T, f: T -> real)
    ensures SumBy(s + [x], f) == SumBy(s, f) + f(x)
  {
    SumByAppend(s, [x], f);
    assert SumBy([x], f) == f(x) + SumBy([x][1..], f);
  }

  /** Taking out the element at index `i` leaves a list with its multiset minus that element. */
  lemma RemoveAtMultiset<T>(b: seq<T>, i: nat)
    requires i < |b|
    ensures multiset(b[..i] + b[i + 1..]) == multiset(b) - multiset{b[i]}
  {
    assert b == b[..i] + [b[i]] + b[i + 1..];
  }

  /** The sum over a list is the value at index `i` plus the sum over the rest. */
  lemma SumByRemoveAt<T>(b: seq<T>, i: nat, f: T -> real)
    requires i < |b|
    ensures SumBy(b, f) == f(b[i]) + SumBy(b[..i] + b[i + 1..], f)
  {
    assert b == b[..i] + ([b[i]] + b[i + 1..]);
    SumByAppend(b[..i], [b[i]] + b[i + 1..], f);
    assert ([b[i]] + b[i + 1..])[1..] == b[i + 1..];
    SumByAppend(b[..i], b[i + 1..], f);
  }

  /** The sum does not depend on the order of the elements. */
  lemma {:induction false} SumByPermutation<T>(a: seq<T>, b: seq<T>, f: T -> real)
    requires multiset(a) == multiset(b)
    ensures SumBy(a, f) == SumBy(b, f)
    decreases |a|
  {
    if |a| == 0 {
      assert |multiset(b)| == 0;
    } else {
      var x := a[0];
      assert x in multiset(b);
      var i :| 0 <= i < |b| && b[i] == x;
      RemoveAtMultiset(b, i);
      RemoveAtMultiset(a, 0);
      assert a[..0] + a[1..] == a[1..];
      SumByPermutation(a[1..], b[..i] + b[i + 1..], f);
      SumByRemoveAt(b, i, f);
    }
  }

  /** A sum of non-negative values is non-negative. */
  lemma {:induction false} SumByNonNegative<T>(s: seq<T>, f: T -> real)
    requires forall i :: 0 <= i < |s| ==> f(s[i]) >= 0.0
    ensures SumBy(s, f) >= 0.0
    decreases |s|
  {
    if |s| > 0 {
      assert forall i :: 0 <= i < |s[1..]| ==> s[1..][i] == s[i + 1];
      SumByNonNegative(s[1..], f);
    }
  }

  /** Two lists whose elements agree pointwise under `f` and `g` have the same sums. */
  lemma {:induction false} SumByPointwise<T>(a: seq<T>, b: seq<T>, f: T -> real, g: T -> real)
    requires |a| == |b|
    requires forall i :: 0 <= i < |a| ==> f(a[i]) == g(b[i])
    ensures SumBy(a, f) == SumBy(b, g)
    decreases |a|
  {
    if |a| > 0 {
      assert forall i :: 0 <= i < |a[1..]| ==> a[1..][i] == a[i + 1] && b[1..][i] == b[i + 1];
      SumByPointwise(a[1..], b[1..], f, g);
    }
  }

  /** Replacing one element changes the sum by exactly the difference of the two values. */
  lemma SumByUpdate<T>(s: seq<T>, i: nat, x: T, f: T -> real)
    requires i < |s|
    ensures SumBy(s[i := x], f) == SumBy(s, f) - f(s[i]) + f(x)
  {
    assert s == s[..i] + [s[i]] + s[i + 1..];
    assert s[i := x] == s[..i] + [x] + s[i + 1..];
    SumByAppend(s[..i] + [s[i]], s[i + 1..], f);
    SumByAppend(s[..i] + [x], s[i + 1..], f);
    SumBySnoc(s[..i], s[i], f);
    SumBySnoc(s[..i], x, f);
  }
}
