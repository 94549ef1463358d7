/** Sums of a measure over a sequence, and how they react to growth and to a single update. */
module Sums {

  function Sum<T>(s: seq<T>, f: T -> nat): nat {
    if s == [] then 0 else Sum(s[..|s| - 1], f) + f(s[|s| - 1])
  }

  lemma SumAppend<T>(s: seq<T>, x: T, f: T -> nat)
    ensures Sum(s + [x], f) == Sum(s, f) + f(x)
  {
    assert (s + [x])[..|s|] == s;
  }

  lemma {:induction false} SumUpdate<T>(s: seq<T>, i: nat, x: T, f: T -> nat)
    requires i < |s|
    ensures Sum(s[i := x], f) == Sum(s, f) - f(s[i]) + f(x)
  {
    var n := |s| - 1;
    if i == n {
      assert s[i := x][..n] == s[..n];
    } else {
      assert s[i := x][..n] == s[..n][i := x];
      SumUpdate(s[..n], i, x, f);
    }
  }

  /** Replaces element i, or appends when i is one past the end. */
  function Put<T>(s: seq<T>, i: nat, x: T): (r: seq<T>)
    requires i <= |s|
    ensures |r| == if i == |s| then |s| + 1 else |s|
    ensures forall k :: 0 <= k < |r| ==> r[k] == if k == i then x else s[k]
  {
    if i == |s| then s + [x] else s[i := x]
  }

  lemma SumPut<T>(s: seq<T>, i: nat, x: T, f: T -> nat)
    requires i <= |s|
    ensures Sum(Put(s, i, x), f) == Sum(s, f) - (if i < |s| then f(s[i]) else 0) + f(x)
  {
    if i == |s| {
      SumAppend(s, x, f);
    } else {
      SumUpdate(s, i, x, f);
    }
  }

  lemma {:induction false} SumPrefix<T>(s: seq<T>, k: nat, f: T -> nat)
    requires k <= |s|
    ensures Sum(s[..k], f) <= Sum(s, f)
  {
    if k < |s| {
      assert s[..|s| - 1][..k] == s[..k];
      SumPrefix(s[..|s| - 1], k, f);
    } else {
      assert s[..k] == s;
    }
  }

  lemma SumNext<T>(s: seq<T>, k: nat, f: T -> nat)
    requires k < |s|
    ensures Sum(s[..k + 1], f) == Sum(s[..k], f) + f(s[k])
  {
    assert s[..k + 1] == s[..k] + [s[k]];
    SumAppend(s[..k], s[k], f);
  }

  lemma {:induction false} SumElement<T>(s: seq<T>, i: nat, f: T -> nat)
    requires i < |s|
    ensures f(s[i]) <= Sum(s, f)
  {
    SumNext(s, i, f);
    SumPrefix(s, i + 1, f);
  }

  /** Pointwise comparison of two measures over two equally long sequences. */
  lemma {:induction false} SumLe<T, U>(s: seq<T>, f: T -> nat, t: seq<U>, g: U -> nat)
    requires |s| == |t|
    requires forall i :: 0 <= i < |s| ==> f(s[i]) <= g(t[i])
    ensures Sum(s, f) <= Sum(t, g)
  {
    if s != [] {
      SumLe(s[..|s| - 1], f, t[..|s| - 1], g);
    }
  }

  lemma SumEq<T, U>(s: seq<T>, f: T -> nat, t: seq<U>, g: U -> nat)
    requires |s| == |t|
    requires forall i :: 0 <= i < |s| ==> f(s[i]) == g(t[i])
    ensures Sum(s, f) == Sum(t, g)
  {
    SumLe(s, f, t, g);
    SumLe(t, g, s, f);
  }

  lemma {:induction false} SumZero<T>(s: seq<T>, f: T -> nat)
    requires forall i :: 0 <= i < |s| ==> f(s[i]) == 0
    ensures Sum(s, f) == 0
  {
    if s != [] {
      SumZero(s[..|s| - 1], f);
    }
  }

  /** A sum of 0/1 indicators is bounded by the length, and reaches it only when every indicator is 1. */
  lemma {:induction false} SumIndicator<T>(s: seq<T>, f: T -> nat)
    requires forall i :: 0 <= i < |s| ==> f(s[i]) <= 1
    ensures Sum(s, f) <= |s|
    ensures Sum(s, f) == |s| <==> forall i :: 0 <= i < |s| ==> f(s[i]) == 1
  {
    if s != [] {
      SumIndicator(s[..|s| - 1], f);
    }
  }

  lemma Distribute(a: int, b: int, c: int)
    ensures a * (b + c) == a * b + a * c
  {
  }
}
