/** Sums over sequences, and the fact that they do not depend on the order of the elements. */
module Sums {

  /** The sum of `f` over the elements of `s`. */
  function SumBy<T>(s: seq<T>, f: T -> nat): nat
  {
    if s == [] then 0 else SumBy(s[..|s| - 1], f) + f(s[|s| - 1])
  }

  /** One more element, one more term: the step of every accumulating loop. */
  lemma SumByStep<T>(s: seq<T>, i: nat, f: T -> nat)
    requires i < |s|
    ensures SumBy(s[..i + 1], f) == SumBy(s[..i], f) + f(s[i])
  {
    assert s[..i + 1][..i] == s[..i];
  }

  lemma {:induction false} SumByConcat<T>(a: seq<T>, b: seq<T>, f: T -> nat)
    ensures SumBy(a + b, f) == SumBy(a, f) + SumBy(b, f)
  {
    if b == [] {
      assert a + b == a;
    } else {
      ConcatInit(a, b);
      SumByConcat(a, b[..|b| - 1], f);
    }
  }

  /** Taking out the element at `i` takes its value out of the sum. */
  lemma SumByInsert<T>(p: seq<T>, x: T, q: seq<T>, f: T -> nat)
    ensures SumBy(p + [x] + q, f) == SumBy(p + q, f) + f(x)
  {
    SumByConcat(p + [x], q, f);
    SumByConcat(p, q, f);
    assert (p + [x])[..|p|] == p;
  }

  lemma SumByRemove<T>(b: seq<T>, i: nat, f: T -> nat)
    requires i < |b|
    ensures SumBy(b, f) == SumBy(b[..i] + b[i + 1..], f) + f(b[i])
  {
    Around(b, i);
    SumByInsert(b[..i], b[i], b[i + 1..], f);
  }

  /** Dropping the last element of a concatenation drops it from the second part. */
  lemma ConcatInit<T>(a: seq<T>, b: seq<T>)
    requires b != []
    ensures (a + b)[..|a + b| - 1] == a + b[..|b| - 1]
    ensures (a + b)[|a + b| - 1] == b[|b| - 1]
  {
  }

  /** A prefix one longer is the prefix and one more element. */
  lemma PrefixStep<T>(s: seq<T>, i: nat)
    requires i < |s|
    ensures s[..i + 1] == s[..i] + [s[i]]
  {
  }

  lemma Around<T>(b: seq<T>, i: nat)
    requires i < |b|
    ensures b == b[..i] + [b[i]] + b[i + 1..]
  {
  }

  lemma MultisetRemove<T>(a: seq<T>, x: T, b: seq<T>, i: nat)
    requires i < |b| && b[i] == x
    requires multiset(a + [x]) == multiset(b)
    ensures multiset(a) == multiset(b[..i] + b[i + 1..])
  {
    var b' := b[..i] + b[i + 1..];
    Around(b, i);
    assert multiset(b) == multiset(b[..i]) + multiset{x} + multiset(b[i + 1..]);
    assert multiset(b) == multiset(b') + multiset{x};
    assert multiset(a + [x]) == multiset(a) + multiset{x};
    assert multiset(a) == multiset(a) + multiset{x} - multiset{x};
    assert multiset(b') == multiset(b') + multiset{x} - multiset{x};
  }

  /** The sum does not depend on the order of the elements. */
  lemma {:induction false} SumByPermutation<T>(a: seq<T>, b: seq<T>, f: T -> nat)
    requires multiset(a) == multiset(b)
    ensures SumBy(a, f) == SumBy(b, f)
  {
    if a == [] {
      assert |b| == |multiset(b)| == 0;
    } else {
      var x := a[|a| - 1];
      var a' := a[..|a| - 1];
      assert a == a' + [x];
      assert x in multiset(b);
      var i :| 0 <= i < |b| && b[i] == x;
      MultisetRemove(a', x, b, i);
      SumByPermutation(a', b[..i] + b[i + 1..], f);
      SumByRemove(b, i, f);
    }
  }

}
