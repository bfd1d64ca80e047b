/** Sorting by an integer key, and the fact that distinct keys leave only one possible result. */
module Sorting {

  predicate Ordered<T>(xs: seq<T>, key: T -> int) {
    forall i, j :: 0 <= i < j < |xs| ==> key(xs[i]) <= key(xs[j])
  }

  predicate DistinctKeys<T>(xs: seq<T>, key: T -> int) {
    forall i, j :: 0 <= i < j < |xs| ==> key(xs[i]) != key(xs[j])
  }

  function Insert<T(==)>(x: T, xs: seq<T>, key: T -> int): (r: seq<T>)
    ensures multiset(r) == multiset(xs) + multiset{x}
  {
    if xs == [] || key(x) <= key(xs[0]) then [x] + xs
    else
      assert xs == [xs[0]] + xs[1..];
      [xs[0]] + Insert(x, xs[1..], key)
  }

  lemma {:induction false} InsertOrdered<T>(x: T, xs: seq<T>, key: T -> int)
    requires Ordered(xs, key)
    ensures Ordered(Insert(x, xs, key), key)
  {
    if xs != [] && key(x) > key(xs[0]) {
      var rest := Insert(x, xs[1..], key);
      InsertOrdered(x, xs[1..], key);
      forall k | 0 <= k < |rest| ensures key(xs[0]) <= key(rest[k]) {
        assert rest[k] in multiset(rest);
        assert rest[k] == x || rest[k] in xs[1..];
      }
    }
  }

  /** Any other sort gives the same list when keys are distinct. */
  function SortBy<T(==)>(xs: seq<T>, key: T -> int): (r: seq<T>)
    ensures multiset(r) == multiset(xs) && Ordered(r, key)
  {
    if xs == [] then []
    else
      assert xs == [xs[0]] + xs[1..];
      InsertOrdered(xs[0], SortBy(xs[1..], key), key);
      Insert(xs[0], SortBy(xs[1..], key), key)
  }

  lemma DistinctPermuted<T>(a: seq<T>, b: seq<T>, key: T -> int)
    requires multiset(a) == multiset(b) && DistinctKeys(a, key)
    ensures DistinctKeys(b, key)
  {
    forall i, j | 0 <= i < j < |b| ensures key(b[i]) != key(b[j]) {
      TwoOccurrences(b, i, j);
      if b[i] == b[j] {
        OneOccurrence(a, b[i], key);
      } else {
        assert b[i] in multiset(a) && b[j] in multiset(a);
        var k, l :| 0 <= k < |a| && 0 <= l < |a| && a[k] == b[i] && a[l] == b[j];
      }
    }
  }

  lemma TwoOccurrences<T>(b: seq<T>, i: nat, j: nat)
    requires i < j < |b|
    ensures b[i] in multiset(b) && b[j] in multiset(b)
    ensures b[i] == b[j] ==> multiset(b)[b[i]] >= 2
  {
    assert b == b[..i] + [b[i]] + b[i + 1..j] + [b[j]] + b[j + 1..];
  }

  lemma {:induction false} OneOccurrence<T>(a: seq<T>, x: T, key: T -> int)
    requires DistinctKeys(a, key)
    ensures multiset(a)[x] <= 1
  {
    if a != [] {
      assert a == [a[0]] + a[1..];
      OneOccurrence(a[1..], x, key);
      assert a[0] == x ==> x !in a[1..];
    }
  }

  lemma LeastKey<T>(a: seq<T>, b: seq<T>, key: T -> int)
    requires multiset(a) == multiset(b) && a != [] && Ordered(a, key)
    ensures b != [] && key(a[0]) <= key(b[0])
  {
    assert |multiset(a)| == |a| && |multiset(b)| == |b|;
    assert b[0] in multiset(a);
  }

  lemma SameKeySame<T>(a: seq<T>, x: T, y: T, key: T -> int)
    requires DistinctKeys(a, key) && x in multiset(a) && y in multiset(a) && key(x) == key(y)
    ensures x == y
  {
    var i, j :| 0 <= i < |a| && 0 <= j < |a| && a[i] == x && a[j] == y;
  }

  lemma TailOf<T>(a: seq<T>, key: T -> int)
    requires a != []
    ensures multiset(a[1..]) == multiset(a) - multiset{a[0]}
    ensures Ordered(a, key) ==> Ordered(a[1..], key)
    ensures DistinctKeys(a, key) ==> DistinctKeys(a[1..], key)
    ensures a == [a[0]] + a[1..]
  {
    assert a == [a[0]] + a[1..];
  }

  /** Two ordered permutations of a list with distinct keys are the same list. */
  lemma {:induction false} OrderedUnique<T>(a: seq<T>, b: seq<T>, key: T -> int)
    requires multiset(a) == multiset(b) && Ordered(a, key) && Ordered(b, key) && DistinctKeys(a, key)
    ensures a == b
    decreases |a|
  {
    if a == [] {
      assert |multiset(b)| == 0;
    } else {
      LeastKey(a, b, key);
      LeastKey(b, a, key);
      assert b[0] in multiset(b);
      SameKeySame(a, a[0], b[0], key);
      TailOf(a, key);
      TailOf(b, key);
      OrderedUnique(a[1..], b[1..], key);
    }
  }
}
