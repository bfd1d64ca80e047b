/** Small facts about sequences and sets. */
module Collections {

  predicate NoRepeats<T(==)>(xs: seq<T>) {
    forall i, j :: 0 <= i < j < |xs| ==> xs[i] != xs[j]
  }

  lemma NoRepeatsSnoc<T>(xs: seq<T>, x: T)
    requires NoRepeats(xs) && x !in xs
    ensures NoRepeats(xs + [x])
  {
  }

  lemma {:induction false} CountOnce<T>(xs: seq<T>, x: T)
    requires NoRepeats(xs)
    ensures multiset(xs)[x] == if x in xs then 1 else 0
  {
    if xs != [] {
      assert xs == xs[..|xs| - 1] + [xs[|xs| - 1]];
      CountOnce(xs[..|xs| - 1], x);
    }
  }

  function Repeat<T>(x: T, n: nat): seq<T> {
    if n == 0 then [] else [x] + Repeat(x, n - 1)
  }

  lemma {:induction false} RepeatSnoc<T>(x: T, n: nat)
    ensures Repeat(x, n + 1) == Repeat(x, n) + [x]
  {
    if n > 0 {
      RepeatSnoc(x, n - 1);
      assert [x] + (Repeat(x, n - 1) + [x]) == [x] + Repeat(x, n - 1) + [x];
    }
  }

  lemma {:induction false} SubsetSize<T>(a: set<T>, b: set<T>)
    requires a <= b
    ensures |a| <= |b|
  {
    if a != {} {
      var x :| x in a;
      SubsetSize(a - {x}, b - {x});
    }
  }

  lemma SmallerSet<T>(a: set<T>, b: set<T>)
    requires a < b
    ensures |a| < |b|
  {
    var x :| x in b && x !in a;
    assert a <= b - {x};
    SubsetSize(a, b - {x});
  }

  lemma {:induction false} LeastOf(s: set<nat>) returns (m: nat)
    requires s != {}
    ensures m in s && forall x :: x in s ==> m <= x
    decreases |s|
  {
    m :| m in s;
    if s != {m} {
      var rest := s - {m};
      assert s == rest + {m};
      var r := LeastOf(rest);
      m := if r < m then r else m;
    }
  }
}
