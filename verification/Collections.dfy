/** Facts about sequences and sets that the solver has to be pointed to. */
module Collections {
  lemma Glue<T>(a: seq<T>, b: seq<T>, c: seq<T>)
    ensures a + (b + c) == a + b + c
  {}

  lemma Rejoin<T>(s: seq<T>, n: nat)
    requires n <= |s|
    ensures s[..n] + s[n..] == s
  {}

  /** A member of a set that is not empty. */
  lemma SomeMember<T>(s: set<T>) returns (x: T)
    requires s != {}
    ensures x in s
  {
    x :| x in s;
  }

  // ---- rearrangements ----------------------------------------------------

  function Remove<T>(s: seq<T>, j: nat): seq<T>
    requires j < |s|
  {
    s[..j] + s[j + 1..]
  }

  lemma RemoveOne<T>(s: seq<T>, j: nat)
    requires j < |s|
    ensures multiset(s) == multiset(Remove(s, j)) + multiset{s[j]}
    ensures multiset(Remove(s, j)) == multiset(s) - multiset{s[j]}
  {
    assert s == s[..j] + [s[j]] + s[j + 1..];
  }

  lemma SameElement<T>(a: seq<T>, b: seq<T>, x: T)
    requires multiset(a) == multiset(b)
    ensures x in a <==> x in b
  {
    assert x in a <==> x in multiset(a);
    assert x in b <==> x in multiset(b);
  }

  function FlatMap<T, U>(s: seq<T>, f: T -> seq<U>): seq<U> {
    if s == [] then [] else f(s[0]) + FlatMap(s[1..], f)
  }

  lemma FlatMapCons<T, U>(x: T, s: seq<T>, f: T -> seq<U>)
    ensures FlatMap([x] + s, f) == f(x) + FlatMap(s, f)
  {
    assert ([x] + s)[1..] == s;
  }

  lemma RemoveTail<T>(s: seq<T>, j: nat)
    requires 0 < j < |s|
    ensures Remove(s, j) == [s[0]] + Remove(s[1..], j - 1)
  {}

  lemma {:induction false} FlatMapRemove<T, U>(s: seq<T>, j: nat, f: T -> seq<U>)
    requires j < |s|
    ensures multiset(FlatMap(s, f)) == multiset(f(s[j])) + multiset(FlatMap(Remove(s, j), f))
  {
    if j == 0 {
      assert Remove(s, 0) == s[1..];
    } else {
      FlatMapRemove(s[1..], j - 1, f);
      RemoveTail(s, j);
      FlatMapCons(s[0], Remove(s[1..], j - 1), f);
    }
  }

  /** What is computed element by element from a rearrangement is a rearrangement. */
  lemma {:induction false} FlatMapOrder<T, U>(a: seq<T>, b: seq<T>, f: T -> seq<U>)
    requires multiset(a) == multiset(b)
    ensures multiset(FlatMap(a, f)) == multiset(FlatMap(b, f))
    decreases |a|
  {
    assert |a| == |multiset(a)| == |multiset(b)| == |b|;
    if a != [] {
      SameElement(a, b, a[0]);
      var j :| 0 <= j < |b| && b[j] == a[0];
      RemoveOne(a, 0);
      RemoveOne(b, j);
      FlatMapOrder(Remove(a, 0), Remove(b, j), f);
      FlatMapRemove(a, 0, f);
      FlatMapRemove(b, j, f);
    }
  }
}
