/**
 Sorting by a string key: with distinct keys the result does not depend on the algorithm or on the order of the
 input.
 */
module Sorting {
  import opened Collections

  /** Go's order on strings. */
  predicate Less(a: string, b: string) {
    if b == "" then false
    else if a == "" then true
    else a[0] < b[0] || (a[0] == b[0] && Less(a[1..], b[1..]))
  }

  /** At the first place where they differ, a has ended or holds the lower character. */
  predicate Before(a: string, b: string) {
    exists n ::
      && 0 <= n <= |a| && n <= |b| && a[..n] == b[..n]
      && (n == |a| < |b| || (n < |a| && n < |b| && a[n] < b[n]))
  }

  lemma BeforeAt(a: string, b: string, n: nat)
    requires n <= |a| && n <= |b| && a[..n] == b[..n]
    requires n == |a| < |b| || (n < |a| && n < |b| && a[n] < b[n])
    ensures Before(a, b)
  {}

  lemma HeadOfPrefix(a: string, b: string, n: nat)
    requires 0 < n <= |a| && n <= |b| && a[..n] == b[..n]
    ensures a[0] == b[0] && a[1..][..n - 1] == b[1..][..n - 1]
  {
    assert a[..n][0] == a[0] && b[..n][0] == b[0];
    assert a[1..][..n - 1] == a[..n][1..] && b[1..][..n - 1] == b[..n][1..];
  }

  lemma DifferentHeads(a: string, b: string)
    requires a != "" && b != "" && a[0] != b[0]
    ensures Before(a, b) <==> a[0] < b[0]
  {
    if Before(a, b) {
      var n :| && 0 <= n <= |a| && n <= |b| && a[..n] == b[..n]
               && (n == |a| < |b| || (n < |a| && n < |b| && a[n] < b[n]));
      if n > 0 { HeadOfPrefix(a, b, n); }
    }
    if a[0] < b[0] { BeforeAt(a, b, 0); }
  }

  lemma BeforeInTails(a: string, b: string)
    requires a != "" && b != "" && a[0] == b[0] && Before(a, b)
    ensures Before(a[1..], b[1..])
  {
    var n :| && 0 <= n <= |a| && n <= |b| && a[..n] == b[..n]
             && (n == |a| < |b| || (n < |a| && n < |b| && a[n] < b[n]));
    HeadOfPrefix(a, b, n);
    BeforeAt(a[1..], b[1..], n - 1);
  }

  lemma BeforeByTails(a: string, b: string)
    requires a != "" && b != "" && a[0] == b[0] && Before(a[1..], b[1..])
    ensures Before(a, b)
  {
    var a', b' := a[1..], b[1..];
    var n :| && 0 <= n <= |a'| && n <= |b'| && a'[..n] == b'[..n]
             && (n == |a'| < |b'| || (n < |a'| && n < |b'| && a'[n] < b'[n]));
    assert a[..n + 1] == [a[0]] + a'[..n] && b[..n + 1] == [b[0]] + b'[..n];
    BeforeAt(a, b, n + 1);
  }

  /** The order of the sort is the one of the dictionary. */
  lemma {:induction false} LessIsBefore(a: string, b: string)
    ensures Less(a, b) <==> Before(a, b)
  {
    if a == "" || b == "" {
      if b != "" { BeforeAt(a, b, 0); }
    } else if a[0] != b[0] {
      DifferentHeads(a, b);
    } else {
      LessIsBefore(a[1..], b[1..]);
      if Before(a, b) { BeforeInTails(a, b); }
      if Before(a[1..], b[1..]) { BeforeByTails(a, b); }
    }
  }

  lemma {:induction false} LessIrreflexive(a: string)
    ensures !Less(a, a)
  {
    if a != "" {
      LessIrreflexive(a[1..]);
    }
  }

  lemma {:induction false} LessTrichotomy(a: string, b: string)
    ensures Less(a, b) || a == b || Less(b, a)
    ensures !(Less(a, b) && Less(b, a)) && (a == b ==> !Less(a, b))
    decreases |a|
  {
    if a != "" && b != "" {
      LessTrichotomy(a[1..], b[1..]);
      assert a == [a[0]] + a[1..] && b == [b[0]] + b[1..];
    }
    LessIrreflexive(a);
  }

  lemma {:induction false} LessTransitive(a: string, b: string, c: string)
    requires Less(a, b) && Less(b, c)
    ensures Less(a, c)
    decreases |a|
  {
    if a != "" && a[0] == b[0] == c[0] {
      LessTransitive(a[1..], b[1..], c[1..]);
    }
  }

  predicate StrictlySorted<T>(s: seq<T>, key: T -> string) {
    forall j, k :: 0 <= j < k < |s| ==> Less(key(s[j]), key(s[k]))
  }

  predicate Ascending<T>(s: seq<T>, key: T -> string) {
    forall j, k :: 0 <= j < k < |s| ==> Before(key(s[j]), key(s[k]))
  }

  lemma SortedAscends<T>(s: seq<T>, key: T -> string)
    ensures StrictlySorted(s, key) <==> Ascending(s, key)
  {
    forall j, k | 0 <= j < k < |s| ensures Less(key(s[j]), key(s[k])) <==> Before(key(s[j]), key(s[k])) {
      LessIsBefore(key(s[j]), key(s[k]));
    }
  }

  predicate DistinctKeys<T>(s: seq<T>, key: T -> string) {
    forall j, k :: 0 <= j < k < |s| ==> key(s[j]) != key(s[k])
  }

  function Insert<T>(x: T, s: seq<T>, key: T -> string): seq<T> {
    if s == [] then [x]
    else if Less(key(s[0]), key(x)) then [s[0]] + Insert(x, s[1..], key)
    else [x] + s
  }

  function SortBy<T>(s: seq<T>, key: T -> string): seq<T> {
    if s == [] then [] else Insert(s[0], SortBy(s[1..], key), key)
  }

  lemma {:induction false} InsertMembers<T>(x: T, s: seq<T>, key: T -> string)
    ensures multiset(Insert(x, s, key)) == multiset{x} + multiset(s)
  {
    if s != [] {
      InsertMembers(x, s[1..], key);
      assert s == [s[0]] + s[1..];
    }
  }

  lemma {:induction false} SortMembers<T>(s: seq<T>, key: T -> string)
    ensures multiset(SortBy(s, key)) == multiset(s)
  {
    if s != [] {
      SortMembers(s[1..], key);
      InsertMembers(s[0], SortBy(s[1..], key), key);
      assert s == [s[0]] + s[1..];
    }
  }

  lemma InMultiset<T>(s: seq<T>, x: T)
    ensures x in s <==> x in multiset(s)
  {}

  ghost predicate AllAbove<T>(least: string, s: seq<T>, key: T -> string) {
    forall k :: 0 <= k < |s| ==> Less(least, key(s[k]))
  }

  lemma {:induction false} InsertAbove<T>(least: string, x: T, s: seq<T>, key: T -> string)
    requires Less(least, key(x)) && AllAbove(least, s, key)
    ensures AllAbove(least, Insert(x, s, key), key)
  {
    if s != [] {
      InsertAbove(least, x, s[1..], key);
    }
  }

  lemma {:induction false} InsertSorted<T>(x: T, s: seq<T>, key: T -> string)
    requires StrictlySorted(s, key) && forall k :: 0 <= k < |s| ==> key(s[k]) != key(x)
    ensures StrictlySorted(Insert(x, s, key), key)
  {
    if s != [] {
      if Less(key(s[0]), key(x)) {
        InsertSorted(x, s[1..], key);
        InsertAbove(key(s[0]), x, s[1..], key);
      } else {
        LessTrichotomy(key(s[0]), key(x));
        forall k | 0 <= k < |s| ensures Less(key(x), key(s[k])) {
          if k > 0 { LessTransitive(key(x), key(s[0]), key(s[k])); }
        }
      }
    }
  }

  lemma {:induction false} SortSorts<T>(s: seq<T>, key: T -> string)
    requires DistinctKeys(s, key)
    ensures StrictlySorted(SortBy(s, key), key)
  {
    if s != [] {
      var rest := SortBy(s[1..], key);
      SortSorts(s[1..], key);
      SortMembers(s[1..], key);
      forall k | 0 <= k < |rest| ensures key(rest[k]) != key(s[0]) {
        SameElement(rest, s[1..], rest[k]);
      }
      InsertSorted(s[0], rest, key);
    }
  }

  lemma FirstIsLeast<T>(a: seq<T>, b: seq<T>, key: T -> string)
    requires a != [] && b != [] && StrictlySorted(a, key) && StrictlySorted(b, key) && multiset(a) == multiset(b)
    ensures a[0] == b[0]
  {
    SameElement(a, b, a[0]);
    SameElement(a, b, b[0]);
    var i :| 0 <= i < |b| && b[i] == a[0];
    var j :| 0 <= j < |a| && a[j] == b[0];
    LessTrichotomy(key(a[0]), key(b[0]));
  }

  /** There is only one strictly sorted arrangement. */
  lemma {:induction false} SortedIsUnique<T>(a: seq<T>, b: seq<T>, key: T -> string)
    requires StrictlySorted(a, key) && StrictlySorted(b, key) && multiset(a) == multiset(b)
    ensures a == b
  {
    assert |a| == |multiset(a)| == |multiset(b)| == |b|;
    if a != [] {
      FirstIsLeast(a, b, key);
      assert a == [a[0]] + a[1..] && b == [b[0]] + b[1..];
      assert multiset(a[1..]) == multiset(a) - multiset{a[0]};
      assert multiset(b[1..]) == multiset(b) - multiset{b[0]};
      SortedIsUnique(a[1..], b[1..], key);
    }
  }

  lemma DistinctInAnyOrder<T>(a: seq<T>, b: seq<T>, key: T -> string)
    requires multiset(a) == multiset(b) && DistinctKeys(a, key)
    ensures DistinctKeys(b, key)
  {
    SortSorts(a, key);
    SortMembers(a, key);
    forall j, k | 0 <= j < k < |b| ensures key(b[j]) != key(b[k]) {
      if key(b[j]) == key(b[k]) {
        SameElement(a, b, b[j]);
        SameElement(a, b, b[k]);
        assert b[j] == b[k];
        assert multiset(b)[b[j]] >= 2 by { Twice(b, j, k); }
        AtMostOnce(a, b[j], key);
        assert false;
      }
    }
  }

  lemma Twice<T>(s: seq<T>, j: nat, k: nat)
    requires j < k < |s| && s[j] == s[k]
    ensures multiset(s)[s[j]] >= 2
  {
    assert s == s[..k] + s[k..];
    assert s[..k][j] == s[j] && s[k..][0] == s[j];
    assert s[j] in multiset(s[..k]) && s[j] in multiset(s[k..]);
  }

  lemma {:induction false} AtMostOnce<T>(s: seq<T>, x: T, key: T -> string)
    requires DistinctKeys(s, key)
    ensures multiset(s)[x] <= 1
  {
    if s != [] {
      AtMostOnce(s[1..], x, key);
      assert s == [s[0]] + s[1..];
      if s[0] == x {
        assert x !in s[1..];
        InMultiset(s[1..], x);
      }
    }
  }

  /** Any two arrangements of the same elements sort to the same sequence. */
  lemma SortIgnoresOrder<T>(a: seq<T>, b: seq<T>, key: T -> string)
    requires multiset(a) == multiset(b) && DistinctKeys(a, key)
    ensures SortBy(a, key) == SortBy(b, key)
  {
    DistinctInAnyOrder(a, b, key);
    SortSorts(a, key);
    SortSorts(b, key);
    SortMembers(a, key);
    SortMembers(b, key);
    SortedIsUnique(SortBy(a, key), SortBy(b, key), key);
  }
}
