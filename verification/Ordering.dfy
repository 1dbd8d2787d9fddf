/** Orders on texts and lists of texts, and sorting by an order. */
module Ordering {

  /** Texts are compared character by character, a shorter text coming before its extensions. */
  predicate TextLeq(a: string, b: string) {
    a == "" || (b != "" && (a[0] < b[0] || (a[0] == b[0] && TextLeq(a[1..], b[1..]))))
  }

  lemma {:induction false} TextTotal(a: string, b: string)
    ensures TextLeq(a, b) || TextLeq(b, a)
    ensures TextLeq(a, b) && TextLeq(b, a) ==> a == b
  {
    if a != "" && b != "" && a[0] == b[0] {
      TextTotal(a[1..], b[1..]);
      assert a == [a[0]] + a[1..] && b == [b[0]] + b[1..];
    }
  }

  lemma {:induction false} TextTransitive(a: string, b: string, c: string)
    requires TextLeq(a, b) && TextLeq(b, c)
    ensures TextLeq(a, c)
  {
    if a != "" && a[0] == b[0] && b[0] == c[0] { TextTransitive(a[1..], b[1..], c[1..]); }
  }

  lemma TextReflexive(a: string)
    ensures TextLeq(a, a)
  {}

  /** Lists of texts are compared text by text. */
  predicate TextsLeq(a: seq<string>, b: seq<string>) {
    a == [] || (b != [] && if a[0] == b[0] then TextsLeq(a[1..], b[1..]) else TextLeq(a[0], b[0]))
  }

  lemma {:induction false} TextsTotal(a: seq<string>, b: seq<string>)
    ensures TextsLeq(a, b) || TextsLeq(b, a)
    ensures TextsLeq(a, b) && TextsLeq(b, a) ==> a == b
  {
    if a != [] && b != [] {
      if a[0] == b[0] {
        TextsTotal(a[1..], b[1..]);
        assert a == [a[0]] + a[1..] && b == [b[0]] + b[1..];
      } else {
        TextTotal(a[0], b[0]);
      }
    }
  }

  lemma {:induction false} TextsTransitive(a: seq<string>, b: seq<string>, c: seq<string>)
    requires TextsLeq(a, b) && TextsLeq(b, c)
    ensures TextsLeq(a, c)
  {
    if a != [] {
      if a[0] == b[0] && b[0] == c[0] {
        TextsTransitive(a[1..], b[1..], c[1..]);
      } else if a[0] != b[0] && b[0] != c[0] {
        TextTransitive(a[0], b[0], c[0]);
        if a[0] == c[0] { TextTotal(a[0], b[0]); }
      }
    }
  }

  // ----- sorting

  ghost predicate Orders<T(!new)>(leq: (T, T) -> bool) {
    && (forall a, b :: leq(a, b) || leq(b, a))
    && (forall a, b, c :: leq(a, b) && leq(b, c) ==> leq(a, c))
  }

  ghost predicate InOrder<T>(s: seq<T>, leq: (T, T) -> bool) {
    forall i, j :: 0 <= i < j < |s| ==> leq(s[i], s[j])
  }

  method Insert<T(!new)>(s: seq<T>, x: T, leq: (T, T) -> bool) returns (r: seq<T>)
    requires Orders(leq) && InOrder(s, leq)
    ensures InOrder(r, leq) && multiset(r) == multiset(s) + multiset{x}
  {
    var i := |s|;
    while i > 0 && !leq(s[i - 1], x)
      invariant 0 <= i <= |s|
      invariant forall k :: i <= k < |s| ==> leq(x, s[k])
    {
      i := i - 1;
    }
    r := s[..i] + [x] + s[i..];
    assert s == s[..i] + s[i..];
    InsertedInOrder(s, x, leq, i);
  }

  lemma InsertedInOrder<T(!new)>(s: seq<T>, x: T, leq: (T, T) -> bool, i: nat)
    requires Orders(leq) && InOrder(s, leq) && i <= |s|
    requires (i > 0 ==> leq(s[i - 1], x)) && forall k :: i <= k < |s| ==> leq(x, s[k])
    ensures InOrder(s[..i] + [x] + s[i..], leq)
  {}

  method SortBy<T(!new)>(s: seq<T>, leq: (T, T) -> bool) returns (r: seq<T>)
    requires Orders(leq)
    ensures InOrder(r, leq) && multiset(r) == multiset(s)
  {
    r := [];
    var i := 0;
    while i < |s|
      invariant 0 <= i <= |s| && InOrder(r, leq) && multiset(r) == multiset(s[..i])
    {
      r := Insert(r, s[i], leq);
      assert s[..i + 1] == s[..i] + [s[i]];
      i := i + 1;
    }
    assert s[..|s|] == s;
  }

  lemma SameElements<T>(r: seq<T>, s: seq<T>)
    requires multiset(r) == multiset(s)
    ensures |r| == |s| && forall x :: x in r <==> x in s
  {
    forall x ensures x in r <==> x in s { assert x in multiset(r) <==> x in multiset(s); }
    assert |multiset(r)| == |multiset(s)|;
  }

  ghost predicate Antisymmetric<T>(s: seq<T>, leq: (T, T) -> bool) {
    forall x, y :: x in s && y in s && leq(x, y) && leq(y, x) ==> x == y
  }

  lemma SameFirst<T>(r: seq<T>, s: seq<T>, leq: (T, T) -> bool)
    requires InOrder(r, leq) && InOrder(s, leq) && multiset(r) == multiset(s) && Antisymmetric(r, leq) && r != []
    ensures s != [] && r[0] == s[0]
  {
    SameElements(r, s);
    assert r[0] in s && s[0] in r;
    var i :| 0 <= i < |s| && s[i] == r[0];
    var j :| 0 <= j < |r| && r[j] == s[0];
  }

  /** A sorted list is determined by its elements if no two of them rank the same. */
  lemma {:induction false} SortedUnique<T>(r: seq<T>, s: seq<T>, leq: (T, T) -> bool)
    requires InOrder(r, leq) && InOrder(s, leq) && multiset(r) == multiset(s) && Antisymmetric(r, leq)
    ensures r == s
  {
    if r == [] {
      SameElements(r, s);
    } else {
      SameFirst(r, s, leq);
      Rest(r, leq);
      Rest(s, leq);
      SortedUnique(r[1..], s[1..], leq);
    }
  }

  lemma Rest<T>(s: seq<T>, leq: (T, T) -> bool)
    requires s != [] && InOrder(s, leq)
    ensures s == [s[0]] + s[1..] && InOrder(s[1..], leq) && multiset(s[1..]) == multiset(s) - multiset{s[0]}
    ensures Antisymmetric(s, leq) ==> Antisymmetric(s[1..], leq)
  {
    RestInOrder(s, leq);
    RemoveAt(s, 0);
    assert s[..0] + s[1..] == s[1..];
  }

  lemma RestInOrder<T>(s: seq<T>, leq: (T, T) -> bool)
    requires s != [] && InOrder(s, leq)
    ensures InOrder(s[1..], leq)
    ensures Antisymmetric(s, leq) ==> Antisymmetric(s[1..], leq)
  {
    var rest := s[1..];
    forall i, j | 0 <= i < j < |rest| ensures leq(rest[i], rest[j]) { assert rest[i] == s[i + 1] && rest[j] == s[j + 1]; }
    forall x | x in rest ensures x in s { var i :| 0 <= i < |rest| && rest[i] == x; assert s[i + 1] == x; }
  }

  // ----- mapping a list

  function Map<T, U>(f: T -> U, s: seq<T>): seq<U> { seq(|s|, i requires 0 <= i < |s| => f(s[i])) }

  lemma RemoveAt<T>(s: seq<T>, i: nat)
    requires i < |s|
    ensures multiset(s[..i] + s[i + 1..]) == multiset(s) - multiset{s[i]}
  {
    assert s == s[..i] + [s[i]] + s[i + 1..];
    assert multiset(s) == multiset(s[..i]) + multiset{s[i]} + multiset(s[i + 1..]);
  }

  lemma MapRemoveAt<T, U>(f: T -> U, s: seq<T>, i: nat)
    requires i < |s|
    ensures multiset(Map(f, s[..i] + s[i + 1..])) == multiset(Map(f, s)) - multiset{f(s[i])}
    ensures f(s[i]) in multiset(Map(f, s))
  {
    assert Map(f, s[..i] + s[i + 1..]) == Map(f, s)[..i] + Map(f, s)[i + 1..];
    assert Map(f, s)[i] == f(s[i]) && Map(f, s)[i] in Map(f, s);
    RemoveAt(Map(f, s), i);
  }

  lemma PutBack<T>(a: multiset<T>, b: multiset<T>, x: T)
    requires a - multiset{x} == b - multiset{x} && x in a && x in b
    ensures a == b
  {
    assert a == a - multiset{x} + multiset{x} && b == b - multiset{x} + multiset{x};
  }

  /** Mapping two orders of the same elements gives two orders of the same results. */
  lemma {:induction false} MapPermuted<T, U>(f: T -> U, a: seq<T>, b: seq<T>)
    requires multiset(a) == multiset(b)
    ensures multiset(Map(f, a)) == multiset(Map(f, b))
    decreases |a|
  {
    SameElements(a, b);
    if a != [] {
      assert a[0] in b;
      var i: nat :| i < |b| && b[i] == a[0];
      RemoveAt(a, 0);
      RemoveAt(b, i);
      MapPermuted(f, a[..0] + a[1..], b[..i] + b[i + 1..]);
      PutBackMapped(f, a, 0, b, i);
    }
  }

  lemma PutBackMapped<T, U>(f: T -> U, a: seq<T>, i: nat, b: seq<T>, j: nat)
    requires i < |a| && j < |b| && a[i] == b[j]
    requires multiset(Map(f, a[..i] + a[i + 1..])) == multiset(Map(f, b[..j] + b[j + 1..]))
    ensures multiset(Map(f, a)) == multiset(Map(f, b))
  {
    MapRemoveAt(f, a, i);
    MapRemoveAt(f, b, j);
    PutBack(multiset(Map(f, a)), multiset(Map(f, b)), f(a[i]));
  }

  /** The least of some elements. */
  method Least<T(==, !new)>(s: set<T>, leq: (T, T) -> bool) returns (x: T)
    requires s != {} && Orders(leq)
    ensures x in s && forall y :: y in s ==> leq(x, y)
  {
    x :| x in s;
    var rest := s;
    while rest != {}
      invariant rest <= s && x in s && forall y :: y in s && y !in rest ==> leq(x, y)
      decreases rest
    {
      var y :| y in rest;
      if !leq(x, y) { x := y; }
      rest := rest - {y};
    }
  }
}
