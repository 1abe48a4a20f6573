/** Small vocabulary shared by the models: optional values and sequences without repeats. */
module Prelude {
  datatype Option<+T> = None | Some(value: T)

  /** What a statement did and what its caller was told: a reported success was applied, a reported
      error may hide a statement that took effect. */
  datatype Outcome = Ok | Lost | Err {
    predicate Applied() { this != Err }
    predicate Reported() { this == Ok }
  }

  /** How many of the first n statements were reported done. */
  function ReportedIn(os: seq<Outcome>, n: nat): nat
    requires n <= |os|
  {
    if n == 0 then 0 else ReportedIn(os, n - 1) + (if os[n - 1].Reported() then 1 else 0)
  }

  function MinReal(a: real, b: real): real { if a < b then a else b }

  function Min(a: int, b: int): int { if a < b then a else b }

  function Max(a: int, b: int): int { if a < b then b else a }

  predicate NoDup<T(==)>(s: seq<T>) {
    forall i, j :: 0 <= i < j < |s| ==> s[i] != s[j]
  }

  lemma CancelPrefix<T>(p: seq<T>, x: seq<T>, y: seq<T>)
    ensures p + x == p + y ==> x == y
  {
    assert (p + x)[|p|..] == x && (p + y)[|p|..] == y;
  }

  lemma NoDupCons<T>(x: T, rest: seq<T>)
    ensures NoDup([x] + rest) <==> x !in rest && NoDup(rest)
  {
    var s := [x] + rest;
    assert forall i :: 0 <= i < |rest| ==> s[i + 1] == rest[i];
    if x in rest {
      var i :| 0 <= i < |rest| && rest[i] == x;
      assert s[0] == s[i + 1];
    }
    if NoDup(s) {
      assert forall i, j :: 0 <= i < j < |rest| ==> rest[i] == s[i + 1] != s[j + 1] == rest[j];
    }
  }

  lemma NoDupConcat<T>(a: seq<T>, b: seq<T>)
    requires NoDup(a) && NoDup(b) && forall x <- a :: x !in b
    ensures NoDup(a + b)
  {
    var s := a + b;
    forall i, j | 0 <= i < j < |s|
      ensures s[i] != s[j]
    {
      if i < |a| <= j {
        assert s[i] in a && s[j] in b;
      }
    }
  }

  lemma NoDupParts<T>(a: seq<T>, b: seq<T>)
    requires NoDup(a + b)
    ensures NoDup(a) && NoDup(b) && forall x <- a :: x !in b
  {
    var s := a + b;
    assert forall i :: 0 <= i < |a| ==> s[i] == a[i];
    assert forall i :: 0 <= i < |b| ==> s[|a| + i] == b[i];
    forall i, j | 0 <= i < |a| && 0 <= j < |b|
      ensures a[i] != b[j]
    {
      assert s[i] != s[|a| + j];
    }
    forall i, j | 0 <= i < j < |b|
      ensures b[i] != b[j]
    {
      assert s[|a| + i] != s[|a| + j];
    }
  }

  /** Some order in which a map can be iterated. */
  method IterationOrder<K(==, !new), V>(m: map<K, V>) returns (order: seq<K>)
    ensures NoDup(order) && forall k :: k in order <==> k in m
  {
    order := [];
    var rest := m.Keys;
    while rest != {}
      invariant NoDup(order) && rest <= m.Keys
      invariant forall k :: k in order <==> k in m && k !in rest
      decreases |rest|
    {
      var k :| k in rest;
      order := order + [k];
      rest := rest - {k};
    }
  }

  /** The concatenation of f over a sequence. */
  function FlatMap<T, R>(f: T -> seq<R>, xs: seq<T>): seq<R> {
    if xs == [] then [] else f(xs[0]) + FlatMap(f, xs[1..])
  }

  lemma FlatMapOfOne<T, R>(f: T -> seq<R>, x: T)
    ensures FlatMap(f, [x]) == f(x)
  {
  }

  lemma {:induction false} FlatMapOfSum<T, R>(f: T -> seq<R>, a: seq<T>, b: seq<T>)
    ensures FlatMap(f, a + b) == FlatMap(f, a) + FlatMap(f, b)
  {
    if a == [] {
      assert a + b == b;
    } else {
      var rest := a[1..];
      FlatMapOfSum(f, rest, b);
      assert (a + b)[0] == a[0] && (a + b)[1..] == rest + b;
    }
  }
}
