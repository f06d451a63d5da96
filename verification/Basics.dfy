/** Small notions that several modules share. */
module Basics {
  datatype Option<T> = None | Some(value: T)

  function Max(a: int, b: int): int {
    if a > b then a else b
  }

  predicate Distinct<T(==)>(s: seq<T>) {
    forall i, j :: 0 <= i < j < |s| ==> s[i] != s[j]
  }

  lemma DistinctCons<T>(x: T, s: seq<T>)
    requires Distinct(s) && x !in s
    ensures Distinct([x] + s)
  {
  }

  lemma DistinctSnoc<T>(s: seq<T>, x: T)
    requires Distinct(s) && x !in s
    ensures Distinct(s + [x])
  {
  }

  /** The list without the first occurrence of x. */
  function RemoveFirst<T(==)>(s: seq<T>, x: T): seq<T> {
    if s == [] then [] else if s[0] == x then s[1..] else [s[0]] + RemoveFirst(s[1..], x)
  }

  lemma {:induction false} RemoveFirstMembers<T>(s: seq<T>, x: T)
    ensures Distinct(s) ==> Distinct(RemoveFirst(s, x)) && x !in RemoveFirst(s, x)
    ensures forall y :: y in RemoveFirst(s, x) ==> y in s
    ensures forall y :: y != x && y in s ==> y in RemoveFirst(s, x)
  {
    if s != [] {
      var rest := s[1..];
      RemoveFirstMembers(rest, x);
      assert s == [s[0]] + rest;
      if Distinct(s) {
        assert s[0] !in rest && Distinct(rest);
        DistinctCons(s[0], RemoveFirst(rest, x));
      }
    }
  }

  /** Drops the first occurrence. */
  method DropFirst<T(==)>(s: seq<T>, x: T) returns (r: seq<T>)
    ensures r == RemoveFirst(s, x)
  {
    hide RemoveFirst;
    r := s;
    var i := 0;
    while i < |s|
      invariant 0 <= i <= |s| && r == s
      invariant s[..i] + RemoveFirst(s[i..], x) == RemoveFirst(s, x)
    {
      RemoveFirstAt(s, i, x);
      if s[i] == x {
        r := s[..i] + s[i + 1..];
        return;
      }
      assert s[..i] + ([s[i]] + RemoveFirst(s[i + 1..], x)) == (s[..i] + [s[i]]) + RemoveFirst(s[i + 1..], x);
      assert s[..i + 1] == s[..i] + [s[i]];
      i := i + 1;
    }
    RemoveFirstOfNothing(s[i..], x);
    assert s[..i] + [] == s;
  }

  lemma RemoveFirstAt<T>(s: seq<T>, i: nat, x: T)
    requires i < |s|
    ensures RemoveFirst(s[i..], x) == if s[i] == x then s[i + 1..] else [s[i]] + RemoveFirst(s[i + 1..], x)
  {
    assert s[i..][1..] == s[i + 1..];
  }

  lemma RemoveFirstOfNothing<T>(s: seq<T>, x: T)
    requires s == []
    ensures RemoveFirst(s, x) == []
  {
  }
}
