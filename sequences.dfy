/** The list operations the connection relies on, over Dafny sequences. */
module Sequences {

  /** No element occurs twice. */
  ghost predicate Distinct<T>(s: seq<T>) {
    forall i, j :: 0 <= i < j < |s| ==> s[i] != s[j]
  }

  /** Position of the first occurrence of `x` in `s`. */
  function FirstIndex<T(==)>(s: seq<T>, x: T): (i: nat)
    requires x in s
    ensures i < |s| && s[i] == x && x !in s[..i]
  {
    if s[0] == x then 0
    else
      var i := FirstIndex(s[1..], x);
      assert s[..i + 1] == [s[0]] + s[1..][..i];
      i + 1
  }

  /**
   * Python's `list.remove(x)` where a missing element is ignored: the first
   * occurrence of `x` is dropped and the order of the rest is kept.
   */
  function Remove<T(==)>(s: seq<T>, x: T): (r: seq<T>)
    ensures x !in s ==> r == s
    ensures x in s ==> r == s[..FirstIndex(s, x)] + s[FirstIndex(s, x) + 1..]
  {
    if s == [] then []
    else if s[0] == x then s[1..]
    else
      var rest := Remove(s[1..], x);
      RemoveBehindHead(s, x, rest);
      [s[0]] + rest
  }

  /** Removing behind a head that differs from `x` is removing from the whole list. */
  lemma RemoveBehindHead<T>(s: seq<T>, x: T, rest: seq<T>)
    requires s != [] && s[0] != x
    requires x !in s[1..] ==> rest == s[1..]
    requires x in s[1..] ==> rest == s[1..][..FirstIndex(s[1..], x)] + s[1..][FirstIndex(s[1..], x) + 1..]
    ensures x !in s ==> [s[0]] + rest == s
    ensures x in s ==> [s[0]] + rest == s[..FirstIndex(s, x)] + s[FirstIndex(s, x) + 1..]
  {
  }

  /** A duplicate-free list is its head followed by a duplicate-free tail without the head. */
  lemma DistinctUncons<T>(s: seq<T>)
    requires Distinct(s) && s != []
    ensures Distinct(s[1..]) && s[0] !in s[1..]
  {
  }

  /** Prepending a new element keeps a list duplicate-free. */
  lemma DistinctCons<T>(a: T, t: seq<T>)
    requires Distinct(t) && a !in t
    ensures Distinct([a] + t)
  {
  }

  /** Appending an element not yet present keeps a list duplicate-free. */
  lemma DistinctSnoc<T>(t: seq<T>, a: T)
    requires Distinct(t) && a !in t
    ensures Distinct(t + [a])
  {
  }

  /** Removing an element from a list without duplicates removes every occurrence of it and keeps the rest duplicate-free. */
  lemma {:induction false} RemoveDistinct<T>(s: seq<T>, x: T)
    requires Distinct(s)
    ensures Distinct(Remove(s, x))
    ensures forall y :: y in Remove(s, x) <==> y in s && y != x
  {
    if s != [] {
      DistinctUncons(s);
      if s[0] != x {
        RemoveDistinct(s[1..], x);
        var rest := Remove(s[1..], x);
        assert Remove(s, x) == [s[0]] + rest;
        DistinctCons(s[0], rest);
        assert s == [s[0]] + s[1..];
      }
    }
  }
}
