/** Sequences as the console uses Python lists and dict key orders: without
    duplicates, in the order items were first seen. */
module Seqs {

  predicate Distinct<T(==)>(s: seq<T>)
  {
    forall i, j :: 0 <= i < j < |s| ==> s[i] != s[j]
  }

  /** Position of the first occurrence of `x` in `s`. */
  function FirstIndex<T(==)>(s: seq<T>, x: T): (i: nat)
    requires x in s
    ensures i < |s| && s[i] == x
    ensures x !in s[..i]
  {
    if s[0] == x then 0
    else
      var k := FirstIndex(s[1..], x);
      assert s[1..][..k] == s[1..k + 1];
      1 + k
  }

  /** `s` with every repeat of an earlier element dropped: the shape of the
      `if x not in lst: lst.append(x)` loops of the push handler. */
  function Dedup<T(==)>(s: seq<T>): seq<T>
  {
    if s == [] then []
    else
      var d := Dedup(s[..|s| - 1]);
      if s[|s| - 1] in d then d else d + [s[|s| - 1]]
  }

  /** Dedup keeps exactly the elements of `s`, each once, ordered by where
      each was first seen in `s`. */
  lemma {:induction false} DedupSpec<T>(s: seq<T>)
    ensures Distinct(Dedup(s))
    ensures forall x :: x in Dedup(s) <==> x in s
    ensures forall i, j :: 0 <= i < j < |Dedup(s)| ==>
      FirstIndex(s, Dedup(s)[i]) < FirstIndex(s, Dedup(s)[j])
  {
    if s != [] {
      var p, x := s[..|s| - 1], s[|s| - 1];
      assert s == p + [x];
      DedupSpec(p);
      var d := Dedup(p);
      forall y | y in p
        ensures FirstIndex(s, y) == FirstIndex(p, y)
      {
        FirstIndexPrefix(p, x, y);
      }
      if x !in d {
        assert x !in p;
        FirstIndexLast(p, x);
      }
    }
  }

  lemma FirstIndexPrefix<T>(p: seq<T>, x: T, y: T)
    requires y in p
    ensures FirstIndex(p + [x], y) == FirstIndex(p, y)
  {
    var s := p + [x];
    var k := FirstIndex(p, y);
    assert s[k] == y;
    assert s[..k] == p[..k];
  }

  lemma FirstIndexLast<T>(p: seq<T>, x: T)
    requires x !in p
    ensures FirstIndex(p + [x], x) == |p|
  {
    var s := p + [x];
    assert s[..|p|] == p;
  }

  /** Dedup of a sequence followed by one more element. */
  lemma DedupSnoc<T>(s: seq<T>, x: T)
    ensures Dedup(s + [x]) == if x in Dedup(s) then Dedup(s) else Dedup(s) + [x]
  {
    assert (s + [x])[..|s|] == s;
  }

  /** The pieces `f` gives for the elements of `s`, one after the other. */
  function FlatMap<T, U>(f: T -> seq<U>, s: seq<T>): seq<U>
  {
    if s == [] then [] else FlatMap(f, s[..|s| - 1]) + f(s[|s| - 1])
  }

  /** FlatMap from the front: the first element's piece, then the rest. */
  lemma {:induction false} FlatMapCons<T, U>(f: T -> seq<U>, e: T, rest: seq<T>)
    ensures FlatMap(f, [e] + rest) == f(e) + FlatMap(f, rest)
    decreases |rest|
  {
    var s := [e] + rest;
    if rest == [] {
      assert s[..0] == [];
      assert FlatMap(f, s) == [] + f(e);
    } else {
      var p := rest[..|rest| - 1];
      assert s[..|s| - 1] == [e] + p;
      FlatMapCons(f, e, p);
      assert FlatMap(f, s) == f(e) + FlatMap(f, p) + f(rest[|rest| - 1]);
    }
  }
}
