/** Sequence helpers for the collection operations the application relies on:
    Array.prototype.find and the removal of one element from an OpenLayers
    collection. */
module Seqs {
  import opened Wrappers

  /** No element occurs twice. */
  ghost predicate Distinct<T>(s: seq<T>) {
    forall i, j :: 0 <= i < j < |s| ==> s[i] != s[j]
  }

  /** `sub` occurs as a contiguous run inside `s`. */
  ghost predicate IsInfix<T>(sub: seq<T>, s: seq<T>) {
    exists i, j :: 0 <= i <= j <= |s| && s[i..j] == sub
  }

  /** Array.prototype.find: the first element that satisfies `p`, or nothing. */
  function FindFirst<T(==)>(s: seq<T>, p: T -> bool): (r: Option<T>)
    ensures r.None? <==> forall i :: 0 <= i < |s| ==> !p(s[i])
    ensures r.Some? ==> exists k :: 0 <= k < |s| && s[k] == r.value && p(s[k]) &&
                                   forall j :: 0 <= j < k ==> !p(s[j])
  {
    if s == [] then None
    else if p(s[0]) then Some(s[0])
    else
      var r := FindFirst(s[1..], p);
      assert r.Some? ==> exists k :: 0 <= k < |s| && s[k] == r.value && p(s[k]) &&
                                    forall j :: 0 <= j < k ==> !p(s[j]) by {
        if r.Some? {
          var k :| 0 <= k < |s[1..]| && s[1..][k] == r.value && p(s[1..][k]) &&
                   forall j :: 0 <= j < k ==> !p(s[1..][j]);
          assert s[k + 1] == r.value;
          assert forall j :: 1 <= j < k + 1 ==> s[j] == s[1..][j - 1];
        }
      }
      assert forall i :: 1 <= i < |s| ==> s[i] == s[1..][i - 1];
      r
  }

  /** The position of the first occurrence of `x` in `s`. */
  function FirstIndex<T(==)>(s: seq<T>, x: T): (k: nat)
    requires x in s
    ensures k < |s| && s[k] == x && x !in s[..k]
  {
    if s[0] == x then 0
    else
      var k := FirstIndex(s[1..], x);
      assert s[..k + 1] == [s[0]] + s[1..][..k];
      k + 1
  }

  /** Removes the first occurrence of `x`, keeping the order of the rest, as
      OpenLayers' Collection.remove does; nothing changes when `x` is absent. */
  function RemoveFirst<T(==)>(s: seq<T>, x: T): (r: seq<T>)
    ensures x in s ==> |r| == |s| - 1
    ensures x !in s ==> r == s
  {
    if x in s then
      var k := FirstIndex(s, x);
      s[..k] + s[k + 1..]
    else
      s
  }

  /** Removal takes away exactly one copy of `x` when there is one. */
  lemma RemoveFirstMultiset<T>(s: seq<T>, x: T)
    ensures multiset(RemoveFirst(s, x)) == multiset(s) - multiset{x}
  {
    if x in s {
      var k := FirstIndex(s, x);
      assert s == s[..k] + [x] + s[k + 1..];
    } else {
      assert multiset(s)[x] == 0;
    }
  }

  /** In a sequence without repetitions, removing `x` leaves no copy of it,
      keeps every other element, and keeps the sequence free of repetitions. */
  lemma {:induction false} RemoveFirstOfDistinct<T>(s: seq<T>, x: T)
    requires Distinct(s)
    ensures x !in RemoveFirst(s, x)
    ensures forall y :: y in s && y != x ==> y in RemoveFirst(s, x)
    ensures forall y :: y in RemoveFirst(s, x) ==> y in s
    ensures Distinct(RemoveFirst(s, x))
  {
    if x in s {
      var k := FirstIndex(s, x);
      var r := s[..k] + s[k + 1..];
      assert forall i :: 0 <= i < |r| ==> r[i] == if i < k then s[i] else s[i + 1];
      forall y | y in s && y != x ensures y in r {
        var i :| 0 <= i < |s| && s[i] == y;
        assert i != k;
        assert r[if i < k then i else i - 1] == y;
      }
    }
  }

  /** `after` is `before` with `x` and `y` taken out: neither is left,
      every other element stays, nothing is added, and nothing repeats. */
  ghost predicate RemovedPair<T>(before: seq<T>, after: seq<T>, x: T, y: T) {
    && x !in after && y !in after
    && (forall z :: z in before && z != x && z != y ==> z in after)
    && (forall z :: z in after ==> z in before)
    && Distinct(after)
  }

  /** Removing two elements in turn from a sequence without repetitions. */
  lemma RemoveTwoOfDistinct<T>(s: seq<T>, x: T, y: T, r: seq<T>)
    requires Distinct(s) && r == RemoveFirst(RemoveFirst(s, x), y)
    ensures RemovedPair(s, r, x, y)
  {
    RemoveFirstOfDistinct(s, x);
    RemoveFirstOfDistinct(RemoveFirst(s, x), y);
  }
}
