/**
 * ORDER BY <key> DESC LIMIT k, stated relationally. SQL fixes no order among
 * rows with equal keys, so the contract of TopBy says nothing about ties: it
 * promises a selection of at most k rows, sorted by key, such that no row
 * left out ranks above a row selected.
 */
module Ranking {
  function Min(a: int, b: int): int
  {
    if a <= b then a else b
  }

  /** No element occurs twice. */
  predicate NoDup<T(==)>(xs: seq<T>)
  {
    forall i, j :: 0 <= i < j < |xs| ==> xs[i] != xs[j]
  }

  /** The distinct elements of xs, in the order of their first occurrence. */
  function Distinct<T(==, !new)>(xs: seq<T>): (r: seq<T>)
    ensures NoDup(r)
    ensures forall x :: x in r <==> x in xs
    ensures |r| <= |xs|
  {
    if xs == [] then []
    else
      var rest := Distinct(xs[..|xs| - 1]);
      if xs[|xs| - 1] in rest then rest else rest + [xs[|xs| - 1]]
  }

  /** The position of an element whose key no other element exceeds. */
  function ArgMax<T>(xs: seq<T>, key: T -> int): (m: nat)
    requires xs != []
    ensures m < |xs|
    ensures forall j :: 0 <= j < |xs| ==> key(xs[j]) <= key(xs[m])
  {
    if |xs| == 1 then 0
    else
      var m := ArgMax(xs[1..], key);
      if key(xs[0]) >= key(xs[1..][m]) then 0 else m + 1
  }

  /** xs without its element at position i. */
  function RemoveAt<T>(xs: seq<T>, i: nat): seq<T>
    requires i < |xs|
  {
    xs[..i] + xs[i + 1..]
  }

  lemma RemoveAtMembers<T>(xs: seq<T>, i: nat)
    requires i < |xs| && NoDup(xs)
    ensures |RemoveAt(xs, i)| == |xs| - 1
    ensures NoDup(RemoveAt(xs, i))
    ensures forall x :: x in RemoveAt(xs, i) <==> x in xs && x != xs[i]
  {
    var r := RemoveAt(xs, i);
    forall a, b | 0 <= a < b < |r| ensures r[a] != r[b] {
      var a' := if a < i then a else a + 1;
      var b' := if b < i then b else b + 1;
      assert r[a] == xs[a'] && r[b] == xs[b'];
    }
    forall x ensures x in r <==> x in xs && x != xs[i] {
      if x in r {
        var a :| 0 <= a < |r| && r[a] == x;
        var a' := if a < i then a else a + 1;
        assert r[a] == xs[a'];
      }
      if x in xs && x != xs[i] {
        var a' :| 0 <= a' < |xs| && xs[a'] == x;
        var a := if a' < i then a' else a' - 1;
        assert r[a] == x;
      }
    }
  }

  /** Putting an element of the largest key in front of a ranking of the others keeps it a ranking. */
  lemma TopByCons<T>(xs: seq<T>, key: T -> int, m: nat, rest: seq<T>)
    requires m < |xs|
    requires forall j :: 0 <= j < |xs| ==> key(xs[j]) <= key(xs[m])
    requires NoDup(rest)
    requires forall i :: 0 <= i < |rest| ==> rest[i] in xs && rest[i] != xs[m]
    requires forall i, j :: 0 <= i < j < |rest| ==> key(rest[i]) >= key(rest[j])
    requires forall x :: x in xs && x != xs[m] && x !in rest ==> forall i :: 0 <= i < |rest| ==> key(x) <= key(rest[i])
    ensures NoDup([xs[m]] + rest)
    ensures forall i :: 0 <= i < |rest| + 1 ==> ([xs[m]] + rest)[i] in xs
    ensures forall i, j :: 0 <= i < j < |rest| + 1 ==> key(([xs[m]] + rest)[i]) >= key(([xs[m]] + rest)[j])
    ensures forall x :: x in xs && x !in [xs[m]] + rest ==> forall i :: 0 <= i < |rest| + 1 ==> key(x) <= key(([xs[m]] + rest)[i])
  {
    var r := [xs[m]] + rest;
    forall i | 0 < i < |r| ensures r[i] == rest[i - 1] && key(r[i]) <= key(xs[m]) {
      var j :| 0 <= j < |xs| && xs[j] == rest[i - 1];
    }
  }

  /**
   * The k elements of xs with the largest keys, largest first. Which of
   * several elements with equal keys are chosen, and in which order, is not
   * part of the contract.
   */
  function TopBy<T(==, !new)>(xs: seq<T>, key: T -> int, k: nat): (r: seq<T>)
    requires NoDup(xs)
    ensures |r| == Min(k, |xs|)
    ensures NoDup(r)
    ensures forall i :: 0 <= i < |r| ==> r[i] in xs
    ensures forall i, j :: 0 <= i < j < |r| ==> key(r[i]) >= key(r[j])
    ensures forall x :: x in xs && x !in r ==> forall i :: 0 <= i < |r| ==> key(x) <= key(r[i])
    decreases k
  {
    if k == 0 || xs == [] then []
    else
      var m := ArgMax(xs, key);
      RemoveAtMembers(xs, m);
      var rest := TopBy(RemoveAt(xs, m), key, k - 1);
      TopByCons(xs, key, m, rest);
      [xs[m]] + rest
  }
}
