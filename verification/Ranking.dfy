/** Python's sorted(range(n), key=..., reverse=True): indices by falling key, ties in index
    order (the sort is stable, also when reversed). */
module Ranking {
  import opened Prelude

  /** i comes before j in the order: a strict total order on indices. */
  predicate Before(keys: seq<real>, i: nat, j: nat)
    requires i < |keys| && j < |keys|
  {
    keys[i] > keys[j] || (keys[i] == keys[j] && i < j)
  }

  predicate Indices(order: seq<nat>, n: nat) {
    forall k :: 0 <= k < |order| ==> order[k] < n
  }

  function Insert(keys: seq<real>, order: seq<nat>, i: nat): (r: seq<nat>)
    requires i < |keys| && Indices(order, |keys|)
    ensures Indices(r, |keys|) && |r| == |order| + 1
    ensures forall x :: x in r <==> x in order || x == i
  {
    if order == [] then [i]
    else if keys[order[0]] < keys[i] then [i] + order
    else
      var rest := Insert(keys, order[1..], i);
      assert forall x :: x in order <==> x == order[0] || x in order[1..];
      [order[0]] + rest
  }

  function RankedUpTo(keys: seq<real>, n: nat): (r: seq<nat>)
    requires n <= |keys|
    ensures Indices(r, |keys|) && |r| == n
    ensures forall x: nat :: x in r <==> x < n
  {
    if n == 0 then [] else Insert(keys, RankedUpTo(keys, n - 1), n - 1)
  }

  function Ranked(keys: seq<real>): (r: seq<nat>)
    ensures Indices(r, |keys|) && |r| == |keys|
    ensures forall x: nat :: x in r <==> x < |keys|
  {
    RankedUpTo(keys, |keys|)
  }

  ghost predicate Sorted(keys: seq<real>, order: seq<nat>)
    requires Indices(order, |keys|)
  {
    forall a, b :: 0 <= a < b < |order| ==> Before(keys, order[a], order[b])
  }

  lemma {:induction false} InsertSorts(keys: seq<real>, order: seq<nat>, i: nat)
    requires i < |keys| && Indices(order, |keys|) && Sorted(keys, order)
    requires forall k :: 0 <= k < |order| ==> order[k] < i
    ensures Sorted(keys, Insert(keys, order, i))
  {
    var r := Insert(keys, order, i);
    if order != [] && keys[order[0]] >= keys[i] {
      InsertSorts(keys, order[1..], i);
      var rest := Insert(keys, order[1..], i);
      forall b | 0 <= b < |rest| ensures Before(keys, order[0], rest[b]) {
        assert rest[b] in rest;
        if rest[b] != i {
          var k :| 0 <= k < |order[1..]| && order[1..][k] == rest[b];
          assert Before(keys, order[0], order[k + 1]);
        }
      }
    }
  }

  lemma {:induction false} RankedUpToSorts(keys: seq<real>, n: nat)
    requires n <= |keys|
    ensures Sorted(keys, RankedUpTo(keys, n))
  {
    if n > 0 {
      RankedUpToSorts(keys, n - 1);
      var r := RankedUpTo(keys, n - 1);
      assert forall k :: 0 <= k < |r| ==> r[k] in r;
      InsertSorts(keys, r, n - 1);
    }
  }

  /** Every index exactly once, best key first, ties by lower index. */
  lemma RankedSorts(keys: seq<real>)
    ensures Sorted(keys, Ranked(keys)) && NoDup(Ranked(keys))
  {
    RankedUpToSorts(keys, |keys|);
    var r := Ranked(keys);
    forall a, b | 0 <= a < b < |r| ensures r[a] != r[b] {
      assert Before(keys, r[a], r[b]);
    }
  }
}
