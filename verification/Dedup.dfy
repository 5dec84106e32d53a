/**
 * First-occurrence deduplication, the reference definition behind both asset deduplicators:
 * the Scratch 2 `processAssets` (keyed by content hash) and the Scratch 3 `dedupeAssets`
 * (keyed by `md5ext`).
 */
module Dedup {

  /** The index of the first `k` in `ks`, or `|ks|` when `k` does not occur. */
  function FirstIndex<K(==)>(ks: seq<K>, k: K): (i: nat)
    ensures i <= |ks|
    ensures i < |ks| ==> ks[i] == k
    ensures forall q :: 0 <= q < i ==> ks[q] != k
  {
    if ks == [] then 0 else if ks[0] == k then 0 else 1 + FirstIndex(ks[1..], k)
  }

  /** The three facts of FirstIndex's contract determine it. */
  lemma FirstIndexUnique<K>(ks: seq<K>, k: K, i: nat)
    requires i <= |ks|
    requires i < |ks| ==> ks[i] == k
    requires forall q :: 0 <= q < i ==> ks[q] != k
    ensures FirstIndex(ks, k) == i
  {
  }

  /** Appending an element leaves the first index of an element already present unchanged. */
  lemma FirstIndexSnoc<K>(ks: seq<K>, x: K, k: K)
    ensures FirstIndex(ks + [x], k) ==
            if k in ks then FirstIndex(ks, k) else if x == k then |ks| else |ks| + 1
  {
    var ks' := ks + [x];
    var f := FirstIndex(ks, k);
    if k in ks {
      FirstIndexUnique(ks', k, f);
    } else {
      assert forall q :: 0 <= q < |ks| ==> ks'[q] != k;
      FirstIndexUnique(ks', k, if x == k then |ks| else |ks| + 1);
    }
  }

  /** The distinct elements of `ks`, each once, in the order of their first occurrence. */
  function Distinct<K(==,!new)>(ks: seq<K>): (d: seq<K>)
    ensures forall k :: k in d <==> k in ks
    ensures forall i, j :: 0 <= i < j < |d| ==> d[i] != d[j]
  {
    if ks == [] then []
    else
      var d := Distinct(ks[..|ks| - 1]);
      assert ks == ks[..|ks| - 1] + [ks[|ks| - 1]];
      if ks[|ks| - 1] in d then d else d + [ks[|ks| - 1]]
  }

  /** Distinct lists its elements in the order in which they first occur. */
  lemma {:induction false} DistinctFirstOccurrenceOrder<K(!new)>(ks: seq<K>)
    ensures forall i, j :: 0 <= i < j < |Distinct(ks)| ==>
              FirstIndex(ks, Distinct(ks)[i]) < FirstIndex(ks, Distinct(ks)[j])
  {
    if ks != [] {
      var p, x := ks[..|ks| - 1], ks[|ks| - 1];
      assert ks == p + [x];
      DistinctFirstOccurrenceOrder(p);
      var d, dp := Distinct(ks), Distinct(p);
      forall k | k in dp
        ensures FirstIndex(ks, k) == FirstIndex(p, k) < |p|
      {
        FirstIndexSnoc(p, x, k);
      }
      if x !in dp {
        FirstIndexSnoc(p, x, x);
        assert d == dp + [x];
        forall i, j | 0 <= i < j < |d|
          ensures FirstIndex(ks, d[i]) < FirstIndex(ks, d[j])
        {
          assert d[i] in dp;
          if j < |dp| {
            assert d[i] == dp[i] && d[j] == dp[j];
          }
        }
      }
    }
  }

  /** Extending the input extends Distinct by the new element exactly when it is new. */
  lemma DistinctSnoc<K(!new)>(ks: seq<K>, x: K)
    ensures Distinct(ks + [x]) == if x in ks then Distinct(ks) else Distinct(ks) + [x]
  {
    assert (ks + [x])[..|ks + [x]| - 1] == ks;
  }
}
