/** The ordered key-indexed store behind both entity kinds: a finite map from
    `u64` keys to records whose iteration visits the keys in ascending order. */
module OrderedStore {
  import opened Types

  predicate StrictlyIncreasing(s: seq<u64>) {
    forall i, j :: 0 <= i < j < |s| ==> s[i] < s[j]
  }

  /** `k` is the least key of `ks`. */
  predicate IsLeast(k: u64, ks: set<u64>) {
    k in ks && forall j :: j in ks ==> k <= j
  }

  /** Every non-empty set of keys has a least element. */
  lemma {:induction false} HasLeast(ks: set<u64>)
    requires ks != {}
    ensures exists k :: IsLeast(k, ks)
  {
    var x :| x in ks;
    if ks == {x} {
      assert IsLeast(x, ks);
    } else {
      HasLeast(ks - {x});
      var m :| IsLeast(m, ks - {x});
      var least := if x < m then x else m;
      forall j | j in ks ensures least <= j {
        if j != x {
          assert j in ks - {x};
        }
      }
      assert IsLeast(least, ks);
    }
  }

  /** The keys of `ks` in ascending order, each exactly once. */
  function SortedKeys(ks: set<u64>): (r: seq<u64>)
    ensures StrictlyIncreasing(r)
    ensures forall k :: k in r <==> k in ks
    ensures |r| == |ks|
    decreases ks
  {
    if ks == {} then
      []
    else
      HasLeast(ks);
      var k :| IsLeast(k, ks);
      var rest := SortedKeys(ks - {k});
      assert forall i :: 0 <= i < |rest| ==> k < rest[i] by {
        forall i | 0 <= i < |rest| ensures k < rest[i] {
          assert rest[i] in ks - {k};
        }
      }
      [k] + rest
  }

  /** The stored values, visited in ascending key order (the store's `iter()`). */
  function ValuesByKey<V>(m: map<u64, V>): (r: seq<V>)
    ensures |r| == |m|
    ensures forall i :: 0 <= i < |r| ==> r[i] == m[SortedKeys(m.Keys)[i]]
  {
    var keys := SortedKeys(m.Keys);
    seq(|keys|, i requires 0 <= i < |keys| => m[keys[i]])
  }
}
