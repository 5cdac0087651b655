/**
 * The recency queue shared by the texture and material caches: a `VecDeque`
 * of keys with the most recently used key at the front and the eviction
 * victim at the back, kept in step with the cache's `HashMap`.
 */
module Lru {
  import opened Common

  /** `VecDeque::remove` at the position of the first occurrence of `k`, if there is one. */
  function RemoveFirst<K(==)>(q: seq<K>, k: K): (r: seq<K>)
    ensures k !in q ==> r == q
    ensures k in q ==> |r| == |q| - 1
  {
    if |q| == 0 then q
    else if q[0] == k then q[1..]
    else
      assert k in q ==> k in q[1..];
      [q[0]] + RemoveFirst(q[1..], k)
  }

  /** Removing a queued key leaves what came before its first position followed by what came after. */
  lemma {:induction false} RemoveFirstSplit<K(!new)>(q: seq<K>, k: K)
    requires k in q
    ensures RemoveFirst(q, k) == q[..IndexOf(q, k).value] + q[IndexOf(q, k).value + 1..]
  {
    if q[0] != k {
      assert k in q[1..];
      RemoveFirstSplit(q[1..], k);
      var i := IndexOf(q[1..], k).value;
      assert IndexOf(q, k).value == i + 1;
      assert q[..i + 1] == [q[0]] + q[1..][..i];
      assert q[i + 2..] == q[1..][i + 1..];
    }
  }

  /** `update_lru`'s queue step: drop the key from where it is and push it to the front. */
  function Touch<K(==, !new)>(q: seq<K>, k: K): (r: seq<K>)
    ensures |r| > 0 && r[0] == k
  {
    [k] + RemoveFirst(q, k)
  }

  /** The queue after `pop_back`: everything but the least recently used key. */
  function PopBack<K>(q: seq<K>): (r: seq<K>)
    requires |q| > 0
    ensures |r| == |q| - 1 && q == r + [q[|q| - 1]]
  {
    q[..|q| - 1]
  }

  /** The entries of `m` whose keys are still queued. */
  function Restrict<K(==, !new), V>(m: map<K, V>, q: seq<K>): (r: map<K, V>)
    ensures forall k :: k in r <==> k in m && k in q
    ensures forall k :: k in r ==> r[k] == m[k]
  {
    map k | k in m && k in q :: m[k]
  }

  /** The queue holds exactly the keys of `m`, each once: the invariant both caches keep. */
  ghost predicate Mirrors<K(!new), V>(q: seq<K>, m: map<K, V>) {
    NoDuplicates(q) && (forall k :: k in m <==> k in q)
  }

  /** Position `j` of the shortened queue holds what position `j` or `j + 1` of the original held. */
  lemma RemoveFirstAt<K(!new)>(q: seq<K>, k: K, j: nat)
    requires k in q && j < |q| - 1
    ensures RemoveFirst(q, k)[j] == q[if j < IndexOf(q, k).value then j else j + 1]
  {
    var i := IndexOf(q, k).value;
    var l, r := q[..i], q[i + 1..];
    RemoveFirstSplit(q, k);
    if j < i {
      assert (l + r)[j] == l[j];
    } else {
      assert (l + r)[j] == r[j - i];
    }
  }

  /** Removing a key from a duplicate-free queue keeps it duplicate-free. */
  lemma {:induction false} RemoveFirstDistinct<K(!new)>(q: seq<K>, k: K)
    requires NoDuplicates(q) && k in q
    ensures NoDuplicates(RemoveFirst(q, k))
  {
    var r := RemoveFirst(q, k);
    forall a, b | 0 <= a < b < |r|
      ensures r[a] != r[b]
    {
      RemoveFirstAt(q, k, a);
      RemoveFirstAt(q, k, b);
    }
  }

  /** Removing a key from a duplicate-free queue drops exactly that key. */
  lemma {:induction false} RemoveFirstMembers<K(!new)>(q: seq<K>, k: K, x: K)
    requires NoDuplicates(q) && k in q
    ensures x in RemoveFirst(q, k) <==> x in q && x != k
  {
    var i := IndexOf(q, k).value;
    var r := RemoveFirst(q, k);
    if x in r {
      var j :| 0 <= j < |r| && r[j] == x;
      RemoveFirstAt(q, k, j);
      var j' := if j < i then j else j + 1;
      assert q[j'] == x && j' != i;
    }
    if x in q && x != k {
      var j :| 0 <= j < |q| && q[j] == x;
      var j' := if j < i then j else j - 1;
      RemoveFirstAt(q, k, j');
    }
  }

  /** Both facts together, for every key. */
  lemma RemoveFirstKeys<K(!new)>(q: seq<K>, k: K)
    requires NoDuplicates(q) && k in q
    ensures NoDuplicates(RemoveFirst(q, k))
    ensures forall x :: x in RemoveFirst(q, k) <==> x in q && x != k
  {
    RemoveFirstDistinct(q, k);
    forall x
      ensures x in RemoveFirst(q, k) <==> x in q && x != k
    {
      RemoveFirstMembers(q, k, x);
    }
  }

  /** A queue is the part before position `i`, the key at `i`, and the part after it. */
  lemma SplitAt<K>(q: seq<K>, i: nat)
    requires i < |q|
    ensures q == q[..i] + [q[i]] + q[i + 1..]
  {
  }

  /** Touching a queued key keeps the queue a duplicate-free permutation of the same keys. */
  lemma {:induction false} TouchKeepsMirror<K(!new), V>(q: seq<K>, m: map<K, V>, k: K)
    requires Mirrors(q, m) && k in m
    ensures Mirrors(Touch(q, k), m)
    ensures |Touch(q, k)| == |q|
  {
    var r := RemoveFirst(q, k);
    RemoveFirstKeys(q, k);
    var t := Touch(q, k);
    assert t == [k] + r;
    forall a, b | 0 <= a < b < |t|
      ensures t[a] != t[b]
    {
      if a == 0 {
        assert t[b] == r[b - 1];
        assert t[b] in r;
      } else {
        assert t[a] == r[a - 1] && t[b] == r[b - 1];
      }
    }
  }

  /** Popping the back key of a mirrored queue leaves a queue mirroring the map without that key. */
  lemma PopBackKeepsMirror<K(!new), V>(q: seq<K>, m: map<K, V>)
    requires Mirrors(q, m) && |q| > 0
    ensures Mirrors(PopBack(q), m - {q[|q| - 1]})
  {
    var last := q[|q| - 1];
    var r := PopBack(q);
    forall x
      ensures x in m - {last} <==> x in r
    {
      if x in r {
        var j :| 0 <= j < |r| && r[j] == x;
        assert q[j] == x;
      }
    }
  }

  /** Pushing a fresh key to the front keeps the queue mirroring the map extended by that key. */
  lemma PushFrontKeepsMirror<K(!new), V>(q: seq<K>, m: map<K, V>, k: K, v: V)
    requires Mirrors(q, m) && k !in m
    ensures Mirrors([k] + q, m[k := v])
  {
    var r := [k] + q;
    forall a, b | 0 <= a < b < |r|
      ensures r[a] != r[b]
    {
      if a == 0 {
        assert r[b] == q[b - 1];
      }
    }
  }

  /**
   * Evicting from the back of a queue prefix: the prefix loses its last key and the
   * entries restricted to it lose exactly that key's entry.
   */
  lemma RestrictPopBack<K(!new), V>(m: map<K, V>, q: seq<K>, n: nat)
    requires NoDuplicates(q) && 0 < n <= |q|
    ensures PopBack(q[..n]) == q[..n - 1]
    ensures Restrict(m, q[..n]) - {q[n - 1]} == Restrict(m, q[..n - 1])
  {
    assert q[n - 1] !in q[..n - 1];
    forall k
      ensures k in q[..n] <==> k in q[..n - 1] || k == q[n - 1]
    {
      assert q[..n] == q[..n - 1] + [q[n - 1]];
    }
  }

  /** A queue of distinct keys has exactly as many elements as the set it enumerates. */
  lemma {:induction false} DistinctCount<K(!new)>(q: seq<K>, s: set<K>)
    requires NoDuplicates(q)
    requires forall k :: k in s <==> k in q
    ensures |s| == |q|
  {
    if |q| > 0 {
      var last := q[|q| - 1];
      var r := q[..|q| - 1];
      assert last !in r;
      forall k
        ensures k in s - {last} <==> k in r
      {
        if k in q && k != last {
          var j :| 0 <= j < |q| && q[j] == k;
          assert j < |q| - 1 && r[j] == k;
        }
      }
      DistinctCount(r, s - {last});
    }
  }

  /** The number of entries of a mirrored map is the length of its queue. */
  lemma MirrorCount<K(!new), V>(q: seq<K>, m: map<K, V>)
    requires Mirrors(q, m)
    ensures |m| == |q|
  {
    DistinctCount(q, m.Keys);
  }
}
