/** A Python `dict` as the assistant uses it: a table iterated in insertion
    order, where assigning an existing key updates it in place and assigning
    a new key appends it. Modelled as a sequence of (key, value) pairs. */
module OrderedDict {
  import opened Wrappers

  type Dict<K, V> = seq<(K, V)>

  /** `list(d.keys())`. */
  function Keys<K(==), V>(d: Dict<K, V>): (ks: seq<K>)
    ensures |ks| == |d|
    ensures forall i :: 0 <= i < |d| ==> ks[i] == d[i].0
  {
    seq(|d|, i requires 0 <= i < |d| => d[i].0)
  }

  /** The keys of a non-empty table: its first key, then those of the rest. */
  lemma KeysFirst<K, V>(d: Dict<K, V>)
    requires |d| > 0
    ensures forall p :: p in Keys(d) <==> p == d[0].0 || p in Keys(d[1..])
  {
    assert Keys(d) == [d[0].0] + Keys(d[1..]);
  }

  /** No key occurs twice: every table built by `Put` has this shape. */
  predicate Valid<K(==), V>(d: Dict<K, V>) {
    forall i, j :: 0 <= i < j < |d| ==> d[i].0 != d[j].0
  }

  /** Position of a present key. */
  function IndexOf<K(==), V>(d: Dict<K, V>, k: K): (i: nat)
    requires k in Keys(d)
    ensures i < |d| && d[i].0 == k
    ensures forall j :: 0 <= j < i ==> d[j].0 != k
    decreases |d|
  {
    if d[0].0 == k then 0
    else
      assert k in Keys(d[1..]) by {
        var m :| 0 <= m < |d| && Keys(d)[m] == k;
        assert Keys(d[1..])[m - 1] == k;
      }
      1 + IndexOf(d[1..], k)
  }

  /** `d.get(k)`. */
  function Get<K(==), V>(d: Dict<K, V>, k: K): (r: Option<V>)
    ensures r.None? <==> k !in Keys(d)
    ensures r.Some? ==> r.value == d[IndexOf(d, k)].1
  {
    if k in Keys(d) then Some(d[IndexOf(d, k)].1) else None
  }

  /** `d[k] = v`: updates the entry in place when `k` is present, appends
      `(k, v)` otherwise. */
  function Put<K(==), V>(d: Dict<K, V>, k: K, v: V): (r: Dict<K, V>)
    ensures k in Keys(d) ==> r == d[IndexOf(d, k) := (k, v)]
    ensures k !in Keys(d) ==> r == d + [(k, v)]
  {
    if k in Keys(d) then d[IndexOf(d, k) := (k, v)] else d + [(k, v)]
  }

  /** `del d[k]` on a present key; the table unchanged otherwise. */
  function Remove<K(==), V>(d: Dict<K, V>, k: K): (r: Dict<K, V>)
    ensures k in Keys(d) ==> r == d[..IndexOf(d, k)] + d[IndexOf(d, k) + 1..]
    ensures k !in Keys(d) ==> r == d
  {
    if k in Keys(d) then d[..IndexOf(d, k)] + d[IndexOf(d, k) + 1..] else d
  }

  /** In a valid table the index of a key is the only position holding it. */
  lemma IndexOfUnique<K, V>(d: Dict<K, V>, k: K, i: int)
    requires Valid(d) && 0 <= i < |d| && d[i].0 == k
    ensures k in Keys(d) && IndexOf(d, k) == i
  {
    assert Keys(d)[i] == k;
  }

  /** After `d[k] = v`, `d.get(k)` is `v`, every other key reads as before,
      the key set grows by `k` only, and the table stays valid. */
  lemma {:induction false} PutSpec<K, V>(d: Dict<K, V>, k: K, v: V)
    requires Valid(d)
    ensures Valid(Put(d, k, v))
    ensures Get(Put(d, k, v), k) == Some(v)
    ensures forall k' :: k' != k ==> Get(Put(d, k, v), k') == Get(d, k')
    ensures Keys(Put(d, k, v)) == if k in Keys(d) then Keys(d) else Keys(d) + [k]
  {
    var r := Put(d, k, v);
    if k in Keys(d) {
      var i := IndexOf(d, k);
      assert Keys(r) == Keys(d);
      IndexOfUnique(r, k, i);
      forall k' | k' != k
        ensures Get(r, k') == Get(d, k')
      {
        if k' in Keys(d) {
          var j := IndexOf(d, k');
          IndexOfUnique(r, k', j);
        }
      }
    } else {
      assert Keys(r) == Keys(d) + [k];
      assert Valid(r) by {
        forall a, b | 0 <= a < b < |r|
          ensures r[a].0 != r[b].0
        {
          if b == |d| {
            assert Keys(d)[a] == d[a].0;
          }
        }
      }
      IndexOfUnique(r, k, |d|);
      forall k' | k' != k
        ensures Get(r, k') == Get(d, k')
      {
        if k' in Keys(d) {
          var j := IndexOf(d, k');
          IndexOfUnique(r, k', j);
        }
      }
    }
  }

  /** After `del d[k]` on a valid table, `k` is gone, the other keys read as
      before and keep their relative order, and the table stays valid. */
  lemma {:induction false} RemoveSpec<K, V>(d: Dict<K, V>, k: K)
    requires Valid(d)
    ensures Valid(Remove(d, k))
    ensures k !in Keys(Remove(d, k))
    ensures forall k' :: k' != k ==> Get(Remove(d, k), k') == Get(d, k')
  {
    var r := Remove(d, k);
    if k in Keys(d) {
      var i := IndexOf(d, k);
      assert forall a :: 0 <= a < |r| ==> r[a] == (if a < i then d[a] else d[a + 1]);
      assert k !in Keys(r) by {
        forall a | 0 <= a < |r| ensures Keys(r)[a] != k {
          if a >= i { assert d[a + 1].0 != d[i].0; }
        }
      }
      forall k' | k' != k
        ensures Get(r, k') == Get(d, k')
      {
        if k' in Keys(d) {
          var j := IndexOf(d, k');
          var j' := if j < i then j else j - 1;
          assert r[j'] == d[j];
          IndexOfUnique(r, k', j');
        } else {
          assert k' !in Keys(r) by {
            forall a | 0 <= a < |r| ensures Keys(r)[a] != k' {
              if a < i { assert Keys(d)[a] == d[a].0; } else { assert Keys(d)[a + 1] == d[a + 1].0; }
            }
          }
        }
      }
    }
  }

  /** The first position holding a key is its index. */
  lemma {:induction false} IndexOfFirst<K, V>(d: Dict<K, V>, k: K, i: nat)
    requires i < |d| && d[i].0 == k
    requires forall j :: 0 <= j < i ==> d[j].0 != k
    ensures k in Keys(d) && IndexOf(d, k) == i
    decreases i
  {
    assert Keys(d)[i] == k;
    if i > 0 {
      IndexOfFirst(d[1..], k, i - 1);
    }
  }

  /** Reading after `d[k] = v`, whatever the table's shape: `k` reads as
      `v` and every other key as before. */
  lemma PutReads<K, V>(d: Dict<K, V>, k: K, v: V)
    ensures Get(Put(d, k, v), k) == Some(v)
    ensures forall k' :: k' != k ==> Get(Put(d, k, v), k') == Get(d, k')
  {
    var r := Put(d, k, v);
    var i := if k in Keys(d) then IndexOf(d, k) else |d|;
    assert forall j :: 0 <= j < |d| && j != i ==> r[j] == d[j];
    IndexOfFirst(r, k, i);
    forall k' | k' != k
      ensures Get(r, k') == Get(d, k')
    {
      if k' in Keys(d) {
        IndexOfFirst(r, k', IndexOf(d, k'));
      } else {
        assert k' !in Keys(r) by {
          forall a | 0 <= a < |r| ensures Keys(r)[a] != k' {
            if a != i { assert Keys(d)[a] == d[a].0; }
          }
        }
      }
    }
  }
}
