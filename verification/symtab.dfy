// The engine's symbol tables (EG(function_table), EG(class_table)) as the
// merge sees them: an ordered map from keys to values, updated in place by
// zend_hash_add, zend_hash_update and the deletions of zend_hash_apply.
// The bucket layout of these tables belongs to the engine's hash code,
// which is not part of this model; only the order and the contents are.

module SymbolTables {
  import opened Wrappers
  import opened HashTables

  // ---------------------------------------------------------------------
  // Ordered maps as sequences of pairs
  // ---------------------------------------------------------------------

  /** The keys of an ordered map. */
  function Keys<V>(es: seq<(Key, V)>): set<Key>
    decreases |es|
  {
    if es == [] then {} else Keys(es[..|es| - 1]) + {es[|es| - 1].0}
  }

  /** No key occurs twice: what a hash table guarantees of its elements. */
  ghost predicate Distinct<V>(es: seq<(Key, V)>) {
    forall i, j :: 0 <= i < j < |es| ==> es[i].0 != es[j].0
  }

  /** zend_hash_find: the value under `k`, searching from the newest entry. */
  function Lookup<V>(es: seq<(Key, V)>, k: Key): (r: Option<V>)
    ensures r.Some? <==> k in Keys(es)
    decreases |es|
  {
    if es == [] then None
    else if es[|es| - 1].0 == k then Some(es[|es| - 1].1)
    else Lookup(es[..|es| - 1], k)
  }

  /** The value of the entry under `k` replaced by `v`, in its place. */
  function Replace<V>(es: seq<(Key, V)>, k: Key, v: V): (r: seq<(Key, V)>)
    ensures |r| == |es|
    ensures forall i :: 0 <= i < |es| ==> r[i].0 == es[i].0
    ensures forall i :: 0 <= i < |es| && es[i].0 != k ==> r[i] == es[i]
    ensures forall i :: 0 <= i < |es| && es[i].0 == k ==> r[i].1 == v
  {
    seq(|es|, i requires 0 <= i < |es| => if es[i].0 == k then (k, v) else es[i])
  }

  /** zend_hash_update: replace the value in place, or append a new entry. */
  function Put<V>(es: seq<(Key, V)>, k: Key, v: V): seq<(Key, V)> {
    if k in Keys(es) then Replace(es, k, v) else es + [(k, v)]
  }

  /** zend_hash_update of every entry of `es`, in order. */
  function PutAll<V>(t: seq<(Key, V)>, es: seq<(Key, V)>): seq<(Key, V)>
    decreases |es|
  {
    if es == [] then t else Put(PutAll(t, es[..|es| - 1]), es[|es| - 1].0, es[|es| - 1].1)
  }

  /** The values of an ordered map, in order. */
  function Values<V>(es: seq<(Key, V)>): (r: seq<V>)
    ensures |r| == |es| && forall i :: 0 <= i < |es| ==> r[i] == es[i].1
  {
    seq(|es|, i requires 0 <= i < |es| => es[i].1)
  }

  // ---------------------------------------------------------------------
  // Facts about keys and lookups
  // ---------------------------------------------------------------------

  lemma KeysSnoc<V>(es: seq<(Key, V)>, e: (Key, V))
    ensures Keys(es + [e]) == Keys(es) + {e.0}
  {
    assert (es + [e])[..|es|] == es;
  }

  lemma LookupSnoc<V>(es: seq<(Key, V)>, e: (Key, V), k: Key)
    ensures Lookup(es + [e], k) == if e.0 == k then Some(e.1) else Lookup(es, k)
  {
    assert (es + [e])[..|es|] == es;
  }

  /** A key is in the map exactly when some entry carries it. */
  lemma {:induction false} KeysIndex<V>(es: seq<(Key, V)>, k: Key)
    ensures k in Keys(es) <==> exists i :: 0 <= i < |es| && es[i].0 == k
    decreases |es|
  {
    if es != [] {
      var front := es[..|es| - 1];
      KeysIndex(front, k);
      if k in Keys(front) {
        var i :| 0 <= i < |front| && front[i].0 == k;
        assert es[i].0 == k;
      }
      if i :| 0 <= i < |es| && es[i].0 == k {
        if i < |front| {
          assert front[i].0 == k;
        }
      }
    }
  }

  /** In a map without duplicate keys, a lookup finds the entry that carries the key. */
  lemma {:induction false} LookupIndex<V>(es: seq<(Key, V)>, i: nat)
    requires Distinct(es) && i < |es|
    ensures Lookup(es, es[i].0) == Some(es[i].1)
    decreases |es|
  {
    if i < |es| - 1 {
      assert es[i].0 != es[|es| - 1].0;
      LookupIndex(es[..|es| - 1], i);
    }
  }

  lemma DistinctSnoc<V>(es: seq<(Key, V)>, e: (Key, V))
    ensures Distinct(es + [e]) <==> Distinct(es) && e.0 !in Keys(es)
  {
    KeysIndex(es, e.0);
    var es2 := es + [e];
    if Distinct(es2) {
      assert forall i, j :: 0 <= i < j < |es| ==> es[i].0 == es2[i].0 && es[j].0 == es2[j].0;
      assert forall i :: 0 <= i < |es| ==> es[i].0 == es2[i].0 != es2[|es|].0;
    }
  }

  /** The entries before the last of a map without duplicate keys: no duplicates, and not the last key. */
  lemma DistinctFront<V>(es: seq<(Key, V)>)
    requires Distinct(es) && es != []
    ensures Distinct(es[..|es| - 1]) && es[|es| - 1].0 !in Keys(es[..|es| - 1])
  {
    KeysIndex(es[..|es| - 1], es[|es| - 1].0);
  }

  lemma ReplaceKeys<V>(es: seq<(Key, V)>, k: Key, v: V)
    ensures Keys(Replace(es, k, v)) == Keys(es)
    ensures Distinct(es) ==> Distinct(Replace(es, k, v))
  {
    var r := Replace(es, k, v);
    forall k2
      ensures k2 in Keys(r) <==> k2 in Keys(es)
    {
      KeysIndex(r, k2);
      KeysIndex(es, k2);
    }
  }

  /** Replacing in place changes the lookup of that key and of no other. */
  lemma {:induction false} ReplaceLookup<V>(es: seq<(Key, V)>, k: Key, v: V, k2: Key)
    ensures Lookup(Replace(es, k, v), k2) == if k2 == k && k in Keys(es) then Some(v) else Lookup(es, k2)
    decreases |es|
  {
    if es != [] {
      var front := es[..|es| - 1];
      assert Replace(es, k, v)[..|es| - 1] == Replace(front, k, v);
      ReplaceLookup(front, k, v, k2);
    }
  }

  lemma PutLookup<V>(es: seq<(Key, V)>, k: Key, v: V, k2: Key)
    ensures Lookup(Put(es, k, v), k2) == if k2 == k then Some(v) else Lookup(es, k2)
    ensures Keys(Put(es, k, v)) == Keys(es) + {k}
    ensures Distinct(es) ==> Distinct(Put(es, k, v))
  {
    if k in Keys(es) {
      ReplaceLookup(es, k, v, k2);
      ReplaceKeys(es, k, v);
    } else {
      LookupSnoc(es, (k, v), k2);
      KeysSnoc(es, (k, v));
      DistinctSnoc(es, (k, v));
    }
  }

  /**
   * Putting every entry of `es`: a key of `es` ends with its last value
   * in `es`, every other key keeps its value, and no key is duplicated.
   */
  lemma {:induction false} PutAllLookup<V>(t: seq<(Key, V)>, es: seq<(Key, V)>, k: Key)
    ensures Lookup(PutAll(t, es), k) == if k in Keys(es) then Lookup(es, k) else Lookup(t, k)
    ensures Keys(PutAll(t, es)) == Keys(t) + Keys(es)
    ensures Distinct(t) ==> Distinct(PutAll(t, es))
    decreases |es|
  {
    if es != [] {
      var front := es[..|es| - 1];
      var e := es[|es| - 1];
      assert es == front + [e];
      PutAllLookup(t, front, k);
      PutLookup(PutAll(t, front), e.0, e.1, k);
      LookupSnoc(front, e, k);
      KeysSnoc(front, e);
    }
  }

  // ---------------------------------------------------------------------
  // A table updated in place
  // ---------------------------------------------------------------------

  /**
   * A `HashTable` of the engine that the loader updates in place: its
   * elements in order, and `nInternalPointer`.
   */
  class SymbolTable<V> {
    var entries: seq<(Key, V)>
    var internalPointer: nat

    ghost predicate Valid()
      reads this
    {
      Distinct(entries)
    }

    /** zend_hash_add / zend_hash_index_add: insert only when the key is absent. */
    method Add(k: Key, v: V) returns (added: bool)
      requires Valid()
      modifies this
      ensures Valid()
      ensures added <==> k !in Keys(old(entries))
      ensures entries == if added then old(entries) + [(k, v)] else old(entries)
      ensures Lookup(entries, k).Some?
      ensures internalPointer == old(internalPointer)
    {
      added := Lookup(entries, k).None?;
      if added {
        DistinctSnoc(entries, (k, v));
        LookupSnoc(entries, (k, v), k);
        entries := entries + [(k, v)];
      }
    }

    /** zend_hash_update: the value under `k` becomes `v`, in place if `k` is present. */
    method Update(k: Key, v: V)
      requires Valid()
      modifies this
      ensures Valid()
      ensures entries == Put(old(entries), k, v)
      ensures Lookup(entries, k) == Some(v)
      ensures internalPointer == old(internalPointer)
    {
      PutLookup(entries, k, v, k);
      entries := Put(entries, k, v);
    }

    /** The internal pointer reset that ends a merge: the first element, or none. */
    method Rewind()
      modifies this
      ensures entries == old(entries)
      ensures internalPointer == if |entries| > 0 then 0 else INVALID_IDX
    {
      internalPointer := if |entries| > 0 then 0 else INVALID_IDX;
    }
  }
}
