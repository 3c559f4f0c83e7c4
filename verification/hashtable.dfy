/**
 * The engine's `HashTable` as a value: the header fields, the bucket array
 * `arData` (its first `nNumUsed` slots, live or UNDEF) and the slot heads
 * `arHash`, with the collision chains threaded through `next`.
 *
 * A bucket's slot is `h & nTableMask`; since `nTableSize` is a power of two
 * and `nTableMask == nTableSize - 1`, that is `h % nTableSize`, which is how
 * `SlotOf` writes it.
 *
 * `compact_hash_table` (zend_accelerator_util_funcs.c) is modelled here with
 * its helpers; the engine's own rehash is the pure `RehashChains`.
 */
module HashTables {
  import opened Wrappers
  import opened ZendValues

  /** INVALID_IDX: the end of a collision chain, and the empty internal pointer. */
  const INVALID_IDX: nat := 0xFFFF_FFFF
  /** The smallest table the engine allocates. */
  const HASH_MIN_SIZE: nat := 8
  /** The largest table size; also the size compaction caps at. */
  const HASH_MAX_SIZE: nat := 0x8000_0000

  /** A bucket's value: a zval, or IS_UNDEF for a deleted or never-filled bucket. */
  datatype Slot<V> = Undef | Val(v: V)

  /** A `Bucket`: hash, key (NULL for an integer key), value and chain link `Z_NEXT`. */
  datatype Bucket<V> = Bucket(h: nat, key: Option<ZStr>, val: Slot<V>, next: nat)

  datatype HashTable<V> = HashTable(
    nTableSize: nat,
    nTableMask: nat,
    nNumUsed: nat,
    nNumOfElements: nat,
    nNextFreeElement: int,
    nInternalPointer: nat,
    packed: bool,
    arData: seq<Bucket<V>>,
    arHash: seq<nat>)

  predicate IsLive<V>(b: Bucket<V>) {
    b.val.Val?
  }

  function SlotOf(h: nat, size: nat): nat
    requires size > 0
  {
    h % size
  }

  predicate IsPow2(n: nat)
    decreases n
  {
    n == 1 || (n >= 2 && n % 2 == 0 && IsPow2(n / 2))
  }

  // ---------------------------------------------------------------------
  // Views of the bucket array
  // ---------------------------------------------------------------------

  /** The number of live buckets. */
  function CountLive<V>(data: seq<Bucket<V>>): (c: nat)
    ensures c <= |data|
    decreases |data|
  {
    if data == [] then 0
    else CountLive(data[..|data| - 1]) + (if IsLive(data[|data| - 1]) then 1 else 0)
  }

  /** The live buckets in array order: the table with its tombstones dropped. */
  function LiveBuckets<V>(data: seq<Bucket<V>>): (r: seq<Bucket<V>>)
    ensures |r| == CountLive(data)
    ensures forall i :: 0 <= i < |r| ==> IsLive(r[i])
    decreases |data|
  {
    if data == [] then []
    else
      var rest := LiveBuckets(data[..|data| - 1]);
      if IsLive(data[|data| - 1]) then rest + [data[|data| - 1]] else rest
  }

  /** Two buckets that hold the same element, whatever their chain links. */
  ghost predicate SameElement<V>(a: Bucket<V>, b: Bucket<V>) {
    a.h == b.h && a.key == b.key && a.val == b.val
  }

  /** Two bucket arrays that hold the same elements at the same positions. */
  ghost predicate SameElements<V>(xs: seq<Bucket<V>>, ys: seq<Bucket<V>>) {
    |xs| == |ys| && forall i :: 0 <= i < |xs| ==> SameElement(xs[i], ys[i])
  }

  /** A table key: a string key by content, or an integer key. */
  datatype Key = StrKey(s: seq<char>) | IntKey(h: nat)

  function KeyOf<V>(b: Bucket<V>): Key {
    if b.key.Some? then StrKey(b.key.value.val) else IntKey(b.h)
  }

  /** The table as an ordered map: the (key, value) pairs of the live buckets in order. */
  function Entries<V>(data: seq<Bucket<V>>): (r: seq<(Key, V)>)
    ensures |r| == CountLive(data)
    decreases |data|
  {
    if data == [] then []
    else
      var rest := Entries(data[..|data| - 1]);
      var b := data[|data| - 1];
      if b.val.Val? then rest + [(KeyOf(b), b.val.v)] else rest
  }

  // ---------------------------------------------------------------------
  // Collision chains
  // ---------------------------------------------------------------------

  /**
   * The last live bucket below `n` whose slot is `b`, or INVALID_IDX: where
   * a chain goes next.  The engine inserts at the head of a chain, so every
   * chain visits its buckets from the newest to the oldest.
   */
  function LastLive<V>(data: seq<Bucket<V>>, n: nat, b: nat, size: nat): (r: nat)
    requires n <= |data| && size > 0
    ensures r == INVALID_IDX || (r < n && IsLive(data[r]) && SlotOf(data[r].h, size) == b)
    decreases n
  {
    if n == 0 then INVALID_IDX
    else if IsLive(data[n - 1]) && SlotOf(data[n - 1].h, size) == b then n - 1
    else LastLive(data, n - 1, b, size)
  }

  /**
   * The chains of a hash (not packed) table: `arHash[b]` is the newest live
   * bucket of slot `b`, and each live bucket links to the next older live
   * bucket of its slot.
   */
  predicate ChainsOk<V>(data: seq<Bucket<V>>, arHash: seq<nat>, size: nat) {
    && 0 < size
    && |data| < INVALID_IDX
    && |arHash| == size
    && (forall s :: 0 <= s < size ==> arHash[s] == LastLive(data, |data|, s, size))
    && (forall i {:trigger LastLive(data, i, SlotOf(data[i].h, size), size)} :: 0 <= i < |data| && IsLive(data[i]) ==>
          data[i].next == LastLive(data, i, SlotOf(data[i].h, size), size))
  }

  /** A packed table: each live element sits at the position given by its integer key. */
  predicate PackedLayout<V>(data: seq<Bucket<V>>) {
    forall i :: 0 <= i < |data| && IsLive(data[i]) ==> data[i].h == i && data[i].key.None?
  }

  /**
   * A well-formed table.  `nTableMask == 0` marks a table whose buckets were
   * never allocated: it has no buckets and its `arHash` is the shared
   * one-slot `uninitialized_bucket`.
   */
  predicate Valid<V>(t: HashTable<V>) {
    && |t.arData| == t.nNumUsed <= t.nTableSize <= HASH_MAX_SIZE
    && IsPow2(t.nTableSize) && HASH_MIN_SIZE <= t.nTableSize
    && t.nNumOfElements == CountLive(t.arData)
    && (t.nTableMask == 0 ==> t.nNumUsed == 0 && !t.packed && t.arHash == [INVALID_IDX])
    && (t.nTableMask != 0 ==>
          && t.nTableMask == t.nTableSize - 1
          && (t.packed ==> t.arHash == [INVALID_IDX] && PackedLayout(t.arData))
          && (!t.packed ==> ChainsOk(t.arData, t.arHash, t.nTableSize)))
  }

  // ---------------------------------------------------------------------
  // Facts about the views
  // ---------------------------------------------------------------------

  lemma {:induction false} LastLiveExtend<V>(data: seq<Bucket<V>>, ext: seq<Bucket<V>>, n: nat, b: nat, size: nat)
    requires n <= |data| && size > 0
    ensures LastLive(data + ext, n, b, size) == LastLive(data, n, b, size)
    decreases n
  {
    if n > 0 {
      assert (data + ext)[n - 1] == data[n - 1];
      LastLiveExtend(data, ext, n - 1, b, size);
    }
  }

  /**
   * Head insertion, `Z_NEXT(q->val) = arHash[nIndex]; arHash[nIndex] = idx;`,
   * keeps the chains of a hash table; appending an UNDEF bucket keeps them too.
   */
  lemma HeadInsertKeepsChains<V>(data: seq<Bucket<V>>, arHash: seq<nat>, size: nat, q: Bucket<V>)
    requires ChainsOk(data, arHash, size)
    requires |data| + 1 < INVALID_IDX
    ensures IsLive(q) ==>
      var s := SlotOf(q.h, size);
      ChainsOk(data + [q.(next := arHash[s])], arHash[s := |data|], size)
    ensures !IsLive(q) ==> ChainsOk(data + [q], arHash, size)
  {
    var n := |data|;
    var s := SlotOf(q.h, size);
    var q' := if IsLive(q) then q.(next := arHash[s]) else q;
    var data' := data + [q'];
    var hash' := if IsLive(q) then arHash[s := n] else arHash;
    forall b | 0 <= b < size
      ensures hash'[b] == LastLive(data', |data'|, b, size)
    {
      LastLiveExtend(data, [q'], n, b, size);
    }
    forall i | 0 <= i < |data'| && IsLive(data'[i])
      ensures data'[i].next == LastLive(data', i, SlotOf(data'[i].h, size), size)
    {
      if i < n {
        LastLiveExtend(data, [q'], i, SlotOf(data[i].h, size), size);
      } else {
        LastLiveExtend(data, [q'], n, s, size);
      }
    }
  }

  /**
   * zend_hash_rehash on a table: every slot emptied, then each live bucket
   * pushed in order on the head of its slot's chain.  Only the links change
   * (`RehashKeepsElements`, `RehashBuildsChains`).
   */
  function RehashChains<V>(data: seq<Bucket<V>>, size: nat): (r: (seq<Bucket<V>>, seq<nat>))
    requires 0 < size
    decreases |data|
  {
    if data == [] then ([], seq(size, _ => INVALID_IDX))
    else
      var prev := RehashChains(data[..|data| - 1], size);
      var q := data[|data| - 1];
      var s := SlotOf(q.h, size);
      if IsLive(q) && s < |prev.1| then
        (prev.0 + [q.(next := prev.1[s])], prev.1[s := |prev.0|])
      else (prev.0 + [q], prev.1)
  }

  lemma {:induction false} RehashKeepsElements<V>(data: seq<Bucket<V>>, size: nat)
    requires 0 < size
    ensures SameElements(RehashChains(data, size).0, data)
    ensures |RehashChains(data, size).1| == size
    decreases |data|
  {
    if data != [] {
      RehashKeepsElements(data[..|data| - 1], size);
    }
  }

  lemma {:induction false} RehashBuildsChains<V>(data: seq<Bucket<V>>, size: nat)
    requires 0 < size && |data| < INVALID_IDX
    ensures ChainsOk(RehashChains(data, size).0, RehashChains(data, size).1, size)
    decreases |data|
  {
    RehashKeepsElements(data, size);
    if data != [] {
      var pre := data[..|data| - 1];
      RehashBuildsChains(pre, size);
      RehashKeepsElements(pre, size);
      var prev := RehashChains(pre, size);
      HeadInsertKeepsChains(prev.0, prev.1, size, data[|data| - 1]);
    }
  }

  /** The buckets a chain visits from index `i`, following `next` until INVALID_IDX. */
  function Chain<V>(data: seq<Bucket<V>>, i: nat): seq<nat>
    decreases i
  {
    if i >= |data| || !IsLive(data[i]) then []
    else if data[i].next < i then [i] + Chain(data, data[i].next)
    else [i]
  }

  /** The live buckets below `n` in slot `b`, newest first. */
  function SlotMembers<V>(data: seq<Bucket<V>>, n: nat, b: nat, size: nat): seq<nat>
    requires n <= |data| && size > 0
    decreases n
  {
    if n == 0 then []
    else if IsLive(data[n - 1]) && SlotOf(data[n - 1].h, size) == b then [n - 1] + SlotMembers(data, n - 1, b, size)
    else SlotMembers(data, n - 1, b, size)
  }

  /**
   * Lookup is complete: when the chains are in order, walking the chain of a
   * slot from `arHash` visits exactly the live buckets of that slot, newest
   * first, so a lookup that walks it meets every element whose key hashes there.
   */
  lemma ChainVisitsSlot<V>(data: seq<Bucket<V>>, arHash: seq<nat>, size: nat, b: nat)
    requires ChainsOk(data, arHash, size) && b < size
    ensures Chain(data, arHash[b]) == SlotMembers(data, |data|, b, size)
  {
    ChainFrom(data, size, |data|, b);
  }

  lemma {:induction false} ChainFrom<V>(data: seq<Bucket<V>>, size: nat, n: nat, b: nat)
    requires 0 < size && n <= |data| < INVALID_IDX
    requires forall i {:trigger LastLive(data, i, SlotOf(data[i].h, size), size)} :: 0 <= i < n && IsLive(data[i]) ==>
      data[i].next == LastLive(data, i, SlotOf(data[i].h, size), size)
    ensures Chain(data, LastLive(data, n, b, size)) == SlotMembers(data, n, b, size)
    decreases n
  {
    if n > 0 {
      ChainFrom(data, size, n - 1, b);
      ChainStep(data, size, n, b);
    }
  }

  /** One more bucket below the chain head: the step of ChainFrom. */
  lemma ChainStep<V>(data: seq<Bucket<V>>, size: nat, n: nat, b: nat)
    requires 0 < n <= |data| < INVALID_IDX && size > 0
    requires IsLive(data[n - 1]) ==> data[n - 1].next == LastLive(data, n - 1, SlotOf(data[n - 1].h, size), size)
    requires Chain(data, LastLive(data, n - 1, b, size)) == SlotMembers(data, n - 1, b, size)
    ensures Chain(data, LastLive(data, n, b, size)) == SlotMembers(data, n, b, size)
  {
    if IsLive(data[n - 1]) && SlotOf(data[n - 1].h, size) == b {
      var nx := data[n - 1].next;
      assert SlotMembers(data, n, b, size) == [n - 1] + SlotMembers(data, n - 1, b, size);
      if nx == INVALID_IDX {
        assert SlotMembers(data, n - 1, b, size) == Chain(data, nx) == [];
        assert Chain(data, n - 1) == [n - 1] == [n - 1] + [];
      } else {
        assert Chain(data, n - 1) == [n - 1] + Chain(data, nx);
      }
    }
  }

  lemma {:induction false} CountLivePrefix<V>(data: seq<Bucket<V>>, i: nat)
    requires i <= |data|
    ensures CountLive(data[..i]) <= CountLive(data)
    decreases |data|
  {
    if i == |data| {
      assert data[..i] == data;
    } else {
      var pre := data[..|data| - 1];
      CountLivePrefix(pre, i);
      assert pre[..i] == data[..i];
    }
  }

  /** Tables that hold the same elements in the same order are the same ordered map. */
  lemma {:induction false} SameElementsSameEntries<V>(xs: seq<Bucket<V>>, ys: seq<Bucket<V>>)
    requires SameElements(xs, ys)
    ensures Entries(xs) == Entries(ys) && CountLive(xs) == CountLive(ys)
    decreases |xs|
  {
    if xs != [] {
      SameElementsSameEntries(xs[..|xs| - 1], ys[..|ys| - 1]);
    }
  }

  /** Dropping the tombstones leaves the ordered map as it was. */
  lemma {:induction false} LiveBucketsSameEntries<V>(data: seq<Bucket<V>>)
    ensures Entries(LiveBuckets(data)) == Entries(data)
    decreases |data|
  {
    if data != [] {
      var pre := data[..|data| - 1];
      LiveBucketsSameEntries(pre);
      var rest := LiveBuckets(pre);
      if IsLive(data[|data| - 1]) {
        assert (rest + [data[|data| - 1]])[..|rest|] == rest;
      }
    }
  }

  // ---------------------------------------------------------------------
  // compact_hash_table
  // ---------------------------------------------------------------------

  function Pow2(i: nat): (p: nat)
    ensures p >= 1
  {
    if i == 0 then 1 else 2 * Pow2(i - 1)
  }

  /** Doubling from `p` until `n` fits. */
  function Grow(p: nat, n: nat): nat
    requires p >= 1
    decreases if p >= n then 0 else n - p
  {
    if p >= n then p else Grow(2 * p, n)
  }

  /**
   * The size `compact_hash_table` computes for `n` elements: the smallest
   * power of two that is at least `n` and at least 8, or 0x80000000 when `n`
   * is that large.
   */
  function CompactSize(n: nat): nat {
    if n >= HASH_MAX_SIZE then HASH_MAX_SIZE else Grow(HASH_MIN_SIZE, n)
  }

  lemma {:induction false} Pow2Double(q: nat, p: nat)
    requires IsPow2(q) && IsPow2(p) && q < p
    ensures 2 * q <= p
    decreases q
  {
    if q >= 2 {
      Pow2Double(q / 2, p / 2);
    }
  }

  lemma {:induction false} GrowIsSmallest(q: nat, n: nat)
    requires IsPow2(q) && q >= HASH_MIN_SIZE
    ensures IsPow2(Grow(q, n)) && q <= Grow(q, n) && n <= Grow(q, n)
    ensures forall p :: IsPow2(p) && q <= p && n <= p ==> Grow(q, n) <= p
    decreases if q >= n then 0 else n - q
  {
    if q < n {
      assert IsPow2(2 * q) by {
        assert (2 * q) / 2 == q;
      }
      GrowIsSmallest(2 * q, n);
      forall p | IsPow2(p) && q <= p && n <= p
        ensures 2 * q <= p
      {
        Pow2Double(q, p);
      }
    }
  }

  /** The size `compact_hash_table` computes is the least power of two >= max(n, 8). */
  lemma CompactSizeIsSmallest(n: nat)
    requires n < HASH_MAX_SIZE
    ensures var s := CompactSize(n);
      IsPow2(s) && HASH_MIN_SIZE <= s && n <= s
      && forall p :: IsPow2(p) && HASH_MIN_SIZE <= p && n <= p ==> s <= p
  {
    assert IsPow2(HASH_MIN_SIZE) by {
      assert IsPow2(2) by { assert IsPow2(1); }
      assert IsPow2(4);
    }
    GrowIsSmallest(HASH_MIN_SIZE, n);
  }

  /**
   * `while ((1U << i) < ht->nNumOfElements) i++; nSize = 1 << i;` from
   * `i = 3`, for a count below 0x80000000.
   */
  method ComputeSize(n: nat) returns (nSize: nat)
    requires n < HASH_MAX_SIZE
    ensures nSize == CompactSize(n)
  {
    var i: nat := 3;
    assert Pow2(3) == HASH_MIN_SIZE;
    while Pow2(i) < n
      invariant Pow2(i) >= HASH_MIN_SIZE
      invariant Grow(Pow2(i), n) == Grow(HASH_MIN_SIZE, n)
      decreases n - Pow2(i)
    {
      i := i + 1;
    }
    nSize := Pow2(i);
  }

  /**
   * `compact_hash_table`: shrinks a hash table to the smallest size that
   * holds its elements.  An empty or packed table, or one that would not
   * shrink, is left as it is and 1 is returned.  `allocOk` says whether the
   * allocation of the new bucket array succeeds; when it fails, 0 is returned
   * and the table is unchanged.  Otherwise the live buckets are copied in
   * order into the new array, `nNumUsed` becomes their count, the size and
   * mask are set, and the chains are rebuilt.  The internal pointer is not
   * adjusted.
   */
  method CompactHashTable<V>(ht: HashTable<V>, allocOk: bool) returns (ok: bool, r: HashTable<V>)
    requires Valid(ht)
    ensures Valid(r)
    ensures Entries(r.arData) == Entries(ht.arData)
    ensures ht.nNumOfElements == 0 || ht.packed ==> ok && r == ht
    ensures ht.nNumOfElements != 0 && !ht.packed && CompactSize(ht.nNumOfElements) >= ht.nTableSize ==>
      ok && r == ht
    ensures ht.nNumOfElements != 0 && !ht.packed && CompactSize(ht.nNumOfElements) < ht.nTableSize ==>
      && ok == allocOk
      && (!ok ==> r == ht)
      && (ok ==>
            && r.nTableSize == CompactSize(ht.nNumOfElements)
            && r.nTableMask == r.nTableSize - 1
            && r.nNumUsed == r.nNumOfElements == ht.nNumOfElements
            && SameElements(r.arData, LiveBuckets(ht.arData))
            && r.nNextFreeElement == ht.nNextFreeElement
            && r.nInternalPointer == ht.nInternalPointer
            && !r.packed)
  {
    if ht.nNumOfElements == 0 || ht.packed {
      return true, ht;
    }
    var nSize: nat;
    if ht.nNumOfElements >= HASH_MAX_SIZE {
      nSize := HASH_MAX_SIZE;
    } else {
      nSize := ComputeSize(ht.nNumOfElements);
      CompactSizeIsSmallest(ht.nNumOfElements);
    }
    if nSize >= ht.nTableSize {
      return true, ht;
    }
    if !allocOk {
      return false, ht;
    }
    var live := CopyLive(ht.arData, nSize);
    var rehashed := RehashChains(live, nSize);
    r := ht.(nNumUsed := |live|, arData := rehashed.0, arHash := rehashed.1,
             nTableSize := nSize, nTableMask := nSize - 1);
    ok := true;
    CompactedIsValid(ht, nSize, live);
  }

  /**
   * The copy loop of `compact_hash_table`: `d[j++] = *p` for every live
   * bucket `p`, into a new array of `nSize` buckets.
   */
  method CopyLive<V>(data: seq<Bucket<V>>, nSize: nat) returns (live: seq<Bucket<V>>)
    requires 0 < |data| && CountLive(data) <= nSize
    ensures live == LiveBuckets(data)
  {
    var first := data[0];
    var d := new Bucket<V>[nSize](_ => first);
    var i, j := 0, 0;
    while i < |data|
      invariant 0 <= i <= |data|
      invariant j == CountLive(data[..i]) <= nSize
      invariant d[..j] == LiveBuckets(data[..i])
    {
      assert data[..i + 1][..i] == data[..i];
      CountLivePrefix(data, i + 1);
      if IsLive(data[i]) {
        d[j] := data[i];
        j := j + 1;
      }
      i := i + 1;
    }
    assert data[..i] == data;
    live := d[..j];
  }

  /** The table `compact_hash_table` builds is well formed and holds the same ordered map. */
  lemma CompactedIsValid<V>(ht: HashTable<V>, nSize: nat, live: seq<Bucket<V>>)
    requires Valid(ht) && !ht.packed && 0 < ht.nNumOfElements < HASH_MAX_SIZE
    requires HASH_MIN_SIZE <= nSize == CompactSize(ht.nNumOfElements) < ht.nTableSize
    requires live == LiveBuckets(ht.arData)
    ensures var rehashed := RehashChains(live, nSize);
      var r := ht.(nNumUsed := |live|, arData := rehashed.0, arHash := rehashed.1,
                   nTableSize := nSize, nTableMask := nSize - 1);
      Valid(r) && Entries(r.arData) == Entries(ht.arData)
      && SameElements(r.arData, LiveBuckets(ht.arData))
  {
    CompactSizeIsSmallest(ht.nNumOfElements);
    RehashKeepsElements(live, nSize);
    RehashBuildsChains(live, nSize);
    var rehashed := RehashChains(live, nSize);
    SameElementsSameEntries(rehashed.0, live);
    LiveBucketsSameEntries(ht.arData);
  }
}
