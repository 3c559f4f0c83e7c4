/**
 * The clone engine of zend_accelerator_util_funcs.c: the copy of shared
 * strings, zvals, arrays and constant-expression trees into process memory
 * while a cached script is loaded, with the translation table `bind_hash`
 * (accel_xlat_set / accel_xlat_get) that makes an object shared by several
 * pointers be copied once.
 *
 * The shared segment is a store `shared` of reference-counted objects; the
 * copies go to the private store `heap`.  The ghost map `origin` records,
 * for each private object made by the pass, the shared object it copies;
 * `Valid` says that every stored copy matches its original, so the copy of
 * a graph is the same graph with pointers redirected (`ZvalMatch`).
 * `rank` orders the shared objects (an object only points to objects of
 * lower rank), which is what makes the recursive copy end.
 */
module CloneEngine {
  import opened Wrappers
  import opened ZendValues
  import opened HashTables
  import opened ZendEntities

  /**
   * A key of `bind_hash`: the address of a shared data object (string,
   * array, reference, tree), of an op_array, or of a class entry.  The
   * three kinds live at distinct addresses in the engine.
   */
  datatype XKey = DataKey(id: Id) | FuncKey(id: Id) | ClassKey(id: Id)

  // ---------------------------------------------------------------------
  // What a copy is
  // ---------------------------------------------------------------------

  /** Private `id2` was made by the pass as the copy of shared `id`. */
  ghost predicate CopiedPtr(id: Id, id2: Id, o: map<Id, Id>) {
    id2 in o && o[id2] == id
  }

  /**
   * `s2` is the pass's copy of string `s`: the same characters; an interned
   * string is kept as it is; any other is a private, non-interned string
   * made from `s`.
   */
  ghost predicate StrMatch(s: ZStr, s2: ZStr, o: map<Id, Id>) {
    && s2.val == s.val
    && (s.interned ==> s2 == s)
    && (!s.interned ==> !s2.interned && CopiedPtr(s.id, s2.id, o))
  }

  ghost predicate KeyMatch(k: Option<ZStr>, k2: Option<ZStr>, o: map<Id, Id>) {
    if k.None? then k2.None? else k2.Some? && StrMatch(k.value, k2.value, o)
  }

  /**
   * `z2` is the pass's copy of zval `z`: strings, mutable arrays (other
   * than the symbol table), references and trees point to copies of what
   * `z` points to; every other zval is kept as it is.
   */
  ghost predicate ZvalMatch(z: Zval, z2: Zval, o: map<Id, Id>, symtab: Id) {
    match z
    case Str(s) => z2.Str? && StrMatch(s, z2.s, o)
    case Constant(s) => z2.Constant? && StrMatch(s, z2.s, o)
    case Arr(id, imm) =>
      if imm || id == symtab then z2 == z
      else z2.Arr? && !z2.immutable && CopiedPtr(id, z2.id, o)
    case Ref(id) => z2.Ref? && CopiedPtr(id, z2.id, o)
    case ConstAst(id) => z2.ConstAst? && CopiedPtr(id, z2.id, o)
    case _ => z2 == z
  }

  /** `a2` is a copy of tree `a`: the same shape, with every leaf zval copied. */
  ghost predicate AstMatch(a: Ast, a2: Ast, o: map<Id, Id>, symtab: Id)
    decreases a
  {
    match a
    case AstZval(v) => a2.AstZval? && ZvalMatch(v, a2.val, o, symtab)
    case AstNode(kind, cs) =>
      && a2.AstNode? && a2.kind == kind && |a2.children| == |cs|
      && forall i :: 0 <= i < |cs| ==>
           && (cs[i].None? <==> a2.children[i].None?)
           && (cs[i].Some? ==> AstMatch(cs[i].value, a2.children[i].value, o, symtab))
  }

  /** The index after the last live bucket: `nNumUsed` of a packed copy. */
  function LiveEnd<V>(data: seq<Bucket<V>>): (n: nat)
    ensures n <= |data|
    ensures n > 0 ==> IsLive(data[n - 1])
    ensures forall i :: n <= i < |data| ==> !IsLive(data[i])
    decreases |data|
  {
    if data == [] then 0
    else if IsLive(data[|data| - 1]) then |data|
    else LiveEnd(data[..|data| - 1])
  }

  /**
   * The first `|dst|` positions of a packed copy: live exactly where the
   * source is, with the same integer key, no string key and a copied value.
   */
  ghost predicate PackedPrefix(src: seq<Bucket<Zval>>, dst: seq<Bucket<Zval>>, o: map<Id, Id>, symtab: Id) {
    && |dst| <= |src|
    && forall i :: 0 <= i < |dst| ==>
         && (IsLive(dst[i]) <==> IsLive(src[i]))
         && (IsLive(dst[i]) ==>
               IsLive(src[i]) && dst[i].h == src[i].h && dst[i].key.None? &&
               ZvalMatch(src[i].val.v, dst[i].val.v, o, symtab))
  }

  /** A packed copy: the source's layout up to its last live bucket. */
  ghost predicate PackedCopy(src: seq<Bucket<Zval>>, dst: seq<Bucket<Zval>>, o: map<Id, Id>, symtab: Id) {
    PackedPrefix(src, dst, o, symtab) && |dst| == LiveEnd(src)
  }

  /**
   * A hash copy: the live source buckets `live`, in order and without
   * tombstones, each with its hash, a copied key and a copied value.
   */
  ghost predicate SparseCopy(live: seq<Bucket<Zval>>, dst: seq<Bucket<Zval>>, o: map<Id, Id>, symtab: Id) {
    && |dst| == |live|
    && forall i :: 0 <= i < |dst| ==>
         && IsLive(live[i]) && IsLive(dst[i])
         && dst[i].h == live[i].h
         && KeyMatch(live[i].key, dst[i].key, o)
         && ZvalMatch(live[i].val.v, dst[i].val.v, o, symtab)
  }

  /** The header a table copy takes from its source (and the reset internal pointer). */
  predicate HeaderCopied<V, W>(t: HashTable<V>, t2: HashTable<W>) {
    && t2.nTableSize == t.nTableSize
    && t2.nTableMask == t.nTableMask
    && t2.nNumOfElements == t.nNumOfElements
    && t2.nNextFreeElement == t.nNextFreeElement
    && t2.nInternalPointer == (if t.nNumOfElements != 0 then 0 else INVALID_IDX)
    && t2.nNumUsed == |t2.arData|
  }

  /**
   * `t2` is the copy zend_hash_clone_zval makes of `t`: the same header; no
   * buckets for a table that never allocated any; the packed layout for a
   * packed table; and otherwise the live buckets compacted, with chains
   * built by head insertion.
   */
  ghost predicate TableCopied(t: HashTable<Zval>, t2: HashTable<Zval>, o: map<Id, Id>, symtab: Id) {
    && HeaderCopied(t, t2)
    && (t.nTableMask == 0 ==> t2.arData == [] && t2.arHash == [INVALID_IDX] && !t2.packed)
    && (t.nTableMask != 0 && t.packed ==>
          t2.packed && t2.arHash == [INVALID_IDX] && PackedCopy(t.arData, t2.arData, o, symtab))
    && (t.nTableMask != 0 && !t.packed ==>
          && !t2.packed
          && ChainsOk(t2.arData, t2.arHash, t2.nTableSize)
          && SparseCopy(LiveBuckets(t.arData), t2.arData, o, symtab))
  }

  /** Private object `n2` is a copy of shared object `n`, with its `gc` header. */
  ghost predicate NodeMatch(n: Node, n2: Node, o: map<Id, Id>, symtab: Id) {
    match n
    case StrNode(_, v) => n2.StrNode? && n2.chars == v
    case ArrNode(rc, t) => n2.ArrNode? && n2.rc == rc && TableCopied(t, n2.ht, o, symtab)
    case RefNode(rc, v) => n2.RefNode? && n2.rc == rc && ZvalMatch(v, n2.val, o, symtab)
    case AstRefNode(rc, a) => n2.AstRefNode? && n2.rc == rc && AstMatch(a, n2.ast, o, symtab)
  }

  ghost predicate OriginGrows(o: map<Id, Id>, o2: map<Id, Id>) {
    forall p :: p in o ==> p in o2 && o2[p] == o[p]
  }

  /** The translations of shared data objects in `x` are still in `x2`, unchanged. */
  ghost predicate DataKeysKept(x: map<XKey, Id>, x2: map<XKey, Id>) {
    forall k :: k in x && k.DataKey? ==> k in x2 && x2[k] == x[k]
  }

  // ---------------------------------------------------------------------
  // Where `bind` puts a copy
  // ---------------------------------------------------------------------

  /**
   * The copy `z2` of `z` is one of its own: a pointer that zend_clone_zval
   * copies leads to a private object allocated at address `n0` or later,
   * so to no copy made before.
   */
  ghost predicate FreshPtr(z: Zval, z2: Zval, symtab: Id, n0: nat) {
    IsCopiedPtr(z, symtab) ==> (z2.Arr? || z2.Ref? || z2.ConstAst?) && z2.id.Private? && z2.id.n >= n0
  }

  /**
   * Where zend_clone_zval with `bind` puts the copy `z2` of `z`, the copy
   * having started at address `n0`, `x` being `bind_hash` afterwards: with
   * `bind`, an array, reference or tree referenced more than once goes to
   * its translation, the one copy every pointer to it shares; any other one
   * gets a fresh copy.
   */
  ghost predicate Placed(z: Zval, z2: Zval, sh: map<Id, Node>, symtab: Id, bind: bool, n0: nat, x: map<XKey, Id>) {
    if bind && IsCopiedPtr(z, symtab) && z.id in sh && sh[z.id].rc > 1 then
      DataKey(z.id) in x && (z2.Arr? || z2.Ref? || z2.ConstAst?) && z2.id == x[DataKey(z.id)]
    else FreshPtr(z, z2, symtab, n0)
  }

  /** Each element of a packed copy placed as zend_clone_zval with `bind` puts it. */
  ghost predicate PackedPlaced(src: seq<Bucket<Zval>>, dst: seq<Bucket<Zval>>, sh: map<Id, Node>, symtab: Id,
                               bind: bool, n0: nat, x: map<XKey, Id>) {
    && |dst| <= |src|
    && forall i :: 0 <= i < |dst| && IsLive(src[i]) && IsLive(dst[i]) ==>
         Placed(src[i].val.v, dst[i].val.v, sh, symtab, bind, n0, x)
  }

  /** Each element of a hash copy placed as zend_clone_zval with `bind` puts it. */
  ghost predicate SparsePlaced(live: seq<Bucket<Zval>>, dst: seq<Bucket<Zval>>, sh: map<Id, Node>, symtab: Id,
                               bind: bool, n0: nat, x: map<XKey, Id>) {
    && |dst| <= |live|
    && forall i :: 0 <= i < |dst| && IsLive(live[i]) && IsLive(dst[i]) ==>
         Placed(live[i].val.v, dst[i].val.v, sh, symtab, bind, n0, x)
  }

  /** The elements of the copy `t2` of table `t` copied with `bind`. */
  ghost predicate TablePlaced(t: HashTable<Zval>, t2: HashTable<Zval>, sh: map<Id, Node>, symtab: Id,
                              bind: bool, n0: nat, x: map<XKey, Id>) {
    && (t.nTableMask != 0 && t.packed ==> PackedPlaced(t.arData, t2.arData, sh, symtab, bind, n0, x))
    && (t.nTableMask != 0 && !t.packed ==> SparsePlaced(LiveBuckets(t.arData), t2.arData, sh, symtab, bind, n0, x))
  }

  /** The copy `a2` of tree `a` made by zend_ast_clone: every leaf copied without `bind`, so fresh. */
  ghost predicate AstFresh(a: Ast, a2: Ast, symtab: Id, n0: nat)
    decreases a
  {
    match a
    case AstZval(v) => a2.AstZval? && FreshPtr(v, a2.val, symtab, n0)
    case AstNode(_, cs) =>
      && a2.AstNode? && |a2.children| == |cs|
      && forall i :: 0 <= i < |cs| && cs[i].Some? && a2.children[i].Some? ==>
           AstFresh(cs[i].value, a2.children[i].value, symtab, n0)
  }

  ghost predicate ChildrenFresh(cs: seq<Option<Ast>>, out: seq<Option<Ast>>, symtab: Id, n0: nat) {
    && |out| == |cs|
    && forall j :: 0 <= j < |cs| && cs[j].Some? && out[j].Some? ==> AstFresh(cs[j].value, out[j].value, symtab, n0)
  }

  /**
   * Between `bind_hash` `x` and `x2` no shared array, reference or tree was
   * registered: only strings, which zend_clone_str registers whatever `bind`.
   */
  ghost predicate OnlyStringsAdded(sh: map<Id, Node>, x: map<XKey, Id>, x2: map<XKey, Id>) {
    forall k :: k in x2 && k.DataKey? && k !in x ==> k.id in sh && sh[k.id].StrNode?
  }

  lemma OnlyStringsTrans(sh: map<Id, Node>, x0: map<XKey, Id>, x1: map<XKey, Id>, x2: map<XKey, Id>)
    requires OnlyStringsAdded(sh, x0, x1) && OnlyStringsAdded(sh, x1, x2)
    ensures OnlyStringsAdded(sh, x0, x2)
  {
  }

  lemma PlacedMono(z: Zval, z2: Zval, sh: map<Id, Node>, symtab: Id, bind: bool, n0: nat, n1: nat,
                   x: map<XKey, Id>, x2: map<XKey, Id>)
    requires Placed(z, z2, sh, symtab, bind, n1, x) && n0 <= n1 && DataKeysKept(x, x2)
    ensures Placed(z, z2, sh, symtab, bind, n0, x2)
  {
  }

  lemma PackedPlacedMono(src: seq<Bucket<Zval>>, dst: seq<Bucket<Zval>>, sh: map<Id, Node>, symtab: Id,
                         bind: bool, n0: nat, n1: nat, x: map<XKey, Id>, x2: map<XKey, Id>)
    requires PackedPlaced(src, dst, sh, symtab, bind, n1, x) && n0 <= n1 && DataKeysKept(x, x2)
    ensures PackedPlaced(src, dst, sh, symtab, bind, n0, x2)
  {
    forall i | 0 <= i < |dst| && IsLive(src[i]) && IsLive(dst[i])
      ensures Placed(src[i].val.v, dst[i].val.v, sh, symtab, bind, n0, x2)
    {
      PlacedMono(src[i].val.v, dst[i].val.v, sh, symtab, bind, n0, n1, x, x2);
    }
  }

  lemma SparsePlacedMono(live: seq<Bucket<Zval>>, dst: seq<Bucket<Zval>>, sh: map<Id, Node>, symtab: Id,
                         bind: bool, n0: nat, n1: nat, x: map<XKey, Id>, x2: map<XKey, Id>)
    requires SparsePlaced(live, dst, sh, symtab, bind, n1, x) && n0 <= n1 && DataKeysKept(x, x2)
    ensures SparsePlaced(live, dst, sh, symtab, bind, n0, x2)
  {
    forall i | 0 <= i < |dst| && IsLive(live[i]) && IsLive(dst[i])
      ensures Placed(live[i].val.v, dst[i].val.v, sh, symtab, bind, n0, x2)
    {
      PlacedMono(live[i].val.v, dst[i].val.v, sh, symtab, bind, n0, n1, x, x2);
    }
  }

  /** A table copy keeps its placement as the pass goes on. */
  lemma TablePlacedMono(t: HashTable<Zval>, t2: HashTable<Zval>, sh: map<Id, Node>, symtab: Id,
                        bind: bool, n0: nat, n1: nat, x: map<XKey, Id>, x2: map<XKey, Id>)
    requires TablePlaced(t, t2, sh, symtab, bind, n1, x) && n0 <= n1 && DataKeysKept(x, x2)
    ensures TablePlaced(t, t2, sh, symtab, bind, n0, x2)
  {
    if t.nTableMask != 0 && t.packed {
      PackedPlacedMono(t.arData, t2.arData, sh, symtab, bind, n0, n1, x, x2);
    } else if t.nTableMask != 0 {
      SparsePlacedMono(LiveBuckets(t.arData), t2.arData, sh, symtab, bind, n0, n1, x, x2);
    }
  }

  lemma {:induction false} AstFreshMono(a: Ast, a2: Ast, symtab: Id, n0: nat, n1: nat)
    requires AstFresh(a, a2, symtab, n1) && n0 <= n1
    ensures AstFresh(a, a2, symtab, n0)
    decreases a
  {
    match a
    case AstZval(v) =>
    case AstNode(_, cs) =>
      forall i | 0 <= i < |cs| && cs[i].Some? && a2.children[i].Some?
        ensures AstFresh(cs[i].value, a2.children[i].value, symtab, n0)
      {
        AstFreshMono(cs[i].value, a2.children[i].value, symtab, n0, n1);
      }
  }

  // ---------------------------------------------------------------------
  // A copy stays a copy as the pass goes on
  // ---------------------------------------------------------------------

  lemma ZvalMatchMono(z: Zval, z2: Zval, o: map<Id, Id>, o2: map<Id, Id>, symtab: Id)
    requires ZvalMatch(z, z2, o, symtab) && OriginGrows(o, o2)
    ensures ZvalMatch(z, z2, o2, symtab)
  {
  }

  lemma {:induction false} AstMatchMono(a: Ast, a2: Ast, o: map<Id, Id>, o2: map<Id, Id>, symtab: Id)
    requires AstMatch(a, a2, o, symtab) && OriginGrows(o, o2)
    ensures AstMatch(a, a2, o2, symtab)
    decreases a
  {
    match a
    case AstZval(v) =>
      ZvalMatchMono(v, a2.val, o, o2, symtab);
    case AstNode(kind, cs) =>
      forall i | 0 <= i < |cs| && cs[i].Some?
        ensures AstMatch(cs[i].value, a2.children[i].value, o2, symtab)
      {
        AstMatchMono(cs[i].value, a2.children[i].value, o, o2, symtab);
      }
  }

  lemma TableCopiedMono(t: HashTable<Zval>, t2: HashTable<Zval>, o: map<Id, Id>, o2: map<Id, Id>, symtab: Id)
    requires TableCopied(t, t2, o, symtab) && OriginGrows(o, o2)
    ensures TableCopied(t, t2, o2, symtab)
  {
    if t.nTableMask != 0 && t.packed {
      PackedPrefixMono(t.arData, t2.arData, o, o2, symtab);
    } else if t.nTableMask != 0 {
      SparseCopyMono(LiveBuckets(t.arData), t2.arData, o, o2, symtab);
    }
  }

  lemma PackedPrefixMono(src: seq<Bucket<Zval>>, dst: seq<Bucket<Zval>>, o: map<Id, Id>, o2: map<Id, Id>, symtab: Id)
    requires PackedPrefix(src, dst, o, symtab) && OriginGrows(o, o2)
    ensures PackedPrefix(src, dst, o2, symtab)
  {
    forall i | 0 <= i < |dst| && IsLive(dst[i])
      ensures ZvalMatch(src[i].val.v, dst[i].val.v, o2, symtab)
    {
      ZvalMatchMono(src[i].val.v, dst[i].val.v, o, o2, symtab);
    }
  }

  lemma SparseCopyMono(live: seq<Bucket<Zval>>, dst: seq<Bucket<Zval>>, o: map<Id, Id>, o2: map<Id, Id>, symtab: Id)
    requires SparseCopy(live, dst, o, symtab) && OriginGrows(o, o2)
    ensures SparseCopy(live, dst, o2, symtab)
  {
    forall i | 0 <= i < |dst|
      ensures ZvalMatch(live[i].val.v, dst[i].val.v, o2, symtab)
    {
      ZvalMatchMono(live[i].val.v, dst[i].val.v, o, o2, symtab);
    }
  }

  lemma NodeMatchMono(n: Node, n2: Node, o: map<Id, Id>, o2: map<Id, Id>, symtab: Id)
    requires NodeMatch(n, n2, o, symtab) && OriginGrows(o, o2)
    ensures NodeMatch(n, n2, o2, symtab)
  {
    match n
    case StrNode(_, _) =>
    case ArrNode(_, t) => TableCopiedMono(t, n2.ht, o, o2, symtab);
    case RefNode(_, v) => ZvalMatchMono(v, n2.val, o, o2, symtab);
    case AstRefNode(_, a) => AstMatchMono(a, n2.ast, o, o2, symtab);
  }

  // ---------------------------------------------------------------------
  // Well-formed shared data
  // ---------------------------------------------------------------------

  /** A string pointer into the shared segment: interned, or a shared string with these characters. */
  ghost predicate StrIn(s: ZStr, sh: map<Id, Node>) {
    s.interned || (s.id in sh && sh[s.id].StrNode? && sh[s.id].chars == s.val)
  }

  ghost predicate KeyIn(k: Option<ZStr>, sh: map<Id, Node>) {
    k.None? || StrIn(k.value, sh)
  }

  /** A zval whose pointers lead to shared objects of the right kind. */
  ghost predicate ZvalIn(z: Zval, sh: map<Id, Node>, rk: map<Id, nat>, symtab: Id) {
    match z
    case Str(s) => StrIn(s, sh)
    case Constant(s) => StrIn(s, sh)
    case Arr(id, imm) => imm || id == symtab || (id in sh && sh[id].ArrNode? && id in rk)
    case Ref(id) => id in sh && sh[id].RefNode? && id in rk
    case ConstAst(id) => id in sh && sh[id].AstRefNode? && id in rk
    case _ => true
  }

  /** One more than the rank of the array, reference or tree a zval points to; 0 otherwise. */
  ghost function ZRank(z: Zval, rk: map<Id, nat>): nat {
    if (z.Arr? || z.Ref? || z.ConstAst?) && z.id in rk then rk[z.id] + 1 else 0
  }

  ghost predicate ZvalBelow(z: Zval, bound: nat, sh: map<Id, Node>, rk: map<Id, nat>, symtab: Id) {
    ZvalIn(z, sh, rk, symtab) && ZRank(z, rk) <= bound
  }

  /** The live buckets of bucket array `data` have shared keys and values below `bound`. */
  ghost predicate BucketsBelow(data: seq<Bucket<Zval>>, bound: nat, sh: map<Id, Node>, rk: map<Id, nat>, symtab: Id) {
    forall i :: 0 <= i < |data| && IsLive(data[i]) ==>
      KeyIn(data[i].key, sh) && ZvalBelow(data[i].val.v, bound, sh, rk, symtab)
  }

  ghost predicate TableBelow(t: HashTable<Zval>, bound: nat, sh: map<Id, Node>, rk: map<Id, nat>, symtab: Id) {
    HashTables.Valid(t) && BucketsBelow(t.arData, bound, sh, rk, symtab)
  }

  ghost predicate AstBelow(a: Ast, bound: nat, sh: map<Id, Node>, rk: map<Id, nat>, symtab: Id)
    decreases a
  {
    match a
    case AstZval(v) => ZvalBelow(v, bound, sh, rk, symtab)
    case AstNode(_, cs) =>
      forall i :: 0 <= i < |cs| && cs[i].Some? ==> AstBelow(cs[i].value, bound, sh, rk, symtab)
  }

  /** What shared object `n` of rank `r` points to is of lower rank. */
  ghost predicate NodeBelow(n: Node, r: nat, sh: map<Id, Node>, rk: map<Id, nat>, symtab: Id) {
    match n
    case StrNode(_, _) => true
    case ArrNode(_, t) => TableBelow(t, r, sh, rk, symtab)
    case RefNode(_, v) => ZvalBelow(v, r, sh, rk, symtab)
    case AstRefNode(_, a) => AstBelow(a, r, sh, rk, symtab)
  }

  /** A well-formed shared segment: acyclic, every pointer leading to an object of the right kind. */
  ghost predicate SharedOk(sh: map<Id, Node>, rk: map<Id, nat>, symtab: Id) {
    forall id {:trigger NodeOk(id, sh, rk, symtab)} :: id in sh ==> NodeOk(id, sh, rk, symtab)
  }

  /** Shared object `id` is well placed: in the shared range, ranked, pointing below its rank. */
  ghost predicate NodeOk(id: Id, sh: map<Id, Node>, rk: map<Id, nat>, symtab: Id) {
    id in sh && id.Shared? && id in rk && NodeBelow(sh[id], rk[id], sh, rk, symtab)
  }

  // ---------------------------------------------------------------------
  // The pass state and how it evolves
  // ---------------------------------------------------------------------

  datatype PassState = PassState(xlat: map<XKey, Id>, heap: map<Id, Node>, origin: map<Id, Id>, nextId: nat)

  /** Private content never changes except by a string's reference count. */
  ghost predicate SameContent(n: Node, n2: Node) {
    if n.StrNode? then n2.StrNode? && n2.chars == n.chars else n2 == n
  }

  /**
   * The data side of the pass only grows: translations of data objects,
   * copies and their origins are kept; the next free address only goes up.
   */
  ghost predicate DataGrew(s0: PassState, s1: PassState) {
    && s0.nextId <= s1.nextId
    && DataKeysKept(s0.xlat, s1.xlat)
    && OriginGrows(s0.origin, s1.origin)
    && (forall p :: p in s0.heap ==> p in s1.heap && SameContent(s0.heap[p], s1.heap[p]))
  }

  /** No translation of a function or class entry changes. */
  ghost predicate CodeKept(s0: PassState, s1: PassState) {
    forall k: XKey :: !k.DataKey? ==> (k in s1.xlat <==> k in s0.xlat) && (k in s0.xlat ==> s1.xlat[k] == s0.xlat[k])
  }

  /** What copying data does to the pass: the data side grows, code translations stay. */
  ghost predicate Grew(s0: PassState, s1: PassState) {
    DataGrew(s0, s1) && CodeKept(s0, s1)
  }

  lemma DataGrewTrans(s0: PassState, s1: PassState, s2: PassState)
    requires DataGrew(s0, s1) && DataGrew(s1, s2)
    ensures DataGrew(s0, s2)
  {
  }

  lemma GrewTrans(s0: PassState, s1: PassState, s2: PassState)
    requires Grew(s0, s1) && Grew(s1, s2)
    ensures Grew(s0, s2)
  {
  }

  /** Whether zval `z` points to an object zend_clone_zval copies (other than a string). */
  predicate IsCopiedPtr(z: Zval, symtab: Id) {
    (z.Arr? && !z.immutable && z.id != symtab) || z.Ref? || z.ConstAst?
  }

  /**
   * One load of a script from shared memory: the shared segment it reads,
   * the private objects it has made, and `bind_hash`.
   */
  class ClonePass {
    const shared: map<Id, Node>
    ghost const rank: map<Id, nat>
    /** The address of EG(symbol_table), which is never copied. */
    const symbolTable: Id
    /** opcache.load_comments */
    const loadComments: bool
    /** ZCG(bind_hash) */
    var xlat: map<XKey, Id>
    var heap: map<Id, Node>
    /** Every private address from here on is unused. */
    var nextId: nat
    ghost var origin: map<Id, Id>
    /** Copies allocated whose contents are still being made. */
    ghost var pending: set<Id>

    /** zend_hash_init(&ZCG(bind_hash), ...): an empty translation table. */
    constructor (shared: map<Id, Node>, ghost rank: map<Id, nat>, symbolTable: Id, loadComments: bool, firstFree: nat)
      requires SharedOk(shared, rank, symbolTable)
      ensures Valid()
      ensures this.shared == shared && this.rank == rank && this.symbolTable == symbolTable
      ensures this.loadComments == loadComments
      ensures xlat == map[] && heap == map[] && nextId == firstFree
    {
      this.shared := shared;
      this.rank := rank;
      this.symbolTable := symbolTable;
      this.loadComments := loadComments;
      xlat := map[];
      heap := map[];
      nextId := firstFree;
      origin := map[];
      pending := {};
    }

    ghost function State(): PassState
      reads this
    {
      PassState(xlat, heap, origin, nextId)
    }

    ghost predicate Valid()
      reads this
    {
      && SharedOk(shared, rank, symbolTable)
      && (forall k :: k in xlat ==> xlat[k].Private? && xlat[k].n < nextId)
      && (forall k :: k in xlat && k.DataKey? ==> k.id in shared && CopiedPtr(k.id, xlat[k], origin))
      && (forall p :: p in heap ==> p.Private? && p.n < nextId)
      && (forall p :: p in origin ==>
            p.Private? && p.n < nextId && origin[p] in shared && (p in heap <==> p !in pending))
      && (forall p :: p in pending ==> p in origin && !shared[origin[p]].StrNode?)
      && (forall p :: p in heap && p in origin ==> NodeMatch(shared[origin[p]], heap[p], origin, symbolTable))
    }

    /** emalloc of an object that copies no shared object. */
    method Fresh() returns (p: Id)
      requires Valid()
      modifies this
      ensures Valid() && p == Private(old(nextId)) && nextId == old(nextId) + 1
      ensures xlat == old(xlat) && heap == old(heap) && origin == old(origin) && pending == old(pending)
    {
      p := Private(nextId);
      nextId := nextId + 1;
    }

    /** Records that private `p` is a copy of shared `src`. */
    method Adopt(p: Id, src: Id)
      requires Valid() && p.Private? && p.n < nextId && p !in origin && src in shared
      modifies this
      ensures origin == old(origin)[p := src] && OriginGrows(old(origin), origin)
      ensures xlat == old(xlat) && heap == old(heap) && nextId == old(nextId) && pending == old(pending)
      ensures forall q :: q in heap && q in old(origin) ==>
                NodeMatch(shared[origin[q]], heap[q], origin, symbolTable)
    {
      ghost var o0 := origin;
      origin := origin[p := src];
      forall q | q in heap && q in o0
        ensures NodeMatch(shared[origin[q]], heap[q], origin, symbolTable)
      {
        NodeMatchMono(shared[o0[q]], heap[q], o0, origin, symbolTable);
      }
    }

    /** Allocates the copy of shared array, reference or tree `src`; its contents come later. */
    method Reserve(src: Id) returns (p: Id)
      requires Valid() && src in shared && !shared[src].StrNode?
      modifies this
      ensures Valid() && p == Private(old(nextId)) && nextId == old(nextId) + 1
      ensures origin == old(origin)[p := src] && pending == old(pending) + {p}
      ensures xlat == old(xlat) && heap == old(heap)
      ensures Grew(old(State()), State())
    {
      p := Private(nextId);
      nextId := nextId + 1;
      Adopt(p, src);
      pending := pending + {p};
    }

    /**
     * The allocation of a copy of array, reference or tree `id`, made
     * before its contents are copied; it is registered right away when
     * `bind` is set and `id` has more than one reference.
     */
    method ReserveCopy(id: Id, bind: bool) returns (p: Id)
      requires Valid() && id in shared && !shared[id].StrNode? && !Shares(id, bind, xlat)
      modifies this
      ensures Valid() && Grew(old(State()), State())
      ensures p == Private(old(nextId)) && p in pending && pending == old(pending) + {p} && CopiedPtr(id, p, origin)
      ensures nextId == old(nextId) + 1 && heap == old(heap)
      ensures xlat == if bind && shared[id].rc > 1 then old(xlat)[DataKey(id) := p] else old(xlat)
    {
      ghost var s0 := State();
      p := Reserve(id);
      if bind && shared[id].rc > 1 {
        ghost var sr := State();
        Register(id, p);
        GrewTrans(s0, sr, State());
      }
    }

    /** Stores the contents of a reserved copy. */
    method Complete(p: Id, n: Node)
      requires Valid() && p in pending && NodeMatch(shared[origin[p]], n, origin, symbolTable)
      modifies this
      ensures Valid() && heap == old(heap)[p := n] && pending == old(pending) - {p}
      ensures xlat == old(xlat) && origin == old(origin) && nextId == old(nextId)
      ensures Grew(old(State()), State())
    {
      heap := heap[p := n];
      pending := pending - {p};
    }

    /**
     * STR_DUP(s, 0): a new private string with the same characters and a
     * reference count of one.
     */
    method Dup(s: ZStr) returns (r: ZStr)
      requires Valid()
      modifies this
      ensures Valid() && r == ZStr(Private(old(nextId)), s.val, false)
      ensures heap == old(heap)[r.id := StrNode(1, s.val)] && nextId == old(nextId) + 1
      ensures xlat == old(xlat) && origin == old(origin) && pending == old(pending)
      ensures Grew(old(State()), State())
    {
      var p := Private(nextId);
      nextId := nextId + 1;
      heap := heap[p := StrNode(1, s.val)];
      r := ZStr(p, s.val, false);
    }

    /** The duplicate of a shared string, recorded as its copy. */
    method DupShared(s: ZStr) returns (r: ZStr)
      requires Valid() && !s.interned && StrIn(s, shared)
      modifies this
      ensures Valid() && r == ZStr(Private(old(nextId)), s.val, false)
      ensures heap == old(heap)[r.id := StrNode(1, s.val)] && nextId == old(nextId) + 1
      ensures origin == old(origin)[r.id := s.id]
      ensures xlat == old(xlat) && pending == old(pending)
      ensures Grew(old(State()), State())
    {
      r := Dup(s);
      Adopt(r.id, s.id);
    }

    /** accel_xlat_set: shared data object `id` is from now on translated to its copy `p`. */
    method Register(id: Id, p: Id)
      requires Valid() && id in shared && CopiedPtr(id, p, origin) && DataKey(id) !in xlat
      modifies this
      ensures Valid() && xlat == old(xlat)[DataKey(id) := p]
      ensures heap == old(heap) && origin == old(origin) && nextId == old(nextId) && pending == old(pending)
      ensures Grew(old(State()), State())
    {
      xlat := xlat[DataKey(id) := p];
    }

    /**
     * accel_xlat_set for an op_array or a class entry: a later copy of the
     * same original replaces an earlier translation.
     */
    method RegisterCode(k: XKey, p: Id)
      requires Valid() && !k.DataKey? && p.Private? && p.n < nextId
      modifies this
      ensures Valid() && xlat == old(xlat)[k := p]
      ensures heap == old(heap) && origin == old(origin) && nextId == old(nextId) && pending == old(pending)
      ensures DataGrew(old(State()), State())
    {
      xlat := xlat[k := p];
    }

    /** STR_ADDREF on a private string. */
    method AddRef(p: Id)
      requires Valid() && p in heap && heap[p].StrNode?
      modifies this
      ensures Valid() && heap == old(heap)[p := StrNode(old(heap)[p].rc + 1, old(heap)[p].chars)]
      ensures xlat == old(xlat) && origin == old(origin) && nextId == old(nextId) && pending == old(pending)
      ensures Grew(old(State()), State())
    {
      heap := heap[p := StrNode(heap[p].rc + 1, heap[p].chars)];
    }

    /** What a shared object points to is below its rank. */
    lemma SharedNode(id: Id)
      requires Valid() && id in shared
      ensures id.Shared? && id in rank && NodeBelow(shared[id], rank[id], shared, rank, symbolTable)
    {
      assert NodeOk(id, shared, rank, symbolTable);
    }

    /** A translated shared string leads to a stored private string with its characters. */
    lemma TranslatedStr(id: Id)
      requires Valid() && DataKey(id) in xlat && id in shared && shared[id].StrNode?
      ensures xlat[DataKey(id)] in heap && heap[xlat[DataKey(id)]].StrNode?
      ensures heap[xlat[DataKey(id)]].chars == shared[id].chars
    {
      var p := xlat[DataKey(id)];
      assert p in origin && origin[p] == id;
      assert p !in pending;
    }

    /**
     * zend_clone_str: an interned string is kept; a string referenced once,
     * or not yet translated, is duplicated (and registered when referenced
     * more than once); a translated string is shared and its count raised.
     */
    method CloneStr(s: ZStr) returns (r: ZStr)
      requires Valid() && StrIn(s, shared)
      modifies this
      ensures Valid() && Grew(old(State()), State()) && pending == old(pending)
      ensures StrMatch(s, r, origin) && OnlyStringsAdded(shared, old(xlat), xlat)
      ensures s.interned ==> r == s && State() == old(State())
      ensures !s.interned && (shared[s.id].rc <= 1 || DataKey(s.id) !in old(xlat)) ==>
        && r.id == Private(old(nextId)) && nextId == old(nextId) + 1
        && heap == old(heap)[r.id := StrNode(1, s.val)]
        && xlat == (if shared[s.id].rc > 1 then old(xlat)[DataKey(s.id) := r.id] else old(xlat))
      ensures !s.interned && shared[s.id].rc > 1 && DataKey(s.id) in old(xlat) ==>
        && r.id == old(xlat)[DataKey(s.id)] && r.id in old(heap) && old(heap)[r.id].StrNode?
        && heap == old(heap)[r.id := StrNode(old(heap)[r.id].rc + 1, s.val)]
        && xlat == old(xlat) && nextId == old(nextId)
    {
      if s.interned {
        return s;
      }
      var rc := shared[s.id].rc;
      if rc <= 1 || DataKey(s.id) !in xlat {
        r := DupShared(s);
        if rc > 1 {
          Register(s.id, r.id);
        }
      } else {
        var p := xlat[DataKey(s.id)];
        TranslatedStr(s.id);
        AddRef(p);
        r := ZStr(p, s.val, false);
      }
    }

    /**
     * zend_clone_zval: immutable arrays, the symbol table, scalars, objects
     * and resources stay; strings go through zend_clone_str; arrays,
     * references and trees through CloneArr, CloneRef and CloneAstRef.
     */
    method CloneZval(z: Zval, bind: bool) returns (r: Zval)
      requires Valid() && ZvalIn(z, shared, rank, symbolTable)
      modifies this
      decreases ZRank(z, rank), 2, 0, 0
      ensures Valid() && Grew(old(State()), State()) && pending == old(pending)
      ensures ZvalMatch(z, r, origin, symbolTable)
      ensures Placed(z, r, shared, symbolTable, bind, old(nextId), xlat)
      ensures !bind ==> OnlyStringsAdded(shared, old(xlat), xlat)
      ensures !IsCopiedPtr(z, symbolTable) && !IsString(z) ==> r == z && State() == old(State())
      ensures IsCopiedPtr(z, symbolTable) && Shares(z.id, bind, old(xlat)) ==>
        r.id == old(xlat)[DataKey(z.id)] && State() == old(State())
      ensures IsCopiedPtr(z, symbolTable) && !Shares(z.id, bind, old(xlat)) ==>
        && r.id == Private(old(nextId)) && r.id in heap
        && (bind && shared[z.id].rc > 1 ==> DataKey(z.id) in xlat && xlat[DataKey(z.id)] == r.id)
    {
      match z {
        case Str(s) =>
          var s2 := CloneStr(s);
          r := Str(s2);
        case Constant(s) =>
          var s2 := CloneStr(s);
          r := Constant(s2);
        case Arr(id, imm) =>
          if imm || id == symbolTable {
            r := z;
          } else {
            var p := CloneArr(id, bind);
            r := Arr(p, false);
          }
        case Ref(id) =>
          var p := CloneRef(id, bind);
          r := Ref(p);
        case ConstAst(id) =>
          var p := CloneAstRef(id, bind);
          r := ConstAst(p);
        case _ =>
          r := z;
      }
    }

    /**
     * Whether zend_clone_zval shares the existing copy of shared object
     * `id`: with `bind` set, for an object referenced more than once and
     * already translated.
     */
    ghost predicate Shares(id: Id, bind: bool, x: map<XKey, Id>) {
      bind && id in shared && shared[id].rc > 1 && DataKey(id) in x
    }

    /**
     * The array case of zend_clone_zval: share the translated copy, or
     * allocate a copy with the `gc` header, register it when `bind` is set
     * and the array is referenced more than once, and copy its table
     * without `bind`.
     */
    method CloneArr(id: Id, bind: bool) returns (p: Id)
      requires Valid() && id in shared && shared[id].ArrNode? && id in rank
      modifies this
      decreases rank[id] + 1, 1, 0, 0
      ensures Valid() && Grew(old(State()), State()) && pending == old(pending)
      ensures CopiedPtr(id, p, origin)
      ensures Shares(id, bind, old(xlat)) ==> p == old(xlat)[DataKey(id)] && State() == old(State())
      ensures !Shares(id, bind, old(xlat)) ==>
        && p == Private(old(nextId)) && p in heap
        && (bind && shared[id].rc > 1 ==> DataKey(id) in xlat && xlat[DataKey(id)] == p)
        && heap[p].ArrNode? && TablePlaced(shared[id].ht, heap[p].ht, shared, symbolTable, false, old(nextId) + 1, xlat)
      ensures OnlyStringsAdded(shared, if bind && shared[id].rc > 1 then old(xlat)[DataKey(id) := p] else old(xlat), xlat)
    {
      var node := shared[id];
      if bind && node.rc > 1 && DataKey(id) in xlat {
        p := xlat[DataKey(id)];
      } else {
        ghost var s0 := State();
        p := ReserveCopy(id, bind);
        ghost var s1 := State();
        FillArr(id, p);
        GrewTrans(s0, s1, State());
      }
    }

    /**
     * The reference case of zend_clone_zval (ZVAL_NEW_REF with the `gc`
     * header of the original): its value is copied with the same `bind`.
     */
    method CloneRef(id: Id, bind: bool) returns (p: Id)
      requires Valid() && id in shared && shared[id].RefNode? && id in rank
      modifies this
      decreases rank[id] + 1, 1, 0, 0
      ensures Valid() && Grew(old(State()), State()) && pending == old(pending)
      ensures CopiedPtr(id, p, origin)
      ensures Shares(id, bind, old(xlat)) ==> p == old(xlat)[DataKey(id)] && State() == old(State())
      ensures !Shares(id, bind, old(xlat)) ==>
        && p == Private(old(nextId)) && p in heap
        && (bind && shared[id].rc > 1 ==> DataKey(id) in xlat && xlat[DataKey(id)] == p)
        && heap[p].RefNode? && Placed(shared[id].val, heap[p].val, shared, symbolTable, bind, old(nextId) + 1, xlat)
      ensures !bind ==> OnlyStringsAdded(shared, old(xlat), xlat)
    {
      var node := shared[id];
      if bind && node.rc > 1 && DataKey(id) in xlat {
        p := xlat[DataKey(id)];
      } else {
        ghost var s0 := State();
        p := ReserveCopy(id, bind);
        ghost var s1 := State();
        FillRef(id, p, bind);
        GrewTrans(s0, s1, State());
      }
    }

    /**
     * The constant-expression case of zend_clone_zval (ZVAL_NEW_AST with the
     * `gc` header of the original): its tree is copied by zend_ast_clone.
     */
    method CloneAstRef(id: Id, bind: bool) returns (p: Id)
      requires Valid() && id in shared && shared[id].AstRefNode? && id in rank
      modifies this
      decreases rank[id] + 1, 1, 0, 0
      ensures Valid() && Grew(old(State()), State()) && pending == old(pending)
      ensures CopiedPtr(id, p, origin)
      ensures Shares(id, bind, old(xlat)) ==> p == old(xlat)[DataKey(id)] && State() == old(State())
      ensures !Shares(id, bind, old(xlat)) ==>
        && p == Private(old(nextId)) && p in heap
        && (bind && shared[id].rc > 1 ==> DataKey(id) in xlat && xlat[DataKey(id)] == p)
        && heap[p].AstRefNode? && AstFresh(shared[id].ast, heap[p].ast, symbolTable, old(nextId) + 1)
      ensures OnlyStringsAdded(shared, if bind && shared[id].rc > 1 then old(xlat)[DataKey(id) := p] else old(xlat), xlat)
    {
      var node := shared[id];
      if bind && node.rc > 1 && DataKey(id) in xlat {
        p := xlat[DataKey(id)];
      } else {
        ghost var s0 := State();
        p := ReserveCopy(id, bind);
        ghost var s1 := State();
        FillAstRef(id, p);
        GrewTrans(s0, s1, State());
      }
    }

    /** Stores the copy of array `id` at reserved `p`: its `gc` header and its table copied without `bind`. */
    method FillArr(id: Id, p: Id)
      requires Valid() && p in pending && CopiedPtr(id, p, origin) && shared[id].ArrNode? && id in rank
      modifies this
      decreases rank[id] + 1, 0, 0, 0
      ensures Valid() && Grew(old(State()), State()) && pending == old(pending) - {p} && p in heap
      ensures heap[p].ArrNode? && TablePlaced(shared[id].ht, heap[p].ht, shared, symbolTable, false, old(nextId), xlat)
      ensures OnlyStringsAdded(shared, old(xlat), xlat)
    {
      var node := shared[id];
      SharedNode(id);
      ghost var s0 := State();
      var t2 := CloneTableZval(node.ht, false, rank[id]);
      ghost var s1 := State();
      Complete(p, ArrNode(node.rc, t2));
      GrewTrans(s0, s1, State());
    }

    /** Stores the copy of reference `id` at reserved `p`: its `gc` header and its value copied with `bind`. */
    method FillRef(id: Id, p: Id, bind: bool)
      requires Valid() && p in pending && CopiedPtr(id, p, origin) && shared[id].RefNode? && id in rank
      modifies this
      decreases rank[id] + 1, 0, 0, 0
      ensures Valid() && Grew(old(State()), State()) && pending == old(pending) - {p} && p in heap
      ensures heap[p].RefNode? && Placed(shared[id].val, heap[p].val, shared, symbolTable, bind, old(nextId), xlat)
      ensures !bind ==> OnlyStringsAdded(shared, old(xlat), xlat)
    {
      var node := shared[id];
      SharedNode(id);
      ghost var s0 := State();
      var v := CloneZval(node.val, bind);
      ghost var s1 := State();
      Complete(p, RefNode(node.rc, v));
      GrewTrans(s0, s1, State());
    }

    /** Stores the copy of tree reference `id` at reserved `p`: its `gc` header and its tree copied. */
    method FillAstRef(id: Id, p: Id)
      requires Valid() && p in pending && CopiedPtr(id, p, origin) && shared[id].AstRefNode? && id in rank
      modifies this
      decreases rank[id] + 1, 0, 0, 0
      ensures Valid() && Grew(old(State()), State()) && pending == old(pending) - {p} && p in heap
      ensures heap[p].AstRefNode? && AstFresh(shared[id].ast, heap[p].ast, symbolTable, old(nextId))
      ensures OnlyStringsAdded(shared, old(xlat), xlat)
    {
      var node := shared[id];
      SharedNode(id);
      ghost var s0 := State();
      var a := AstClone(node.ast, rank[id]);
      ghost var s1 := State();
      Complete(p, AstRefNode(node.rc, a));
      GrewTrans(s0, s1, State());
    }

    /** zend_ast_clone: the same tree, with its leaf zvals copied without `bind`. */
    method AstClone(a: Ast, ghost bound: nat) returns (a2: Ast)
      requires Valid() && AstBelow(a, bound, shared, rank, symbolTable)
      modifies this
      decreases bound, 3, AstSize(a), 1
      ensures Valid() && Grew(old(State()), State()) && pending == old(pending)
      ensures AstMatch(a, a2, origin, symbolTable)
      ensures AstFresh(a, a2, symbolTable, old(nextId)) && OnlyStringsAdded(shared, old(xlat), xlat)
    {
      match a {
        case AstZval(v) =>
          var v2 := CloneZval(v, false);
          a2 := AstZval(v2);
        case AstNode(kind, cs) =>
          var out := CloneChildren(a, bound);
          a2 := AstNode(kind, out);
      }
    }

    /** The loop of zend_ast_clone over the children of an inner node; NULL children stay NULL. */
    method CloneChildren(a: Ast, ghost bound: nat) returns (out: seq<Option<Ast>>)
      requires Valid() && a.AstNode? && AstBelow(a, bound, shared, rank, symbolTable)
      modifies this
      decreases bound, 3, AstSize(a), 0
      ensures Valid() && Grew(old(State()), State()) && pending == old(pending)
      ensures ChildrenMatch(a.children, out, origin, symbolTable)
      ensures ChildrenFresh(a.children, out, symbolTable, old(nextId)) && OnlyStringsAdded(shared, old(xlat), xlat)
    {
      ghost var s0 := State();
      var cs := a.children;
      out := [];
      var i := 0;
      while i < |cs|
        invariant 0 <= i <= |cs|
        invariant Valid() && Grew(s0, State()) && pending == old(pending)
        invariant ChildrenMatch(cs[..i], out, origin, symbolTable)
        invariant ChildrenFresh(cs[..i], out, symbolTable, s0.nextId) && OnlyStringsAdded(shared, s0.xlat, xlat)
      {
        ghost var s1 := State();
        var c: Option<Ast> := None;
        if cs[i].Some? {
          ChildSmaller(a, i);
          var t := AstClone(cs[i].value, bound);
          c := Some(t);
          GrewTrans(s0, s1, State());
          AstFreshMono(cs[i].value, t, symbolTable, s0.nextId, s1.nextId);
          OnlyStringsTrans(shared, s0.xlat, s1.xlat, xlat);
        }
        ChildrenFreshStep(cs, i, out, c, symbolTable, s0.nextId);
        ChildrenStep(cs, i, out, c, s1.origin, origin, symbolTable);
        out := out + [c];
        i := i + 1;
      }
      assert cs[..i] == cs;
    }

    /**
     * zend_hash_clone_zval: a copy of table `t` with the same header and
     * its internal pointer reset, its elements copied with `bind`.
     */
    method CloneTableZval(t: HashTable<Zval>, bind: bool, ghost bound: nat) returns (t2: HashTable<Zval>)
      requires Valid() && TableBelow(t, bound, shared, rank, symbolTable)
      modifies this
      decreases bound, 4, 0, 0
      ensures Valid() && Grew(old(State()), State()) && pending == old(pending)
      ensures TableCopied(t, t2, origin, symbolTable)
      ensures HashTables.Valid(t2)
      ensures TablePlaced(t, t2, shared, symbolTable, bind, old(nextId), xlat)
      ensures !bind ==> OnlyStringsAdded(shared, old(xlat), xlat)
    {
      var ip := if t.nNumOfElements != 0 then 0 else INVALID_IDX;
      if t.nTableMask == 0 {
        t2 := HashTable(t.nTableSize, t.nTableMask, 0, t.nNumOfElements, t.nNextFreeElement, ip,
                        false, [], [INVALID_IDX]);
      } else if t.packed {
        var data := ClonePacked(t.arData, bind, bound);
        t2 := HashTable(t.nTableSize, t.nTableMask, |data|, t.nNumOfElements, t.nNextFreeElement, ip,
                        true, data, [INVALID_IDX]);
        PackedCopyValid(t, t2, origin, symbolTable);
      } else {
        var data, hash := CloneBuckets(t.arData, t.nTableSize, bind, bound);
        t2 := HashTable(t.nTableSize, t.nTableMask, |data|, t.nNumOfElements, t.nNextFreeElement, ip,
                        false, data, hash);
        SparseCopyValid(t, t2, origin, symbolTable);
      }
    }

    /**
     * The packed branch of zend_hash_clone_zval: each live bucket is copied
     * to the position its integer key names, the positions skipped on the
     * way marked UNDEF.
     */
    method ClonePacked(src: seq<Bucket<Zval>>, bind: bool, ghost bound: nat) returns (data: seq<Bucket<Zval>>)
      requires Valid() && PackedLayout(src) && BucketsBelow(src, bound, shared, rank, symbolTable)
      modifies this
      decreases bound, 3, 0, 0
      ensures Valid() && Grew(old(State()), State()) && pending == old(pending)
      ensures PackedCopy(src, data, origin, symbolTable)
      ensures PackedPlaced(src, data, shared, symbolTable, bind, old(nextId), xlat)
      ensures !bind ==> OnlyStringsAdded(shared, old(xlat), xlat)
    {
      ghost var s0 := State();
      data := [];
      var idx := 0;
      while idx < |src|
        invariant 0 <= idx <= |src|
        invariant Valid() && Grew(s0, State()) && pending == old(pending)
        invariant PackedCopy(src[..idx], data, origin, symbolTable)
        invariant PackedPlaced(src, data, shared, symbolTable, bind, s0.nextId, xlat)
        invariant !bind ==> OnlyStringsAdded(shared, s0.xlat, xlat)
      {
        if IsLive(src[idx]) {
          ghost var s1 := State();
          data := CopyPacked(src, idx, data, bind, bound, s0.nextId, s0.xlat);
          GrewTrans(s0, s1, State());
        } else {
          PackedSkip(src, idx, data, origin, symbolTable);
        }
        idx := idx + 1;
      }
      assert src[..idx] == src;
    }

    /**
     * One live bucket of the packed branch: the positions from the current
     * end up to its integer key marked UNDEF, then its value copied there.
     */
    method CopyPacked(src: seq<Bucket<Zval>>, idx: nat, data: seq<Bucket<Zval>>, bind: bool, ghost bound: nat,
                      ghost n0: nat, ghost x0: map<XKey, Id>)
      returns (data2: seq<Bucket<Zval>>)
      requires Valid() && idx < |src| && IsLive(src[idx]) && PackedLayout(src)
      requires BucketsBelow(src, bound, shared, rank, symbolTable)
      requires PackedCopy(src[..idx], data, origin, symbolTable)
      requires n0 <= nextId && PackedPlaced(src, data, shared, symbolTable, bind, n0, xlat)
      requires !bind ==> OnlyStringsAdded(shared, x0, xlat)
      modifies this
      decreases bound, 2, 1, 0
      ensures Valid() && Grew(old(State()), State()) && pending == old(pending)
      ensures PackedCopy(src[..idx + 1], data2, origin, symbolTable)
      ensures PackedPlaced(src, data2, shared, symbolTable, bind, n0, xlat)
      ensures !bind ==> OnlyStringsAdded(shared, x0, xlat)
    {
      var p := src[idx];
      var gaps := MarkUndef(data, p.h);
      PackedGaps(src[..idx], data, gaps, origin, symbolTable);
      ghost var s0 := State();
      var v := CloneZval(p.val.v, bind);
      data2 := gaps + [Bucket(p.h, None, Val(v), INVALID_IDX)];
      PackedStep(src, idx, gaps, data2[idx], s0.origin, origin, symbolTable);
      assert data2[..|data|] == data by {
        assert data2[..|data|] == gaps[..|data|];
      }
      PackedPlacedStep(src, idx, data, data2, shared, symbolTable, bind, n0, s0.nextId, s0.xlat, xlat);
      if !bind {
        OnlyStringsTrans(shared, x0, s0.xlat, xlat);
      }
    }

    /**
     * The hash branch of zend_hash_clone_zval: each live bucket is appended,
     * pushed on the head of its slot's chain, and its key and value copied.
     */
    method CloneBuckets(src: seq<Bucket<Zval>>, size: nat, bind: bool, ghost bound: nat)
      returns (data: seq<Bucket<Zval>>, hash: seq<nat>)
      requires Valid() && 0 < size && |src| <= size <= HASH_MAX_SIZE
      requires BucketsBelow(src, bound, shared, rank, symbolTable)
      modifies this
      decreases bound, 3, 0, 0
      ensures Valid() && Grew(old(State()), State()) && pending == old(pending)
      ensures SparseCopy(LiveBuckets(src), data, origin, symbolTable)
      ensures ChainsOk(data, hash, size)
      ensures SparsePlaced(LiveBuckets(src), data, shared, symbolTable, bind, old(nextId), xlat)
      ensures !bind ==> OnlyStringsAdded(shared, old(xlat), xlat)
    {
      ghost var s0 := State();
      data := [];
      hash := seq(size, _ => INVALID_IDX);
      var idx := 0;
      while idx < |src|
        invariant 0 <= idx <= |src|
        invariant |data| == CountLive(src[..idx]) <= idx
        invariant Valid() && Grew(s0, State()) && pending == old(pending)
        invariant SparseCopy(LiveBuckets(src[..idx]), data, origin, symbolTable)
        invariant ChainsOk(data, hash, size)
        invariant SparsePlaced(LiveBuckets(src[..idx]), data, shared, symbolTable, bind, s0.nextId, xlat)
        invariant !bind ==> OnlyStringsAdded(shared, s0.xlat, xlat)
      {
        if IsLive(src[idx]) {
          ghost var s1 := State();
          data, hash := CopyBucket(src, idx, data, hash, size, bind, bound, s0.nextId, s0.xlat);
          GrewTrans(s0, s1, State());
        } else {
          SparseSkip(src, idx);
        }
        idx := idx + 1;
      }
      assert src[..idx] == src;
    }

    /**
     * One live bucket of the hash branch: appended to the new table, pushed
     * on the head of its slot's chain, its key and value copied.
     */
    method CopyBucket(src: seq<Bucket<Zval>>, idx: nat, data: seq<Bucket<Zval>>, hash: seq<nat>, size: nat,
                      bind: bool, ghost bound: nat, ghost n0: nat, ghost x0: map<XKey, Id>)
      returns (data2: seq<Bucket<Zval>>, hash2: seq<nat>)
      requires Valid() && 0 < size && idx < |src| <= size <= HASH_MAX_SIZE && IsLive(src[idx])
      requires BucketsBelow(src, bound, shared, rank, symbolTable)
      requires |data| == CountLive(src[..idx]) <= idx && ChainsOk(data, hash, size)
      requires SparseCopy(LiveBuckets(src[..idx]), data, origin, symbolTable)
      requires n0 <= nextId && SparsePlaced(LiveBuckets(src[..idx]), data, shared, symbolTable, bind, n0, xlat)
      requires !bind ==> OnlyStringsAdded(shared, x0, xlat)
      modifies this
      decreases bound, 2, 2, 0
      ensures Valid() && Grew(old(State()), State()) && pending == old(pending)
      ensures |data2| == CountLive(src[..idx + 1]) && ChainsOk(data2, hash2, size)
      ensures SparseCopy(LiveBuckets(src[..idx + 1]), data2, origin, symbolTable)
      ensures SparsePlaced(LiveBuckets(src[..idx + 1]), data2, shared, symbolTable, bind, n0, xlat)
      ensures !bind ==> OnlyStringsAdded(shared, x0, xlat)
    {
      var p := src[idx];
      var nIndex := SlotOf(p.h, size);
      var next := hash[nIndex];
      hash2 := hash[nIndex := |data|];
      ghost var s1 := State();
      var key, v := CloneElement(p, bind, bound);
      var q := Bucket(p.h, key, Val(v), next);
      data2 := data + [q];
      HeadInsertKeepsChains(data, hash, size, q);
      SparseStep(src, idx, data, q, s1.origin, origin, symbolTable);
      SparsePlacedStep(src, idx, data, q, shared, symbolTable, bind, n0, s1.nextId, s1.xlat, xlat);
      if !bind {
        OnlyStringsTrans(shared, x0, s1.xlat, xlat);
      }
    }

    /** The key (by zend_clone_str) and the value (by zend_clone_zval) of one live bucket. */
    method CloneElement(p: Bucket<Zval>, bind: bool, ghost bound: nat) returns (key: Option<ZStr>, v: Zval)
      requires Valid() && IsLive(p) && KeyIn(p.key, shared) && ZvalBelow(p.val.v, bound, shared, rank, symbolTable)
      modifies this
      decreases bound, 2, 1, 0
      ensures Valid() && Grew(old(State()), State()) && pending == old(pending)
      ensures KeyMatch(p.key, key, origin) && ZvalMatch(p.val.v, v, origin, symbolTable)
      ensures Placed(p.val.v, v, shared, symbolTable, bind, old(nextId), xlat)
      ensures !bind ==> OnlyStringsAdded(shared, old(xlat), xlat)
    {
      ghost var s0 := State();
      key := None;
      if p.key.Some? {
        var k := CloneStr(p.key.value);
        key := Some(k);
      }
      ghost var s1 := State();
      v := CloneZval(p.val.v, bind);
      GrewTrans(s0, s1, State());
      PlacedMono(p.val.v, v, shared, symbolTable, bind, s0.nextId, s1.nextId, xlat, xlat);
      if !bind {
        OnlyStringsTrans(shared, s0.xlat, s1.xlat, xlat);
      }
    }
  }

  /** The children of a tree copy: NULL where the original has NULL, a copy elsewhere. */
  ghost predicate ChildrenMatch(cs: seq<Option<Ast>>, out: seq<Option<Ast>>, o: map<Id, Id>, symtab: Id) {
    && |out| == |cs|
    && forall j :: 0 <= j < |cs| ==>
         && (cs[j].None? <==> out[j].None?)
         && (cs[j].Some? ==> AstMatch(cs[j].value, out[j].value, o, symtab))
  }

  lemma ChildrenStep(cs: seq<Option<Ast>>, i: nat, out: seq<Option<Ast>>, c: Option<Ast>,
                     o: map<Id, Id>, o2: map<Id, Id>, symtab: Id)
    requires i < |cs| && ChildrenMatch(cs[..i], out, o, symtab) && OriginGrows(o, o2)
    requires cs[i].None? <==> c.None?
    requires cs[i].Some? ==> AstMatch(cs[i].value, c.value, o2, symtab)
    ensures ChildrenMatch(cs[..i + 1], out + [c], o2, symtab)
  {
    forall j | 0 <= j < i && cs[j].Some?
      ensures AstMatch(cs[j].value, out[j].value, o2, symtab)
    {
      AstMatchMono(cs[j].value, out[j].value, o, o2, symtab);
    }
  }

  lemma ChildrenFreshStep(cs: seq<Option<Ast>>, i: nat, out: seq<Option<Ast>>, c: Option<Ast>, symtab: Id, n0: nat)
    requires i < |cs| && ChildrenFresh(cs[..i], out, symtab, n0)
    requires cs[i].Some? && c.Some? ==> AstFresh(cs[i].value, c.value, symtab, n0)
    ensures ChildrenFresh(cs[..i + 1], out + [c], symtab, n0)
  {
    assert cs[..i + 1][..i] == cs[..i];
  }

  lemma PackedPlacedStep(src: seq<Bucket<Zval>>, idx: nat, data: seq<Bucket<Zval>>, data2: seq<Bucket<Zval>>,
                         sh: map<Id, Node>, symtab: Id, bind: bool, n0: nat, n1: nat, x: map<XKey, Id>, x2: map<XKey, Id>)
    requires |data| <= idx < |src| && PackedPlaced(src, data, sh, symtab, bind, n0, x) && n0 <= n1 && DataKeysKept(x, x2)
    requires |data2| == idx + 1 && data2[..|data|] == data && forall i :: |data| <= i < idx ==> !IsLive(data2[i])
    requires IsLive(src[idx]) && IsLive(data2[idx]) && Placed(src[idx].val.v, data2[idx].val.v, sh, symtab, bind, n1, x2)
    ensures PackedPlaced(src, data2, sh, symtab, bind, n0, x2)
  {
    forall i | 0 <= i < |data2| && IsLive(src[i]) && IsLive(data2[i])
      ensures Placed(src[i].val.v, data2[i].val.v, sh, symtab, bind, n0, x2)
    {
      if i < |data| {
        assert data2[i] == data2[..|data|][i];
        PlacedMono(src[i].val.v, data[i].val.v, sh, symtab, bind, n0, n0, x, x2);
      } else {
        PlacedMono(src[i].val.v, data2[i].val.v, sh, symtab, bind, n0, n1, x2, x2);
      }
    }
  }

  lemma SparsePlacedStep(src: seq<Bucket<Zval>>, idx: nat, data: seq<Bucket<Zval>>, q: Bucket<Zval>,
                         sh: map<Id, Node>, symtab: Id, bind: bool, n0: nat, n1: nat, x: map<XKey, Id>, x2: map<XKey, Id>)
    requires idx < |src| && IsLive(src[idx]) && |data| == |LiveBuckets(src[..idx])|
    requires SparsePlaced(LiveBuckets(src[..idx]), data, sh, symtab, bind, n0, x) && n0 <= n1 && DataKeysKept(x, x2)
    requires IsLive(q) && Placed(src[idx].val.v, q.val.v, sh, symtab, bind, n1, x2)
    ensures SparsePlaced(LiveBuckets(src[..idx + 1]), data + [q], sh, symtab, bind, n0, x2)
  {
    assert src[..idx + 1][..idx] == src[..idx];
    var live := LiveBuckets(src[..idx + 1]);
    assert live == LiveBuckets(src[..idx]) + [src[idx]];
    SparsePlacedMono(LiveBuckets(src[..idx]), data, sh, symtab, bind, n0, n0, x, x2);
    PlacedMono(src[idx].val.v, q.val.v, sh, symtab, bind, n0, n1, x2, x2);
  }

  /** The gap-filling loop of the packed copy: `ZVAL_UNDEF(&r->val)` up to position `n`. */
  method MarkUndef(data: seq<Bucket<Zval>>, n: nat) returns (r: seq<Bucket<Zval>>)
    requires |data| <= n
    ensures |r| == n && r[..|data|] == data
    ensures forall i :: |data| <= i < n ==> !IsLive(r[i])
  {
    r := data;
    while |r| < n
      invariant |data| <= |r| <= n && r[..|data|] == data
      invariant forall i :: |data| <= i < |r| ==> !IsLive(r[i])
    {
      r := r + [Bucket(0, None, Slot.Undef, INVALID_IDX)];
    }
  }

  lemma PackedGaps(src: seq<Bucket<Zval>>, data: seq<Bucket<Zval>>, gaps: seq<Bucket<Zval>>,
                   o: map<Id, Id>, symtab: Id)
    requires PackedCopy(src, data, o, symtab) && |data| <= |gaps| <= |src| && gaps[..|data|] == data
    requires forall i :: |data| <= i < |gaps| ==> !IsLive(gaps[i])
    ensures PackedPrefix(src, gaps, o, symtab)
  {
    forall i | 0 <= i < |gaps|
      ensures IsLive(gaps[i]) <==> IsLive(src[i])
    {
      if i < |data| {
        assert gaps[i] == gaps[..|data|][i];
      }
    }
    forall i | 0 <= i < |gaps| && IsLive(gaps[i])
      ensures gaps[i] == data[i]
    {
      assert gaps[i] == gaps[..|data|][i];
    }
  }

  lemma PackedStep(src: seq<Bucket<Zval>>, idx: nat, gaps: seq<Bucket<Zval>>, b: Bucket<Zval>,
                   o: map<Id, Id>, o2: map<Id, Id>, symtab: Id)
    requires idx < |src| && IsLive(src[idx]) && |gaps| == idx
    requires PackedPrefix(src[..idx], gaps, o, symtab) && OriginGrows(o, o2)
    requires IsLive(b) && b.h == src[idx].h && b.key.None? && ZvalMatch(src[idx].val.v, b.val.v, o2, symtab)
    ensures PackedCopy(src[..idx + 1], gaps + [b], o2, symtab)
  {
    PackedPrefixMono(src[..idx], gaps, o, o2, symtab);
    assert src[..idx + 1][..idx] == src[..idx];
  }

  lemma PackedSkip(src: seq<Bucket<Zval>>, idx: nat, data: seq<Bucket<Zval>>, o: map<Id, Id>, symtab: Id)
    requires idx < |src| && !IsLive(src[idx]) && PackedCopy(src[..idx], data, o, symtab)
    ensures PackedCopy(src[..idx + 1], data, o, symtab)
  {
    assert src[..idx + 1][..idx] == src[..idx];
  }

  lemma SparseStep(src: seq<Bucket<Zval>>, idx: nat, data: seq<Bucket<Zval>>, q: Bucket<Zval>,
                   o: map<Id, Id>, o2: map<Id, Id>, symtab: Id)
    requires idx < |src| && IsLive(src[idx])
    requires SparseCopy(LiveBuckets(src[..idx]), data, o, symtab) && OriginGrows(o, o2)
    requires IsLive(q) && q.h == src[idx].h && KeyMatch(src[idx].key, q.key, o2)
    requires ZvalMatch(src[idx].val.v, q.val.v, o2, symtab)
    ensures SparseCopy(LiveBuckets(src[..idx + 1]), data + [q], o2, symtab)
    ensures CountLive(src[..idx + 1]) == CountLive(src[..idx]) + 1
  {
    SparseCopyMono(LiveBuckets(src[..idx]), data, o, o2, symtab);
    assert src[..idx + 1][..idx] == src[..idx];
  }

  lemma SparseSkip<V>(src: seq<Bucket<V>>, idx: nat)
    requires idx < |src| && !IsLive(src[idx])
    ensures LiveBuckets(src[..idx + 1]) == LiveBuckets(src[..idx])
    ensures CountLive(src[..idx + 1]) == CountLive(src[..idx])
  {
    assert src[..idx + 1][..idx] == src[..idx];
  }

  // ---------------------------------------------------------------------
  // A copied table is a well-formed table
  // ---------------------------------------------------------------------

  lemma {:induction false} CountLiveSameLiveness<V, W>(xs: seq<Bucket<V>>, ys: seq<Bucket<W>>)
    requires |xs| == |ys| && forall i :: 0 <= i < |xs| ==> (IsLive(xs[i]) <==> IsLive(ys[i]))
    ensures CountLive(xs) == CountLive(ys)
    decreases |xs|
  {
    if xs != [] {
      CountLiveSameLiveness(xs[..|xs| - 1], ys[..|ys| - 1]);
    }
  }

  lemma {:induction false} CountLiveDeadTail<V>(xs: seq<Bucket<V>>, n: nat)
    requires n <= |xs| && forall i :: n <= i < |xs| ==> !IsLive(xs[i])
    ensures CountLive(xs) == CountLive(xs[..n])
    decreases |xs|
  {
    if n < |xs| {
      var pre := xs[..|xs| - 1];
      CountLiveDeadTail(pre, n);
      assert pre[..n] == xs[..n];
    } else {
      assert xs[..n] == xs;
    }
  }

  lemma {:induction false} CountLiveAllLive<V>(xs: seq<Bucket<V>>)
    requires forall i :: 0 <= i < |xs| ==> IsLive(xs[i])
    ensures CountLive(xs) == |xs|
    decreases |xs|
  {
    if xs != [] {
      CountLiveAllLive(xs[..|xs| - 1]);
    }
  }

  lemma PackedCopyValid(t: HashTable<Zval>, t2: HashTable<Zval>, o: map<Id, Id>, symtab: Id)
    requires HashTables.Valid(t) && t.nTableMask != 0 && t.packed
    requires HeaderCopied(t, t2) && t2.packed && t2.arHash == [INVALID_IDX]
    requires PackedCopy(t.arData, t2.arData, o, symtab)
    ensures HashTables.Valid(t2)
  {
    var n := |t2.arData|;
    CountLiveDeadTail(t.arData, n);
    CountLiveSameLiveness(t.arData[..n], t2.arData);
  }

  lemma SparseCopyValid(t: HashTable<Zval>, t2: HashTable<Zval>, o: map<Id, Id>, symtab: Id)
    requires HashTables.Valid(t) && t.nTableMask != 0 && !t.packed
    requires HeaderCopied(t, t2) && !t2.packed && ChainsOk(t2.arData, t2.arHash, t2.nTableSize)
    requires SparseCopy(LiveBuckets(t.arData), t2.arData, o, symtab)
    ensures HashTables.Valid(t2)
  {
    CountLiveAllLive(t2.arData);
  }
}
