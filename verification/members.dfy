/**
 * The copies of a class's members made while a cached class is loaded:
 * zend_prepare_function_for_execution (an op_array's pinned reference count
 * and its own static variables), zend_hash_clone_methods (the method table,
 * each op_array copied, registered in `bind_hash` and its scope and
 * prototype redirected) and zend_hash_clone_prop_info (the property table).
 *
 * A redirection that finds no translation is the fatal "class loading
 * error", returned here as a `Failure`.
 */
module MemberCopy {
  import opened Wrappers
  import opened ZendValues
  import opened HashTables
  import opened ZendEntities
  import opened CloneEngine

  // ---------------------------------------------------------------------
  // Well-formed shared members
  // ---------------------------------------------------------------------

  /** A shared table of zvals with some bound on the rank of what it points to. */
  ghost predicate TableIn(t: HashTable<Zval>, sh: map<Id, Node>, rk: map<Id, nat>, symtab: Id) {
    exists bound: nat :: TableBelow(t, bound, sh, rk, symtab)
  }

  ghost predicate StaticsIn(f: OpArray, sh: map<Id, Node>, rk: map<Id, nat>, symtab: Id) {
    f.staticVars.Some? ==> TableIn(f.staticVars.value, sh, rk, symtab)
  }

  /**
   * A shared method table: a hash (not packed) table whose live buckets
   * have string keys (both asserted by the source) and op_arrays whose
   * static variables are shared tables.
   */
  ghost predicate MethodsIn(t: HashTable<OpArray>, sh: map<Id, Node>, rk: map<Id, nat>, symtab: Id) {
    && HashTables.Valid(t)
    && (t.nTableMask != 0 ==> !t.packed)
    && forall i :: 0 <= i < |t.arData| && IsLive(t.arData[i]) ==>
         t.arData[i].key.Some? && StrIn(t.arData[i].key.value, sh) && StaticsIn(t.arData[i].val.v, sh, rk, symtab)
  }

  /** A shared property table: hash layout, string keys, shared names. */
  ghost predicate PropsIn(t: HashTable<PropertyInfo>, sh: map<Id, Node>) {
    && HashTables.Valid(t)
    && (t.nTableMask != 0 ==> !t.packed)
    && forall i :: 0 <= i < |t.arData| && IsLive(t.arData[i]) ==>
         t.arData[i].key.Some? && StrIn(t.arData[i].key.value, sh) && StrIn(t.arData[i].val.v.name, sh)
  }

  // ---------------------------------------------------------------------
  // What the copies are
  // ---------------------------------------------------------------------

  /** Static variables: none stay none; a table becomes a copy made without `bind`. */
  ghost predicate StaticsCopied(s: Option<HashTable<Zval>>, s2: Option<HashTable<Zval>>, o: map<Id, Id>, symtab: Id) {
    if s.None? then s2.None?
    else s2.Some? && TableCopied(s.value, s2.value, o, symtab) && HashTables.Valid(s2.value)
  }

  /**
   * `g` is op_array `f` prepared for execution: its reference count pinned
   * at ZEND_PROTECTED_REFCOUNT, its static variables copied, all else kept.
   */
  ghost predicate Prepared(f: OpArray, g: OpArray, o: map<Id, Id>, symtab: Id) {
    && g.refcount == Some(ZEND_PROTECTED_REFCOUNT)
    && StaticsCopied(f.staticVars, g.staticVars, o, symtab)
    && g == f.(refcount := g.refcount, staticVars := g.staticVars)
  }

  /** The translations of op_arrays and class entries agree. */
  ghost predicate CodeAgree(a: map<XKey, Id>, b: map<XKey, Id>) {
    forall k: XKey :: !k.DataKey? ==> (k in a <==> k in b) && (k in a ==> a[k] == b[k])
  }

  /** The translations of class entries agree. */
  ghost predicate ClassKept(a: map<XKey, Id>, b: map<XKey, Id>) {
    forall k: XKey :: k.ClassKey? ==> (k in a <==> k in b) && (k in a ==> a[k] == b[k])
  }

  /** A method's scope is the class being copied, or a class entry with a translation. */
  ghost predicate ScopeOk(f: OpArray, oldCe: Id, x: map<XKey, Id>) {
    f.scope == Some(oldCe) || (f.scope.Some? && ClassKey(f.scope.value) in x)
  }

  /** A method has no prototype, or its prototype has a translation. */
  ghost predicate ProtoOk(f: OpArray, x: map<XKey, Id>) {
    f.prototype.None? || FuncKey(f.prototype.value) in x
  }

  /**
   * `g` is the copy zend_hash_clone_methods makes of method `f` of class
   * `oldCe` copied to `ce`, `x` being `bind_hash` once `g` is registered: a
   * new op_array, prepared, its scope moved to `ce` (or translated) and its
   * prototype translated.
   */
  ghost predicate MethodCopied(f: OpArray, g: OpArray, oldCe: Id, ce: Id, x: map<XKey, Id>, o: map<Id, Id>, symtab: Id) {
    && ScopeOk(f, oldCe, x) && ProtoOk(f, x)
    && g.id.Private?
    && g.scope == Some(if f.scope == Some(oldCe) then ce else x[ClassKey(f.scope.value)])
    && g.prototype == (if f.prototype.None? then None else Some(x[FuncKey(f.prototype.value)]))
    && Prepared(f.(id := g.id, scope := g.scope, prototype := g.prototype), g, o, symtab)
  }

  /** accel_xlat_set of a method copy: only an op_array with a reference count pointer is registered. */
  function Reg1(x: map<XKey, Id>, f: OpArray, g: Id): (r: map<XKey, Id>)
    ensures f.refcount.Some? ==> FuncKey(f.id) in r && r[FuncKey(f.id)] == g
    ensures forall k :: k != FuncKey(f.id) ==> (k in r <==> k in x) && (k in x ==> r[k] == x[k])
  {
    if f.refcount.Some? then x[FuncKey(f.id) := g] else x
  }

  /** `bind_hash` after the methods `live` have been copied to `dst`, starting from `x0`. */
  ghost function Registrations(x0: map<XKey, Id>, live: seq<Bucket<OpArray>>, dst: seq<Bucket<OpArray>>): map<XKey, Id>
    requires |live| == |dst|
    decreases |live|
  {
    if live == [] then x0
    else
      var n := |live| - 1;
      var m := Registrations(x0, live[..n], dst[..n]);
      if IsLive(live[n]) && IsLive(dst[n]) then Reg1(m, live[n].val.v, dst[n].val.v.id) else m
  }

  /** The op_arrays among `live` that their copies register. */
  ghost function RegKeys(live: seq<Bucket<OpArray>>): set<XKey>
    decreases |live|
  {
    if live == [] then {}
    else
      var n := |live| - 1;
      RegKeys(live[..n]) +
        (if IsLive(live[n]) && live[n].val.v.refcount.Some? then {FuncKey(live[n].val.v.id)} else {})
  }

  /** The prototype of `f` is translated once the methods `done` are copied. */
  ghost predicate ProtoKnown(f: OpArray, x0: map<XKey, Id>, done: seq<Bucket<OpArray>>) {
    f.prototype.None? || FuncKey(f.prototype.value) in x0 || FuncKey(f.prototype.value) in RegKeys(done)
  }

  /**
   * Every method of `live`, copied in order, finds its scope and prototype:
   * the condition under which zend_hash_clone_methods ends without error.
   */
  ghost predicate MethodsResolve(live: seq<Bucket<OpArray>>, oldCe: Id, x0: map<XKey, Id>) {
    forall i :: 0 <= i < |live| && IsLive(live[i]) ==>
      ScopeOk(live[i].val.v, oldCe, x0) && ProtoKnown(live[i].val.v, x0, live[..i + 1])
  }

  /**
   * The name of the first method of `live`, from position `from` on, that
   * finds no translation of its scope or prototype: the function
   * zend_hash_clone_methods names in its class loading error.
   */
  ghost function FirstUnresolvedMethod(live: seq<Bucket<OpArray>>, oldCe: Id, x0: map<XKey, Id>, from: nat): Option<seq<char>>
    decreases |live| - from
  {
    if from >= |live| then None
    else if IsLive(live[from]) && !(ScopeOk(live[from].val.v, oldCe, x0) && ProtoKnown(live[from].val.v, x0, live[..from + 1]))
    then Some(FunctionName(live[from].val.v))
    else FirstUnresolvedMethod(live, oldCe, x0, from + 1)
  }

  /** The buckets of a method-table copy, each against `bind_hash` as it stood when it was made. */
  ghost predicate MethodsCopied(live: seq<Bucket<OpArray>>, dst: seq<Bucket<OpArray>>, oldCe: Id, ce: Id,
                                x0: map<XKey, Id>, o: map<Id, Id>, symtab: Id) {
    && |dst| == |live|
    && forall i :: 0 <= i < |dst| ==>
         && IsLive(live[i]) && IsLive(dst[i])
         && dst[i].h == live[i].h
         && KeyMatch(live[i].key, dst[i].key, o)
         && MethodCopied(live[i].val.v, dst[i].val.v, oldCe, ce, Registrations(x0, live[..i + 1], dst[..i + 1]), o, symtab)
  }

  /** The header a member-table copy takes, and no bucket array for a table that never had one. */
  predicate MemberHeader<V>(t: HashTable<V>, t2: HashTable<V>) {
    && HeaderCopied(t, t2) && !t2.packed
    && (t.nTableMask == 0 ==> t2.arData == [] && t2.arHash == [INVALID_IDX])
    && (t.nTableMask != 0 ==> ChainsOk(t2.arData, t2.arHash, t2.nTableSize))
  }

  /** `t2` is the copy zend_hash_clone_methods makes of method table `t`. */
  ghost predicate MethodTableCopied(t: HashTable<OpArray>, t2: HashTable<OpArray>, oldCe: Id, ce: Id,
                                    x0: map<XKey, Id>, o: map<Id, Id>, symtab: Id) {
    MemberHeader(t, t2) && MethodsCopied(LiveBuckets(t.arData), t2.arData, oldCe, ce, x0, o, symtab)
  }

  /**
   * A doc comment: kept as a duplicate (a new private, non-interned string
   * with its characters) when comments are loaded, dropped otherwise.
   */
  ghost predicate DocCopied(d: Option<ZStr>, d2: Option<ZStr>, loadComments: bool) {
    if d.Some? && loadComments then
      d2.Some? && d2.value.val == d.value.val && !d2.value.interned && d2.value.id.Private?
    else d2.None?
  }

  /** A property's declaring class is the class being copied, or has a translation. */
  ghost predicate PropCeOk(pi: PropertyInfo, oldCe: Id, x: map<XKey, Id>) {
    pi.ce == oldCe || ClassKey(pi.ce) in x
  }

  /** `pj` is the copy zend_hash_clone_prop_info makes of property `pi`. */
  ghost predicate PropCopied(pi: PropertyInfo, pj: PropertyInfo, oldCe: Id, ce: Id, x: map<XKey, Id>,
                             o: map<Id, Id>, loadComments: bool) {
    && PropCeOk(pi, oldCe, x)
    && pj.flags == pi.flags
    && StrMatch(pi.name, pj.name, o)
    && DocCopied(pi.docComment, pj.docComment, loadComments)
    && pj.ce == (if pi.ce == oldCe then ce else x[ClassKey(pi.ce)])
  }

  ghost predicate PropsResolve(live: seq<Bucket<PropertyInfo>>, oldCe: Id, x: map<XKey, Id>) {
    forall i :: 0 <= i < |live| && IsLive(live[i]) ==> PropCeOk(live[i].val.v, oldCe, x)
  }

  /**
   * The name of the first property of `live`, from position `from` on,
   * whose declaring class is neither `oldCe` nor translated: the property
   * zend_hash_clone_prop_info names in its class loading error.
   */
  ghost function FirstUnresolvedProp(live: seq<Bucket<PropertyInfo>>, oldCe: Id, x: map<XKey, Id>, from: nat): Option<seq<char>>
    decreases |live| - from
  {
    if from >= |live| then None
    else if IsLive(live[from]) && !PropCeOk(live[from].val.v, oldCe, x) then Some(live[from].val.v.name.val)
    else FirstUnresolvedProp(live, oldCe, x, from + 1)
  }

  ghost predicate PropsCopied(live: seq<Bucket<PropertyInfo>>, dst: seq<Bucket<PropertyInfo>>, oldCe: Id, ce: Id,
                              x: map<XKey, Id>, o: map<Id, Id>, loadComments: bool) {
    && |dst| == |live|
    && forall i :: 0 <= i < |dst| ==>
         && IsLive(live[i]) && IsLive(dst[i])
         && dst[i].h == live[i].h
         && KeyMatch(live[i].key, dst[i].key, o)
         && PropCopied(live[i].val.v, dst[i].val.v, oldCe, ce, x, o, loadComments)
  }

  /** `t2` is the copy zend_hash_clone_prop_info makes of property table `t`. */
  ghost predicate PropTableCopied(t: HashTable<PropertyInfo>, t2: HashTable<PropertyInfo>, oldCe: Id, ce: Id,
                                  x: map<XKey, Id>, o: map<Id, Id>, loadComments: bool) {
    MemberHeader(t, t2) && PropsCopied(LiveBuckets(t.arData), t2.arData, oldCe, ce, x, o, loadComments)
  }

  // ---------------------------------------------------------------------
  // The copies
  // ---------------------------------------------------------------------

  /**
   * zend_prepare_function_for_execution: pins the reference count and
   * gives the op_array its own copy of its static variables (made without
   * `bind`); nothing is registered.
   */
  method PrepareFunction(pass: ClonePass, f: OpArray) returns (g: OpArray)
    requires pass.Valid() && StaticsIn(f, pass.shared, pass.rank, pass.symbolTable)
    modifies pass
    ensures pass.Valid() && Grew(old(pass.State()), pass.State()) && pass.pending == old(pass.pending)
    ensures Prepared(f, g, pass.origin, pass.symbolTable)
    ensures f.staticVars.Some? ==>
      TablePlaced(f.staticVars.value, g.staticVars.value, pass.shared, pass.symbolTable, false, old(pass.nextId), pass.xlat)
    ensures OnlyStringsAdded(pass.shared, old(pass.xlat), pass.xlat)
  {
    g := f.(refcount := Some(ZEND_PROTECTED_REFCOUNT));
    if f.staticVars.Some? {
      ghost var bound: nat :| TableBelow(f.staticVars.value, bound, pass.shared, pass.rank, pass.symbolTable);
      var t := pass.CloneTableZval(f.staticVars.value, false, bound);
      g := g.(staticVars := Some(t));
    }
  }

  /**
   * Method `f` resolves against `bind_hash` `x` once its own copy is
   * registered: its scope is the class being copied or translated, and its
   * prototype is absent, translated, or `f` itself registered just now.
   */
  ghost predicate Resolves(f: OpArray, oldCe: Id, x: map<XKey, Id>) {
    && ScopeOk(f, oldCe, x)
    && (f.prototype.None? || FuncKey(f.prototype.value) in x || (f.refcount.Some? && f.prototype.value == f.id))
  }

  /**
   * The allocation part of zend_hash_clone_methods for one method `f`: a
   * new op_array, registered when `f` has a reference count pointer, then
   * prepared for execution.
   */
  method AllocMethod(pass: ClonePass, f: OpArray) returns (g: OpArray)
    requires pass.Valid() && StaticsIn(f, pass.shared, pass.rank, pass.symbolTable)
    modifies pass
    ensures pass.Valid() && DataGrew(old(pass.State()), pass.State()) && pass.pending == old(pass.pending)
    ensures g.id == Private(old(pass.nextId))
    ensures CodeAgree(pass.xlat, Reg1(old(pass.xlat), f, g.id))
    ensures Prepared(f.(id := g.id), g, pass.origin, pass.symbolTable)
  {
    ghost var s0 := pass.State();
    var id := pass.Fresh();
    if f.refcount.Some? {
      pass.RegisterCode(FuncKey(f.id), id);
    }
    ghost var s1 := pass.State();
    g := PrepareFunction(pass, f.(id := id));
    DataGrewTrans(s0, s1, pass.State());
  }

  /**
   * The redirection part of zend_hash_clone_methods: the copy's scope
   * becomes `ce` when it was `oldCe`, otherwise its translation; its
   * prototype, if any, its translation.  A missing translation is the
   * class loading error naming the class and the function.
   */
  method Redirect(f: OpArray, g: OpArray, oldCe: Id, ce: Id, x: map<XKey, Id>, ceName: seq<char>,
                  ghost o: map<Id, Id>, ghost symtab: Id)
    returns (res: Result<OpArray, LoadError>)
    requires g.id.Private? && Prepared(f.(id := g.id), g, o, symtab)
    ensures res.Success? <==> ScopeOk(f, oldCe, x) && ProtoOk(f, x)
    ensures res.Success? ==> res.value.id == g.id && MethodCopied(f, res.value, oldCe, ce, x, o, symtab)
    ensures res.Failure? ==> res.error == ClassLoadingError(ceName, Some(FunctionName(f)))
  {
    var h := g;
    if f.scope == Some(oldCe) {
      h := h.(scope := Some(ce));
    } else if f.scope.Some? && ClassKey(f.scope.value) in x {
      h := h.(scope := Some(x[ClassKey(f.scope.value)]));
    } else {
      return Failure(ClassLoadingError(ceName, Some(FunctionName(f))));
    }
    if f.prototype.Some? {
      if FuncKey(f.prototype.value) in x {
        h := h.(prototype := Some(x[FuncKey(f.prototype.value)]));
      } else {
        return Failure(ClassLoadingError(ceName, Some(FunctionName(f))));
      }
    }
    res := Success(h);
  }

  /** The copy of one method `f`: allocated, registered, prepared and redirected. */
  method CopyMethod(pass: ClonePass, f: OpArray, oldCe: Id, ce: Id, ceName: seq<char>) returns (res: Result<OpArray, LoadError>)
    requires pass.Valid() && StaticsIn(f, pass.shared, pass.rank, pass.symbolTable)
    modifies pass
    ensures pass.Valid() && DataGrew(old(pass.State()), pass.State()) && pass.pending == old(pass.pending)
    ensures ClassKept(old(pass.xlat), pass.xlat)
    ensures res.Success? <==> Resolves(f, oldCe, old(pass.xlat))
    ensures res.Success? ==>
      && res.value.id == Private(old(pass.nextId))
      && CodeAgree(pass.xlat, Reg1(old(pass.xlat), f, res.value.id))
      && MethodCopied(f, res.value, oldCe, ce, pass.xlat, pass.origin, pass.symbolTable)
    ensures res.Failure? ==> res.error == ClassLoadingError(ceName, Some(FunctionName(f)))
  {
    ghost var x0 := pass.xlat;
    var g := AllocMethod(pass, f);
    res := Redirect(f, g, oldCe, ce, pass.xlat, ceName, pass.origin, pass.symbolTable);
    ResolvesAfterRegistration(f, oldCe, x0, pass.xlat, g.id);
  }

  /**
   * zend_hash_clone_methods: the method table of class `oldCe` copied for
   * its copy `ce` (named `ceName`).  It succeeds exactly when every method,
   * taken in order, finds the translation of its scope and prototype.
   */
  method CloneMethods(pass: ClonePass, src: HashTable<OpArray>, oldCe: Id, ce: Id, ceName: seq<char>)
    returns (res: Result<HashTable<OpArray>, LoadError>)
    requires pass.Valid() && MethodsIn(src, pass.shared, pass.rank, pass.symbolTable)
    modifies pass
    ensures pass.Valid() && DataGrew(old(pass.State()), pass.State()) && pass.pending == old(pass.pending)
    ensures ClassKept(old(pass.xlat), pass.xlat)
    ensures res.Success? <==> MethodsResolve(LiveBuckets(src.arData), oldCe, old(pass.xlat))
    ensures res.Success? ==>
      && MethodTableCopied(src, res.value, oldCe, ce, old(pass.xlat), pass.origin, pass.symbolTable)
      && HashTables.Valid(res.value)
      && CodeAgree(pass.xlat, Registrations(old(pass.xlat), LiveBuckets(src.arData), res.value.arData))
    ensures res.Failure? ==>
      res.error == ClassLoadingError(ceName, FirstUnresolvedMethod(LiveBuckets(src.arData), oldCe, old(pass.xlat), 0))
  {
    var ip := if src.nNumOfElements != 0 then 0 else INVALID_IDX;
    if src.nTableMask == 0 {
      return Success(HashTable(src.nTableSize, 0, 0, src.nNumOfElements, src.nNextFreeElement, ip,
                               false, [], [INVALID_IDX]));
    }
    var r := CloneMethodBuckets(pass, src.arData, src.nTableSize, oldCe, ce, ceName);
    if r.Failure? {
      return Failure(r.error);
    }
    var (data, hash) := r.value;
    MethodLoopDone(src.arData, |src.arData|, data, hash, src.nTableSize, old(pass.xlat), pass.xlat, pass.origin,
                   oldCe, ce, pass.symbolTable);
    var t2 := HashTable(src.nTableSize, src.nTableMask, |data|, src.nNumOfElements, src.nNextFreeElement, ip,
                        false, data, hash);
    CompactCopyValid(src, t2);
    res := Success(t2);
  }

  /**
   * The state of zend_hash_clone_methods after the first `idx` buckets of
   * `src`: the copies so far, every method so far resolved, `bind_hash`
   * `x` holding their registrations, the chains of the new table.
   */
  ghost predicate MethodLoop(src: seq<Bucket<OpArray>>, idx: nat, data: seq<Bucket<OpArray>>, hash: seq<nat>, size: nat,
                             x0: map<XKey, Id>, x: map<XKey, Id>, o: map<Id, Id>, oldCe: Id, ce: Id, symtab: Id) {
    && idx <= |src|
    && MethodsCopied(LiveBuckets(src[..idx]), data, oldCe, ce, x0, o, symtab)
    && MethodsResolve(LiveBuckets(src[..idx]), oldCe, x0)
    && CodeAgree(x, Registrations(x0, LiveBuckets(src[..idx]), data))
    && ChainsOk(data, hash, size)
  }

  /** The bucket loop of zend_hash_clone_methods. */
  method CloneMethodBuckets(pass: ClonePass, src: seq<Bucket<OpArray>>, size: nat, oldCe: Id, ce: Id, ceName: seq<char>)
    returns (res: Result<(seq<Bucket<OpArray>>, seq<nat>), LoadError>)
    requires pass.Valid() && 0 < size && |src| <= size <= HASH_MAX_SIZE
    requires forall i :: 0 <= i < |src| && IsLive(src[i]) ==>
      src[i].key.Some? && StrIn(src[i].key.value, pass.shared) &&
      StaticsIn(src[i].val.v, pass.shared, pass.rank, pass.symbolTable)
    modifies pass
    ensures pass.Valid() && DataGrew(old(pass.State()), pass.State()) && pass.pending == old(pass.pending)
    ensures res.Success? ==>
      MethodLoop(src, |src|, res.value.0, res.value.1, size, old(pass.xlat), pass.xlat, pass.origin, oldCe, ce, pass.symbolTable)
    ensures res.Failure? ==>
      && !MethodsResolve(LiveBuckets(src), oldCe, old(pass.xlat)) && ClassKept(old(pass.xlat), pass.xlat)
      && res.error == ClassLoadingError(ceName, FirstUnresolvedMethod(LiveBuckets(src), oldCe, old(pass.xlat), 0))
  {
    ghost var s0 := pass.State();
    ghost var x0 := pass.xlat;
    var data: seq<Bucket<OpArray>> := [];
    var hash: seq<nat> := seq(size, _ => INVALID_IDX);
    var idx := 0;
    MethodLoopStart(src, hash, size, x0, pass.xlat, pass.origin, oldCe, ce, pass.symbolTable);
    while idx < |src|
      invariant pass.Valid() && DataGrew(s0, pass.State()) && pass.pending == old(pass.pending)
      invariant MethodLoop(src, idx, data, hash, size, x0, pass.xlat, pass.origin, oldCe, ce, pass.symbolTable)
      decreases |src| - idx
    {
      ghost var s1 := pass.State();
      var r := MethodBucketStep(pass, src, idx, data, hash, size, x0, oldCe, ce, ceName);
      DataGrewTrans(s0, s1, pass.State());
      if r.Failure? {
        return Failure(r.error);
      }
      data, hash := r.value.0, r.value.1;
      idx := idx + 1;
    }
    res := Success((data, hash));
  }

  /** One iteration of the bucket loop of zend_hash_clone_methods. */
  method MethodBucketStep(pass: ClonePass, src: seq<Bucket<OpArray>>, idx: nat, data: seq<Bucket<OpArray>>, hash: seq<nat>,
                          size: nat, ghost x0: map<XKey, Id>, oldCe: Id, ce: Id, ceName: seq<char>)
    returns (res: Result<(seq<Bucket<OpArray>>, seq<nat>), LoadError>)
    requires pass.Valid() && idx < |src| <= size <= HASH_MAX_SIZE
    requires IsLive(src[idx]) ==>
      src[idx].key.Some? && StrIn(src[idx].key.value, pass.shared) &&
      StaticsIn(src[idx].val.v, pass.shared, pass.rank, pass.symbolTable)
    requires MethodLoop(src, idx, data, hash, size, x0, pass.xlat, pass.origin, oldCe, ce, pass.symbolTable)
    modifies pass
    ensures pass.Valid() && DataGrew(old(pass.State()), pass.State()) && pass.pending == old(pass.pending)
    ensures res.Success? ==>
      MethodLoop(src, idx + 1, res.value.0, res.value.1, size, x0, pass.xlat, pass.origin, oldCe, ce, pass.symbolTable)
    ensures res.Failure? ==>
      && !MethodsResolve(LiveBuckets(src), oldCe, x0) && ClassKept(x0, pass.xlat)
      && res.error == ClassLoadingError(ceName, FirstUnresolvedMethod(LiveBuckets(src), oldCe, x0, 0))
  {
    var p := src[idx];
    if !IsLive(p) {
      SparseSkip(src, idx);
      return Success((data, hash));
    }
    var nIndex := SlotOf(p.h, size);
    var next := hash[nIndex];
    var hash2 := hash[nIndex := |data|];
    ghost var s0 := pass.State();
    var key := pass.CloneStr(p.key.value);
    ghost var s1 := pass.State();
    var r := CopyMethod(pass, p.val.v, oldCe, ce, ceName);
    DataGrewTrans(s0, s1, pass.State());
    CodeKeptAgree(s0, s1);
    CodeAgreeTrans(s1.xlat, s0.xlat, Registrations(x0, LiveBuckets(src[..idx]), data));
    if r.Failure? {
      MethodFail(src, idx, data, x0, s1.xlat, oldCe);
      RegistrationsKeys(x0, LiveBuckets(src[..idx]), data);
      ClassKeptAgree(x0, Registrations(x0, LiveBuckets(src[..idx]), data), s1.xlat);
      ClassKeptTrans(x0, s1.xlat, pass.xlat);
      return Failure(r.error);
    }
    var q := Bucket(p.h, Some(key), Val(r.value), next);
    KeyMatchMono(p.key, q.key, s1.origin, pass.origin);
    HeadInsertKeepsChains(data, hash, size, q);
    MethodStep(src, idx, data, q, x0, s1.xlat, pass.xlat, s0.origin, pass.origin, oldCe, ce, pass.symbolTable);
    res := Success((data + [q], hash2));
  }

  lemma MethodLoopStart(src: seq<Bucket<OpArray>>, hash: seq<nat>, size: nat,
                        x0: map<XKey, Id>, x: map<XKey, Id>, o: map<Id, Id>, oldCe: Id, ce: Id, symtab: Id)
    requires 0 < size && hash == seq(size, _ => INVALID_IDX) && x == x0
    ensures MethodLoop(src, 0, [], hash, size, x0, x, o, oldCe, ce, symtab)
  {
    assert src[..0] == [];
  }

  lemma MethodLoopDone(src: seq<Bucket<OpArray>>, idx: nat, data: seq<Bucket<OpArray>>, hash: seq<nat>, size: nat,
                       x0: map<XKey, Id>, x: map<XKey, Id>, o: map<Id, Id>, oldCe: Id, ce: Id, symtab: Id)
    requires idx == |src| && MethodLoop(src, idx, data, hash, size, x0, x, o, oldCe, ce, symtab)
    ensures ClassKept(x0, x) && MethodsResolve(LiveBuckets(src), oldCe, x0) && ChainsOk(data, hash, size)
    ensures MethodsCopied(LiveBuckets(src), data, oldCe, ce, x0, o, symtab)
    ensures CodeAgree(x, Registrations(x0, LiveBuckets(src), data))
  {
    assert src[..idx] == src;
    RegistrationsKeys(x0, LiveBuckets(src), data);
    ClassKeptAgree(x0, Registrations(x0, LiveBuckets(src), data), x);
  }

  /**
   * zend_hash_clone_prop_info: the property table of class `oldCe` copied
   * for its copy `ce`.  It succeeds exactly when every property's declaring
   * class is `oldCe` or has a translation.
   */
  method ClonePropInfo(pass: ClonePass, src: HashTable<PropertyInfo>, oldCe: Id, ce: Id, ceName: seq<char>)
    returns (res: Result<HashTable<PropertyInfo>, LoadError>)
    requires pass.Valid() && PropsIn(src, pass.shared)
    modifies pass
    ensures pass.Valid() && Grew(old(pass.State()), pass.State()) && pass.pending == old(pass.pending)
    ensures res.Success? <==> PropsResolve(LiveBuckets(src.arData), oldCe, old(pass.xlat))
    ensures res.Success? ==>
      && PropTableCopied(src, res.value, oldCe, ce, old(pass.xlat), pass.origin, pass.loadComments)
      && HashTables.Valid(res.value)
    ensures res.Failure? ==>
      res.error == ClassLoadingError(ceName, FirstUnresolvedProp(LiveBuckets(src.arData), oldCe, old(pass.xlat), 0))
  {
    var ip := if src.nNumOfElements != 0 then 0 else INVALID_IDX;
    if src.nTableMask == 0 {
      return Success(HashTable(src.nTableSize, 0, 0, src.nNumOfElements, src.nNextFreeElement, ip,
                               false, [], [INVALID_IDX]));
    }
    var r := ClonePropBuckets(pass, src.arData, src.nTableSize, oldCe, ce, ceName);
    if r.Failure? {
      return Failure(r.error);
    }
    var (data, hash) := r.value;
    PropLoopDone(src.arData, |src.arData|, data, hash, src.nTableSize, old(pass.xlat), pass.origin, oldCe, ce,
                 pass.loadComments);
    var t2 := HashTable(src.nTableSize, src.nTableMask, |data|, src.nNumOfElements, src.nNextFreeElement, ip,
                        false, data, hash);
    CompactCopyValid(src, t2);
    res := Success(t2);
  }

  /**
   * The state of zend_hash_clone_prop_info after the first `idx` buckets of
   * `src`: the copies so far and the chains of the new table.
   */
  ghost predicate PropLoop(src: seq<Bucket<PropertyInfo>>, idx: nat, data: seq<Bucket<PropertyInfo>>, hash: seq<nat>,
                           size: nat, x0: map<XKey, Id>, o: map<Id, Id>, oldCe: Id, ce: Id, loadComments: bool) {
    && idx <= |src|
    && PropsCopied(LiveBuckets(src[..idx]), data, oldCe, ce, x0, o, loadComments)
    && ChainsOk(data, hash, size)
  }

  /** The bucket loop of zend_hash_clone_prop_info. */
  method ClonePropBuckets(pass: ClonePass, src: seq<Bucket<PropertyInfo>>, size: nat, oldCe: Id, ce: Id, ceName: seq<char>)
    returns (res: Result<(seq<Bucket<PropertyInfo>>, seq<nat>), LoadError>)
    requires pass.Valid() && 0 < size && |src| <= size <= HASH_MAX_SIZE
    requires forall i :: 0 <= i < |src| && IsLive(src[i]) ==>
      src[i].key.Some? && StrIn(src[i].key.value, pass.shared) && StrIn(src[i].val.v.name, pass.shared)
    modifies pass
    ensures pass.Valid() && Grew(old(pass.State()), pass.State()) && pass.pending == old(pass.pending)
    ensures res.Success? ==>
      PropLoop(src, |src|, res.value.0, res.value.1, size, old(pass.xlat), pass.origin, oldCe, ce, pass.loadComments)
    ensures res.Failure? ==>
      && !PropsResolve(LiveBuckets(src), oldCe, old(pass.xlat))
      && res.error == ClassLoadingError(ceName, FirstUnresolvedProp(LiveBuckets(src), oldCe, old(pass.xlat), 0))
  {
    ghost var s0 := pass.State();
    var data: seq<Bucket<PropertyInfo>> := [];
    var hash: seq<nat> := seq(size, _ => INVALID_IDX);
    var idx := 0;
    PropLoopStart(src, hash, size, s0.xlat, pass.origin, oldCe, ce, pass.loadComments);
    while idx < |src|
      invariant pass.Valid() && Grew(s0, pass.State()) && pass.pending == old(pass.pending)
      invariant PropLoop(src, idx, data, hash, size, s0.xlat, pass.origin, oldCe, ce, pass.loadComments)
      decreases |src| - idx
    {
      ghost var s1 := pass.State();
      CodeKeptAgree(s0, s1);
      var r := PropBucketStep(pass, src, idx, data, hash, size, s0.xlat, oldCe, ce, ceName);
      GrewTrans(s0, s1, pass.State());
      if r.Failure? {
        return Failure(r.error);
      }
      data, hash := r.value.0, r.value.1;
      idx := idx + 1;
    }
    res := Success((data, hash));
  }

  /** One iteration of the bucket loop of zend_hash_clone_prop_info. */
  method PropBucketStep(pass: ClonePass, src: seq<Bucket<PropertyInfo>>, idx: nat, data: seq<Bucket<PropertyInfo>>,
                        hash: seq<nat>, size: nat, ghost x0: map<XKey, Id>, oldCe: Id, ce: Id, ceName: seq<char>)
    returns (res: Result<(seq<Bucket<PropertyInfo>>, seq<nat>), LoadError>)
    requires pass.Valid() && idx < |src| <= size <= HASH_MAX_SIZE && ClassKept(x0, pass.xlat)
    requires IsLive(src[idx]) ==>
      src[idx].key.Some? && StrIn(src[idx].key.value, pass.shared) && StrIn(src[idx].val.v.name, pass.shared)
    requires PropLoop(src, idx, data, hash, size, x0, pass.origin, oldCe, ce, pass.loadComments)
    modifies pass
    ensures pass.Valid() && Grew(old(pass.State()), pass.State()) && pass.pending == old(pass.pending)
    ensures res.Success? ==>
      PropLoop(src, idx + 1, res.value.0, res.value.1, size, x0, pass.origin, oldCe, ce, pass.loadComments)
    ensures res.Failure? ==>
      && !PropsResolve(LiveBuckets(src), oldCe, x0)
      && res.error == ClassLoadingError(ceName, FirstUnresolvedProp(LiveBuckets(src), oldCe, x0, 0))
  {
    var p := src[idx];
    if !IsLive(p) {
      SparseSkip(src, idx);
      return Success((data, hash));
    }
    var nIndex := SlotOf(p.h, size);
    var next := hash[nIndex];
    var hash2 := hash[nIndex := |data|];
    ghost var s0 := pass.State();
    PropsCopiedResolve(LiveBuckets(src[..idx]), data, oldCe, ce, x0, pass.origin, pass.loadComments);
    var r := ClonePropElement(pass, p, next, oldCe, ce, ceName);
    PropKept(p.val.v, oldCe, ce, x0, s0.xlat, pass.origin, pass.loadComments, if r.Success? then r.value.val.v else p.val.v);
    if r.Failure? {
      PropFail(src, idx, oldCe, x0);
      return Failure(r.error);
    }
    var q := r.value;
    HeadInsertKeepsChains(data, hash, size, q);
    PropStep(src, idx, data, q, x0, s0.origin, pass.origin, oldCe, ce, pass.loadComments);
    res := Success((data + [q], hash2));
  }

  lemma PropLoopStart(src: seq<Bucket<PropertyInfo>>, hash: seq<nat>, size: nat,
                      x0: map<XKey, Id>, o: map<Id, Id>, oldCe: Id, ce: Id, loadComments: bool)
    requires 0 < size && hash == seq(size, _ => INVALID_IDX)
    ensures PropLoop(src, 0, [], hash, size, x0, o, oldCe, ce, loadComments)
  {
    assert src[..0] == [];
  }

  lemma PropLoopDone(src: seq<Bucket<PropertyInfo>>, idx: nat, data: seq<Bucket<PropertyInfo>>, hash: seq<nat>, size: nat,
                     x0: map<XKey, Id>, o: map<Id, Id>, oldCe: Id, ce: Id, loadComments: bool)
    requires idx == |src| && PropLoop(src, idx, data, hash, size, x0, o, oldCe, ce, loadComments)
    ensures PropsCopied(LiveBuckets(src), data, oldCe, ce, x0, o, loadComments) && ChainsOk(data, hash, size)
    ensures PropsResolve(LiveBuckets(src), oldCe, x0)
  {
    assert src[..idx] == src;
    PropsCopiedResolve(LiveBuckets(src), data, oldCe, ce, x0, o, loadComments);
  }

  /** Property copies depend only on the class translations, which data copies keep. */
  lemma PropKept(pi: PropertyInfo, oldCe: Id, ce: Id, x: map<XKey, Id>, y: map<XKey, Id>, o: map<Id, Id>,
                 loadComments: bool, pj: PropertyInfo)
    requires ClassKept(x, y)
    ensures PropCeOk(pi, oldCe, x) <==> PropCeOk(pi, oldCe, y)
    ensures PropCopied(pi, pj, oldCe, ce, x, o, loadComments) <==> PropCopied(pi, pj, oldCe, ce, y, o, loadComments)
  {
  }

  /** One live bucket of zend_hash_clone_prop_info: its key by zend_clone_str, then its property copied. */
  method ClonePropElement(pass: ClonePass, p: Bucket<PropertyInfo>, next: nat, oldCe: Id, ce: Id, ceName: seq<char>)
    returns (res: Result<Bucket<PropertyInfo>, LoadError>)
    requires pass.Valid() && IsLive(p) && p.key.Some? && StrIn(p.key.value, pass.shared) && StrIn(p.val.v.name, pass.shared)
    modifies pass
    ensures pass.Valid() && Grew(old(pass.State()), pass.State()) && pass.pending == old(pass.pending)
    ensures res.Success? <==> PropCeOk(p.val.v, oldCe, old(pass.xlat))
    ensures res.Success? ==>
      && IsLive(res.value) && res.value.h == p.h && res.value.next == next
      && KeyMatch(p.key, res.value.key, pass.origin)
      && PropCopied(p.val.v, res.value.val.v, oldCe, ce, old(pass.xlat), pass.origin, pass.loadComments)
    ensures res.Failure? ==> res.error == ClassLoadingError(ceName, Some(p.val.v.name.val))
  {
    ghost var s0 := pass.State();
    var key := pass.CloneStr(p.key.value);
    ghost var s1 := pass.State();
    var r := CopyProperty(pass, p.val.v, oldCe, ce, ceName);
    GrewTrans(s0, s1, pass.State());
    if r.Failure? {
      return Failure(r.error);
    }
    res := Success(Bucket(p.h, Some(key), Val(r.value), next));
  }

  /**
   * The copy of one property: its name by zend_clone_str, its doc comment
   * duplicated or dropped, its declaring class redirected.
   */
  method CopyProperty(pass: ClonePass, pi: PropertyInfo, oldCe: Id, ce: Id, ceName: seq<char>)
    returns (res: Result<PropertyInfo, LoadError>)
    requires pass.Valid() && StrIn(pi.name, pass.shared)
    modifies pass
    ensures pass.Valid() && Grew(old(pass.State()), pass.State()) && pass.pending == old(pass.pending)
    ensures res.Success? <==> PropCeOk(pi, oldCe, old(pass.xlat))
    ensures res.Success? ==> PropCopied(pi, res.value, oldCe, ce, old(pass.xlat), pass.origin, pass.loadComments)
    ensures res.Failure? ==> res.error == ClassLoadingError(ceName, Some(pi.name.val))
  {
    ghost var s0 := pass.State();
    var name := pass.CloneStr(pi.name);
    var pj := pi.(name := name);
    if pi.docComment.Some? {
      if pass.loadComments {
        ghost var s1 := pass.State();
        var d := pass.Dup(pi.docComment.value);
        GrewTrans(s0, s1, pass.State());
        pj := pj.(docComment := Some(d));
      } else {
        pj := pj.(docComment := None);
      }
    }
    if pi.ce == oldCe {
      pj := pj.(ce := ce);
    } else if ClassKey(pi.ce) in pass.xlat {
      pj := pj.(ce := pass.xlat[ClassKey(pi.ce)]);
    } else {
      return Failure(ClassLoadingError(ceName, Some(name.val)));
    }
    res := Success(pj);
  }

  // ---------------------------------------------------------------------
  // Lemmas
  // ---------------------------------------------------------------------

  /** A compacted member table with rebuilt chains is a well-formed table. */
  lemma CompactCopyValid<V>(t: HashTable<V>, t2: HashTable<V>)
    requires HashTables.Valid(t) && t.nTableMask != 0 && !t.packed
    requires HeaderCopied(t, t2) && !t2.packed && t2.nTableMask == t.nTableMask
    requires ChainsOk(t2.arData, t2.arHash, t2.nTableSize)
    requires |t2.arData| == CountLive(t.arData) && forall i :: 0 <= i < |t2.arData| ==> IsLive(t2.arData[i])
    ensures HashTables.Valid(t2)
  {
    CountLiveAllLive(t2.arData);
  }

  /** Which code keys `bind_hash` holds after a run of method copies. */
  lemma {:induction false} RegistrationsKeys(x0: map<XKey, Id>, live: seq<Bucket<OpArray>>, dst: seq<Bucket<OpArray>>)
    requires |live| == |dst| && forall i :: 0 <= i < |live| ==> IsLive(live[i]) && IsLive(dst[i])
    ensures forall k: XKey :: k.FuncKey? ==> (k in Registrations(x0, live, dst) <==> k in x0 || k in RegKeys(live))
    ensures ClassKept(x0, Registrations(x0, live, dst))
    decreases |live|
  {
    if live != [] {
      var n := |live| - 1;
      RegistrationsKeys(x0, live[..n], dst[..n]);
    }
  }

  /** The live buckets of a prefix are a prefix of the live buckets. */
  lemma {:induction false} LiveBucketsPrefix<V>(src: seq<Bucket<V>>, n: nat)
    requires n <= |src|
    ensures LiveBuckets(src[..n]) <= LiveBuckets(src)
    decreases |src|
  {
    if n < |src| {
      var pre := src[..|src| - 1];
      LiveBucketsPrefix(pre, n);
      assert pre[..n] == src[..n];
    } else {
      assert src[..n] == src;
    }
  }

  lemma StaticsCopiedMono(s: Option<HashTable<Zval>>, s2: Option<HashTable<Zval>>, o: map<Id, Id>, o2: map<Id, Id>, symtab: Id)
    requires StaticsCopied(s, s2, o, symtab) && OriginGrows(o, o2)
    ensures StaticsCopied(s, s2, o2, symtab)
  {
    if s.Some? {
      TableCopiedMono(s.value, s2.value, o, o2, symtab);
    }
  }

  lemma MethodCopiedMono(f: OpArray, g: OpArray, oldCe: Id, ce: Id, x: map<XKey, Id>, y: map<XKey, Id>,
                         o: map<Id, Id>, o2: map<Id, Id>, symtab: Id)
    requires MethodCopied(f, g, oldCe, ce, x, o, symtab) && OriginGrows(o, o2) && CodeAgree(x, y)
    ensures MethodCopied(f, g, oldCe, ce, y, o2, symtab)
  {
    StaticsCopiedMono(f.staticVars, g.staticVars, o, o2, symtab);
  }

  lemma MethodsCopiedMono(live: seq<Bucket<OpArray>>, dst: seq<Bucket<OpArray>>, oldCe: Id, ce: Id,
                          x0: map<XKey, Id>, o: map<Id, Id>, o2: map<Id, Id>, symtab: Id)
    requires MethodsCopied(live, dst, oldCe, ce, x0, o, symtab) && OriginGrows(o, o2)
    ensures MethodsCopied(live, dst, oldCe, ce, x0, o2, symtab)
  {
    forall i | 0 <= i < |dst|
      ensures MethodCopied(live[i].val.v, dst[i].val.v, oldCe, ce, Registrations(x0, live[..i + 1], dst[..i + 1]), o2, symtab)
    {
      var x := Registrations(x0, live[..i + 1], dst[..i + 1]);
      MethodCopiedMono(live[i].val.v, dst[i].val.v, oldCe, ce, x, x, o, o2, symtab);
    }
  }

  /** One more method copied: the table copy, the resolution and `bind_hash` all extend. */
  lemma MethodStep(src: seq<Bucket<OpArray>>, idx: nat, data: seq<Bucket<OpArray>>, q: Bucket<OpArray>,
                   x0: map<XKey, Id>, xcur: map<XKey, Id>, xnew: map<XKey, Id>,
                   o: map<Id, Id>, o2: map<Id, Id>, oldCe: Id, ce: Id, symtab: Id)
    requires idx < |src| && IsLive(src[idx]) && IsLive(q) && q.h == src[idx].h
    requires MethodsCopied(LiveBuckets(src[..idx]), data, oldCe, ce, x0, o, symtab) && OriginGrows(o, o2)
    requires MethodsResolve(LiveBuckets(src[..idx]), oldCe, x0)
    requires CodeAgree(xcur, Registrations(x0, LiveBuckets(src[..idx]), data))
    requires CodeAgree(xnew, Reg1(xcur, src[idx].val.v, q.val.v.id))
    requires KeyMatch(src[idx].key, q.key, o2)
    requires MethodCopied(src[idx].val.v, q.val.v, oldCe, ce, xnew, o2, symtab)
    ensures MethodsCopied(LiveBuckets(src[..idx + 1]), data + [q], oldCe, ce, x0, o2, symtab)
    ensures MethodsResolve(LiveBuckets(src[..idx + 1]), oldCe, x0)
    ensures CodeAgree(xnew, Registrations(x0, LiveBuckets(src[..idx + 1]), data + [q]))
    ensures CountLive(src[..idx + 1]) == CountLive(src[..idx]) + 1
  {
    assert src[..idx + 1][..idx] == src[..idx];
    var live := LiveBuckets(src[..idx]);
    var b := src[idx];
    var f := b.val.v;
    assert LiveBuckets(src[..idx + 1]) == live + [b];
    var xr := Registrations(x0, live, data);
    RegistrationsAppend(x0, live, data, b, q);
    Reg1Agree(xcur, xr, f, q.val.v.id);
    CodeAgreeTrans(xnew, Reg1(xcur, f, q.val.v.id), Reg1(xr, f, q.val.v.id));
    MethodsCopiedMono(live, data, oldCe, ce, x0, o, o2, symtab);
    MethodCopiedMono(f, q.val.v, oldCe, ce, xnew, Registrations(x0, live + [b], data + [q]), o2, o2, symtab);
    MethodsCopiedAppend(live, data, b, q, oldCe, ce, x0, o2, symtab);
    RegistrationsKeys(x0, live, data);
    RegKeysAppend(live, b);
    MethodsResolveAppend(live, b, oldCe, x0);
  }

  /** Copying data leaves the code translations as they were. */
  lemma CodeKeptAgree(s0: PassState, s1: PassState)
    requires CodeKept(s0, s1)
    ensures CodeAgree(s1.xlat, s0.xlat) && ClassKept(s0.xlat, s1.xlat)
  {
  }

  lemma KeyMatchMono(k: Option<ZStr>, k2: Option<ZStr>, o: map<Id, Id>, o2: map<Id, Id>)
    requires KeyMatch(k, k2, o) && OriginGrows(o, o2)
    ensures KeyMatch(k, k2, o2)
  {
  }

  lemma CodeAgreeTrans(a: map<XKey, Id>, b: map<XKey, Id>, c: map<XKey, Id>)
    requires CodeAgree(a, b) && CodeAgree(b, c)
    ensures CodeAgree(a, c)
  {
  }

  lemma ClassKeptAgree(x0: map<XKey, Id>, r: map<XKey, Id>, a: map<XKey, Id>)
    requires ClassKept(x0, r) && CodeAgree(a, r)
    ensures ClassKept(x0, a)
  {
  }

  lemma ClassKeptTrans(a: map<XKey, Id>, b: map<XKey, Id>, c: map<XKey, Id>)
    requires ClassKept(a, b) && ClassKept(b, c)
    ensures ClassKept(a, c)
  {
  }

  lemma Reg1Agree(a: map<XKey, Id>, b: map<XKey, Id>, f: OpArray, g: Id)
    requires CodeAgree(a, b)
    ensures CodeAgree(Reg1(a, f, g), Reg1(b, f, g))
  {
  }

  lemma RegistrationsAppend(x0: map<XKey, Id>, live: seq<Bucket<OpArray>>, dst: seq<Bucket<OpArray>>,
                            b: Bucket<OpArray>, q: Bucket<OpArray>)
    requires |live| == |dst| && IsLive(b) && IsLive(q)
    ensures Registrations(x0, live + [b], dst + [q]) == Reg1(Registrations(x0, live, dst), b.val.v, q.val.v.id)
  {
    assert (live + [b])[..|live|] == live;
    assert (dst + [q])[..|dst|] == dst;
  }

  lemma RegKeysAppend(live: seq<Bucket<OpArray>>, b: Bucket<OpArray>)
    requires IsLive(b)
    ensures RegKeys(live + [b]) == RegKeys(live) + (if b.val.v.refcount.Some? then {FuncKey(b.val.v.id)} else {})
  {
    assert (live + [b])[..|live|] == live;
  }

  lemma MethodsCopiedAppend(live: seq<Bucket<OpArray>>, dst: seq<Bucket<OpArray>>, b: Bucket<OpArray>, q: Bucket<OpArray>,
                            oldCe: Id, ce: Id, x0: map<XKey, Id>, o: map<Id, Id>, symtab: Id)
    requires MethodsCopied(live, dst, oldCe, ce, x0, o, symtab)
    requires IsLive(b) && IsLive(q) && q.h == b.h && KeyMatch(b.key, q.key, o)
    requires MethodCopied(b.val.v, q.val.v, oldCe, ce, Registrations(x0, live + [b], dst + [q]), o, symtab)
    ensures MethodsCopied(live + [b], dst + [q], oldCe, ce, x0, o, symtab)
  {
    var l2 := live + [b];
    var d2 := dst + [q];
    forall i | 0 <= i < |d2|
      ensures MethodCopied(l2[i].val.v, d2[i].val.v, oldCe, ce, Registrations(x0, l2[..i + 1], d2[..i + 1]), o, symtab)
    {
      if i < |live| {
        assert l2[..i + 1] == live[..i + 1];
        assert d2[..i + 1] == dst[..i + 1];
      } else {
        assert l2[..i + 1] == l2;
        assert d2[..i + 1] == d2;
      }
    }
  }

  lemma MethodsResolveAppend(live: seq<Bucket<OpArray>>, b: Bucket<OpArray>, oldCe: Id, x0: map<XKey, Id>)
    requires MethodsResolve(live, oldCe, x0) && IsLive(b)
    requires ScopeOk(b.val.v, oldCe, x0) && ProtoKnown(b.val.v, x0, live + [b])
    ensures MethodsResolve(live + [b], oldCe, x0)
  {
    var l2 := live + [b];
    forall i | 0 <= i < |l2| && IsLive(l2[i])
      ensures ScopeOk(l2[i].val.v, oldCe, x0) && ProtoKnown(l2[i].val.v, x0, l2[..i + 1])
    {
      if i < |live| {
        assert l2[..i + 1] == live[..i + 1];
      } else {
        assert l2[..i + 1] == l2;
      }
    }
  }

  /** `Resolves` is the scope and prototype check made after the method's own registration. */
  lemma ResolvesAfterRegistration(f: OpArray, oldCe: Id, x0: map<XKey, Id>, x: map<XKey, Id>, g: Id)
    requires CodeAgree(x, Reg1(x0, f, g))
    ensures Resolves(f, oldCe, x0) <==> ScopeOk(f, oldCe, x) && ProtoOk(f, x)
    ensures ClassKept(x0, x)
  {
  }

  /** A method that finds no scope or prototype translation makes the whole table unresolvable. */
  lemma MethodFail(src: seq<Bucket<OpArray>>, idx: nat, data: seq<Bucket<OpArray>>,
                   x0: map<XKey, Id>, xcur: map<XKey, Id>, oldCe: Id)
    requires idx < |src| && IsLive(src[idx])
    requires |data| == CountLive(src[..idx]) && forall i :: 0 <= i < |data| ==> IsLive(data[i])
    requires CodeAgree(xcur, Registrations(x0, LiveBuckets(src[..idx]), data))
    requires !Resolves(src[idx].val.v, oldCe, xcur)
    requires MethodsResolve(LiveBuckets(src[..idx]), oldCe, x0)
    ensures !MethodsResolve(LiveBuckets(src), oldCe, x0)
    ensures FirstUnresolvedMethod(LiveBuckets(src), oldCe, x0, 0) == Some(FunctionName(src[idx].val.v))
  {
    UnresolvedMethod(LiveBuckets(src[..idx]), data, src[idx], x0, xcur, oldCe);
    FirstUnresolvedMethodNext(src, idx, oldCe, x0);
  }

  /** The first live method after a resolving prefix that does not resolve is the one named. */
  lemma FirstUnresolvedMethodNext(src: seq<Bucket<OpArray>>, idx: nat, oldCe: Id, x0: map<XKey, Id>)
    requires idx < |src| && IsLive(src[idx])
    requires MethodsResolve(LiveBuckets(src[..idx]), oldCe, x0)
    requires !(ScopeOk(src[idx].val.v, oldCe, x0) && ProtoKnown(src[idx].val.v, x0, LiveBuckets(src[..idx]) + [src[idx]]))
    ensures !MethodsResolve(LiveBuckets(src), oldCe, x0)
    ensures FirstUnresolvedMethod(LiveBuckets(src), oldCe, x0, 0) == Some(FunctionName(src[idx].val.v))
  {
    var live := LiveBuckets(src[..idx]);
    var all := LiveBuckets(src);
    LiveNext(src, idx);
    assert all[|live|] == (live + [src[idx]])[|live|];
    MethodsResolveWithin(live, all, oldCe, x0);
    FirstUnresolvedMethodAt(all, |live|, oldCe, x0, 0);
    FirstUnresolvedMethodNone(all, oldCe, x0, 0);
  }

  /** The live bucket at `idx` follows the live buckets before it. */
  lemma LiveNext<V>(src: seq<Bucket<V>>, idx: nat)
    requires idx < |src| && IsLive(src[idx])
    ensures |LiveBuckets(src[..idx])| < |LiveBuckets(src)|
    ensures LiveBuckets(src)[..|LiveBuckets(src[..idx])| + 1] == LiveBuckets(src[..idx]) + [src[idx]]
  {
    assert src[..idx + 1][..idx] == src[..idx];
    assert LiveBuckets(src[..idx + 1]) == LiveBuckets(src[..idx]) + [src[idx]];
    LiveBucketsPrefix(src, idx + 1);
  }

  /** Methods that resolve keep resolving inside a longer table that begins with them. */
  lemma MethodsResolveWithin(live: seq<Bucket<OpArray>>, all: seq<Bucket<OpArray>>, oldCe: Id, x0: map<XKey, Id>)
    requires |live| < |all| && all[..|live| + 1][..|live|] == live && MethodsResolve(live, oldCe, x0)
    ensures forall i :: 0 <= i < |live| && IsLive(all[i]) ==>
      ScopeOk(all[i].val.v, oldCe, x0) && ProtoKnown(all[i].val.v, x0, all[..i + 1])
  {
    forall i | 0 <= i < |live| && IsLive(all[i])
      ensures ScopeOk(all[i].val.v, oldCe, x0) && ProtoKnown(all[i].val.v, x0, all[..i + 1])
    {
      assert all[i] == live[i];
      assert all[..i + 1] == live[..i + 1];
    }
  }

  /** The method after `live` that misses a translation misses it against `bind_hash` on entry too. */
  lemma UnresolvedMethod(live: seq<Bucket<OpArray>>, data: seq<Bucket<OpArray>>, b: Bucket<OpArray>,
                         x0: map<XKey, Id>, xcur: map<XKey, Id>, oldCe: Id)
    requires IsLive(b) && |live| == |data| && forall i :: 0 <= i < |live| ==> IsLive(live[i]) && IsLive(data[i])
    requires CodeAgree(xcur, Registrations(x0, live, data))
    requires !Resolves(b.val.v, oldCe, xcur)
    ensures !(ScopeOk(b.val.v, oldCe, x0) && ProtoKnown(b.val.v, x0, live + [b]))
  {
    RegistrationsKeys(x0, live, data);
    RegKeysAppend(live, b);
  }

  lemma PropStep(src: seq<Bucket<PropertyInfo>>, idx: nat, data: seq<Bucket<PropertyInfo>>, q: Bucket<PropertyInfo>,
                 x: map<XKey, Id>, o: map<Id, Id>, o2: map<Id, Id>, oldCe: Id, ce: Id, loadComments: bool)
    requires idx < |src| && IsLive(src[idx]) && IsLive(q) && q.h == src[idx].h
    requires PropsCopied(LiveBuckets(src[..idx]), data, oldCe, ce, x, o, loadComments) && OriginGrows(o, o2)
    requires KeyMatch(src[idx].key, q.key, o2)
    requires PropCopied(src[idx].val.v, q.val.v, oldCe, ce, x, o2, loadComments)
    ensures PropsCopied(LiveBuckets(src[..idx + 1]), data + [q], oldCe, ce, x, o2, loadComments)
    ensures CountLive(src[..idx + 1]) == CountLive(src[..idx]) + 1
  {
    assert src[..idx + 1][..idx] == src[..idx];
  }

  lemma PropsCopiedResolve(live: seq<Bucket<PropertyInfo>>, dst: seq<Bucket<PropertyInfo>>, oldCe: Id, ce: Id,
                            x: map<XKey, Id>, o: map<Id, Id>, loadComments: bool)
    requires PropsCopied(live, dst, oldCe, ce, x, o, loadComments)
    ensures PropsResolve(live, oldCe, x)
  {
    forall i | 0 <= i < |live| && IsLive(live[i])
      ensures PropCeOk(live[i].val.v, oldCe, x)
    {
      assert PropCopied(live[i].val.v, dst[i].val.v, oldCe, ce, x, o, loadComments);
    }
  }

  lemma PropFail(src: seq<Bucket<PropertyInfo>>, idx: nat, oldCe: Id, x: map<XKey, Id>)
    requires idx < |src| && IsLive(src[idx]) && !PropCeOk(src[idx].val.v, oldCe, x)
    requires PropsResolve(LiveBuckets(src[..idx]), oldCe, x)
    ensures !PropsResolve(LiveBuckets(src), oldCe, x)
    ensures FirstUnresolvedProp(LiveBuckets(src), oldCe, x, 0) == Some(src[idx].val.v.name.val)
  {
    var live := LiveBuckets(src[..idx]);
    var all := LiveBuckets(src);
    LiveNext(src, idx);
    var m := |live|;
    assert all[m] == (live + [src[idx]])[m];
    forall i | 0 <= i < m && IsLive(all[i])
      ensures PropCeOk(all[i].val.v, oldCe, x)
    {
      assert all[i] == (live + [src[idx]])[i];
    }
    FirstUnresolvedPropAt(all, m, oldCe, x, 0);
    FirstUnresolvedPropNone(all, oldCe, x, 0);
  }

  // ---------------------------------------------------------------------
  // The member a class loading error names
  // ---------------------------------------------------------------------

  /** Some method is named exactly when not every method resolves. */
  lemma {:induction false} FirstUnresolvedMethodNone(live: seq<Bucket<OpArray>>, oldCe: Id, x0: map<XKey, Id>, from: nat)
    ensures FirstUnresolvedMethod(live, oldCe, x0, from).None? <==>
      forall i :: from <= i < |live| && IsLive(live[i]) ==>
        ScopeOk(live[i].val.v, oldCe, x0) && ProtoKnown(live[i].val.v, x0, live[..i + 1])
    decreases |live| - from
  {
    if from < |live| {
      FirstUnresolvedMethodNone(live, oldCe, x0, from + 1);
    }
  }

  /** The method named is the first one, in table order, that does not resolve. */
  lemma {:induction false} FirstUnresolvedMethodAt(live: seq<Bucket<OpArray>>, k: nat, oldCe: Id, x0: map<XKey, Id>, from: nat)
    requires from <= k < |live| && IsLive(live[k])
    requires !(ScopeOk(live[k].val.v, oldCe, x0) && ProtoKnown(live[k].val.v, x0, live[..k + 1]))
    requires forall i :: from <= i < k && IsLive(live[i]) ==>
      ScopeOk(live[i].val.v, oldCe, x0) && ProtoKnown(live[i].val.v, x0, live[..i + 1])
    ensures FirstUnresolvedMethod(live, oldCe, x0, from) == Some(FunctionName(live[k].val.v))
    decreases k - from
  {
    if from < k {
      FirstUnresolvedMethodAt(live, k, oldCe, x0, from + 1);
    }
  }

  /** Only class and code translations decide which method is named. */
  lemma {:induction false} FirstUnresolvedMethodAgree(live: seq<Bucket<OpArray>>, oldCe: Id, x: map<XKey, Id>,
                                                      y: map<XKey, Id>, from: nat)
    requires CodeAgree(x, y)
    ensures FirstUnresolvedMethod(live, oldCe, x, from) == FirstUnresolvedMethod(live, oldCe, y, from)
    decreases |live| - from
  {
    if from < |live| {
      if IsLive(live[from]) {
        var f := live[from].val.v;
        if f.scope.Some? {
          assert ClassKey(f.scope.value) in x <==> ClassKey(f.scope.value) in y;
        }
        if f.prototype.Some? {
          assert FuncKey(f.prototype.value) in x <==> FuncKey(f.prototype.value) in y;
        }
      }
      FirstUnresolvedMethodAgree(live, oldCe, x, y, from + 1);
    }
  }

  /** Some property is named exactly when not every property resolves. */
  lemma {:induction false} FirstUnresolvedPropNone(live: seq<Bucket<PropertyInfo>>, oldCe: Id, x: map<XKey, Id>, from: nat)
    ensures FirstUnresolvedProp(live, oldCe, x, from).None? <==>
      forall i :: from <= i < |live| && IsLive(live[i]) ==> PropCeOk(live[i].val.v, oldCe, x)
    decreases |live| - from
  {
    if from < |live| {
      FirstUnresolvedPropNone(live, oldCe, x, from + 1);
    }
  }

  /** The property named is the first one, in table order, that does not resolve. */
  lemma {:induction false} FirstUnresolvedPropAt(live: seq<Bucket<PropertyInfo>>, k: nat, oldCe: Id, x: map<XKey, Id>, from: nat)
    requires from <= k < |live| && IsLive(live[k]) && !PropCeOk(live[k].val.v, oldCe, x)
    requires forall i :: from <= i < k && IsLive(live[i]) ==> PropCeOk(live[i].val.v, oldCe, x)
    ensures FirstUnresolvedProp(live, oldCe, x, from) == Some(live[k].val.v.name.val)
    decreases k - from
  {
    if from < k {
      FirstUnresolvedPropAt(live, k, oldCe, x, from + 1);
    }
  }

  /** Only class translations decide which property is named. */
  lemma {:induction false} FirstUnresolvedPropKept(live: seq<Bucket<PropertyInfo>>, oldCe: Id, x: map<XKey, Id>,
                                                   x2: map<XKey, Id>, from: nat)
    requires ClassKept(x, x2)
    ensures FirstUnresolvedProp(live, oldCe, x, from) == FirstUnresolvedProp(live, oldCe, x2, from)
    decreases |live| - from
  {
    if from < |live| {
      if IsLive(live[from]) {
        assert ClassKey(live[from].val.v.ce) in x <==> ClassKey(live[from].val.v.ce) in x2;
      }
      FirstUnresolvedPropKept(live, oldCe, x, x2, from + 1);
    }
  }
}
