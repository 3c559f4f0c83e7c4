// Merging a script's functions and classes into the engine's tables:
// zend_accel_function_hash_copy, zend_accel_class_hash_copy,
// zend_accel_move_user_functions and zend_accel_free_user_functions
// (ext/opcache/zend_accelerator_util_funcs.c).

module SymbolMerge {
  import opened Wrappers
  import opened ZendValues
  import opened HashTables
  import opened ZendEntities
  import opened SymbolTables
  import opened CloneEngine
  import opened MemberCopy
  import opened ClassCopy

  /**
   * A mangled key starts with a NUL byte: the run-time key of a function
   * or class declared conditionally, which is bound later at run time.
   */
  predicate MangledKey(k: Key) {
    k.StrKey? && |k.s| > 0 && k.s[0] == 0 as char
  }

  function ErrorOf<T>(r: Result<T, LoadError>): Option<LoadError> {
    if r.Success? then None else Some(r.error)
  }

  // ---------------------------------------------------------------------
  // Functions: the specification of zend_accel_function_hash_copy
  // ---------------------------------------------------------------------

  /**
   * "Cannot redeclare f()", naming where `g` was declared when `g` is a
   * user function with code.
   */
  function Redeclared(f: OpArray, g: OpArray): LoadError {
    FunctionRedeclared(FunctionName(f),
      if g.fnType == ZEND_USER_FUNCTION && g.last > 0 then Some((g.filename, g.firstLine)) else None)
  }

  /** Whether function `f` under `k` is stored into a table holding the keys of `t`. */
  predicate FunctionStored<V>(t: seq<(Key, V)>, k: Key, f: OpArray) {
    k !in Keys(t) || (MangledKey(k) && f.isClosure)
  }

  /** Whether function entry `e` collides with `t` in a way that ends loading. */
  predicate FunctionClash<V>(t: seq<(Key, V)>, e: (Key, OpArray)) {
    e.0 in Keys(t) && !MangledKey(e.0)
  }

  /**
   * One source function `f` under key `k`, stored as `v` (the function
   * itself, or its copy prepared for execution): added when the key is
   * new; on a mangled key, a closure replaces the entry and anything else
   * is left for run time; any other collision is a redeclaration.
   */
  function FunctionStep(t: seq<(Key, OpArray)>, k: Key, f: OpArray, v: OpArray): Result<seq<(Key, OpArray)>, LoadError> {
    if k !in Keys(t) then Success(t + [(k, v)])
    else if MangledKey(k) then (if f.isClosure then Success(Replace(t, k, v)) else Success(t))
    else Failure(Redeclared(f, Lookup(t, k).value))
  }

  /** The source functions `src` merged into `t` in order, `vals[i]` stored for `src[i]`. */
  function MergeFunctions(t: seq<(Key, OpArray)>, src: seq<(Key, OpArray)>, vals: seq<OpArray>): Result<seq<(Key, OpArray)>, LoadError>
    requires |vals| == |src|
    decreases |src|
  {
    if src == [] then Success(t)
    else
      var n := |src| - 1;
      match MergeFunctions(t, src[..n], vals[..n])
      case Failure(e) => Failure(e)
      case Success(t1) => FunctionStep(t1, src[n].0, src[n].1, vals[n])
  }

  lemma MergeFunctionsSnoc(t: seq<(Key, OpArray)>, src: seq<(Key, OpArray)>, vals: seq<OpArray>, e: (Key, OpArray), v: OpArray)
    requires |vals| == |src|
    ensures MergeFunctions(t, src + [e], vals + [v]) ==
      match MergeFunctions(t, src, vals)
      case Failure(err) => Failure(err)
      case Success(t1) => FunctionStep(t1, e.0, e.1, v)
  {
    assert (src + [e])[..|src|] == src;
    assert (vals + [v])[..|vals|] == vals;
  }

  /** Once a merge has failed, merging more entries reports the same error. */
  lemma {:induction false} MergeFunctionsFailureSticks(t: seq<(Key, OpArray)>, src: seq<(Key, OpArray)>, vals: seq<OpArray>,
                                                       more: seq<(Key, OpArray)>, moreVals: seq<OpArray>)
    requires |vals| == |src| && |moreVals| == |more| && MergeFunctions(t, src, vals).Failure?
    ensures MergeFunctions(t, src + more, vals + moreVals) == MergeFunctions(t, src, vals)
    decreases |more|
  {
    if more == [] {
      assert src + more == src && vals + moreVals == vals;
    } else {
      var n := |more| - 1;
      MergeFunctionsFailureSticks(t, src, vals, more[..n], moreVals[..n]);
      assert (src + more)[..|src| + n] == src + more[..n];
      assert (vals + moreVals)[..|vals| + n] == vals + moreVals[..n];
    }
  }

  /** What one successful step does to the table. */
  lemma FunctionStepFacts(t: seq<(Key, OpArray)>, k: Key, f: OpArray, v: OpArray)
    requires Distinct(t) && FunctionStep(t, k, f, v).Success?
    ensures var r := FunctionStep(t, k, f, v).value;
      && Distinct(r)
      && Keys(r) == Keys(t) + {k}
      && |t| <= |r|
      && (forall i :: 0 <= i < |t| ==> r[i].0 == t[i].0 && (r[i] == t[i] || MangledKey(t[i].0)))
  {
    if k !in Keys(t) {
      KeysSnoc(t, (k, v));
      DistinctSnoc(t, (k, v));
    } else if MangledKey(k) && f.isClosure {
      ReplaceKeys(t, k, v);
    }
  }

  lemma FunctionStepLookup(t: seq<(Key, OpArray)>, k: Key, f: OpArray, v: OpArray, k2: Key)
    requires FunctionStep(t, k, f, v).Success?
    ensures Lookup(FunctionStep(t, k, f, v).value, k2) == if k2 == k && FunctionStored(t, k, f) then Some(v) else Lookup(t, k2)
  {
    if k !in Keys(t) {
      LookupSnoc(t, (k, v), k2);
    } else if MangledKey(k) && f.isClosure {
      ReplaceLookup(t, k, v, k2);
    }
  }

  /** A merge that succeeds holds the keys of both tables, each once. */
  lemma {:induction false} MergeFunctionsKeys(t: seq<(Key, OpArray)>, src: seq<(Key, OpArray)>, vals: seq<OpArray>)
    requires Distinct(t) && |vals| == |src| && MergeFunctions(t, src, vals).Success?
    ensures Distinct(MergeFunctions(t, src, vals).value)
    ensures Keys(MergeFunctions(t, src, vals).value) == Keys(t) + Keys(src)
    decreases |src|
  {
    if src != [] {
      var n := |src| - 1;
      MergeFunctionsKeys(t, src[..n], vals[..n]);
      FunctionStepFacts(MergeFunctions(t, src[..n], vals[..n]).value, src[n].0, src[n].1, vals[n]);
    }
  }

  /**
   * A merge that succeeds: an entry of `src` is found with its stored
   * value when it was stored and with its old value otherwise, and every
   * other key keeps its value.
   */
  lemma {:induction false} MergeFunctionsLookup(t: seq<(Key, OpArray)>, src: seq<(Key, OpArray)>, vals: seq<OpArray>)
    requires Distinct(t) && Distinct(src) && |vals| == |src|
    requires MergeFunctions(t, src, vals).Success?
    ensures var r := MergeFunctions(t, src, vals).value;
      && (forall i :: 0 <= i < |src| ==>
            Lookup(r, src[i].0) == if FunctionStored(t, src[i].0, src[i].1) then Some(vals[i]) else Lookup(t, src[i].0))
      && (forall k :: k !in Keys(src) ==> Lookup(r, k) == Lookup(t, k))
    decreases |src|
  {
    if src != [] {
      var n := |src| - 1;
      var e := src[n];
      DistinctFront(src);
      MergeFunctionsLookup(t, src[..n], vals[..n]);
      MergeFunctionsKeys(t, src[..n], vals[..n]);
      var r1 := MergeFunctions(t, src[..n], vals[..n]).value;
      var r := MergeFunctions(t, src, vals).value;
      assert e.0 in Keys(r1) <==> e.0 in Keys(t);
      forall i | 0 <= i < |src|
        ensures Lookup(r, src[i].0) == if FunctionStored(t, src[i].0, src[i].1) then Some(vals[i]) else Lookup(t, src[i].0)
      {
        FunctionStepLookup(r1, e.0, e.1, vals[n], src[i].0);
        if i < n {
          assert src[i] == src[..n][i] && vals[i] == vals[..n][i];
        }
      }
      forall k | k !in Keys(src)
        ensures Lookup(r, k) == Lookup(t, k)
      {
        FunctionStepLookup(r1, e.0, e.1, vals[n], k);
      }
    }
  }

  /**
   * A merge that succeeds keeps the old entries in their places, only
   * those under a mangled key possibly getting a new value.
   */
  lemma {:induction false} MergeFunctionsPlaces(t: seq<(Key, OpArray)>, src: seq<(Key, OpArray)>, vals: seq<OpArray>)
    requires Distinct(t) && |vals| == |src| && MergeFunctions(t, src, vals).Success?
    ensures var r := MergeFunctions(t, src, vals).value;
      && |t| <= |r|
      && (forall i :: 0 <= i < |t| ==> r[i].0 == t[i].0 && (r[i] == t[i] || MangledKey(t[i].0)))
    decreases |src|
  {
    if src != [] {
      var n := |src| - 1;
      MergeFunctionsPlaces(t, src[..n], vals[..n]);
      MergeFunctionsKeys(t, src[..n], vals[..n]);
      FunctionStepFacts(MergeFunctions(t, src[..n], vals[..n]).value, src[n].0, src[n].1, vals[n]);
    }
  }

  /**
   * A merge fails exactly when an entry of `src` collides, under a key
   * that is not mangled, with an entry of `t`; the error names the first
   * such entry and the function it collides with.
   */
  lemma MergeFunctionsOutcome(t: seq<(Key, OpArray)>, src: seq<(Key, OpArray)>, vals: seq<OpArray>)
    requires Distinct(t) && Distinct(src) && |vals| == |src|
    ensures MergeFunctions(t, src, vals).Success? <==> forall i :: 0 <= i < |src| ==> !FunctionClash(t, src[i])
    ensures MergeFunctions(t, src, vals).Failure? ==>
      exists i :: 0 <= i < |src| && FunctionClash(t, src[i]) && (forall j :: 0 <= j < i ==> !FunctionClash(t, src[j]))
        && MergeFunctions(t, src, vals).error == Redeclared(src[i].1, Lookup(t, src[i].0).value)
  {
    MergeFunctionsPrefixOutcome(t, src, vals, |src|);
    assert src[..|src|] == src && vals[..|vals|] == vals;
  }

  /** MergeFunctionsOutcome for the first `n` functions, by induction on `n`. */
  lemma {:induction false} MergeFunctionsPrefixOutcome(t: seq<(Key, OpArray)>, src: seq<(Key, OpArray)>, vals: seq<OpArray>, n: nat)
    requires Distinct(t) && Distinct(src) && |vals| == |src| && n <= |src|
    ensures MergeFunctions(t, src[..n], vals[..n]).Success? <==> forall i :: 0 <= i < n ==> !FunctionClash(t, src[i])
    ensures MergeFunctions(t, src[..n], vals[..n]).Failure? ==>
      exists i :: 0 <= i < n && FunctionClash(t, src[i]) && (forall j :: 0 <= j < i ==> !FunctionClash(t, src[j]))
        && MergeFunctions(t, src[..n], vals[..n]).error == Redeclared(src[i].1, Lookup(t, src[i].0).value)
    decreases n
  {
    if n > 0 {
      var m := n - 1;
      var e := src[m];
      MergeFunctionsPrefixOutcome(t, src, vals, m);
      assert src[..n][..m] == src[..m] && vals[..n][..m] == vals[..m];
      var m1 := MergeFunctions(t, src[..m], vals[..m]);
      if m1.Success? {
        assert Distinct(src[..n]);
        DistinctFront(src[..n]);
        MergeFunctionsKeys(t, src[..m], vals[..m]);
        assert e.0 in Keys(m1.value) <==> e.0 in Keys(t);
        if FunctionClash(t, e) {
          MergeFunctionsLookup(t, src[..m], vals[..m]);
          assert Lookup(m1.value, e.0) == Lookup(t, e.0);
        }
      }
    }
  }

  // ---------------------------------------------------------------------
  // Classes: the specification of zend_accel_class_hash_copy
  // ---------------------------------------------------------------------

  /**
   * One source class `c` under key `k`, with `copy` the outcome of the
   * copy constructor (or `c` itself when there is none): added when the
   * key is new, unless the copy failed; a collision under a mangled key,
   * or any collision when duplicates are ignored, leaves the table as it
   * is; any other collision is a redeclaration.
   */
  function ClassStep(t: seq<(Key, ClassEntry)>, k: Key, c: ClassEntry, copy: Result<ClassEntry, LoadError>,
                     ignoreDups: bool): Result<seq<(Key, ClassEntry)>, LoadError> {
    if k !in Keys(t) then
      (if copy.Success? then Success(t + [(k, copy.value)]) else Failure(copy.error))
    else if MangledKey(k) || ignoreDups then Success(t)
    else Failure(ClassRedeclared(c.name.val))
  }

  /**
   * The step as written: with duplicates ignored, a collision under a key
   * that is not mangled falls through to the copy constructor with the
   * NULL result of the failed insertion.
   */
  function ClassStepAsWritten(t: seq<(Key, ClassEntry)>, k: Key, c: ClassEntry, copy: Result<ClassEntry, LoadError>,
                              ignoreDups: bool, ctor: bool): Result<seq<(Key, ClassEntry)>, LoadError> {
    if k !in Keys(t) then
      (if copy.Success? then Success(t + [(k, copy.value)]) else Failure(copy.error))
    else if MangledKey(k) then Success(t)
    else if !ignoreDups then Failure(ClassRedeclared(c.name.val))
    else if ctor then Failure(NullPointerDereference)
    else Success(t)
  }

  /** The two steps part ways exactly on an ignored duplicate copied by a constructor. */
  lemma ClassStepAsWrittenDeparts(t: seq<(Key, ClassEntry)>, k: Key, c: ClassEntry, copy: Result<ClassEntry, LoadError>,
                                  ignoreDups: bool, ctor: bool)
    ensures ClassStepAsWritten(t, k, c, copy, ignoreDups, ctor) != ClassStep(t, k, c, copy, ignoreDups)
      <==> ctor && ignoreDups && k in Keys(t) && !MangledKey(k)
    ensures ctor && ignoreDups && k in Keys(t) && !MangledKey(k) ==>
      ClassStepAsWritten(t, k, c, copy, ignoreDups, ctor) == Failure(NullPointerDereference)
      && ClassStep(t, k, c, copy, ignoreDups) == Success(t)
  {
  }

  /** A script declaring class `a` loaded from shared memory into a table that already has `a`. */
  lemma IgnoredDuplicateDereferencesNull(c: ClassEntry)
    requires c.name.val == "a"
    ensures var t := [(StrKey("a"), c)];
      && ClassStepAsWritten(t, StrKey("a"), c, Success(c), true, true) == Failure(NullPointerDereference)
      && ClassStep(t, StrKey("a"), c, Success(c), true) == Success(t)
  {
    var t := [(StrKey("a"), c)];
    assert t[..0] == [];
    assert StrKey("a") in Keys(t);
  }

  /** Whether class entry `e` with copy outcome `copy` can be merged into a table holding the keys of `t`. */
  predicate ClassMerges<V>(t: seq<(Key, V)>, e: (Key, ClassEntry), copy: Result<ClassEntry, LoadError>, ignoreDups: bool) {
    if e.0 in Keys(t) then MangledKey(e.0) || ignoreDups else copy.Success?
  }

  /** The error class entry `e` reports when it cannot be merged. */
  function ClassError<V>(t: seq<(Key, V)>, e: (Key, ClassEntry), copy: Result<ClassEntry, LoadError>): LoadError {
    if e.0 in Keys(t) || copy.Success? then ClassRedeclared(e.1.name.val) else copy.error
  }

  /** The source classes `src` merged into `t` in order, `copies[i]` the copy of `src[i]`. */
  function MergeClasses(t: seq<(Key, ClassEntry)>, src: seq<(Key, ClassEntry)>, copies: seq<Result<ClassEntry, LoadError>>,
                        ignoreDups: bool): Result<seq<(Key, ClassEntry)>, LoadError>
    requires |copies| == |src|
    decreases |src|
  {
    if src == [] then Success(t)
    else
      var n := |src| - 1;
      match MergeClasses(t, src[..n], copies[..n], ignoreDups)
      case Failure(e) => Failure(e)
      case Success(t1) => ClassStep(t1, src[n].0, src[n].1, copies[n], ignoreDups)
  }

  lemma MergeClassesSnoc(t: seq<(Key, ClassEntry)>, src: seq<(Key, ClassEntry)>, copies: seq<Result<ClassEntry, LoadError>>,
                         e: (Key, ClassEntry), copy: Result<ClassEntry, LoadError>, ignoreDups: bool)
    requires |copies| == |src|
    ensures MergeClasses(t, src + [e], copies + [copy], ignoreDups) ==
      match MergeClasses(t, src, copies, ignoreDups)
      case Failure(err) => Failure(err)
      case Success(t1) => ClassStep(t1, e.0, e.1, copy, ignoreDups)
  {
    assert (src + [e])[..|src|] == src;
    assert (copies + [copy])[..|copies|] == copies;
  }

  lemma {:induction false} MergeClassesFailureSticks(t: seq<(Key, ClassEntry)>, src: seq<(Key, ClassEntry)>,
                                                     copies: seq<Result<ClassEntry, LoadError>>, ignoreDups: bool,
                                                     more: seq<(Key, ClassEntry)>, moreCopies: seq<Result<ClassEntry, LoadError>>)
    requires |copies| == |src| && |moreCopies| == |more| && MergeClasses(t, src, copies, ignoreDups).Failure?
    ensures MergeClasses(t, src + more, copies + moreCopies, ignoreDups) == MergeClasses(t, src, copies, ignoreDups)
    decreases |more|
  {
    if more == [] {
      assert src + more == src && copies + moreCopies == copies;
    } else {
      var n := |more| - 1;
      MergeClassesFailureSticks(t, src, copies, ignoreDups, more[..n], moreCopies[..n]);
      assert (src + more)[..|src| + n] == src + more[..n];
      assert (copies + moreCopies)[..|copies| + n] == copies + moreCopies[..n];
    }
  }

  /** The keys after a class merge that succeeds: those of `t` and `src`, none twice. */
  lemma {:induction false} MergeClassesKeys(t: seq<(Key, ClassEntry)>, src: seq<(Key, ClassEntry)>,
                                            copies: seq<Result<ClassEntry, LoadError>>, ignoreDups: bool)
    requires Distinct(t) && Distinct(src) && |copies| == |src|
    requires MergeClasses(t, src, copies, ignoreDups).Success?
    ensures Distinct(MergeClasses(t, src, copies, ignoreDups).value)
    ensures Keys(MergeClasses(t, src, copies, ignoreDups).value) == Keys(t) + Keys(src)
    decreases |src|
  {
    if src != [] {
      var n := |src| - 1;
      var e := src[n];
      DistinctFront(src);
      MergeClassesKeys(t, src[..n], copies[..n], ignoreDups);
      var r1 := MergeClasses(t, src[..n], copies[..n], ignoreDups).value;
      if e.0 !in Keys(r1) {
        KeysSnoc(r1, (e.0, copies[n].value));
        DistinctSnoc(r1, (e.0, copies[n].value));
      }
    }
  }

  /**
   * A class merge that succeeds: the old entries are kept as they are, in
   * their places, and every class of `src` whose key was new is present
   * with its copy; every other key keeps its value.
   */
  lemma {:induction false} MergeClassesSuccess(t: seq<(Key, ClassEntry)>, src: seq<(Key, ClassEntry)>,
                                               copies: seq<Result<ClassEntry, LoadError>>, ignoreDups: bool)
    requires Distinct(t) && Distinct(src) && |copies| == |src|
    requires MergeClasses(t, src, copies, ignoreDups).Success?
    ensures var r := MergeClasses(t, src, copies, ignoreDups).value;
      && Distinct(r)
      && Keys(r) == Keys(t) + Keys(src)
      && |t| <= |r| && r[..|t|] == t
      && (forall i :: 0 <= i < |src| && src[i].0 !in Keys(t) ==>
            copies[i].Success? && Lookup(r, src[i].0) == Some(copies[i].value))
      && (forall k :: k in Keys(t) ==> Lookup(r, k) == Lookup(t, k))
    decreases |src|
  {
    if src != [] {
      var n := |src| - 1;
      var e := src[n];
      DistinctFront(src);
      MergeClassesSuccess(t, src[..n], copies[..n], ignoreDups);
      var r1 := MergeClasses(t, src[..n], copies[..n], ignoreDups).value;
      var r := MergeClasses(t, src, copies, ignoreDups).value;
      ClassStepSuccess(t, r1, e.0, e.1, copies[n], ignoreDups);
      assert src == src[..n] + [e];
      KeysSnoc(src[..n], e);
      forall i | 0 <= i < |src| && src[i].0 !in Keys(t)
        ensures copies[i].Success? && Lookup(r, src[i].0) == Some(copies[i].value)
      {
        if i < n {
          assert src[i] == src[..n][i] && copies[i] == copies[..n][i];
        }
      }
    }
  }

  /** One class step that succeeds keeps `t` as the prefix, adds its key, and changes no other lookup. */
  lemma ClassStepSuccess(t: seq<(Key, ClassEntry)>, r1: seq<(Key, ClassEntry)>, k: Key, c: ClassEntry,
                         copy: Result<ClassEntry, LoadError>, ignoreDups: bool)
    requires Distinct(r1) && |t| <= |r1| && r1[..|t|] == t
    requires ClassStep(r1, k, c, copy, ignoreDups).Success?
    ensures var r := ClassStep(r1, k, c, copy, ignoreDups).value;
      && Distinct(r) && Keys(r) == Keys(r1) + {k}
      && |t| <= |r| && r[..|t|] == t
      && (k !in Keys(r1) ==> copy.Success? && Lookup(r, k) == Some(copy.value))
      && (forall k' :: k' in Keys(r1) ==> Lookup(r, k') == Lookup(r1, k'))
  {
    if k !in Keys(r1) {
      var r := r1 + [(k, copy.value)];
      KeysSnoc(r1, (k, copy.value));
      DistinctSnoc(r1, (k, copy.value));
      forall k' | k' in Keys(r1)
        ensures Lookup(r, k') == Lookup(r1, k')
      {
        LookupSnoc(r1, (k, copy.value), k');
      }
      LookupSnoc(r1, (k, copy.value), k);
      assert r[..|t|] == r1[..|t|];
    }
  }

  /**
   * A class merge fails exactly when some class cannot be merged: a
   * collision under a key that is not mangled while duplicates are not
   * ignored, or a failed copy; the error is the first such class's.
   */
  lemma MergeClassesOutcome(t: seq<(Key, ClassEntry)>, src: seq<(Key, ClassEntry)>,
                             copies: seq<Result<ClassEntry, LoadError>>, ignoreDups: bool)
    requires Distinct(t) && Distinct(src) && |copies| == |src|
    ensures MergeClasses(t, src, copies, ignoreDups).Success? <==>
      forall i :: 0 <= i < |src| ==> ClassMerges(t, src[i], copies[i], ignoreDups)
    ensures MergeClasses(t, src, copies, ignoreDups).Failure? ==>
      exists i :: 0 <= i < |src| && !ClassMerges(t, src[i], copies[i], ignoreDups)
        && (forall j :: 0 <= j < i ==> ClassMerges(t, src[j], copies[j], ignoreDups))
        && MergeClasses(t, src, copies, ignoreDups).error == ClassError(t, src[i], copies[i])
  {
    MergeClassesPrefixOutcome(t, src, copies, ignoreDups, |src|);
    assert src[..|src|] == src && copies[..|copies|] == copies;
  }

  /** MergeClassesOutcome for the first `n` classes, by induction on `n`. */
  lemma {:induction false} MergeClassesPrefixOutcome(t: seq<(Key, ClassEntry)>, src: seq<(Key, ClassEntry)>,
                                                     copies: seq<Result<ClassEntry, LoadError>>, ignoreDups: bool, n: nat)
    requires Distinct(t) && Distinct(src) && |copies| == |src| && n <= |src|
    ensures MergeClasses(t, src[..n], copies[..n], ignoreDups).Success? <==>
      forall i :: 0 <= i < n ==> ClassMerges(t, src[i], copies[i], ignoreDups)
    ensures MergeClasses(t, src[..n], copies[..n], ignoreDups).Failure? ==>
      exists i :: 0 <= i < n && !ClassMerges(t, src[i], copies[i], ignoreDups)
        && (forall j :: 0 <= j < i ==> ClassMerges(t, src[j], copies[j], ignoreDups))
        && MergeClasses(t, src[..n], copies[..n], ignoreDups).error == ClassError(t, src[i], copies[i])
    decreases n
  {
    if n > 0 {
      var m := n - 1;
      MergeClassesPrefixOutcome(t, src, copies, ignoreDups, m);
      assert src[..n][..m] == src[..m] && copies[..n][..m] == copies[..m];
      var m1 := MergeClasses(t, src[..m], copies[..m], ignoreDups);
      if m1.Success? {
        assert Distinct(src[..n]);
        DistinctFront(src[..n]);
        MergeClassesKeys(t, src[..m], copies[..m], ignoreDups);
        assert src[m].0 in Keys(m1.value) <==> src[m].0 in Keys(t);
      }
    }
  }

  // ---------------------------------------------------------------------
  // Walking the source table
  // ---------------------------------------------------------------------

  lemma EntriesStep<V>(data: seq<Bucket<V>>, i: nat)
    requires i < |data|
    ensures Entries(data[..i + 1]) ==
      Entries(data[..i]) + if data[i].val.Val? then [(KeyOf(data[i]), data[i].val.v)] else []
  {
    assert data[..i + 1][..i] == data[..i];
  }

  /** The elements of the first `i` buckets begin the elements of the table. */
  lemma {:induction false} EntriesPrefix<V>(data: seq<Bucket<V>>, i: nat)
    requires i <= |data|
    ensures |Entries(data[..i])| <= |Entries(data)|
    ensures Entries(data[..i]) == Entries(data)[..|Entries(data[..i])|]
    decreases |data|
  {
    if i == |data| {
      assert data[..i] == data;
    } else {
      var front := data[..|data| - 1];
      assert data[..i] == front[..i];
      EntriesPrefix(front, i);
    }
  }

  /** The next bucket of the walk: a live one is the next element of the table. */
  lemma EntriesAdvance<V>(data: seq<Bucket<V>>, idx: nat, m: nat)
    requires idx < |data| && m <= |Entries(data)| && Entries(data[..idx]) == Entries(data)[..m]
    ensures data[idx].val.Val? ==>
      && m < |Entries(data)| && Entries(data)[m] == (KeyOf(data[idx]), data[idx].val.v)
      && Entries(data[..idx + 1]) == Entries(data)[..m + 1]
    ensures data[idx].val.Undef? ==> Entries(data[..idx + 1]) == Entries(data)[..m]
  {
    EntriesStep(data, idx);
    EntriesPrefix(data, idx + 1);
    var es := Entries(data);
    if data[idx].val.Val? {
      assert |Entries(data[..idx + 1])| == m + 1;
      assert Entries(data[..idx + 1])[m] == es[m];
    }
  }

  lemma ReplaceAppended<V>(es: seq<(Key, V)>, k: Key, v: V, w: V)
    requires k !in Keys(es)
    ensures Replace(es + [(k, v)], k, w) == es + [(k, w)]
  {
    KeysIndex(es, k);
  }

  lemma ReplaceTwice<V>(es: seq<(Key, V)>, k: Key, v: V, w: V)
    ensures Replace(Replace(es, k, v), k, w) == Replace(es, k, w)
  {
  }

  // ---------------------------------------------------------------------
  // zend_accel_function_hash_copy
  // ---------------------------------------------------------------------

  /** The static variables of every function of `es` lie in the shared graph. */
  ghost predicate FunctionsIn(es: seq<(Key, OpArray)>, sh: map<Id, Node>, rk: map<Id, nat>, symtab: Id) {
    forall i :: 0 <= i < |es| ==> StaticsIn(es[i].1, sh, rk, symtab)
  }

  /** Each stored value is its function prepared for execution. */
  ghost predicate StoredPrepared(t: seq<(Key, OpArray)>, es: seq<(Key, OpArray)>, vals: seq<OpArray>, o: map<Id, Id>, symtab: Id)
    requires |vals| <= |es|
  {
    forall i {:trigger vals[i]} :: 0 <= i < |vals| && FunctionStored(t, es[i].0, es[i].1) ==> Prepared(es[i].1, vals[i], o, symtab)
  }

  lemma StoredPreparedMono(t: seq<(Key, OpArray)>, es: seq<(Key, OpArray)>, vals: seq<OpArray>,
                           o: map<Id, Id>, o2: map<Id, Id>, symtab: Id)
    requires |vals| <= |es| && OriginGrows(o, o2)
    ensures StoredPrepared(t, es, vals, o, symtab) ==> StoredPrepared(t, es, vals, o2, symtab)
  {
    if StoredPrepared(t, es, vals, o, symtab) {
      forall i | 0 <= i < |vals| && FunctionStored(t, es[i].0, es[i].1)
        ensures Prepared(es[i].1, vals[i], o2, symtab)
      {
        StaticsCopiedMono(es[i].1.staticVars, vals[i].staticVars, o, o2, symtab);
      }
    }
  }

  /**
   * One live source function `f` under key `k`, as the loop of
   * zend_accel_function_hash_copy handles it: zend_hash_add, then on a
   * collision the update of a closure under a mangled key, the skip of
   * anything else under a mangled key, or the redeclaration error; a
   * stored function is then replaced by its copy prepared for execution
   * when there is a copy constructor.  `v` is the value stored.
   */
  method StoreFunction(target: SymbolTable<OpArray>, pass: ClonePass?, k: Key, f: OpArray)
      returns (err: Option<LoadError>, v: OpArray)
    requires target.Valid()
    requires pass != null ==> pass.Valid() && StaticsIn(f, pass.shared, pass.rank, pass.symbolTable)
    modifies target, pass
    ensures target.Valid()
    ensures FunctionStep(old(target.entries), k, f, v) == if err.None? then Success(target.entries) else Failure(err.value)
    ensures pass == null ==> v == f
    ensures pass != null ==> pass.Valid() && Grew(old(pass.State()), pass.State()) && pass.pending == old(pass.pending)
    ensures pass != null && err.None? && FunctionStored(old(target.entries), k, f) ==>
      Prepared(f, v, pass.origin, pass.symbolTable)
  {
    ghost var t1 := target.entries;
    v := f;
    err := None;
    var added := target.Add(k, f);
    if !added {
      if !MangledKey(k) {
        err := Some(Redeclared(f, Lookup(target.entries, k).value));
        return;
      } else if f.isClosure {
        // a closure under a mangled key replaces the entry
        target.Update(k, f);
      } else {
        // left to be bound at run time
        return;
      }
    }
    if pass != null {
      v := PrepareFunction(pass, f);
      if added {
        ReplaceAppended(t1, k, f, v);
      } else {
        ReplaceTwice(t1, k, f, v);
      }
      target.Update(k, v);
    }
  }

  /** The merge of the first `n` source functions, followed by one more. */
  lemma FunctionsAdvance(t0: seq<(Key, OpArray)>, es: seq<(Key, OpArray)>, vals: seq<OpArray>, t1: seq<(Key, OpArray)>, v: OpArray)
    requires |vals| < |es| && MergeFunctions(t0, es[..|vals|], vals) == Success(t1)
    ensures MergeFunctions(t0, es[..|vals| + 1], vals + [v]) == FunctionStep(t1, es[|vals|].0, es[|vals|].1, v)
  {
    var n := |vals|;
    assert es[..n + 1][..n] == es[..n] && (vals + [v])[..n] == vals;
  }

  /** The next source function collides with the merged table exactly when it collides with the original. */
  lemma FunctionsNextKey(t0: seq<(Key, OpArray)>, es: seq<(Key, OpArray)>, vals: seq<OpArray>, t1: seq<(Key, OpArray)>)
    requires Distinct(t0) && Distinct(es) && |vals| < |es|
    requires MergeFunctions(t0, es[..|vals|], vals) == Success(t1)
    ensures es[|vals|].0 in Keys(t1) <==> es[|vals|].0 in Keys(t0)
  {
    var n := |vals|;
    var p := es[..n + 1];
    assert p[..n] == es[..n];
    assert Distinct(p) by {
      assert forall i :: 0 <= i <= n ==> p[i] == es[i];
    }
    DistinctFront(p);
    MergeFunctionsKeys(t0, es[..n], vals);
  }

  /** A merge that failed on the `n`-th source function, with the other values padded. */
  lemma FunctionsStop(t0: seq<(Key, OpArray)>, es: seq<(Key, OpArray)>, vals: seq<OpArray>)
    requires |vals| < |es| && MergeFunctions(t0, es[..|vals| + 1], vals + [es[|vals|].1]).Failure?
    ensures MergeFunctions(t0, es, vals + Values(es[|vals|..])) == MergeFunctions(t0, es[..|vals| + 1], vals + [es[|vals|].1])
  {
    var n := |vals|;
    var rest := es[n + 1..];
    MergeFunctionsFailureSticks(t0, es[..n + 1], vals + [es[n].1], rest, Values(rest));
    assert es[..n + 1] + rest == es;
    assert vals + [es[n].1] + Values(rest) == vals + Values(es[n..]);
  }

  /**
   * The first `|vals|` source functions `es` merged into `t0`, `vals`
   * holding what was stored for each; the pass has grown from `s0`.
   */
  ghost predicate FunctionsMerged(target: SymbolTable<OpArray>, pass: ClonePass?, t0: seq<(Key, OpArray)>,
                                  es: seq<(Key, OpArray)>, vals: seq<OpArray>, s0: PassState, p0: set<Id>)
    reads target, pass
  {
    && |vals| <= |es| && target.Valid()
    && MergeFunctions(t0, es[..|vals|], vals) == Success(target.entries)
    && (pass == null ==> vals == Values(es[..|vals|]))
    && (pass != null ==> pass.Valid() && Grew(s0, pass.State()) && pass.pending == p0
                         && StoredPrepared(t0, es, vals, pass.origin, pass.symbolTable))
  }

  /** The invariant of the function loop, carried over one more stored function `v`. */
  lemma FunctionsMergedNext(target: SymbolTable<OpArray>, pass: ClonePass?, t0: seq<(Key, OpArray)>,
                            es: seq<(Key, OpArray)>, vals: seq<OpArray>, s0: PassState, s1: PassState, p0: set<Id>,
                            t1: seq<(Key, OpArray)>, v: OpArray)
    requires Distinct(t0) && Distinct(es) && |vals| < |es| && target.Valid()
    requires MergeFunctions(t0, es[..|vals|], vals) == Success(t1)
    requires FunctionStep(t1, es[|vals|].0, es[|vals|].1, v) == Success(target.entries)
    requires pass == null ==> vals == Values(es[..|vals|]) && v == es[|vals|].1
    requires pass != null ==>
      && StoredPrepared(t0, es, vals, s1.origin, pass.symbolTable) && Grew(s0, s1) && Grew(s1, pass.State())
      && pass.Valid() && pass.pending == p0
      && (FunctionStored(t1, es[|vals|].0, es[|vals|].1) ==> Prepared(es[|vals|].1, v, pass.origin, pass.symbolTable))
    ensures FunctionsMerged(target, pass, t0, es, vals + [v], s0, p0)
  {
    FunctionsAdvance(t0, es, vals, t1, v);
    if pass == null {
      ValuesSnoc(es, vals, v);
    } else {
      GrewTrans(s0, s1, pass.State());
      StoredPreparedMono(t0, es, vals, s1.origin, pass.origin, pass.symbolTable);
      StoredPreparedSnoc(t0, es, vals, t1, v, pass.origin, pass.symbolTable);
    }
  }

  /** Without a copy constructor the values stored so far are the source's own. */
  lemma ValuesSnoc(es: seq<(Key, OpArray)>, vals: seq<OpArray>, v: OpArray)
    requires |vals| < |es| && vals == Values(es[..|vals|]) && v == es[|vals|].1
    ensures vals + [v] == Values(es[..|vals| + 1])
  {
    assert es[..|vals| + 1][..|vals|] == es[..|vals|];
  }

  /** One more prepared function keeps every stored function prepared. */
  lemma StoredPreparedSnoc(t0: seq<(Key, OpArray)>, es: seq<(Key, OpArray)>, vals: seq<OpArray>,
                           t1: seq<(Key, OpArray)>, v: OpArray, o: map<Id, Id>, symtab: Id)
    requires Distinct(t0) && Distinct(es) && |vals| < |es|
    requires MergeFunctions(t0, es[..|vals|], vals) == Success(t1)
    requires StoredPrepared(t0, es, vals, o, symtab)
    requires FunctionStored(t1, es[|vals|].0, es[|vals|].1) ==> Prepared(es[|vals|].1, v, o, symtab)
    ensures StoredPrepared(t0, es, vals + [v], o, symtab)
  {
    var n := |vals|;
    FunctionsNextKey(t0, es, vals, t1);
    var vals2 := vals + [v];
    forall i {:trigger vals2[i]} | 0 <= i < |vals2| && FunctionStored(t0, es[i].0, es[i].1)
      ensures Prepared(es[i].1, vals2[i], o, symtab)
    {
      if i < n {
        assert vals2[i] == vals[i];
      }
    }
  }

  /** A function loop stopped by the error of `v`'s step, with the other values padded. */
  lemma FunctionsFailedAt(t0: seq<(Key, OpArray)>, es: seq<(Key, OpArray)>, vals: seq<OpArray>,
                          t1: seq<(Key, OpArray)>, v: OpArray, err: LoadError)
    requires |vals| < |es| && MergeFunctions(t0, es[..|vals|], vals) == Success(t1)
    requires FunctionStep(t1, es[|vals|].0, es[|vals|].1, v) == Failure(err)
    requires FunctionStep(t1, es[|vals|].0, es[|vals|].1, es[|vals|].1) == Failure(err)
    ensures MergeFunctions(t0, es, vals + Values(es[|vals|..])) == Failure(err)
  {
    FunctionsAdvance(t0, es, vals, t1, es[|vals|].1);
    FunctionsStop(t0, es, vals);
  }

  /** The function loop stopped by the error of `v`'s step: the values padded to all of `es`, and that error reported. */
  lemma FunctionsStopped(t0: seq<(Key, OpArray)>, es: seq<(Key, OpArray)>, vals: seq<OpArray>,
                         t1: seq<(Key, OpArray)>, v: OpArray, err: LoadError, ctor: bool)
    requires |vals| < |es| && MergeFunctions(t0, es[..|vals|], vals) == Success(t1)
    requires FunctionStep(t1, es[|vals|].0, es[|vals|].1, v) == Failure(err)
    requires !ctor ==> vals == Values(es[..|vals|])
    ensures |vals + Values(es[|vals|..])| == |es|
    ensures Some(err) == ErrorOf(MergeFunctions(t0, es, vals + Values(es[|vals|..])))
    ensures !ctor ==> vals + Values(es[|vals|..]) == Values(es)
  {
    FunctionsFailedAt(t0, es, vals, t1, v, err);
    if !ctor {
      var vals2 := vals + Values(es[|vals|..]);
      forall i | 0 <= i < |es|
        ensures vals2[i] == es[i].1
      {
        if i < |vals| {
          assert vals2[i] == vals[i] == es[..|vals|][i].1;
        } else {
          assert vals2[i] == Values(es[|vals|..])[i - |vals|];
        }
      }
    }
  }

  /** The loop body of zend_accel_function_hash_copy for the next source function `es[|vals|]`. */
  method MergeNextFunction(target: SymbolTable<OpArray>, pass: ClonePass?, ghost t0: seq<(Key, OpArray)>,
                           ghost es: seq<(Key, OpArray)>, ghost vals: seq<OpArray>, ghost s0: PassState, ghost p0: set<Id>,
                           k: Key, f: OpArray)
      returns (err: Option<LoadError>, ghost vals2: seq<OpArray>)
    requires Distinct(t0) && Distinct(es) && |vals| < |es| && es[|vals|] == (k, f)
    requires FunctionsMerged(target, pass, t0, es, vals, s0, p0)
    requires pass != null ==> StaticsIn(f, pass.shared, pass.rank, pass.symbolTable)
    modifies target, pass
    ensures err.None? ==> |vals2| == |vals| + 1 && FunctionsMerged(target, pass, t0, es, vals2, s0, p0)
    ensures err.Some? ==> |vals2| == |es| && err == ErrorOf(MergeFunctions(t0, es, vals2))
    ensures err.Some? ==> target.Valid() && (pass == null ==> vals2 == Values(es))
    ensures err.Some? && pass != null ==> pass.Valid() && Grew(s0, pass.State()) && pass.pending == p0
  {
    ghost var n := |vals|;
    ghost var t1 := target.entries;
    ghost var s1 := if pass != null then pass.State() else s0;
    FunctionsNextKey(t0, es, vals, t1);
    var v;
    err, v := StoreFunction(target, pass, k, f);
    if err.Some? {
      FunctionsStopped(t0, es, vals, t1, v, err.value, pass != null);
      vals2 := vals + Values(es[n..]);
      if pass != null {
        GrewTrans(s0, s1, pass.State());
      }
      return;
    }
    FunctionsMergedNext(target, pass, t0, es, vals, s0, s1, p0, t1, v);
    vals2 := vals + [v];
  }

  /**
   * The loop of zend_accel_function_hash_copy over the buckets of the
   * source, without the final reset of the internal pointer.
   */
  method MergeFunctionBuckets(target: SymbolTable<OpArray>, data: seq<Bucket<OpArray>>, pass: ClonePass?,
                              ghost s0: PassState, ghost p0: set<Id>)
      returns (err: Option<LoadError>, ghost vals: seq<OpArray>)
    requires target.Valid() && Distinct(Entries(data))
    requires FunctionsMerged(target, pass, target.entries, Entries(data), [], s0, p0)
    requires pass != null ==> FunctionsIn(Entries(data), pass.shared, pass.rank, pass.symbolTable)
    modifies target, pass
    ensures |vals| == |Entries(data)|
    ensures err.None? ==> FunctionsMerged(target, pass, old(target.entries), Entries(data), vals, s0, p0)
    ensures err.Some? ==> err == ErrorOf(MergeFunctions(old(target.entries), Entries(data), vals))
    ensures err.Some? ==> target.Valid() && (pass == null ==> vals == Values(Entries(data)))
    ensures err.Some? && pass != null ==> pass.Valid() && Grew(s0, pass.State()) && pass.pending == p0
  {
    ghost var t0 := target.entries;
    ghost var es := Entries(data);
    err := None;
    vals := [];
    var idx := 0;
    while idx < |data|
      invariant idx <= |data| && |vals| <= |es| && Entries(data[..idx]) == es[..|vals|]
      invariant err.None? && FunctionsMerged(target, pass, t0, es, vals, s0, p0)
    {
      err, vals := MergeFunctionBucket(target, data, idx, pass, t0, vals, s0, p0);
      if err.Some? {
        return;
      }
      idx := idx + 1;
    }
    assert data[..idx] == data;
    assert es[..|vals|] == es;
  }

  /** One bucket of the loop of zend_accel_function_hash_copy: a live function is merged, a deleted one skipped. */
  method MergeFunctionBucket(target: SymbolTable<OpArray>, data: seq<Bucket<OpArray>>, idx: nat, pass: ClonePass?,
                             ghost t0: seq<(Key, OpArray)>, ghost vals: seq<OpArray>, ghost s0: PassState, ghost p0: set<Id>)
      returns (err: Option<LoadError>, ghost vals2: seq<OpArray>)
    requires Distinct(t0) && Distinct(Entries(data)) && idx < |data|
    requires |vals| <= |Entries(data)| && Entries(data[..idx]) == Entries(data)[..|vals|]
    requires FunctionsMerged(target, pass, t0, Entries(data), vals, s0, p0)
    requires pass != null ==> FunctionsIn(Entries(data), pass.shared, pass.rank, pass.symbolTable)
    modifies target, pass
    ensures err.None? ==> |vals2| <= |Entries(data)| && Entries(data[..idx + 1]) == Entries(data)[..|vals2|]
    ensures err.None? ==> FunctionsMerged(target, pass, t0, Entries(data), vals2, s0, p0)
    ensures err.Some? ==> |vals2| == |Entries(data)| && err == ErrorOf(MergeFunctions(t0, Entries(data), vals2))
    ensures err.Some? ==> target.Valid() && (pass == null ==> vals2 == Values(Entries(data)))
    ensures err.Some? && pass != null ==> pass.Valid() && Grew(s0, pass.State()) && pass.pending == p0
  {
    err, vals2 := None, vals;
    EntriesAdvance(data, idx, |vals|);
    if data[idx].val.Val? {
      var k := KeyOf(data[idx]);
      var f := data[idx].val.v;
      err, vals2 := MergeNextFunction(target, pass, t0, Entries(data), vals, s0, p0, k, f);
    }
  }

  /**
   * zend_accel_function_hash_copy: the live functions of `source` merged
   * into `target` in bucket order; with a copy constructor (`pass` not
   * null, the pass of zend_prepare_function_for_execution) each stored
   * function is replaced by its prepared copy.  On success the internal
   * pointer is reset; a redeclaration ends the merge with its error.
   * `vals` is what was stored for each source function.
   */
  method FunctionHashCopy(target: SymbolTable<OpArray>, source: HashTable<OpArray>, pass: ClonePass?)
      returns (err: Option<LoadError>, ghost vals: seq<OpArray>)
    requires target.Valid() && |source.arData| == source.nNumUsed && Distinct(Entries(source.arData))
    requires pass != null ==> pass.Valid() && FunctionsIn(Entries(source.arData), pass.shared, pass.rank, pass.symbolTable)
    modifies target, pass
    ensures target.Valid() && |vals| == |Entries(source.arData)|
    ensures err == ErrorOf(MergeFunctions(old(target.entries), Entries(source.arData), vals))
    ensures err.None? ==> target.entries == MergeFunctions(old(target.entries), Entries(source.arData), vals).value
    ensures err.None? ==> target.internalPointer == if |target.entries| > 0 then 0 else INVALID_IDX
    ensures pass == null ==> vals == Values(Entries(source.arData))
    ensures pass != null ==> pass.Valid() && Grew(old(pass.State()), pass.State()) && pass.pending == old(pass.pending)
    ensures pass != null && err.None? ==>
      StoredPrepared(old(target.entries), Entries(source.arData), vals, pass.origin, pass.symbolTable)
  {
    ghost var s0 := if pass != null then pass.State() else PassState(map[], map[], map[], 0);
    ghost var p0 := if pass != null then pass.pending else {};
    ghost var es := Entries(source.arData);
    assert es[..0] == [];
    err, vals := MergeFunctionBuckets(target, source.arData, pass, s0, p0);
    if err.None? {
      assert es[..|vals|] == es;
      target.Rewind();
    }
  }

  // ---------------------------------------------------------------------
  // zend_accel_class_hash_copy
  // ---------------------------------------------------------------------

  /** Every class of `es` lies in the shared graph. */
  ghost predicate ClassesIn(es: seq<(Key, ClassEntry)>, sh: map<Id, Node>, rk: map<Id, nat>, symtab: Id) {
    forall i :: 0 <= i < |es| ==> ClassIn(es[i].1, sh, rk, symtab)
  }

  /**
   * `r` is what zend_class_copy_ctor made of class `c`: a private entry
   * with reference count 1, the same name, interfaces and declaration
   * site, or the class loading error naming `c`.
   */
  ghost predicate CopyMade(c: ClassEntry, r: Result<ClassEntry, LoadError>) {
    match r
    case Success(d) =>
      && d.id.Private? && d.refcount == 1 && d.name.val == c.name.val
      && d.numInterfaces == c.numInterfaces && d.filename == c.filename && d.lineStart == c.lineStart
    case Failure(e) => e.ClassLoadingError? && e.className == c.name.val
  }

  /** The copy of `c`: made by the constructor when there is one, `c` itself otherwise. */
  ghost predicate CopyOf(ctor: bool, c: ClassEntry, r: Result<ClassEntry, LoadError>) {
    if ctor then CopyMade(c, r) else r == Success(c)
  }

  /** The copy outcome recorded for a class the constructor was not run on. */
  function Unrun(ctor: bool, c: ClassEntry): Result<ClassEntry, LoadError> {
    if ctor then Failure(ClassLoadingError(c.name.val, None)) else Success(c)
  }

  function UnrunAll(ctor: bool, es: seq<(Key, ClassEntry)>): (r: seq<Result<ClassEntry, LoadError>>)
    ensures |r| == |es| && forall i :: 0 <= i < |es| ==> r[i] == Unrun(ctor, es[i].1)
  {
    seq(|es|, i requires 0 <= i < |es| => Unrun(ctor, es[i].1))
  }

  /** `copies` holds the copy of each of the first `|copies|` classes of `es`. */
  ghost predicate CopiesOf(ctor: bool, es: seq<(Key, ClassEntry)>, copies: seq<Result<ClassEntry, LoadError>>) {
    |copies| <= |es| && forall i {:trigger copies[i]} :: 0 <= i < |copies| ==> CopyOf(ctor, es[i].1, copies[i])
  }

  lemma CopiesOfSnoc(ctor: bool, es: seq<(Key, ClassEntry)>, copies: seq<Result<ClassEntry, LoadError>>, copy: Result<ClassEntry, LoadError>)
    requires CopiesOf(ctor, es, copies) && |copies| < |es| && CopyOf(ctor, es[|copies|].1, copy)
    ensures CopiesOf(ctor, es, copies + [copy])
  {
    var c2 := copies + [copy];
    forall i | 0 <= i < |c2|
      ensures CopyOf(ctor, es[i].1, c2[i])
    {
      if i < |copies| {
        assert c2[i] == copies[i];
      }
    }
  }

  /** The classes after the one that failed count as copied by no run. */
  lemma CopiesOfPad(ctor: bool, es: seq<(Key, ClassEntry)>, copies: seq<Result<ClassEntry, LoadError>>)
    requires CopiesOf(ctor, es, copies)
    ensures CopiesOf(ctor, es, copies + UnrunAll(ctor, es[|copies|..]))
  {
    var pad := UnrunAll(ctor, es[|copies|..]);
    var c2 := copies + pad;
    forall i | 0 <= i < |c2|
      ensures CopyOf(ctor, es[i].1, c2[i])
    {
      if i < |copies| {
        assert c2[i] == copies[i];
      } else {
        assert c2[i] == pad[i - |copies|] == Unrun(ctor, es[i].1);
      }
    }
  }

  /** zend_class_copy_ctor, seen from the merge. */
  method CopyClass(pass: ClonePass, c: ClassEntry) returns (r: Result<ClassEntry, LoadError>)
    requires pass.Valid() && ClassIn(c, pass.shared, pass.rank, pass.symbolTable)
    modifies pass
    ensures pass.Valid() && DataGrew(old(pass.State()), pass.State()) && pass.pending == old(pass.pending)
    ensures CopyMade(c, r)
  {
    r := ClassCopyCtor(pass, c);
  }

  /**
   * One live source class `c` under key `k`, as the loop of
   * zend_accel_class_hash_copy handles it: zend_hash_add; on a collision
   * the skip of a mangled key, the redeclaration error unless duplicates
   * are ignored, and otherwise the skip (the corrected behaviour, see
   * ClassStepAsWritten); a stored class is then replaced by its copy
   * when there is a copy constructor.  `copy` is the copy's outcome.
   */
  method StoreClass(target: SymbolTable<ClassEntry>, pass: ClonePass?, ignoreDups: bool, k: Key, c: ClassEntry)
      returns (err: Option<LoadError>, ghost copy: Result<ClassEntry, LoadError>)
    requires target.Valid()
    requires pass != null ==> pass.Valid() && ClassIn(c, pass.shared, pass.rank, pass.symbolTable)
    modifies target, pass
    ensures target.Valid()
    ensures ClassStep(old(target.entries), k, c, copy, ignoreDups) == if err.None? then Success(target.entries) else Failure(err.value)
    ensures CopyOf(pass != null, c, copy)
    ensures pass != null ==> pass.Valid() && DataGrew(old(pass.State()), pass.State()) && pass.pending == old(pass.pending)
  {
    ghost var t1 := target.entries;
    err := None;
    copy := Unrun(pass != null, c);
    var added := target.Add(k, c);
    if !added {
      if !MangledKey(k) && !ignoreDups {
        err := Some(ClassRedeclared(c.name.val));
      }
      return;
    }
    if pass != null {
      var r := CopyClass(pass, c);
      copy := r;
      if r.Failure? {
        err := Some(r.error);
        return;
      }
      ReplaceAppended(t1, k, c, r.value);
      target.Update(k, r.value);
    }
  }

  /**
   * The first `|copies|` source classes `es` merged into `t0`, `copies`
   * holding the copy of each; the pass has grown from `s0`.
   */
  ghost predicate ClassesMerged(target: SymbolTable<ClassEntry>, pass: ClonePass?, ignoreDups: bool, t0: seq<(Key, ClassEntry)>,
                                es: seq<(Key, ClassEntry)>, copies: seq<Result<ClassEntry, LoadError>>, s0: PassState, p0: set<Id>)
    reads target, pass
  {
    && |copies| <= |es| && target.Valid()
    && MergeClasses(t0, es[..|copies|], copies, ignoreDups) == Success(target.entries)
    && CopiesOf(pass != null, es, copies)
    && (pass != null ==> pass.Valid() && DataGrew(s0, pass.State()) && pass.pending == p0)
  }

  lemma ClassesAdvance(t0: seq<(Key, ClassEntry)>, es: seq<(Key, ClassEntry)>, copies: seq<Result<ClassEntry, LoadError>>,
                       ignoreDups: bool, t1: seq<(Key, ClassEntry)>, copy: Result<ClassEntry, LoadError>)
    requires |copies| < |es| && MergeClasses(t0, es[..|copies|], copies, ignoreDups) == Success(t1)
    ensures MergeClasses(t0, es[..|copies| + 1], copies + [copy], ignoreDups) == ClassStep(t1, es[|copies|].0, es[|copies|].1, copy, ignoreDups)
  {
    var n := |copies|;
    assert es[..n + 1][..n] == es[..n] && (copies + [copy])[..n] == copies;
  }

  lemma ClassesStop(t0: seq<(Key, ClassEntry)>, es: seq<(Key, ClassEntry)>, copies: seq<Result<ClassEntry, LoadError>>,
                    ignoreDups: bool, copy: Result<ClassEntry, LoadError>, ctor: bool)
    requires |copies| < |es| && MergeClasses(t0, es[..|copies| + 1], copies + [copy], ignoreDups).Failure?
    ensures MergeClasses(t0, es, copies + [copy] + UnrunAll(ctor, es[|copies| + 1..]), ignoreDups) ==
      MergeClasses(t0, es[..|copies| + 1], copies + [copy], ignoreDups)
  {
    var n := |copies|;
    var rest := es[n + 1..];
    MergeClassesFailureSticks(t0, es[..n + 1], copies + [copy], ignoreDups, rest, UnrunAll(ctor, rest));
    assert es[..n + 1] + rest == es;
  }

  /** The loop body of zend_accel_class_hash_copy for the next source class `es[|copies|]`. */
  method MergeNextClass(target: SymbolTable<ClassEntry>, pass: ClonePass?, ignoreDups: bool, ghost t0: seq<(Key, ClassEntry)>,
                        ghost es: seq<(Key, ClassEntry)>, ghost copies: seq<Result<ClassEntry, LoadError>>,
                        ghost s0: PassState, ghost p0: set<Id>, k: Key, c: ClassEntry)
      returns (err: Option<LoadError>, ghost copies2: seq<Result<ClassEntry, LoadError>>)
    requires |copies| < |es| && es[|copies|] == (k, c)
    requires ClassesMerged(target, pass, ignoreDups, t0, es, copies, s0, p0)
    requires pass != null ==> ClassIn(c, pass.shared, pass.rank, pass.symbolTable)
    modifies target, pass
    ensures err.None? ==> |copies2| == |copies| + 1 && ClassesMerged(target, pass, ignoreDups, t0, es, copies2, s0, p0)
    ensures err.Some? ==> |copies2| == |es| && err == ErrorOf(MergeClasses(t0, es, copies2, ignoreDups))
    ensures err.Some? ==> target.Valid() && CopiesOf(pass != null, es, copies2)
    ensures err.Some? && pass != null ==> pass.Valid() && DataGrew(s0, pass.State()) && pass.pending == p0
  {
    ghost var n := |copies|;
    ghost var t1 := target.entries;
    ghost var s1 := if pass != null then pass.State() else s0;
    ghost var copy;
    err, copy := StoreClass(target, pass, ignoreDups, k, c);
    if pass != null {
      DataGrewTrans(s0, s1, pass.State());
    }
    ClassesNext(t0, es, copies, ignoreDups, t1, target.entries, copy, err, pass != null);
    copies2 := copies + [copy];
    if err.Some? {
      copies2 := copies2 + UnrunAll(pass != null, es[n + 1..]);
    }
  }

  /** The specification side of one class stored: the merge so far grows by one step, or stops with its error. */
  lemma ClassesNext(t0: seq<(Key, ClassEntry)>, es: seq<(Key, ClassEntry)>, copies: seq<Result<ClassEntry, LoadError>>,
                    ignoreDups: bool, t1: seq<(Key, ClassEntry)>, t2: seq<(Key, ClassEntry)>,
                    copy: Result<ClassEntry, LoadError>, err: Option<LoadError>, ctor: bool)
    requires |copies| < |es| && MergeClasses(t0, es[..|copies|], copies, ignoreDups) == Success(t1)
    requires CopiesOf(ctor, es, copies) && CopyOf(ctor, es[|copies|].1, copy)
    requires ClassStep(t1, es[|copies|].0, es[|copies|].1, copy, ignoreDups) == if err.None? then Success(t2) else Failure(err.value)
    ensures CopiesOf(ctor, es, copies + [copy])
    ensures err.None? ==> MergeClasses(t0, es[..|copies| + 1], copies + [copy], ignoreDups) == Success(t2)
    ensures err.Some? ==>
      var c2 := copies + [copy] + UnrunAll(ctor, es[|copies| + 1..]);
      |c2| == |es| && err == ErrorOf(MergeClasses(t0, es, c2, ignoreDups)) && CopiesOf(ctor, es, c2)
  {
    ClassesAdvance(t0, es, copies, ignoreDups, t1, copy);
    CopiesOfSnoc(ctor, es, copies, copy);
    if err.Some? {
      ClassesStop(t0, es, copies, ignoreDups, copy, ctor);
      CopiesOfPad(ctor, es, copies + [copy]);
    }
  }

  /**
   * The loop of zend_accel_class_hash_copy over the buckets of the
   * source, without the final reset of the internal pointer.
   */
  method MergeClassBuckets(target: SymbolTable<ClassEntry>, data: seq<Bucket<ClassEntry>>, pass: ClonePass?, ignoreDups: bool,
                           ghost s0: PassState, ghost p0: set<Id>)
      returns (err: Option<LoadError>, ghost copies: seq<Result<ClassEntry, LoadError>>)
    requires ClassesMerged(target, pass, ignoreDups, target.entries, Entries(data), [], s0, p0)
    requires pass != null ==> ClassesIn(Entries(data), pass.shared, pass.rank, pass.symbolTable)
    modifies target, pass
    ensures |copies| == |Entries(data)|
    ensures err.None? ==> ClassesMerged(target, pass, ignoreDups, old(target.entries), Entries(data), copies, s0, p0)
    ensures err.Some? ==> err == ErrorOf(MergeClasses(old(target.entries), Entries(data), copies, ignoreDups))
    ensures err.Some? ==> target.Valid() && CopiesOf(pass != null, Entries(data), copies)
    ensures err.Some? && pass != null ==> pass.Valid() && DataGrew(s0, pass.State()) && pass.pending == p0
  {
    ghost var t0 := target.entries;
    ghost var es := Entries(data);
    err := None;
    copies := [];
    var idx := 0;
    while idx < |data|
      invariant idx <= |data| && |copies| <= |es| && Entries(data[..idx]) == es[..|copies|]
      invariant err.None? && ClassesMerged(target, pass, ignoreDups, t0, es, copies, s0, p0)
    {
      EntriesAdvance(data, idx, |copies|);
      if data[idx].val.Val? {
        var k := KeyOf(data[idx]);
        var c := data[idx].val.v;
        err, copies := MergeNextClass(target, pass, ignoreDups, t0, es, copies, s0, p0, k, c);
        if err.Some? {
          return;
        }
      }
      idx := idx + 1;
    }
    assert data[..idx] == data;
    assert es[..|copies|] == es;
  }

  /**
   * zend_accel_class_hash_copy: the live classes of `source` merged into
   * `target` in bucket order; with a copy constructor (`pass` not null,
   * the pass of zend_class_copy_ctor) each stored class is replaced by
   * its copy.  On success the internal pointer is reset; a redeclaration
   * or a failed copy ends the merge with its error.  `copies` is the
   * copy made of each source class.
   */
  method ClassHashCopy(target: SymbolTable<ClassEntry>, source: HashTable<ClassEntry>, pass: ClonePass?, ignoreDups: bool)
      returns (err: Option<LoadError>, ghost copies: seq<Result<ClassEntry, LoadError>>)
    requires target.Valid() && |source.arData| == source.nNumUsed
    requires pass != null ==> pass.Valid() && ClassesIn(Entries(source.arData), pass.shared, pass.rank, pass.symbolTable)
    modifies target, pass
    ensures target.Valid() && |copies| == |Entries(source.arData)|
    ensures err == ErrorOf(MergeClasses(old(target.entries), Entries(source.arData), copies, ignoreDups))
    ensures err.None? ==> target.entries == MergeClasses(old(target.entries), Entries(source.arData), copies, ignoreDups).value
    ensures err.None? ==> target.internalPointer == if |target.entries| > 0 then 0 else INVALID_IDX
    ensures CopiesOf(pass != null, Entries(source.arData), copies)
    ensures pass != null ==> pass.Valid() && DataGrew(old(pass.State()), pass.State()) && pass.pending == old(pass.pending)
  {
    ghost var s0 := if pass != null then pass.State() else PassState(map[], map[], map[], 0);
    ghost var p0 := if pass != null then pass.pending else {};
    ghost var es := Entries(source.arData);
    assert es[..0] == [];
    err, copies := MergeClassBuckets(target, source.arData, pass, ignoreDups, s0, p0);
    if err.None? {
      assert es[..|copies|] == es;
      target.Rewind();
    }
  }

  // ---------------------------------------------------------------------
  // zend_accel_free_user_functions and zend_accel_move_user_functions
  // ---------------------------------------------------------------------

  /** The functions of `es` whose type is `ty` (`keep`) or is not `ty` (not `keep`), in order. */
  function WithType(es: seq<(Key, OpArray)>, ty: nat, keep: bool): seq<(Key, OpArray)>
    decreases |es|
  {
    if es == [] then []
    else
      var front := WithType(es[..|es| - 1], ty, keep);
      if (es[|es| - 1].1.fnType == ty) == keep then front + [es[|es| - 1]] else front
  }

  /**
   * Filtering a map without duplicate keys: no duplicates, and a key
   * finds its old function exactly when that function passes the filter.
   */
  lemma {:induction false} WithTypeLookup(es: seq<(Key, OpArray)>, ty: nat, keep: bool, k: Key)
    requires Distinct(es)
    ensures Distinct(WithType(es, ty, keep)) && Keys(WithType(es, ty, keep)) <= Keys(es)
    ensures Lookup(WithType(es, ty, keep), k) ==
      if Lookup(es, k).Some? && (Lookup(es, k).value.fnType == ty) == keep then Lookup(es, k) else None
    decreases |es|
  {
    if es != [] {
      var front := es[..|es| - 1];
      var e := es[|es| - 1];
      assert es == front + [e];
      DistinctFront(es);
      WithTypeLookup(front, ty, keep, k);
      LookupSnoc(front, e, k);
      KeysSnoc(front, e);
      var w := WithType(front, ty, keep);
      if (e.1.fnType == ty) == keep {
        LookupSnoc(w, e, k);
        KeysSnoc(w, e);
        DistinctSnoc(w, e);
      }
    }
  }

  /**
   * What zend_accel_move_user_functions leaves: every user function of
   * the source is found in the destination, the source keeps exactly its
   * other functions, and the destination's other keys are untouched.
   */
  lemma MovePartition(src: seq<(Key, OpArray)>, dst: seq<(Key, OpArray)>, k: Key)
    requires Distinct(src)
    ensures Lookup(PutAll(dst, WithType(src, ZEND_USER_FUNCTION, true)), k) ==
      if Lookup(src, k).Some? && Lookup(src, k).value.fnType == ZEND_USER_FUNCTION then Lookup(src, k) else Lookup(dst, k)
    ensures Lookup(WithType(src, ZEND_USER_FUNCTION, false), k) ==
      if Lookup(src, k).Some? && Lookup(src, k).value.fnType != ZEND_USER_FUNCTION then Lookup(src, k) else None
  {
    var users := WithType(src, ZEND_USER_FUNCTION, true);
    WithTypeLookup(src, ZEND_USER_FUNCTION, true, k);
    WithTypeLookup(src, ZEND_USER_FUNCTION, false, k);
    PutAllLookup(dst, users, k);
  }

  /**
   * zend_accel_free_user_functions: every function that is not internal
   * is deleted from `ht` (without its destructor); the internal ones stay
   * in order.
   */
  method FreeUserFunctions(ht: SymbolTable<OpArray>)
    requires ht.Valid()
    modifies ht
    ensures ht.Valid()
    ensures ht.entries == WithType(old(ht.entries), ZEND_INTERNAL_FUNCTION, true)
  {
    var es := ht.entries;
    var kept := [];
    var i := 0;
    while i < |es|
      invariant i <= |es| && kept == WithType(es[..i], ZEND_INTERNAL_FUNCTION, true)
    {
      assert es[..i + 1][..i] == es[..i];
      if es[i].1.fnType == ZEND_INTERNAL_FUNCTION {
        kept := kept + [es[i]];
      }
      i := i + 1;
    }
    assert es[..i] == es;
    WithTypeLookup(es, ZEND_INTERNAL_FUNCTION, true, StrKey([]));
    ht.entries := kept;
  }

  /**
   * zend_accel_move_user_functions: every user function of `src` is
   * zend_hash_update'd into `dst` under its key, in order, and deleted
   * from `src` (without its destructor); the other functions stay in `src`.
   */
  method MoveUserFunctions(src: SymbolTable<OpArray>, dst: SymbolTable<OpArray>)
    requires src != dst && src.Valid() && dst.Valid()
    modifies src, dst
    ensures src.Valid() && dst.Valid()
    ensures src.entries == WithType(old(src.entries), ZEND_USER_FUNCTION, false)
    ensures dst.entries == PutAll(old(dst.entries), WithType(old(src.entries), ZEND_USER_FUNCTION, true))
  {
    var es := src.entries;
    ghost var d0 := dst.entries;
    var kept := [];
    var i := 0;
    while i < |es|
      invariant i <= |es| && src.entries == es && dst.Valid()
      invariant kept == WithType(es[..i], ZEND_USER_FUNCTION, false)
      invariant dst.entries == PutAll(d0, WithType(es[..i], ZEND_USER_FUNCTION, true))
    {
      assert es[..i + 1][..i] == es[..i];
      if es[i].1.fnType == ZEND_USER_FUNCTION {
        dst.Update(es[i].0, es[i].1);
        assert WithType(es[..i + 1], ZEND_USER_FUNCTION, true) == WithType(es[..i], ZEND_USER_FUNCTION, true) + [es[i]];
      } else {
        kept := kept + [es[i]];
      }
      i := i + 1;
    }
    assert es[..i] == es;
    WithTypeLookup(es, ZEND_USER_FUNCTION, false, StrKey([]));
    src.entries := kept;
  }
}
