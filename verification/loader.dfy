// A cached script and the two things done with it as a whole: compaction
// before it is stored in shared memory, and loading it into the request's
// symbol tables (zend_accel_load_script).

module Loader {
  import opened Wrappers
  import opened ZendValues
  import opened HashTables
  import opened ZendEntities
  import opened SymbolTables
  import opened CloneEngine
  import opened MemberCopy
  import opened ClassCopy
  import opened SymbolMerge

  /**
   * A zend_persistent_script as far as this model reads it: the main
   * op_array and the tables of the functions and classes it declares.
   */
  datatype PersistentScript = PersistentScript(
    mainOpArray: OpArray,
    functionTable: HashTable<OpArray>,
    classTable: HashTable<ClassEntry>)

  /** Both tables are well formed, and function names are unique. */
  ghost predicate ScriptOk(ps: PersistentScript) {
    && Valid(ps.functionTable) && Valid(ps.classTable)
    && Distinct(Entries(ps.functionTable.arData))
  }

  // ---------------------------------------------------------------------
  // compact_persistent_script
  // ---------------------------------------------------------------------

  /** Whether compact_hash_table must allocate a smaller bucket array for `ht`. */
  predicate Shrinks<V>(ht: HashTable<V>) {
    ht.nNumOfElements != 0 && !ht.packed && CompactSize(ht.nNumOfElements) < ht.nTableSize
  }

  /**
   * compact_persistent_script: the function table and then, only if that
   * succeeded, the class table are compacted.  `functionsAlloc` and
   * `classesAlloc` say whether each allocation would succeed.  The result
   * is 1 exactly when no needed allocation failed; the contents of both
   * tables are kept either way.
   */
  method CompactPersistentScript(ps: PersistentScript, functionsAlloc: bool, classesAlloc: bool)
      returns (ok: bool, r: PersistentScript)
    requires ScriptOk(ps)
    ensures ScriptOk(r) && r.mainOpArray == ps.mainOpArray
    ensures Entries(r.functionTable.arData) == Entries(ps.functionTable.arData)
    ensures Entries(r.classTable.arData) == Entries(ps.classTable.arData)
    ensures ok <==> (Shrinks(ps.functionTable) ==> functionsAlloc) && (Shrinks(ps.classTable) ==> classesAlloc)
    ensures !Shrinks(ps.functionTable) ==> r.functionTable == ps.functionTable
    ensures Shrinks(ps.functionTable) && !functionsAlloc ==> r == ps
    ensures !Shrinks(ps.classTable) ==> r.classTable == ps.classTable
  {
    var okF, ft := CompactHashTable(ps.functionTable, functionsAlloc);
    r := ps.(functionTable := ft);
    if !okF {
      return false, r;
    }
    var okC, ct := CompactHashTable(ps.classTable, classesAlloc);
    r := r.(classTable := ct);
    ok := okC;
  }

  // ---------------------------------------------------------------------
  // zend_accel_load_script
  // ---------------------------------------------------------------------

  /** The class table after its merge; a script without classes does not merge. */
  function ClassesAfter(run: bool, t: seq<(Key, ClassEntry)>, src: seq<(Key, ClassEntry)>,
                        copies: seq<Result<ClassEntry, LoadError>>, ignoreDups: bool): Result<seq<(Key, ClassEntry)>, LoadError>
    requires |copies| == |src|
  {
    if run then MergeClasses(t, src, copies, ignoreDups) else Success(t)
  }

  /** The function table after its merge; a script without functions does not merge. */
  function FunctionsAfter(run: bool, t: seq<(Key, OpArray)>, src: seq<(Key, OpArray)>, vals: seq<OpArray>)
      : Result<seq<(Key, OpArray)>, LoadError>
    requires |vals| == |src|
  {
    if run then MergeFunctions(t, src, vals) else Success(t)
  }

  /**
   * The outcome of the two merges when the classes go first (a load from
   * shared memory) or the functions go first (any other load): the first
   * fatal error stops the load, so the table merged second is not touched.
   */
  function Loaded<C, F>(classesFirst: bool, c: Result<C, LoadError>, f: Result<F, LoadError>): Result<(C, F), LoadError> {
    if classesFirst then
      if c.Failure? then Failure(c.error) else if f.Failure? then Failure(f.error) else Success((c.value, f.value))
    else
      if f.Failure? then Failure(f.error) else if c.Failure? then Failure(c.error) else Success((c.value, f.value))
  }

  /**
   * The order decides which redeclaration is reported: loaded from shared
   * memory, the first class that does not merge is reported even when a
   * function clashes too; loaded otherwise, the first clashing function.
   */
  lemma LoadReportsFirstTable(t: seq<(Key, ClassEntry)>, src: seq<(Key, ClassEntry)>,
                              copies: seq<Result<ClassEntry, LoadError>>, ignoreDups: bool,
                              ft: seq<(Key, OpArray)>, fsrc: seq<(Key, OpArray)>, vals: seq<OpArray>, i: nat, j: nat)
    requires Distinct(t) && Distinct(src) && |copies| == |src| && i < |src|
    requires Distinct(ft) && Distinct(fsrc) && |vals| == |fsrc| && j < |fsrc|
    requires !ClassMerges(t, src[i], copies[i], ignoreDups) && forall i' :: 0 <= i' < i ==> ClassMerges(t, src[i'], copies[i'], ignoreDups)
    requires FunctionClash(ft, fsrc[j]) && forall j' :: 0 <= j' < j ==> !FunctionClash(ft, fsrc[j'])
    ensures Loaded(true, MergeClasses(t, src, copies, ignoreDups), MergeFunctions(ft, fsrc, vals)) ==
      Failure(ClassError(t, src[i], copies[i]))
    ensures Loaded(false, MergeClasses(t, src, copies, ignoreDups), MergeFunctions(ft, fsrc, vals)) ==
      Failure(Redeclared(fsrc[j].1, Lookup(ft, fsrc[j].0).value))
  {
    MergeClassesOutcome(t, src, copies, ignoreDups);
    MergeFunctionsOutcome(ft, fsrc, vals);
    var i2 :| 0 <= i2 < |src| && !ClassMerges(t, src[i2], copies[i2], ignoreDups)
      && (forall j' :: 0 <= j' < i2 ==> ClassMerges(t, src[j'], copies[j'], ignoreDups))
      && MergeClasses(t, src, copies, ignoreDups).error == ClassError(t, src[i2], copies[i2]);
    assert i2 == i;
    var j2 :| 0 <= j2 < |fsrc| && FunctionClash(ft, fsrc[j2]) && (forall j' :: 0 <= j' < j2 ==> !FunctionClash(ft, fsrc[j']))
      && MergeFunctions(ft, fsrc, vals).error == Redeclared(fsrc[j2].1, Lookup(ft, fsrc[j2].0).value);
    assert j2 == j;
  }

  /**
   * The classes of a script merged first, from shared memory: each class
   * is copied by zend_class_copy_ctor as it is stored.
   */
  method LoadClassesShared(classes: SymbolTable<ClassEntry>, source: HashTable<ClassEntry>, pass: ClonePass, ignoreDups: bool)
      returns (err: Option<LoadError>, ghost copies: seq<Result<ClassEntry, LoadError>>)
    requires classes.Valid() && Valid(source)
    requires pass.Valid() && ClassesIn(Entries(source.arData), pass.shared, pass.rank, pass.symbolTable)
    modifies classes, pass
    ensures classes.Valid() && |copies| == |Entries(source.arData)| && CopiesOf(true, Entries(source.arData), copies)
    ensures err == ErrorOf(ClassesAfter(source.nNumOfElements > 0, old(classes.entries), Entries(source.arData), copies, ignoreDups))
    ensures err.None? ==> Success(classes.entries) == ClassesAfter(source.nNumOfElements > 0, old(classes.entries), Entries(source.arData), copies, ignoreDups)
    ensures err.None? && source.nNumOfElements > 0 ==> classes.internalPointer == if |classes.entries| > 0 then 0 else INVALID_IDX
    ensures source.nNumOfElements == 0 ==> classes.entries == old(classes.entries) && classes.internalPointer == old(classes.internalPointer)
    ensures pass.Valid() && DataGrew(old(pass.State()), pass.State()) && pass.pending == old(pass.pending)
  {
    err := None;
    copies := UnrunAll(true, Entries(source.arData));
    if source.nNumOfElements > 0 {
      err, copies := ClassHashCopy(classes, source, pass, ignoreDups);
    } else {
      CopiesOfPad(true, Entries(source.arData), []);
    }
  }

  /**
   * The functions of a script merged after its classes, from shared
   * memory: each stored function is prepared for execution.
   */
  method LoadFunctionsShared(functions: SymbolTable<OpArray>, source: HashTable<OpArray>, pass: ClonePass)
      returns (err: Option<LoadError>, ghost vals: seq<OpArray>)
    requires functions.Valid() && Valid(source) && Distinct(Entries(source.arData))
    requires pass.Valid() && FunctionsIn(Entries(source.arData), pass.shared, pass.rank, pass.symbolTable)
    modifies functions, pass
    ensures functions.Valid() && |vals| == |Entries(source.arData)|
    ensures err == ErrorOf(FunctionsAfter(source.nNumOfElements > 0, old(functions.entries), Entries(source.arData), vals))
    ensures err.None? ==> Success(functions.entries) == FunctionsAfter(source.nNumOfElements > 0, old(functions.entries), Entries(source.arData), vals)
    ensures err.None? && source.nNumOfElements > 0 ==> functions.internalPointer == if |functions.entries| > 0 then 0 else INVALID_IDX
    ensures source.nNumOfElements == 0 ==> functions.entries == old(functions.entries) && functions.internalPointer == old(functions.internalPointer)
    ensures pass.Valid() && Grew(old(pass.State()), pass.State()) && pass.pending == old(pass.pending)
    ensures err.None? && source.nNumOfElements > 0 ==>
      StoredPrepared(old(functions.entries), Entries(source.arData), vals, pass.origin, pass.symbolTable)
  {
    err := None;
    vals := Values(Entries(source.arData));
    if source.nNumOfElements > 0 {
      err, vals := FunctionHashCopy(functions, source, pass);
    }
  }

  /**
   * zend_accel_load_script.  From shared memory (`fromShm`), a fresh
   * translation table is opened, the classes are merged with
   * zend_class_copy_ctor, then the functions with
   * zend_prepare_function_for_execution (functions may bind classes), then
   * the main op_array is prepared, and the translation table is dropped.
   * Otherwise the functions and then the classes are merged as they are.
   * A table without elements is not merged at all.  The first fatal error
   * ends the load; `r` is the op_array to execute.  `copies` and `vals`
   * are what each merge stored for the source's classes and functions,
   * and `origin` the shared originals of the private copies.
   */
  method LoadScript(ps: PersistentScript, fromShm: bool, ignoreDups: bool,
                    functions: SymbolTable<OpArray>, classes: SymbolTable<ClassEntry>,
                    shared: map<Id, Node>, ghost rank: map<Id, nat>, symbolTable: Id, loadComments: bool, firstFree: nat)
      returns (r: Result<OpArray, LoadError>, ghost copies: seq<Result<ClassEntry, LoadError>>, ghost vals: seq<OpArray>,
               ghost origin: map<Id, Id>)
    requires ScriptOk(ps) && functions.Valid() && classes.Valid()
    requires fromShm ==>
      && SharedOk(shared, rank, symbolTable)
      && ClassesIn(Entries(ps.classTable.arData), shared, rank, symbolTable)
      && FunctionsIn(Entries(ps.functionTable.arData), shared, rank, symbolTable)
      && StaticsIn(ps.mainOpArray, shared, rank, symbolTable)
    modifies functions, classes
    ensures functions.Valid() && classes.Valid()
    ensures |copies| == |Entries(ps.classTable.arData)| && |vals| == |Entries(ps.functionTable.arData)|
    ensures CopiesOf(fromShm, Entries(ps.classTable.arData), copies)
    ensures !fromShm ==> vals == Values(Entries(ps.functionTable.arData))
    ensures ErrorOf(r) == ErrorOf(Loaded(fromShm,
      ClassesAfter(ps.classTable.nNumOfElements > 0, old(classes.entries), Entries(ps.classTable.arData), copies, ignoreDups),
      FunctionsAfter(ps.functionTable.nNumOfElements > 0, old(functions.entries), Entries(ps.functionTable.arData), vals)))
    ensures r.Success? ==> Success((classes.entries, functions.entries)) == Loaded(fromShm,
      ClassesAfter(ps.classTable.nNumOfElements > 0, old(classes.entries), Entries(ps.classTable.arData), copies, ignoreDups),
      FunctionsAfter(ps.functionTable.nNumOfElements > 0, old(functions.entries), Entries(ps.functionTable.arData), vals))
    ensures fromShm && ClassesAfter(ps.classTable.nNumOfElements > 0, old(classes.entries), Entries(ps.classTable.arData), copies, ignoreDups).Failure? ==>
      functions.entries == old(functions.entries) && functions.internalPointer == old(functions.internalPointer)
    ensures !fromShm && FunctionsAfter(ps.functionTable.nNumOfElements > 0, old(functions.entries), Entries(ps.functionTable.arData), vals).Failure? ==>
      classes.entries == old(classes.entries) && classes.internalPointer == old(classes.internalPointer)
    ensures ps.classTable.nNumOfElements == 0 ==> classes.entries == old(classes.entries) && classes.internalPointer == old(classes.internalPointer)
    ensures ps.functionTable.nNumOfElements == 0 ==> functions.entries == old(functions.entries) && functions.internalPointer == old(functions.internalPointer)
    ensures fromShm && r.Success? ==> Prepared(ps.mainOpArray, r.value, origin, symbolTable)
    ensures fromShm && r.Success? && ps.functionTable.nNumOfElements > 0 ==>
      StoredPrepared(old(functions.entries), Entries(ps.functionTable.arData), vals, origin, symbolTable)
    ensures !fromShm && r.Success? ==> r.value == ps.mainOpArray
  {
    if fromShm {
      r, copies, vals, origin := LoadShared(ps, ignoreDups, functions, classes, shared, rank, symbolTable, loadComments, firstFree);
    } else {
      r, copies, vals := LoadLocal(ps, ignoreDups, functions, classes);
      origin := map[];
    }
  }

  /** The branch of zend_accel_load_script for a script in shared memory. */
  method LoadShared(ps: PersistentScript, ignoreDups: bool, functions: SymbolTable<OpArray>, classes: SymbolTable<ClassEntry>,
                    shared: map<Id, Node>, ghost rank: map<Id, nat>, symbolTable: Id, loadComments: bool, firstFree: nat)
      returns (r: Result<OpArray, LoadError>, ghost copies: seq<Result<ClassEntry, LoadError>>, ghost vals: seq<OpArray>,
               ghost origin: map<Id, Id>)
    requires ScriptOk(ps) && functions.Valid() && classes.Valid()
    requires SharedOk(shared, rank, symbolTable)
    requires ClassesIn(Entries(ps.classTable.arData), shared, rank, symbolTable)
    requires FunctionsIn(Entries(ps.functionTable.arData), shared, rank, symbolTable)
    requires StaticsIn(ps.mainOpArray, shared, rank, symbolTable)
    modifies functions, classes
    ensures functions.Valid() && classes.Valid()
    ensures |copies| == |Entries(ps.classTable.arData)| && |vals| == |Entries(ps.functionTable.arData)|
    ensures CopiesOf(true, Entries(ps.classTable.arData), copies)
    ensures ErrorOf(r) == ErrorOf(Loaded(true,
      ClassesAfter(ps.classTable.nNumOfElements > 0, old(classes.entries), Entries(ps.classTable.arData), copies, ignoreDups),
      FunctionsAfter(ps.functionTable.nNumOfElements > 0, old(functions.entries), Entries(ps.functionTable.arData), vals)))
    ensures r.Success? ==> Success((classes.entries, functions.entries)) == Loaded(true,
      ClassesAfter(ps.classTable.nNumOfElements > 0, old(classes.entries), Entries(ps.classTable.arData), copies, ignoreDups),
      FunctionsAfter(ps.functionTable.nNumOfElements > 0, old(functions.entries), Entries(ps.functionTable.arData), vals))
    ensures ClassesAfter(ps.classTable.nNumOfElements > 0, old(classes.entries), Entries(ps.classTable.arData), copies, ignoreDups).Failure? ==>
      functions.entries == old(functions.entries) && functions.internalPointer == old(functions.internalPointer)
    ensures ps.classTable.nNumOfElements == 0 ==> classes.entries == old(classes.entries) && classes.internalPointer == old(classes.internalPointer)
    ensures ps.functionTable.nNumOfElements == 0 ==> functions.entries == old(functions.entries) && functions.internalPointer == old(functions.internalPointer)
    ensures r.Success? ==> Prepared(ps.mainOpArray, r.value, origin, symbolTable)
    ensures r.Success? && ps.functionTable.nNumOfElements > 0 ==>
      StoredPrepared(old(functions.entries), Entries(ps.functionTable.arData), vals, origin, symbolTable)
  {
    var err: Option<LoadError>;
    var pass := new ClonePass(shared, rank, symbolTable, loadComments, firstFree);
    err, copies := LoadClassesShared(classes, ps.classTable, pass, ignoreDups);
    vals := Values(Entries(ps.functionTable.arData));
    if err.Some? {
      return Failure(err.value), copies, vals, pass.origin;
    }
    err, vals := LoadFunctionsShared(functions, ps.functionTable, pass);
    if err.Some? {
      return Failure(err.value), copies, vals, pass.origin;
    }
    var main := PrepareMain(pass, ps.mainOpArray, old(functions.entries), Entries(ps.functionTable.arData), vals);
    origin := pass.origin;
    r := Success(main);
  }

  /** The main op_array prepared last; the functions prepared before stay prepared. */
  method PrepareMain(pass: ClonePass, main: OpArray, ghost t: seq<(Key, OpArray)>, ghost es: seq<(Key, OpArray)>,
                     ghost vals: seq<OpArray>) returns (g: OpArray)
    requires pass.Valid() && StaticsIn(main, pass.shared, pass.rank, pass.symbolTable) && |vals| <= |es|
    modifies pass
    ensures Prepared(main, g, pass.origin, pass.symbolTable)
    ensures StoredPrepared(t, es, vals, old(pass.origin), pass.symbolTable) ==> StoredPrepared(t, es, vals, pass.origin, pass.symbolTable)
  {
    ghost var o1 := pass.origin;
    g := PrepareFunction(pass, main);
    StoredPreparedMono(t, es, vals, o1, pass.origin, pass.symbolTable);
  }

  /** The branch of zend_accel_load_script for a script not in shared memory: nothing is copied. */
  method LoadLocal(ps: PersistentScript, ignoreDups: bool, functions: SymbolTable<OpArray>, classes: SymbolTable<ClassEntry>)
      returns (r: Result<OpArray, LoadError>, ghost copies: seq<Result<ClassEntry, LoadError>>, ghost vals: seq<OpArray>)
    requires ScriptOk(ps) && functions.Valid() && classes.Valid()
    modifies functions, classes
    ensures functions.Valid() && classes.Valid()
    ensures |copies| == |Entries(ps.classTable.arData)| && vals == Values(Entries(ps.functionTable.arData))
    ensures CopiesOf(false, Entries(ps.classTable.arData), copies)
    ensures ErrorOf(r) == ErrorOf(Loaded(false,
      ClassesAfter(ps.classTable.nNumOfElements > 0, old(classes.entries), Entries(ps.classTable.arData), copies, ignoreDups),
      FunctionsAfter(ps.functionTable.nNumOfElements > 0, old(functions.entries), Entries(ps.functionTable.arData), vals)))
    ensures r.Success? ==> Success((classes.entries, functions.entries)) == Loaded(false,
      ClassesAfter(ps.classTable.nNumOfElements > 0, old(classes.entries), Entries(ps.classTable.arData), copies, ignoreDups),
      FunctionsAfter(ps.functionTable.nNumOfElements > 0, old(functions.entries), Entries(ps.functionTable.arData), vals))
    ensures FunctionsAfter(ps.functionTable.nNumOfElements > 0, old(functions.entries), Entries(ps.functionTable.arData), vals).Failure? ==>
      classes.entries == old(classes.entries) && classes.internalPointer == old(classes.internalPointer)
    ensures ps.classTable.nNumOfElements == 0 ==> classes.entries == old(classes.entries) && classes.internalPointer == old(classes.internalPointer)
    ensures ps.functionTable.nNumOfElements == 0 ==> functions.entries == old(functions.entries) && functions.internalPointer == old(functions.internalPointer)
    ensures r.Success? ==> r.value == ps.mainOpArray
  {
    var err: Option<LoadError>;
    vals := Values(Entries(ps.functionTable.arData));
    copies := UnrunAll(false, Entries(ps.classTable.arData));
    CopiesOfPad(false, Entries(ps.classTable.arData), []);
    if ps.functionTable.nNumOfElements > 0 {
      err, vals := FunctionHashCopy(functions, ps.functionTable, null);
      if err.Some? {
        return Failure(err.value), copies, vals;
      }
    }
    if ps.classTable.nNumOfElements > 0 {
      err, copies := ClassHashCopy(classes, ps.classTable, null, ignoreDups);
      if err.Some? {
        return Failure(err.value), copies, vals;
      }
    }
    r := Success(ps.mainOpArray);
  }
}
