/**
 * zend_class_copy_ctor: the copy of a cached class entry made while a
 * script is loaded from shared memory.  The copy gets a reference count
 * of one and is registered in `bind_hash` when the original is used as a
 * parent; its default and static property tables, method table, property
 * table, constants and name are cloned; its interface table is a fresh
 * zeroed array; its parent and magic-method handlers are redirected
 * through `bind_hash`; its trait alias and precedence lists are copied up
 * to their NULL sentinels.
 */
module ClassCopy {
  import opened Wrappers
  import opened ZendValues
  import opened HashTables
  import opened ZendEntities
  import opened CloneEngine
  import opened MemberCopy

  // ---------------------------------------------------------------------
  // Well-formed shared class entries
  // ---------------------------------------------------------------------

  /** A NULL-terminated list: some entry is NULL. */
  predicate Terminated<T>(l: seq<Option<T>>) {
    exists i :: 0 <= i < |l| && l[i].None?
  }

  /** A default properties or static members table of shared zvals. */
  ghost predicate ZvalsIn(zs: Option<seq<Zval>>, sh: map<Id, Node>, rk: map<Id, nat>, symtab: Id) {
    zs.Some? ==> forall i :: 0 <= i < |zs.value| ==> ZvalIn(zs.value[i], sh, rk, symtab)
  }

  ghost predicate OptStrIn(s: Option<ZStr>, sh: map<Id, Node>) {
    s.Some? ==> StrIn(s.value, sh)
  }

  ghost predicate AliasIn(a: TraitAlias, sh: map<Id, Node>) {
    OptStrIn(a.traitMethod.methodName, sh) && OptStrIn(a.traitMethod.className, sh) && OptStrIn(a.alias, sh)
  }

  ghost predicate AliasesIn(l: Option<seq<Option<TraitAlias>>>, sh: map<Id, Node>) {
    l.Some? ==> Terminated(l.value) && forall i :: 0 <= i < SentinelLength(l.value) ==> AliasIn(l.value[i].value, sh)
  }

  /** A NULL-terminated list of shared class names. */
  ghost predicate NamesIn(l: seq<Option<ZStr>>, sh: map<Id, Node>) {
    Terminated(l) && forall i :: 0 <= i < SentinelLength(l) ==> StrIn(l[i].value, sh)
  }

  ghost predicate PrecedenceIn(p: TraitPrecedence, sh: map<Id, Node>) {
    && StrIn(p.methodName, sh) && StrIn(p.className, sh)
    && (p.excludeFromClasses.Some? ==> NamesIn(p.excludeFromClasses.value, sh))
  }

  ghost predicate PrecedencesIn(l: Option<seq<Option<TraitPrecedence>>>, sh: map<Id, Node>) {
    l.Some? ==> Terminated(l.value) && forall i :: 0 <= i < SentinelLength(l.value) ==> PrecedenceIn(l.value[i].value, sh)
  }

  /** A class entry in the shared segment, with everything the copy reads in it. */
  ghost predicate ClassIn(c: ClassEntry, sh: map<Id, Node>, rk: map<Id, nat>, symtab: Id) {
    && StrIn(c.name, sh)
    && ZvalsIn(c.defaultProperties, sh, rk, symtab)
    && MethodsIn(c.functionTable, sh, rk, symtab)
    && ZvalsIn(c.defaultStaticMembers, sh, rk, symtab)
    && PropsIn(c.propertiesInfo, sh)
    && TableIn(c.constantsTable, sh, rk, symtab)
    && AliasesIn(c.traitAliases, sh)
    && PrecedencesIn(c.traitPrecedences, sh)
  }

  // ---------------------------------------------------------------------
  // What the copy is
  // ---------------------------------------------------------------------

  /** A property table copied with `bind`: as many zvals, each a copy of its original. */
  ghost predicate ZvalsCopied(zs: Option<seq<Zval>>, zs2: Option<seq<Zval>>, o: map<Id, Id>, symtab: Id) {
    if zs.None? then zs2.None?
    else
      && zs2.Some? && |zs2.value| == |zs.value|
      && forall i :: 0 <= i < |zs.value| ==> ZvalMatch(zs.value[i], zs2.value[i], o, symtab)
  }

  /** The first `|out|` zvals of `zs` copied as zend_clone_zval with `bind` puts them. */
  ghost predicate SeqPlaced(zs: seq<Zval>, out: seq<Zval>, sh: map<Id, Node>, symtab: Id, bind: bool, n0: nat,
                            x: map<XKey, Id>) {
    |out| <= |zs| && forall i :: 0 <= i < |out| ==> Placed(zs[i], out[i], sh, symtab, bind, n0, x)
  }

  ghost predicate ZvalsPlaced(zs: Option<seq<Zval>>, zs2: Option<seq<Zval>>, sh: map<Id, Node>, symtab: Id,
                              bind: bool, n0: nat, x: map<XKey, Id>) {
    zs.Some? && zs2.Some? ==> SeqPlaced(zs.value, zs2.value, sh, symtab, bind, n0, x)
  }

  /**
   * The default properties, static members and constants of a class copy,
   * all copied with `bind` from address `n0` on, `x` being `bind_hash`
   * afterwards: an array, reference or tree referenced more than once is
   * shared through its translation, any other gets a fresh copy.
   */
  ghost predicate MembersPlaced(c: ClassEntry, defaults: Option<seq<Zval>>, statics: Option<seq<Zval>>,
                                consts: HashTable<Zval>, sh: map<Id, Node>, symtab: Id, n0: nat, x: map<XKey, Id>) {
    && ZvalsPlaced(c.defaultProperties, defaults, sh, symtab, true, n0, x)
    && ZvalsPlaced(c.defaultStaticMembers, statics, sh, symtab, true, n0, x)
    && TablePlaced(c.constantsTable, consts, sh, symtab, true, n0, x)
  }

  /**
   * The members of class copy `d` that zend_class_copy_ctor copies with
   * `bind` (default properties, static members, constants), all made after
   * the class entry itself, `x` being `bind_hash` at the end of the copy.
   */
  ghost predicate ClassPlaced(c: ClassEntry, d: ClassEntry, sh: map<Id, Node>, symtab: Id, x: map<XKey, Id>) {
    d.id.Private? && MembersPlaced(c, d.defaultProperties, d.defaultStaticMembers, d.constantsTable, sh, symtab, d.id.n + 1, x)
  }

  ghost predicate AliasCopied(a: TraitAlias, a2: TraitAlias, o: map<Id, Id>) {
    && KeyMatch(a.traitMethod.methodName, a2.traitMethod.methodName, o)
    && KeyMatch(a.traitMethod.className, a2.traitMethod.className, o)
    && KeyMatch(a.alias, a2.alias, o)
    && a2.modifiers == a.modifiers
  }

  /**
   * A trait alias list copied up to its sentinel: as many aliases as come
   * before the first NULL, each a copy, then a NULL.
   */
  ghost predicate AliasListCopied(l: seq<Option<TraitAlias>>, l2: seq<Option<TraitAlias>>, o: map<Id, Id>) {
    && Terminated(l)
    && |l2| == SentinelLength(l) + 1 && l2[|l2| - 1].None?
    && forall i :: 0 <= i < |l2| - 1 ==> l2[i].Some? && AliasCopied(l[i].value, l2[i].value, o)
  }

  ghost predicate AliasesCopied(l: Option<seq<Option<TraitAlias>>>, l2: Option<seq<Option<TraitAlias>>>, o: map<Id, Id>) {
    if l.None? then l2.None? else l2.Some? && AliasListCopied(l.value, l2.value, o)
  }

  /** A name list copied up to its sentinel, each name by zend_clone_str, then a NULL. */
  ghost predicate NamesCopied(l: seq<Option<ZStr>>, l2: seq<Option<ZStr>>, o: map<Id, Id>) {
    && Terminated(l)
    && |l2| == SentinelLength(l) + 1 && l2[|l2| - 1].None?
    && forall i :: 0 <= i < |l2| - 1 ==> l2[i].Some? && StrMatch(l[i].value, l2[i].value, o)
  }

  ghost predicate PrecedenceCopied(p: TraitPrecedence, p2: TraitPrecedence, o: map<Id, Id>) {
    && StrMatch(p.methodName, p2.methodName, o)
    && StrMatch(p.className, p2.className, o)
    && (if p.excludeFromClasses.None? then p2.excludeFromClasses.None?
        else p2.excludeFromClasses.Some? && NamesCopied(p.excludeFromClasses.value, p2.excludeFromClasses.value, o))
  }

  ghost predicate PrecedenceListCopied(l: seq<Option<TraitPrecedence>>, l2: seq<Option<TraitPrecedence>>, o: map<Id, Id>) {
    && Terminated(l)
    && |l2| == SentinelLength(l) + 1 && l2[|l2| - 1].None?
    && forall i :: 0 <= i < |l2| - 1 ==> l2[i].Some? && PrecedenceCopied(l[i].value, l2[i].value, o)
  }

  ghost predicate PrecedencesCopied(l: Option<seq<Option<TraitPrecedence>>>, l2: Option<seq<Option<TraitPrecedence>>>,
                                    o: map<Id, Id>) {
    if l.None? then l2.None? else l2.Some? && PrecedenceListCopied(l.value, l2.value, o)
  }

  /** The magic-method handlers redirected: each non-NULL handler to its translation. */
  ghost predicate HandlersCopied(hs: seq<Option<Id>>, hs2: seq<Option<Id>>, x: map<XKey, Id>) {
    && |hs2| == |hs|
    && forall i :: 0 <= i < |hs| ==>
         if hs[i].None? then hs2[i].None? else FuncKey(hs[i].value) in x && hs2[i] == Some(x[FuncKey(hs[i].value)])
  }

  /** `bind_hash` once class `c` is registered as copied to `id`: only a class used as a parent is. */
  function ClassReg(x: map<XKey, Id>, c: ClassEntry, id: Id): (r: map<XKey, Id>)
    ensures c.refcount != 1 ==> ClassKey(c.id) in r && r[ClassKey(c.id)] == id
    ensures forall k :: k != ClassKey(c.id) ==> (k in r <==> k in x) && (k in x ==> r[k] == x[k])
  {
    if c.refcount != 1 then x[ClassKey(c.id) := id] else x
  }

  /**
   * The condition under which zend_class_copy_ctor ends without a class
   * loading error, `x1` being `bind_hash` once the class is registered:
   * every method and property finds its class and prototype, the parent
   * has a translation, and every handler has one or is one of the class's
   * own methods registered by the copy of its method table.
   */
  ghost predicate ClassResolves(c: ClassEntry, x1: map<XKey, Id>) {
    && MethodsResolve(LiveBuckets(c.functionTable.arData), c.id, x1)
    && PropsResolve(LiveBuckets(c.propertiesInfo.arData), c.id, x1)
    && (c.parent.Some? ==> ClassKey(c.parent.value) in x1)
    && HandlersKnown(c, x1)
  }

  /** Every handler of `c` has a translation in `x1` or is one of the methods its copy registers. */
  ghost predicate HandlersKnown(c: ClassEntry, x1: map<XKey, Id>) {
    forall i :: 0 <= i < |c.handlers| && c.handlers[i].Some? ==>
      FuncKey(c.handlers[i].value) in x1 || FuncKey(c.handlers[i].value) in RegKeys(LiveBuckets(c.functionTable.arData))
  }

  /**
   * The member the class loading error names when the copy of `c` stops,
   * `x1` being `bind_hash` once `c` is registered: the first method that
   * finds no scope or prototype translation, else the first property whose
   * declaring class has none; no member when the parent or a handler is
   * what is missing.
   */
  ghost function FailedMember(c: ClassEntry, x1: map<XKey, Id>): Option<seq<char>> {
    var m := FirstUnresolvedMethod(LiveBuckets(c.functionTable.arData), c.id, x1, 0);
    if m.Some? then m else FirstUnresolvedProp(LiveBuckets(c.propertiesInfo.arData), c.id, x1, 0)
  }

  /**
   * `d` is the copy zend_class_copy_ctor makes of class `c`, `x1` being
   * `bind_hash` once `c` is registered and `x` at the end of the copy.
   */
  ghost predicate ClassCopied(c: ClassEntry, d: ClassEntry, x1: map<XKey, Id>, x: map<XKey, Id>,
                              o: map<Id, Id>, symtab: Id, loadComments: bool) {
    && d.id.Private? && d.refcount == 1
    && ZvalsCopied(c.defaultProperties, d.defaultProperties, o, symtab)
    && MethodTableCopied(c.functionTable, d.functionTable, c.id, d.id, x1, o, symtab)
    && CodeAgree(x, Registrations(x1, LiveBuckets(c.functionTable.arData), d.functionTable.arData))
    && ZvalsCopied(c.defaultStaticMembers, d.defaultStaticMembers, o, symtab)
    && d.staticMembers == d.defaultStaticMembers
    && PropTableCopied(c.propertiesInfo, d.propertiesInfo, c.id, d.id, x1, o, loadComments)
    && TableCopied(c.constantsTable, d.constantsTable, o, symtab) && HashTables.Valid(d.constantsTable)
    && StrMatch(c.name, d.name, o)
    && d.numInterfaces == c.numInterfaces
    && d.interfaces == (if c.numInterfaces != 0 then Some(seq(c.numInterfaces, _ => None)) else None)
    && DocCopied(c.docComment, d.docComment, loadComments)
    && (c.parent.None? ==> d.parent.None?)
    && (c.parent.Some? ==> ClassKey(c.parent.value) in x1 && d.parent == Some(x1[ClassKey(c.parent.value)]))
    && HandlersCopied(c.handlers, d.handlers, x)
    && AliasesCopied(c.traitAliases, d.traitAliases, o)
    && PrecedencesCopied(c.traitPrecedences, d.traitPrecedences, o)
    && d.filename == c.filename && d.lineStart == c.lineStart
  }

  // ---------------------------------------------------------------------
  // The copy
  // ---------------------------------------------------------------------

  /**
   * zend_class_copy_ctor on class entry `c`, in the order of the source:
   * allocation and registration, default properties, methods, static
   * members, properties, constants, name, interfaces, doc comment, parent,
   * handlers, trait aliases, trait precedences.  A missing translation is
   * the class loading error naming the class.
   */
  method ClassCopyCtor(pass: ClonePass, c: ClassEntry) returns (res: Result<ClassEntry, LoadError>)
    requires pass.Valid() && ClassIn(c, pass.shared, pass.rank, pass.symbolTable)
    modifies pass
    ensures pass.Valid() && DataGrew(old(pass.State()), pass.State()) && pass.pending == old(pass.pending)
    ensures res.Success? <==> ClassResolves(c, ClassReg(old(pass.xlat), c, Private(old(pass.nextId))))
    ensures res.Success? ==>
      && res.value.id == Private(old(pass.nextId))
      && ClassCopied(c, res.value, ClassReg(old(pass.xlat), c, res.value.id), pass.xlat, pass.origin,
                     pass.symbolTable, pass.loadComments)
      && ClassPlaced(c, res.value, pass.shared, pass.symbolTable, pass.xlat)
    ensures res.Failure? ==>
      res.error == ClassLoadingError(c.name.val, FailedMember(c, ClassReg(old(pass.xlat), c, Private(old(pass.nextId)))))
  {
    ghost var s0 := pass.State();
    var id := Allocate(pass, c);
    ghost var s1 := pass.State();
    res := CopyAllocated(pass, c, id);
    DataGrewTrans(s0, s1, pass.State());
  }

  /**
   * zend_class_copy_ctor once the new entry `id` is allocated and
   * registered: the member tables, then the rest of the entry.
   */
  method CopyAllocated(pass: ClonePass, c: ClassEntry, id: Id) returns (res: Result<ClassEntry, LoadError>)
    requires pass.Valid() && ClassIn(c, pass.shared, pass.rank, pass.symbolTable) && id.Private?
    requires pass.nextId == id.n + 1
    modifies pass
    ensures pass.Valid() && DataGrew(old(pass.State()), pass.State()) && pass.pending == old(pass.pending)
    ensures res.Success? <==> ClassResolves(c, old(pass.xlat))
    ensures res.Success? ==>
      && res.value.id == id
      && ClassCopied(c, res.value, old(pass.xlat), pass.xlat, pass.origin, pass.symbolTable, pass.loadComments)
      && ClassPlaced(c, res.value, pass.shared, pass.symbolTable, pass.xlat)
    ensures res.Failure? ==> res.error == ClassLoadingError(c.name.val, FailedMember(c, old(pass.xlat)))
  {
    ghost var x1 := pass.xlat;
    ghost var s1 := pass.State();
    var members := CopyMembers(pass, c, id);
    ghost var s2 := pass.State();
    if members.Failure? {
      return Failure(members.error);
    }
    res := FinishPlaced(pass, c, id, members.value, x1);
    DataGrewTrans(s1, s2, pass.State());
    assert res.Success? <==> ClassResolves(c, x1);
    if res.Failure? {
      FailedMemberNone(c, x1);
    }
  }

  /** FinishCopy, with the placement of the copied member tables carried over to the new entry. */
  method FinishPlaced(pass: ClonePass, c: ClassEntry, id: Id, m: Members, ghost x1: map<XKey, Id>)
    returns (res: Result<ClassEntry, LoadError>)
    requires pass.Valid() && ClassIn(c, pass.shared, pass.rank, pass.symbolTable) && id.Private?
    requires MembersCopied(c, m, id, x1, pass.xlat, pass.origin, pass.symbolTable, pass.loadComments)
    requires MembersPlaced(c, m.defaults, m.statics, m.consts, pass.shared, pass.symbolTable, id.n + 1, pass.xlat)
    requires ClassKept(x1, pass.xlat)
    modifies pass
    ensures pass.Valid() && Grew(old(pass.State()), pass.State()) && pass.pending == old(pass.pending)
    ensures res.Success? <==> (c.parent.Some? ==> ClassKey(c.parent.value) in x1) && HandlersKnown(c, x1)
    ensures res.Success? ==> ClassPlaced(c, res.value, pass.shared, pass.symbolTable, pass.xlat)
    ensures res.Success? ==>
      && res.value.id == id
      && ClassCopied(c, res.value, x1, pass.xlat, pass.origin, pass.symbolTable, pass.loadComments)
    ensures res.Failure? ==> res.error == ClassLoadingError(c.name.val, None)
  {
    ghost var x2 := pass.xlat;
    res := FinishCopy(pass, c, id, m, x1);
    if res.Success? {
      ClassPlacedIntro(c, res.value, m, id, pass.shared, pass.symbolTable, x2, pass.xlat);
    }
  }

  /**
   * The new class entry, registered in `bind_hash` as the copy of `c`
   * unless `c` has a reference count of one (no other class has it as
   * parent).
   */
  method Allocate(pass: ClonePass, c: ClassEntry) returns (id: Id)
    requires pass.Valid()
    modifies pass
    ensures pass.Valid() && DataGrew(old(pass.State()), pass.State()) && pass.pending == old(pass.pending)
    ensures id == Private(old(pass.nextId)) && pass.nextId == old(pass.nextId) + 1
    ensures pass.xlat == ClassReg(old(pass.xlat), c, id)
  {
    ghost var s0 := pass.State();
    id := pass.Fresh();
    ghost var s1 := pass.State();
    if c.refcount != 1 {
      pass.RegisterCode(ClassKey(c.id), id);
    }
    DataGrewTrans(s0, s1, pass.State());
  }

  /**
   * The rest of zend_class_copy_ctor once the member tables are copied:
   * the name, the interface table, the doc comment, the parent, the
   * handlers and the trait lists.
   */
  method FinishCopy(pass: ClonePass, c: ClassEntry, id: Id, m: Members, ghost x1: map<XKey, Id>)
    returns (res: Result<ClassEntry, LoadError>)
    requires pass.Valid() && ClassIn(c, pass.shared, pass.rank, pass.symbolTable) && id.Private?
    requires MembersCopied(c, m, id, x1, pass.xlat, pass.origin, pass.symbolTable, pass.loadComments)
    requires ClassKept(x1, pass.xlat)
    modifies pass
    ensures pass.Valid() && Grew(old(pass.State()), pass.State()) && pass.pending == old(pass.pending)
    ensures res.Success? <==> (c.parent.Some? ==> ClassKey(c.parent.value) in x1) && HandlersKnown(c, x1)
    ensures res.Success? ==>
      && res.value.id == id
      && ClassCopied(c, res.value, x1, pass.xlat, pass.origin, pass.symbolTable, pass.loadComments)
      && res.value.defaultProperties == m.defaults && res.value.defaultStaticMembers == m.statics
      && res.value.constantsTable == m.consts
    ensures res.Failure? ==> res.error == ClassLoadingError(c.name.val, None)
  {
    ghost var s0 := pass.State();
    var name, interfaces, doc := CopyHeader(pass, c);
    ghost var s1 := pass.State();
    CodeKeptAgree(s0, s1);
    ClassKeptTrans(x1, s0.xlat, s1.xlat);
    ghost var live := LiveBuckets(c.functionTable.arData);
    CodeAgreeTrans(s1.xlat, s0.xlat, Registrations(x1, live, m.methods.arData));
    HandlersAgree(c, x1, m.methods.arData, s1.xlat);
    var redirected := Redirect(c, pass.xlat);
    if redirected.None? {
      return Failure(ClassLoadingError(c.name.val, None));
    }
    var (parent, handlers) := redirected.value;
    var traits := CopyTraits(pass, c.traitAliases, c.traitPrecedences);
    ghost var s2 := pass.State();
    GrewTrans(s0, s1, s2);
    CodeKeptAgree(s0, s2);
    CodeKeptAgree(s1, s2);
    HandlersCopiedAgree(c.handlers, handlers, s1.xlat, s2.xlat);
    MembersMono(c, m, id, x1, s0.xlat, s2.xlat, s0.origin, s2.origin, pass.symbolTable, pass.loadComments);
    KeyMatchMono(Some(c.name), Some(name), s1.origin, s2.origin);
    res := Success(c.(id := id, refcount := 1, defaultProperties := m.defaults, functionTable := m.methods,
                      defaultStaticMembers := m.statics, staticMembers := m.statics, propertiesInfo := m.props,
                      constantsTable := m.consts, name := name, interfaces := interfaces, docComment := doc,
                      parent := parent, handlers := handlers, traitAliases := traits.0,
                      traitPrecedences := traits.1));
  }

  /**
   * The name by zend_clone_str, a zeroed interface table of
   * `num_interfaces` entries (or none), and the doc comment.
   */
  method CopyHeader(pass: ClonePass, c: ClassEntry) returns (name: ZStr, interfaces: Option<seq<Option<Id>>>, doc: Option<ZStr>)
    requires pass.Valid() && StrIn(c.name, pass.shared)
    modifies pass
    ensures pass.Valid() && Grew(old(pass.State()), pass.State()) && pass.pending == old(pass.pending)
    ensures StrMatch(c.name, name, pass.origin)
    ensures interfaces == (if c.numInterfaces != 0 then Some(seq(c.numInterfaces, _ => None)) else None)
    ensures DocCopied(c.docComment, doc, pass.loadComments)
  {
    ghost var s0 := pass.State();
    name := pass.CloneStr(c.name);
    ghost var s1 := pass.State();
    interfaces := None;
    if c.numInterfaces != 0 {
      interfaces := Some(seq(c.numInterfaces, _ => None));
    }
    doc := CopyDoc(pass, c.docComment);
    GrewTrans(s0, s1, pass.State());
    KeyMatchMono(Some(c.name), Some(name), s1.origin, pass.origin);
  }

  /**
   * The parent, then each magic-method handler, redirected through
   * `bind_hash`; the first one without a translation is the class loading
   * error.
   */
  function Redirect(c: ClassEntry, x: map<XKey, Id>): (r: Option<(Option<Id>, seq<Option<Id>>)>)
    ensures r.Some? <==> (c.parent.Some? ==> ClassKey(c.parent.value) in x) && HandlersResolve(c.handlers, x)
    ensures r.Some? ==>
      && (c.parent.None? ==> r.value.0.None?)
      && (c.parent.Some? ==> r.value.0 == Some(x[ClassKey(c.parent.value)]))
      && HandlersCopied(c.handlers, r.value.1, x)
  {
    if c.parent.Some? && ClassKey(c.parent.value) !in x then None
    else
      var parent := if c.parent.Some? then Some(x[ClassKey(c.parent.value)]) else None;
      match TranslateHandlers(c.handlers, x)
      case None => None
      case Some(hs) => Some((parent, hs))
  }

  /** The member tables of a class copy, in the order they are copied. */
  datatype Members = Members(defaults: Option<seq<Zval>>, methods: HashTable<OpArray>, statics: Option<seq<Zval>>,
                             props: HashTable<PropertyInfo>, consts: HashTable<Zval>)

  /**
   * `m` holds the copies of the member tables of class `c` copied to `id`:
   * methods and properties resolved against `x1`, `x` agreeing with the
   * method registrations on code entries.
   */
  ghost predicate MembersCopied(c: ClassEntry, m: Members, id: Id, x1: map<XKey, Id>, x: map<XKey, Id>,
                                o: map<Id, Id>, symtab: Id, loadComments: bool) {
    && ZvalsCopied(c.defaultProperties, m.defaults, o, symtab)
    && MethodTableCopied(c.functionTable, m.methods, c.id, id, x1, o, symtab)
    && CodeAgree(x, Registrations(x1, LiveBuckets(c.functionTable.arData), m.methods.arData))
    && ZvalsCopied(c.defaultStaticMembers, m.statics, o, symtab)
    && PropTableCopied(c.propertiesInfo, m.props, c.id, id, x1, o, loadComments)
    && TableCopied(c.constantsTable, m.consts, o, symtab) && HashTables.Valid(m.consts)
  }

  /**
   * The member tables of zend_class_copy_ctor: default properties, the
   * method table, static members, the property table and constants, in
   * that order; an unresolved method or property stops the copy.
   */
  method CopyMembers(pass: ClonePass, c: ClassEntry, id: Id) returns (res: Result<Members, LoadError>)
    requires pass.Valid() && ClassIn(c, pass.shared, pass.rank, pass.symbolTable)
    modifies pass
    ensures pass.Valid() && DataGrew(old(pass.State()), pass.State()) && pass.pending == old(pass.pending)
    ensures ClassKept(old(pass.xlat), pass.xlat)
    ensures res.Success? <==>
      && MethodsResolve(LiveBuckets(c.functionTable.arData), c.id, old(pass.xlat))
      && PropsResolve(LiveBuckets(c.propertiesInfo.arData), c.id, old(pass.xlat))
    ensures res.Success? ==>
      && MembersCopied(c, res.value, id, old(pass.xlat), pass.xlat, pass.origin, pass.symbolTable, pass.loadComments)
      && MembersPlaced(c, res.value.defaults, res.value.statics, res.value.consts, pass.shared, pass.symbolTable,
                       old(pass.nextId), pass.xlat)
    ensures res.Failure? ==> res.error == ClassLoadingError(c.name.val, FailedMember(c, old(pass.xlat)))
  {
    ghost var s1 := pass.State();
    var part1 := CopyDefaultsAndMethods(pass, c, id);
    if part1.Failure? {
      FailedMethod(c, s1.xlat);
      return Failure(part1.error);
    }
    var (defaults, methods) := part1.value;
    ghost var s2 := pass.State();
    var part2 := CopyStaticsPropsConsts(pass, c, id);
    ghost var s3 := pass.State();
    PropsResolveKept(LiveBuckets(c.propertiesInfo.arData), c.id, s1.xlat, s2.xlat);
    if part2.Failure? {
      DataGrewTrans(s1, s2, s3);
      FailedProp(c, s1.xlat, s2.xlat);
      return Failure(part2.error);
    }
    var (statics, props, consts) := part2.value;
    var m := Members(defaults, methods, statics, props, consts);
    PropTableKept(c.propertiesInfo, props, c.id, id, s1.xlat, s2.xlat, s3.origin, pass.loadComments);
    ZvalsPlacedMono(c.defaultProperties, defaults, pass.shared, pass.symbolTable, true, s1.nextId, s1.nextId, s2.xlat, s3.xlat);
    ZvalsPlacedMono(c.defaultStaticMembers, statics, pass.shared, pass.symbolTable, true, s1.nextId, s2.nextId, s3.xlat, s3.xlat);
    TablePlacedMono(c.constantsTable, consts, pass.shared, pass.symbolTable, true, s1.nextId, s2.nextId, s3.xlat, s3.xlat);
    CodeKeptAgree(s2, s3);
    CodeAgreeTrans(s3.xlat, s2.xlat, Registrations(s1.xlat, LiveBuckets(c.functionTable.arData), methods.arData));
    ClassKeptTrans(s1.xlat, s2.xlat, s3.xlat);
    ZvalsCopiedMono(c.defaultProperties, defaults, s2.origin, s3.origin, pass.symbolTable);
    MethodsCopiedMono(LiveBuckets(c.functionTable.arData), methods.arData, c.id, id, s1.xlat, s2.origin, s3.origin,
                      pass.symbolTable);
    DataGrewTrans(s1, s2, s3);
    res := Success(m);
  }

  /** Default properties, then the method table. */
  method CopyDefaultsAndMethods(pass: ClonePass, c: ClassEntry, id: Id)
    returns (res: Result<(Option<seq<Zval>>, HashTable<OpArray>), LoadError>)
    requires pass.Valid() && ClassIn(c, pass.shared, pass.rank, pass.symbolTable)
    modifies pass
    ensures pass.Valid() && DataGrew(old(pass.State()), pass.State()) && pass.pending == old(pass.pending)
    ensures ClassKept(old(pass.xlat), pass.xlat)
    ensures res.Success? <==> MethodsResolve(LiveBuckets(c.functionTable.arData), c.id, old(pass.xlat))
    ensures res.Success? ==>
      && ZvalsCopied(c.defaultProperties, res.value.0, pass.origin, pass.symbolTable)
      && MethodTableCopied(c.functionTable, res.value.1, c.id, id, old(pass.xlat), pass.origin, pass.symbolTable)
      && CodeAgree(pass.xlat, Registrations(old(pass.xlat), LiveBuckets(c.functionTable.arData), res.value.1.arData))
      && ZvalsPlaced(c.defaultProperties, res.value.0, pass.shared, pass.symbolTable, true, old(pass.nextId), pass.xlat)
    ensures res.Failure? ==>
      res.error == ClassLoadingError(c.name.val, FirstUnresolvedMethod(LiveBuckets(c.functionTable.arData), c.id, old(pass.xlat), 0))
  {
    ghost var s1 := pass.State();
    var defaults := CopyZvals(pass, c.defaultProperties);
    ghost var s2 := pass.State();
    CodeKeptAgree(s1, s2);
    var methods := CloneMethods(pass, c.functionTable, c.id, id, c.name.val);
    ghost var s3 := pass.State();
    DataGrewTrans(s1, s2, s3);
    ClassKeptTrans(s1.xlat, s2.xlat, s3.xlat);
    ghost var live := LiveBuckets(c.functionTable.arData);
    MethodsResolveAgree(live, c.id, s2.xlat, s1.xlat);
    if methods.Failure? {
      FirstUnresolvedMethodAgree(live, c.id, s2.xlat, s1.xlat, 0);
      return Failure(methods.error);
    }
    ZvalsCopiedMono(c.defaultProperties, defaults, s2.origin, s3.origin, pass.symbolTable);
    ZvalsPlacedMono(c.defaultProperties, defaults, pass.shared, pass.symbolTable, true, s1.nextId, s1.nextId, s2.xlat, s3.xlat);
    MethodTableAgree(c.functionTable, methods.value, c.id, id, s2.xlat, s1.xlat, s3.origin, pass.symbolTable);
    RegistrationsAgree(s2.xlat, s1.xlat, live, methods.value.arData);
    CodeAgreeTrans(s3.xlat, Registrations(s2.xlat, live, methods.value.arData), Registrations(s1.xlat, live, methods.value.arData));
    res := Success((defaults, methods.value));
  }

  /** Static members (the static members table then aliasing the defaults), the property table, constants. */
  method CopyStaticsPropsConsts(pass: ClonePass, c: ClassEntry, id: Id)
    returns (res: Result<(Option<seq<Zval>>, HashTable<PropertyInfo>, HashTable<Zval>), LoadError>)
    requires pass.Valid() && ClassIn(c, pass.shared, pass.rank, pass.symbolTable)
    modifies pass
    ensures pass.Valid() && Grew(old(pass.State()), pass.State()) && pass.pending == old(pass.pending)
    ensures res.Success? <==> PropsResolve(LiveBuckets(c.propertiesInfo.arData), c.id, old(pass.xlat))
    ensures res.Success? ==>
      && ZvalsCopied(c.defaultStaticMembers, res.value.0, pass.origin, pass.symbolTable)
      && PropTableCopied(c.propertiesInfo, res.value.1, c.id, id, old(pass.xlat), pass.origin, pass.loadComments)
      && TableCopied(c.constantsTable, res.value.2, pass.origin, pass.symbolTable) && HashTables.Valid(res.value.2)
      && ZvalsPlaced(c.defaultStaticMembers, res.value.0, pass.shared, pass.symbolTable, true, old(pass.nextId), pass.xlat)
      && TablePlaced(c.constantsTable, res.value.2, pass.shared, pass.symbolTable, true, old(pass.nextId), pass.xlat)
    ensures res.Failure? ==>
      res.error == ClassLoadingError(c.name.val, FirstUnresolvedProp(LiveBuckets(c.propertiesInfo.arData), c.id, old(pass.xlat), 0))
  {
    ghost var s1 := pass.State();
    var statics := CopyZvals(pass, c.defaultStaticMembers);
    ghost var s2 := pass.State();
    CodeKeptAgree(s1, s2);
    var props := ClonePropInfo(pass, c.propertiesInfo, c.id, id, c.name.val);
    ghost var s3 := pass.State();
    GrewTrans(s1, s2, s3);
    PropsResolveKept(LiveBuckets(c.propertiesInfo.arData), c.id, s1.xlat, s2.xlat);
    if props.Failure? {
      FirstUnresolvedPropKept(LiveBuckets(c.propertiesInfo.arData), c.id, s1.xlat, s2.xlat, 0);
      return Failure(props.error);
    }
    var consts := CopyConstants(pass, c.constantsTable);
    ghost var s4 := pass.State();
    GrewTrans(s1, s3, s4);
    GrewTrans(s2, s3, s4);
    PropTableKept(c.propertiesInfo, props.value, c.id, id, s1.xlat, s2.xlat, s3.origin, pass.loadComments);
    PropTableMono(c.propertiesInfo, props.value, c.id, id, s1.xlat, s3.origin, s4.origin, pass.loadComments);
    ZvalsCopiedMono(c.defaultStaticMembers, statics, s2.origin, s4.origin, pass.symbolTable);
    ZvalsPlacedMono(c.defaultStaticMembers, statics, pass.shared, pass.symbolTable, true, s1.nextId, s1.nextId, s2.xlat, s4.xlat);
    TablePlacedMono(c.constantsTable, consts, pass.shared, pass.symbolTable, true, s1.nextId, s3.nextId, s4.xlat, s4.xlat);
    res := Success((statics, props.value, consts));
  }

  /** The trait alias and precedence lists, each copied when present. */
  method CopyTraits(pass: ClonePass, aliases: Option<seq<Option<TraitAlias>>>,
                    precedences: Option<seq<Option<TraitPrecedence>>>)
    returns (r: (Option<seq<Option<TraitAlias>>>, Option<seq<Option<TraitPrecedence>>>))
    requires pass.Valid() && AliasesIn(aliases, pass.shared) && PrecedencesIn(precedences, pass.shared)
    modifies pass
    ensures pass.Valid() && Grew(old(pass.State()), pass.State()) && pass.pending == old(pass.pending)
    ensures AliasesCopied(aliases, r.0, pass.origin) && PrecedencesCopied(precedences, r.1, pass.origin)
  {
    ghost var s1 := pass.State();
    var a := None;
    if aliases.Some? {
      var l := CopyAliases(pass, aliases.value);
      a := Some(l);
    }
    ghost var s2 := pass.State();
    var p := None;
    if precedences.Some? {
      var l := CopyPrecedences(pass, precedences.value);
      p := Some(l);
    }
    GrewTrans(s1, s2, pass.State());
    if aliases.Some? {
      AliasListMono(aliases.value, a.value, s2.origin, pass.origin);
    }
    r := (a, p);
  }

  /** Whether every non-NULL handler has a translation in `x`. */
  ghost predicate HandlersResolve(hs: seq<Option<Id>>, x: map<XKey, Id>) {
    forall i :: 0 <= i < |hs| && hs[i].Some? ==> FuncKey(hs[i].value) in x
  }

  /**
   * zend_update_inherited_handler over the magic-method slots: each
   * non-NULL handler replaced by its translation; a handler without one
   * is the class loading error.
   */
  function TranslateHandlers(hs: seq<Option<Id>>, x: map<XKey, Id>): (r: Option<seq<Option<Id>>>)
    ensures r.Some? <==> HandlersResolve(hs, x)
    ensures r.Some? ==> HandlersCopied(hs, r.value, x)
    decreases |hs|
  {
    if hs == [] then Some([])
    else
      var h: Option<Option<Id>> :=
        if hs[0].None? then Some(None)
        else if FuncKey(hs[0].value) in x then Some(Some(x[FuncKey(hs[0].value)]))
        else None;
      match TranslateHandlers(hs[1..], x)
      case None => None
      case Some(rest) => if h.None? then None else Some([h.value] + rest)
  }

  /** A table of zvals copied one by one with `bind`, or NULL kept. */
  method CopyZvals(pass: ClonePass, zs: Option<seq<Zval>>) returns (zs2: Option<seq<Zval>>)
    requires pass.Valid() && ZvalsIn(zs, pass.shared, pass.rank, pass.symbolTable)
    modifies pass
    ensures pass.Valid() && Grew(old(pass.State()), pass.State()) && pass.pending == old(pass.pending)
    ensures ZvalsCopied(zs, zs2, pass.origin, pass.symbolTable)
    ensures ZvalsPlaced(zs, zs2, pass.shared, pass.symbolTable, true, old(pass.nextId), pass.xlat)
  {
    zs2 := None;
    if zs.Some? {
      var out := CloneZvals(pass, zs.value);
      zs2 := Some(out);
    }
  }

  /**
   * The loop over `default_properties_table` (or
   * `default_static_members_table`): each zval copied by zend_clone_zval
   * with `bind` set.
   */
  method CloneZvals(pass: ClonePass, zs: seq<Zval>) returns (out: seq<Zval>)
    requires pass.Valid() && forall i :: 0 <= i < |zs| ==> ZvalIn(zs[i], pass.shared, pass.rank, pass.symbolTable)
    modifies pass
    ensures pass.Valid() && Grew(old(pass.State()), pass.State()) && pass.pending == old(pass.pending)
    ensures |out| == |zs| && forall i :: 0 <= i < |zs| ==> ZvalMatch(zs[i], out[i], pass.origin, pass.symbolTable)
    ensures SeqPlaced(zs, out, pass.shared, pass.symbolTable, true, old(pass.nextId), pass.xlat)
  {
    ghost var s0 := pass.State();
    out := [];
    var i := 0;
    while i < |zs|
      invariant 0 <= i <= |zs| && |out| == i
      invariant pass.Valid() && Grew(s0, pass.State()) && pass.pending == old(pass.pending)
      invariant forall j :: 0 <= j < i ==> ZvalMatch(zs[j], out[j], pass.origin, pass.symbolTable)
      invariant SeqPlaced(zs, out, pass.shared, pass.symbolTable, true, s0.nextId, pass.xlat)
    {
      ghost var s1 := pass.State();
      var v := pass.CloneZval(zs[i], true);
      GrewTrans(s0, s1, pass.State());
      SeqPlacedStep(zs, out, v, pass.shared, pass.symbolTable, true, s0.nextId, s1.nextId, s1.xlat, pass.xlat);
      ZvalsStep(zs, out, v, s1.origin, pass.origin, pass.symbolTable);
      out := out + [v];
      i := i + 1;
    }
  }

  /** zend_hash_clone_zval of the constants table, with `bind` set. */
  method CopyConstants(pass: ClonePass, t: HashTable<Zval>) returns (t2: HashTable<Zval>)
    requires pass.Valid() && TableIn(t, pass.shared, pass.rank, pass.symbolTable)
    modifies pass
    ensures pass.Valid() && Grew(old(pass.State()), pass.State()) && pass.pending == old(pass.pending)
    ensures TableCopied(t, t2, pass.origin, pass.symbolTable) && HashTables.Valid(t2)
    ensures TablePlaced(t, t2, pass.shared, pass.symbolTable, true, old(pass.nextId), pass.xlat)
  {
    ghost var bound: nat :| TableBelow(t, bound, pass.shared, pass.rank, pass.symbolTable);
    t2 := pass.CloneTableZval(t, true, bound);
  }

  /** The class doc comment: duplicated when comments are loaded, dropped otherwise. */
  method CopyDoc(pass: ClonePass, d: Option<ZStr>) returns (d2: Option<ZStr>)
    requires pass.Valid()
    modifies pass
    ensures pass.Valid() && Grew(old(pass.State()), pass.State()) && pass.pending == old(pass.pending)
    ensures DocCopied(d, d2, pass.loadComments)
  {
    d2 := d;
    if d.Some? {
      if pass.loadComments {
        var s := pass.Dup(d.value);
        d2 := Some(s);
      } else {
        d2 := None;
      }
    }
  }

  // ---------------------------------------------------------------------
  // The NULL-terminated trait lists
  // ---------------------------------------------------------------------

  /** `while (l[i]) i++;`: the number of entries before the sentinel. */
  method CountEntries<T>(l: seq<Option<T>>) returns (n: nat)
    requires Terminated(l)
    ensures n == SentinelLength(l)
  {
    n := 0;
    while l[n].Some?
      invariant n <= SentinelLength(l)
      decreases SentinelLength(l) - n
    {
      n := n + 1;
    }
  }

  /** A string pointer that may be NULL: zend_clone_str when it is not. */
  method CloneOptStr(pass: ClonePass, s: Option<ZStr>) returns (r: Option<ZStr>)
    requires pass.Valid() && OptStrIn(s, pass.shared)
    modifies pass
    ensures pass.Valid() && Grew(old(pass.State()), pass.State()) && pass.pending == old(pass.pending)
    ensures KeyMatch(s, r, pass.origin)
  {
    r := None;
    if s.Some? {
      var t := pass.CloneStr(s.value);
      r := Some(t);
    }
  }

  /** One trait alias: its method reference's names and its alias by zend_clone_str. */
  method CopyAlias(pass: ClonePass, a: TraitAlias) returns (a2: TraitAlias)
    requires pass.Valid() && AliasIn(a, pass.shared)
    modifies pass
    ensures pass.Valid() && Grew(old(pass.State()), pass.State()) && pass.pending == old(pass.pending)
    ensures AliasCopied(a, a2, pass.origin)
  {
    ghost var s0 := pass.State();
    var m := CloneOptStr(pass, a.traitMethod.methodName);
    ghost var s1 := pass.State();
    var k := CloneOptStr(pass, a.traitMethod.className);
    ghost var s2 := pass.State();
    var al := CloneOptStr(pass, a.alias);
    GrewTrans(s0, s1, s2);
    GrewTrans(s0, s2, pass.State());
    KeyMatchMono(a.traitMethod.methodName, m, s1.origin, pass.origin);
    KeyMatchMono(a.traitMethod.className, k, s2.origin, pass.origin);
    a2 := TraitAlias(MethodRef(m, k), al, a.modifiers);
  }

  /**
   * The copy of a trait alias list: its entries counted, a list of one
   * more made, each alias copied into it in turn, then the NULL sentinel.
   */
  method CopyAliases(pass: ClonePass, l: seq<Option<TraitAlias>>) returns (l2: seq<Option<TraitAlias>>)
    requires pass.Valid() && Terminated(l) && forall i :: 0 <= i < SentinelLength(l) ==> AliasIn(l[i].value, pass.shared)
    modifies pass
    ensures pass.Valid() && Grew(old(pass.State()), pass.State()) && pass.pending == old(pass.pending)
    ensures AliasListCopied(l, l2, pass.origin)
  {
    ghost var s0 := pass.State();
    var n := CountEntries(l);
    var out: seq<Option<TraitAlias>> := [];
    var i := 0;
    while l[i].Some?
      invariant i == |out| <= n
      invariant pass.Valid() && Grew(s0, pass.State()) && pass.pending == old(pass.pending)
      invariant AliasesUpTo(l, out, pass.origin)
      decreases n - i
    {
      ghost var s1 := pass.State();
      var a := CopyAlias(pass, l[i].value);
      GrewTrans(s0, s1, pass.State());
      AliasesStep(l, out, a, s1.origin, pass.origin);
      out := out + [Some(a)];
      i := i + 1;
    }
    l2 := out + [None];
  }

  /** One trait precedence: its method and class names by zend_clone_str, its exclusion list copied. */
  method CopyPrecedence(pass: ClonePass, p: TraitPrecedence) returns (p2: TraitPrecedence)
    requires pass.Valid() && PrecedenceIn(p, pass.shared)
    modifies pass
    ensures pass.Valid() && Grew(old(pass.State()), pass.State()) && pass.pending == old(pass.pending)
    ensures PrecedenceCopied(p, p2, pass.origin)
  {
    ghost var s0 := pass.State();
    var m := pass.CloneStr(p.methodName);
    ghost var s1 := pass.State();
    var k := pass.CloneStr(p.className);
    GrewTrans(s0, s1, pass.State());
    KeyMatchMono(Some(p.methodName), Some(m), s1.origin, pass.origin);
    var ex := p.excludeFromClasses;
    if ex.Some? {
      ghost var s2 := pass.State();
      var names := CopyNames(pass, ex.value);
      GrewTrans(s0, s2, pass.State());
      KeyMatchMono(Some(p.methodName), Some(m), s2.origin, pass.origin);
      KeyMatchMono(Some(p.className), Some(k), s2.origin, pass.origin);
      ex := Some(names);
    }
    p2 := TraitPrecedence(m, k, ex);
  }

  /** The copy of a trait precedence list, as for the alias list. */
  method CopyPrecedences(pass: ClonePass, l: seq<Option<TraitPrecedence>>) returns (l2: seq<Option<TraitPrecedence>>)
    requires pass.Valid() && Terminated(l)
    requires forall i :: 0 <= i < SentinelLength(l) ==> PrecedenceIn(l[i].value, pass.shared)
    modifies pass
    ensures pass.Valid() && Grew(old(pass.State()), pass.State()) && pass.pending == old(pass.pending)
    ensures PrecedenceListCopied(l, l2, pass.origin)
  {
    ghost var s0 := pass.State();
    var n := CountEntries(l);
    var out: seq<Option<TraitPrecedence>> := [];
    var i := 0;
    while l[i].Some?
      invariant i == |out| <= n
      invariant pass.Valid() && Grew(s0, pass.State()) && pass.pending == old(pass.pending)
      invariant PrecedencesUpTo(l, out, pass.origin)
      decreases n - i
    {
      ghost var s1 := pass.State();
      var p := CopyPrecedence(pass, l[i].value);
      GrewTrans(s0, s1, pass.State());
      PrecedencesStep(l, out, p, s1.origin, pass.origin);
      out := out + [Some(p)];
      i := i + 1;
    }
    l2 := out + [None];
  }

  /** The copy of an `exclude_from_classes` list: counted, each name by zend_clone_str, NULL-terminated. */
  method CopyNames(pass: ClonePass, l: seq<Option<ZStr>>) returns (l2: seq<Option<ZStr>>)
    requires pass.Valid() && NamesIn(l, pass.shared)
    modifies pass
    ensures pass.Valid() && Grew(old(pass.State()), pass.State()) && pass.pending == old(pass.pending)
    ensures NamesCopied(l, l2, pass.origin)
  {
    ghost var s0 := pass.State();
    var n := CountEntries(l);
    var out: seq<Option<ZStr>> := [];
    var i := 0;
    while l[i].Some?
      invariant i == |out| <= n
      invariant pass.Valid() && Grew(s0, pass.State()) && pass.pending == old(pass.pending)
      invariant NamesUpTo(l, out, pass.origin)
      decreases n - i
    {
      ghost var s1 := pass.State();
      var t := pass.CloneStr(l[i].value);
      GrewTrans(s0, s1, pass.State());
      NamesStep(l, out, t, s1.origin, pass.origin);
      out := out + [Some(t)];
      i := i + 1;
    }
    l2 := out + [None];
  }

  // ---------------------------------------------------------------------
  // Lemmas
  // ---------------------------------------------------------------------

  /** The zvals copied so far stay copies as the pass goes on, and one more is appended. */
  lemma ZvalsStep(zs: seq<Zval>, out: seq<Zval>, v: Zval, o: map<Id, Id>, o2: map<Id, Id>, symtab: Id)
    requires |out| < |zs| && OriginGrows(o, o2)
    requires forall j :: 0 <= j < |out| ==> ZvalMatch(zs[j], out[j], o, symtab)
    requires ZvalMatch(zs[|out|], v, o2, symtab)
    ensures forall j :: 0 <= j < |out| + 1 ==> ZvalMatch(zs[j], (out + [v])[j], o2, symtab)
  {
    forall j | 0 <= j < |out| + 1
      ensures ZvalMatch(zs[j], (out + [v])[j], o2, symtab)
    {
      if j < |out| {
        ZvalMatchMono(zs[j], out[j], o, o2, symtab);
      }
    }
  }

  lemma SeqPlacedStep(zs: seq<Zval>, out: seq<Zval>, v: Zval, sh: map<Id, Node>, symtab: Id, bind: bool,
                      n0: nat, n1: nat, x: map<XKey, Id>, x2: map<XKey, Id>)
    requires |out| < |zs| && SeqPlaced(zs, out, sh, symtab, bind, n0, x) && n0 <= n1 && DataKeysKept(x, x2)
    requires Placed(zs[|out|], v, sh, symtab, bind, n1, x2)
    ensures SeqPlaced(zs, out + [v], sh, symtab, bind, n0, x2)
  {
    forall j | 0 <= j < |out| + 1
      ensures Placed(zs[j], (out + [v])[j], sh, symtab, bind, n0, x2)
    {
      if j < |out| {
        PlacedMono(zs[j], out[j], sh, symtab, bind, n0, n0, x, x2);
      } else {
        PlacedMono(zs[j], v, sh, symtab, bind, n0, n1, x2, x2);
      }
    }
  }

  lemma ZvalsPlacedMono(zs: Option<seq<Zval>>, zs2: Option<seq<Zval>>, sh: map<Id, Node>, symtab: Id, bind: bool,
                        n0: nat, n1: nat, x: map<XKey, Id>, x2: map<XKey, Id>)
    requires ZvalsPlaced(zs, zs2, sh, symtab, bind, n1, x) && n0 <= n1 && DataKeysKept(x, x2)
    ensures ZvalsPlaced(zs, zs2, sh, symtab, bind, n0, x2)
  {
    if zs.Some? && zs2.Some? {
      forall j | 0 <= j < |zs2.value|
        ensures Placed(zs.value[j], zs2.value[j], sh, symtab, bind, n0, x2)
      {
        PlacedMono(zs.value[j], zs2.value[j], sh, symtab, bind, n0, n1, x, x2);
      }
    }
  }

  lemma MembersPlacedMono(c: ClassEntry, defaults: Option<seq<Zval>>, statics: Option<seq<Zval>>,
                          consts: HashTable<Zval>, sh: map<Id, Node>, symtab: Id, n0: nat,
                          x: map<XKey, Id>, x2: map<XKey, Id>)
    requires MembersPlaced(c, defaults, statics, consts, sh, symtab, n0, x) && DataKeysKept(x, x2)
    ensures MembersPlaced(c, defaults, statics, consts, sh, symtab, n0, x2)
  {
    ZvalsPlacedMono(c.defaultProperties, defaults, sh, symtab, true, n0, n0, x, x2);
    ZvalsPlacedMono(c.defaultStaticMembers, statics, sh, symtab, true, n0, n0, x, x2);
    TablePlacedMono(c.constantsTable, consts, sh, symtab, true, n0, n0, x, x2);
  }

  lemma ClassPlacedIntro(c: ClassEntry, d: ClassEntry, m: Members, id: Id, sh: map<Id, Node>, symtab: Id,
                         x0: map<XKey, Id>, x: map<XKey, Id>)
    requires d.id == id && id.Private? && DataKeysKept(x0, x)
    requires d.defaultProperties == m.defaults && d.defaultStaticMembers == m.statics && d.constantsTable == m.consts
    requires MembersPlaced(c, m.defaults, m.statics, m.consts, sh, symtab, id.n + 1, x0)
    ensures ClassPlaced(c, d, sh, symtab, x)
  {
    assert MembersPlaced(c, d.defaultProperties, d.defaultStaticMembers, d.constantsTable, sh, symtab, d.id.n + 1, x0);
    MembersPlacedMono(c, d.defaultProperties, d.defaultStaticMembers, d.constantsTable, sh, symtab, d.id.n + 1, x0, x);
  }



  /**
   * In a class copy, two default property slots that point to the same
   * array, reference or tree, referenced more than once, hold one and the
   * same copy; a slot pointing to an object referenced once holds a copy
   * made for the class, after its entry.
   */
  lemma DefaultsShareAliases(c: ClassEntry, d: ClassEntry, x1: map<XKey, Id>, x: map<XKey, Id>, o: map<Id, Id>,
                             sh: map<Id, Node>, symtab: Id, loadComments: bool, i: nat, j: nat)
    requires ClassCopied(c, d, x1, x, o, symtab, loadComments) && ClassPlaced(c, d, sh, symtab, x)
    requires c.defaultProperties.Some?
    requires i < |c.defaultProperties.value| && j < |c.defaultProperties.value|
    requires IsCopiedPtr(c.defaultProperties.value[i], symtab) && c.defaultProperties.value[i].id in sh
    ensures sh[c.defaultProperties.value[i].id].rc > 1 && c.defaultProperties.value[j] == c.defaultProperties.value[i] ==>
      d.defaultProperties.value[j] == d.defaultProperties.value[i]
    ensures sh[c.defaultProperties.value[i].id].rc <= 1 ==>
      d.defaultProperties.value[i].id.Private? && d.defaultProperties.value[i].id.n > d.id.n
  {
    var zs, zs2 := c.defaultProperties.value, d.defaultProperties.value;
    assert Placed(zs[i], zs2[i], sh, symtab, true, d.id.n + 1, x);
    assert Placed(zs[j], zs2[j], sh, symtab, true, d.id.n + 1, x);
    assert ZvalMatch(zs[i], zs2[i], o, symtab) && ZvalMatch(zs[j], zs2[j], o, symtab);
  }

  /** The first `|out|` entries of `l` have been copied into `out`. */
  ghost predicate AliasesUpTo(l: seq<Option<TraitAlias>>, out: seq<Option<TraitAlias>>, o: map<Id, Id>) {
    |out| <= |l| && forall j :: 0 <= j < |out| ==> l[j].Some? && out[j].Some? && AliasCopied(l[j].value, out[j].value, o)
  }

  ghost predicate NamesUpTo(l: seq<Option<ZStr>>, out: seq<Option<ZStr>>, o: map<Id, Id>) {
    |out| <= |l| && forall j :: 0 <= j < |out| ==> l[j].Some? && out[j].Some? && StrMatch(l[j].value, out[j].value, o)
  }

  ghost predicate PrecedencesUpTo(l: seq<Option<TraitPrecedence>>, out: seq<Option<TraitPrecedence>>, o: map<Id, Id>) {
    |out| <= |l| && forall j :: 0 <= j < |out| ==> l[j].Some? && out[j].Some? && PrecedenceCopied(l[j].value, out[j].value, o)
  }

  lemma AliasesStep(l: seq<Option<TraitAlias>>, out: seq<Option<TraitAlias>>, a: TraitAlias, o: map<Id, Id>, o2: map<Id, Id>)
    requires AliasesUpTo(l, out, o) && OriginGrows(o, o2)
    requires |out| < |l| && l[|out|].Some? && AliasCopied(l[|out|].value, a, o2)
    ensures AliasesUpTo(l, out + [Some(a)], o2)
  {
    forall j | 0 <= j < |out|
      ensures AliasCopied(l[j].value, out[j].value, o2)
    {
      AliasMono(l[j].value, out[j].value, o, o2);
    }
  }

  lemma NamesStep(l: seq<Option<ZStr>>, out: seq<Option<ZStr>>, t: ZStr, o: map<Id, Id>, o2: map<Id, Id>)
    requires NamesUpTo(l, out, o) && OriginGrows(o, o2)
    requires |out| < |l| && l[|out|].Some? && StrMatch(l[|out|].value, t, o2)
    ensures NamesUpTo(l, out + [Some(t)], o2)
  {
    forall j | 0 <= j < |out|
      ensures StrMatch(l[j].value, out[j].value, o2)
    {
      KeyMatchMono(l[j], out[j], o, o2);
    }
  }

  lemma NamesMono(l: seq<Option<ZStr>>, l2: seq<Option<ZStr>>, o: map<Id, Id>, o2: map<Id, Id>)
    requires NamesCopied(l, l2, o) && OriginGrows(o, o2)
    ensures NamesCopied(l, l2, o2)
  {
    forall j | 0 <= j < |l2| - 1
      ensures StrMatch(l[j].value, l2[j].value, o2)
    {
      KeyMatchMono(l[j], l2[j], o, o2);
    }
  }

  lemma PrecedenceMono(p: TraitPrecedence, p2: TraitPrecedence, o: map<Id, Id>, o2: map<Id, Id>)
    requires PrecedenceCopied(p, p2, o) && OriginGrows(o, o2)
    ensures PrecedenceCopied(p, p2, o2)
  {
    KeyMatchMono(Some(p.methodName), Some(p2.methodName), o, o2);
    KeyMatchMono(Some(p.className), Some(p2.className), o, o2);
    if p.excludeFromClasses.Some? {
      NamesMono(p.excludeFromClasses.value, p2.excludeFromClasses.value, o, o2);
    }
  }

  lemma PrecedencesStep(l: seq<Option<TraitPrecedence>>, out: seq<Option<TraitPrecedence>>, p: TraitPrecedence,
                        o: map<Id, Id>, o2: map<Id, Id>)
    requires PrecedencesUpTo(l, out, o) && OriginGrows(o, o2)
    requires |out| < |l| && l[|out|].Some? && PrecedenceCopied(l[|out|].value, p, o2)
    ensures PrecedencesUpTo(l, out + [Some(p)], o2)
  {
    forall j | 0 <= j < |out|
      ensures PrecedenceCopied(l[j].value, out[j].value, o2)
    {
      PrecedenceMono(l[j].value, out[j].value, o, o2);
    }
  }

  lemma AliasMono(a: TraitAlias, a2: TraitAlias, o: map<Id, Id>, o2: map<Id, Id>)
    requires AliasCopied(a, a2, o) && OriginGrows(o, o2)
    ensures AliasCopied(a, a2, o2)
  {
    KeyMatchMono(a.traitMethod.methodName, a2.traitMethod.methodName, o, o2);
    KeyMatchMono(a.traitMethod.className, a2.traitMethod.className, o, o2);
    KeyMatchMono(a.alias, a2.alias, o, o2);
  }

  lemma AliasListMono(l: seq<Option<TraitAlias>>, l2: seq<Option<TraitAlias>>, o: map<Id, Id>, o2: map<Id, Id>)
    requires AliasListCopied(l, l2, o) && OriginGrows(o, o2)
    ensures AliasListCopied(l, l2, o2)
  {
    forall i | 0 <= i < |l2| - 1
      ensures AliasCopied(l[i].value, l2[i].value, o2)
    {
      AliasMono(l[i].value, l2[i].value, o, o2);
    }
  }

  lemma ZvalsCopiedMono(zs: Option<seq<Zval>>, zs2: Option<seq<Zval>>, o: map<Id, Id>, o2: map<Id, Id>, symtab: Id)
    requires ZvalsCopied(zs, zs2, o, symtab) && OriginGrows(o, o2)
    ensures ZvalsCopied(zs, zs2, o2, symtab)
  {
    if zs.Some? {
      forall i | 0 <= i < |zs.value|
        ensures ZvalMatch(zs.value[i], zs2.value[i], o2, symtab)
      {
        ZvalMatchMono(zs.value[i], zs2.value[i], o, o2, symtab);
      }
    }
  }

  lemma PropTableMono(t: HashTable<PropertyInfo>, t2: HashTable<PropertyInfo>, oldCe: Id, ce: Id, x: map<XKey, Id>,
                      o: map<Id, Id>, o2: map<Id, Id>, loadComments: bool)
    requires PropTableCopied(t, t2, oldCe, ce, x, o, loadComments) && OriginGrows(o, o2)
    ensures PropTableCopied(t, t2, oldCe, ce, x, o2, loadComments)
  {
    var live := LiveBuckets(t.arData);
    forall i | 0 <= i < |t2.arData|
      ensures KeyMatch(live[i].key, t2.arData[i].key, o2)
      ensures PropCopied(live[i].val.v, t2.arData[i].val.v, oldCe, ce, x, o2, loadComments)
    {
      KeyMatchMono(live[i].key, t2.arData[i].key, o, o2);
      KeyMatchMono(Some(live[i].val.v.name), Some(t2.arData[i].val.v.name), o, o2);
    }
  }

  /** The error names a member exactly when a method or a property misses its translation. */
  lemma FailedMemberNone(c: ClassEntry, x1: map<XKey, Id>)
    ensures FailedMember(c, x1).None? <==>
      MethodsResolve(LiveBuckets(c.functionTable.arData), c.id, x1) && PropsResolve(LiveBuckets(c.propertiesInfo.arData), c.id, x1)
  {
    FirstUnresolvedMethodNone(LiveBuckets(c.functionTable.arData), c.id, x1, 0);
    FirstUnresolvedPropNone(LiveBuckets(c.propertiesInfo.arData), c.id, x1, 0);
  }

  /** A copy stopped by a method names that method. */
  lemma FailedMethod(c: ClassEntry, x1: map<XKey, Id>)
    ensures !MethodsResolve(LiveBuckets(c.functionTable.arData), c.id, x1) ==>
      FailedMember(c, x1) == FirstUnresolvedMethod(LiveBuckets(c.functionTable.arData), c.id, x1, 0)
  {
    FirstUnresolvedMethodNone(LiveBuckets(c.functionTable.arData), c.id, x1, 0);
  }

  /** A copy stopped by a property, every method resolved, names that property. */
  lemma FailedProp(c: ClassEntry, x1: map<XKey, Id>, x2: map<XKey, Id>)
    ensures MethodsResolve(LiveBuckets(c.functionTable.arData), c.id, x1) && ClassKept(x1, x2) ==>
      FailedMember(c, x1) == FirstUnresolvedProp(LiveBuckets(c.propertiesInfo.arData), c.id, x2, 0)
  {
    FirstUnresolvedMethodNone(LiveBuckets(c.functionTable.arData), c.id, x1, 0);
    if ClassKept(x1, x2) {
      FirstUnresolvedPropKept(LiveBuckets(c.propertiesInfo.arData), c.id, x1, x2, 0);
    }
  }

  lemma PropsResolveKept(live: seq<Bucket<PropertyInfo>>, oldCe: Id, x: map<XKey, Id>, y: map<XKey, Id>)
    requires ClassKept(x, y)
    ensures PropsResolve(live, oldCe, x) <==> PropsResolve(live, oldCe, y)
  {
    forall i | 0 <= i < |live| && IsLive(live[i])
      ensures PropCeOk(live[i].val.v, oldCe, x) <==> PropCeOk(live[i].val.v, oldCe, y)
    {
      PropKept(live[i].val.v, oldCe, oldCe, x, y, map[], false, live[i].val.v);
    }
  }

  /** A property table copied against `y` is one copied against `x` when the two agree on classes. */
  lemma PropTableKept(t: HashTable<PropertyInfo>, t2: HashTable<PropertyInfo>, oldCe: Id, ce: Id,
                      x: map<XKey, Id>, y: map<XKey, Id>, o: map<Id, Id>, loadComments: bool)
    requires ClassKept(x, y) && PropTableCopied(t, t2, oldCe, ce, y, o, loadComments)
    ensures PropTableCopied(t, t2, oldCe, ce, x, o, loadComments)
  {
    var live := LiveBuckets(t.arData);
    forall i | 0 <= i < |t2.arData|
      ensures PropCopied(live[i].val.v, t2.arData[i].val.v, oldCe, ce, x, o, loadComments)
    {
      PropKept(live[i].val.v, oldCe, ce, x, y, o, loadComments, t2.arData[i].val.v);
    }
  }

  lemma MethodsResolveAgree(live: seq<Bucket<OpArray>>, oldCe: Id, x: map<XKey, Id>, y: map<XKey, Id>)
    requires CodeAgree(x, y)
    ensures MethodsResolve(live, oldCe, x) <==> MethodsResolve(live, oldCe, y)
  {
    forall i | 0 <= i < |live| && IsLive(live[i])
      ensures ScopeOk(live[i].val.v, oldCe, x) <==> ScopeOk(live[i].val.v, oldCe, y)
      ensures ProtoKnown(live[i].val.v, x, live[..i + 1]) <==> ProtoKnown(live[i].val.v, y, live[..i + 1])
    {
      var f := live[i].val.v;
      if f.scope.Some? {
        assert ClassKey(f.scope.value) in x <==> ClassKey(f.scope.value) in y;
      }
      if f.prototype.Some? {
        assert FuncKey(f.prototype.value) in x <==> FuncKey(f.prototype.value) in y;
      }
    }
  }

  lemma {:induction false} RegistrationsAgree(x: map<XKey, Id>, y: map<XKey, Id>, live: seq<Bucket<OpArray>>,
                                              dst: seq<Bucket<OpArray>>)
    requires |live| == |dst| && CodeAgree(x, y)
    ensures CodeAgree(Registrations(x, live, dst), Registrations(y, live, dst))
    decreases |live|
  {
    if live != [] {
      var n := |live| - 1;
      RegistrationsAgree(x, y, live[..n], dst[..n]);
      if IsLive(live[n]) && IsLive(dst[n]) {
        Reg1Agree(Registrations(x, live[..n], dst[..n]), Registrations(y, live[..n], dst[..n]), live[n].val.v, dst[n].val.v.id);
      }
    }
  }

  /** A method table copied against `x` is one copied against `y` when the two agree on code entries. */
  lemma MethodTableAgree(t: HashTable<OpArray>, t2: HashTable<OpArray>, oldCe: Id, ce: Id, x: map<XKey, Id>,
                         y: map<XKey, Id>, o: map<Id, Id>, symtab: Id)
    requires CodeAgree(x, y) && MethodTableCopied(t, t2, oldCe, ce, x, o, symtab)
    ensures MethodTableCopied(t, t2, oldCe, ce, y, o, symtab)
  {
    var live, dst := LiveBuckets(t.arData), t2.arData;
    forall i | 0 <= i < |dst|
      ensures MethodCopied(live[i].val.v, dst[i].val.v, oldCe, ce, Registrations(y, live[..i + 1], dst[..i + 1]), o, symtab)
    {
      RegistrationsAgree(x, y, live[..i + 1], dst[..i + 1]);
      MethodCopiedMono(live[i].val.v, dst[i].val.v, oldCe, ce, Registrations(x, live[..i + 1], dst[..i + 1]),
                       Registrations(y, live[..i + 1], dst[..i + 1]), o, o, symtab);
    }
  }

  /**
   * A handler has a translation once the methods are copied exactly when
   * it had one before, or is one of the methods the copy registers.
   */
  lemma HandlersAgree(c: ClassEntry, x1: map<XKey, Id>, dst: seq<Bucket<OpArray>>, x: map<XKey, Id>)
    requires |LiveBuckets(c.functionTable.arData)| == |dst|
    requires forall i :: 0 <= i < |dst| ==> IsLive(LiveBuckets(c.functionTable.arData)[i]) && IsLive(dst[i])
    requires CodeAgree(x, Registrations(x1, LiveBuckets(c.functionTable.arData), dst))
    ensures HandlersResolve(c.handlers, x) <==> HandlersKnown(c, x1)
  {
    RegistrationsKeys(x1, LiveBuckets(c.functionTable.arData), dst);
  }

  lemma HandlersCopiedAgree(hs: seq<Option<Id>>, hs2: seq<Option<Id>>, x: map<XKey, Id>, y: map<XKey, Id>)
    requires HandlersCopied(hs, hs2, x) && CodeAgree(y, x)
    ensures HandlersCopied(hs, hs2, y)
  {
    forall i | 0 <= i < |hs| && hs[i].Some?
      ensures FuncKey(hs[i].value) in y && hs2[i] == Some(y[FuncKey(hs[i].value)])
    {
      assert FuncKey(hs[i].value) in x;
    }
  }

  lemma MembersMono(c: ClassEntry, m: Members, id: Id, x1: map<XKey, Id>, x: map<XKey, Id>, y: map<XKey, Id>,
                    o: map<Id, Id>, o2: map<Id, Id>, symtab: Id, loadComments: bool)
    requires OriginGrows(o, o2) && CodeAgree(y, x)
    ensures MembersCopied(c, m, id, x1, x, o, symtab, loadComments) ==> MembersCopied(c, m, id, x1, y, o2, symtab, loadComments)
  {
    if !MembersCopied(c, m, id, x1, x, o, symtab, loadComments) {
      return;
    }
    ZvalsCopiedMono(c.defaultProperties, m.defaults, o, o2, symtab);
    MethodsCopiedMono(LiveBuckets(c.functionTable.arData), m.methods.arData, c.id, id, x1, o, o2, symtab);
    CodeAgreeTrans(y, x, Registrations(x1, LiveBuckets(c.functionTable.arData), m.methods.arData));
    ZvalsCopiedMono(c.defaultStaticMembers, m.statics, o, o2, symtab);
    PropTableMono(c.propertiesInfo, m.props, c.id, id, x1, o, o2, loadComments);
    TableCopiedMono(c.constantsTable, m.consts, o, o2, symtab);
  }
}
