/**
 * The engine structures the opcode cache copies out of shared memory: the
 * reference-counted objects zvals point to, op_arrays, property infos and
 * class entries, and the fatal errors a copy can end in.
 */
module ZendEntities {
  import opened Wrappers
  import opened ZendValues
  import opened HashTables

  /** `function->type` of an internal function. */
  const ZEND_INTERNAL_FUNCTION: nat := 1
  /** `function->type` of a user function. */
  const ZEND_USER_FUNCTION: nat := 2
  /** ZEND_PROTECTED_REFCOUNT: the pinned reference count of a prepared op_array. */
  const ZEND_PROTECTED_REFCOUNT: nat := 0x4000_0000
  /** The inherited magic-method handlers of a class entry, in the order the copy rebinds them. */
  const MAGIC_HANDLERS: nat := 13

  /**
   * A reference-counted object a zval points to: a string, an array, a
   * reference or a constant-expression tree, each with its reference count
   * (its `gc` header).
   */
  datatype Node =
    | StrNode(rc: nat, chars: seq<char>)
    | ArrNode(rc: nat, ht: HashTable<Zval>)
    | RefNode(rc: nat, val: Zval)
    | AstRefNode(rc: nat, ast: Ast)

  /**
   * A `zend_op_array` (the user-function member of `zend_function`), with
   * the fields the copy reads or rewrites.  `id` is its address;
   * `refcount` is the pointed-to count, or None for a NULL pointer; `scope`
   * and `prototype` point to a class entry and to another function;
   * `filename`, `firstLine` and `last` are what the redeclaration message
   * reports.
   */
  datatype OpArray = OpArray(
    id: Id,
    fnType: nat,
    name: Option<ZStr>,
    isClosure: bool,
    refcount: Option<nat>,
    staticVars: Option<HashTable<Zval>>,
    scope: Option<Id>,
    prototype: Option<Id>,
    filename: seq<char>,
    firstLine: nat,
    last: nat)

  function FunctionName(f: OpArray): seq<char> {
    if f.name.Some? then f.name.value.val else ""
  }

  /** A `zend_property_info`: name, doc comment and declaring class. */
  datatype PropertyInfo = PropertyInfo(flags: nat, name: ZStr, docComment: Option<ZStr>, ce: Id)

  /** A `zend_trait_method_reference`: an optional method name and class name. */
  datatype MethodRef = MethodRef(methodName: Option<ZStr>, className: Option<ZStr>)

  /** A `zend_trait_alias`. */
  datatype TraitAlias = TraitAlias(traitMethod: MethodRef, alias: Option<ZStr>, modifiers: nat)

  /**
   * A `zend_trait_precedence`: its method reference (both names present)
   * and its NULL-terminated list of excluded class names, if any.
   */
  datatype TraitPrecedence = TraitPrecedence(
    methodName: ZStr,
    className: ZStr,
    excludeFromClasses: Option<seq<Option<ZStr>>>)

  /**
   * A `zend_class_entry` with the fields the copy reads or rewrites.
   * `handlers` are the thirteen inherited magic methods (constructor,
   * destructor, clone, __get, __set, __call, serialize_func,
   * unserialize_func, __isset, __unset, __tostring, __callstatic,
   * __debugInfo).  The trait lists are NULL-terminated arrays.
   */
  datatype ClassEntry = ClassEntry(
    id: Id,
    name: ZStr,
    refcount: nat,
    parent: Option<Id>,
    defaultProperties: Option<seq<Zval>>,
    functionTable: HashTable<OpArray>,
    defaultStaticMembers: Option<seq<Zval>>,
    staticMembers: Option<seq<Zval>>,
    propertiesInfo: HashTable<PropertyInfo>,
    constantsTable: HashTable<Zval>,
    numInterfaces: nat,
    interfaces: Option<seq<Option<Id>>>,
    docComment: Option<ZStr>,
    handlers: seq<Option<Id>>,
    traitAliases: Option<seq<Option<TraitAlias>>>,
    traitPrecedences: Option<seq<Option<TraitPrecedence>>>,
    filename: seq<char>,
    lineStart: nat)

  /** The fatal errors (E_ERROR) that end loading a script. */
  datatype LoadError =
    /** "class loading error, class %s[, function|property %s]" */
    | ClassLoadingError(className: seq<char>, member: Option<seq<char>>)
    /** "Cannot redeclare %s() [(previously declared in %s:%d)]" */
    | FunctionRedeclared(name: seq<char>, previous: Option<(seq<char>, nat)>)
    /** "Cannot redeclare class %s" */
    | ClassRedeclared(name: seq<char>)
    /** A write or read through a NULL pointer. */
    | NullPointerDereference

  /** The length of a NULL-terminated list: the index of its first NULL. */
  function SentinelLength<T>(xs: seq<Option<T>>): (n: nat)
    requires exists i :: 0 <= i < |xs| && xs[i].None?
    ensures n < |xs| && xs[n].None? && forall i :: 0 <= i < n ==> xs[i].Some?
    decreases |xs|
  {
    if xs[0].None? then 0
    else
      assert exists i :: 0 <= i < |xs[1..]| && xs[1..][i].None? by {
        var i :| 0 <= i < |xs| && xs[i].None?;
        assert i > 0 && xs[1..][i - 1].None?;
      }
      1 + SentinelLength(xs[1..])
  }
}
