/**
 * The engine's values as the opcode cache sees them when it copies a cached
 * script out of shared memory: strings, zvals and constant-expression trees.
 *
 * A pointer is modelled by an abstract identity `Id`.  Objects in the shared
 * segment and objects the copy allocates in process memory live in two
 * disjoint address ranges, which `Shared` and `Private` keep apart.
 */
module ZendValues {
  import opened Wrappers

  /** The address of an engine object. */
  datatype Id = Shared(n: nat) | Private(n: nat)

  /**
   * A `zend_string *`: its address, its characters and whether it is
   * interned (IS_INTERNED).  Its reference count lives with the object it
   * points to, in the store that holds it.
   */
  datatype ZStr = ZStr(id: Id, val: seq<char>, interned: bool)

  /**
   * A zval.  Arrays, references and constant-expression trees are pointers
   * to reference-counted objects; `immutable` on an array is the
   * IS_TYPE_IMMUTABLE flag of the zval (Z_IMMUTABLE_P).  Objects and
   * resources are never copied by the opcode cache and keep their pointer.
   */
  datatype Zval =
    | Undef
    | Null
    | False
    | True
    | Long(l: int)
    | Double(d: real)
    | Str(s: ZStr)
    | Constant(s: ZStr)
    | Arr(id: Id, immutable: bool)
    | Ref(id: Id)
    | ConstAst(id: Id)
    | Obj(id: Id)
    | Res(id: Id)

  /** Whether a zval points to a string. */
  predicate IsString(z: Zval) {
    z.Str? || z.Constant?
  }

  /**
   * A `zend_ast` node: a ZEND_CONST leaf holding a zval, or an inner node of
   * some kind with its children, each of which may be NULL.
   */
  datatype Ast =
    | AstZval(val: Zval)
    | AstNode(kind: nat, children: seq<Option<Ast>>)

  /** The number of nodes of a tree, for termination of the walks over it. */
  function AstSize(a: Ast): nat
  {
    match a
    case AstZval(_) => 1
    case AstNode(_, cs) =>
      1 + SumOf(seq(|cs|, i requires 0 <= i < |cs| => if cs[i].Some? then AstSize(cs[i].value) else 0))
  }

  function SumOf(xs: seq<nat>): nat
  {
    if xs == [] then 0 else SumOf(xs[..|xs| - 1]) + xs[|xs| - 1]
  }

  /** Every child of an inner node is smaller than the node. */
  lemma ChildSmaller(a: Ast, i: nat)
    requires a.AstNode? && i < |a.children| && a.children[i].Some?
    ensures AstSize(a.children[i].value) < AstSize(a)
  {
    var cs := a.children;
    var xs := seq(|cs|, j requires 0 <= j < |cs| => if cs[j].Some? then AstSize(cs[j].value) else 0);
    ElementBelowSum(xs, i);
  }

  lemma {:induction false} ElementBelowSum(xs: seq<nat>, i: nat)
    requires i < |xs|
    ensures xs[i] <= SumOf(xs)
    decreases |xs|
  {
    if i < |xs| - 1 {
      ElementBelowSum(xs[..|xs| - 1], i);
    }
  }
}
