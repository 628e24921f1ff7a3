/**
 * The strongly-typed AST of the Go-like language and the equality relation
 * its nodes carry.
 *
 * Every AST class of `ast_types.ts` is one constructor of `Node`; every
 * subclass of `Type` is one constructor of `Ty`. A `Type` used where the
 * source expects a `GoNode` is wrapped as `TypeNode`. The constructors hold
 * exactly the fields the TypeScript constructors store; the static field
 * types of the source (`Identifier[]`, `Application`, ...) are not checked at
 * run time, so the model keeps such fields at type `Node`.
 *
 * Equality follows the source's dynamic dispatch: `GoNode.equals` compares
 * the JSON serialisations of both objects, which for these records is deep
 * structural equality and is modelled as `==`; `Type.equals` and its
 * overrides add the `AnyType` wildcard where they recurse.
 */
module AstTypes {
  import opened Wrappers

  /** `DeclarationType`: "var" or "const". */
  datatype DeclarationType = Var | Const

  /** `BasicType`: "number", "bool", "string" or "Type". */
  datatype BasicKind = Number | Bool | String | TypeKind

  /**
   * A literal's value (`any` in the source). The only operation that sees it
   * is the JSON comparison of `GoNode.equals`, so it is represented by its
   * JSON text.
   */
  type LiteralValue = string

  /** The type variants: the subclasses of `Type`. */
  datatype Ty =
    | AnyType
    | VoidType
    | BasicType(typeValue: BasicKind)
    | TupleType(typeValues: seq<Ty>)
    | FunctionType(formalValue: Ty, returnValue: Ty)
    | ChanType(sendReceiveType: string, chanValueType: Ty)
    | ArrayType(arrType: Ty, size: int)
    | SliceType(sliceType: Ty)
    | CustomType(typeName: string)
    | StructType(elems: seq<Node>)

  /** The AST node records: the subclasses of `GoNode` other than `Type`. */
  datatype Node =
    | Program(topDeclarations: seq<Node>)
    | Identifier(name: string, valType: Option<Ty> := None)
    | Literal(value: LiteralValue, litType: Ty)
    | Application(operator: Node, operands: seq<Node>)
    | Declaration(declarationType: DeclarationType, ids: seq<Node>, vals: seq<Node>)
    | UnOp(opcode: string, expr: Node)
    | BinOp(left: Node, binOpcode: string, right: Node)
    | ExpressionStatement(expression: Node)
    | ReturnStatement(expressions: seq<Node>)
    | AssignmentStatement(ids: seq<Node>, vals: seq<Node>)
    | IfStatement(cond: Node, cons: seq<Node>, alt: Option<seq<Node>>, short: Option<Node>)
    | ForStatement(forInit: Option<Node>, forCond: Option<Node>, forPost: Option<Node>, body: seq<Node>)
    | GoStatement(app: Node)
    | SelectStatement(cases: seq<Node>)
    | SelectCase(statement: Node, body: seq<Node>)
    | DefaultCase(body: seq<Node>)
    | SendStatement(chan: Node, val: Node, inSelect: bool)
    | ReceiveExpression(chan: Node, inSelect: bool)
    | IndexAccess(accessed: Node, index: Node)
    | FunctionNode(funcName: Option<Node>, formals: seq<Node>, retType: Option<Ty>, body: seq<Node>)
    | EmptyStatement
    | StructElement(elemName: Node)
    | StructFieldInstantiation(field: Node, expr: Node)
    | StructLiteral(structType: Ty, fields: seq<Node>)
    | StructAccess(accessed: Node, field: Node)
    | TypeDeclaration(declName: Ty, decType: Ty)
    | TypeNode(ty: Ty)

  /** The 27 tags of the `NodeType` union. */
  const NodeTypes: set<string> := {
    "program", "identifier", "literal", "application", "declaration", "unop",
    "binop", "expressionStatement", "returnStatement", "assignmentStatement",
    "ifStatement", "forStatement", "indexAccess", "sendStatement", "goStatement",
    "function", "type", "structElement", "structLiteral",
    "structFieldInstantiation", "structAccess", "typeDeclaration",
    "receiveExpression", "selectStatement", "selectCase", "defaultCase",
    "emptyStatement"
  }

  /** The `type` field each constructor passes to `GoNode`. */
  function NodeTag(n: Node): (tag: string)
    ensures tag in NodeTypes
  {
    match n
    case Program(_) => "program"
    case Identifier(_, _) => "identifier"
    case Literal(_, _) => "literal"
    case Application(_, _) => "application"
    case Declaration(_, _, _) => "declaration"
    case UnOp(_, _) => "unop"
    case BinOp(_, _, _) => "binop"
    case ExpressionStatement(_) => "expressionStatement"
    case ReturnStatement(_) => "returnStatement"
    case AssignmentStatement(_, _) => "assignmentStatement"
    case IfStatement(_, _, _, _) => "ifStatement"
    case ForStatement(_, _, _, _) => "forStatement"
    case GoStatement(_) => "goStatement"
    case SelectStatement(_) => "selectStatement"
    case SelectCase(_, _) => "selectCase"
    case DefaultCase(_) => "defaultCase"
    case SendStatement(_, _, _) => "sendStatement"
    case ReceiveExpression(_, _) => "receiveExpression"
    case IndexAccess(_, _) => "indexAccess"
    case FunctionNode(_, _, _, _) => "function"
    case EmptyStatement => "emptyStatement"
    case StructElement(_) => "structElement"
    case StructFieldInstantiation(_, _) => "structFieldInstantiation"
    case StructLiteral(_, _) => "structLiteral"
    case StructAccess(_, _) => "structAccess"
    case TypeDeclaration(_, _) => "typeDeclaration"
    case TypeNode(_) => "type"
  }

  /** The `type_type` field each `Type` subclass passes to `Type`. */
  function TypeTag(t: Ty): (r: string)
    ensures r in {"any", "void", "basic", "tuple", "function", "chan", "array", "slice", "custom", "struct"}
  {
    match t
    case AnyType => "any"
    case VoidType => "void"
    case BasicType(_) => "basic"
    case TupleType(_) => "tuple"
    case FunctionType(_, _) => "function"
    case ChanType(_, _) => "chan"
    case ArrayType(_, _) => "array"
    case SliceType(_) => "slice"
    case CustomType(_) => "custom"
    case StructType(_) => "struct"
  }

  /** A `'send'`/`'receive'` pair of channel directions, in either order. */
  predicate DirectionsClash(d1: string, d2: string)
  {
    (d1 == "send" && d2 == "receive") || (d1 == "receive" && d2 == "send")
  }

  /**
   * `Type.equals` with an argument that is a `Type`: the wildcard checks,
   * then the structural comparison of `GoNode.equals`.
   */
  function BaseEquals(a: Ty, b: Ty): (r: bool)
    ensures a.AnyType? || b.AnyType? ==> r
    ensures r && !a.AnyType? && !b.AnyType? ==> TypeTag(a) == TypeTag(b)
  {
    if a.AnyType? then true
    else if b.AnyType? then true
    else a == b
  }

  /**
   * `a.equals(b)` for two types, dispatched on the class of the receiver `a`
   * as the overrides in `ast_types.ts` are. Each override compares its own
   * components recursively when `b` has the same class and otherwise defers
   * to `Type.equals`.
   */
  function TyEq(a: Ty, b: Ty): (r: bool)
    ensures a.AnyType? || b.AnyType? ==> r
    ensures r && !a.AnyType? && !b.AnyType? ==> TypeTag(a) == TypeTag(b)
    decreases a
  {
    match a
    case TupleType(xs) =>
      if !b.TupleType? then BaseEquals(a, b)
      else |xs| == |b.typeValues| && forall i :: 0 <= i < |xs| ==> TyEq(xs[i], b.typeValues[i])
    case FunctionType(f, r) =>
      if !b.FunctionType? then BaseEquals(a, b)
      else TyEq(f, b.formalValue) && TyEq(r, b.returnValue)
    case ChanType(d, e) =>
      if !b.ChanType? then BaseEquals(a, b)
      else if d == "send" && b.sendReceiveType == "receive" then false
      else if b.sendReceiveType == "send" && d == "receive" then false
      else TyEq(e, b.chanValueType)
    case ArrayType(e, n) =>
      if !b.ArrayType? then BaseEquals(a, b)
      else n == b.size && TyEq(e, b.arrType)
    case SliceType(e) =>
      if !b.SliceType? then BaseEquals(a, b)
      else TyEq(e, b.sliceType)
    case _ => BaseEquals(a, b)
  }

  /**
   * `a.equals(b)` for two AST nodes: a type receiver rejects any argument
   * that is not a type; every other receiver uses `GoNode.equals`.
   */
  function NodeEq(a: Node, b: Node): (r: bool)
    ensures a.TypeNode? != b.TypeNode? ==> !r
    ensures !a.TypeNode? ==> (r <==> a == b)
  {
    match a
    case TypeNode(t) => if b.TypeNode? then TyEq(t, b.ty) else false
    case _ => a == b
  }

  /**
   * `TupleType.equals` against another tuple: the arity check and the counted
   * loop with early return.
   */
  method TupleEquals(xs: seq<Ty>, ys: seq<Ty>) returns (r: bool)
    ensures r <==> |xs| == |ys| && forall i :: 0 <= i < |xs| ==> TyEq(xs[i], ys[i])
    ensures r == TyEq(TupleType(xs), TupleType(ys))
  {
    if |xs| != |ys| {
      return false;
    }
    for i := 0 to |xs|
      invariant forall j :: 0 <= j < i ==> TyEq(xs[j], ys[j])
    {
      if !TyEq(xs[i], ys[i]) {
        return false;
      }
    }
    return true;
  }

  // ---------------------------------------------------------------------
  // Properties of the equality relation
  // ---------------------------------------------------------------------

  /** `AnyType` equals every type, on either side. */
  lemma AnyIsWildcard(t: Ty)
    ensures TyEq(AnyType, t) && TyEq(t, AnyType)
  {
  }

  /** A type never equals an AST node that is not a type, in either order. */
  lemma TypeNeverEqualsNonType(t: Ty, n: Node)
    requires !n.TypeNode?
    ensures !NodeEq(TypeNode(t), n)
    ensures !NodeEq(n, TypeNode(t))
  {
  }

  /** Tuples: same arity and pairwise equal under the same relation. */
  lemma TupleEqIff(xs: seq<Ty>, ys: seq<Ty>)
    ensures TyEq(TupleType(xs), TupleType(ys)) <==>
            |xs| == |ys| && forall i :: 0 <= i < |xs| ==> TyEq(xs[i], ys[i])
  {
  }

  /** Function types: formals equal and return types equal. */
  lemma FunctionEqIff(f1: Ty, r1: Ty, f2: Ty, r2: Ty)
    ensures TyEq(FunctionType(f1, r1), FunctionType(f2, r2)) <==> TyEq(f1, f2) && TyEq(r1, r2)
  {
  }

  /**
   * Channel types: a send/receive clash is unequal whatever the element
   * types; any other pair of directions (equal, unspecified or unknown
   * strings) leaves only the element types to compare.
   */
  lemma ChanEqIff(d1: string, e1: Ty, d2: string, e2: Ty)
    ensures TyEq(ChanType(d1, e1), ChanType(d2, e2)) <==> !DirectionsClash(d1, d2) && TyEq(e1, e2)
  {
  }

  /** Array types: same size and equal element types. */
  lemma ArrayEqIff(e1: Ty, n1: int, e2: Ty, n2: int)
    ensures TyEq(ArrayType(e1, n1), ArrayType(e2, n2)) <==> n1 == n2 && TyEq(e1, e2)
  {
  }

  /** Slice types: equal element types. */
  lemma SliceEqIff(e1: Ty, e2: Ty)
    ensures TyEq(SliceType(e1), SliceType(e2)) <==> TyEq(e1, e2)
  {
  }

  /**
   * Every node class has its own `type` tag, except that all types share
   * `"type"`: so the serialisations of nodes of different classes differ.
   */
  lemma NodeTagDeterminesClass(a: Node, b: Node)
    requires NodeTag(a) == NodeTag(b)
    ensures a.Program? == b.Program? && a.Identifier? == b.Identifier?
    ensures a.Literal? == b.Literal? && a.Application? == b.Application?
    ensures a.Declaration? == b.Declaration? && a.UnOp? == b.UnOp?
    ensures a.BinOp? == b.BinOp? && a.ExpressionStatement? == b.ExpressionStatement?
    ensures a.ReturnStatement? == b.ReturnStatement? && a.AssignmentStatement? == b.AssignmentStatement?
    ensures a.IfStatement? == b.IfStatement? && a.ForStatement? == b.ForStatement?
    ensures a.GoStatement? == b.GoStatement? && a.SelectStatement? == b.SelectStatement?
    ensures a.SelectCase? == b.SelectCase? && a.DefaultCase? == b.DefaultCase?
    ensures a.SendStatement? == b.SendStatement? && a.ReceiveExpression? == b.ReceiveExpression?
    ensures a.IndexAccess? == b.IndexAccess? && a.FunctionNode? == b.FunctionNode?
    ensures a.EmptyStatement? == b.EmptyStatement? && a.StructElement? == b.StructElement?
    ensures a.StructFieldInstantiation? == b.StructFieldInstantiation? && a.StructLiteral? == b.StructLiteral?
    ensures a.StructAccess? == b.StructAccess? && a.TypeDeclaration? == b.TypeDeclaration?
    ensures a.TypeNode? == b.TypeNode?
  {
  }

  /** Every variant has its own `type_type` tag. */
  lemma TypeTagDeterminesVariant(a: Ty, b: Ty)
    requires TypeTag(a) == TypeTag(b)
    ensures a.AnyType? == b.AnyType? && a.VoidType? == b.VoidType?
    ensures a.BasicType? == b.BasicType? && a.TupleType? == b.TupleType?
    ensures a.FunctionType? == b.FunctionType? && a.ChanType? == b.ChanType?
    ensures a.ArrayType? == b.ArrayType? && a.SliceType? == b.SliceType?
    ensures a.CustomType? == b.CustomType? && a.StructType? == b.StructType?
  {
  }

  /** Types of different variants are unequal unless one is `AnyType`. */
  lemma DifferentVariantsUnequal(a: Ty, b: Ty)
    requires !a.AnyType? && !b.AnyType?
    requires TypeTag(a) != TypeTag(b)
    ensures !TyEq(a, b)
  {
  }

  /**
   * `VoidType`, `BasicTypeClass`, `CustomType` and `StructType` have no
   * override: against anything but `AnyType` they compare by exact
   * structural equality, in either position.
   */
  lemma StructuralFallback(a: Ty, b: Ty)
    requires a.VoidType? || a.BasicType? || a.CustomType? || a.StructType?
    requires !b.AnyType?
    ensures TyEq(a, b) <==> a == b
    ensures TyEq(b, a) <==> a == b
  {
  }

  /**
   * The wildcard works only where `equals` recurses: inside a tuple but not
   * inside a struct's field identifiers, which are compared literally.
   */
  lemma NoWildcardInsideStruct()
    ensures TyEq(TupleType([AnyType]), TupleType([BasicType(Number)]))
    ensures !TyEq(StructType([StructElement(Identifier("f", Some(AnyType)))]),
                  StructType([StructElement(Identifier("f", Some(BasicType(Number))))]))
  {
  }

  /** Equality is reflexive. */
  lemma {:induction false} TyEqReflexive(t: Ty)
    ensures TyEq(t, t)
    decreases t
  {
    match t
    case TupleType(xs) =>
      forall i | 0 <= i < |xs|
        ensures TyEq(xs[i], xs[i])
      {
        TyEqReflexive(xs[i]);
      }
    case FunctionType(f, r) =>
      TyEqReflexive(f);
      TyEqReflexive(r);
    case ChanType(_, e) =>
      TyEqReflexive(e);
    case ArrayType(e, _) =>
      TyEqReflexive(e);
    case SliceType(e) =>
      TyEqReflexive(e);
    case _ =>
  }

  /** Equality is symmetric: the clash test looks at both orders. */
  lemma {:induction false} TyEqSymmetric(a: Ty, b: Ty)
    ensures TyEq(a, b) == TyEq(b, a)
    decreases a
  {
    match a
    case TupleType(xs) =>
      if b.TupleType? && |xs| == |b.typeValues| {
        forall i | 0 <= i < |xs|
          ensures TyEq(xs[i], b.typeValues[i]) == TyEq(b.typeValues[i], xs[i])
        {
          TyEqSymmetric(xs[i], b.typeValues[i]);
        }
      }
    case FunctionType(f, r) =>
      if b.FunctionType? {
        TyEqSymmetric(f, b.formalValue);
        TyEqSymmetric(r, b.returnValue);
      }
    case ChanType(_, e) =>
      if b.ChanType? {
        TyEqSymmetric(e, b.chanValueType);
      }
    case ArrayType(e, _) =>
      if b.ArrayType? {
        TyEqSymmetric(e, b.arrType);
      }
    case SliceType(e) =>
      if b.SliceType? {
        TyEqSymmetric(e, b.sliceType);
      }
    case _ =>
  }

  /** The wildcard makes the relation non-transitive. */
  lemma NotTransitive()
    ensures TyEq(BasicType(Number), AnyType) && TyEq(AnyType, BasicType(String))
    ensures !TyEq(BasicType(Number), BasicType(String))
  {
  }

  /** Channel directions: send and receive clash; an unspecified one does not. */
  lemma ChanDirectionExamples()
    ensures !TyEq(ChanType("send", BasicType(Number)), ChanType("receive", BasicType(Number)))
    ensures !TyEq(ChanType("receive", BasicType(Number)), ChanType("send", BasicType(Number)))
    ensures TyEq(ChanType("send", BasicType(Number)), ChanType("", BasicType(Number)))
    ensures TyEq(ChanType("", BasicType(Number)), ChanType("receive", BasicType(Number)))
  {
  }

  /** Node equality is reflexive. */
  lemma NodeEqReflexive(n: Node)
    ensures NodeEq(n, n)
  {
    if n.TypeNode? {
      TyEqReflexive(n.ty);
    }
  }

  /** Node equality is symmetric. */
  lemma NodeEqSymmetric(a: Node, b: Node)
    ensures NodeEq(a, b) == NodeEq(b, a)
  {
    if a.TypeNode? && b.TypeNode? {
      TyEqSymmetric(a.ty, b.ty);
    }
  }

  /**
   * An `Identifier` built without a type has no annotation, and it is not
   * equal to one annotated with `AnyType`: identifiers compare structurally.
   */
  lemma IdentifierDefaultsToUntyped(x: string)
    ensures Identifier(x).valType == None
    ensures !NodeEq(Identifier(x), Identifier(x, Some(AnyType)))
  {
  }
}
