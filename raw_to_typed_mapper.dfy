/**
 * `verifyNode` of `raw_to_typed_mapper.ts`: the structural check run over the
 * parser's untyped tree before it is cast to the typed AST.
 *
 * The raw tree is a JSON-like object whose `type` field is its tag. The model
 * has one constructor per tag the verifier handles, each holding the fields
 * that tag's record stores; `Other` is a node with any other string tag,
 * `Untagged` a truthy value whose `type` is absent or not a string, and
 * `Null` a falsy value (`null`, `undefined`, `0`, `""`, `false`). The two
 * differ only where the source tests a child's truthiness before visiting
 * it. Failure (the thrown `Error`) is `Fail` carrying the node that was
 * rejected.
 */
module RawToTypedMapper {
  import opened Wrappers
  import AstTypes

  /** The tags `verifyNode` dispatches on. */
  const HandledTags: set<string> := {
    "program", "declaration", "identifier", "literal", "application", "unop",
    "binop", "expressionStatement", "returnStatement", "assignmentStatement",
    "ifStatement", "forStatement", "goStatement", "function", "type"
  }

  /** Any tag that reaches the final `else` of `verifyNode`. */
  type UnhandledTag = s: string | s !in HandledTags witness "indexAccess"

  /** A node of the parser's untyped tree. */
  datatype Raw =
    | Program(topDeclarations: seq<Raw>)
    | Declaration(declarationType: string, ids: seq<Raw>, vals: seq<Raw>)
    | Identifier(name: string, valType: Raw)
    | Literal(value: string, litType: Raw)
    | Application(operator: Raw, operands: seq<Raw>)
    | UnOp(opcode: string, expr: Raw)
    | BinOp(left: Raw, binOpcode: string, right: Raw)
    | ExpressionStatement(expression: Raw)
    | ReturnStatement(expressions: seq<Raw>)
    | AssignmentStatement(ids: seq<Raw>, vals: seq<Raw>)
    | IfStatement(cond: Raw, cons: seq<Raw>, alt: Alternative, short: Raw)
    | ForStatement(forInit: Raw, forCond: Raw, forPost: Raw, body: seq<Raw>)
    | GoStatement(app: Raw)
    | FunctionNode(funcName: Raw, formals: seq<Raw>, retType: Raw, body: seq<Raw>)
    | TypeNode(typeType: string, parts: seq<Raw>)
    | Other(tag: UnhandledTag)
    | Untagged
    | Null

  /** The `alt` of an `ifStatement`: a statement list, or a falsy value. */
  datatype Alternative = NoAlt | Alt(stmts: seq<Raw>)

  /** What `verifyNode` does: return, or throw on the given node. */
  datatype Outcome = Pass | Fail(offender: Raw)

  /** `node?.type`: the tag the guards compare, when it is a string. */
  function Tag(n: Raw): (r: Option<string>)
    ensures r.None? <==> n.Null? || n.Untagged?
    ensures r.Some? && r.value in HandledTags <==> Handled(n)
  {
    match n
    case Program(_) => Some("program")
    case Declaration(_, _, _) => Some("declaration")
    case Identifier(_, _) => Some("identifier")
    case Literal(_, _) => Some("literal")
    case Application(_, _) => Some("application")
    case UnOp(_, _) => Some("unop")
    case BinOp(_, _, _) => Some("binop")
    case ExpressionStatement(_) => Some("expressionStatement")
    case ReturnStatement(_) => Some("returnStatement")
    case AssignmentStatement(_, _) => Some("assignmentStatement")
    case IfStatement(_, _, _, _) => Some("ifStatement")
    case ForStatement(_, _, _, _) => Some("forStatement")
    case GoStatement(_) => Some("goStatement")
    case FunctionNode(_, _, _, _) => Some("function")
    case TypeNode(_, _) => Some("type")
    case Other(t) => Some(t)
    case Untagged => None
    case Null => None
  }

  /** A node some branch of `verifyNode` accepts the tag of. */
  predicate Handled(n: Raw)
  {
    !n.Other? && !n.Untagged? && !n.Null?
  }

  /** Sequencing of two checks: the first failure wins. */
  function Then(first: Outcome, rest: Outcome): (r: Outcome)
    ensures r.Pass? <==> first.Pass? && rest.Pass?
  {
    if first.Fail? then first else rest
  }

  /** `if (x) { verifyNode(x) }`: a falsy optional child is skipped. */
  function VerifyOptional(n: Raw): (r: Outcome)
    ensures r.Fail? ==> !Handled(r.offender)
    ensures n.Null? ==> r == Pass
    decreases n, 2, 0
  {
    if n.Null? then Pass else VerifyNode(n)
  }

  /** `verifyNode(ast)`, branch by branch. */
  function VerifyNode(n: Raw): (r: Outcome)
    ensures r.Fail? ==> !Handled(r.offender)
    ensures !Handled(n) ==> r == Fail(n)
    decreases n, 1, 0
  {
    match n
    case Program(items) => VerifyAll(items, n)
    case Declaration(_, ids, vals) => Then(VerifyAll(ids, n), VerifyAll(vals, n))
    case Identifier(_, _) => Pass
    case Literal(_, _) => Pass
    case Application(op, args) => Then(VerifyNode(op), VerifyAll(args, n))
    case UnOp(_, e) => VerifyNode(e)
    case BinOp(l, _, r) => Then(VerifyNode(l), VerifyNode(r))
    case ExpressionStatement(e) => VerifyNode(e)
    case ReturnStatement(es) => VerifyAll(es, n)
    case AssignmentStatement(ids, vals) => Then(VerifyAll(ids, n), VerifyAll(vals, n))
    case IfStatement(c, cons, alt, _) =>
      var rest :=
        match alt
        case Alt(a) => VerifyAll(a, n)
        case NoAlt => Pass;
      Then(VerifyNode(c), Then(VerifyAll(cons, n), rest))
    case ForStatement(init, c, post, body) =>
      Then(VerifyOptional(init), Then(VerifyOptional(c), Then(VerifyOptional(post), VerifyAll(body, n))))
    case GoStatement(app) => VerifyNode(app)
    case FunctionNode(name, formals, _, body) =>
      Then(VerifyNode(name), Then(VerifyAll(formals, n), VerifyAll(body, n)))
    case TypeNode(_, _) => Pass
    case Other(_) => Fail(n)
    case Untagged => Fail(n)
    case Null => Fail(n)
  }

  /**
   * `nodes.forEach(verifyNode)`: stops at the first node that throws. The
   * ghost `parent`, some node the list sits in, bounds the recursion.
   */
  function VerifyAll(s: seq<Raw>, ghost parent: Raw): (r: Outcome)
    requires forall c :: c in s ==> c < parent
    ensures r.Fail? ==> !Handled(r.offender)
    ensures r.Pass? <==> forall c :: c in s ==> VerifyNode(c).Pass?
    decreases parent, 0, |s|
  {
    if s == [] then Pass
    else
      assert s[0] in s && forall c :: c in s[1..] ==> c in s;
      Then(VerifyNode(s[0]), VerifyAll(s[1..], parent))
  }

  // ---------------------------------------------------------------------
  // A reference definition: the nodes visited, in pre-order
  // ---------------------------------------------------------------------

  /** `[x]` for a truthy optional child, `[]` for a falsy one. */
  function Present(x: Raw): (r: seq<Raw>)
    ensures x.Null? <==> r == []
    ensures forall c :: c in r ==> c == x
  {
    if x.Null? then [] else [x]
  }

  /**
   * The children `verifyNode` visits, in the order it visits them. Fields
   * not listed (`short`, `val_type`, `retType`, a literal's or a type's
   * contents) are never looked at.
   */
  function Children(n: Raw): (cs: seq<Raw>)
    ensures forall c :: c in cs ==> c < n
  {
    match n
    case Program(items) => items
    case Declaration(_, ids, vals) => ids + vals
    case Application(op, args) => [op] + args
    case UnOp(_, e) => [e]
    case BinOp(l, _, r) => [l, r]
    case ExpressionStatement(e) => [e]
    case ReturnStatement(es) => es
    case AssignmentStatement(ids, vals) => ids + vals
    case IfStatement(c, cons, alt, _) =>
      var rest :=
        match alt
        case Alt(a) => a
        case NoAlt => [];
      [c] + cons + rest
    case ForStatement(init, c, post, body) =>
      Present(init) + Present(c) + Present(post) + body
    case GoStatement(app) => [app]
    case FunctionNode(name, formals, _, body) => [name] + formals + body
    case _ => []
  }

  /** Every node `verifyNode(n)` is called on, in pre-order. */
  function Visits(n: Raw): (vs: seq<Raw>)
    ensures |vs| > 0 && vs[0] == n
    decreases n, |Children(n)| + 1
  {
    [n] + VisitsAll(Children(n), n)
  }

  /** The pre-order visits of a sequence of siblings below `parent`. */
  function VisitsAll(s: seq<Raw>, parent: Raw): (vs: seq<Raw>)
    requires forall c :: c in s ==> c < parent
    ensures forall c :: c in s ==> c in vs
    decreases parent, |s|
  {
    if s == [] then []
    else
      assert s[0] in s && forall c :: c in s[1..] ==> c in s;
      Visits(s[0]) + VisitsAll(s[1..], parent)
  }

  /** The first node of `s` that no branch handles. */
  function FirstUnhandled(s: seq<Raw>): (r: Outcome)
    ensures r.Pass? <==> forall i :: 0 <= i < |s| ==> Handled(s[i])
    ensures r.Fail? ==> r.offender in s && !Handled(r.offender)
  {
    if s == [] then Pass
    else if !Handled(s[0]) then Fail(s[0])
    else FirstUnhandled(s[1..])
  }

  // ---------------------------------------------------------------------
  // Verification is the pre-order search for an unhandled node
  // ---------------------------------------------------------------------

  lemma {:induction false} VerifyAllAppend(a: seq<Raw>, b: seq<Raw>, parent: Raw)
    requires forall c :: c in a ==> c < parent
    requires forall c :: c in b ==> c < parent
    ensures VerifyAll(a + b, parent) == Then(VerifyAll(a, parent), VerifyAll(b, parent))
    decreases |a|
  {
    if a != [] {
      assert (a + b)[1..] == a[1..] + b;
      assert forall c :: c in a[1..] ==> c in a;
      VerifyAllAppend(a[1..], b, parent);
    } else {
      assert a + b == b;
    }
  }

  /** The ghost bound of `VerifyAll` does not affect its verdict. */
  lemma {:induction false} VerifyAllAnyParent(s: seq<Raw>, p: Raw, q: Raw)
    requires forall c :: c in s ==> c < p
    requires forall c :: c in s ==> c < q
    ensures VerifyAll(s, p) == VerifyAll(s, q)
    decreases |s|
  {
    if s != [] {
      assert forall c :: c in s[1..] ==> c in s;
      VerifyAllAnyParent(s[1..], p, q);
    }
  }

  lemma {:induction false} FirstUnhandledAppend(a: seq<Raw>, b: seq<Raw>)
    ensures FirstUnhandled(a + b) == Then(FirstUnhandled(a), FirstUnhandled(b))
    decreases |a|
  {
    if a != [] {
      assert (a + b)[1..] == a[1..] + b;
      FirstUnhandledAppend(a[1..], b);
    } else {
      assert a + b == b;
    }
  }

  /** The verdict on a one-element list is the verdict on its element. */
  lemma VerifySingleton(x: Raw, parent: Raw)
    requires x < parent
    ensures VerifyAll([x], parent) == VerifyNode(x)
  {
    assert [x][1..] == [];
  }

  lemma OptionalIsPresent(x: Raw, parent: Raw)
    requires x < parent
    ensures VerifyOptional(x) == VerifyAll(Present(x), parent)
  {
    if !x.Null? {
      VerifySingleton(x, parent);
    }
  }

  /** A handled node's verdict is that of the children it visits, in order. */
  lemma VerifyIsVerifyChildren(n: Raw)
    requires Handled(n)
    ensures VerifyNode(n) == VerifyAll(Children(n), n)
  {
    match n
    case Declaration(_, ids, vals) => VerifyAllAppend(ids, vals, n);
    case Application(op, args) =>
      VerifyAllAppend([op], args, n);
      VerifySingleton(op, n);
    case UnOp(_, e) => VerifySingleton(e, n);
    case BinOp(l, _, r) =>
      VerifyAllAppend([l], [r], n);
      assert [l] + [r] == [l, r];
      VerifySingleton(l, n);
      VerifySingleton(r, n);
    case ExpressionStatement(e) => VerifySingleton(e, n);
    case AssignmentStatement(ids, vals) => VerifyAllAppend(ids, vals, n);
    case IfStatement(_, _, _, _) => VerifyIfIsVerifyChildren(n);
    case ForStatement(_, _, _, _) => VerifyForIsVerifyChildren(n);
    case GoStatement(app) => VerifySingleton(app, n);
    case FunctionNode(_, _, _, _) => VerifyFunctionIsVerifyChildren(n);
    case _ =>
  }

  lemma VerifyIfIsVerifyChildren(n: Raw)
    requires n.IfStatement?
    ensures VerifyNode(n) == VerifyAll(Children(n), n)
  {
    var rest := match n.alt case Alt(a) => a case NoAlt => [];
    assert Children(n) == [n.cond] + n.cons + rest;
    VerifyAllAppend([n.cond] + n.cons, rest, n);
    VerifyAllAppend([n.cond], n.cons, n);
    VerifySingleton(n.cond, n);
  }

  lemma VerifyForIsVerifyChildren(n: Raw)
    requires n.ForStatement?
    ensures VerifyNode(n) == VerifyAll(Children(n), n)
  {
    var init, c, post := Present(n.forInit), Present(n.forCond), Present(n.forPost);
    assert Children(n) == init + c + post + n.body;
    VerifyAllAppend(init + c + post, n.body, n);
    VerifyAllAppend(init + c, post, n);
    VerifyAllAppend(init, c, n);
    OptionalIsPresent(n.forInit, n);
    OptionalIsPresent(n.forCond, n);
    OptionalIsPresent(n.forPost, n);
  }

  lemma VerifyFunctionIsVerifyChildren(n: Raw)
    requires n.FunctionNode?
    ensures VerifyNode(n) == VerifyAll(Children(n), n)
  {
    assert Children(n) == [n.funcName] + n.formals + n.body;
    VerifyAllAppend([n.funcName] + n.formals, n.body, n);
    VerifyAllAppend([n.funcName], n.formals, n);
    VerifySingleton(n.funcName, n);
  }

  /** `verifyNode(n)` throws exactly at the first unhandled node it visits. */
  lemma {:induction false} VerifyIsFirstUnhandled(n: Raw)
    ensures VerifyNode(n) == FirstUnhandled(Visits(n))
    decreases n, |Children(n)| + 1
  {
    var cs := Children(n);
    assert Visits(n)[1..] == VisitsAll(cs, n);
    if Handled(n) {
      VerifyIsVerifyChildren(n);
      VerifyAllIsFirstUnhandled(cs, n);
    }
  }

  lemma {:induction false} VerifyAllIsFirstUnhandled(s: seq<Raw>, parent: Raw)
    requires forall c :: c in s ==> c < parent
    ensures VerifyAll(s, parent) == FirstUnhandled(VisitsAll(s, parent))
    decreases parent, |s|
  {
    if s != [] {
      assert s[0] in s && forall c :: c in s[1..] ==> c in s;
      VerifyIsFirstUnhandled(s[0]);
      VerifyAllIsFirstUnhandled(s[1..], parent);
      FirstUnhandledAppend(Visits(s[0]), VisitsAll(s[1..], parent));
    }
  }

  /** A tree verifies iff every node the walk reaches has a handled tag. */
  lemma VerifyIffAllVisitedHandled(n: Raw)
    ensures VerifyNode(n).Pass? <==> forall i :: 0 <= i < |Visits(n)| ==> Handled(Visits(n)[i])
    ensures VerifyNode(n).Fail? ==> VerifyNode(n).offender in Visits(n)
  {
    VerifyIsFirstUnhandled(n);
  }

  /** A compound node verifies iff every child it visits verifies. */
  lemma VerifyCompoundIff(n: Raw)
    requires Handled(n)
    ensures VerifyNode(n).Pass? <==> forall c :: c in Children(n) ==> VerifyNode(c).Pass?
  {
    VerifyIsVerifyChildren(n);
    var cs := Children(n);
    assert (forall c :: c in cs ==> VerifyNode(c).Pass?) <==>
           (forall i :: 0 <= i < |cs| ==> VerifyNode(cs[i]).Pass?);
  }

  // ---------------------------------------------------------------------
  // Consequences for particular shapes
  // ---------------------------------------------------------------------

  /** Every handled tag is a `NodeType`; twelve `NodeType` tags are not handled. */
  lemma UnhandledNodeTypes()
    ensures HandledTags <= AstTypes.NodeTypes
    ensures AstTypes.NodeTypes - HandledTags == {
      "indexAccess", "sendStatement", "structElement", "structLiteral",
      "structFieldInstantiation", "structAccess", "typeDeclaration",
      "receiveExpression", "selectStatement", "selectCase", "defaultCase",
      "emptyStatement"
    }
  {
  }

  /** A null node and every unhandled tag, declared in `NodeType` or not, fail. */
  lemma UnhandledRejected(t: UnhandledTag)
    ensures VerifyNode(Other(t)) == Fail(Other(t))
    ensures VerifyNode(Untagged) == Fail(Untagged)
    ensures VerifyNode(Null) == Fail(Null)
  {
  }

  /** Identifiers, literals and types verify without their fields being read. */
  lemma LeavesVerify(name: string, t: Raw, v: string, typeType: string, parts: seq<Raw>)
    ensures VerifyNode(Identifier(name, t)) == Pass
    ensures VerifyNode(Literal(v, t)) == Pass
    ensures VerifyNode(TypeNode(typeType, parts)) == Pass
  {
  }

  /** An empty program verifies. */
  lemma EmptyProgramVerifies()
    ensures VerifyNode(Program([])) == Pass
  {
  }

  /** A function whose name is null fails, wherever it occurs. */
  lemma AnonymousFunctionFails(formals: seq<Raw>, retType: Raw, body: seq<Raw>)
    ensures VerifyNode(FunctionNode(Null, formals, retType, body)) == Fail(Null)
    ensures VerifyNode(Program([FunctionNode(Null, formals, retType, body)])) == Fail(Null)
    ensures VerifyNode(GoStatement(Application(FunctionNode(Null, formals, retType, body), []))) == Fail(Null)
  {
  }

  /** A null `alt` and null `for` clauses are skipped. */
  lemma OptionalChildrenSkipped(c: Raw, cons: seq<Raw>, short: Raw, body: seq<Raw>)
    ensures VerifyNode(IfStatement(c, cons, NoAlt, short)) ==
            Then(VerifyNode(c), VerifyAll(cons, IfStatement(c, cons, NoAlt, short)))
    ensures VerifyNode(ForStatement(Null, Null, Null, body)) ==
            VerifyAll(body, ForStatement(Null, Null, Null, body))
  {
  }

  /**
   * A `for` passes iff each of its clauses is falsy or passes, and its body
   * passes; this holds for every combination of present and absent clauses.
   */
  lemma ForClausesIff(init: Raw, c: Raw, post: Raw, body: seq<Raw>)
    ensures VerifyNode(ForStatement(init, c, post, body)).Pass? <==>
            && (init.Null? || VerifyNode(init).Pass?)
            && (c.Null? || VerifyNode(c).Pass?)
            && (post.Null? || VerifyNode(post).Pass?)
            && forall x :: x in body ==> VerifyNode(x).Pass?
  {
  }

  /** A truthy clause without a tag is visited, and rejected. */
  lemma TruthyUntaggedClauseFails(c: Raw, post: Raw, body: seq<Raw>)
    ensures VerifyNode(ForStatement(Untagged, c, post, body)) == Fail(Untagged)
    ensures VerifyNode(ForStatement(Null, Untagged, Null, body)) == Fail(Untagged)
  {
  }

  /** An `ifStatement`'s `short` statement cannot cause failure. */
  lemma ShortUnexamined(c: Raw, cons: seq<Raw>, alt: Alternative, s1: Raw, s2: Raw)
    ensures VerifyNode(IfStatement(c, cons, alt, s1)) == VerifyNode(IfStatement(c, cons, alt, s2))
  {
    var n1, n2 := IfStatement(c, cons, alt, s1), IfStatement(c, cons, alt, s2);
    VerifyAllAnyParent(cons, n1, n2);
    if alt.Alt? {
      VerifyAllAnyParent(alt.stmts, n1, n2);
    }
  }

  /** A function's `retType` cannot cause failure. */
  lemma RetTypeUnexamined(name: Raw, formals: seq<Raw>, t1: Raw, t2: Raw, body: seq<Raw>)
    ensures VerifyNode(FunctionNode(name, formals, t1, body)) == VerifyNode(FunctionNode(name, formals, t2, body))
  {
    var n1, n2 := FunctionNode(name, formals, t1, body), FunctionNode(name, formals, t2, body);
    VerifyAllAnyParent(formals, n1, n2);
    VerifyAllAnyParent(body, n1, n2);
  }

  /** `for ;; {}`, whose init is an `emptyStatement`, always fails. */
  lemma EmptyInitFails(c: Raw, post: Raw, body: seq<Raw>)
    ensures VerifyNode(ForStatement(Other("emptyStatement"), c, post, body)) == Fail(Other("emptyStatement"))
  {
  }

  /** Neither declaration ids nor top-level items are checked for their kind. */
  lemma KindsNotChecked(v: string, t: Raw)
    ensures VerifyNode(Declaration("var", [Literal(v, t)], [])) == Pass
    ensures VerifyNode(Program([ExpressionStatement(Literal(v, t))])) == Pass
  {
  }
}
