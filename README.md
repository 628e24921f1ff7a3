# go-slang-parser: type equality and raw-tree verification

This project models two side-effect-free pieces of the AST layer of
go-slang-parser, a front end for a small Go-like language, and proves
properties of them in Dafny.

- **`AstTypes`** (`ast_types.dfy`) holds the typed AST. `Ty` has one
  constructor per subclass of `Type`. `Node` has one constructor per other
  AST class, plus `TypeNode` for a type used where a `GoNode` is expected.
  The constructors hold the fields the TypeScript constructors store.
  `Identifier`'s `valType` defaults to `None`, the source's `null`.
  - `TyEq` is `equals` between two types. Like the source, it dispatches on
    the receiver's class. Tuple, function, channel, array and slice types
    compare their components recursively. Every other case goes to
    `BaseEquals` (`Type.equals`): `AnyType` on either side matches, and
    anything else is compared for deep structural equality.
  - `NodeEq` is `equals` between two nodes. A type is never equal to a
    node that is not a type, and all other nodes compare structurally.
  - `TupleEquals` models the counted loop of `TupleType.equals`.
- **`RawToTypedMapper`** (`raw_to_typed_mapper.dfy`) holds the parser's
  untyped tree and `verifyNode`.
  - `Raw` has one constructor for each of the 15 tags the verifier handles.
    `Other(tag)` is any other string tag. `Untagged` is a truthy value whose
    `type` is absent or not a string. `Null` is a falsy value (`null`,
    `undefined`, `0`, `""`, `false`). Both fail when visited. Only `Null` is
    skipped where the source tests a child's truthiness (the `for` clauses).
    `NoAlt` is a falsy `alt` of an `if`.
  - `VerifyNode` follows the `if`/`else if` chain branch by branch.
    `VerifyAll` models `forEach(verifyNode)`. The thrown error becomes
    `Fail(offender)`.
  - `Visits` is a separate reference definition: the pre-order list of every
    node the walk reaches. The main theorem says that verification fails
    exactly at the first unhandled node in that list.

Points where the code behaves in ways its names and field types do not
suggest (the model follows the code):
- The verifier does not check that declaration or assignment ids are
  identifiers. It does not check which kinds of node appear at top level.
- `structLiteral`, `structElement`, `structFieldInstantiation` and
  `structAccess` nodes are rejected outright, because their tags are not
  handled (`UnhandledNodeTypes`).
- Struct and tuple types are `type` nodes. They pass without their
  contents being read.
- Function formals are visited, but their kind is not checked.
- An anonymous function is rejected wherever it occurs, not only at top
  level. The reason is that `name` is visited unconditionally. So
  `go func() {...}()` cannot pass verification.
- A `for ;; {}` loop, whose init is an `emptyStatement`, never passes.
- A channel's direction is compared only to detect a `send`/`receive`
  clash. Any other two directions, even two different unknown strings, are
  compatible.

## Model

| member | source | states |
|---|---|---|
| `AstTypes.NodeTag` | src/parser_mapper/ast_types.ts:2-29 | every node class sets a `type` tag drawn from the `NodeType` union |
| `AstTypes.NodeTagDeterminesClass` | src/parser_mapper/ast_types.ts:43-220 | two nodes with the same `type` tag are of the same class, with every type sharing `"type"`, so nodes of different classes never serialise alike |
| `AstTypes.BaseEquals` | src/parser_mapper/ast_types.ts:227-238 | `Type.equals` between two types: true when either is `AnyType`, and otherwise true only for the same variant; its full behaviour is stated by the lemmas below |
| `AstTypes.TyEq` | src/parser_mapper/ast_types.ts:227-344 | type equality as dispatched on the receiver: the wildcard holds on either side, and two types of different variants without `AnyType` are never equal; the per-variant lemmas below characterise it |
| `AstTypes.NodeEq` | src/parser_mapper/ast_types.ts:35-40 | `GoNode.equals`: a type and a non-type never compare equal (lines 227-230), and a non-type receiver compares structurally |
| `AstTypes.TupleEquals` | src/parser_mapper/ast_types.ts:260-273 | the loop returns true iff the arities agree and every position is pairwise equal under `TyEq`, which is the function's tuple case |
| `AstTypes.AnyIsWildcard` | src/parser_mapper/ast_types.ts:231-236 | `AnyType` is equal to every type, as receiver and as argument |
| `AstTypes.TypeNeverEqualsNonType` | src/parser_mapper/ast_types.ts:227-230 | a type and a non-type node are never equal, in either order |
| `AstTypes.TupleEqIff` | src/parser_mapper/ast_types.ts:264-272 | two tuples are equal iff they have the same arity and are pairwise equal, so an inner `AnyType` acts as a wildcard |
| `AstTypes.FunctionEqIff` | src/parser_mapper/ast_types.ts:280-285 | two function types are equal iff their formals are equal and their returns are equal |
| `AstTypes.ChanEqIff` | src/parser_mapper/ast_types.ts:299-310 | two channel types are equal iff their directions are not a send/receive pair (in either order) and their element types are equal |
| `AstTypes.ArrayEqIff` | src/parser_mapper/ast_types.ts:320-325 | two array types are equal iff their sizes are equal and their element types are equal |
| `AstTypes.SliceEqIff` | src/parser_mapper/ast_types.ts:335-340 | two slice types are equal iff their element types are equal |
| `AstTypes.TypeTagDeterminesVariant` | src/parser_mapper/ast_types.ts:241-356 | the `type_type` strings of the variants are distinct, so serialisations of different variants never coincide |
| `AstTypes.DifferentVariantsUnequal` | src/parser_mapper/ast_types.ts:227-238 | two types of different variants are unequal unless one of them is `AnyType` |
| `AstTypes.StructuralFallback` | src/parser_mapper/ast_types.ts:227-238 | void, basic, custom and struct types, on either side against a non-`AnyType`, are equal iff they are structurally identical |
| `AstTypes.NoWildcardInsideStruct` | src/parser_mapper/ast_types.ts:352-362 | `AnyType` matches as a tuple element but not as a field type inside a struct, which is compared literally |
| `AstTypes.TyEqReflexive` | src/parser_mapper/ast_types.ts:223-344 | every type equals itself; for array types this relies on the size being an integer, since a `NaN` size is unequal to itself (line 324) |
| `AstTypes.TyEqSymmetric` | src/parser_mapper/ast_types.ts:223-344 | `a.equals(b)` and `b.equals(a)` always agree, because the channel clash is tested in both orders |
| `AstTypes.NotTransitive` | src/parser_mapper/ast_types.ts:231-236 | the wildcard makes equality non-transitive: number = any = string but number is not string |
| `AstTypes.ChanDirectionExamples` | src/parser_mapper/ast_types.ts:303-309 | send and receive channels of number are unequal in both orders, and each equals one with an unspecified direction |
| `AstTypes.NodeEqReflexive` | src/parser_mapper/ast_types.ts:35-40 | every AST node equals itself |
| `AstTypes.NodeEqSymmetric` | src/parser_mapper/ast_types.ts:35-40 | node equality is symmetric |
| `AstTypes.IdentifierDefaultsToUntyped` | src/parser_mapper/ast_types.ts:51-58 | an identifier built without a type has a null annotation and differs from one annotated with `AnyType` |
| `RawToTypedMapper.Tag` | src/parser_mapper/raw_to_typed_mapper.ts:20-87 | `node?.type` as the guards (and the `type` test at line 144) read it: absent exactly for falsy and untagged values, and among the 15 handled strings exactly for handled nodes |
| `RawToTypedMapper.VerifyNode` | src/parser_mapper/raw_to_typed_mapper.ts:92-148 | any failure names a falsy, untagged or unhandled-tag node, and a node of any of those kinds fails on itself |
| `RawToTypedMapper.VerifyOptional` | src/parser_mapper/raw_to_typed_mapper.ts:125-135 | a falsy `for` clause is skipped, and any failure of a truthy one names an unhandled node |
| `RawToTypedMapper.VerifyAll` | src/parser_mapper/raw_to_typed_mapper.ts:95-95 | `forEach(verifyNode)` passes iff every element passes, and any failure names an unhandled node |
| `RawToTypedMapper.VerifyIsVerifyChildren` | src/parser_mapper/raw_to_typed_mapper.ts:94-143 | the verdict on a handled node is the verdict on the children it visits, in visiting order |
| `RawToTypedMapper.VerifyIsFirstUnhandled` | src/parser_mapper/raw_to_typed_mapper.ts:92-148 | `verifyNode` fails exactly at the first node, in pre-order, that no branch handles, and passes when there is none |
| `RawToTypedMapper.VerifyIffAllVisitedHandled` | src/parser_mapper/raw_to_typed_mapper.ts:92-148 | a tree verifies iff every node the walk reaches is handled, and a failure names a reached node |
| `RawToTypedMapper.VerifyCompoundIff` | src/parser_mapper/raw_to_typed_mapper.ts:94-143 | a compound node verifies iff every child it visits verifies |
| `RawToTypedMapper.UnhandledNodeTypes` | src/parser_mapper/raw_to_typed_mapper.ts:94-148 | every handled tag is a `NodeType`, and exactly twelve `NodeType` tags (such as `indexAccess` and `emptyStatement`) are not handled |
| `RawToTypedMapper.UnhandledRejected` | src/parser_mapper/raw_to_typed_mapper.ts:146-148 | a null node, an untagged value and a node with any unhandled tag fail on themselves |
| `RawToTypedMapper.LeavesVerify` | src/parser_mapper/raw_to_typed_mapper.ts:99-102 | identifier and literal nodes verify whatever their fields hold, and so do `type` nodes (lines 144-145) |
| `RawToTypedMapper.EmptyProgramVerifies` | src/parser_mapper/raw_to_typed_mapper.ts:94-95 | a program with no items verifies |
| `RawToTypedMapper.AnonymousFunctionFails` | src/parser_mapper/raw_to_typed_mapper.ts:140-141 | a function with a null name fails on that null, alone, at top level, or inside a `go` application |
| `RawToTypedMapper.OptionalChildrenSkipped` | src/parser_mapper/raw_to_typed_mapper.ts:118-137 | an `if` with a null `alt` checks only its condition and consequent, and a `for` with null clauses checks only its body |
| `RawToTypedMapper.ForClausesIff` | src/parser_mapper/raw_to_typed_mapper.ts:124-137 | a `for` passes iff each clause is falsy or passes and every body statement passes, for any combination of null clauses |
| `RawToTypedMapper.TruthyUntaggedClauseFails` | src/parser_mapper/raw_to_typed_mapper.ts:125-130 | a truthy clause without a tag is visited and rejected, unlike a falsy one |
| `RawToTypedMapper.ShortUnexamined` | src/parser_mapper/raw_to_typed_mapper.ts:118-123 | an `if`'s `short` statement never affects the verdict |
| `RawToTypedMapper.RetTypeUnexamined` | src/parser_mapper/raw_to_typed_mapper.ts:140-143 | a function's `retType` never affects the verdict |
| `RawToTypedMapper.EmptyInitFails` | src/parser_mapper/raw_to_typed_mapper.ts:124-127 | a `for` whose init is an `emptyStatement` fails on that init |
| `RawToTypedMapper.KindsNotChecked` | src/parser_mapper/raw_to_typed_mapper.ts:94-98 | a literal used as a declaration id, and an expression statement used as a top-level item, both verify |

## Left out

- `src/index.ts` is pipeline wiring. The tokenizer, parser, resolver and translator it calls are not part of this model.
- `src/__tests__/index.ts` exercises a parser that is not part of this model. It is used only as evidence for record shapes, such as an `Identifier` with no type.
- Exact `JSON.stringify` semantics are not modelled. This covers key order, number formatting, `undefined` properties and `NaN`. The structural fallback is datatype equality. This agrees with `JSON.stringify` for records whose constructors assign fields in a fixed order.
- `Literal.value` (`any`) is represented by its JSON text, because only the structural comparison reads it.
- `ArrayType.size` is a JavaScript float in the source and an unbounded `int` here. So the model does not capture that an array type with a `NaN` size is unequal to itself (`NaN === NaN` is false). `TyEqReflexive` and `NodeEqReflexive` hold only under this abstraction.
- The text of the thrown error is not modelled. The source prints `[object Object]`. `Fail` carries the offending node instead.
- A list field that is missing or not an array throws a `TypeError` at its `forEach`. The list fields are `top_declarations`, `ids`, `vals`, `operands`, `expressions`, `cons`, `body` and `formals`. A truthy `alt` that is not an array throws one too. Neither case is modelled: list fields are always sequences. A missing single-node field reads as `undefined`, which the model represents as `Null`.
- Bare `Type` instances are not modelled. `Type` is a concrete class (src/parser_mapper/ast_types.ts:223-226), so `new Type(s)` can be built with any `type_type`. Such a value is outside the ten variants of `Ty`. For example, a bare `Type("any")` serialises like `AnyType` but is not a wildcard, because `instanceof AnyType` is false.
- The raw tree is a finite, acyclic datatype. A cyclic raw object makes the source recurse until the stack overflows. A very deep tree throws a `RangeError` instead of passing. The model assumes finite trees and does not model the stack limit.
- The static field types of the typed AST (such as `ids: Identifier[]`) are not enforced at run time, so the model keeps those fields at type `Node`.
