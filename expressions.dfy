/**
 * The syntax tree and the structural equality the parser's tests compare trees with.
 * Every node carries an optional location and an optional resolved type; the IR
 * generator reads both, and equality ignores both.
 */
module Expressions {
  import opened Wrappers
  import opened Locations
  import opened Types

  datatype Expression =
    | IntLiteralExpression(intValue: int, location: Option<Location>, ty: Option<Type>)
    | BoolLiteralExpression(boolValue: bool, location: Option<Location>, ty: Option<Type>)
    | IdentifierExpression(name: string, location: Option<Location>, ty: Option<Type>)
    | BinaryOpExpression(left: Expression, op: string, right: Expression,
                         location: Option<Location>, ty: Option<Type>)
    | NotExpression(value: Expression, notOp: string, location: Option<Location>, ty: Option<Type>)
    | IfExpression(condition: Expression, thenExpression: Expression,
                   elseExpression: Option<Expression>, location: Option<Location>, ty: Option<Type>)
    // The source types `body` as a `BlockExpression`; the model widens it to any expression,
    // and nothing here depends on the kind of the body.
    | WhileExpression(condition: Expression, body: Expression,
                      location: Option<Location>, ty: Option<Type>)
    | BlockExpression(statements: seq<Expression>, resultExpression: Option<Expression>,
                      location: Option<Location>, ty: Option<Type>)
    | VarDeclarationExpression(variableIdentifier: string, variableValue: Expression,
                               variableType: Option<Type>, location: Option<Location>, ty: Option<Type>)
    | FunctionCallExpression(identifier: string, arguments: seq<Expression>,
                             location: Option<Location>, ty: Option<Type>)

  /** The node kind tag every expression reports; both literal sorts share one tag. */
  datatype ExpressionType =
    Literal | Identifier | BinaryOp | If | FunctionCall | Not | Block | VariableDeclaration | While

  function Kind(e: Expression): ExpressionType {
    match e
    case IntLiteralExpression(_, _, _) => Literal
    case BoolLiteralExpression(_, _, _) => Literal
    case IdentifierExpression(_, _, _) => Identifier
    case BinaryOpExpression(_, _, _, _, _) => BinaryOp
    case NotExpression(_, _, _, _) => Not
    case IfExpression(_, _, _, _, _) => If
    case WhileExpression(_, _, _, _) => While
    case BlockExpression(_, _, _, _) => Block
    case VarDeclarationExpression(_, _, _, _, _) => VariableDeclaration
    case FunctionCallExpression(_, _, _, _) => FunctionCall
  }

  /** `BlockExpression.init`: the location defaults to none; blocks have no resolved type. */
  function NewBlockExpression(statements: seq<Expression>, resultExpression: Option<Expression>,
                              location: Option<Location> := None): (r: Expression)
    ensures r.BlockExpression? && r.statements == statements
    ensures r.resultExpression == resultExpression && r.location == location && r.ty == None
  {
    BlockExpression(statements, resultExpression, location, None)
  }

  /** `VarDeclarationExpression.init`: annotation and location default to none, type stays unset. */
  function NewVarDeclarationExpression(variableIdentifier: string, variableValue: Expression,
                                       variableType: Option<Type> := None,
                                       location: Option<Location> := None): (r: Expression)
    ensures r.VarDeclarationExpression? && r.variableIdentifier == variableIdentifier
    ensures r.variableValue == variableValue && r.variableType == variableType
    ensures r.location == location && r.ty == None
  {
    VarDeclarationExpression(variableIdentifier, variableValue, variableType, location, None)
  }

  /** `NotExpression.init`: the location defaults to none, type stays unset. */
  function NewNotExpression(value: Expression, notOp: string,
                            location: Option<Location> := None): (r: Expression)
    ensures r.NotExpression? && r.value == value && r.notOp == notOp
    ensures r.location == location && r.ty == None
  {
    NotExpression(value, notOp, location, None)
  }

  /**
   * `areExpressionsEqual(lhs, rhs)`: absent equals only absent, kinds must agree, and then
   * each node's own `==` decides.  Present children are compared with `Equal` directly,
   * which is what `areExpressionsEqual` does on two present arguments.
   */
  predicate AreExpressionsEqual(lhs: Option<Expression>, rhs: Option<Expression>)
    decreases lhs
  {
    if lhs.Some? && rhs.Some? then Equal(lhs.value, rhs.value)
    else lhs.None? && rhs.None?
  }

  /** `areExpressionsEqual` on two present expressions, with the nodes' `==` inlined. */
  predicate Equal(lhs: Expression, rhs: Expression)
    decreases lhs
  {
    Kind(lhs) == Kind(rhs) &&
    match lhs
    case IntLiteralExpression(v, _, _) => rhs.IntLiteralExpression? && rhs.intValue == v
    case BoolLiteralExpression(v, _, _) => rhs.BoolLiteralExpression? && rhs.boolValue == v
    case IdentifierExpression(n, _, _) => rhs.name == n
    case BinaryOpExpression(l, op, r, _, _) =>
      Equal(l, rhs.left) && op == rhs.op && Equal(r, rhs.right)
    case NotExpression(v, _, _, _) => Equal(v, rhs.value)
    case IfExpression(c, t, e, _, _) =>
      Equal(c, rhs.condition) && Equal(t, rhs.thenExpression)
      && AreExpressionsEqual(e, rhs.elseExpression)
    case WhileExpression(c, b, _, _) => Equal(c, rhs.condition) && Equal(b, rhs.body)
    case BlockExpression(ss, res, _, _) =>
      |ss| == |rhs.statements| && AreExpressionsEqual(res, rhs.resultExpression)
      && forall i :: 0 <= i < |ss| ==> Equal(ss[i], rhs.statements[i])
    case VarDeclarationExpression(id, v, t, _, _) =>
      id == rhs.variableIdentifier && Equal(v, rhs.variableValue) && t == rhs.variableType
    case FunctionCallExpression(id, args, _, _) =>
      id == rhs.identifier && |args| == |rhs.arguments|
      && forall i :: 0 <= i < |args| ==> Equal(args[i], rhs.arguments[i])
  }

  /**
   * The part of a tree that equality looks at: locations and resolved types dropped,
   * and the text of a `not` operator blanked.
   */
  function Erase(e: Expression): Expression
    decreases e
  {
    match e
    case IntLiteralExpression(v, _, _) => IntLiteralExpression(v, None, None)
    case BoolLiteralExpression(v, _, _) => BoolLiteralExpression(v, None, None)
    case IdentifierExpression(n, _, _) => IdentifierExpression(n, None, None)
    case BinaryOpExpression(l, op, r, _, _) => BinaryOpExpression(Erase(l), op, Erase(r), None, None)
    case NotExpression(v, _, _, _) => NotExpression(Erase(v), "", None, None)
    case IfExpression(c, t, el, _, _) =>
      IfExpression(Erase(c), Erase(t), EraseOption(el), None, None)
    case WhileExpression(c, b, _, _) => WhileExpression(Erase(c), Erase(b), None, None)
    case BlockExpression(ss, res, _, _) =>
      BlockExpression(EraseAll(ss), EraseOption(res), None, None)
    case VarDeclarationExpression(id, v, t, _, _) =>
      VarDeclarationExpression(id, Erase(v), t, None, None)
    case FunctionCallExpression(id, args, _, _) =>
      FunctionCallExpression(id, EraseAll(args), None, None)
  }

  function EraseOption(e: Option<Expression>): (r: Option<Expression>)
    decreases e
    ensures r.Some? <==> e.Some?
  {
    match e
    case None => None
    case Some(x) => Some(Erase(x))
  }

  function EraseAll(es: seq<Expression>): (r: seq<Expression>)
    decreases es
    ensures |r| == |es|
  {
    if |es| == 0 then [] else [Erase(es[0])] + EraseAll(es[1..])
  }

  lemma {:induction false} EraseAllAt(es: seq<Expression>, i: nat)
    requires i < |es|
    ensures EraseAll(es)[i] == Erase(es[i])
  {
    if i > 0 {
      EraseAllAt(es[1..], i - 1);
    }
  }

  /**
   * Structural equality holds exactly when the two trees agree on everything except
   * locations, resolved types and `not` operator text.
   */
  lemma {:induction false} EqualIffErasedEqual(a: Expression, b: Expression)
    ensures Equal(a, b) <==> Erase(a) == Erase(b)
    decreases a, 1
  {
    match a
    case IntLiteralExpression(_, _, _) =>
    case BoolLiteralExpression(_, _, _) =>
    case IdentifierExpression(_, _, _) =>
    case BinaryOpExpression(l, _, r, _, _) =>
      if b.BinaryOpExpression? {
        EqualIffErasedEqual(l, b.left);
        EqualIffErasedEqual(r, b.right);
      }
    case NotExpression(v, _, _, _) =>
      if b.NotExpression? {
        EqualIffErasedEqual(v, b.value);
      }
    case VarDeclarationExpression(_, v, _, _, _) =>
      if b.VarDeclarationExpression? {
        EqualIffErasedEqual(v, b.variableValue);
      }
    case _ =>
      CompoundEqualIffErasedEqual(a, b);
  }

  /** The cases of `EqualIffErasedEqual` for the nodes that hold statements. */
  lemma {:induction false} CompoundEqualIffErasedEqual(a: Expression, b: Expression)
    requires a.IfExpression? || a.WhileExpression? || a.BlockExpression? || a.FunctionCallExpression?
    ensures Equal(a, b) <==> Erase(a) == Erase(b)
    decreases a, 0
  {
    match a
    case IfExpression(c, t, el, _, _) =>
      if b.IfExpression? {
        EqualIffErasedEqual(c, b.condition);
        EqualIffErasedEqual(t, b.thenExpression);
        OptionEqualIffErasedEqual(el, b.elseExpression);
      }
    case WhileExpression(c, body, _, _) =>
      if b.WhileExpression? {
        EqualIffErasedEqual(c, b.condition);
        EqualIffErasedEqual(body, b.body);
      }
    case BlockExpression(ss, res, _, _) =>
      if b.BlockExpression? {
        OptionEqualIffErasedEqual(res, b.resultExpression);
        AllEqualIffErasedEqual(ss, b.statements);
      }
    case FunctionCallExpression(_, args, _, _) =>
      if b.FunctionCallExpression? {
        AllEqualIffErasedEqual(args, b.arguments);
      }
  }

  lemma {:induction false} OptionEqualIffErasedEqual(a: Option<Expression>, b: Option<Expression>)
    ensures AreExpressionsEqual(a, b) <==> EraseOption(a) == EraseOption(b)
    decreases a
  {
    if a.Some? && b.Some? {
      EqualIffErasedEqual(a.value, b.value);
    }
  }

  lemma {:induction false} AllEqualIffErasedEqual(xs: seq<Expression>, ys: seq<Expression>)
    ensures (|xs| == |ys| && forall i :: 0 <= i < |xs| ==> Equal(xs[i], ys[i]))
            <==> EraseAll(xs) == EraseAll(ys)
    decreases xs
  {
    if |xs| == |ys| {
      forall i | 0 <= i < |xs|
        ensures Equal(xs[i], ys[i]) <==> EraseAll(xs)[i] == EraseAll(ys)[i]
      {
        EraseAllAt(xs, i);
        EraseAllAt(ys, i);
        EqualIffErasedEqual(xs[i], ys[i]);
      }
    }
  }

  /** Equality is an equivalence; in particular every tree equals a rebuilt copy of itself. */
  lemma EqualIsEquivalence(a: Expression, b: Expression, c: Expression)
    ensures Equal(a, a)
    ensures Equal(a, b) <==> Equal(b, a)
    ensures Equal(a, b) && Equal(b, c) ==> Equal(a, c)
  {
    EqualIffErasedEqual(a, a);
    EqualIffErasedEqual(a, b);
    EqualIffErasedEqual(b, a);
    EqualIffErasedEqual(b, c);
    EqualIffErasedEqual(a, c);
  }

  lemma AbsentExpressions(e: Expression)
    ensures AreExpressionsEqual(None, None)
    ensures !AreExpressionsEqual(None, Some(e)) && !AreExpressionsEqual(Some(e), None)
  {
  }

  lemma DifferentKindsUnequal(a: Expression, b: Expression)
    requires Kind(a) != Kind(b)
    ensures !Equal(a, b) && !AreExpressionsEqual(Some(a), Some(b))
  {
  }

  /** An Int literal never equals a Bool literal, although both have the literal tag. */
  lemma LiteralEquality(a: Expression, b: Expression)
    requires Kind(a) == Literal && Kind(b) == Literal
    ensures a.IntLiteralExpression? && b.BoolLiteralExpression? ==> !Equal(a, b)
    ensures a.IntLiteralExpression? && b.IntLiteralExpression? ==> (Equal(a, b) <==> a.intValue == b.intValue)
    ensures a.BoolLiteralExpression? && b.BoolLiteralExpression? ==> (Equal(a, b) <==> a.boolValue == b.boolValue)
  {
  }

  /** Blocks built by the initializer: counts, results and statements in order; never locations. */
  lemma BlockEquality(s1: seq<Expression>, r1: Option<Expression>, l1: Option<Location>,
                      s2: seq<Expression>, r2: Option<Expression>, l2: Option<Location>)
    ensures Equal(NewBlockExpression(s1, r1, l1), NewBlockExpression(s2, r2, l2)) <==>
      |s1| == |s2| && AreExpressionsEqual(r1, r2)
      && forall i :: 0 <= i < |s1| ==> Equal(s1[i], s2[i])
    ensures |s1| != |s2| ==> !Equal(NewBlockExpression(s1, r1, l1), NewBlockExpression(s2, r2, l2))
  {
  }

  /** Declarations: same name, equal initializers and the same annotation; location and type ignored. */
  lemma VarDeclarationEquality(a: Expression, b: Expression)
    requires a.VarDeclarationExpression? && b.VarDeclarationExpression?
    ensures Equal(a, b) <==>
      a.variableIdentifier == b.variableIdentifier && Equal(a.variableValue, b.variableValue)
      && a.variableType == b.variableType
  {
  }

  /** Declarations that differ only in their annotation, `Int` against none, are unequal. */
  lemma VarDeclarationAnnotationMatters(id: string, v: Expression)
    ensures !Equal(NewVarDeclarationExpression(id, v, Some(Int)), NewVarDeclarationExpression(id, v))
  {
  }

  /** `not` nodes compare their operands only: operator text, location and type are ignored. */
  lemma NotEquality(v1: Expression, op1: string, l1: Option<Location>,
                    v2: Expression, op2: string, l2: Option<Location>)
    ensures Equal(NewNotExpression(v1, op1, l1), NewNotExpression(v2, op2, l2)) <==> Equal(v1, v2)
  {
  }

  /** The operator precedence table, lowest level first. */
  const LEFT_ASSOCIATIVE_BINARY_OPERATORS: seq<seq<string>> := [
    ["="],
    ["or"],
    ["and"],
    ["==", "!="],
    ["<", "<=", ">", ">="],
    ["+", "-"],
    ["*", "/", "%"]
  ]

  /** Seven levels from `=` to the multiplicative ones, and no operator listed twice. */
  lemma PrecedenceTableShape()
    ensures |LEFT_ASSOCIATIVE_BINARY_OPERATORS| == 7
    ensures LEFT_ASSOCIATIVE_BINARY_OPERATORS[0] == ["="]
    ensures LEFT_ASSOCIATIVE_BINARY_OPERATORS[6] == ["*", "/", "%"]
    ensures forall i, j, k, m ::
      0 <= i < 7 && 0 <= j < 7 && 0 <= k < |LEFT_ASSOCIATIVE_BINARY_OPERATORS[i]|
      && 0 <= m < |LEFT_ASSOCIATIVE_BINARY_OPERATORS[j]|
      && LEFT_ASSOCIATIVE_BINARY_OPERATORS[i][k] == LEFT_ASSOCIATIVE_BINARY_OPERATORS[j][m]
      ==> i == j && k == m
  {
  }
}
