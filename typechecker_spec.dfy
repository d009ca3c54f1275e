/**
 * The typing rules as functions.  A run threads one flat environment through the whole
 * tree: declarations made inside a block stay visible after it, and a thrown error keeps
 * whatever was declared before it.
 */
module TypecheckerSpec {
  import opened Wrappers
  import opened Types
  import opened Locations
  import opened Expressions
  import opened TypecheckUtilities

  /**
   * The errors the typechecker raises, with the arguments it builds them with.
   * `UnsupportedExpressionType` stands for the `fatalError` on a kind with no rule.
   */
  datatype TypecheckerError =
    | InaproppriateType(expected: Type, got: seq<Type>)
    | UnsupportedOperator(op: string)
    | ReferenceToUndefinedIdentifier(identifier: string)
    | IdentifierAlreadyDeclared(identifier: string)
    | UnsupportedExpressionType(kind: ExpressionType)

  type Env = map<string, Type>

  /** The result of one call and the environment it leaves behind, thrown or not. */
  datatype Outcome = Outcome(result: Result<Type, TypecheckerError>, env: Env)

  /** An environment only ever gains names; the names it had keep their types. */
  predicate Extends(env: Env, env': Env) {
    env.Keys <= env'.Keys && forall k :: k in env ==> env'[k] == env[k]
  }

  predicate IsArithmeticOrComparison(op: string) {
    op in ["+", "-", "*", "/", "%", "<", "<=", ">", ">="]
  }

  /** The binary-operator rule, applied once both operand types are known. */
  function BinaryOpRule(op: string, leftType: Type, rightType: Type): Result<Type, TypecheckerError> {
    if leftType != rightType then Failure(InaproppriateType(leftType, [rightType]))
    else if IsArithmeticOrComparison(op) then
      if leftType == Int && rightType == Int then
        Success(if op in ["+", "-", "*", "/", "%"] then Int else Bool)
      else Failure(InaproppriateType(Int, [leftType]))
    else if op in ["and", "or"] then
      if leftType == Bool && rightType == Bool then Success(Bool)
      else Failure(InaproppriateType(Bool, [leftType, rightType]))
    else if op == "=" then Success(Unit)
    else Failure(UnsupportedOperator(op))
  }

  /** `typecheck(_:)` run from environment `env`. */
  function Typecheck(e: Expression, env: Env): (o: Outcome)
    decreases e, 1
    ensures Extends(env, o.env)
  {
    match e
    case IntLiteralExpression(_, _, _) => Outcome(Success(Int), env)
    case BoolLiteralExpression(_, _, _) => Outcome(Success(Bool), env)
    case BinaryOpExpression(l, op, r, _, _) =>
      var lo := Typecheck(l, env);
      if lo.result.Failure? then lo
      else
        var ro := Typecheck(r, lo.env);
        if ro.result.Failure? then ro
        else Outcome(BinaryOpRule(op, lo.result.value, ro.result.value), ro.env)
    case IdentifierExpression(n, _, _) =>
      if n in env then Outcome(Success(env[n]), env)
      else Outcome(Failure(ReferenceToUndefinedIdentifier(n)), env)
    case VarDeclarationExpression(id, v, annotation, _, _) =>
      var vo := Typecheck(v, env);
      if vo.result.Failure? then vo
      else if annotation.Some? && vo.result.value != annotation.value then
        Outcome(Failure(InaproppriateType(annotation.value, [vo.result.value])), vo.env)
      else if id in vo.env then Outcome(Failure(IdentifierAlreadyDeclared(id)), vo.env)
      else Outcome(Success(Unit), vo.env[id := vo.result.value])
    case BlockExpression(ss, res, _, _) =>
      var so := TypecheckStatements(ss, env);
      if so.result.Failure? then so
      else if res.None? then Outcome(Success(Unit), so.env)
      else Typecheck(res.value, so.env)
    case IfExpression(c, t, el, _, _) =>
      var co := Typecheck(c, env);
      if co.result.Failure? then co
      else if co.result.value != Bool then
        Outcome(Failure(InaproppriateType(Bool, [co.result.value])), co.env)
      else
        var to := Typecheck(t, co.env);
        if to.result.Failure? || el.None? then to
        else
          var eo := Typecheck(el.value, to.env);
          if eo.result.Failure? then eo
          else if to.result.value != eo.result.value then
            Outcome(Failure(InaproppriateType(to.result.value, [eo.result.value])), eo.env)
          else Outcome(to.result, eo.env)
    case NotExpression(_, _, _, _) => Outcome(Failure(UnsupportedExpressionType(Kind(e))), env)
    case WhileExpression(_, _, _, _) => Outcome(Failure(UnsupportedExpressionType(Kind(e))), env)
    case FunctionCallExpression(_, _, _, _) => Outcome(Failure(UnsupportedExpressionType(Kind(e))), env)
  }

  /** The statements of a block in order, discarding their types; the first error stops it. */
  function TypecheckStatements(ss: seq<Expression>, env: Env): (o: Outcome)
    decreases ss, 0
    ensures Extends(env, o.env)
    ensures o.result.Success? ==> o.result.value == Unit
  {
    if |ss| == 0 then Outcome(Success(Unit), env)
    else
      var o := Typecheck(ss[0], env);
      if o.result.Failure? then o else TypecheckStatements(ss[1..], o.env)
  }

  /** No variable declaration anywhere in the tree. */
  predicate DeclarationFree(e: Expression)
    decreases e
  {
    match e
    case VarDeclarationExpression(_, _, _, _, _) => false
    case BinaryOpExpression(l, _, r, _, _) => DeclarationFree(l) && DeclarationFree(r)
    case IfExpression(c, t, el, _, _) =>
      DeclarationFree(c) && DeclarationFree(t) && (el.Some? ==> DeclarationFree(el.value))
    case BlockExpression(ss, res, _, _) =>
      (forall i :: 0 <= i < |ss| ==> DeclarationFree(ss[i]))
      && (res.Some? ==> DeclarationFree(res.value))
    case _ => true
  }

  /** Only declarations change the environment. */
  lemma {:induction false} DeclarationFreeKeepsEnv(e: Expression, env: Env)
    requires DeclarationFree(e)
    ensures Typecheck(e, env).env == env
    decreases e, 1
  {
    match e
    case BinaryOpExpression(l, _, r, _, _) =>
      DeclarationFreeKeepsEnv(l, env);
      DeclarationFreeKeepsEnv(r, env);
    case IfExpression(c, t, el, _, _) =>
      DeclarationFreeKeepsEnv(c, env);
      DeclarationFreeKeepsEnv(t, env);
      if el.Some? {
        DeclarationFreeKeepsEnv(el.value, env);
      }
    case BlockExpression(ss, res, _, _) =>
      DeclarationFreeStatementsKeepEnv(ss, env);
      if res.Some? {
        DeclarationFreeKeepsEnv(res.value, env);
      }
    case _ =>
  }

  lemma {:induction false} DeclarationFreeStatementsKeepEnv(ss: seq<Expression>, env: Env)
    requires forall i :: 0 <= i < |ss| ==> DeclarationFree(ss[i])
    ensures TypecheckStatements(ss, env).env == env
    decreases ss, 0
  {
    if |ss| > 0 {
      DeclarationFreeKeepsEnv(ss[0], env);
      assert forall i :: 0 <= i < |ss[1..]| ==> DeclarationFree(ss[1..][i]) by {
        forall i | 0 <= i < |ss[1..]|
          ensures DeclarationFree(ss[1..][i])
        {
          assert ss[1..][i] == ss[i + 1];
        }
      }
      DeclarationFreeStatementsKeepEnv(ss[1..], env);
    }
  }

  /**
   * The rule agrees with the signature table: an arithmetic, comparison or logical
   * operator succeeds exactly when both operand types are its declared parameter types,
   * and then its type is the declared return type.
   */
  lemma BinaryOpMatchesSignature(op: string, leftType: Type, rightType: Type)
    requires IsArithmeticOp(op) || IsComparisonOp(op) || IsLogicalOp(op)
    ensures BuiltInFuncType(op).Some?
    ensures BinaryOpRule(op, leftType, rightType).Success? <==>
      BuiltInFuncType(op).value.params == [DefiniteType(leftType), DefiniteType(rightType)]
    ensures BinaryOpRule(op, leftType, rightType).Success? ==>
      BinaryOpRule(op, leftType, rightType).value == BuiltInFuncType(op).value.returnType
  {
    assert IsArithmeticOp(op) ==> IsArithmeticOrComparison(op);
    assert IsComparisonOp(op) ==> IsArithmeticOrComparison(op);
    if IsArithmeticOp(op) {
      ArithmeticSignatures(op);
    } else if IsComparisonOp(op) {
      ComparisonSignatures(op);
    } else {
      LogicalSignatures(op);
    }
  }

  /** The errors of the rule, in the order the checks run. */
  lemma BinaryOpErrors(op: string, leftType: Type, rightType: Type)
    ensures leftType != rightType ==>
      BinaryOpRule(op, leftType, rightType) == Failure(InaproppriateType(leftType, [rightType]))
    ensures leftType == rightType != Int && IsArithmeticOrComparison(op) ==>
      BinaryOpRule(op, leftType, rightType) == Failure(InaproppriateType(Int, [leftType]))
    ensures leftType == rightType != Bool && op in ["and", "or"] ==>
      BinaryOpRule(op, leftType, rightType) == Failure(InaproppriateType(Bool, [leftType, rightType]))
    ensures leftType == rightType ==>
      (BinaryOpRule(op, leftType, rightType) == Failure(UnsupportedOperator(op)) <==>
       !IsArithmeticOrComparison(op) && op !in ["and", "or", "="])
  {
  }

  /** Assignment is typed Unit whenever both sides agree; `==` and `!=` are not supported yet. */
  lemma AssignmentAndEqualityRules(t: Type)
    ensures BinaryOpRule("=", t, t) == Success(Unit)
    ensures BinaryOpRule("==", t, t) == Failure(UnsupportedOperator("=="))
    ensures BinaryOpRule("!=", t, t) == Failure(UnsupportedOperator("!="))
  {
  }

  /**
   * A declaration succeeds exactly when its value typechecks, agrees with any annotation
   * and the name is still free; it then binds the name to the value's type.  Otherwise the
   * value's error comes first, then a disagreeing annotation, then the bound name.
   */
  lemma VarDeclarationRule(id: string, v: Expression, annotation: Option<Type>, env: Env,
                           loc: Option<Location>, ty: Option<Type>)
    ensures var o := Typecheck(VarDeclarationExpression(id, v, annotation, loc, ty), env);
      var vo := Typecheck(v, env);
      (o.result.Success? <==>
        vo.result.Success? && (annotation.Some? ==> annotation.value == vo.result.value)
        && id !in vo.env)
      && (o.result.Success? ==> o.result.value == Unit && o.env == vo.env[id := vo.result.value])
      && (vo.result.Failure? ==> o == vo)
      && (vo.result.Success? && annotation.Some? && annotation.value != vo.result.value ==>
            o == Outcome(Failure(InaproppriateType(annotation.value, [vo.result.value])), vo.env))
      && (vo.result.Success? && (annotation.Some? ==> annotation.value == vo.result.value)
          && id in vo.env ==>
            o == Outcome(Failure(IdentifierAlreadyDeclared(id)), vo.env))
  {
  }

  /**
   * A name already in the environment can never be declared again; once the value and any
   * annotation are fine, the error is that the name is already declared.
   */
  lemma RedeclarationFails(id: string, v: Expression, annotation: Option<Type>, env: Env,
                           loc: Option<Location>, ty: Option<Type>)
    requires id in env
    ensures var o := Typecheck(VarDeclarationExpression(id, v, annotation, loc, ty), env);
      var vo := Typecheck(v, env);
      o.result.Failure?
      && (vo.result.Success? && (annotation.Some? ==> annotation.value == vo.result.value) ==>
            o.result == Failure(IdentifierAlreadyDeclared(id)))
  {
    var vo := Typecheck(v, env);
    assert id in vo.env;
  }

  /**
   * An `if` needs a Bool condition; without an else-branch it is its then-branch, and with
   * one both branches must agree, the mismatch reported as expected then-type, got else-type.
   */
  lemma IfRule(c: Expression, t: Expression, el: Option<Expression>, env: Env,
               loc: Option<Location>, ty: Option<Type>)
    ensures var o := Typecheck(IfExpression(c, t, el, loc, ty), env);
      var co := Typecheck(c, env);
      var to := Typecheck(t, co.env);
      (o.result.Success? ==> co.result == Success(Bool))
      && (co.result.Failure? ==> o == co)
      && (co.result.Success? && co.result.value != Bool ==>
            o == Outcome(Failure(InaproppriateType(Bool, [co.result.value])), co.env))
      && (co.result == Success(Bool) && (to.result.Failure? || el.None?) ==> o == to)
      && (co.result == Success(Bool) && to.result.Success? && el.Some? ==>
            var eo := Typecheck(el.value, to.env);
            (eo.result.Failure? ==> o == eo)
            && (eo.result.Success? && eo.result.value == to.result.value ==>
                  o == Outcome(to.result, eo.env))
            && (eo.result.Success? && eo.result.value != to.result.value ==>
                  o == Outcome(Failure(InaproppriateType(to.result.value, [eo.result.value])), eo.env)))
  {
  }

  /** Without a result expression a block is Unit; with one it has that expression's type. */
  lemma BlockRule(ss: seq<Expression>, res: Option<Expression>, env: Env,
                  loc: Option<Location>, ty: Option<Type>)
    ensures var o := Typecheck(BlockExpression(ss, res, loc, ty), env);
      var so := TypecheckStatements(ss, env);
      (so.result.Failure? ==> o == so)
      && (so.result.Success? && res.None? ==> o == Outcome(Success(Unit), so.env))
      && (so.result.Success? && res.Some? ==> o == Typecheck(res.value, so.env))
  {
  }

  /**
   * A declaration among a block's statements binds its name, to the type its value had
   * where the declaration stands, in the environment every later statement and the
   * block's result see, and nothing after it rebinds that name.
   */
  lemma {:induction false} DeclarationStaysBound(ss: seq<Expression>, env: Env, i: nat)
    requires i < |ss| && ss[i].VarDeclarationExpression?
    requires TypecheckStatements(ss, env).result.Success?
    ensures var vo := Typecheck(ss[i].variableValue, TypecheckStatements(ss[..i], env).env);
      var o := TypecheckStatements(ss, env);
      vo.result.Success?
      && ss[i].variableIdentifier in o.env && o.env[ss[i].variableIdentifier] == vo.result.value
    decreases i
  {
    var o0 := Typecheck(ss[0], env);
    assert o0.result.Success?;
    assert TypecheckStatements(ss, env) == TypecheckStatements(ss[1..], o0.env);
    if i == 0 {
      assert ss[..0] == [];
      var vo := Typecheck(ss[0].variableValue, env);
      assert o0.env == vo.env[ss[0].variableIdentifier := vo.result.value];
    } else {
      DeclarationStaysBound(ss[1..], o0.env, i - 1);
      assert ss[1..][i - 1] == ss[i];
      assert ss[..i][0] == ss[0] && ss[..i][1..] == ss[1..][..i - 1];
      assert TypecheckStatements(ss[..i], env) == TypecheckStatements(ss[1..][..i - 1], o0.env);
    }
  }

  /** A name a block's statements declare is still bound, with the same type, after the block. */
  lemma BlockDeclarationStaysBound(ss: seq<Expression>, res: Option<Expression>, env: Env, i: nat)
    requires i < |ss| && ss[i].VarDeclarationExpression?
    requires Typecheck(BlockExpression(ss, res, None, None), env).result.Success?
    ensures var vo := Typecheck(ss[i].variableValue, TypecheckStatements(ss[..i], env).env);
      var o := Typecheck(BlockExpression(ss, res, None, None), env);
      vo.result.Success?
      && ss[i].variableIdentifier in o.env && o.env[ss[i].variableIdentifier] == vo.result.value
  {
    DeclarationStaysBound(ss, env, i);
  }

  /** In `{ var x: Int = 1; x }` the name is visible in the result and stays bound after the block. */
  lemma DeclarationVisibleAfterStatement(x: string, env: Env)
    requires x !in env
    ensures var block := BlockExpression(
        [VarDeclarationExpression(x, IntLiteralExpression(1, None, None), Some(Int), None, None)],
        Some(IdentifierExpression(x, None, None)), None, None);
      Typecheck(block, env) == Outcome(Success(Int), env[x := Int])
  {
    var decl := VarDeclarationExpression(x, IntLiteralExpression(1, None, None), Some(Int), None, None);
    assert Typecheck(decl, env) == Outcome(Success(Unit), env[x := Int]);
    assert TypecheckStatements([decl], env) == Outcome(Success(Unit), env[x := Int]) by {
      assert [decl][1..] == [];
    }
  }

  /** `1 + 2 - 3` is Int and `1 + 2 - 3 > 4` is Bool. */
  lemma ArithmeticAndComparisonExamples(env: Env)
    ensures var one := IntLiteralExpression(1, None, None);
      var sum := BinaryOpExpression(BinaryOpExpression(one, "+", IntLiteralExpression(2, None, None), None, None),
                                    "-", IntLiteralExpression(3, None, None), None, None);
      Typecheck(sum, env).result == Success(Int)
      && Typecheck(BinaryOpExpression(sum, ">", IntLiteralExpression(4, None, None), None, None), env).result
         == Success(Bool)
  {
  }

  /** `{ var x: Int = 1; x = true; }` fails on the assignment with expected Int, got Bool. */
  lemma InvalidAssignmentExample()
    ensures var block := BlockExpression(
        [VarDeclarationExpression("x", IntLiteralExpression(1, None, None), Some(Int), None, None),
         BinaryOpExpression(IdentifierExpression("x", None, None), "=", BoolLiteralExpression(true, None, None), None, None)],
        None, None, None);
      Typecheck(block, map[]).result == Failure(InaproppriateType(Int, [Bool]))
  {
  }

  /** `{ x = 2; }` with nothing declared fails on the undefined name. */
  lemma UndefinedIdentifierExample()
    ensures var block := BlockExpression(
        [BinaryOpExpression(IdentifierExpression("x", None, None), "=", IntLiteralExpression(2, None, None), None, None)],
        None, None, None);
      Typecheck(block, map[]).result == Failure(ReferenceToUndefinedIdentifier("x"))
  {
  }

  /** In `{ var x: Int = 1; }` the declaration is Unit, its value Int, and `x` is then Int. */
  lemma VarDeclarationExample()
    ensures var one := IntLiteralExpression(1, None, None);
      var decl := VarDeclarationExpression("x", one, Some(Int), None, None);
      var o := Typecheck(decl, map[]);
      o.result == Success(Unit)
      && Typecheck(one, o.env).result == Success(Int)
      && Typecheck(IdentifierExpression("x", None, None), o.env).result == Success(Int)
  {
  }

  /** `var x: Int = true` fails with expected Int, got Bool. */
  lemma InvalidDeclarationExample()
    ensures var decl := VarDeclarationExpression("x", BoolLiteralExpression(true, None, None), Some(Int), None, None);
      Typecheck(decl, map[]).result == Failure(InaproppriateType(Int, [Bool]))
  {
  }

  /** `if 4 > 2 then { 1 } else { 2 }` is Int. */
  lemma IfExample()
    ensures var cond := BinaryOpExpression(IntLiteralExpression(4, None, None), ">", IntLiteralExpression(2, None, None), None, None);
      var thenBlock := BlockExpression([], Some(IntLiteralExpression(1, None, None)), None, None);
      var elseBlock := BlockExpression([], Some(IntLiteralExpression(2, None, None)), None, None);
      Typecheck(IfExpression(cond, thenBlock, Some(elseBlock), None, None), map[]).result == Success(Int)
  {
  }

  /** `if 4 * 2 then { 1 }` fails with expected Bool, got Int. */
  lemma InvalidConditionExample()
    ensures var cond := BinaryOpExpression(IntLiteralExpression(4, None, None), "*", IntLiteralExpression(2, None, None), None, None);
      var thenBlock := BlockExpression([], Some(IntLiteralExpression(1, None, None)), None, None);
      Typecheck(IfExpression(cond, thenBlock, None, None, None), map[]).result == Failure(InaproppriateType(Bool, [Int]))
  {
  }

  /** `if 4 > 2 then { 1 } else { true }` fails with expected Int, got Bool. */
  lemma UnequalBranchesExample()
    ensures var cond := BinaryOpExpression(IntLiteralExpression(4, None, None), ">", IntLiteralExpression(2, None, None), None, None);
      var thenBlock := BlockExpression([], Some(IntLiteralExpression(1, None, None)), None, None);
      var elseBlock := BlockExpression([], Some(BoolLiteralExpression(true, None, None)), None, None);
      Typecheck(IfExpression(cond, thenBlock, Some(elseBlock), None, None), map[]).result
        == Failure(InaproppriateType(Int, [Bool]))
  {
  }
}
