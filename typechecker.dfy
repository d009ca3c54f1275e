/**
 * The typechecker as the source runs it: one symbol table updated in place while the
 * tree is walked.  Each method is proved to compute the rules in `TypecheckerSpec`.
 */
module Typechecking {
  import opened Wrappers
  import opened Types
  import opened Expressions
  import opened SymTabs
  import S = TypecheckerSpec

  class Typechecker {
    const symTab: SymTab<Type>

    /** A typechecker starts with an empty symbol table. */
    constructor ()
      ensures fresh(symTab) && symTab.table == map[]
    {
      symTab := new SymTab(map[]);
    }

    /** `typecheck(_:)`: the type of `e`; a failure keeps the declarations made before it. */
    method Typecheck(e: Expression) returns (r: Result<Type, S.TypecheckerError>)
      modifies symTab
      decreases e, 1
      ensures S.Outcome(r, symTab.table) == S.Typecheck(e, old(symTab.table))
    {
      match e
      case IntLiteralExpression(_, _, _) =>
        r := Success(Int);
      case BoolLiteralExpression(_, _, _) =>
        r := Success(Bool);
      case BinaryOpExpression(_, _, _, _, _) =>
        r := TypecheckBinaryOpExpression(e);
      case IdentifierExpression(_, _, _) =>
        r := TypecheckIdentifierExpression(e);
      case VarDeclarationExpression(_, _, _, _, _) =>
        r := TypecheckVarDeclarationExpression(e);
      case BlockExpression(_, _, _, _) =>
        r := TypecheckBlockExpression(e);
      case IfExpression(_, _, _, _, _) =>
        r := TypecheckIfExpression(e);
      case NotExpression(_, _, _, _) =>
        r := Failure(S.UnsupportedExpressionType(Kind(e)));
      case WhileExpression(_, _, _, _) =>
        r := Failure(S.UnsupportedExpressionType(Kind(e)));
      case FunctionCallExpression(_, _, _, _) =>
        r := Failure(S.UnsupportedExpressionType(Kind(e)));
    }

    method TypecheckBinaryOpExpression(e: Expression) returns (r: Result<Type, S.TypecheckerError>)
      requires e.BinaryOpExpression?
      modifies symTab
      decreases e, 0
      ensures S.Outcome(r, symTab.table) == S.Typecheck(e, old(symTab.table))
    {
      var leftType := Typecheck(e.left);
      if leftType.Failure? {
        return leftType;
      }
      var rightType := Typecheck(e.right);
      if rightType.Failure? {
        return rightType;
      }
      var lt, rt := leftType.value, rightType.value;
      if lt != rt {
        return Failure(S.InaproppriateType(lt, [rt]));
      }
      if e.op in ["+", "-", "*", "/", "%", "<", "<=", ">", ">="] {
        if !(lt == Int && rt == Int) {
          return Failure(S.InaproppriateType(Int, [lt]));
        }
        return Success(if e.op in ["+", "-", "*", "/", "%"] then Int else Bool);
      }
      if e.op in ["and", "or"] {
        if !(lt == Bool && rt == Bool) {
          return Failure(S.InaproppriateType(Bool, [lt, rt]));
        }
        return Success(Bool);
      }
      if e.op == "=" {
        return Success(Unit);
      }
      return Failure(S.UnsupportedOperator(e.op));
    }

    method TypecheckIdentifierExpression(e: Expression) returns (r: Result<Type, S.TypecheckerError>)
      requires e.IdentifierExpression?
      ensures S.Outcome(r, symTab.table) == S.Typecheck(e, symTab.table)
    {
      var t := symTab.Lookup(e.name);
      if t.None? {
        return Failure(S.ReferenceToUndefinedIdentifier(e.name));
      }
      return Success(t.value);
    }

    method TypecheckVarDeclarationExpression(e: Expression) returns (r: Result<Type, S.TypecheckerError>)
      requires e.VarDeclarationExpression?
      modifies symTab
      decreases e, 0
      ensures S.Outcome(r, symTab.table) == S.Typecheck(e, old(symTab.table))
    {
      var variableName := e.variableIdentifier;
      var t := Typecheck(e.variableValue);
      if t.Failure? {
        return t;
      }
      if e.variableType.Some? && t.value != e.variableType.value {
        return Failure(S.InaproppriateType(e.variableType.value, [t.value]));
      }
      if symTab.Lookup(variableName).Some? {
        return Failure(S.IdentifierAlreadyDeclared(variableName));
      }
      symTab.Insert(t.value, variableName);
      return Success(Unit);
    }

    method TypecheckBlockExpression(e: Expression) returns (r: Result<Type, S.TypecheckerError>)
      requires e.BlockExpression?
      modifies symTab
      decreases e, 0
      ensures S.Outcome(r, symTab.table) == S.Typecheck(e, old(symTab.table))
    {
      var ss := e.statements;
      var i := 0;
      while i < |ss|
        invariant 0 <= i <= |ss|
        invariant S.TypecheckStatements(ss, old(symTab.table)) == S.TypecheckStatements(ss[i..], symTab.table)
      {
        assert ss[i..][0] == ss[i] && ss[i..][1..] == ss[i + 1..];
        var t := Typecheck(ss[i]);
        if t.Failure? {
          return Failure(t.error);
        }
        i := i + 1;
      }
      if e.resultExpression.Some? {
        r := Typecheck(e.resultExpression.value);
        return;
      }
      return Success(Unit);
    }

    method TypecheckIfExpression(e: Expression) returns (r: Result<Type, S.TypecheckerError>)
      requires e.IfExpression?
      modifies symTab
      decreases e, 0
      ensures S.Outcome(r, symTab.table) == S.Typecheck(e, old(symTab.table))
    {
      var conditionType := Typecheck(e.condition);
      if conditionType.Failure? {
        return conditionType;
      }
      if conditionType.value != Bool {
        return Failure(S.InaproppriateType(Bool, [conditionType.value]));
      }
      var thenType := Typecheck(e.thenExpression);
      if thenType.Failure? {
        return thenType;
      }
      if e.elseExpression.Some? {
        var elseType := Typecheck(e.elseExpression.value);
        if elseType.Failure? {
          return elseType;
        }
        if thenType.value != elseType.value {
          return Failure(S.InaproppriateType(thenType.value, [elseType.value]));
        }
      }
      return thenType;
    }
  }
}
