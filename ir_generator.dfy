/**
 * The IR generator object: the instruction list, the two symbol tables and the variable
 * counter are updated in place.  Each method is proved to compute `IrGeneratorSpec`.
 */
module IrGeneration {
  import opened Wrappers
  import opened Types
  import opened Locations
  import opened Expressions
  import opened Ir
  import opened SymTabs
  import S = IrGeneratorSpec

  class IrGenerator {
    const expressions: seq<Expression>
    var instructions: seq<Instruction>
    const symTab: SymTab<IrVar>
    const varTypes: SymTab<Type>
    var nextVarNumber: nat

    /** The generator's whole state as a value. */
    function State(): S.GenState
      reads this, symTab, varTypes
    {
      S.GenState(instructions, symTab.table, varTypes.table, nextVarNumber)
    }

    /** Empty tables and counter zero; the instruction list is given by the caller. */
    constructor (expressions: seq<Expression>, instructions: seq<Instruction>)
      ensures this.expressions == expressions
      ensures State() == S.GenState(instructions, map[], map[], 0)
      ensures fresh(symTab) && fresh(varTypes)
    {
      this.expressions := expressions;
      this.instructions := instructions;
      symTab := new SymTab(map[]);
      varTypes := new SymTab(map[]);
      nextVarNumber := 0;
    }

    /** `generate()`: returns the error it stops on, if any. */
    method Generate() returns (error: Option<S.IrGeneratorError>)
      modifies this, symTab, varTypes
      ensures S.Generated(error, State()) == S.Generate(expressions, old(State()))
    {
      var i := 0;
      while i < |expressions|
        invariant 0 <= i <= |expressions|
        invariant S.Generate(expressions, old(State())) == S.Generate(expressions[i..], State())
      {
        assert expressions[i..][0] == expressions[i] && expressions[i..][1..] == expressions[i + 1..];
        var r := Visit(expressions[i]);
        if r.Failure? {
          return Some(r.error);
        }
        i := i + 1;
      }
      return None;
    }

    method Visit(node: Expression) returns (r: Result<IrVar, S.IrGeneratorError>)
      modifies this, symTab, varTypes
      decreases node, 1
      ensures S.Visited(r, State()) == S.Visit(node, old(State()))
    {
      match node
      case IntLiteralExpression(_, _, _) =>
        r := HandleLiteralExpression(node);
      case BoolLiteralExpression(_, _, _) =>
        r := HandleLiteralExpression(node);
      case BinaryOpExpression(_, _, _, _, _) =>
        r := HandleBinaryOpExpression(node);
      case VarDeclarationExpression(_, _, _, _, _) =>
        r := HandleVarDeclarationExpression(node);
      case IdentifierExpression(_, _, _) =>
        r := HandleIdentifierExpression(node);
      case _ =>
        r := Failure(S.UnimplementedExpression(node));
    }

    /** `newVar(_:)`. */
    method NewVar(t: Type) returns (v: IrVar)
      modifies this, varTypes
      ensures (v, State()) == S.NewVar(t, old(State()))
    {
      var varNumber := nextVarNumber;
      nextVarNumber := nextVarNumber + 1;
      v := IrVar("x" + Strings.NatToString(varNumber));
      varTypes.Insert(t, v.name);
    }

    function UnwrapLocation(e: Expression): (r: Result<Location, S.IrGeneratorError>)
      ensures r.Success? <==> e.location.Some?
      ensures r.Success? ==> r.value == e.location.value
      ensures r.Failure? ==> r.error == S.MissingLocation(e)
    {
      if e.location.None? then Failure(S.MissingLocation(e)) else Success(e.location.value)
    }

    function UnwrapType(e: Expression): (r: Result<Type, S.IrGeneratorError>)
      ensures r.Success? <==> e.ty.Some?
      ensures r.Success? ==> r.value == e.ty.value
      ensures r.Failure? ==> r.error == S.MissingType(e)
    {
      if e.ty.None? then Failure(S.MissingType(e)) else Success(e.ty.value)
    }

    method HandleLiteralExpression(e: Expression) returns (r: Result<IrVar, S.IrGeneratorError>)
      requires e.IntLiteralExpression? || e.BoolLiteralExpression?
      modifies this, varTypes
      ensures S.Visited(r, State()) == S.Visit(e, old(State()))
    {
      var t := UnwrapType(e);
      if t.Failure? {
        return Failure(t.error);
      }
      var irVar := NewVar(t.value);
      var location := UnwrapLocation(e);
      if location.Failure? {
        return Failure(location.error);
      }
      var instruction := if e.IntLiteralExpression? then LoadIntConst(e.intValue, irVar, location.value)
                         else LoadBoolConst(e.boolValue, irVar, location.value);
      instructions := instructions + [instruction];
      return Success(irVar);
    }

    method HandleBinaryOpExpression(e: Expression) returns (r: Result<IrVar, S.IrGeneratorError>)
      requires e.BinaryOpExpression?
      modifies this, symTab, varTypes
      decreases e, 0
      ensures S.Visited(r, State()) == S.Visit(e, old(State()))
    {
      var left := Visit(e.left);
      if left.Failure? {
        return left;
      }
      var right := Visit(e.right);
      if right.Failure? {
        return right;
      }
      var t := UnwrapType(e);
      if t.Failure? {
        return Failure(t.error);
      }
      var irVar := NewVar(t.value);
      var location := UnwrapLocation(e);
      if location.Failure? {
        return Failure(location.error);
      }
      instructions := instructions + [Call(IrVar(e.op), [left.value, right.value], irVar, location.value)];
      return Success(irVar);
    }

    method HandleVarDeclarationExpression(e: Expression) returns (r: Result<IrVar, S.IrGeneratorError>)
      requires e.VarDeclarationExpression?
      modifies this, symTab, varTypes
      decreases e, 0
      ensures S.Visited(r, State()) == S.Visit(e, old(State()))
    {
      if symTab.Lookup(e.variableIdentifier).Some? {
        return Failure(S.DuplicateVarDeclaration(e));
      }
      var valueIrVar := Visit(e.variableValue);
      if valueIrVar.Failure? {
        return valueIrVar;
      }
      var t := UnwrapType(e.variableValue);
      if t.Failure? {
        return Failure(t.error);
      }
      var variableIrVar := NewVar(t.value);
      var location := UnwrapLocation(e);
      if location.Failure? {
        return Failure(location.error);
      }
      symTab.Insert(variableIrVar, e.variableIdentifier);
      instructions := instructions + [Copy(valueIrVar.value, variableIrVar, location.value)];
      return Success(variableIrVar);
    }

    method HandleIdentifierExpression(e: Expression) returns (r: Result<IrVar, S.IrGeneratorError>)
      requires e.IdentifierExpression?
      ensures S.Visited(r, State()) == S.Visit(e, State())
    {
      var irVar := symTab.Lookup(e.name);
      if irVar.None? {
        return Failure(S.ReferenceToUndefinedVar(e));
      }
      return Success(irVar.value);
    }
  }
}
