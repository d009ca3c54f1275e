/** The signatures of the built-in operators and functions. */
module TypecheckUtilities {
  import opened Wrappers
  import opened Types

  datatype Signature = Signature(params: seq<FunctionParameterType>, returnType: Type)

  const INT_INT: seq<FunctionParameterType> := [DefiniteType(Int), DefiniteType(Int)]
  const BOOL_BOOL: seq<FunctionParameterType> := [DefiniteType(Bool), DefiniteType(Bool)]

  const BUILT_IN_FUNC_TYPES: map<string, Signature> := map[
    "+" := Signature(INT_INT, Int),
    "-" := Signature(INT_INT, Int),
    "*" := Signature(INT_INT, Int),
    "/" := Signature(INT_INT, Int),
    "%" := Signature(INT_INT, Int),
    "<" := Signature(INT_INT, Bool),
    "<=" := Signature(INT_INT, Bool),
    ">" := Signature(INT_INT, Bool),
    ">=" := Signature(INT_INT, Bool),
    "==" := Signature([EqualType, EqualType], Bool),
    "!=" := Signature([EqualType, EqualType], Bool),
    "and" := Signature(BOOL_BOOL, Bool),
    "or" := Signature(BOOL_BOOL, Bool),
    "print_int" := Signature([DefiniteType(Int)], Unit),
    "print_bool" := Signature([DefiniteType(Bool)], Unit),
    "read_int" := Signature([], Int)
  ]

  /** `builtInFuncTypes[name]`. */
  function BuiltInFuncType(name: string): Option<Signature> {
    if name in BUILT_IN_FUNC_TYPES then Some(BUILT_IN_FUNC_TYPES[name]) else None
  }

  predicate IsArithmeticOp(op: string) { op in {"+", "-", "*", "/", "%"} }
  predicate IsComparisonOp(op: string) { op in {"<", "<=", ">", ">="} }
  predicate IsEqualityOp(op: string) { op in {"==", "!="} }
  predicate IsLogicalOp(op: string) { op in {"and", "or"} }
  predicate IsOperator(op: string) {
    IsArithmeticOp(op) || IsComparisonOp(op) || IsEqualityOp(op) || IsLogicalOp(op)
  }

  lemma ArithmeticSignatures(op: string)
    requires IsArithmeticOp(op)
    ensures BuiltInFuncType(op) == Some(Signature([DefiniteType(Int), DefiniteType(Int)], Int))
  {
  }

  lemma ComparisonSignatures(op: string)
    requires IsComparisonOp(op)
    ensures BuiltInFuncType(op) == Some(Signature([DefiniteType(Int), DefiniteType(Int)], Bool))
  {
  }

  lemma EqualitySignatures(op: string)
    requires IsEqualityOp(op)
    ensures BuiltInFuncType(op) == Some(Signature([EqualType, EqualType], Bool))
  {
  }

  lemma LogicalSignatures(op: string)
    requires IsLogicalOp(op)
    ensures BuiltInFuncType(op) == Some(Signature([DefiniteType(Bool), DefiniteType(Bool)], Bool))
  {
  }

  lemma BuiltInFunctionSignatures()
    ensures BuiltInFuncType("print_int") == Some(Signature([DefiniteType(Int)], Unit))
    ensures BuiltInFuncType("print_bool") == Some(Signature([DefiniteType(Bool)], Unit))
    ensures BuiltInFuncType("read_int") == Some(Signature([], Int))
  {
  }

  /** The table holds exactly the operators and the three runtime functions. */
  lemma BuiltInNames(name: string)
    ensures BuiltInFuncType(name).Some? <==>
      IsOperator(name) || name in {"print_int", "print_bool", "read_int"}
  {
  }

  /** Every operator entry takes exactly two parameters. */
  lemma OperatorsAreBinary(op: string)
    requires IsOperator(op)
    ensures BuiltInFuncType(op).Some? && |BuiltInFuncType(op).value.params| == 2
  {
  }
}
