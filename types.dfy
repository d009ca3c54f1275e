/** The language's types and the parameter kinds of built-in signatures. */
module Types {

  datatype Type = Int | Bool | Unit | Function

  function Name(t: Type): string {
    match t
    case Int => "Int"
    case Bool => "Bool"
    case Unit => "Unit"
    case Function => "Function"
  }

  /** A parameter either has a definite type or must equal the other parameter's type. */
  datatype FunctionParameterType = EqualType | DefiniteType(t: Type)
}
