/**
 * The operator table of the back end: for each built-in operator, the x86-64 lines
 * that read the operands from their stack slots and leave the result in the
 * destination slot.
 */
module Intrinsics {
  import opened Wrappers

  /** Operand texts of a call: the argument slots and the destination slot. */
  datatype IntrinsicsArgs = IntrinsicsArgs(argsRefs: seq<string>, resultRegister: string)

  datatype AssemblyGeneratorError = UnknownIntrinsicsOperator(op: string)

  /** `intrinsicsOps`: the operators the handler knows. */
  const INTRINSICS_OPS: seq<string> :=
    ["==", "!=", "<", "<=", ">", ">=", "+", "-", "*", "/", "%", "unary_not", "unary_-"]

  /** How many argument slots an operator's lines read. */
  function Arity(op: string): nat {
    if op in ["unary_not", "unary_-"] then 1 else 2
  }

  /** The closing store, left out when the result already sits in the destination. */
  function MoveResult(from: string, args: IntrinsicsArgs): seq<string> {
    if args.resultRegister != from then ["movq " + from + ", " + args.resultRegister] else []
  }

  function UnaryMinus(args: IntrinsicsArgs): seq<string>
    requires |args.argsRefs| >= 1
  {
    ["movq " + args.argsRefs[0] + ", %rax", "negq %rax"] + MoveResult("%rax", args)
  }

  function UnaryNot(args: IntrinsicsArgs): seq<string>
    requires |args.argsRefs| >= 1
  {
    ["movq " + args.argsRefs[0] + ", " + args.resultRegister, "xorq $1, " + args.resultRegister]
  }

  function Plus(args: IntrinsicsArgs): seq<string>
    requires |args.argsRefs| >= 2
  {
    ["movq " + args.argsRefs[0] + ", %rax", "addq " + args.argsRefs[1] + ", %rax"] + MoveResult("%rax", args)
  }

  function Minus(args: IntrinsicsArgs): seq<string>
    requires |args.argsRefs| >= 2
  {
    ["movq " + args.argsRefs[0] + ", %rax", "subq " + args.argsRefs[1] + ", %rax"] + MoveResult("%rax", args)
  }

  function Multiply(args: IntrinsicsArgs): seq<string>
    requires |args.argsRefs| >= 2
  {
    ["movq " + args.argsRefs[0] + ", %rax", "imulq " + args.argsRefs[1] + ", %rax"] + MoveResult("%rax", args)
  }

  function Divide(args: IntrinsicsArgs): seq<string>
    requires |args.argsRefs| >= 2
  {
    ["movq " + args.argsRefs[0] + ", %rax", "cqto", "idivq " + args.argsRefs[1]] + MoveResult("%rax", args)
  }

  function Remainder(args: IntrinsicsArgs): seq<string>
    requires |args.argsRefs| >= 2
  {
    ["movq " + args.argsRefs[0] + ", %rax", "cqto", "idivq " + args.argsRefs[1]] + MoveResult("%rdx", args)
  }

  /**
   * `intComparison`: appends to the `inout` array `result` a signed comparison of the
   * two operands whose flag is set into `%al`.
   */
  function IntComparison(args: IntrinsicsArgs, setccInsn: string, result: seq<string>): (r: seq<string>)
    requires |args.argsRefs| >= 2
    ensures |result| + 4 <= |r| <= |result| + 5
    ensures r[..|result|] == result
  {
    result + ["xor %rax, %rax", "movq " + args.argsRefs[0] + ", %rdx", "cmpq " + args.argsRefs[1] + ", %rdx",
              setccInsn + " %al"] + MoveResult("%rax", args)
  }

  /** `handleIntrinsic(_:_:)`: the lines for a listed operator, an error for any other. */
  function HandleIntrinsic(op: string, args: IntrinsicsArgs): (r: Result<seq<string>, AssemblyGeneratorError>)
    requires op in INTRINSICS_OPS ==> |args.argsRefs| >= Arity(op)
    ensures r.Success? <==> op in INTRINSICS_OPS
    ensures r.Failure? ==> r.error == UnknownIntrinsicsOperator(op)
    ensures r.Success? ==> 2 <= |r.value| <= 5
  {
    match op
    case "+" => Success(Plus(args))
    case "-" => Success(Minus(args))
    case "*" => Success(Multiply(args))
    case "/" => Success(Divide(args))
    case "%" => Success(Remainder(args))
    case "==" => Success(IntComparison(args, "sete", []))
    case "!=" => Success(IntComparison(args, "setne", []))
    case "<" => Success(IntComparison(args, "setl", []))
    case "<=" => Success(IntComparison(args, "setle", []))
    case ">" => Success(IntComparison(args, "setg", []))
    case ">=" => Success(IntComparison(args, "setge", []))
    case "unary_-" => Success(UnaryMinus(args))
    case "unary_not" => Success(UnaryNot(args))
    case _ => Failure(UnknownIntrinsicsOperator(op))
  }

  /** The arithmetic instruction behind each of `+`, `-` and `*`. */
  const ARITHMETIC_MNEMONICS: map<string, string> := map["+" := "addq", "-" := "subq", "*" := "imulq"]

  /** The flag-setting instruction behind each comparison. */
  const SETCC: map<string, string> :=
    map["==" := "sete", "!=" := "setne", "<" := "setl", "<=" := "setle", ">" := "setg", ">=" := "setge"]

  /** The register an operator leaves its result in before the closing store. */
  function ResultSource(op: string): string {
    if op == "%" then "%rdx" else "%rax"
  }

  /** The closing store written out for the two result registers. */
  lemma MoveResultText(args: IntrinsicsArgs)
    ensures MoveResult("%rax", args) ==
      (if args.resultRegister == "%rax" then [] else ["movq %rax, " + args.resultRegister])
    ensures MoveResult("%rdx", args) ==
      (if args.resultRegister == "%rdx" then [] else ["movq %rdx, " + args.resultRegister])
  {
    assert "movq " + "%rax" + ", " == "movq %rax, ";
    assert "movq " + "%rdx" + ", " == "movq %rdx, ";
  }

  /**
   * `+`, `-` and `*` load the first operand into `%rax`, apply the operator's
   * instruction with the second operand, and store `%rax` unless it is the destination.
   */
  lemma ArithmeticLines(op: string, args: IntrinsicsArgs)
    requires op in ARITHMETIC_MNEMONICS && |args.argsRefs| >= 2
    ensures HandleIntrinsic(op, args) == Success(
      ["movq " + args.argsRefs[0] + ", %rax", ARITHMETIC_MNEMONICS[op] + " " + args.argsRefs[1] + ", %rax"]
      + (if args.resultRegister == "%rax" then [] else ["movq %rax, " + args.resultRegister]))
  {
    MoveResultText(args);
    if op == "+" {
      assert ARITHMETIC_MNEMONICS[op] + " " == "addq ";
    } else if op == "-" {
      assert ARITHMETIC_MNEMONICS[op] + " " == "subq ";
    } else {
      assert op == "*" && ARITHMETIC_MNEMONICS[op] + " " == "imulq ";
    }
  }

  /**
   * `/` and `%` sign-extend `%rax` into `%rdx` and divide by the second operand; the
   * quotient is taken from `%rax` and the remainder from `%rdx`.
   */
  lemma DivisionLines(op: string, args: IntrinsicsArgs)
    requires op in ["/", "%"] && |args.argsRefs| >= 2
    ensures var src := if op == "/" then "%rax" else "%rdx";
      HandleIntrinsic(op, args) == Success(
        ["movq " + args.argsRefs[0] + ", %rax", "cqto", "idivq " + args.argsRefs[1]]
        + (if args.resultRegister == src then [] else ["movq " + src + ", " + args.resultRegister]))
  {
    MoveResultText(args);
  }

  lemma ComparisonShape(args: IntrinsicsArgs, setccInsn: string)
    requires |args.argsRefs| >= 2
    ensures IntComparison(args, setccInsn, []) ==
      ["xor %rax, %rax", "movq " + args.argsRefs[0] + ", %rdx", "cmpq " + args.argsRefs[1] + ", %rdx",
       setccInsn + " %al"]
      + (if args.resultRegister == "%rax" then [] else ["movq %rax, " + args.resultRegister])
  {
    MoveResultText(args);
  }

  /**
   * A comparison clears `%rax`, compares the second operand against the first in
   * `%rdx`, sets `%al` from the flag of its condition, and stores `%rax`.
   */
  lemma ComparisonLines(op: string, args: IntrinsicsArgs)
    requires op in SETCC && |args.argsRefs| >= 2
    ensures HandleIntrinsic(op, args) == Success(
      ["xor %rax, %rax", "movq " + args.argsRefs[0] + ", %rdx", "cmpq " + args.argsRefs[1] + ", %rdx",
       SETCC[op] + " %al"]
      + (if args.resultRegister == "%rax" then [] else ["movq %rax, " + args.resultRegister]))
  {
    ComparisonDispatch(op, args);
    ComparisonShape(args, SETCC[op]);
  }

  /** The equality and less-than cases of the dispatch. */
  lemma EqualityAndLessCases(args: IntrinsicsArgs)
    requires |args.argsRefs| >= 2
    ensures HandleIntrinsic("==", args) == Success(IntComparison(args, "sete", []))
    ensures HandleIntrinsic("!=", args) == Success(IntComparison(args, "setne", []))
    ensures HandleIntrinsic("<", args) == Success(IntComparison(args, "setl", []))
  {
  }

  /** The remaining ordering cases of the dispatch. */
  lemma OrderingCases(args: IntrinsicsArgs)
    requires |args.argsRefs| >= 2
    ensures HandleIntrinsic("<=", args) == Success(IntComparison(args, "setle", []))
    ensures HandleIntrinsic(">", args) == Success(IntComparison(args, "setg", []))
    ensures HandleIntrinsic(">=", args) == Success(IntComparison(args, "setge", []))
  {
  }

  lemma ComparisonDispatch(op: string, args: IntrinsicsArgs)
    requires op in SETCC && |args.argsRefs| >= 2
    ensures HandleIntrinsic(op, args) == Success(IntComparison(args, SETCC[op], []))
  {
    if op in ["==", "!=", "<"] {
      EqualityAndLessCases(args);
    } else {
      assert op in ["<=", ">", ">="];
      OrderingCases(args);
    }
  }

  /** `unary_not` flips the low bit in the destination itself; `unary_-` negates `%rax`. */
  lemma UnaryLines(args: IntrinsicsArgs)
    requires |args.argsRefs| >= 1
    ensures HandleIntrinsic("unary_not", args) == Success(
      ["movq " + args.argsRefs[0] + ", " + args.resultRegister, "xorq $1, " + args.resultRegister])
    ensures HandleIntrinsic("unary_-", args) == Success(
      ["movq " + args.argsRefs[0] + ", %rax", "negq %rax"]
      + (if args.resultRegister == "%rax" then [] else ["movq %rax, " + args.resultRegister]))
  {
    MoveResultText(args);
  }

  /** The tables cover exactly the intrinsic operators, and do not overlap. */
  lemma OperatorTablesPartition(op: string)
    ensures op in INTRINSICS_OPS <==>
      op in ARITHMETIC_MNEMONICS || op in ["/", "%"] || op in SETCC || op in ["unary_not", "unary_-"]
    ensures op in ARITHMETIC_MNEMONICS ==> op !in SETCC && op !in ["/", "%", "unary_not", "unary_-"]
    ensures op in SETCC ==> op !in ["/", "%", "unary_not", "unary_-"]
  {
  }

  /** The store line written last, if any, exactly when the destination differs. */
  predicate StoresLast(lines: seq<string>, src: string, dest: string)
    requires |lines| > 0
  {
    (lines[|lines| - 1] == "movq " + src + ", " + dest) <==> dest != src
  }

  /** A store appended after lines whose last one is not a `movq` is recognisable as last. */
  lemma StoreRecognisable(body: seq<string>, src: string, args: IntrinsicsArgs)
    requires |body| > 0 && |body[|body| - 1]| >= 2 && body[|body| - 1][1] != 'o'
    ensures StoresLast(body + MoveResult(src, args), src, args.resultRegister)
  {
    var store := "movq " + src + ", " + args.resultRegister;
    assert store[1] == 'o';
  }

  /**
   * Except for `unary_not`, the last line stores the result register into the
   * destination exactly when the destination is a different operand.
   */
  lemma ResultStoredLast(op: string, args: IntrinsicsArgs)
    requires op in INTRINSICS_OPS && op != "unary_not" && |args.argsRefs| >= Arity(op)
    ensures StoresLast(HandleIntrinsic(op, args).value, ResultSource(op), args.resultRegister)
  {
    if op in ["+", "-", "*", "/", "%", "unary_-"] {
      OtherStoredLast(op, args);
    } else {
      assert op in SETCC;
      ComparisonStoredLast(op, args);
    }
  }

  lemma ComparisonStoredLast(op: string, args: IntrinsicsArgs)
    requires op in SETCC && |args.argsRefs| >= 2
    ensures StoresLast(HandleIntrinsic(op, args).value, "%rax", args.resultRegister)
  {
    var a := args.argsRefs;
    var setccInsn := SETCC[op];
    ComparisonDispatch(op, args);
    var body := ["xor %rax, %rax", "movq " + a[0] + ", %rdx", "cmpq " + a[1] + ", %rdx", setccInsn + " %al"];
    assert body[3][1] == setccInsn[1] == 'e';
    StoreRecognisable(body, "%rax", args);
    assert IntComparison(args, setccInsn, []) == body + MoveResult("%rax", args);
  }

  lemma OtherStoredLast(op: string, args: IntrinsicsArgs)
    requires op in ["+", "-", "*", "/", "%", "unary_-"] && |args.argsRefs| >= Arity(op)
    ensures StoresLast(HandleIntrinsic(op, args).value, ResultSource(op), args.resultRegister)
  {
    var a := args.argsRefs;
    if op == "unary_-" {
      StoreRecognisable(["movq " + a[0] + ", %rax", "negq %rax"], "%rax", args);
    } else if op == "+" {
      StoreRecognisable(["movq " + a[0] + ", %rax", "addq " + a[1] + ", %rax"], "%rax", args);
    } else if op == "-" {
      StoreRecognisable(["movq " + a[0] + ", %rax", "subq " + a[1] + ", %rax"], "%rax", args);
    } else if op == "*" {
      StoreRecognisable(["movq " + a[0] + ", %rax", "imulq " + a[1] + ", %rax"], "%rax", args);
    } else {
      StoreRecognisable(["movq " + a[0] + ", %rax", "cqto", "idivq " + a[1]], ResultSource(op), args);
    }
  }

  /** Only the first `Arity(op)` argument slots are ever read. */
  lemma ExtraArgumentsIgnored(op: string, refs: seq<string>, dest: string)
    requires op in INTRINSICS_OPS ==> |refs| >= Arity(op)
    ensures op in INTRINSICS_OPS ==>
      HandleIntrinsic(op, IntrinsicsArgs(refs, dest)) == HandleIntrinsic(op, IntrinsicsArgs(refs[..Arity(op)], dest))
  {
    if op in INTRINSICS_OPS {
      var short := refs[..Arity(op)];
      assert short[0] == refs[0];
      if Arity(op) == 2 {
        assert short[1] == refs[1];
      }
    }
  }
}
