/**
 * What the assembly generator writes, as functions of the IR instructions and the
 * slot table: a fixed prologue, each instruction's lines in order, and a fixed
 * epilogue; a variable without a slot stops generation with `irVarNotFound`.
 */
module AssemblySpec {
  import opened Wrappers
  import opened Strings
  import opened Ir
  import opened LocalsSpec
  import opened Intrinsics

  /** Anything `generate()` can throw. */
  datatype AsmError =
    | LocalsFailure(localsError: LocalsError)
    | IntrinsicsFailure(intrinsicsError: AssemblyGeneratorError)

  /** `locals.gestStackLocation(for:)`, with its error lifted. */
  function Slot(slots: map<IrVar, int>, v: IrVar): (r: Result<string, AsmError>)
    ensures r.Success? <==> v in slots
    ensures r.Success? ==> r.value == SlotText(slots[v])
    ensures r.Failure? ==> r.error == LocalsFailure(IrVarNotFound(v))
  {
    match StackLocationText(slots, v)
    case Success(s) => Success(s)
    case Failure(e) => Failure(LocalsFailure(e))
  }

  /** `arguments.map { try locals.gestStackLocation(for: $0) }`: stops at the first miss. */
  function Slots(slots: map<IrVar, int>, vs: seq<IrVar>): Result<seq<string>, AsmError>
  {
    if |vs| == 0 then Success([])
    else
      var init :- Slots(slots, vs[..|vs| - 1]);
      var last :- Slot(slots, vs[|vs| - 1]);
      Success(init + [last])
  }

  /** The first variable of a list that has no slot. */
  function FirstMissing(slots: map<IrVar, int>, vs: seq<IrVar>): Option<IrVar>
  {
    if |vs| == 0 then None
    else if vs[0] !in slots then Some(vs[0])
    else FirstMissing(slots, vs[1..])
  }

  /** Whether `intrinsicsOps` lists the callee; `handleCall` tries that first. */
  predicate IsIntrinsicCall(i: Instruction) {
    i.Call? && i.callee.name in INTRINSICS_OPS
  }

  /** A call reads `arguments[0]` only for `print_int` and `print_bool`. */
  predicate IsPrintCall(i: Instruction) {
    i.Call? && !IsIntrinsicCall(i) && i.callee.name in ["print_int", "print_bool"]
  }

  /**
   * The calls the generator can index into: an intrinsic needs as many arguments as
   * its lines read, a print call one (Swift traps on a shorter array).
   */
  predicate ArgumentsSupplied(i: Instruction) {
    (IsIntrinsicCall(i) ==> |i.arguments| >= Arity(i.callee.name)) &&
    (IsPrintCall(i) ==> |i.arguments| >= 1)
  }

  predicate AllArgumentsSupplied(ins: seq<Instruction>) {
    forall k :: 0 <= k < |ins| ==> ArgumentsSupplied(ins[k])
  }

  /** The variables an instruction's lowering looks up, in the order it looks them up. */
  function LookedUp(i: Instruction): seq<IrVar>
    requires ArgumentsSupplied(i)
  {
    match i
    case LoadIntConst(_, d, _) => [d]
    case LoadBoolConst(_, d, _) => [d]
    case Copy(s, d, _) => [s, d]
    case CondJump(c, _, _, _) => [c]
    case Call(f, args, d, _) =>
      if IsIntrinsicCall(i) then args + [d]
      else if IsPrintCall(i) then [args[0]]
      else if f.name == "read_int" then [d]
      else []
    case _ => []
  }

  /** The lowest 32-bit signed value, `pow(-2, 31)`. */
  const INT32_MIN: int := -0x8000_0000
  /** One past the highest 32-bit signed value, `pow(2, 31)`. */
  const INT32_BOUND: int := 0x8000_0000

  /** `movq` takes a sign-extended 32-bit immediate; wider constants go through `%rax`. */
  predicate FitsImmediate(v: int) {
    INT32_MIN <= v < INT32_BOUND
  }

  /** `handleLoadInt`, with the store line of a wide constant written as the other stores are. */
  function LoadIntLines(v: int, dest: string): seq<string> {
    if FitsImmediate(v) then ["movq $" + IntToString(v) + ", " + dest]
    else ["movabsq $" + IntToString(v) + ", %rax", "movq %rax, " + dest]
  }

  /** `handleLoadInt` as the source writes it: the wide store line gains a `)`. */
  function LoadIntLinesAsWritten(v: int, dest: string): seq<string> {
    if FitsImmediate(v) then ["movq $" + IntToString(v) + ", " + dest]
    else ["movabsq $" + IntToString(v) + ", %rax", "movq %rax, " + dest + ")"]
  }

  /** The lines of a call whose slots were all found. */
  function CallLines(i: Instruction, refs: seq<string>, dest: string): Result<seq<string>, AsmError>
    requires i.Call? && ArgumentsSupplied(i) && |refs| == |LookedUp(i)|
    requires IsIntrinsicCall(i) ==> |refs| == |i.arguments| + 1 && dest == refs[|refs| - 1]
  {
    var name := i.callee.name;
    if IsIntrinsicCall(i) then
      match HandleIntrinsic(name, IntrinsicsArgs(refs[..|i.arguments|], dest))
      case Success(lines) => Success(lines)
      case Failure(e) => Failure(IntrinsicsFailure(e))
    else if IsPrintCall(i) then Success(["movq " + refs[0] + ", %rdi", "call " + name])
    else if name == "read_int" then Success(["call read_int", "movq %rax, " + refs[0]])
    else Success([])
  }

  /**
   * `handleInstruction`: the lines one instruction adds, or the error it throws; every
   * slot is looked up before anything is emitted.
   */
  function InstructionLines(i: Instruction, slots: map<IrVar, int>): Result<seq<string>, AsmError>
    requires ArgumentsSupplied(i)
  {
    match i
    case Label(name, _) => Success(["", ".L" + name + ":"])
    case Jump(target, _) => Success(["jmp .L" + target.name])
    case LoadIntConst(v, d, _) =>
      var dest :- Slot(slots, d);
      Success(LoadIntLines(v, dest))
    case LoadBoolConst(b, d, _) =>
      var dest :- Slot(slots, d);
      Success(["movq $" + (if b then "1" else "0") + ", " + dest])
    case Copy(s, d, _) =>
      var source :- Slot(slots, s);
      var dest :- Slot(slots, d);
      Success(["movq " + source + ", %rax", "movq %rax, " + dest])
    case CondJump(c, thenLabel, elseLabel, _) =>
      var condition :- Slot(slots, c);
      Success(["cmpq $0, " + condition, "jne .L" + thenLabel.name, "jmp .L" + elseLabel.name])
    case Call(_, args, d, _) =>
      var refs :- Slots(slots, LookedUp(i));
      SlotsLength(slots, LookedUp(i));
      CallLines(i, refs, if IsIntrinsicCall(i) then refs[|args|] else "")
  }

  lemma {:induction false} SlotsLength(slots: map<IrVar, int>, vs: seq<IrVar>)
    ensures Slots(slots, vs).Success? ==> |Slots(slots, vs).value| == |vs|
  {
    if |vs| > 0 {
      SlotsLength(slots, vs[..|vs| - 1]);
    }
  }

  /** The text lines produced so far and the error that stopped generation, if any. */
  datatype Lowered = Lowered(lines: seq<string>, error: Option<AsmError>)

  /** One `handleInstruction` after the ones already done: nothing runs after an error. */
  function Step(done: Lowered, r: Result<seq<string>, AsmError>): Lowered {
    if done.error.Some? then done
    else
      match r
      case Success(lines) => Lowered(done.lines + lines, None)
      case Failure(e) => Lowered(done.lines, Some(e))
  }

  /** Running `second` after `first`: its lines follow, unless `first` already threw. */
  function Then(first: Lowered, second: Lowered): Lowered {
    if first.error.Some? then first else Lowered(first.lines + second.lines, second.error)
  }

  /** The instructions' lines in order, up to the first one that throws. */
  function Lower(ins: seq<Instruction>, slots: map<IrVar, int>): Lowered
    requires AllArgumentsSupplied(ins)
  {
    if |ins| == 0 then Lowered([], None)
    else Step(Lower(ins[..|ins| - 1], slots), InstructionLines(ins[|ins| - 1], slots))
  }

  /** `startFile()`. */
  function Prologue(stackSize: int): seq<string> {
    [".global main", ".type main, @function", ".extern print_int", ".section .text", "",
     "main:", "pushq %rbp", "movq %rsp, %rbp", "subq $" + IntToString(stackSize) + ", %rsp"]
  }

  /** `endFile()`. */
  const EPILOGUE: seq<string> := ["", ".Lend:", "movq $0, %rax", "movq %rbp, %rsp", "popq %rbp", "ret", ""]

  /**
   * `generate()` from an empty buffer: the prologue, then the instructions' lines, then
   * the epilogue, which is not reached when an instruction throws.
   */
  function Assembly(ins: seq<Instruction>, slots: map<IrVar, int>, stackSize: int): Lowered
    requires AllArgumentsSupplied(ins)
  {
    var low := Lower(ins, slots);
    Lowered(Prologue(stackSize) + low.lines + (if low.error.None? then EPILOGUE else []), low.error)
  }

  /** The concatenation of the instructions' lines, all of which succeed. */
  function Concat(ins: seq<Instruction>, slots: map<IrVar, int>): seq<string>
    requires AllArgumentsSupplied(ins)
    requires forall k :: 0 <= k < |ins| ==> InstructionLines(ins[k], slots).Success?
  {
    if |ins| == 0 then [] else Concat(ins[..|ins| - 1], slots) + InstructionLines(ins[|ins| - 1], slots).value
  }
}
