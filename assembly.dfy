/**
 * The assembly generator object: a line buffer that `emit` appends to, filled by
 * `generate()` instruction by instruction.  Each method is proved to append exactly
 * what `AssemblySpec` says and to return the error it throws.
 */
module AssemblyGeneration {
  import opened Wrappers
  import opened Strings
  import opened Ir
  import opened LocalsSpec
  import opened LocalsObject
  import opened Intrinsics
  import opened AssemblySpec
  import opened AssemblyProperties

  class AssemblyGenerator {
    var asmInstructions: seq<string>
    const instructions: seq<Instruction>
    const locals: Locals

    /** `asm`: the buffer joined with newlines. */
    function Asm(): string
      reads this
    {
      Join(asmInstructions, "\n")
    }

    /** `init(instructions:)`, with the variable list `Locals` is built from as a parameter. */
    constructor (instructions: seq<Instruction>, irVariables: seq<IrVar>)
      ensures this.instructions == instructions && asmInstructions == []
      ensures fresh(locals)
      ensures locals.varStackLocations == SlotMap(irVariables)
      ensures locals.stackSize == SLOT_SIZE * |irVariables|
    {
      this.instructions := instructions;
      asmInstructions := [];
      locals := new Locals(irVariables);
    }

    /**
     * `generate()`: the prologue, each instruction's lines, the epilogue; after an
     * error the buffer keeps what was emitted before it.
     */
    method Generate() returns (error: Option<AsmError>)
      requires AllArgumentsSupplied(instructions)
      modifies this
      ensures var out := Assembly(instructions, locals.varStackLocations, locals.stackSize);
        asmInstructions == old(asmInstructions) + out.lines && error == out.error
    {
      var start := asmInstructions;
      StartFile();
      var prefix := asmInstructions;
      error := HandleInstructions();
      var lines := Lower(instructions, locals.varStackLocations).lines;
      if error.Some? {
        ThreePartAppend(start, Prologue(locals.stackSize), lines, []);
        return;
      }
      EndFile();
      ThreePartAppend(start, Prologue(locals.stackSize), lines, EPILOGUE);
    }

    /** The `forEach` of `generate()`: each instruction in order, stopping at the first error. */
    method HandleInstructions() returns (error: Option<AsmError>)
      requires AllArgumentsSupplied(instructions)
      modifies this
      ensures var low := Lower(instructions, locals.varStackLocations);
        asmInstructions == old(asmInstructions) + low.lines && error == low.error
    {
      var slots := locals.varStackLocations;
      var prefix := asmInstructions;
      var i := 0;
      SuppliedPrefix(instructions, 0);
      while i < |instructions|
        invariant 0 <= i <= |instructions|
        invariant AllArgumentsSupplied(instructions[..i])
        invariant Lower(instructions[..i], slots).error.None?
        invariant asmInstructions == prefix + Lower(instructions[..i], slots).lines
      {
        LowerPrefixStep(instructions, i, slots);
        StepAfterPrefix(prefix, Lower(instructions[..i], slots), InstructionLines(instructions[i], slots));
        error := HandleInstruction(instructions[i]);
        if error.Some? {
          ErrorIsFinal(instructions, i + 1, slots);
          return;
        }
        i := i + 1;
      }
      assert instructions[..i] == instructions;
      error := None;
    }

    /** `handleInstruction(_:)`: appends the instruction's lines, or nothing and an error. */
    method HandleInstruction(i: Instruction) returns (error: Option<AsmError>)
      requires ArgumentsSupplied(i)
      modifies this
      ensures Lowered(asmInstructions, error) == Step(Lowered(old(asmInstructions), None), InstructionLines(i, locals.varStackLocations))
    {
      match i
      case Label(_, _) =>
        HandleLabel(i);
        error := None;
      case Jump(_, _) =>
        HandleJumpInstruction(i);
        error := None;
      case LoadIntConst(_, _, _) =>
        error := HandleLoadInt(i);
      case LoadBoolConst(_, _, _) =>
        error := HandleLoadBool(i);
      case Copy(_, _, _) =>
        error := HandleCopy(i);
      case CondJump(_, _, _, _) =>
        error := HandleConditionalJump(i);
      case Call(_, _, _, _) =>
        error := HandleCall(i);
    }

    /** `emit(_:)` for one line. */
    method Emit(line: string)
      modifies this
      ensures asmInstructions == old(asmInstructions) + [line]
    {
      asmInstructions := asmInstructions + [line];
    }

    /** `emit(_:)` for several lines. */
    method EmitAll(lines: seq<string>)
      modifies this
      ensures asmInstructions == old(asmInstructions) + lines
    {
      asmInstructions := asmInstructions + lines;
    }

    method HandleJumpInstruction(jump: Instruction)
      requires jump.Jump?
      modifies this
      ensures asmInstructions == old(asmInstructions) + InstructionLines(jump, locals.varStackLocations).value
    {
      Emit("jmp .L" + jump.target.name);
    }

    method HandleLabel(labelInstruction: Instruction)
      requires labelInstruction.Label?
      modifies this
      ensures asmInstructions == old(asmInstructions) + InstructionLines(labelInstruction, locals.varStackLocations).value
    {
      Emit("");
      Emit(".L" + labelInstruction.name + ":");
    }

    method HandleLoadInt(loadInt: Instruction) returns (error: Option<AsmError>)
      requires loadInt.LoadIntConst?
      modifies this
      ensures Lowered(asmInstructions, error) == Step(Lowered(old(asmInstructions), None), InstructionLines(loadInt, locals.varStackLocations))
    {
      var value := loadInt.intValue;
      var loadDest := locals.GestStackLocation(loadInt.destination);
      if loadDest.Failure? {
        return Some(LocalsFailure(loadDest.error));
      }
      if INT32_MIN <= value < INT32_BOUND {
        Emit("movq $" + IntToString(value) + ", " + loadDest.value);
      } else {
        Emit("movabsq $" + IntToString(value) + ", %rax");
        Emit("movq %rax, " + loadDest.value);
      }
      return None;
    }

    method HandleLoadBool(loadBool: Instruction) returns (error: Option<AsmError>)
      requires loadBool.LoadBoolConst?
      modifies this
      ensures Lowered(asmInstructions, error) == Step(Lowered(old(asmInstructions), None), InstructionLines(loadBool, locals.varStackLocations))
    {
      var value := if loadBool.boolValue then "1" else "0";
      var loadDest := locals.GestStackLocation(loadBool.destination);
      if loadDest.Failure? {
        return Some(LocalsFailure(loadDest.error));
      }
      Emit("movq $" + value + ", " + loadDest.value);
      return None;
    }

    method HandleCopy(copy: Instruction) returns (error: Option<AsmError>)
      requires copy.Copy?
      modifies this
      ensures Lowered(asmInstructions, error) == Step(Lowered(old(asmInstructions), None), InstructionLines(copy, locals.varStackLocations))
    {
      var sourceLocation := locals.GestStackLocation(copy.source);
      if sourceLocation.Failure? {
        return Some(LocalsFailure(sourceLocation.error));
      }
      var destLocation := locals.GestStackLocation(copy.destination);
      if destLocation.Failure? {
        return Some(LocalsFailure(destLocation.error));
      }
      Emit("movq " + sourceLocation.value + ", %rax");
      Emit("movq %rax, " + destLocation.value);
      return None;
    }

    method HandleConditionalJump(condJump: Instruction) returns (error: Option<AsmError>)
      requires condJump.CondJump?
      modifies this
      ensures Lowered(asmInstructions, error) == Step(Lowered(old(asmInstructions), None), InstructionLines(condJump, locals.varStackLocations))
    {
      var conditionLocation := locals.GestStackLocation(condJump.condition);
      if conditionLocation.Failure? {
        return Some(LocalsFailure(conditionLocation.error));
      }
      Emit("cmpq $0, " + conditionLocation.value);
      Emit("jne .L" + condJump.thenLabel.name);
      Emit("jmp .L" + condJump.elseLabel.name);
      return None;
    }

    method HandleCall(call: Instruction) returns (error: Option<AsmError>)
      requires call.Call? && ArgumentsSupplied(call)
      modifies this
      ensures Lowered(asmInstructions, error) == Step(Lowered(old(asmInstructions), None), InstructionLines(call, locals.varStackLocations))
    {
      var slots := locals.varStackLocations;
      var name := call.callee.name;
      var args := call.arguments;
      if name in INTRINSICS_OPS {
        error := HandleIntrinsicCall(call);
        return;
      }

      if name == "print_int" || name == "print_bool" {
        var looked := [args[0]];
        assert LookedUp(call) == looked && looked == [] + [args[0]];
        assert Slots(slots, []) == Success([]);
        var argLocation := locals.GestStackLocation(args[0]);
        if argLocation.Failure? {
          SlotsSnocFails(slots, [], args[0]);
          return Some(LocalsFailure(argLocation.error));
        }
        SlotsSnoc(slots, [], args[0]);
        Emit("movq " + argLocation.value + ", %rdi");
        Emit("call " + name);
        return None;
      }

      if name == "read_int" {
        var looked := [call.destination];
        assert LookedUp(call) == looked && looked == [] + [call.destination];
        assert Slots(slots, []) == Success([]);
        var resultLocation := locals.GestStackLocation(call.destination);
        if resultLocation.Failure? {
          SlotsSnocFails(slots, [], call.destination);
          return Some(LocalsFailure(resultLocation.error));
        }
        SlotsSnoc(slots, [], call.destination);
        Emit("call read_int");
        Emit("movq %rax, " + resultLocation.value);
        return None;
      }
      assert LookedUp(call) == [];
      return None;
    }

    /** The `intrinsicsOps` branch of `handleCall`. */
    method HandleIntrinsicCall(call: Instruction) returns (error: Option<AsmError>)
      requires IsIntrinsicCall(call) && ArgumentsSupplied(call)
      modifies this
      ensures Lowered(asmInstructions, error) == Step(Lowered(old(asmInstructions), None), InstructionLines(call, locals.varStackLocations))
    {
      var slots := locals.varStackLocations;
      var args := call.arguments;
      var looked := args + [call.destination];
      assert LookedUp(call) == looked && looked[..|args|] == args;
      var argsRefs := ArgumentLocations(args);
      if argsRefs.Failure? {
        SlotsPrefixFailure(slots, looked, |args|);
        return Some(argsRefs.error);
      }
      var resultRegister := locals.GestStackLocation(call.destination);
      if resultRegister.Failure? {
        SlotsSnocFails(slots, args, call.destination);
        return Some(LocalsFailure(resultRegister.error));
      }
      SlotsSnoc(slots, args, call.destination);
      SlotsLength(slots, args);
      var refs := argsRefs.value + [resultRegister.value];
      assert refs[..|args|] == argsRefs.value && refs[|args|] == resultRegister.value;
      var intrinsicAsm := HandleIntrinsic(call.callee.name, IntrinsicsArgs(argsRefs.value, resultRegister.value));
      EmitAll(intrinsicAsm.value);
      return None;
    }

    /** `call.arguments.map { try locals.gestStackLocation(for: $0) }`. */
    method ArgumentLocations(args: seq<IrVar>) returns (r: Result<seq<string>, AsmError>)
      ensures r == Slots(locals.varStackLocations, args)
    {
      var slots := locals.varStackLocations;
      var refs := [];
      var k := 0;
      while k < |args|
        invariant 0 <= k <= |args|
        invariant Slots(slots, args[..k]) == Success(refs)
      {
        SlotsStep(slots, args, k);
        var ref := locals.GestStackLocation(args[k]);
        if ref.Failure? {
          SlotsPrefixFailure(slots, args, k + 1);
          return Failure(LocalsFailure(ref.error));
        }
        refs := refs + [ref.value];
        k := k + 1;
      }
      assert args[..k] == args;
      return Success(refs);
    }

    /** `startFile()`. */
    method StartFile()
      modifies this
      ensures asmInstructions == old(asmInstructions) + Prologue(locals.stackSize)
    {
      EmitAll([".global main", ".type main, @function", ".extern print_int", ".section .text", ""]);
      EmitAll(["main:", "pushq %rbp", "movq %rsp, %rbp"]);
      Emit("subq $" + IntToString(locals.stackSize) + ", %rsp");
    }

    /** `endFile()`. */
    method EndFile()
      modifies this
      ensures asmInstructions == old(asmInstructions) + EPILOGUE
    {
      Emit("");
      Emit(".Lend:");
      Emit("movq $0, %rax");
      Emit("movq %rbp, %rsp");
      Emit("popq %rbp");
      Emit("ret");
      Emit("");
    }
  }
}
