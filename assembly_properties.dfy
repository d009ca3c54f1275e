/**
 * What the assembly generator promises: the output is the prologue, the instructions'
 * lines in order and the epilogue; it fails exactly when a variable it looks up has
 * no slot, and then with the first such variable.
 */
module AssemblyProperties {
  import opened Wrappers
  import opened Strings
  import opened Locations
  import opened Ir
  import opened LocalsSpec
  import opened Intrinsics
  import opened AssemblySpec

  lemma {:induction false} FirstMissingAppend(slots: map<IrVar, int>, vs: seq<IrVar>, v: IrVar)
    ensures FirstMissing(slots, vs + [v]) ==
      if FirstMissing(slots, vs).Some? then FirstMissing(slots, vs)
      else if v !in slots then Some(v) else None
  {
    if |vs| == 0 {
      assert vs + [v] == [v] && [v][1..] == [];
    } else {
      assert (vs + [v])[0] == vs[0] && (vs + [v])[1..] == vs[1..] + [v];
      FirstMissingAppend(slots, vs[1..], v);
    }
  }

  /**
   * Mapping a list of variables to their slots fails exactly when one is missing, with
   * the first missing one; otherwise it gives each variable's slot text in order.
   */
  lemma {:induction false} SlotsFailAtFirstMissing(slots: map<IrVar, int>, vs: seq<IrVar>)
    ensures Slots(slots, vs).Success? <==> FirstMissing(slots, vs).None?
    ensures Slots(slots, vs).Failure? ==>
      Slots(slots, vs).error == LocalsFailure(IrVarNotFound(FirstMissing(slots, vs).value))
    ensures Slots(slots, vs).Success? ==>
      |Slots(slots, vs).value| == |vs| &&
      forall k :: 0 <= k < |vs| ==> vs[k] in slots && Slots(slots, vs).value[k] == SlotText(slots[vs[k]])
  {
    if |vs| > 0 {
      var init := vs[..|vs| - 1];
      SlotsFailAtFirstMissing(slots, init);
      assert vs == init + [vs[|vs| - 1]];
      FirstMissingAppend(slots, init, vs[|vs| - 1]);
    }
  }

  /**
   * One instruction throws exactly when a variable it looks up has no slot, and then
   * with `irVarNotFound` for the first such variable; the operator table itself never
   * throws, because only listed operators reach it.
   */
  lemma InstructionFailsIffMissing(i: Instruction, slots: map<IrVar, int>)
    requires ArgumentsSupplied(i)
    ensures InstructionLines(i, slots).Failure? <==> FirstMissing(slots, LookedUp(i)).Some?
    ensures InstructionLines(i, slots).Failure? ==>
      InstructionLines(i, slots).error == LocalsFailure(IrVarNotFound(FirstMissing(slots, LookedUp(i)).value))
  {
    var vs := LookedUp(i);
    if i.Call? {
      SlotsFailAtFirstMissing(slots, vs);
    } else if i.Copy? {
      CopyFailsIffMissing(i.source, i.destination, i.location, slots);
    } else if i.LoadIntConst? || i.LoadBoolConst? || i.CondJump? {
      assert vs[1..] == [];
    }
  }

  lemma SuppliedAppend(a: seq<Instruction>, b: seq<Instruction>)
    requires AllArgumentsSupplied(a) && AllArgumentsSupplied(b)
    ensures AllArgumentsSupplied(a + b)
  {
    forall k | 0 <= k < |a + b|
      ensures ArgumentsSupplied((a + b)[k])
    {
      if k < |a| {
        assert (a + b)[k] == a[k];
      } else {
        assert (a + b)[k] == b[k - |a|];
      }
    }
  }

  lemma CopyFailsIffMissing(s: IrVar, d: IrVar, loc: Location, slots: map<IrVar, int>)
    ensures var r := InstructionLines(Copy(s, d, loc), slots);
      (r.Failure? <==> s !in slots || d !in slots) &&
      (r.Failure? ==> r.error == LocalsFailure(IrVarNotFound(if s !in slots then s else d)))
    ensures FirstMissing(slots, LookedUp(Copy(s, d, loc))) ==
      if s !in slots then Some(s) else if d !in slots then Some(d) else None
  {
    var vs := LookedUp(Copy(s, d, loc));
    assert vs == [s, d] && vs[1..] == [d] && vs[1..][1..] == [];
    assert FirstMissing(slots, []) == None;
    assert FirstMissing(slots, [d]) == if d !in slots then Some(d) else None;
  }

  lemma LowerSnoc(ins: seq<Instruction>, i: Instruction, slots: map<IrVar, int>)
    requires AllArgumentsSupplied(ins) && ArgumentsSupplied(i)
    ensures AllArgumentsSupplied(ins + [i])
    ensures Lower(ins + [i], slots) == Step(Lower(ins, slots), InstructionLines(i, slots))
  {
    SuppliedAppend(ins, [i]);
    assert (ins + [i])[..|ins|] == ins;
  }

  /** One more instruction after two runs is one more instruction after the second. */
  lemma StepThen(first: Lowered, second: Lowered, r: Result<seq<string>, AsmError>)
    ensures Step(Then(first, second), r) == Then(first, Step(second, r))
  {
    if first.error.None? && second.error.None? && r.Success? {
      assert first.lines + second.lines + r.value == first.lines + (second.lines + r.value);
    }
  }

  lemma SuppliedPrefix(ins: seq<Instruction>, i: nat)
    requires AllArgumentsSupplied(ins) && i <= |ins|
    ensures AllArgumentsSupplied(ins[..i])
  {
    assert forall k :: 0 <= k < i ==> ins[..i][k] == ins[k];
  }

  /** The lowering of one more instruction of a list. */
  lemma LowerPrefixStep(ins: seq<Instruction>, i: nat, slots: map<IrVar, int>)
    requires AllArgumentsSupplied(ins) && i < |ins|
    ensures AllArgumentsSupplied(ins[..i]) && AllArgumentsSupplied(ins[..i + 1])
    ensures Lower(ins[..i + 1], slots) == Step(Lower(ins[..i], slots), InstructionLines(ins[i], slots))
  {
    SuppliedPrefix(ins, i);
    SuppliedPrefix(ins, i + 1);
    assert ins[..i + 1][..i] == ins[..i];
  }

  /** A step taken with lines already in the buffer leaves them in front. */
  lemma StepAfterPrefix(prefix: seq<string>, done: Lowered, r: Result<seq<string>, AsmError>)
    requires done.error.None?
    ensures Step(Lowered(prefix + done.lines, None), r) == Lowered(prefix + Step(done, r).lines, Step(done, r).error)
  {
    if r.Success? {
      assert prefix + done.lines + r.value == prefix + (done.lines + r.value);
    }
  }

  /** After an error nothing more is lowered. */
  lemma ErrorIsFinal(ins: seq<Instruction>, i: nat, slots: map<IrVar, int>)
    requires AllArgumentsSupplied(ins) && i <= |ins|
    ensures AllArgumentsSupplied(ins[..i])
    ensures Lower(ins[..i], slots).error.Some? ==> Lower(ins, slots) == Lower(ins[..i], slots)
  {
    SuppliedPrefix(ins, i);
    var rest := ins[i..];
    assert forall k :: 0 <= k < |rest| ==> rest[k] == ins[i + k];
    assert ins == ins[..i] + rest;
    LowerAppend(ins[..i], rest, slots);
  }

  /** Lowering a concatenation lowers the first part, then, if it went through, the second. */
  lemma {:induction false} LowerAppend(a: seq<Instruction>, b: seq<Instruction>, slots: map<IrVar, int>)
    requires AllArgumentsSupplied(a) && AllArgumentsSupplied(b)
    ensures AllArgumentsSupplied(a + b)
    ensures Lower(a + b, slots) == Then(Lower(a, slots), Lower(b, slots))
  {
    SuppliedAppend(a, b);
    if |b| == 0 {
      assert a + b == a;
      assert Lower(a, slots).lines + [] == Lower(a, slots).lines;
    } else {
      var init := b[..|b| - 1];
      var last := b[|b| - 1];
      assert b == init + [last];
      assert a + b == (a + init) + [last];
      SuppliedAppend(a, init);
      LowerAppend(a, init, slots);
      LowerSnoc(a + init, last, slots);
      LowerSnoc(init, last, slots);
      StepThen(Lower(a, slots), Lower(init, slots), InstructionLines(last, slots));
    }
  }

  /** When every instruction goes through, the lines are their concatenation. */
  lemma {:induction false} LowerAllSucceed(ins: seq<Instruction>, slots: map<IrVar, int>)
    requires AllArgumentsSupplied(ins)
    requires forall k :: 0 <= k < |ins| ==> InstructionLines(ins[k], slots).Success?
    ensures Lower(ins, slots) == Lowered(Concat(ins, slots), None)
  {
    if |ins| > 0 {
      LowerAllSucceed(ins[..|ins| - 1], slots);
    }
  }

  /**
   * Generation stops at the first instruction that throws: the lines of the
   * instructions before it are kept, and its error is the result.
   */
  lemma StopsAtFirstFailure(ins: seq<Instruction>, slots: map<IrVar, int>, j: nat)
    requires AllArgumentsSupplied(ins) && j < |ins|
    requires forall k :: 0 <= k < j ==> InstructionLines(ins[k], slots).Success?
    requires InstructionLines(ins[j], slots).Failure?
    ensures AllArgumentsSupplied(ins[..j])
    ensures Lower(ins, slots) == Lowered(Concat(ins[..j], slots), Some(InstructionLines(ins[j], slots).error))
  {
    var before := ins[..j];
    LowerPrefixStep(ins, j, slots);
    assert forall k :: 0 <= k < j ==> before[k] == ins[k];
    LowerAllSucceed(before, slots);
    ErrorIsFinal(ins, j + 1, slots);
  }

  /** Generation fails exactly when some instruction throws. */
  lemma {:induction false} FailsIffSomeInstructionFails(ins: seq<Instruction>, slots: map<IrVar, int>)
    requires AllArgumentsSupplied(ins)
    ensures Lower(ins, slots).error.Some? <==> exists k :: 0 <= k < |ins| && InstructionLines(ins[k], slots).Failure?
  {
    if |ins| > 0 {
      var init := ins[..|ins| - 1];
      FailsIffSomeInstructionFails(init, slots);
      assert forall k :: 0 <= k < |init| ==> init[k] == ins[k];
    }
  }

  /**
   * The shape of a complete output: nine prologue lines ending with the frame
   * allocation, the instructions' lines, and the seven epilogue lines.
   */
  lemma SuccessfulLayout(ins: seq<Instruction>, slots: map<IrVar, int>, stackSize: int)
    requires AllArgumentsSupplied(ins)
    requires forall k :: 0 <= k < |ins| ==> InstructionLines(ins[k], slots).Success?
    ensures var out := Assembly(ins, slots, stackSize);
      out.error.None? && |out.lines| == 9 + |Concat(ins, slots)| + 7 &&
      out.lines[..9] == Prologue(stackSize) &&
      out.lines[8] == "subq $" + IntToString(stackSize) + ", %rsp" &&
      out.lines[9..|out.lines| - 7] == Concat(ins, slots) &&
      out.lines[|out.lines| - 7..] == EPILOGUE
  {
    LowerAllSucceed(ins, slots);
  }

  /**
   * With the slot table `Locals` builds from a list holding every variable the
   * instructions look up, generation succeeds and sizes the frame for the list.
   */
  lemma AllVariablesListed(ins: seq<Instruction>, vars: seq<IrVar>)
    requires AllArgumentsSupplied(ins)
    requires forall k, v :: 0 <= k < |ins| && v in LookedUp(ins[k]) ==> v in vars
    ensures forall k :: 0 <= k < |ins| ==> InstructionLines(ins[k], SlotMap(vars)).Success?
    ensures Assembly(ins, SlotMap(vars), SLOT_SIZE * |vars|).error.None?
  {
    var slots := SlotMap(vars);
    forall k | 0 <= k < |ins|
      ensures InstructionLines(ins[k], slots).Success?
    {
      InstructionFailsIffMissing(ins[k], slots);
      AllPresentNoneMissing(slots, LookedUp(ins[k]), vars);
    }
    LowerAllSucceed(ins, slots);
  }

  lemma {:induction false} AllPresentNoneMissing(slots: map<IrVar, int>, vs: seq<IrVar>, vars: seq<IrVar>)
    requires slots == SlotMap(vars)
    requires forall v :: v in vs ==> v in vars
    ensures FirstMissing(slots, vs).None?
  {
    if |vs| > 0 {
      SlotMapKeys(vars, vs[0]);
      assert forall v :: v in vs[1..] ==> v in vs;
      AllPresentNoneMissing(slots, vs[1..], vars);
    }
  }

  /** How many lines each kind of instruction adds when its slots are found. */
  lemma LineCounts(i: Instruction, slots: map<IrVar, int>)
    requires ArgumentsSupplied(i) && InstructionLines(i, slots).Success?
    ensures var n := |InstructionLines(i, slots).value|;
      match i
      case Label(_, _) => n == 2
      case Jump(_, _) => n == 1
      case LoadIntConst(v, _, _) => n == if FitsImmediate(v) then 1 else 2
      case LoadBoolConst(_, _, _) => n == 1
      case Copy(_, _, _) => n == 2
      case CondJump(_, _, _, _) => n == 3
      case Call(f, _, _, _) =>
        if IsIntrinsicCall(i) then 2 <= n <= 5
        else if IsPrintCall(i) || f.name == "read_int" then n == 2
        else n == 0
  {
  }

  lemma SlotsSnoc(slots: map<IrVar, int>, vs: seq<IrVar>, v: IrVar)
    requires Slots(slots, vs).Success? && v in slots
    ensures Slots(slots, vs + [v]) == Success(Slots(slots, vs).value + [SlotText(slots[v])])
  {
    assert (vs + [v])[..|vs|] == vs;
  }

  lemma SlotsSnocFails(slots: map<IrVar, int>, vs: seq<IrVar>, v: IrVar)
    requires Slots(slots, vs).Success? && v !in slots
    ensures Slots(slots, vs + [v]) == Failure(LocalsFailure(IrVarNotFound(v)))
  {
    assert (vs + [v])[..|vs|] == vs;
  }

  /** Regrouping the buffer appends; a proof step for `Generate`. */
  lemma ThreePartAppend(start: seq<string>, a: seq<string>, b: seq<string>, c: seq<string>)
    ensures start + a + b + c == start + (a + b + c)
  {
  }

  /** One more variable of a list whose prefix was looked up. */
  lemma SlotsStep(slots: map<IrVar, int>, vs: seq<IrVar>, k: nat)
    requires k < |vs| && Slots(slots, vs[..k]).Success?
    ensures Slots(slots, vs[..k + 1]) ==
      if vs[k] in slots then Success(Slots(slots, vs[..k]).value + [SlotText(slots[vs[k]])])
      else Failure(LocalsFailure(IrVarNotFound(vs[k])))
  {
    assert vs[..k + 1] == vs[..k] + [vs[k]];
    if vs[k] in slots {
      SlotsSnoc(slots, vs[..k], vs[k]);
    } else {
      SlotsSnocFails(slots, vs[..k], vs[k]);
    }
  }

  /** Once a prefix of the list fails, the whole list fails in the same way. */
  lemma {:induction false} SlotsPrefixFailure(slots: map<IrVar, int>, vs: seq<IrVar>, k: nat)
    requires k <= |vs| && Slots(slots, vs[..k]).Failure?
    ensures Slots(slots, vs) == Slots(slots, vs[..k])
    decreases |vs| - k
  {
    if k == |vs| {
      assert vs[..k] == vs;
    } else {
      var init := vs[..|vs| - 1];
      assert init[..k] == vs[..k];
      SlotsPrefixFailure(slots, init, k);
    }
  }

  /**
   * The IR generator names a binary operation's call after its operator; for a listed
   * operator the call becomes exactly the operator table's lines over the two operand
   * slots and the destination slot.
   */
  lemma BinaryOpCallUsesIntrinsic(op: string, l: IrVar, r: IrVar, d: IrVar, loc: Location, slots: map<IrVar, int>)
    requires op in INTRINSICS_OPS && l in slots && r in slots && d in slots
    ensures var call := Call(IrVar(op), [l, r], d, loc);
      ArgumentsSupplied(call) &&
      InstructionLines(call, slots) ==
        Success(HandleIntrinsic(op, IntrinsicsArgs([SlotText(slots[l]), SlotText(slots[r])], SlotText(slots[d]))).value)
  {
    var call := Call(IrVar(op), [l, r], d, loc);
    assert LookedUp(call) == [l, r, d];
    ThreeSlots(slots, l, r, d);
    var refs := [SlotText(slots[l]), SlotText(slots[r]), SlotText(slots[d])];
    assert refs[..2] == [SlotText(slots[l]), SlotText(slots[r])];
  }

  lemma ThreeSlots(slots: map<IrVar, int>, l: IrVar, r: IrVar, d: IrVar)
    requires l in slots && r in slots && d in slots
    ensures Slots(slots, [l, r, d]) == Success([SlotText(slots[l]), SlotText(slots[r]), SlotText(slots[d])])
  {
    assert Slots(slots, []) == Success([]);
    assert [] + [l] == [l] && [l] + [r] == [l, r] && [l, r] + [d] == [l, r, d];
    SlotsSnoc(slots, [], l);
    SlotsSnoc(slots, [l], r);
    SlotsSnoc(slots, [l, r], d);
    var tl, tr, td := SlotText(slots[l]), SlotText(slots[r]), SlotText(slots[d]);
    assert [] + [tl] == [tl] && [tl] + [tr] == [tl, tr] && [tl, tr] + [td] == [tl, tr, td];
  }

  /** Assignment and the logical operators are not in the table, and their calls emit nothing. */
  lemma UnlistedCallsEmitNothing(f: IrVar, args: seq<IrVar>, d: IrVar, loc: Location, slots: map<IrVar, int>)
    requires f.name !in INTRINSICS_OPS && f.name !in ["print_int", "print_bool", "read_int"]
    ensures InstructionLines(Call(f, args, d, loc), slots) == Success([])
    ensures "=" !in INTRINSICS_OPS && "and" !in INTRINSICS_OPS && "or" !in INTRINSICS_OPS
  {
    assert LookedUp(Call(f, args, d, loc)) == [];
  }

  /** A jump names a label exactly as the label's own line defines it. */
  lemma JumpMatchesLabel(name: string, loc: Location, slots: map<IrVar, int>)
    ensures var jump := InstructionLines(Jump(IrLabel(name, loc), loc), slots).value[0];
      var labelLine := InstructionLines(Label(name, loc), slots).value[1];
      jump == "jmp " + labelLine[..|labelLine| - 1]
  {
    var labelLine := ".L" + name + ":";
    assert labelLine[..|labelLine| - 1] == ".L" + name;
  }

  /** A Boolean constant is stored as 1 or 0. */
  lemma BoolConstantStored(b: bool, d: IrVar, loc: Location, slots: map<IrVar, int>)
    requires d in slots
    ensures InstructionLines(LoadBoolConst(b, d, loc), slots) ==
      Success(["movq $" + (if b then "1" else "0") + ", " + SlotText(slots[d])])
  {
  }

  /**
   * As written, the store line of a constant that does not fit 32 bits ends in a
   * second `)`, so it is not the store line `movq %rax, <slot>` used everywhere else.
   */
  lemma WideLoadAsWrittenIsMalformed(v: int, dest: string)
    requires !FitsImmediate(v)
    ensures LoadIntLinesAsWritten(v, dest)[1] == "movq %rax, " + dest + ")"
    ensures LoadIntLinesAsWritten(v, dest)[1] != "movq %rax, " + dest
  {
    assert |LoadIntLinesAsWritten(v, dest)[1]| == |"movq %rax, " + dest| + 1;
  }

  /**
   * With the line as intended, a wide constant is stored exactly as a copy stores into
   * the same slot, and constants that fit are untouched.
   */
  lemma WideLoadStoresLikeCopy(v: int, s: IrVar, d: IrVar, loc: Location, slots: map<IrVar, int>)
    requires s in slots && d in slots
    ensures var load := InstructionLines(LoadIntConst(v, d, loc), slots).value;
      var copy := InstructionLines(Copy(s, d, loc), slots).value;
      load[|load| - 1] == (if FitsImmediate(v) then "movq $" + IntToString(v) + ", " + SlotText(slots[d]) else copy[1])
    ensures FitsImmediate(v) ==> LoadIntLines(v, SlotText(slots[d])) == LoadIntLinesAsWritten(v, SlotText(slots[d]))
  {
  }
}
