/**
 * Stack slots for IR variables: each variable of the list handed to `Locals` gets the
 * next 8-byte slot below the frame pointer, and the frame is as large as the list.
 */
module LocalsSpec {
  import opened Wrappers
  import opened Strings
  import opened Ir

  const SLOT_SIZE: int := 8

  datatype LocalsError = IrVarNotFound(irVar: IrVar)

  /**
   * The table the `reduce` in `Locals.init` builds: the k-th entry (counting from 1)
   * is given offset `SLOT_SIZE * k`, a later entry for the same variable overwriting
   * an earlier one.
   */
  function SlotMap(vars: seq<IrVar>): map<IrVar, int>
  {
    if |vars| == 0 then map[]
    else SlotMap(vars[..|vars| - 1])[vars[|vars| - 1] := SLOT_SIZE * |vars|]
  }

  /** `getStackLocation(for:)` over a given table. */
  function StackLocation(slots: map<IrVar, int>, v: IrVar): (r: Result<int, LocalsError>)
    ensures r.Success? <==> v in slots
    ensures r.Success? ==> r.value == slots[v]
    ensures r.Failure? ==> r.error == IrVarNotFound(v)
  {
    if v in slots then Success(slots[v]) else Failure(IrVarNotFound(v))
  }

  /** The operand text of a slot: `-<offset>(%rbp)`. */
  function SlotText(offset: int): string
  {
    "-" + IntToString(offset) + "(%rbp)"
  }

  /** `gestStackLocation(for:)` over a given table. */
  function StackLocationText(slots: map<IrVar, int>, v: IrVar): (r: Result<string, LocalsError>)
    ensures r.Success? <==> v in slots
    ensures r.Success? ==> r.value == SlotText(slots[v])
    ensures r.Failure? ==> r.error == IrVarNotFound(v)
  {
    var n :- StackLocation(slots, v);
    Success(SlotText(n))
  }

  /** Exactly the variables of the list have a slot. */
  lemma {:induction false} SlotMapKeys(vars: seq<IrVar>, v: IrVar)
    ensures v in SlotMap(vars) <==> v in vars
  {
    if |vars| > 0 {
      var init := vars[..|vars| - 1];
      SlotMapKeys(init, v);
      assert vars == init + [vars[|vars| - 1]];
    }
  }

  /** A variable's slot is fixed by its last occurrence in the list. */
  lemma {:induction false} SlotOfLastOccurrence(vars: seq<IrVar>, i: nat)
    requires i < |vars|
    requires forall j :: i < j < |vars| ==> vars[j] != vars[i]
    ensures vars[i] in SlotMap(vars) && SlotMap(vars)[vars[i]] == SLOT_SIZE * (i + 1)
  {
    if i < |vars| - 1 {
      var init := vars[..|vars| - 1];
      assert init[i] == vars[i];
      SlotOfLastOccurrence(init, i);
    }
  }

  /** With no repetitions, the i-th variable (from 0) sits at `8 * (i + 1)`. */
  lemma DistinctSlots(vars: seq<IrVar>, i: nat)
    requires i < |vars|
    requires forall j, k :: 0 <= j < k < |vars| ==> vars[j] != vars[k]
    ensures vars[i] in SlotMap(vars) && SlotMap(vars)[vars[i]] == SLOT_SIZE * (i + 1)
  {
    SlotOfLastOccurrence(vars, i);
  }

  /** Every offset is a whole slot inside the frame. */
  lemma {:induction false} SlotsInFrame(vars: seq<IrVar>, v: IrVar)
    requires v in SlotMap(vars)
    ensures SlotMap(vars)[v] % SLOT_SIZE == 0
    ensures SLOT_SIZE <= SlotMap(vars)[v] <= SLOT_SIZE * |vars|
  {
    if v != vars[|vars| - 1] {
      SlotsInFrame(vars[..|vars| - 1], v);
    }
  }

  /** Different variables never share a slot, even when the list repeats a variable. */
  lemma {:induction false} SlotsDisjoint(vars: seq<IrVar>, a: IrVar, b: IrVar)
    requires a in SlotMap(vars) && b in SlotMap(vars) && a != b
    ensures SlotMap(vars)[a] != SlotMap(vars)[b]
  {
    var init := vars[..|vars| - 1];
    var last := vars[|vars| - 1];
    if a == last {
      SlotsInFrame(init, b);
    } else if b == last {
      SlotsInFrame(init, a);
    } else {
      SlotsDisjoint(init, a, b);
    }
  }

  /** Distinct offsets have distinct operand texts. */
  lemma SlotTextInjective(m: int, n: int)
    requires m > 0 && n > 0
    ensures SlotText(m) == SlotText(n) ==> m == n
  {
    if SlotText(m) == SlotText(n) {
      var sm := NatToString(m);
      var sn := NatToString(n);
      assert SlotText(m) == "-" + sm + "(%rbp)";
      assert SlotText(m)[1..|SlotText(m)| - 6] == sm;
      assert SlotText(n)[1..|SlotText(n)| - 6] == sn;
      NatToStringInjective(m, n);
    }
  }

  /** Looking up a variable fails exactly when it was not in the list. */
  lemma LookupFailsIffAbsent(vars: seq<IrVar>, v: IrVar)
    ensures StackLocationText(SlotMap(vars), v).Failure? <==> v !in vars
    ensures v !in vars ==> StackLocationText(SlotMap(vars), v) == Failure(IrVarNotFound(v))
  {
    SlotMapKeys(vars, v);
  }

  /** The layout of the three-variable list `x0`, `x1`, `print_int`. */
  lemma ThreeVariableLayout()
    ensures var vars := [IrVar("x0"), IrVar("x1"), IrVar("print_int")];
      SLOT_SIZE * |vars| == 24 &&
      StackLocation(SlotMap(vars), vars[0]) == Success(8) &&
      StackLocation(SlotMap(vars), vars[1]) == Success(16) &&
      StackLocation(SlotMap(vars), vars[2]) == Success(24) &&
      StackLocationText(SlotMap(vars), vars[0]) == Success("-8(%rbp)") &&
      StackLocationText(SlotMap(vars), vars[1]) == Success("-16(%rbp)") &&
      StackLocationText(SlotMap(vars), vars[2]) == Success("-24(%rbp)")
  {
    var vars := [IrVar("x0"), IrVar("x1"), IrVar("print_int")];
    assert vars[0].name[1] != vars[1].name[1] && vars[0].name[1] != vars[2].name[1] && vars[1].name[1] != vars[2].name[1];
    DistinctSlots(vars, 0);
    DistinctSlots(vars, 1);
    DistinctSlots(vars, 2);
    assert NatToString(8) == "8";
    assert NatToString(16) == NatToString(1) + "6" == "16";
    assert NatToString(24) == NatToString(2) + "4" == "24";
    assert SlotText(8) == "-8(%rbp)";
    assert SlotText(16) == "-16(%rbp)";
    assert SlotText(24) == "-24(%rbp)";
  }
}

/** The `Locals` object: a slot table filled once, at construction. */
module LocalsObject {
  import opened Wrappers
  import opened Ir
  import opened LocalsSpec

  class Locals {
    var varStackLocations: map<IrVar, int>
    var stackSize: int

    /** `init(irVariables:)`: one slot per entry, in list order. */
    constructor (irVariables: seq<IrVar>)
      ensures varStackLocations == SlotMap(irVariables)
      ensures stackSize == SLOT_SIZE * |irVariables|
    {
      varStackLocations := map[];
      stackSize := 0;
      new;
      var slot := 0;
      var i := 0;
      while i < |irVariables|
        invariant 0 <= i <= |irVariables|
        invariant slot == SLOT_SIZE * i
        invariant varStackLocations == SlotMap(irVariables[..i])
      {
        assert irVariables[..i + 1][..i] == irVariables[..i];
        var nextSlot := slot + SLOT_SIZE;
        varStackLocations := varStackLocations[irVariables[i] := nextSlot];
        slot := nextSlot;
        i := i + 1;
      }
      assert irVariables[..i] == irVariables;
      stackSize := slot;
    }

    /** `getStackLocation(for:)`. */
    function GetStackLocation(irVar: IrVar): (r: Result<int, LocalsError>)
      reads this
      ensures r == StackLocation(varStackLocations, irVar)
    {
      StackLocation(varStackLocations, irVar)
    }

    /** `gestStackLocation(for:)`. */
    function GestStackLocation(irVar: IrVar): (r: Result<string, LocalsError>)
      reads this
      ensures r == StackLocationText(varStackLocations, irVar)
    {
      StackLocationText(varStackLocations, irVar)
    }
  }
}
