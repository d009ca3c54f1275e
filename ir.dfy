/** The intermediate representation: variables, labels and the instructions between them. */
module Ir {
  import opened Wrappers
  import opened Strings
  import opened Locations

  datatype IrVar = IrVar(name: string)

  datatype IrLabel = IrLabel(name: string, location: Location)

  datatype Instruction =
    | LoadIntConst(intValue: int, destination: IrVar, location: Location)
    | LoadBoolConst(boolValue: bool, destination: IrVar, location: Location)
    | Copy(source: IrVar, destination: IrVar, location: Location)
    | Call(callee: IrVar, arguments: seq<IrVar>, destination: IrVar, location: Location)
    | Jump(target: IrLabel, location: Location)
    | CondJump(condition: IrVar, thenLabel: IrLabel, elseLabel: IrLabel, location: Location)
    | Label(name: string, location: Location)

  /** The variable an instruction writes, if any. */
  function Destination(i: Instruction): Option<IrVar> {
    match i
    case LoadIntConst(_, d, _) => Some(d)
    case LoadBoolConst(_, d, _) => Some(d)
    case Copy(_, d, _) => Some(d)
    case Call(_, _, d, _) => Some(d)
    case _ => None
  }

  /** The variables an instruction reads. */
  function Uses(i: Instruction): seq<IrVar> {
    match i
    case Copy(s, _, _) => [s]
    case Call(_, args, _, _) => args
    case CondJump(c, _, _, _) => [c]
    case _ => []
  }

  /** Every variable written by some instruction of the list. */
  function Destinations(ins: seq<Instruction>): set<IrVar>
    decreases |ins|
  {
    if |ins| == 0 then {}
    else
      var last := Destination(ins[|ins| - 1]);
      Destinations(ins[..|ins| - 1]) + (if last.Some? then {last.value} else {})
  }

  lemma DestinationsAppend(ins: seq<Instruction>, i: Instruction)
    ensures Destinations(ins + [i]) == Destinations(ins) + (if Destination(i).Some? then {Destination(i).value} else {})
  {
    assert (ins + [i])[..|ins|] == ins;
  }

  lemma DestinationsPrefix(ins: seq<Instruction>, j: nat)
    requires j <= |ins|
    ensures Destinations(ins[..j]) <= Destinations(ins)
    decreases |ins| - j
  {
    if j == |ins| {
      assert ins[..j] == ins;
    } else {
      DestinationsPrefix(ins, j + 1);
      var longer := ins[..j + 1];
      assert longer[..|longer| - 1] == ins[..j];
    }
  }

  lemma {:induction false} InDestinations(ins: seq<Instruction>, j: nat)
    requires j < |ins| && Destination(ins[j]).Some?
    ensures Destination(ins[j]).value in Destinations(ins)
  {
    assert ins[..j + 1][..j] == ins[..j];
    DestinationsPrefix(ins, j + 1);
  }

  /** The name of the `k`th temporary: `x0`, `x1`, … */
  function VarName(k: nat): (s: string)
    ensures |s| > 1 && s[0] == 'x' && s[1..] == NatToString(k)
  {
    "x" + NatToString(k)
  }

  function VarFor(k: nat): IrVar {
    IrVar(VarName(k))
  }

  lemma VarNameInjective(j: nat, k: nat)
    ensures VarName(j) == VarName(k) <==> j == k
  {
    if VarName(j) == VarName(k) {
      assert NatToString(j) == VarName(j)[1..];
      NatToStringInjective(j, k);
    }
  }

  /** The temporaries `x0` … `x(n-1)`. */
  function Temps(n: nat): set<IrVar> {
    set k: nat | k < n :: VarFor(k)
  }

  /** Their names. */
  function TempNames(n: nat): set<string> {
    set k: nat | k < n :: VarName(k)
  }

  lemma TempsStep(n: nat)
    ensures Temps(n + 1) == Temps(n) + {VarFor(n)}
    ensures TempNames(n + 1) == TempNames(n) + {VarName(n)}
    ensures VarFor(n) !in Temps(n) && VarName(n) !in TempNames(n)
  {
    forall k: nat | k < n
      ensures VarName(k) != VarName(n)
    {
      VarNameInjective(k, n);
    }
  }

  lemma TempNamesOfTemps(n: nat, v: IrVar)
    requires v in Temps(n)
    ensures v.name in TempNames(n)
  {
  }
}
