/**
 * How the two generators fit together: the code the IR generator emits meets what the
 * assembly generator demands of its input.
 */
module Pipeline {
  import opened Ir
  import opened Expressions
  import opened Intrinsics
  import opened IrGeneratorSpec
  import opened AssemblySpec

  /** A call with two arguments has every argument an intrinsic or a print reads. */
  lemma {:induction false} BinaryCallsSupplied(ins: seq<Instruction>)
    requires CallsAreBinary(ins)
    ensures AllArgumentsSupplied(ins)
  {
    forall k | 0 <= k < |ins|
      ensures ArgumentsSupplied(ins[k])
    {
      if ins[k].Call? {
        assert |ins[k].arguments| == 2;
        assert Arity(ins[k].callee.name) <= 2;
      }
    }
  }

  /**
   * The instructions of a generator started empty, whether or not generation throws,
   * satisfy the assembly generator's precondition.
   */
  lemma GeneratedCodeSupplied(es: seq<Expression>)
    ensures AllArgumentsSupplied(Generate(es, GenState([], map[], map[], 0)).state.instructions)
  {
    GenerateCallsAreBinary(es, GenState([], map[], map[], 0));
    BinaryCallsSupplied(Generate(es, GenState([], map[], map[], 0)).state.instructions);
  }
}
