/** Concrete programs: operand order for a non-commutative operator, and
    the program that the source's `main` builds and runs. */
module Examples {
  import opened Wrappers
  import opened Codec
  import opened Pool
  import opened Chunks
  import opened Machine
  import opened Vm

  /** `[Constant a, Constant b, Subtract, Return]` over the pool `[a, b]`. */
  function SubtractProgram(): seq<Instruction> {
    [Instruction(1, Constant, Some(0)), Instruction(2, Constant, Some(1)), Make(3, Subtract), Make(4, Return)]
  }

  /** Over the pool `[a, b]` the program outputs `a - b`: the value pushed
      first is the left operand, the one on top the right operand. */
  lemma SubtractRun(A: Arithmetic<real>, a: real, b: real)
    ensures Runnable(A, [a, b], SubtractProgram(), State([], [])) &&
            Run(A, [a, b], SubtractProgram(), State([], [])) == Finished(State([], [A.sub(a, b)]))
  {
  }

  /** `[Constant 10, Constant 3, Subtract, Return]` writes `10 - 3`, and
      with the pushes swapped it writes `3 - 10`; with exact subtraction
      these are 7 and -7. */
  lemma SubtractOperandOrder(A: Arithmetic<real>)
    requires forall l: real, r: real :: A.sub(l, r) == l - r
    ensures Runnable(A, [10.0, 3.0], SubtractProgram(), State([], [])) &&
            Run(A, [10.0, 3.0], SubtractProgram(), State([], [])) == Finished(State([], [7.0]))
    ensures Runnable(A, [3.0, 10.0], SubtractProgram(), State([], [])) &&
            Run(A, [3.0, 10.0], SubtractProgram(), State([], [])) == Finished(State([], [-7.0]))
  {
    SubtractRun(A, 10.0, 3.0);
    assert A.sub(10.0, 3.0) == 7.0;
    SubtractRun(A, 3.0, 10.0);
    assert A.sub(3.0, 10.0) == -7.0;
  }

  /** `[Constant 0, Return, Constant 5]` over the pool `[42]`: the first
      `Return` writes 42, and the run then faults on the missing constant
      with 42 already written and the stack empty. */
  lemma FaultKeepsOutput(A: Arithmetic<real>)
    ensures var prog := [Instruction(1, Constant, Some(0)), Make(2, Return), Instruction(3, Constant, Some(5))];
            Runnable(A, [42.0], prog, State([], [])) &&
            Run(A, [42.0], prog, State([], [])) == Faulted(OutOfRange, State([], [42.0]))
  {
  }

  /** The instructions that the source's `main` writes, over the pool
      `[1.2, 3.4, 5.6]`. */
  function MainProgram(): seq<Instruction> {
    MainSum() + MainResult()
  }

  /** Its first three instructions: push 1.2 and 3.4 and add them. */
  function MainSum(): seq<Instruction> {
    [Instruction(1, Constant, Some(0)), Instruction(2, Constant, Some(1)), Make(3, Add)]
  }

  /** Its last four: push 5.6, divide, negate and write the result. */
  function MainResult(): seq<Instruction> {
    [Instruction(4, Constant, Some(2)), Make(5, Divide), Make(6, Negate), Make(7, Return)]
  }

  /** The first part of `main`'s program leaves the sum on the stack. */
  lemma MainProgramSum(A: Arithmetic<real>)
    ensures Runnable(A, [1.2, 3.4, 5.6], MainSum(), State([], [])) &&
            Run(A, [1.2, 3.4, 5.6], MainSum(), State([], [])) == Finished(State([A.add(1.2, 3.4)], []))
  {
    var pool, p := [1.2, 3.4, 5.6], MainSum();
    var s0, s1, s2 := State([], []), State([1.2], []), State([1.2, 3.4], []);
    var s3 := State([A.add(1.2, 3.4)], []);
    assert s0.stack + [pool[0]] == s1.stack;
    assert Step(A, pool, p[0], s0) == Success(s1);
    assert s1.stack + [pool[1]] == s2.stack;
    assert Step(A, pool, p[1], s1) == Success(s2);
    assert s2.stack[..0] + [A.add(1.2, 3.4)] == s3.stack;
    assert Step(A, pool, p[2], s2) == Success(s3);
    RunStep(A, pool, p[2], [], s2, s3);
    RunStep(A, pool, p[1], [p[2]], s1, s2);
    RunStep(A, pool, p[0], [p[1], p[2]], s0, s1);
    assert [p[0], p[1], p[2]] == p;
  }

  /** The second part divides the sum by 5.6, negates it and writes it. */
  lemma MainProgramResult(A: Arithmetic<real>, sum: real)
    ensures Runnable(A, [1.2, 3.4, 5.6], MainResult(), State([sum], [])) &&
            Run(A, [1.2, 3.4, 5.6], MainResult(), State([sum], [])) ==
            Finished(State([], [A.neg(A.div(sum, 5.6))]))
  {
    var pool, p := [1.2, 3.4, 5.6], MainResult();
    var q := A.div(sum, 5.6);
    var s0, s1, s2 := State([sum], []), State([sum, 5.6], []), State([q], []);
    var s3, s4 := State([A.neg(q)], []), State([], [A.neg(q)]);
    assert s0.stack + [pool[2]] == s1.stack;
    assert Step(A, pool, p[0], s0) == Success(s1);
    assert s1.stack[..0] + [q] == s2.stack;
    assert Step(A, pool, p[1], s1) == Success(s2);
    assert s2.stack[..0] + [A.neg(q)] == s3.stack;
    assert Step(A, pool, p[2], s2) == Success(s3);
    assert Step(A, pool, p[3], s3) == Success(s4);
    RunStep(A, pool, p[3], [], s3, s4);
    RunStep(A, pool, p[2], [p[3]], s2, s3);
    RunStep(A, pool, p[1], [p[2], p[3]], s1, s2);
    RunStep(A, pool, p[0], [p[1], p[2], p[3]], s0, s1);
    assert [p[0], p[1], p[2], p[3]] == p;
  }

  /** `main`'s program writes `-((1.2 + 3.4) / 5.6)` and leaves the stack empty. */
  lemma MainProgramRun(A: Arithmetic<real>)
    ensures Runnable(A, [1.2, 3.4, 5.6], MainProgram(), State([], [])) &&
            Run(A, [1.2, 3.4, 5.6], MainProgram(), State([], [])) ==
            Finished(State([], [A.neg(A.div(A.add(1.2, 3.4), 5.6))]))
  {
    MainProgramSum(A);
    MainProgramResult(A, A.add(1.2, 3.4));
    RunConcat(A, [1.2, 3.4, 5.6], MainSum(), MainResult(), State([], []));
  }

  /** The chunk that `main` builds: three constants added to the pool and
      seven instructions written. */
  method BuildMainChunk() returns (chunk: Chunk<real>)
    ensures fresh(chunk) && fresh(chunk.pool) && chunk.Valid()
    ensures chunk.pool.constants == [1.2, 3.4, 5.6]
    ensures chunk.Instructions() == MainProgram()
  {
    chunk := new Chunk<real>();
    WriteMainSum(chunk);
    WriteMainResult(chunk);
  }

  /** The first three writes of `main`, into an empty chunk. */
  method WriteMainSum(chunk: Chunk<real>)
    requires chunk.Valid() && chunk.Instructions() == [] && chunk.pool.constants == []
    modifies chunk, chunk.pool
    ensures chunk.Valid() && chunk.Instructions() == MainSum()
    ensures chunk.pool.constants == [1.2, 3.4]
  {
    var k0 := chunk.pool.Add(1.2);
    var i0 := MakeIndexed(1, Constant, k0 as bv32);
    assert i0 == MainSum()[0];
    var w := chunk.Write(i0);
    assert chunk.Instructions() == MainSum()[..1];
    var k1 := chunk.pool.Add(3.4);
    var i1 := MakeIndexed(2, Constant, k1 as bv32);
    assert i1 == MainSum()[1];
    w := chunk.Write(i1);
    assert chunk.Instructions() == MainSum()[..2];
    w := chunk.Write(Make(3, Add));
  }

  /** The last four writes of `main`. */
  method WriteMainResult(chunk: Chunk<real>)
    requires chunk.Valid() && chunk.Instructions() == MainSum() && chunk.pool.constants == [1.2, 3.4]
    modifies chunk, chunk.pool
    ensures chunk.Valid() && chunk.Instructions() == MainProgram()
    ensures chunk.pool.constants == [1.2, 3.4, 5.6]
  {
    var k2 := chunk.pool.Add(5.6);
    var i3 := MakeIndexed(4, Constant, k2 as bv32);
    assert i3 == MainResult()[0];
    var w := chunk.Write(i3);
    assert chunk.Instructions() == MainSum() + MainResult()[..1];
    w := chunk.Write(Make(5, Divide));
    assert chunk.Instructions() == MainSum() + MainResult()[..2];
    WriteMainTail(chunk);
  }

  /** The `Negate` and `Return` that end `main`'s program. */
  method WriteMainTail(chunk: Chunk<real>)
    requires chunk.Valid() && chunk.Instructions() == MainSum() + MainResult()[..2]
    modifies chunk
    ensures chunk.Valid() && chunk.Instructions() == MainProgram()
  {
    var w := chunk.Write(Make(6, Negate));
    assert chunk.Instructions() == MainSum() + MainResult()[..3];
    w := chunk.Write(Make(7, Return));
  }

  /** `main`: builds its chunk and runs it on a virtual machine, which
      returns `Ok` and writes `-((1.2 + 3.4) / 5.6)`. */
  method ReferenceProgram(A: Arithmetic<real>) returns (status: Result<RunStatus>, out: seq<real>)
    ensures status == Success(Ok)
    ensures out == [A.neg(A.div(A.add(1.2, 3.4), 5.6))]
  {
    var chunk := BuildMainChunk();
    var vm := new VirtualMachine(chunk, A);
    assert vm.Remaining() == MainProgram();
    MainProgramRun(A);
    status := vm.Run();
    out := vm.output;
  }
}
