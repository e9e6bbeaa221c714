/** The virtual machine: an instruction pointer and an operand stack over one
    chunk, driven by a fetch-decode-execute loop. */
module Vm {
  import opened Wrappers
  import opened Codec
  import opened Pool
  import opened Chunks
  import opened Machine

  /** `VirtualMachine::Result`. Only `Ok` is ever produced. */
  datatype RunStatus = Ok | CompileError | RuntimeError

  /** `VirtualMachine`. The output stream that `Return` writes to is kept as
      the sequence `output` of the values written. */
  class VirtualMachine<V> {
    const chunk: Chunk<V>
    const arith: Arithmetic<V>
    var ip: nat
    var stack: seq<V>
    var output: seq<V>

    /** The chunk is well formed and the instruction pointer within it. */
    ghost predicate Valid()
      reads this, chunk
    {
      chunk.Valid() && ip <= chunk.Length()
    }

    /** The state `step` transforms. */
    ghost function Current(): State<V>
      reads this`stack, this`output
    {
      State(stack, output)
    }

    /** The instructions `run` has still to execute. */
    ghost function Remaining(): seq<Instruction>
      reads this, chunk
      requires Valid()
    {
      chunk.Instructions()[ip..]
    }

    constructor (chunk: Chunk<V>, arith: Arithmetic<V>)
      requires chunk.Valid()
      ensures Valid()
      ensures this.chunk == chunk && this.arith == arith
      ensures ip == 0 && stack == [] && output == []
    {
      this.chunk := chunk;
      this.arith := arith;
      ip := 0;
      stack := [];
      output := [];
    }

    /** `push_`. */
    method Push(value: V)
      modifies this
      ensures stack == old(stack) + [value]
      ensures ip == old(ip) && output == old(output)
    {
      stack := stack + [value];
    }

    /** `pop_`: removes and returns the top. Popping an empty stack is
        undefined in the source, hence the precondition. */
    method Pop() returns (value: V)
      requires stack != []
      modifies this
      ensures value == old(stack)[|old(stack)| - 1]
      ensures stack == old(stack)[..|old(stack)| - 1]
      ensures ip == old(ip) && output == old(output)
    {
      value := stack[|stack| - 1];
      stack := stack[..|stack| - 1];
    }

    /** `step`: executes one instruction against the stack and the output,
        as `Machine.Step` describes; a fault changes nothing. The four binary
        cases of the source differ only in their operator, so they share one
        branch here. */
    method Step(i: Instruction) returns (r: Outcome)
      requires Ready(i, Current())
      modifies this
      ensures ip == old(ip)
      ensures var t := Machine.Step(arith, chunk.pool.constants, i, old(Current()));
              && r == (if t.Success? then Pass else Fail(t.error))
              && Current() == (if t.Success? then t.value else old(Current()))
    {
      match i.opcode
      case Return =>
        var value := Pop();
        output := output + [value];
        r := Pass;
      case Add | Subtract | Multiply | Divide =>
        var right := Pop();
        var left := Pop();
        assert stack == old(stack)[..|old(stack)| - 2];
        Push(Apply(arith, i.opcode, left, right));
        r := Pass;
      case Negate =>
        var value := Pop();
        Push(arith.neg(value));
        r := Pass;
      case Constant =>
        var value := chunk.pool.Get(i.index.value as int);
        if value.Failure? {
          return Fail(value.error);
        }
        Push(value.value);
        r := Pass;
      case Count =>
        r := Fail(InvalidOpcode);
    }

    /** One iteration of `run`'s loop: reads the instruction at `ip` and
        steps it; unless the step faults, advances `ip` by one, whatever the
        opcode. The run of the remaining instructions either faults here, in
        the state the machine is left in, or is the run from the new
        position. */
    method Cycle() returns (status: Outcome)
      requires Valid() && ip < chunk.Length()
      requires Runnable(arith, chunk.pool.constants, Remaining(), Current())
      modifies this
      ensures Valid()
      ensures var expected := Machine.Run(arith, chunk.pool.constants, old(Remaining()), old(Current()));
              && (status.Fail? ==> ip == old(ip) && expected == Faulted(status.error, Current()))
              && (status.Pass? ==> ip == old(ip) + 1 && Runnable(arith, chunk.pool.constants, Remaining(), Current()) &&
                                   Machine.Run(arith, chunk.pool.constants, Remaining(), Current()) == expected)
    {
      ghost var prog := chunk.Instructions();
      ghost var pool := chunk.pool.constants;
      var instr := chunk.Read(ip).value;
      ghost var before := Current();
      RunFrom(arith, pool, prog, ip, before);
      ghost var t := Machine.Step(arith, pool, instr, before);
      status := Step(instr);
      if status.Fail? {
        assert Current() == before;
        return;
      }
      assert Current() == t.value;
      ip := ip + 1;
    }

    /** `run`: while the instruction pointer is inside the chunk, reads the
        instruction there, steps it and advances the pointer by one, whatever
        the opcode. The machine ends in the state of `Machine.Run` of the
        remaining instructions: when that finishes the pointer is at the end
        and the status is `Ok`; a fault stops the loop at the failing
        instruction, with the stack and the output as they were before it. */
    method Run() returns (r: Result<RunStatus>)
      requires Valid()
      requires Runnable(arith, chunk.pool.constants, Remaining(), Current())
      modifies this
      ensures Valid()
      ensures var expected := Machine.Run(arith, chunk.pool.constants, old(Remaining()), old(Current()));
              && Current() == expected.state
              && (expected.Finished? ==> r == Success(Ok) && ip == chunk.Length())
              && (expected.Faulted? ==> r == Failure(expected.error) && ip < chunk.Length())
    {
      ghost var expected := Machine.Run(arith, chunk.pool.constants, Remaining(), Current());
      while ip < chunk.Length()
        invariant Valid()
        invariant Runnable(arith, chunk.pool.constants, Remaining(), Current())
        invariant Machine.Run(arith, chunk.pool.constants, Remaining(), Current()) == expected
        decreases chunk.Length() - ip
      {
        var status := Cycle();
        if status.Fail? {
          return Failure(status.error);
        }
      }
      assert Remaining() == [];
      return Success(Ok);
    }
  }
}
