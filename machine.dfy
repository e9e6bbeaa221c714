/** The meaning of executing instructions against an operand stack: one
    step of `VirtualMachine::step` and the whole loop of `run`, as functions
    on values. The virtual machine class is proved against these. */
module Machine {
  import opened Wrappers
  import opened Codec

  /** The source computes on `double`. The model leaves the value type and
      its five operations abstract, so that stack discipline and operand
      order are stated without floating-point reasoning. */
  datatype Arithmetic<!V> = Arithmetic(
    add: (V, V) -> V,
    sub: (V, V) -> V,
    mul: (V, V) -> V,
    div: (V, V) -> V,
    neg: V -> V)

  /** The operand stack (top at the end) and the values written to the
      output stream by `Return`, oldest first. */
  datatype State<V> = State(stack: seq<V>, output: seq<V>)

  /** How many values each opcode pops. */
  function Pops(op: Opcode): nat {
    match op
    case Return => 1
    case Constant => 0
    case Add => 2
    case Subtract => 2
    case Multiply => 2
    case Divide => 2
    case Negate => 1
    case Count => 0
  }

  /** How many values each opcode pushes. */
  function Pushes(op: Opcode): nat {
    match op
    case Return => 0
    case Constant => 1
    case Add => 1
    case Subtract => 1
    case Multiply => 1
    case Divide => 1
    case Negate => 1
    case Count => 0
  }

  predicate IsBinary(op: Opcode) {
    op == Add || op == Subtract || op == Multiply || op == Divide
  }

  /** The binary operator of `op` applied to its left and right operands. */
  function Apply<V>(A: Arithmetic<V>, op: Opcode, left: V, right: V): V
    requires IsBinary(op)
  {
    match op
    case Add => A.add(left, right)
    case Subtract => A.sub(left, right)
    case Multiply => A.mul(left, right)
    case Divide => A.div(left, right)
  }

  /** What `step` needs to avoid undefined behaviour: enough values on the
      stack for every `pop_` (the source calls `back()` on an empty vector
      otherwise) and an initialised index on a `Constant`. */
  predicate Ready<V>(i: Instruction, s: State<V>) {
    Pops(i.opcode) <= |s.stack| && (i.opcode == Constant ==> i.index.Some?)
  }

  /** `VirtualMachine::step`, one instruction against the stack and the
      output. Its properties are stated by `StepEffect` and `StepValues`. */
  function Step<V>(A: Arithmetic<V>, pool: seq<V>, i: Instruction, s: State<V>): Result<State<V>>
    requires Ready(i, s)
  {
    var n := |s.stack|;
    match i.opcode
    case Return =>
      var value := s.stack[n - 1];
      Success(State(s.stack[..n - 1], s.output + [value]))
    case Add | Subtract | Multiply | Divide =>
      var right := s.stack[n - 1];
      var left := s.stack[n - 2];
      Success(s.(stack := s.stack[..n - 2] + [Apply(A, i.opcode, left, right)]))
    case Negate =>
      Success(s.(stack := s.stack[..n - 1] + [A.neg(s.stack[n - 1])]))
    case Constant =>
      var k := i.index.value as int;
      if k < |pool| then Success(s.(stack := s.stack + [pool[k]])) else Failure(OutOfRange)
    case Count =>
      Failure(InvalidOpcode)
  }

  /** A `Constant` whose index is past the end of the pool fails with
      `OutOfRange`; the sentinel reaches the `default` branch and fails with
      `InvalidOpcode`. Every other step pops `Pops(op)` values, pushes
      `Pushes(op)` values and leaves the entries below untouched; only
      `Return` writes, and it writes the old top. */
  lemma StepEffect<V>(A: Arithmetic<V>, pool: seq<V>, i: Instruction, s: State<V>)
    requires Ready(i, s)
    ensures var r := Step(A, pool, i, s);
      && (r.Failure? <==>
            i.opcode == Count || (i.opcode == Constant && i.index.value as int >= |pool|))
      && (r.Failure? ==> r.error == (if i.opcode == Count then InvalidOpcode else OutOfRange))
      && (r.Success? ==>
            |r.value.stack| == |s.stack| - Pops(i.opcode) + Pushes(i.opcode) &&
            r.value.stack[..|s.stack| - Pops(i.opcode)] == s.stack[..|s.stack| - Pops(i.opcode)])
      && (r.Success? ==>
            r.value.output == if i.opcode == Return then s.output + [s.stack[|s.stack| - 1]] else s.output)
  {
  }

  /** The values a successful step pushes or writes: the top of the stack is
      the right operand and the entry below it the left one; `Negate`
      replaces the top by its negation; `Constant` pushes the pool entry;
      `Return` moves the top to the output. */
  lemma StepValues<V>(A: Arithmetic<V>, pool: seq<V>, i: Instruction, s: State<V>)
    requires Ready(i, s)
    requires Step(A, pool, i, s).Success?
    ensures var n, t := |s.stack|, Step(A, pool, i, s).value;
      && (IsBinary(i.opcode) ==>
            t.stack[n - 2] == Apply(A, i.opcode, s.stack[n - 2], s.stack[n - 1]))
      && (i.opcode == Negate ==> t.stack[n - 1] == A.neg(s.stack[n - 1]))
      && (i.opcode == Constant ==> t.stack[n] == pool[i.index.value as int])
      && (i.opcode == Return ==> t.output[|t.output| - 1] == s.stack[n - 1])
  {
  }

  /** How a run ends: at the end of the program, or at the first failing
      step. Either way it carries the state reached, since the values that
      `Return` wrote before a fault have already left the machine. */
  datatype Ending<V> = Finished(state: State<V>) | Faulted(error: Fault, state: State<V>)

  /** The run from `s` of `prog` never pops an empty stack or reads a missing
      index: every instruction it reaches is `Ready`. A failing step ends
      the run, so nothing after it needs to be. */
  predicate Runnable<V>(A: Arithmetic<V>, pool: seq<V>, prog: seq<Instruction>, s: State<V>)
    decreases |prog|
  {
    prog == [] ||
    (Ready(prog[0], s) &&
     (Step(A, pool, prog[0], s).Success? ==> Runnable(A, pool, prog[1..], Step(A, pool, prog[0], s).value)))
  }

  /** The loop of `VirtualMachine::run`: every instruction is executed in
      turn, `Return` included, until the end of the program or the first
      failing step, which leaves the state as it was before it. The output
      only grows. */
  function Run<V>(A: Arithmetic<V>, pool: seq<V>, prog: seq<Instruction>, s: State<V>): (r: Ending<V>)
    requires Runnable(A, pool, prog, s)
    ensures s.output <= r.state.output
    decreases |prog|
  {
    if prog == [] then Finished(s)
    else
      match Step(A, pool, prog[0], s)
      case Failure(e) => Faulted(e, s)
      case Success(next) => Run(A, pool, prog[1..], next)
  }

  /** A program that starts with `i` runs by stepping `i` and then running
      the rest from the new state, whatever `i` is (`Return` included). */
  lemma RunStep<V>(A: Arithmetic<V>, pool: seq<V>, i: Instruction, rest: seq<Instruction>, s: State<V>, t: State<V>)
    requires Ready(i, s) && Step(A, pool, i, s) == Success(t)
    requires Runnable(A, pool, rest, t)
    ensures Runnable(A, pool, [i] + rest, s)
    ensures Run(A, pool, [i] + rest, s) == Run(A, pool, rest, t)
  {
  }

  /** Running from position `ip` of a program: the instruction there is
      ready, and the run either faults there, in the state `s`, or carries on
      from position `ip + 1`. */
  lemma RunFrom<V>(A: Arithmetic<V>, pool: seq<V>, prog: seq<Instruction>, ip: nat, s: State<V>)
    requires ip < |prog| && Runnable(A, pool, prog[ip..], s)
    ensures Ready(prog[ip], s)
    ensures Step(A, pool, prog[ip], s).Failure? ==>
              Run(A, pool, prog[ip..], s) == Faulted(Step(A, pool, prog[ip], s).error, s)
    ensures Step(A, pool, prog[ip], s).Success? ==>
              Runnable(A, pool, prog[ip + 1..], Step(A, pool, prog[ip], s).value) &&
              Run(A, pool, prog[ip..], s) == Run(A, pool, prog[ip + 1..], Step(A, pool, prog[ip], s).value)
  {
  }

  /** Running `p + q` runs `p` and then, if that succeeded, `q` from where
      `p` stopped. */
  lemma {:induction false} RunAppend<V>(A: Arithmetic<V>, pool: seq<V>, p: seq<Instruction>, q: seq<Instruction>, s: State<V>)
    requires Runnable(A, pool, p + q, s)
    ensures Runnable(A, pool, p, s)
    ensures Run(A, pool, p, s).Finished? ==> Runnable(A, pool, q, Run(A, pool, p, s).state)
    ensures Run(A, pool, p + q, s) ==
            match Run(A, pool, p, s)
            case Faulted(e, t) => Faulted(e, t)
            case Finished(mid) => Run(A, pool, q, mid)
    decreases |p|
  {
    if p != [] {
      assert (p + q)[0] == p[0];
      assert (p + q)[1..] == p[1..] + q;
      if Step(A, pool, p[0], s).Success? {
        RunAppend(A, pool, p[1..], q, Step(A, pool, p[0], s).value);
      }
    } else {
      assert p + q == q;
    }
  }

  /** Conversely, a successful runnable `p` followed by a `q` runnable from
      where `p` stopped is runnable as a whole, with the same result. */
  lemma {:induction false} RunConcat<V>(A: Arithmetic<V>, pool: seq<V>, p: seq<Instruction>, q: seq<Instruction>, s: State<V>)
    requires Runnable(A, pool, p, s) && Run(A, pool, p, s).Finished?
    requires Runnable(A, pool, q, Run(A, pool, p, s).state)
    ensures Runnable(A, pool, p + q, s)
    ensures Run(A, pool, p + q, s) == Run(A, pool, q, Run(A, pool, p, s).state)
    decreases |p|
  {
    if p != [] {
      assert (p + q)[0] == p[0];
      assert (p + q)[1..] == p[1..] + q;
      RunConcat(A, pool, p[1..], q, Step(A, pool, p[0], s).value);
    } else {
      assert p + q == q;
    }
  }

  /** The net change in stack depth of a program. */
  function NetEffect(prog: seq<Instruction>): int {
    if prog == [] then 0
    else Pushes(prog[0].opcode) - Pops(prog[0].opcode) + NetEffect(prog[1..])
  }

  /** The number of `Return` instructions in a program. */
  function Returns(prog: seq<Instruction>): nat {
    if prog == [] then 0
    else (if prog[0].opcode == Return then 1 else 0) + Returns(prog[1..])
  }

  /** A successful run changes the stack depth by the program's net effect
      and writes one value per `Return` in the program: `Return` does not
      stop execution. */
  lemma {:induction false} RunShape<V>(A: Arithmetic<V>, pool: seq<V>, prog: seq<Instruction>, s: State<V>)
    requires Runnable(A, pool, prog, s)
    requires Run(A, pool, prog, s).Finished?
    ensures |Run(A, pool, prog, s).state.stack| == |s.stack| + NetEffect(prog)
    ensures |Run(A, pool, prog, s).state.output| == |s.output| + Returns(prog)
    decreases |prog|
  {
    if prog != [] {
      RunShape(A, pool, prog[1..], Step(A, pool, prog[0], s).value);
    }
  }

  /** A well-formed program for a pool of `size` constants, started at stack
      depth `depth`: no sentinel, every `Constant` names an existing pool
      entry, and every instruction finds enough operands on the stack. */
  predicate WellFormedProgram(size: nat, prog: seq<Instruction>, depth: nat)
    decreases |prog|
  {
    prog == [] ||
    (var op := prog[0].opcode;
     && op != Count
     && Pops(op) <= depth
     && (op == Constant ==> prog[0].index.Some? && (prog[0].index.value as int) < size)
     && WellFormedProgram(size, prog[1..], depth - Pops(op) + Pushes(op)))
  }

  /** A well-formed program runs to its end: it is runnable and its run
      finishes without a fault. With `FinishedRunsAreWellFormed`, a run
      finishes exactly when the program is well formed. */
  lemma {:induction false} WellFormedRuns<V>(A: Arithmetic<V>, pool: seq<V>, prog: seq<Instruction>, s: State<V>)
    requires WellFormedProgram(|pool|, prog, |s.stack|)
    ensures Runnable(A, pool, prog, s)
    ensures Run(A, pool, prog, s).Finished?
    decreases |prog|
  {
    if prog != [] {
      WellFormedRuns(A, pool, prog[1..], Step(A, pool, prog[0], s).value);
    }
  }

  /** Conversely, a runnable program whose run finishes without a fault is
      well formed for the pool and the starting depth. */
  lemma {:induction false} FinishedRunsAreWellFormed<V>(A: Arithmetic<V>, pool: seq<V>, prog: seq<Instruction>, s: State<V>)
    requires Runnable(A, pool, prog, s)
    requires Run(A, pool, prog, s).Finished?
    ensures WellFormedProgram(|pool|, prog, |s.stack|)
    decreases |prog|
  {
    if prog != [] {
      StepEffect(A, pool, prog[0], s);
      FinishedRunsAreWellFormed(A, pool, prog[1..], Step(A, pool, prog[0], s).value);
    }
  }
}
