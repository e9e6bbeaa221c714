# clox bytecode virtual machine, modelled in Dafny

A model of `clox.cpp`, a small stack-based bytecode virtual machine, and
proofs about it. It has four parts:

- **Instruction codec** (`codec.dfy`, module `Codec`). There are seven opcodes
  plus the `_Count` sentinel. An instruction is a source line, an opcode and,
  for `Constant`, a 24-bit constant-pool index. `Serialize` packs an
  instruction into a 32-bit word (`bv32`) as `tag | index << 8` and returns
  the line beside the word. `Deserialize` unpacks it. `Mnemonic` is
  `to_string(Opcode)`.
- **Constant pool** (`pool.dfy`, class `Pool.ConstantPool`). An append-only
  sequence of values. `Add` returns the new index and `Get` is bounds-checked.
- **Chunk** (`chunk.dfy`, class `Chunks.Chunk`). Two parallel sequences hold
  the lines and the encoded words, and the chunk owns one pool. `Write`
  encodes and appends; `Read` decodes at an offset. The ghost view
  `Instructions()` is the decoded program.
- **Virtual machine** (`vm.dfy`, class `Vm.VirtualMachine`). It has an
  instruction pointer `ip`, an operand stack `stack`, and `output`, the values
  written to the output stream. `Step` executes one instruction through
  `Push`/`Pop`. `Run` is the `while` fetch-decode-execute loop, whose body
  (read, step, advance `ip`) is the method `Cycle`. All three are
  proved against the pure semantics in `machine.dfy` (module `Machine`):
  `Machine.Step` for one instruction and `Machine.Run` for a program.

`wrappers.dfy` holds the fault kinds (`InvalidOpcode`, `OutOfRange`) and the
`Result`/`Option`/`Outcome` types. The source aborts the process on a fault;
the model returns the fault instead, together with the state the machine had
reached: values that `Return` wrote before the fault have already been
written and flushed (`std::endl`). `examples.dfy` proves what three concrete
programs write. One is `[Constant, Constant, Subtract, Return]`, which shows the
operand order. Another, `[Constant 0, Return, Constant 5]` over a pool of one
value, faults after writing that value. The third is the program that the
source's `main` builds, taken through the pool, the chunk and the virtual
machine. `MainProgramSum` and `MainProgramResult` prove the two halves of
`MainProgramRun`; `WriteMainSum`, `WriteMainResult` and `WriteMainTail` are
the successive writes that make up `BuildMainChunk`.

Values are the source's `double`s. The model keeps the value type abstract (a
type parameter `V`). The five arithmetic operations are a parameter
`Arithmetic<V>` of the machine. So stack discipline and operand order are
proved for every arithmetic, with no floating-point reasoning.

Behaviour that is undefined in the source becomes a precondition:

- a word whose low byte is 8 to 255 falls off the end of `deserialize`;
- reading the index of a `Constant` built by the two-argument constructor reads
  an uninitialised bit-field;
- `pop_` on an empty stack calls `back()` on an empty vector.

In the model, an instruction built without an index has `index == None`.

Three points where the behaviour could be read otherwise follow the code:

- An index that does not fit in 24 bits is not rejected. The three-argument
  constructor stores it into a 24-bit bit-field, which keeps its low 24 bits;
  the model does the same (`Codec.MakeIndexed`).
- Stack underflow is not a reported fault. In the code it is undefined
  behaviour, so it is a precondition here.
- `Return` writes the popped value and execution continues. The loop ends only
  when `ip` reaches the chunk length.

## Model

| member | source | states |
|---|---|---|
| `Codec.Tag` | clox.cpp:16-25 | every opcode has a tag below 8, and the tag is 7 exactly for `_Count` |
| `Codec.OpcodeOf` | clox.cpp:48 | the cast from a tag below 8 gives the opcode with that tag |
| `Codec.TagInjective` | clox.cpp:16-25 | distinct opcodes have distinct tags, so the cast inverts the tag |
| `Codec.Make` | clox.cpp:27-29 | the two-argument constructor keeps line and opcode and sets no index |
| `Codec.MakeIndexed` | clox.cpp:31-33 | the stored index is the argument modulo 2^24 (the 24-bit bit-field of line 88), and an index below 2^24 is kept unchanged |
| `Codec.Normalize` | clox.cpp:66-78 | the index survives encoding only on `Constant`; line and opcode always survive |
| `Codec.Serialize` | clox.cpp:66-83 | fails with `InvalidOpcode` exactly on `_Count`; otherwise returns the line unchanged, the low 8 bits are the tag, the upper 24 bits are the index for `Constant` and zero for every other opcode |
| `Codec.Deserialize` | clox.cpp:47-64 | fails with `InvalidOpcode` exactly on tag 7; otherwise keeps the line, the opcode has the word's low byte as tag, the index is present exactly for `Constant` and is the word's upper 24 bits |
| `Codec.DecodeEncode` | clox.cpp:47-83 | round trip: decoding an encoded instruction gives back its line and opcode and, for `Constant`, its index; a well-formed instruction comes back unchanged |
| `Codec.EncodeDecode` | clox.cpp:47-83 | reverse round trip: re-encoding a decoded word keeps the line, and gives the same word exactly when its upper bits are zero for non-`Constant` tags |
| `Codec.Mnemonic` | clox.cpp:91-103 | the mnemonic table fails with `InvalidOpcode` exactly on the sentinel |
| `Codec.MnemonicAgreesWithDecoder` | clox.cpp:61-62 | distinct opcodes have distinct mnemonics, and `to_string` fails on exactly the tag that `deserialize` rejects |
| `Pool.ConstantPool.constructor` | clox.cpp:107-108 | a new pool is empty |
| `Pool.ConstantPool.Get` | clox.cpp:110-112 | succeeds exactly below the size, with the stored value; fails with `OutOfRange` past the end |
| `Pool.ConstantPool.Add` | clox.cpp:114-117 | appends the value and returns the old size; that index now yields the value, every earlier index its earlier value, and the new size is out of range |
| `Chunks.DecodeAll` | clox.cpp:136-138 | decoding the parallel vectors gives one instruction per stored word |
| `Chunks.DecodeAllAppend` | clox.cpp:140-144 | appending a pair to the vectors appends its decoded instruction to the program |
| `Chunks.DecodeAllAt` | clox.cpp:136-138 | the instruction at position k is the pair at k, decoded |
| `Chunks.DecodeAllEncodes` | clox.cpp:136-138 | each decoded instruction is well formed, keeps its line and encodes back to the stored pair |
| `Chunks.Chunk.constructor` | clox.cpp:125-126 | a new chunk has no instructions and a fresh, empty pool |
| `Chunks.Chunk.Length` | clox.cpp:132-134 | the length is the number of stored words, which equals the number of stored lines |
| `Chunks.Chunk.Read` | clox.cpp:136-138 | succeeds exactly below the length, with the instruction at that offset of the program; fails with `OutOfRange` at or past the end |
| `Chunks.Chunk.ReadEncodes` | clox.cpp:136-138 | what `read` returns is well formed, keeps the stored line and encodes back to the stored word |
| `Chunks.Chunk.Write` | clox.cpp:140-144 | writing `_Count` fails and changes nothing; otherwise the line and the encoded word are appended to both vectors in step, the length grows by exactly one, earlier offsets read as before and the new last offset reads the written instruction |
| `Machine.Step` | clox.cpp:232-282 | one instruction's effect on the stack and the output (properties in the next two rows) |
| `Machine.StepEffect` | clox.cpp:232-282 | a step fails exactly on `_Count` (`InvalidOpcode`) or on a `Constant` past the pool (`OutOfRange`); otherwise it pops and pushes the opcode's fixed counts, keeps the entries below those it touches, and writes only on `Return`, the old top |
| `Machine.StepValues` | clox.cpp:241-277 | a binary step pushes `left op right`, where `right` is the old top and `left` the entry below it; `Negate` pushes the negated top; `Constant` pushes the pool entry; `Return` writes the old top |
| `Machine.Run` | clox.cpp:216-230 | the loop executes every instruction in turn, `Return` included, until the end or the first fault; it ends in the state reached, a fault leaving the state before the failing step, and the output only grows |
| `Machine.RunStep` | clox.cpp:218-227 | a program that starts with any instruction, `Return` included, runs by stepping it and running the rest |
| `Machine.RunFrom` | clox.cpp:218-227 | from any position, the instruction there is ready, and the run either faults with that step in the state it started from or continues from the next position |
| `Machine.RunAppend` | clox.cpp:216-230 | running `p + q` runs `p` and then, if `p` succeeded, `q` from the state where `p` stopped; a fault in `p` is the fault, and its state the final state, of the whole run |
| `Machine.RunConcat` | clox.cpp:216-230 | conversely, a successful `p` followed by a `q` runnable from its end is runnable as a whole |
| `Machine.RunShape` | clox.cpp:216-239 | a successful run changes the stack depth by the program's net stack effect and writes one value per `Return` in the program |
| `Machine.WellFormedRuns` | clox.cpp:216-230 | a program with no sentinel, valid constant indices and enough operands for every instruction runs to its end without a fault |
| `Machine.FinishedRunsAreWellFormed` | clox.cpp:216-280 | conversely, a run that reaches the end without a fault is of a well-formed program, so a run is fault-free exactly when its program is well formed |
| `Vm.VirtualMachine.constructor` | clox.cpp:212-214 | a new machine is bound to its chunk, with `ip` 0, an empty stack and no output |
| `Vm.VirtualMachine.Push` | clox.cpp:298-300 | appends to the stack and changes nothing else |
| `Vm.VirtualMachine.Pop` | clox.cpp:302-306 | returns the top and removes it, changing nothing else |
| `Vm.VirtualMachine.Step` | clox.cpp:232-282 | executes exactly as `Machine.Step` on the current stack and output, over the chunk's pool; on a fault nothing changes; `ip` is untouched |
| `Vm.VirtualMachine.Cycle` | clox.cpp:224-226 | one iteration of the loop: a fault leaves `ip` where it was and is the fault of the whole remaining run, in the state reached; otherwise `ip` advances by one, whatever the opcode, and the remaining run is unchanged |
| `Vm.VirtualMachine.Run` | clox.cpp:216-230 | the loop's result is `Machine.Run` of the remaining instructions: the stack and output are those of the run, in both cases; when it finishes the status is `Ok` and `ip` equals the chunk length; a fault is returned with `ip` still inside the chunk and the values written before it kept |
| `Examples.SubtractRun` | clox.cpp:248-254 | `[Constant a, Constant b, Subtract, Return]` over the pool `[a, b]` writes `a - b`, with the value pushed first as left operand |
| `Examples.SubtractOperandOrder` | clox.cpp:248-254 | with exact subtraction the program writes 7 over `[10, 3]` and -7 over `[3, 10]` |
| `Examples.FaultKeepsOutput` | clox.cpp:236-239 | `[Constant 0, Return, Constant 5]` over the pool `[42]` faults with `OutOfRange` after writing 42, with the stack empty |
| `Examples.MainProgramSum` | clox.cpp:311-313 | the first three instructions of `main` leave `1.2 + 3.4` on the stack and write nothing |
| `Examples.MainProgramResult` | clox.cpp:314-317 | the last four instructions of `main`, from a stack holding one value, divide it by 5.6, negate it and write it, leaving the stack empty |
| `Examples.MainProgramRun` | clox.cpp:311-317 | the program of `main` writes `-((1.2 + 3.4) / 5.6)` and leaves the stack empty |
| `Examples.BuildMainChunk` | clox.cpp:310-317 | the pool adds and chunk writes of `main` give the pool `[1.2, 3.4, 5.6]` and the seven-instruction program |
| `Examples.WriteMainSum` | clox.cpp:311-313 | the first three writes of `main` into an empty chunk give the pool `[1.2, 3.4]` and the first three instructions |
| `Examples.WriteMainResult` | clox.cpp:314-317 | the remaining writes add 5.6 to the pool and complete the seven-instruction program |
| `Examples.WriteMainTail` | clox.cpp:316-317 | writing `Negate` and `Return` after the first five instructions completes the program |
| `Examples.ReferenceProgram` | clox.cpp:309-322 | building `main`'s chunk and running a machine over it returns `Ok` and writes `-((1.2 + 3.4) / 5.6)` |

## Left out

- Floating-point arithmetic on `double`: the value type and its operations are parameters, so IEEE rounding, infinities and NaN from division by zero are not modelled.
- Text output: `Chunk::disassemble` (both overloads), `VirtualMachine::dump_` and the `DEBUG_TRACE_EXECUTION` switch only render text to a stream. `Return` writing `value << std::endl` becomes appending the value to `output`; the number formatting is not modelled.
- The `FAIL` and `FAIL_IF` macros print to `stderr` and call `exit(1)`; an uncaught `std::out_of_range` from `.at` ends the process too. Each of these becomes a returned fault, carrying the stack and the output reached before the failing step.
- The chunk's name and `get_name` are diagnostic strings only.
- `CompileError` and `RuntimeError` are declared in `Vm.RunStatus` but nothing produces them, as in the source.
- `size_t` and `uint` overflow of the pool size and of `ip` are not modelled; sizes are unbounded naturals. The conversion of `add`'s `size_t` result to the constructor's `uint` argument appears only in the examples, with small indices.
- An opcode value 8 to 255 cannot be built in the model: `Opcode` has only the eight declared values. The only way the source produces one, the cast in `deserialize`, is excluded by that function's precondition. So `Codec.Mnemonic` is proved to fail only on `_Count`.
- The `Chunk*` given to the constructor of `VirtualMachine` is assumed non-null.
