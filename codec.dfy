/** The instruction codec: the closed opcode set, one decoded instruction,
    and its packing into a 32-bit word with the source line kept beside it. */
module Codec {
  import opened Wrappers

  /** A C++ `uint` used as a number: the type of source lines. */
  type Uint = n: int | 0 <= n < 0x1_0000_0000

  /** The encoded instruction word, a `uint32_t`. */
  type Word = bv32

  /** The opcodes, in declaration order; `Count` is the closing `_Count`
      sentinel, which has a tag but is never a valid instruction. */
  datatype Opcode = Return | Constant | Add | Subtract | Multiply | Divide | Negate | Count

  /** A decoded instruction. `index` models the 24-bit bit-field `index_`; it is
      `None` where the source leaves that bit-field uninitialised. */
  datatype Instruction = Instruction(line: Uint, opcode: Opcode, index: Option<bv24>)

  /** The numeric value of an opcode, its position in the enumeration. */
  function Tag(op: Opcode): (t: bv8)
    ensures t < 8
    ensures t == 7 <==> op == Count
  {
    match op
    case Return => 0
    case Constant => 1
    case Add => 2
    case Subtract => 3
    case Multiply => 4
    case Divide => 5
    case Negate => 6
    case Count => 7
  }

  /** `static_cast<Opcode>(t)`, defined only on the eight declared tags. */
  function OpcodeOf(t: bv8): (op: Opcode)
    requires t < 8
    ensures Tag(op) == t
  {
    if t == 0 then Return
    else if t == 1 then Constant
    else if t == 2 then Add
    else if t == 3 then Subtract
    else if t == 4 then Multiply
    else if t == 5 then Divide
    else if t == 6 then Negate
    else Count
  }

  /** Distinct opcodes have distinct tags, so a tag names exactly one opcode. */
  lemma TagInjective(a: Opcode, b: Opcode)
    ensures Tag(a) == Tag(b) <==> a == b
    ensures OpcodeOf(Tag(a)) == a
  {
  }

  /** The two-argument constructor: the index is left uninitialised. */
  function Make(line: Uint, opcode: Opcode): (i: Instruction)
    ensures i.line == line && i.opcode == opcode && i.index.None?
  {
    Instruction(line, opcode, None)
  }

  /** The three-argument constructor: the `uint` index is stored through the
      24-bit bit-field, which keeps only its low 24 bits. */
  function MakeIndexed(line: Uint, opcode: Opcode, index: bv32): (i: Instruction)
    ensures i.line == line && i.opcode == opcode && i.index.Some?
    ensures i.index.value as bv32 == index % 0x100_0000
    ensures index < 0x100_0000 ==> i.index.value as bv32 == index
  {
    Instruction(line, opcode, Some((index & 0xFF_FFFF) as bv24))
  }

  /** The instruction as the decoder would give it back: the index is kept
      only for `Constant`, the one opcode whose index is encoded. */
  function Normalize(i: Instruction): (n: Instruction)
    ensures n.line == i.line && n.opcode == i.opcode
    ensures n.index.Some? <==> i.opcode == Constant && i.index.Some?
    ensures i.opcode == Constant ==> n == i
  {
    if i.opcode == Constant then i else i.(index := None)
  }

  /** An instruction that names a real opcode and carries an index exactly
      when it is `Constant`: what the source's constructors are meant for. */
  predicate WellFormed(i: Instruction) {
    i.opcode != Count && (i.index.Some? <==> i.opcode == Constant)
  }

  /** `Instruction::serialize`: the line unchanged, and the word
      `tag | index << 8` for `Constant`, the bare tag otherwise. Reading the
      index of a `Constant` that was built without one is undefined in the
      source, hence the precondition. */
  function Serialize(i: Instruction): (r: Result<(Uint, Word)>)
    requires i.opcode == Constant ==> i.index.Some?
    ensures r.Failure? <==> i.opcode == Count
    ensures r.Failure? ==> r.error == InvalidOpcode
    ensures r.Success? ==> r.value.0 == i.line
    ensures r.Success? ==> r.value.1 & 0xff == Tag(i.opcode) as Word
    ensures r.Success? && i.opcode != Constant ==> r.value.1 >> 8 == 0
    ensures r.Success? && i.opcode == Constant ==> r.value.1 >> 8 == i.index.value as Word
  {
    match i.opcode
    case Count => Failure(InvalidOpcode)
    case Constant => Success((i.line, (Tag(Constant) as Word) | ((i.index.value as Word) << 8)))
    case _ => Success((i.line, Tag(i.opcode) as Word))
  }

  /** `Instruction::deserialize`: the low byte selects the opcode and, for
      `Constant`, the upper 24 bits are the index. Tags 8 to 255 fall off the
      end of the source's switch, which is undefined, hence the precondition. */
  function Deserialize(line: Uint, w: Word): (r: Result<Instruction>)
    requires w & 0xff < 8
    ensures r.Failure? <==> w & 0xff == 7
    ensures r.Failure? ==> r.error == InvalidOpcode
    ensures r.Success? ==> r.value.line == line && Tag(r.value.opcode) as Word == w & 0xff
    ensures r.Success? ==> WellFormed(r.value)
    ensures r.Success? && r.value.opcode == Constant ==> r.value.index.value as Word == w >> 8
  {
    var op := OpcodeOf((w & 0xff) as bv8);
    match op
    case Count => Failure(InvalidOpcode)
    case Constant => Success(Instruction(line, Constant, Some((w >> 8) as bv24)))
    case _ => Success(Instruction(line, op, None))
  }

  /** A word that `Serialize` can produce: a valid tag, and upper bits that
      are zero unless the tag is `Constant`'s. */
  predicate CanonicalWord(w: Word) {
    w & 0xff < 7 && (w & 0xff != 1 ==> w >> 8 == 0)
  }

  /** Decoding an encoded instruction gives back its line, its opcode and,
      for `Constant`, its index; an index on any other opcode is dropped. */
  lemma DecodeEncode(i: Instruction)
    requires i.opcode != Count
    requires i.opcode == Constant ==> i.index.Some?
    ensures CanonicalWord(Serialize(i).value.1)
    ensures Deserialize(i.line, Serialize(i).value.1) == Success(Normalize(i))
    ensures WellFormed(i) ==> Deserialize(i.line, Serialize(i).value.1) == Success(i)
  {
  }

  /** Encoding a decoded word gives back the same line, and the same word
      exactly when the word is canonical. */
  lemma EncodeDecode(line: Uint, w: Word)
    requires w & 0xff < 7
    ensures Serialize(Deserialize(line, w).value).value.0 == line
    ensures Serialize(Deserialize(line, w).value).value.1 == w <==> CanonicalWord(w)
  {
  }

  /** `to_string(Opcode)`: the upper-case mnemonic; the sentinel is rejected. */
  function Mnemonic(op: Opcode): (r: Result<string>)
    ensures r.Failure? <==> op == Count
    ensures r.Failure? ==> r.error == InvalidOpcode
  {
    match op
    case Return => Success("RETURN")
    case Constant => Success("CONSTANT")
    case Add => Success("ADD")
    case Subtract => Success("SUBTRACT")
    case Multiply => Success("MULTIPLY")
    case Divide => Success("DIVIDE")
    case Negate => Success("NEGATE")
    case Count => Failure(InvalidOpcode)
  }

  /** Each defined opcode has its own mnemonic, and the mnemonic table and
      the decoder reject the same tag. */
  lemma MnemonicAgreesWithDecoder(a: Opcode, b: Opcode, line: Uint)
    ensures Mnemonic(a).Success? && Mnemonic(b).Success? ==>
              (Mnemonic(a).value == Mnemonic(b).value <==> a == b)
    ensures Mnemonic(a).Failure? <==> Deserialize(line, Tag(a) as Word).Failure?
  {
  }
}
