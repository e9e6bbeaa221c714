/** The chunk: parallel vectors of source lines and encoded words, and one
    owned constant pool. */
module Chunks {
  import opened Wrappers
  import opened Codec
  import opened Pool

  /** The instructions that a pair of parallel vectors holds, decoded. */
  function DecodeAll(lines: seq<Uint>, codes: seq<Word>): (r: seq<Instruction>)
    requires |lines| == |codes|
    requires forall k :: 0 <= k < |codes| ==> CanonicalWord(codes[k])
    ensures |r| == |codes|
  {
    if codes == [] then []
    else
      assert CanonicalWord(codes[0]);
      [Deserialize(lines[0], codes[0]).value] + DecodeAll(lines[1..], codes[1..])
  }

  /** Decoding the vectors with one more pair appended gives the old decoding
      with that pair's instruction appended. */
  lemma {:induction false} DecodeAllAppend(lines: seq<Uint>, codes: seq<Word>, line: Uint, code: Word)
    requires |lines| == |codes|
    requires forall k :: 0 <= k < |codes| ==> CanonicalWord(codes[k])
    requires CanonicalWord(code)
    ensures DecodeAll(lines + [line], codes + [code]) ==
            DecodeAll(lines, codes) + [Deserialize(line, code).value]
  {
    if codes != [] {
      assert (lines + [line])[1..] == lines[1..] + [line];
      assert (codes + [code])[1..] == codes[1..] + [code];
      DecodeAllAppend(lines[1..], codes[1..], line, code);
    }
  }

  /** The instruction at position `k` of the decoding is the pair at `k`, decoded. */
  lemma {:induction false} DecodeAllAt(lines: seq<Uint>, codes: seq<Word>, k: nat)
    requires |lines| == |codes|
    requires forall j :: 0 <= j < |codes| ==> CanonicalWord(codes[j])
    requires k < |codes|
    ensures DecodeAll(lines, codes)[k] == Deserialize(lines[k], codes[k]).value
  {
    if k > 0 {
      DecodeAllAt(lines[1..], codes[1..], k - 1);
    }
  }

  /** Every decoded instruction is well formed, has the stored line, and
      encodes back to exactly the stored pair. */
  lemma DecodeAllEncodes(lines: seq<Uint>, codes: seq<Word>, k: nat)
    requires |lines| == |codes|
    requires forall j :: 0 <= j < |codes| ==> CanonicalWord(codes[j])
    requires k < |codes|
    ensures var i := DecodeAll(lines, codes)[k];
      i.line == lines[k] && WellFormed(i) && Serialize(i) == Success((lines[k], codes[k]))
  {
    DecodeAllAt(lines, codes, k);
    EncodeDecode(lines[k], codes[k]);
  }

  /** `Chunk`. The diagnostic name is not modelled. */
  class Chunk<V> {
    var lines: seq<Uint>
    var codes: seq<Word>
    const pool: ConstantPool<V>

    /** The vectors stay index-aligned and hold only words `write` produces. */
    ghost predicate Valid()
      reads this
    {
      |lines| == |codes| &&
      forall k :: 0 <= k < |codes| ==> CanonicalWord(codes[k])
    }

    /** The program held by the chunk, as decoded instructions. */
    ghost function Instructions(): (r: seq<Instruction>)
      reads this
      requires Valid()
      ensures |r| == |codes|
    {
      DecodeAll(lines, codes)
    }

    constructor ()
      ensures Valid() && fresh(pool)
      ensures lines == [] && codes == [] && pool.constants == []
    {
      lines, codes := [], [];
      pool := new ConstantPool();
    }

    /** `get_length`: the number of instructions written. */
    function Length(): (n: nat)
      reads this
      requires Valid()
      ensures n == |lines| == |codes|
    {
      |codes|
    }

    /** `read`: the instruction stored at `offset` (its line and its decoded
        word), or `OutOfRange` past the end. */
    function Read(offset: nat): (r: Result<Instruction>)
      reads this
      requires Valid()
      ensures r.Success? <==> offset < Length()
      ensures r.Failure? ==> r.error == OutOfRange
      ensures r.Success? ==> r.value == Instructions()[offset]
    {
      if offset < |codes| then
        DecodeAllAt(lines, codes, offset);
        Deserialize(lines[offset], codes[offset])
      else Failure(OutOfRange)
    }

    /** What `read` returns is well formed, carries the stored line and
        encodes back to the stored pair. */
    lemma ReadEncodes(offset: nat)
      requires Valid() && offset < Length()
      ensures Read(offset).Success?
      ensures Read(offset).value.line == lines[offset] && WellFormed(Read(offset).value)
      ensures Serialize(Read(offset).value) == Success((lines[offset], codes[offset]))
    {
    }

    /** `write`: encodes `i` and appends its line and word. Encoding the
        sentinel fails and leaves the chunk as it was. */
    method Write(i: Instruction) returns (r: Outcome)
      requires Valid()
      requires i.opcode == Constant ==> i.index.Some?
      modifies this
      ensures Valid()
      ensures r.Fail? <==> i.opcode == Count
      ensures r.Fail? ==> r.error == InvalidOpcode && lines == old(lines) && codes == old(codes)
      ensures r.Pass? ==> lines == old(lines) + [i.line] && codes == old(codes) + [Serialize(i).value.1]
      ensures r.Pass? ==> Length() == old(Length()) + 1
      ensures r.Pass? ==> Instructions() == old(Instructions()) + [Normalize(i)]
      ensures forall k :: 0 <= k < old(Length()) ==> Read(k) == old(Read(k))
      ensures r.Pass? ==> Read(old(Length())) == Success(Normalize(i))
      ensures Read(Length()) == Failure(OutOfRange)
    {
      var encoded := Serialize(i);
      if encoded.Failure? {
        return Fail(encoded.error);
      }
      var (line, code) := encoded.value;
      DecodeEncode(i);
      DecodeAllAppend(lines, codes, line, code);
      lines := lines + [line];
      codes := codes + [code];
      r := Pass;
    }
  }
}
