/** The constant pool: an append-only vector of values addressed by index. */
module Pool {
  import opened Wrappers

  /** `ConstantPool`. The source stores `double`s; the model keeps the value
      type abstract. */
  class ConstantPool<V> {
    var constants: seq<V>

    constructor ()
      ensures constants == []
    {
      constants := [];
    }

    /** The number of constants added so far. */
    function Size(): nat
      reads this
    {
      |constants|
    }

    /** `get`: the value at `offset`, or `OutOfRange` past the end (`.at`). */
    function Get(offset: nat): (r: Result<V>)
      reads this
      ensures r.Success? <==> offset < |constants|
      ensures r.Success? ==> r.value == constants[offset]
      ensures r.Failure? ==> r.error == OutOfRange
    {
      if offset < |constants| then Success(constants[offset]) else Failure(OutOfRange)
    }

    /** `add`: appends `c` and returns the index it was given, the old size.
        That index now yields `c`, every earlier index what it yielded before,
        and the next index is still out of range. */
    method Add(c: V) returns (index: nat)
      modifies this
      ensures constants == old(constants) + [c]
      ensures index == old(Size())
      ensures Get(index) == Success(c)
      ensures forall k :: 0 <= k < index ==> Get(k) == old(Get(k))
      ensures Get(Size()) == Failure(OutOfRange)
    {
      constants := constants + [c];
      index := |constants| - 1;
    }
  }
}
