/** The parts of a shader program whose behaviour the engine header states:
    the array-valued `setAttribute` convenience, which interleaves and
    forwards to the scalar overload; the attribute slot bookkeeping that an
    update must respect; and the index state a fresh program starts in. */
module Shaders {
  import opened RenderTypes
  import opened Interleave

  /** The arguments of one call to the scalar `setAttribute` overload. */
  datatype AttributeCall<T> = AttributeCall(name: string, data: seq<T>, update: bool, offset: Int32, size: Int32)

  /** The array-valued convenience for tuples of width `c`: interleave the
      tuples, then pass the result on with every other argument untouched.
      The defaults are those of the declaration. */
  function SetArrayAttribute<T>(name: string, data: seq<seq<T>>, c: nat,
                                update: bool := false, offset: Int32 := 0, size: Int32 := -1): (call: AttributeCall<T>)
    requires Uniform(data, c)
    ensures call.name == name && call.update == update
    ensures call.offset == offset && call.size == size
    ensures |call.data| == c * |data|
    ensures forall i, j :: 0 <= i < |data| && 0 <= j < c ==>
      Position(c, i, j) < |call.data| && call.data[Position(c, i, j)] == data[i][j]
  {
    FlattenIndexAll(data, c);
    AttributeCall(name, Flatten(data, c), update, offset, size)
  }

  /** The forwarded data is exactly the tuples laid end to end: nothing is
      reordered, dropped or invented, and the tuples can be read back. */
  lemma ForwardedDataRecoversTuples<T>(name: string, data: seq<seq<T>>, c: nat,
                                       update: bool, offset: Int32, size: Int32)
    requires Uniform(data, c)
    ensures Unflatten(SetArrayAttribute(name, data, c, update, offset, size).data, c, |data|) == data
  {
    UnflattenFlatten(data, c);
  }

  /** Forwarding the tuples of two batches in turn is forwarding their
      concatenation. */
  lemma ForwardedDataOfConcatenation<T>(name: string, a: seq<seq<T>>, b: seq<seq<T>>, c: nat,
                                        update: bool, offset: Int32, size: Int32)
    requires Uniform(a, c) && Uniform(b, c)
    ensures Uniform(a + b, c)
    ensures SetArrayAttribute(name, a + b, c, update, offset, size).data
         == SetArrayAttribute(name, a, c, update, offset, size).data
          + SetArrayAttribute(name, b, c, update, offset, size).data
  {
    FlattenAppend(a, b, c);
  }

  /** A program's record of one attribute. `dataSize` is the size of the data
      currently stored for it, -1 when nothing is stored. */
  datatype AttributeSlot = AttributeSlot(name: string, dataType: DataType, dataSize: int, arrayCount: Int32)

  const NoData: int := -1

  predicate HoldsData(slot: AttributeSlot) {
    slot.dataSize != NoData
  }

  /** The rule stated for every `setAttribute`: an update
      (`update == true`) writes into storage allocated earlier, so it is only
      permitted on a slot that already holds data. An allocating call is
      always permitted. */
  predicate UpdatePermitted(slot: AttributeSlot, update: bool) {
    !update || HoldsData(slot)
  }

  /** Interleaving does not change what the call is permitted to do: the
      array convenience passes `update` through, so it may update only a slot
      whose `dataSize` is not -1, whatever the tuples are. */
  lemma ArrayUpdateNeedsAllocation<T>(slot: AttributeSlot, name: string, data: seq<seq<T>>, c: nat,
                                      update: bool, offset: Int32, size: Int32)
    requires Uniform(data, c)
    ensures UpdatePermitted(slot, SetArrayAttribute(name, data, c, update, offset, size).update)
        <==> (!update || slot.dataSize != NoData)
  {
  }

  /** Indexed-drawing configuration of a program. */
  datatype IndexState = IndexState(
    useIndex: bool,
    indexSize: int,
    usePrimitiveRestart: bool,
    primitiveRestartIndexSet: bool,
    restartIndex: UInt32)

  /** The member initialisers: a program starts non-indexed, with no index
      data and primitive restart off and unset; the restart index is -1
      stored into an `unsigned int`. */
  function InitialIndexState(): (s: IndexState)
    ensures !s.useIndex && s.indexSize == -1
    ensures !s.usePrimitiveRestart && !s.primitiveRestartIndexSet
    ensures s.restartIndex == MaxUInt32
  {
    IndexState(false, -1, false, false, ToUInt32(-1))
  }
}
