/**
 The pool of physical cache blocks: a queue of free blocks and a reference count per block.
 */
module BlockAllocators {
  import opened Types

  /** One past the largest 32-bit count. */
  const COUNT_LIMIT: nat := 0x1_0000_0000

  datatype AllocError = OutOfBlocks | InvalidBlock | Unallocated | DoubleFree

  /** Free queue and reference counts. */
  datatype Pool = Pool(free: seq<BlockId>, refs: seq<nat>) {

    /** A block is on the free queue, once, exactly when nobody refers to it. */
    ghost predicate Valid() {
      && NoDup(free)
      && (forall b :: b in free ==> b < |refs|)
      && forall b :: 0 <= b < |refs| ==> refs[b] < COUNT_LIMIT && (refs[b] == 0 <==> b in free)
    }

    function Allocate(): (Result<BlockId, AllocError>, Pool)
      requires Valid()
    {
      if free == [] then (Err(OutOfBlocks), this)
      else
        assert free[0] in free;
        (Ok(free[0]), Pool(free[1..], refs[free[0] := 1]))
    }

    lemma AllocateOk()
      requires Valid()
      ensures Allocate().1.Valid() && |Allocate().1.refs| == |refs|
    {
      if free != [] {
        assert free[0] in free;
        var rest := free[1..];
        assert forall b :: b in free <==> b == free[0] || b in rest;
        assert free[0] !in rest;
        assert NoDup(rest);
      }
    }

    function IncrementRef(b: BlockId): (Result<(), AllocError>, Pool) {
      if b >= |refs| then (Err(InvalidBlock), this)
      else if refs[b] == 0 then (Err(Unallocated), this)
      else (Ok(()), Pool(free, refs[b := (refs[b] + 1) % COUNT_LIMIT]))
    }

    function Free(b: BlockId): (Result<bool, AllocError>, Pool) {
      if b >= |refs| then (Err(InvalidBlock), this)
      else if refs[b] == 0 then (Err(DoubleFree), this)
      else if refs[b] == 1 then (Ok(true), Pool(free + [b], refs[b := 0]))
      else (Ok(false), Pool(free, refs[b := refs[b] - 1]))
    }
  }

  class BlockAllocator {
    const capacity: nat
    var freeList: seq<BlockId>
    var refCounts: seq<nat>

    constructor (capacity: nat)
      ensures this.capacity == capacity && Valid()
      ensures freeList == seq(capacity, i => i) && refCounts == seq(capacity, _ => 0)
    {
      this.capacity := capacity;
      freeList := seq(capacity, i => i);
      refCounts := seq(capacity, _ => 0);
      new;
      forall b | 0 <= b < capacity
        ensures b in freeList
      {
        assert freeList[b] == b;
      }
    }

    function Abs(): Pool
      reads this
    {
      Pool(freeList, refCounts)
    }

    ghost predicate Valid()
      reads this
    {
      |refCounts| == capacity && Abs().Valid()
    }

    method Allocate() returns (r: Result<BlockId, AllocError>)
      requires Valid()
      modifies this
      ensures (r, Abs()) == old(Abs()).Allocate()
      ensures if old(freeList) == [] then r == Err(OutOfBlocks) && Abs() == old(Abs()) else
        && r == Ok(old(freeList)[0]) && freeList == old(freeList)[1..] && r.value < capacity
        && refCounts == old(refCounts)[old(freeList)[0] := 1]
      ensures Valid()
    {
      if freeList == [] {
        return Err(OutOfBlocks);
      }
      var blockId := freeList[0];
      assert blockId in freeList;
      ghost var was := Abs();
      freeList := freeList[1..];
      refCounts := refCounts[blockId := 1];
      was.AllocateOk();
      r := Ok(blockId);
    }

    /** The count is 32 bits wide: the allocator stays consistent unless it overflows. */
    method IncrementRef(blockId: BlockId) returns (r: Result<(), AllocError>)
      requires Valid()
      modifies this
      ensures (r, Abs()) == old(Abs()).IncrementRef(blockId)
      ensures blockId >= capacity ==> r == Err(InvalidBlock) && Abs() == old(Abs())
      ensures blockId < capacity && old(refCounts)[blockId] == 0 ==> r == Err(Unallocated) && Abs() == old(Abs())
      ensures blockId < capacity && old(refCounts)[blockId] > 0 ==>
        && r == Ok(()) && freeList == old(freeList)
        && refCounts == old(refCounts)[blockId := (old(refCounts)[blockId] + 1) % 0x1_0000_0000]
      ensures Valid() <==> !(blockId < capacity && old(refCounts)[blockId] == COUNT_LIMIT - 1)
    {
      if blockId >= capacity {
        return Err(InvalidBlock);
      }
      if refCounts[blockId] == 0 {
        return Err(Unallocated);
      }
      refCounts := refCounts[blockId := (refCounts[blockId] + 1) % COUNT_LIMIT];
      r := Ok(());
    }

    method Free(blockId: BlockId) returns (r: Result<bool, AllocError>)
      requires Valid()
      modifies this
      ensures (r, Abs()) == old(Abs()).Free(blockId)
      ensures blockId >= capacity ==> r == Err(InvalidBlock) && Abs() == old(Abs())
      ensures blockId < capacity && old(refCounts)[blockId] == 0 ==> r == Err(DoubleFree) && Abs() == old(Abs())
      ensures blockId < capacity && old(refCounts)[blockId] > 0 ==>
        && refCounts == old(refCounts)[blockId := old(refCounts)[blockId] - 1]
        && freeList == (if old(refCounts)[blockId] == 1 then old(freeList) + [blockId] else old(freeList))
        && r == Ok(old(refCounts)[blockId] == 1)
      ensures Valid()
    {
      if blockId >= capacity {
        return Err(InvalidBlock);
      }
      if refCounts[blockId] == 0 {
        return Err(DoubleFree);
      }
      refCounts := refCounts[blockId := refCounts[blockId] - 1];
      if refCounts[blockId] == 0 {
        freeList := freeList + [blockId];
        r := Ok(true);
      } else {
        r := Ok(false);
      }
    }

    function FreeBlocks(): nat
      reads this
    {
      |freeList|
    }
  }
}
