/** The fixed pool of pinned buffers, csrc/sllm_store/pinned_memory_pool.cpp. */
module PinnedPool {
  import opened Arith
  import opened Collections

  /** Buffers are identified by their addresses. */
  class PinnedMemoryPool {
    const chunkSize: nat
    const pool: set<nat>
    var freeList: set<nat>

    ghost predicate Valid()
      reads this
    {
      0 < chunkSize && freeList <= pool
    }

    /** As many buffers as cover `totalSize`, all of them free. */
    constructor (totalSize: nat, chunkSize: nat)
      requires 0 < chunkSize
      ensures Valid() && this.chunkSize == chunkSize
      ensures freeList == pool && |pool| == CeilDiv(totalSize, chunkSize)
    {
      this.chunkSize := chunkSize;
      var numBuffers := CeilDiv(totalSize, chunkSize);
      var buffers: set<nat> := {};
      for i := 0 to numBuffers
        invariant |buffers| == i && forall b :: b in buffers ==> b < i
      {
        buffers := buffers + {i};
      }
      pool := buffers;
      freeList := buffers;
    }

    /** Takes the buffers for `size` bytes off the free list; when there are too few it returns
        how many are missing and takes none. */
    method Allocate(size: nat) returns (ret: int, buffers: seq<nat>)
      requires Valid()
      modifies this`freeList
      ensures Valid()
      ensures ret == if size == 0 then -1
                     else if CeilDiv(size, chunkSize) > |old(freeList)| then CeilDiv(size, chunkSize) - |old(freeList)| else 0
      ensures ret == 0 ==> |buffers| == CeilDiv(size, chunkSize) && Distinct(buffers)
      ensures ret == 0 ==> ToSet(buffers) <= old(freeList) && freeList == old(freeList) - ToSet(buffers)
      ensures ret != 0 ==> freeList == old(freeList)
    {
      buffers := [];
      if size == 0 {
        return -1, [];
      }
      var numBuffersNeeded := CeilDiv(size, chunkSize);
      if numBuffersNeeded > |freeList| {
        return numBuffersNeeded - |freeList|, [];
      }
      for i := 0 to numBuffersNeeded
        invariant |buffers| == i && Distinct(buffers)
        invariant ToSet(buffers) <= old(freeList) && freeList == old(freeList) - ToSet(buffers)
        invariant |freeList| == |old(freeList)| - i
      {
        var b :| b in freeList;
        assert ToSet(buffers + [b]) == ToSet(buffers) + {b};
        buffers := buffers + [b];
        freeList := freeList - {b};
      }
      return 0, buffers;
    }

    /** Whether `Deallocate` accepts the buffer at position `i`. */
    ghost predicate Returnable(free: set<nat>, buffers: seq<nat>, i: nat)
      requires i < |buffers|
    {
      buffers[i] in pool && buffers[i] !in free && buffers[i] !in buffers[..i]
    }

    /** `free'` is the free list of a return that stopped at the buffer at position `i`. */
    ghost predicate StoppedAt(free: set<nat>, buffers: seq<nat>, i: nat, free': set<nat>)
      requires i < |buffers|
    {
      && !Returnable(free, buffers, i) && (forall j :: 0 <= j < i ==> Returnable(free, buffers, j))
      && free' == free + ToSet(buffers[..i])
    }

    /** Returns the buffers to the free list. At the first one that is foreign, already free or
        repeated it stops with an error; those before it stay returned. */
    method Deallocate(buffers: seq<nat>) returns (ret: int)
      requires Valid()
      modifies this`freeList
      ensures Valid()
      ensures ret == 0 <==> forall i :: 0 <= i < |buffers| ==> Returnable(old(freeList), buffers, i)
      ensures ret == 0 ==> freeList == old(freeList) + ToSet(buffers)
      ensures ret != 0 ==> ret == -1 && exists i :: 0 <= i < |buffers| && StoppedAt(old(freeList), buffers, i, freeList)
    {
      for i := 0 to |buffers|
        invariant forall j :: 0 <= j < i ==> Returnable(old(freeList), buffers, j)
        invariant freeList == old(freeList) + ToSet(buffers[..i]) && Valid()
      {
        if buffers[i] !in pool {
          assert StoppedAt(old(freeList), buffers, i, freeList);
          return -1;
        }
        if buffers[i] in freeList {
          assert StoppedAt(old(freeList), buffers, i, freeList);
          return -1;
        }
        assert ToSet(buffers[..i + 1]) == ToSet(buffers[..i]) + {buffers[i]};
        freeList := freeList + {buffers[i]};
      }
      assert buffers[..|buffers|] == buffers;
      return 0;
    }
  }

  /** Buffers that are distinct, of the pool and not free are all returnable. */
  lemma OwnedReturnable(p: PinnedMemoryPool, free: set<nat>, buffers: seq<nat>)
    requires Distinct(buffers) && forall b :: b in buffers ==> b in p.pool && b !in free
    ensures forall i :: 0 <= i < |buffers| ==> p.Returnable(free, buffers, i)
  {
    forall i | 0 <= i < |buffers| ensures p.Returnable(free, buffers, i) {
      assert buffers[i] in buffers;
    }
  }
}
