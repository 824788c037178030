/** The once-per-key append log of csrc/sllm_store/concurrent_vector.h. */
module ConcurrentVectors {
  /** `data` has `capacity` slots; `keys` are the keys enqueued so far. */
  class ConcurrentVector<T(0)> {
    const capacity: nat
    const data: array<T>
    var size: nat
    var keys: set<nat>

    ghost predicate Valid()
      reads this
    {
      data.Length == capacity && size == |keys| && size <= capacity
    }

    ghost function Items(): seq<T>
      requires Valid()
      reads this, data
    {
      data[..size]
    }

    constructor (capacity: nat)
      ensures Valid() && fresh(data)
      ensures this.capacity == capacity && Items() == [] && keys == {}
    {
      this.capacity := capacity;
      data := new T[capacity];
      size := 0;
      keys := {};
    }

    /** A key seen before is ignored. The slot written is not range-checked: callers draw
        their keys from `[0, capacity)`, and then a new key always finds a free slot. */
    method Enqueue(key: nat, item: T)
      requires Valid()
      requires key < capacity && forall k :: k in keys ==> k < capacity
      modifies this, data
      ensures Valid()
      ensures key in old(keys) ==> keys == old(keys) && Items() == old(Items())
      ensures key !in old(keys) ==> keys == old(keys) + {key} && Items() == old(Items()) + [item]
    {
      if key in keys {
        return;
      }
      FreeSlot(keys, key, capacity);
      data[size] := item;
      size := size + 1;
      keys := keys + {key};
    }

    /** Blocks until entry `pivot` exists, then reads it without removing it. */
    method Dequeue(pivot: nat) returns (item: T)
      requires Valid() && pivot < size
      ensures item == Items()[pivot]
    {
      item := data[pivot];
    }
  }

  /** Distinct keys below `n` that miss one of them are fewer than `n`. */
  lemma FreeSlot(keys: set<nat>, key: nat, n: nat)
    requires key < n && key !in keys && forall k :: k in keys ==> k < n
    ensures |keys| < n
  {
    Pigeonhole(keys + {key}, n);
  }

  lemma {:induction false} Pigeonhole(keys: set<nat>, n: nat)
    requires forall k :: k in keys ==> k < n
    ensures |keys| <= n
    decreases n
  {
    if n == 0 {
      assert keys == {};
    } else if n - 1 in keys {
      Pigeonhole(keys - {n - 1}, n - 1);
    } else {
      Pigeonhole(keys, n - 1);
    }
  }
}
