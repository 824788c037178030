/** The blocking FIFO between the dispatcher and a copier, csrc/sllm_store/concurrent_queue.h. */
module ConcurrentQueues {
  /** `history` is everything ever enqueued and `taken` counts what has been dequeued: with these
      two alone a queue can be spoken of as a value, as the load machine does. */
  class ConcurrentQueue<T> {
    var queue: seq<T>
    ghost var history: seq<T>
    ghost var taken: nat

    ghost predicate Valid()
      reads this
    {
      taken <= |history| && queue == history[taken..]
    }

    constructor ()
      ensures Valid() && history == [] && taken == 0
    {
      queue, history, taken := [], [], 0;
    }

    method Enqueue(item: T)
      requires Valid()
      modifies this
      ensures Valid() && history == old(history) + [item] && taken == old(taken)
    {
      queue := queue + [item];
      history := history + [item];
    }

    /** Blocks until there is an entry; the entries come out in the order they went in, each
        once. */
    method Dequeue() returns (item: T)
      requires Valid() && taken < |history|
      modifies this
      ensures Valid() && history == old(history) && taken == old(taken) + 1
      ensures item == history[old(taken)]
    {
      item := queue[0];
      queue := queue[1..];
      taken := taken + 1;
    }

    method IsEmpty() returns (empty: bool)
      requires Valid()
      ensures empty <==> taken == |history|
    {
      empty := |queue| == 0;
    }
  }
}
