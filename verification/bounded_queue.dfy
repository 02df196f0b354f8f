/**
 The bounded queue between the readers and the worker
 (include/imgjit/util/bounded_queue.h), each operation from the moment its wait ends.
 */
module BoundedQueues {
  import opened Chains

  class BoundedQueue<T> {
    const capacity: nat
    var items: seq<T>
    var highWater: nat
    var closed: bool
    // Everything ever accepted, and everything handed out, in order.
    ghost var accepted: seq<T>
    ghost var taken: seq<T>

    /** First in, first out: what was taken and what is here is what was accepted. */
    ghost predicate Valid()
      reads this
    {
      capacity > 0 && |items| <= highWater <= capacity && taken + items == accepted
    }

    /** A capacity of zero means one. */
    constructor (capacity: nat)
      ensures Valid() && !closed && items == [] && accepted == [] && highWater == 0
      ensures this.capacity == if capacity == 0 then 1 else capacity
    {
      this.capacity := if capacity == 0 then 1 else capacity;
      items, highWater, closed := [], 0, false;
      accepted, taken := [], [];
    }

    predicate MayPush()
      reads this
    {
      closed || |items| < capacity
    }

    predicate MayPop()
      reads this
    {
      closed || items != []
    }

    /** push: false, and nothing changed, when the queue is closed. */
    method Push(value: T) returns (ok: bool)
      requires Valid() && MayPush()
      modifies this`items, this`highWater, this`accepted
      ensures Valid() && ok == !closed
      ensures accepted == if ok then old(accepted) + [value] else old(accepted)
      ensures items == if ok then old(items) + [value] else old(items)
      ensures highWater == if ok && |items| > old(highWater) then |items| else old(highWater)
    {
      if closed {
        return false;
      }
      items := items + [value];
      accepted := accepted + [value];
      highWater := if |items| > highWater then |items| else highWater;
      return true;
    }

    /** pop: None only once the queue is closed and drained. */
    method Pop() returns (value: Option<T>)
      requires Valid() && MayPop()
      modifies this`items, this`taken
      ensures Valid() && (value.None? <==> closed && old(items) == [])
      ensures value.None? ==> items == old(items) && taken == old(taken)
      ensures value.Some? ==> old(items) == [value.value] + items && taken == old(taken) + [value.value]
    {
      value := TryPop();
    }

    /** try_pop: never waits. */
    method TryPop() returns (value: Option<T>)
      requires Valid()
      modifies this`items, this`taken
      ensures Valid() && (value.None? <==> old(items) == [])
      ensures value.None? ==> items == old(items) && taken == old(taken)
      ensures value.Some? ==> old(items) == [value.value] + items && taken == old(taken) + [value.value]
    {
      if items == [] {
        return None;
      }
      value := Some(items[0]);
      taken := taken + [items[0]];
      items := items[1..];
    }

    /** close: nothing queued is discarded. */
    method Close()
      requires Valid()
      modifies this`closed
      ensures Valid() && closed
    {
      closed := true;
    }
  }
}
