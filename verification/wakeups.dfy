/**
 No lost wakeup. Parked threads, notifications issued after the lock is released, and
 notifications still to be issued, for the slot pool's notify_all
 (src/util/slot_pool.cpp) and the bounded queue's notify_one
 (include/imgjit/util/bounded_queue.h).
 */
module Wakeups {
  import opened Chains
  import opened SlotPools

  // ---------------------------------------------------------------- the slot pool

  /** A thread parked in claim(); once notified it will test its condition again. */
  datatype Waiter = Waiter(owner: nat, notified: bool)

  /** `coming` counts releases and closes that have unlocked and not yet notified. */
  datatype PoolSync = PoolSync(pool: Pool, waiters: seq<Waiter>, coming: nat)

  datatype PoolEvent =
    | Arrives(owner: nat)      // claim() takes the lock and tests
    | Tests(k: nat)            // a parked thread wakes, notified or not, and tests
    | Gives(index: nat)        // release(), up to its unlock
    | Shuts                    // close(), up to its unlock
    | NotifiesAll              // the notify_all of a release or close

  predicate MayPass(pool: Pool, owner: nat) {
    pool.closed || CanClaim(pool, owner)
  }

  /** A thread past its wait: nothing from a closed pool, otherwise a slot. */
  function Passes(pool: Pool, owner: nat): Pool
    requires MayPass(pool, owner) && PoolShape(pool)
  {
    if pool.closed then pool else Claimed(pool, owner)
  }

  predicate PoolShape(pool: Pool) {
    forall i :: 0 <= i < |pool.free| ==> pool.free[i] < |pool.owners|
  }

  predicate PoolAllows(s: PoolSync, event: PoolEvent) {
    && PoolShape(s.pool)
    && match event
       case Arrives(_) => true
       case Tests(k) => k < |s.waiters|
       case Gives(index) => CanRelease(s.pool, index)
       case Shuts => true
       case NotifiesAll => s.coming > 0
  }

  function AllNotified(waiters: seq<Waiter>): (r: seq<Waiter>)
    ensures |r| == |waiters|
  {
    seq(|waiters|, k requires 0 <= k < |waiters| => waiters[k].(notified := true))
  }

  function PoolSyncNext(s: PoolSync, event: PoolEvent): PoolSync
    requires PoolAllows(s, event)
  {
    match event
    case Arrives(owner) =>
      if MayPass(s.pool, owner) then s.(pool := Passes(s.pool, owner))
      else s.(waiters := s.waiters + [Waiter(owner, false)])
    case Tests(k) =>
      var owner := s.waiters[k].owner;
      if MayPass(s.pool, owner) then
        s.(pool := Passes(s.pool, owner), waiters := s.waiters[..k] + s.waiters[k + 1..])
      else s.(waiters := s.waiters[k := Waiter(owner, false)])
    case Gives(index) => s.(pool := Released(s.pool, index), coming := s.coming + 1)
    case Shuts => s.(pool := s.pool.(closed := true), coming := s.coming + 1)
    case NotifiesAll => s.(waiters := AllNotified(s.waiters), coming := s.coming - 1)
  }

  /** Nobody is parked and un-notified who could pass, unless a notify_all is on its way. */
  predicate NobodyForgotten(s: PoolSync) {
    forall k :: 0 <= k < |s.waiters| && !s.waiters[k].notified && MayPass(s.pool, s.waiters[k].owner) ==> s.coming > 0
  }

  /** Another thread's claim never makes a claim possible that was not. */
  lemma ClaimHelpsNobody(pool: Pool, owner: nat, other: nat)
    requires MayPass(pool, owner) && PoolShape(pool) && MayPass(Passes(pool, owner), other)
    ensures MayPass(pool, other)
  {
  }

  lemma PoolForgetsNobody(s: PoolSync, event: PoolEvent)
    requires NobodyForgotten(s) && PoolAllows(s, event)
    ensures NobodyForgotten(PoolSyncNext(s, event)) && PoolShape(PoolSyncNext(s, event).pool)
  {
    var e := PoolSyncNext(s, event);
    if event.Arrives? || event.Tests? {
      forall k | 0 <= k < |e.waiters| && !e.waiters[k].notified && MayPass(e.pool, e.waiters[k].owner)
        ensures e.coming > 0
      {
        var owner := if event.Arrives? then event.owner else s.waiters[event.k].owner;
        if MayPass(s.pool, owner) {
          ClaimHelpsNobody(s.pool, owner, e.waiters[k].owner);
        }
      }
    }
  }

  function RunPool(s: PoolSync, events: seq<PoolEvent>): Option<PoolSync> {
    if events == [] then Some(s)
    else
      var m := RunPool(s, events[..|events| - 1]);
      if m.Some? && PoolAllows(m.value, events[|events| - 1]) then Some(PoolSyncNext(m.value, events[|events| - 1])) else None
  }

  /** In no run is a reader left parked while its claim could succeed or the pool is closed. */
  lemma {:induction false} NoLostClaim(s: PoolSync, events: seq<PoolEvent>)
    requires s.waiters == [] && RunPool(s, events).Some?
    ensures NobodyForgotten(RunPool(s, events).value)
    decreases |events|
  {
    if events != [] {
      NoLostClaim(s, events[..|events| - 1]);
      PoolForgetsNobody(RunPool(s, events[..|events| - 1]).value, events[|events| - 1]);
    }
  }

  // ------------------------------------------------------------------ the queue

  /**
   One side of the queue: threads parked there un-notified and notified, single
   notifications still to be issued, and whether a notify_all is still to be issued.
   */
  datatype Side = Side(parked: nat, notified: nat, coming: nat, allComing: bool)

  datatype QueueSync = QueueSync(items: nat, capacity: nat, closed: bool, producers: Side, consumers: Side)

  datatype QueueEvent =
    | PushArrives | PushTests(wasNotified: bool)
    | PopArrives | PopTests(wasNotified: bool) | TriesPop
    | NotifiesProducer | NotifiesConsumer
    | Closes | NotifiesAllConsumers | NotifiesAllProducers

  function Parks(side: Side): Side {
    side.(parked := side.parked + 1)
  }

  /** A thread leaves the parked ones to test its condition. */
  function Leaves(side: Side, wasNotified: bool): Side
    requires if wasNotified then side.notified > 0 else side.parked > 0
  {
    if wasNotified then side.(notified := side.notified - 1) else side.(parked := side.parked - 1)
  }

  /** notify_one: one parked thread, if there is any that was not notified. */
  function NotifyOne(side: Side): Side
    requires side.coming > 0
  {
    if side.parked > 0 then Side(side.parked - 1, side.notified + 1, side.coming - 1, side.allComing)
    else side.(coming := side.coming - 1)
  }

  function NotifyAll(side: Side): Side {
    Side(0, side.notified + side.parked, side.coming, false)
  }

  predicate CanLeave(side: Side, wasNotified: bool) {
    if wasNotified then side.notified > 0 else side.parked > 0
  }

  predicate QueueAllows(s: QueueSync, event: QueueEvent) {
    && s.items <= s.capacity
    && match event
       case PushTests(wasNotified) => CanLeave(s.producers, wasNotified)
       case PopTests(wasNotified) => CanLeave(s.consumers, wasNotified)
       case NotifiesProducer => s.producers.coming > 0
       case NotifiesConsumer => s.consumers.coming > 0
       case NotifiesAllConsumers => s.consumers.allComing
       case NotifiesAllProducers => s.producers.allComing
       case _ => true
  }

  /** push() at its test: past it, one item more and one notification for a consumer to come. */
  function PushAt(s: QueueSync): QueueSync {
    if s.closed then s
    else if s.items < s.capacity then
      s.(items := s.items + 1, consumers := s.consumers.(coming := s.consumers.coming + 1))
    else s.(producers := Parks(s.producers))
  }

  function TakeOne(s: QueueSync): QueueSync
    requires s.items > 0
  {
    s.(items := s.items - 1, producers := s.producers.(coming := s.producers.coming + 1))
  }

  function PopAt(s: QueueSync): QueueSync {
    if s.items > 0 then TakeOne(s) else if s.closed then s else s.(consumers := Parks(s.consumers))
  }

  function QueueSyncNext(s: QueueSync, event: QueueEvent): QueueSync
    requires QueueAllows(s, event)
  {
    match event
    case PushArrives => PushAt(s)
    case PushTests(wasNotified) => PushAt(s.(producers := Leaves(s.producers, wasNotified)))
    case PopArrives => PopAt(s)
    case PopTests(wasNotified) => PopAt(s.(consumers := Leaves(s.consumers, wasNotified)))
    case TriesPop => if s.items > 0 then TakeOne(s) else s
    case NotifiesProducer => s.(producers := NotifyOne(s.producers))
    case NotifiesConsumer => s.(consumers := NotifyOne(s.consumers))
    case Closes =>
      s.(closed := true, producers := s.producers.(allComing := true), consumers := s.consumers.(allComing := true))
    case NotifiesAllConsumers => s.(consumers := NotifyAll(s.consumers))
    case NotifiesAllProducers => s.(producers := NotifyAll(s.producers))
  }

  /**
   While anyone is parked, what is there for them is covered by wakeups under way: one by
   one in an open queue, by the notify_all of close() in a closed one.
   */
  predicate Covered(side: Side, available: nat, closed: bool) {
    side.parked > 0 ==> if closed then side.allComing else available <= side.notified + side.coming
  }

  predicate QueueCovered(s: QueueSync) {
    && s.items <= s.capacity
    && Covered(s.producers, s.capacity - s.items, s.closed) && Covered(s.consumers, s.items, s.closed)
  }

  lemma QueueStaysCovered(s: QueueSync, event: QueueEvent)
    requires QueueCovered(s) && QueueAllows(s, event)
    ensures QueueCovered(QueueSyncNext(s, event))
  {
  }

  function RunQueue(s: QueueSync, events: seq<QueueEvent>): Option<QueueSync> {
    if events == [] then Some(s)
    else
      var m := RunQueue(s, events[..|events| - 1]);
      if m.Some? && QueueAllows(m.value, events[|events| - 1]) then Some(QueueSyncNext(m.value, events[|events| - 1])) else None
  }

  /**
   In every run of pushes, pops, spurious wakeups and closing: if any producer is parked in
   an open queue, the free room is at most the notified producers plus the notifications
   to come; if any consumer is parked, the same of the items; and nobody is parked in a
   closed queue unless a notify_all is to come.
   */
  lemma {:induction false} NoLostNotify(s: QueueSync, events: seq<QueueEvent>)
    requires s.items <= s.capacity && s.producers.parked == 0 && s.consumers.parked == 0 && RunQueue(s, events).Some?
    ensures QueueCovered(RunQueue(s, events).value)
    decreases |events|
  {
    if events != [] {
      NoLostNotify(s, events[..|events| - 1]);
      QueueStaysCovered(RunQueue(s, events[..|events| - 1]).value, events[|events| - 1]);
    }
  }

  lemma RunQueueOn(s: QueueSync, events: seq<QueueEvent>, m: QueueSync, event: QueueEvent)
    requires RunQueue(s, events) == Some(m) && QueueAllows(m, event)
    ensures RunQueue(s, events + [event]) == Some(QueueSyncNext(m, event))
  {
    assert (events + [event])[..|events|] == events;
  }

  /**
   That the queue is open matters: between close() and its notify_all, a notified producer
   that finds the queue closed leaves without using the room it was notified for.
   */
  lemma ClosedRoomIsUncovered() returns (s: QueueSync, events: seq<QueueEvent>)
    ensures s.items <= s.capacity && s.producers.parked == 0 && s.consumers.parked == 0
    ensures RunQueue(s, events).Some?
    ensures var e := RunQueue(s, events).value;
            e.producers.parked > 0 && e.capacity - e.items > e.producers.notified + e.producers.coming
  {
    var none := Side(0, 0, 0, false);
    s := QueueSync(1, 1, false, none, none);
    var all := [PushArrives, PushArrives, TriesPop, NotifiesProducer, Closes, PushTests(true)];
    RunQueueOn(s, [], s, all[0]);
    var s1 := QueueSyncNext(s, all[0]);
    RunQueueOn(s, [] + [all[0]], s1, all[1]);
    var s2 := QueueSyncNext(s1, all[1]);
    RunQueueOn(s, [] + [all[0]] + [all[1]], s2, all[2]);
    var s3 := QueueSyncNext(s2, all[2]);
    RunQueueOn(s, [] + [all[0]] + [all[1]] + [all[2]], s3, all[3]);
    var s4 := QueueSyncNext(s3, all[3]);
    RunQueueOn(s, [] + [all[0]] + [all[1]] + [all[2]] + [all[3]], s4, all[4]);
    var s5 := QueueSyncNext(s4, all[4]);
    RunQueueOn(s, [] + [all[0]] + [all[1]] + [all[2]] + [all[3]] + [all[4]], s5, all[5]);
    events := [] + [all[0]] + [all[1]] + [all[2]] + [all[3]] + [all[4]] + [all[5]];
  }
}
