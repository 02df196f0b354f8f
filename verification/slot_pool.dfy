/**
 The frame-slot pool (src/util/slot_pool.cpp): a free list of indices with a cap on how
 many any one owner holds. The pool owns indices, not storage.
 */
module SlotPools {
  import opened Arith
  import opened Chains

  datatype Pool = Pool(free: seq<nat>, owners: seq<Option<nat>>, held: map<nat, nat>, cap: nat, closed: bool)

  function CountOwned(owners: seq<Option<nat>>, owner: nat): nat {
    if owners == [] then 0
    else CountOwned(owners[..|owners| - 1], owner) + (if owners[|owners| - 1] == Some(owner) then 1 else 0)
  }

  function HeldBy(pool: Pool, owner: nat): nat {
    if owner in pool.held then pool.held[owner] else 0
  }

  /** The free list holds each unclaimed index once, and nothing else. */
  predicate FreeListExact(pool: Pool) {
    && (forall i :: 0 <= i < |pool.free| ==> pool.free[i] < |pool.owners| && pool.owners[pool.free[i]].None?)
    && (forall i, j :: 0 <= i < j < |pool.free| ==> pool.free[i] != pool.free[j])
    && (forall s :: 0 <= s < |pool.owners| && pool.owners[s].None? ==> s in pool.free)
  }

  /** Per-owner counts are the real ownership counts, positive where present, within the cap. */
  ghost predicate CountsExact(pool: Pool) {
    && (forall o: nat {:trigger HeldBy(pool, o)} :: HeldBy(pool, o) == CountOwned(pool.owners, o) <= pool.cap)
    && (forall o :: o in pool.held ==> pool.held[o] > 0)
  }

  ghost predicate PoolInv(pool: Pool) {
    FreeListExact(pool) && CountsExact(pool)
  }

  predicate CanClaim(pool: Pool, owner: nat) {
    pool.free != [] && (owner !in pool.held || pool.held[owner] < pool.cap)
  }

  function NextSlot(pool: Pool): nat
    requires pool.free != []
  {
    pool.free[|pool.free| - 1]
  }

  /** A claim past the wait: the last free index goes to the owner. */
  function Claimed(pool: Pool, owner: nat): Pool
    requires CanClaim(pool, owner) && NextSlot(pool) < |pool.owners|
  {
    pool.(free := pool.free[..|pool.free| - 1],
          owners := pool.owners[NextSlot(pool) := Some(owner)],
          held := pool.held[owner := HeldBy(pool, owner) + 1])
  }

  predicate CanRelease(pool: Pool, index: nat) {
    index < |pool.owners| && pool.owners[index].Some?
  }

  /** A release of a claimed slot; anything else is the source's logic error. */
  function Released(pool: Pool, index: nat): Pool
    requires CanRelease(pool, index)
  {
    var owner := pool.owners[index].value;
    var held :=
      if owner !in pool.held then pool.held
      else if pool.held[owner] <= 1 then pool.held - {owner}
      else pool.held[owner := pool.held[owner] - 1];
    pool.(free := pool.free + [index], owners := pool.owners[index := None], held := held)
  }

  lemma {:induction false} CountUpdated(owners: seq<Option<nat>>, s: nat, v: Option<nat>, o: nat)
    requires s < |owners|
    ensures CountOwned(owners[s := v], o)
            == CountOwned(owners, o) - (if owners[s] == Some(o) then 1 else 0) + (if v == Some(o) then 1 else 0)
    decreases |owners|
  {
    var last := |owners| - 1;
    if s < last {
      assert owners[s := v][..last] == owners[..last][s := v];
      CountUpdated(owners[..last], s, v, o);
    } else {
      assert owners[s := v][..last] == owners[..last];
    }
  }

  lemma {:induction false} OwnedIsCounted(owners: seq<Option<nat>>, s: nat, o: nat)
    requires s < |owners| && owners[s] == Some(o)
    ensures CountOwned(owners, o) > 0
    decreases |owners|
  {
    if s < |owners| - 1 {
      OwnedIsCounted(owners[..|owners| - 1], s, o);
    }
  }

  lemma ClaimKeepsFreeList(pool: Pool, owner: nat)
    requires FreeListExact(pool) && CanClaim(pool, owner)
    ensures NextSlot(pool) < |pool.owners| && pool.owners[NextSlot(pool)].None?
    ensures FreeListExact(Claimed(pool, owner))
  {
    var after, s := Claimed(pool, owner), NextSlot(pool);
    forall t | 0 <= t < |after.owners| && after.owners[t].None? ensures t in after.free {
      assert t in pool.free;
      var i :| 0 <= i < |pool.free| && pool.free[i] == t;
      assert after.free[i] == t;
    }
  }

  lemma ClaimKeepsCounts(pool: Pool, owner: nat)
    requires PoolInv(pool) && CanClaim(pool, owner) && pool.cap > 0 && NextSlot(pool) < |pool.owners|
    ensures CountsExact(Claimed(pool, owner))
  {
    var after := Claimed(pool, owner);
    assert pool.owners[NextSlot(pool)].None?;
    assert HeldBy(pool, owner) < pool.cap;
    forall o: nat ensures HeldBy(after, o) == CountOwned(after.owners, o) <= after.cap {
      CountUpdated(pool.owners, NextSlot(pool), Some(owner), o);
      assert HeldBy(pool, o) == CountOwned(pool.owners, o);
    }
  }

  /** Claiming keeps the free list exact, the counts real and the cap respected. */
  lemma ClaimKeepsInv(pool: Pool, owner: nat)
    requires PoolInv(pool) && CanClaim(pool, owner) && pool.cap > 0
    ensures NextSlot(pool) < |pool.owners| && pool.owners[NextSlot(pool)].None?
    ensures PoolInv(Claimed(pool, owner))
  {
    ClaimKeepsFreeList(pool, owner);
    ClaimKeepsCounts(pool, owner);
  }

  lemma ReleaseKeepsFreeList(pool: Pool, index: nat)
    requires FreeListExact(pool) && CanRelease(pool, index)
    ensures FreeListExact(Released(pool, index))
  {
    var after := Released(pool, index);
    forall t | 0 <= t < |after.owners| && after.owners[t].None? ensures t in after.free {
      if t != index {
        assert t in pool.free;
        var i :| 0 <= i < |pool.free| && pool.free[i] == t;
        assert after.free[i] == t;
      } else {
        assert after.free[|pool.free|] == t;
      }
    }
  }

  /** Releasing a claimed slot undoes its claim and keeps everything else. */
  lemma ReleaseKeepsInv(pool: Pool, index: nat)
    requires PoolInv(pool) && CanRelease(pool, index)
    ensures PoolInv(Released(pool, index))
  {
    var after, owner := Released(pool, index), pool.owners[index].value;
    ReleaseKeepsFreeList(pool, index);
    OwnedIsCounted(pool.owners, index, owner);
    assert HeldBy(pool, owner) == CountOwned(pool.owners, owner);
    forall o: nat ensures HeldBy(after, o) == CountOwned(after.owners, o) <= after.cap {
      CountUpdated(pool.owners, index, None, o);
      assert HeldBy(pool, o) == CountOwned(pool.owners, o);
    }
  }

  class SlotPool {
    const count: nat
    const bytes: nat
    const cap: nat
    var freeList: seq<nat>
    var ownerOf: seq<Option<nat>>
    var heldByOwner: map<nat, nat>
    var closed: bool

    ghost function State(): Pool
      reads this
    {
      Pool(freeList, ownerOf, heldByOwner, cap, closed)
    }

    ghost predicate Valid()
      reads this
    {
      count > 0 && bytes > 0 && cap > 0 && |ownerOf| == count && PoolInv(State())
    }

    /** A cap of zero means no cap; indices are listed so that slot 0 is handed out first. */
    constructor (count: nat, bytes: nat, perOwnerCap: nat)
      requires count > 0 && bytes > 0
      ensures Valid() && !closed && this.count == count && this.bytes == bytes
      ensures cap == if perOwnerCap == 0 then count else perOwnerCap
      ensures |freeList| == count && NextSlot(State()) == 0
      ensures forall s :: 0 <= s < count ==> ownerOf[s].None?
    {
      this.count, this.bytes := count, bytes;
      this.cap := if perOwnerCap == 0 then count else perOwnerCap;
      ownerOf := seq(count, i => None);
      heldByOwner, closed := map[], false;
      var list: seq<nat> := [];
      var i := count;
      while i > 0
        invariant i <= count && |list| == count - i
        invariant forall k :: 0 <= k < |list| ==> list[k] == count - 1 - k
      {
        list := list + [i - 1];
        i := i - 1;
      }
      freeList := list;
      new;
      FreshPool(State());
    }

    /** The construction the source allows: an empty block is its invalid-argument error. */
    static method Create(count: nat, bytes: nat, perOwnerCap: nat) returns (pool: SlotPool?)
      ensures pool == null <==> count == 0 || bytes == 0
      ensures pool != null ==> fresh(pool) && pool.Valid() && pool.count == count && pool.bytes == bytes
      ensures pool != null ==> pool.cap == (if perOwnerCap == 0 then count else perOwnerCap)
    {
      if count == 0 || bytes == 0 {
        return null;
      }
      pool := new SlotPool(count, bytes, perOwnerCap);
    }

    predicate MayClaim(owner: nat)
      reads this
    {
      CanClaim(Pool(freeList, ownerOf, heldByOwner, cap, closed), owner)
    }

    /** `claim`, from the moment its wait ends: the pool is closed, or a slot can be had. */
    method Claim(owner: nat) returns (slot: Option<nat>)
      requires Valid() && (closed || MayClaim(owner))
      modifies this
      ensures Valid()
      ensures old(closed) ==> slot == None && State() == old(State())
      ensures !old(closed) ==> slot == Some(old(NextSlot(State())))
      ensures !old(closed) ==> State() == Claimed(old(State()), owner)
      ensures !old(closed) ==> slot.value < count && old(ownerOf)[slot.value].None?
    {
      if closed {
        return None;
      }
      ClaimKeepsInv(State(), owner);
      ghost var after := Claimed(State(), owner);
      var index := freeList[|freeList| - 1];
      var held := if owner in heldByOwner then heldByOwner[owner] else 0;
      freeList := freeList[..|freeList| - 1];
      ownerOf := ownerOf[index := Some(owner)];
      heldByOwner := heldByOwner[owner := held + 1];
      assert State() == after;
      return Some(index);
    }

    /** `release`: false is the logic error of a slot that is not claimed. */
    method Release(index: nat) returns (ok: bool)
      requires Valid()
      modifies this
      ensures Valid()
      ensures ok <==> CanRelease(old(State()), index)
      ensures State() == if ok then Released(old(State()), index) else old(State())
    {
      if index >= count || ownerOf[index].None? {
        return false;
      }
      ReleaseKeepsInv(State(), index);
      var owner := ownerOf[index].value;
      if owner in heldByOwner {
        if heldByOwner[owner] <= 1 {
          heldByOwner := heldByOwner - {owner};
        } else {
          heldByOwner := heldByOwner[owner := heldByOwner[owner] - 1];
        }
      }
      ownerOf := ownerOf[index := None];
      freeList := freeList + [index];
      return true;
    }

    method Close()
      requires Valid()
      modifies this
      ensures Valid() && State() == old(State()).(closed := true)
    {
      CloseKeepsInv(State());
      closed := true;
    }

    /** Where a slot's bytes start in the borrowed block. */
    method Slot(index: nat) returns (offset: Option<nat>)
      requires Valid()
      ensures offset.Some? <==> index < count
      ensures offset.Some? ==> offset.value == Times(index, bytes) && offset.value + bytes <= Times(count, bytes)
    {
      if index >= count {
        return None;
      }
      TimesStep(index, count, bytes);
      return Some(Times(index, bytes));
    }
  }

  lemma {:induction false} NobodyCounted(owners: seq<Option<nat>>, o: nat)
    requires forall s :: 0 <= s < |owners| ==> owners[s].None?
    ensures CountOwned(owners, o) == 0
    decreases |owners|
  {
    if owners != [] {
      NobodyCounted(owners[..|owners| - 1], o);
    }
  }

  lemma FreshPool(pool: Pool)
    requires forall s :: 0 <= s < |pool.owners| ==> pool.owners[s].None?
    requires pool.held == map[] && |pool.free| == |pool.owners|
    requires forall k :: 0 <= k < |pool.free| ==> pool.free[k] == |pool.owners| - 1 - k
    ensures PoolInv(pool)
  {
    forall s | 0 <= s < |pool.owners| ensures s in pool.free {
      assert pool.free[|pool.owners| - 1 - s] == s;
    }
    forall o: nat ensures HeldBy(pool, o) == CountOwned(pool.owners, o) <= pool.cap {
      NobodyCounted(pool.owners, o);
    }
  }

  lemma CloseKeepsInv(pool: Pool)
    requires PoolInv(pool)
    ensures PoolInv(pool.(closed := true))
  {
    var after := pool.(closed := true);
    forall o: nat ensures HeldBy(after, o) == CountOwned(after.owners, o) <= after.cap {
      assert HeldBy(pool, o) == CountOwned(pool.owners, o);
    }
  }

  /** Two slots never share a byte of the block. */
  lemma SlotsDisjoint(bytes: nat, a: nat, b: nat)
    requires a != b
    ensures Times(a, bytes) + bytes <= Times(b, bytes) || Times(b, bytes) + bytes <= Times(a, bytes)
  {
    if a < b {
      TimesStep(a, b, bytes);
    } else {
      TimesStep(b, a, bytes);
    }
  }
}
