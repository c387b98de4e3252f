/** The machinery behind the smart pointer: the allocation guard, the control block
    (`state_base` with its concrete `state`) and the owning handle `shared_state`. */
module Detail {
  import opened Effects
  import opened Protocol

  /** `alloc_guard`: gives one storage back to its allocator when destroyed, unless
      `release()` was called first. */
  class AllocGuard {
    const alloc: Allocator
    const ledger: Ledger
    /** The guarded storage (`ptr_`); `None` is the null pointer. */
    var ptr: Option<nat>

    constructor (alloc: Allocator, ledger: Ledger, storage: nat)
      ensures this.alloc == alloc && this.ledger == ledger && ptr == Some(storage)
    {
      this.alloc := alloc;
      this.ledger := ledger;
      ptr := Some(storage);
    }

    /** Construction succeeded: the storage is no longer the guard's to give back. */
    method Release()
      modifies this`ptr
      ensures ptr == None
    {
      ptr := None;
    }

    /** The guard's destructor. */
    method Destruct()
      modifies ledger`events
      ensures ptr.Some? ==> ledger.events == old(ledger.events) + [Deallocated(alloc, ptr.value)]
      ensures ptr.None? ==> ledger.events == old(ledger.events)
    {
      if ptr.Some? {
        ledger.Deallocate(alloc, ptr.value);
      }
    }
  }

  /** A control block: the counters of `state_base` together with the pointer, deleter and
      allocator of the concrete `state`, and the storage the block itself occupies. */
  class ControlBlock {
    var shared: int
    var weak: int
    const ptr: Ptr
    const deleter: Deleter
    const alloc: Allocator
    const storage: nat
    /** Where the deleter and the allocator record what they do. */
    const ledger: Ledger
    /** The teardown steps run so far. */
    ghost var history: seq<Phase>
    /** The `shared_state` handles that own a share of this block. */
    ghost var owners: set<SharedState>

    ghost function Abs(): Block
      reads this
    {
      Block(shared, weak, history)
    }

    /** The counters follow the protocol, and the shared count is the number of owning handles. */
    ghost predicate Valid()
      reads this, owners
    {
      Consistent(Abs()) && |owners| == shared && forall o | o in owners :: o.base == this
    }

    /** `state(ptr, d, a)`, placed in `storage`: both counters start at 1. */
    constructor (ptr: Ptr, deleter: Deleter, alloc: Allocator, storage: nat, ledger: Ledger)
      ensures Abs() == Fresh && owners == {}
      ensures this.ptr == ptr && this.deleter == deleter && this.alloc == alloc
      ensures this.storage == storage && this.ledger == ledger
    {
      shared, weak := 1, 1;
      this.ptr, this.deleter, this.alloc := ptr, deleter, alloc;
      this.storage, this.ledger := storage, ledger;
      history := [];
      owners := {};
    }

    /** `release_ptr()`: invoke the stored deleter on the stored pointer. */
    method ReleasePtr()
      modifies this`history, ledger`events
      ensures history == old(history) + [PtrReleased]
      ensures ledger.events == old(ledger.events) + [Disposed(deleter, ptr)]
    {
      ledger.Invoke(deleter, ptr);
      history := history + [PtrReleased];
    }

    /** `destroy()`: finalise the block and give its storage back to the rebound allocator;
        the guard does the giving back, so it happens even if finalisation fails. */
    method Destroy()
      modifies this`history, ledger`events
      ensures history == old(history) + [Destroyed]
      ensures ledger.events == old(ledger.events) + [Deallocated(alloc, storage)]
    {
      var guard := new AllocGuard(alloc, ledger, storage);
      // alloc_traits::destroy(alloc, this) has no effect that this model records.
      guard.Destruct();
      history := history + [Destroyed];
    }

    /** `state_base::release()`. */
    method Release()
      requires Live(Abs())
      modifies this`shared, this`weak, this`history, ledger`events
      ensures Abs() == Protocol.Release(old(Abs()))
      ensures ledger.events == old(ledger.events) + Observe(Teardown(old(Abs())), deleter, ptr, alloc, storage)
    {
      shared := shared - 1;
      if shared == 0 {
        ReleasePtr();
        weak := weak - 1;
        if weak == 0 {
          Destroy();
        }
      }
    }
  }

  lemma OnlyMember<T>(s: set<T>, x: T)
    requires x in s
    ensures |s| == 1 <==> s == {x}
  {
    if |s| == 1 {
      assert |s - {x}| == 0;
      assert s - {x} == {};
    }
  }

  /** A handle reports a count of 1 exactly when it is the only owner of its block. */
  lemma UseCountOne(s: SharedState)
    requires s.Valid()
    ensures s.UseCount() == 1 <==> s.Owners() == {s}
  {
    if s.base != null {
      OnlyMember(s.base.owners, s);
    }
  }

  /** `shared_state`: a nullable owning reference to a control block. */
  class SharedState {
    var base: ControlBlock?

    ghost function Owners(): set<SharedState>
      reads this, base
    {
      if base == null then {} else base.owners
    }

    ghost predicate Valid()
      reads this, base, Owners()
    {
      base != null ==> this in base.owners && base.Valid()
    }

    /** The objects a release through this handle may change. */
    ghost function Reach(): set<object>
      reads this, base
    {
      if base == null then {this} else {this, base, base.ledger}
    }

    /** This handle is the only owner of a block just built over `p`, `d`, `a` in `storage`. */
    ghost predicate SoleOwner(p: Ptr, d: Deleter, a: Allocator, storage: nat, ledger: Ledger)
      reads this, base, Owners()
    {
      Valid() && base != null && base.Abs() == Fresh && base.owners == {this} &&
      base.ptr == p && base.deleter == d && base.alloc == a &&
      base.storage == storage && base.ledger == ledger
    }

    /** `use_count()`: the number of handles that share ownership, 0 for an empty handle. */
    function UseCount(): (n: int)
      requires Valid()
      reads this, base, Owners()
      ensures n == |Owners()|
      ensures n == 0 <==> base == null
    {
      if base == null then 0 else base.shared
    }

    /** The default constructor: no block. */
    constructor Empty()
      ensures base == null && Valid()
    {
      base := null;
    }

    /** `base_{new state...}`: become the one owner of a block just constructed. */
    constructor Adopt(b: ControlBlock)
      requires b.Abs() == Fresh && b.owners == {}
      modifies b`owners
      ensures base == b && b.owners == {this} && Valid()
    {
      base := b;
      new;
      b.owners := {this};
    }

    /** `shared_state(Ptr p)`: a block with the default deleter, its storage from `new`; if that
        throws, `delete p` runs before the exception propagates (`None`). */
    static method FromRaw(p: Ptr, ledger: Ledger, allocFails: bool) returns (r: Option<SharedState>)
      modifies ledger
      ensures var fault := if allocFails then AllocationFails else NoFault;
              ledger.events == old(ledger.events) + BuildEffects(DefaultDelete, StdAllocator, p, fault, old(ledger.nextStorage))
      ensures r.Some? <==> !allocFails
      ensures ledger.nextStorage == old(ledger.nextStorage) + (if allocFails then 0 else 1)
      ensures r.Some? ==> fresh(r.value) && fresh(r.value.base) &&
                          r.value.SoleOwner(p, DefaultDelete, StdAllocator, old(ledger.nextStorage), ledger)
    {
      var storage := ledger.Allocate(StdAllocator, allocFails);
      if storage.None? {
        ledger.Invoke(DefaultDelete, p);
        return None;
      }
      var block := new ControlBlock(p, DefaultDelete, StdAllocator, storage.value, ledger);
      var s := new SharedState.Adopt(block);
      r := Some(s);
    }

    /** `shared_state(Ptr p, D&& d)`: as `FromRaw`, but the block keeps `d`, and `d(p)` is what
        runs when building the block throws. */
    static method WithDeleter(p: Ptr, d: Deleter, ledger: Ledger, allocFails: bool) returns (r: Option<SharedState>)
      modifies ledger
      ensures var fault := if allocFails then AllocationFails else NoFault;
              ledger.events == old(ledger.events) + BuildEffects(d, StdAllocator, p, fault, old(ledger.nextStorage))
      ensures r.Some? <==> !allocFails
      ensures ledger.nextStorage == old(ledger.nextStorage) + (if allocFails then 0 else 1)
      ensures r.Some? ==> fresh(r.value) && fresh(r.value.base) &&
                          r.value.SoleOwner(p, d, StdAllocator, old(ledger.nextStorage), ledger)
    {
      var storage := ledger.Allocate(StdAllocator, allocFails);
      if storage.None? {
        ledger.Invoke(d, p);
        return None;
      }
      var block := new ControlBlock(p, d, StdAllocator, storage.value, ledger);
      var s := new SharedState.Adopt(block);
      r := Some(s);
    }

    /** `shared_state(Ptr p, D&& d, A&& a)`: the block's storage comes from `a`; a guard gives it
        back if constructing the block there throws, and `d(p)` runs on every failure. */
    static method WithAllocator(p: Ptr, d: Deleter, a: Allocator, ledger: Ledger, fault: Fault)
      returns (r: Option<SharedState>)
      modifies ledger
      ensures ledger.events == old(ledger.events) + BuildEffects(d, a, p, fault, old(ledger.nextStorage))
      ensures r.Some? <==> fault == NoFault
      ensures ledger.nextStorage == old(ledger.nextStorage) + (if fault == AllocationFails then 0 else 1)
      ensures r.Some? ==> fresh(r.value) && fresh(r.value.base) &&
                          r.value.SoleOwner(p, d, a, old(ledger.nextStorage), ledger)
    {
      var buffer := ledger.Allocate(a, fault == AllocationFails);
      if buffer.None? {
        ledger.Invoke(d, p);
        return None;
      }
      var guard := new AllocGuard(a, ledger, buffer.value);
      if fault == ConstructionFails {
        guard.Destruct();
        ledger.Invoke(d, p);
        return None;
      }
      var block := new ControlBlock(p, d, a, buffer.value, ledger);
      guard.Release();
      guard.Destruct();
      var s := new SharedState.Adopt(block);
      r := Some(s);
    }

    /** The copy constructor: share `other`'s block, counting one more owner. */
    constructor Copy(other: SharedState)
      requires other.Valid()
      modifies other.base
      ensures base == other.base && Valid() && other.Valid()
      ensures base == null ==> Owners() == {}
      ensures base != null ==> base.Abs() == Protocol.Copy(old(other.base.Abs())) &&
                               base.owners == old(other.base.owners) + {this}
    {
      base := other.base;
      new;
      if base != null {
        base.shared := base.shared + 1;
        base.owners := base.owners + {this};
      }
    }

    /** The move constructor: take over `other`'s share, leaving `other` empty. */
    constructor Move(other: SharedState)
      requires other.Valid()
      modifies other, other.base
      ensures base == old(other.base) && other.base == null && Valid() && other.Valid()
      ensures base != null ==> base.Abs() == old(other.base.Abs()) &&
                               base.owners == old(other.base.owners) - {other} + {this}
    {
      base := other.base;
      new;
      other.base := null;
      if base != null {
        base.owners := base.owners - {other} + {this};
      }
    }

    /** The destructor: give up this handle's share through `release()`. The deleter runs, and
        then the storage goes back, exactly when this was the only owner. */
    method Destruct()
      requires Valid()
      modifies Reach()
      ensures base == null
      ensures old(base) != null ==>
        var b := old(base);
        b.Valid() && b.owners == old(b.owners) - {this} &&
        b.Abs() == Protocol.Release(old(b.Abs())) &&
        b.ledger.events == old(b.ledger.events) +
          (if old(b.owners) == {this} then [Disposed(b.deleter, b.ptr), Deallocated(b.alloc, b.storage)] else [])
    {
      if base != null {
        OnlyMember(base.owners, this);
        base.Release();
        base.owners := base.owners - {this};
        base := null;
      }
    }
  }
}
