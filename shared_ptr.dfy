/** The `shared_ptr` façade: an observed pointer paired with an owning `shared_state`. */
module Experimental {
  import opened Effects
  import opened Protocol
  import opened Detail

  /** The part of `std::unique_ptr` the adopting constructor uses. */
  class UniquePtr {
    var ptr: Ptr
    const deleter: Deleter

    constructor (p: Ptr, d: Deleter)
      ensures ptr == p && deleter == d
    {
      ptr, deleter := p, d;
    }

    /** `release()`: hand the pointer over and forget it. */
    method Release() returns (p: Ptr)
      modifies this`ptr
      ensures p == old(ptr) && ptr == Null
    {
      p := ptr;
      ptr := Null;
    }
  }

  class SharedPtr {
    /** `ptr_`: what `get()` reports; with aliasing it need not be what the block owns. */
    var ptr: Ptr
    /** `state_`. */
    var state: SharedState

    ghost predicate Valid()
      reads this, state, state.base, state.Owners()
    {
      state.Valid()
    }

    /** The objects a release through this handle may change. */
    ghost function Reach(): set<object>
      reads this, state, state.base
    {
      {this} + state.Reach()
    }

    /** This handle is the only owner of a block just built over `p`, `d`, `a` in `storage`,
        and reports `p`. */
    ghost predicate SoleOwner(p: Ptr, d: Deleter, a: Allocator, storage: nat, ledger: Ledger)
      reads this, state, state.base, state.Owners()
    {
      ptr == p && state.SoleOwner(p, d, a, storage, ledger)
    }

    /** `get()`. */
    function Get(): (p: Ptr)
      reads this
      ensures p == Null <==> !ToBool()
    {
      ptr
    }

    /** `use_count()`: the number of handles sharing ownership; 0 when nothing is owned. */
    function UseCount(): (n: int)
      requires Valid()
      reads this, state, state.base, state.Owners()
      ensures n == |state.Owners()|
      ensures n == 0 <==> state.base == null
    {
      state.UseCount()
    }

    /** `unique()`: this handle's state is the one owner of its block. */
    function Unique(): (u: bool)
      requires Valid()
      reads this, state, state.base, state.Owners()
      ensures u <==> state.Owners() == {state}
    {
      UseCountOne(state);
      UseCount() == 1
    }

    /** `operator bool`: whether the observed pointer is non-null, whatever the count. */
    function ToBool(): (b: bool)
      reads this
      ensures b <==> ptr != Null
    {
      ptr != Null
    }

    /** The default constructor, and the one from `nullptr`: empty, owning nothing. */
    constructor Empty()
      ensures Valid() && fresh(state)
      ensures Get() == Null && UseCount() == 0 && !ToBool()
    {
      ptr := Null;
      state := new SharedState.Empty();
    }

    /** Pair an observed pointer with a handle already built. */
    constructor Pair(p: Ptr, s: SharedState)
      ensures ptr == p && state == s
    {
      ptr, state := p, s;
    }

    /** `shared_ptr(Y* p)`: own `p` through a new block with the default deleter. If building the
        block throws, `delete p` has run and no handle exists (`None`). */
    static method FromRaw(p: Ptr, ledger: Ledger, allocFails: bool) returns (r: Option<SharedPtr>)
      modifies ledger
      ensures var fault := if allocFails then AllocationFails else NoFault;
              ledger.events == old(ledger.events) + BuildEffects(DefaultDelete, StdAllocator, p, fault, old(ledger.nextStorage))
      ensures r.Some? <==> !allocFails
      ensures ledger.nextStorage == old(ledger.nextStorage) + (if allocFails then 0 else 1)
      ensures r.Some? ==> fresh(r.value) && fresh(r.value.state) && fresh(r.value.state.base) &&
                          r.value.SoleOwner(p, DefaultDelete, StdAllocator, old(ledger.nextStorage), ledger) &&
                          r.value.Get() == p && r.value.UseCount() == 1 && r.value.Unique()
    {
      var s := SharedState.FromRaw(p, ledger, allocFails);
      if s.None? {
        return None;
      }
      var sp := new SharedPtr.Pair(p, s.value);
      UseCountOne(sp.state);
      r := Some(sp);
    }

    /** `shared_ptr(Y* p, D d)`: as `FromRaw`, with deleter `d`, which is also what disposes of `p`
        when building the block throws. */
    static method WithDeleter(p: Ptr, d: Deleter, ledger: Ledger, allocFails: bool) returns (r: Option<SharedPtr>)
      modifies ledger
      ensures var fault := if allocFails then AllocationFails else NoFault;
              ledger.events == old(ledger.events) + BuildEffects(d, StdAllocator, p, fault, old(ledger.nextStorage))
      ensures r.Some? <==> !allocFails
      ensures ledger.nextStorage == old(ledger.nextStorage) + (if allocFails then 0 else 1)
      ensures r.Some? ==> fresh(r.value) && fresh(r.value.state) && fresh(r.value.state.base) &&
                          r.value.SoleOwner(p, d, StdAllocator, old(ledger.nextStorage), ledger) &&
                          r.value.Get() == p && r.value.UseCount() == 1 && r.value.Unique()
    {
      var s := SharedState.WithDeleter(p, d, ledger, allocFails);
      if s.None? {
        return None;
      }
      var sp := new SharedPtr.Pair(p, s.value);
      UseCountOne(sp.state);
      r := Some(sp);
    }

    /** `shared_ptr(nullptr_t, D d)`: a block that owns the null pointer yet runs `d` on it when
        released; `get()` is null and `use_count()` is 1. */
    static method NullWithDeleter(d: Deleter, ledger: Ledger, allocFails: bool) returns (r: Option<SharedPtr>)
      modifies ledger
      ensures var fault := if allocFails then AllocationFails else NoFault;
              ledger.events == old(ledger.events) + BuildEffects(d, StdAllocator, Null, fault, old(ledger.nextStorage))
      ensures r.Some? <==> !allocFails
      ensures ledger.nextStorage == old(ledger.nextStorage) + (if allocFails then 0 else 1)
      ensures r.Some? ==> fresh(r.value) && fresh(r.value.state) && fresh(r.value.state.base) &&
                          r.value.SoleOwner(Null, d, StdAllocator, old(ledger.nextStorage), ledger) &&
                          r.value.Get() == Null && !r.value.ToBool() && r.value.UseCount() == 1
    {
      r := WithDeleter(Null, d, ledger, allocFails);
    }

    /** `shared_ptr(Y* p, D d, A a)`: the block's storage comes from `a`. Whatever throws, `d(p)`
        has run and any storage obtained has been given back. */
    static method WithAllocator(p: Ptr, d: Deleter, a: Allocator, ledger: Ledger, fault: Fault)
      returns (r: Option<SharedPtr>)
      modifies ledger
      ensures ledger.events == old(ledger.events) + BuildEffects(d, a, p, fault, old(ledger.nextStorage))
      ensures r.Some? <==> fault == NoFault
      ensures ledger.nextStorage == old(ledger.nextStorage) + (if fault == AllocationFails then 0 else 1)
      ensures r.Some? ==> fresh(r.value) && fresh(r.value.state) && fresh(r.value.state.base) &&
                          r.value.SoleOwner(p, d, a, old(ledger.nextStorage), ledger) &&
                          r.value.Get() == p && r.value.UseCount() == 1 && r.value.Unique()
    {
      var s := SharedState.WithAllocator(p, d, a, ledger, fault);
      if s.None? {
        return None;
      }
      var sp := new SharedPtr.Pair(p, s.value);
      UseCountOne(sp.state);
      r := Some(sp);
    }

    /** `shared_ptr(nullptr_t, D d, A a)`. */
    static method NullWithAllocator(d: Deleter, a: Allocator, ledger: Ledger, fault: Fault)
      returns (r: Option<SharedPtr>)
      modifies ledger
      ensures ledger.events == old(ledger.events) + BuildEffects(d, a, Null, fault, old(ledger.nextStorage))
      ensures r.Some? <==> fault == NoFault
      ensures ledger.nextStorage == old(ledger.nextStorage) + (if fault == AllocationFails then 0 else 1)
      ensures r.Some? ==> fresh(r.value) && fresh(r.value.state) && fresh(r.value.state.base) &&
                          r.value.SoleOwner(Null, d, a, old(ledger.nextStorage), ledger) &&
                          r.value.Get() == Null && !r.value.ToBool() && r.value.UseCount() == 1
    {
      r := WithAllocator(Null, d, a, ledger, fault);
    }

    /** The aliasing constructor `shared_ptr(r, p)`: share `r`'s block (if any) but report `p`. */
    constructor Aliasing(r: SharedPtr, p: Ptr)
      requires r.Valid()
      modifies r.state.base
      ensures Valid() && r.Valid() && fresh(state)
      ensures Get() == p && (ToBool() <==> p != Null)
      ensures state.base == r.state.base
      ensures UseCount() == r.UseCount()
      ensures r.UseCount() == old(r.UseCount()) + (if r.state.base == null then 0 else 1)
      ensures r.state.base != null ==> r.state.base.Abs() == Protocol.Copy(old(r.state.base.Abs())) &&
                                       r.state.base.owners == old(r.state.base.owners) + {state}
    {
      ptr := p;
      state := new SharedState.Copy(r.state);
    }

    /** The copy constructor, also from a `shared_ptr<Y>` whose `Y*` converts: both handles report
        the same pointer and the same count, one more than before when `r` owns a block. */
    constructor Copy(r: SharedPtr)
      requires r.Valid()
      modifies r.state.base
      ensures Valid() && r.Valid() && fresh(state)
      ensures Get() == r.Get() && state.base == r.state.base
      ensures UseCount() == r.UseCount()
      ensures r.UseCount() == old(r.UseCount()) + (if r.state.base == null then 0 else 1)
      ensures r.state.base != null ==> r.state.base.Abs() == Protocol.Copy(old(r.state.base.Abs())) &&
                                       r.state.base.owners == old(r.state.base.owners) + {state}
    {
      ptr := r.ptr;
      state := new SharedState.Copy(r.state);
    }

    /** The move constructor, also from a `shared_ptr<Y>` whose `Y*` converts: this handle takes
        over `r`'s pointer and share, counts are untouched, and `r` is left empty. */
    constructor Move(r: SharedPtr)
      requires r.Valid()
      modifies r`ptr, r.state, r.state.base
      ensures Valid() && r.Valid() && fresh(state) && r.state == old(r.state)
      ensures Get() == old(r.Get()) && state.base == old(r.state.base)
      ensures UseCount() == old(r.UseCount())
      ensures state.base != null ==> state.base.Abs() == old(r.state.base.Abs()) &&
                                     state.base.owners == old(r.state.base.owners) - {r.state} + {state}
      ensures r.Get() == Null && !r.ToBool() && r.UseCount() == 0
    {
      ptr := r.ptr;
      state := new SharedState.Move(r.state);
      r.ptr := Null;
    }

    /** `swap(r)`: exchange pointers and states; no count changes. */
    method Swap(r: SharedPtr)
      requires Valid() && r.Valid()
      modifies this, r
      ensures Valid() && r.Valid()
      ensures ptr == old(r.ptr) && r.ptr == old(ptr)
      ensures state == old(r.state) && r.state == old(state)
      ensures UseCount() == old(r.UseCount()) && r.UseCount() == old(UseCount())
    {
      var p, s := ptr, state;
      ptr, state := r.ptr, r.state;
      r.ptr, r.state := p, s;
    }

    /** The constructor from `std::unique_ptr<Y, D>&&`: an empty source gives an empty handle;
        otherwise the pointer is released from `u` and owned through a new block with `u`'s
        deleter. If building that block throws, the deleter has disposed of the pointer. */
    static method FromUnique(u: UniquePtr, ledger: Ledger, allocFails: bool) returns (r: Option<SharedPtr>)
      modifies u, ledger
      ensures u.ptr == Null
      ensures old(u.ptr) == Null ==>
        ledger.events == old(ledger.events) && ledger.nextStorage == old(ledger.nextStorage) &&
        r.Some? && fresh(r.value) && r.value.Valid() && r.value.Get() == Null && r.value.UseCount() == 0
      ensures old(u.ptr) != Null ==>
        var fault := if allocFails then AllocationFails else NoFault;
        ledger.events == old(ledger.events) + BuildEffects(u.deleter, StdAllocator, old(u.ptr), fault, old(ledger.nextStorage)) &&
        (r.Some? <==> !allocFails) &&
        ledger.nextStorage == old(ledger.nextStorage) + (if allocFails then 0 else 1) &&
        (r.Some? ==> fresh(r.value) && fresh(r.value.state) && fresh(r.value.state.base) &&
                     r.value.SoleOwner(old(u.ptr), u.deleter, StdAllocator, old(ledger.nextStorage), ledger) &&
                     r.value.Get() == old(u.ptr) && r.value.UseCount() == 1)
    {
      var sp := new SharedPtr.Empty();
      if u.ptr != Null {
        var p := u.Release();
        var ok := sp.TakeOver(p, u.deleter, ledger, allocFails);
        if !ok {
          return None;
        }
        UseCountOne(sp.state);
      }
      r := Some(sp);
    }

    /** `swap(shared_ptr{p, d})` on an empty handle: build a temporary owner of `p` with deleter
        `d`, swap it into this handle and destroy the temporary, which is then empty. */
    method TakeOver(p: Ptr, d: Deleter, ledger: Ledger, allocFails: bool) returns (ok: bool)
      requires Valid() && state.base == null
      modifies this, state, ledger
      ensures var fault := if allocFails then AllocationFails else NoFault;
              ledger.events == old(ledger.events) + BuildEffects(d, StdAllocator, p, fault, old(ledger.nextStorage))
      ensures ok <==> !allocFails
      ensures ledger.nextStorage == old(ledger.nextStorage) + (if allocFails then 0 else 1)
      ensures ok ==> fresh(state) && fresh(state.base) && SoleOwner(p, d, StdAllocator, old(ledger.nextStorage), ledger)
      ensures !ok ==> ptr == old(ptr) && state == old(state)
    {
      var t := WithDeleter(p, d, ledger, allocFails);
      if t.None? {
        return false;
      }
      var tmp := t.value;
      Swap(tmp);
      tmp.Destruct();
      ok := true;
    }

    /** The destructor: the state's destructor gives up this handle's share. */
    method Destruct()
      requires Valid()
      modifies Reach()
      ensures ptr == old(ptr) && state == old(state) && state.base == null && UseCount() == 0
      ensures old(state.base) != null ==>
        var b := old(state.base);
        b.Valid() && b.owners == old(b.owners) - {state} &&
        b.Abs() == Protocol.Release(old(b.Abs())) &&
        b.ledger.events == old(b.ledger.events) +
          (if old(b.owners) == {state} then [Disposed(b.deleter, b.ptr), Deallocated(b.alloc, b.storage)] else [])
    {
      state.Destruct();
    }
  }

  /** `std::swap(a, b)` for two handles. */
  method SwapHandles(a: SharedPtr, b: SharedPtr)
    requires a.Valid() && b.Valid()
    modifies a, b
    ensures a.Valid() && b.Valid()
    ensures a.Get() == old(b.Get()) && b.Get() == old(a.Get())
    ensures a.state == old(b.state) && b.state == old(a.state)
    ensures a.UseCount() == old(b.UseCount()) && b.UseCount() == old(a.UseCount())
  {
    a.Swap(b);
  }
}
