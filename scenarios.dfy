/** Client code that follows the cases of src/tests/tests.cpp; each assertion is what the
    corresponding case expects, derived from the contracts of module Experimental alone. */
module Scenarios {
  import opened Effects
  import opened Protocol
  import opened Detail
  import opened Experimental

  method DefaultConstructor() {
    var sp := new SharedPtr.Empty();
    assert sp.UseCount() == 0 && sp.Get() == Null;
  }

  method ConstructorPtr(p: Ptr)
    requires p != Null
  {
    var ledger := new Ledger();
    var r := SharedPtr.FromRaw(p, ledger, false);
    var sp := r.value;
    assert sp.UseCount() == 1 && sp.Get() == p;
  }

  /** With one owner, a custom deleter and a custom allocator: nothing is disposed of or given
      back while the owner lives; afterwards the deleter has run once and the storage is back. */
  method ConstructorPtrDeleterAllocator(p: Ptr, d: Deleter, a: Allocator)
    requires p != Null
  {
    var ledger := new Ledger();
    var r := SharedPtr.WithAllocator(p, d, a, ledger, NoFault);
    var sp := r.value;
    assert sp.UseCount() == 1 && sp.Get() == p;
    assert ledger.events == [Allocated(a, 0)];
    assert Disposals(ledger.events, p) == 0 && Deallocations(ledger.events) == 0;
    sp.Destruct();
    SingleOwnerLifetime(d, a, p, 0);
    assert Disposals(ledger.events, p) == 1;
    assert Allocations(ledger.events) == Deallocations(ledger.events) == 1;
  }

  /** A null pointer with a deleter still gets a block, and the deleter still runs once. */
  method ConstructorNullptrDeleter(d: Deleter) {
    var ledger := new Ledger();
    var r := SharedPtr.NullWithDeleter(d, ledger, false);
    var sp := r.value;
    assert sp.UseCount() == 1 && sp.Get() == Null;
    sp.Destruct();
    SingleOwnerLifetime(d, StdAllocator, Null, 0);
    assert Disposals(ledger.events, Null) == 1;
  }

  method ConstructorAliasing(b: Ptr, val: Ptr)
    requires b != Null && val != Null
  {
    var ledger := new Ledger();
    var r := SharedPtr.FromRaw(b, ledger, false);
    var p1 := r.value;
    var p2 := new SharedPtr.Copy(p1);
    var sp := new SharedPtr.Aliasing(p1, val);
    assert sp.Get() == val && p1.UseCount() == sp.UseCount() == 3;
    assert p2.Valid() && p2.UseCount() == 3;
  }

  method ConstructorAliasingNull(b: Ptr)
    requires b != Null
  {
    var ledger := new Ledger();
    var r := SharedPtr.FromRaw(b, ledger, false);
    var p1 := r.value;
    var p2 := new SharedPtr.Copy(p1);
    var sp := new SharedPtr.Aliasing(p1, Null);
    assert sp.Get() == Null && !sp.ToBool() && p1.UseCount() == sp.UseCount();
  }

  method ConstructorAliasingEmpty(val: Ptr)
    requires val != Null
  {
    var p1 := new SharedPtr.Empty();
    var sp := new SharedPtr.Aliasing(p1, val);
    assert sp.Get() == val && sp.ToBool() && p1.UseCount() == 0 && sp.UseCount() == 0;
  }

  method CopyConstructor(a: Ptr)
    requires a != Null
  {
    var ledger := new Ledger();
    var r := SharedPtr.FromRaw(a, ledger, false);
    var p := r.value;
    var sp := new SharedPtr.Copy(p);
    assert p.Get() == sp.Get() && p.UseCount() == sp.UseCount() == 2;
  }

  method CopyConstructorEmpty() {
    var p := new SharedPtr.Empty();
    var sp := new SharedPtr.Copy(p);
    assert p.Get() == sp.Get() && p.UseCount() == sp.UseCount() == 0;
  }

  method MoveConstructor(a: Ptr)
    requires a != Null
  {
    var ledger := new Ledger();
    var r := SharedPtr.FromRaw(a, ledger, false);
    var p := r.value;
    var sp := new SharedPtr.Move(p);
    assert sp.Get() == a && p.Get() == Null && p.UseCount() == 0 && !p.ToBool();
    assert sp.UseCount() == 1;
  }

  /** Moving one of two owners leaves the other one a valid owner of the same block. */
  method MoveKeepsOtherOwner(a: Ptr)
    requires a != Null
  {
    var ledger := new Ledger();
    var r := SharedPtr.FromRaw(a, ledger, false);
    var p := r.value;
    var q := new SharedPtr.Copy(p);
    var sp := new SharedPtr.Move(p);
    assert sp.UseCount() == 2 && q.Valid() && q.UseCount() == 2;
  }

  method MoveConstructorEmpty() {
    var p := new SharedPtr.Empty();
    var sp := new SharedPtr.Move(p);
    assert sp.Get() == Null && p.Get() == Null && p.UseCount() == 0 && sp.UseCount() == 0;
  }

  /** Build an owner over `a` with deleter `d` and copy it: both report a count of 2. */
  method BuildAndCopy(a: Ptr, d: Deleter) returns (p: SharedPtr, q: SharedPtr, ghost b: ControlBlock, ledger: Ledger)
    requires a != Null
    ensures fresh(p) && fresh(q) && fresh(p.state) && fresh(q.state) && fresh(b) && fresh(ledger)
    ensures p.Valid() && q.Valid() && p.Get() == a && p.state.base == b && q.state.base == b
    ensures p.UseCount() == q.UseCount() == 2 && b.owners == {p.state, q.state} && p.state != q.state
    ensures b.Abs() == Protocol.Copy(Fresh) && b.ptr == a && b.deleter == d && b.alloc == StdAllocator
    ensures b.storage == 0 && b.ledger == ledger && ledger.events == [Allocated(StdAllocator, 0)]
  {
    ledger := new Ledger();
    var r := SharedPtr.WithDeleter(a, d, ledger, false);
    p := r.value;
    b := p.state.base;
    q := new SharedPtr.Copy(p);
  }

  /** Copy, destroy the copy, destroy the original: the count goes 1, 2, 1, and the deleter
      runs once, only at the end. */
  method CopyThenDestroyBoth(a: Ptr, d: Deleter)
    requires a != Null
  {
    var p, q, b, ledger := BuildAndCopy(a, d);
    var ps := p.state;
    assert p !in q.Reach() && ps !in q.Reach();
    q.Destruct();
    assert p.state == ps && ps.base == b && b.owners == {ps};
    assert p.UseCount() == 1 && ledger.events == [Allocated(StdAllocator, 0)];
    p.Destruct();
    SingleOwnerLifetime(d, StdAllocator, a, 0);
    assert Disposals(ledger.events, a) == 1;
    assert Dead(b.Abs());
  }

  /** If the block cannot be allocated, `delete p` has run and no storage is held. */
  method ConstructorPtrAllocationFails(a: Ptr)
    requires a != Null
  {
    var ledger := new Ledger();
    var r := SharedPtr.FromRaw(a, ledger, true);
    assert r.None?;
    BuildDisposesOnFailure(DefaultDelete, StdAllocator, a, AllocationFails, 0);
    assert Disposals(ledger.events, a) == 1 && Allocations(ledger.events) == 0;
  }

  /** If the block cannot be constructed in the storage obtained, the storage is given back and
      `d(p)` has run. */
  method ConstructorPtrDeleterAllocatorConstructionFails(a: Ptr, d: Deleter, al: Allocator)
    requires a != Null
  {
    var ledger := new Ledger();
    var r := SharedPtr.WithAllocator(a, d, al, ledger, ConstructionFails);
    assert r.None? && ledger.events == BuildEffects(d, al, a, ConstructionFails, 0);
    BuildDisposesOnFailure(d, al, a, ConstructionFails, 0);
    assert Disposals(ledger.events, a) == 1 && Allocations(ledger.events) == Deallocations(ledger.events);
  }

  method FromEmptyUnique(d: Deleter) {
    var ledger := new Ledger();
    var u := new UniquePtr(Null, d);
    var r := SharedPtr.FromUnique(u, ledger, false);
    assert r.Some? && r.value.UseCount() == 0 && r.value.Get() == Null;
  }

  method FromUnique(b: Ptr, d: Deleter)
    requires b != Null
  {
    var ledger := new Ledger();
    var u := new UniquePtr(b, d);
    var r := SharedPtr.FromUnique(u, ledger, false);
    assert r.Some? && r.value.UseCount() == 1 && r.value.Get() == b && u.ptr == Null;
  }

  method SwapExchanges(a: Ptr)
    requires a != Null
  {
    var ledger := new Ledger();
    var r := SharedPtr.FromRaw(a, ledger, false);
    var p := r.value;
    var q := new SharedPtr.Empty();
    SwapHandles(p, q);
    assert q.Get() == a && q.UseCount() == 1 && p.Get() == Null && p.UseCount() == 0;
  }
}
