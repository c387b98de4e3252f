/** Values the smart pointer passes around, and the ledger that records what its
    deleters and allocators do (the role `test_state` plays for the test deleter
    and the test allocator). */
module Effects {

  datatype Option<T> = None | Some(value: T)

  /** A raw pointer. Pointer types are erased: converting a `Y*` to a `T*` keeps the address. */
  datatype Ptr = Null | Addr(addr: nat)

  /** The deleter a control block applies to its pointer: `delete p` or a user-supplied one. */
  datatype Deleter = DefaultDelete | CustomDeleter(id: nat)

  /** The allocator a control block's storage comes from: `new`/`std::allocator` or a user-supplied one. */
  datatype Allocator = StdAllocator | CustomAllocator(id: nat)

  /** One observable side effect. */
  datatype Event =
    | Allocated(alloc: Allocator, storage: nat)    // storage for one control block obtained
    | Deallocated(alloc: Allocator, storage: nat)  // that storage given back
    | Disposed(deleter: Deleter, ptr: Ptr)         // the deleter invoked on a pointer

  /** How many times the deleter ran on `p` (the test deleter's `deleter_count`). */
  function Disposals(es: seq<Event>, p: Ptr): (n: nat)
    ensures n <= |es|
    ensures n == 0 <==> forall i :: 0 <= i < |es| ==> !(es[i].Disposed? && es[i].ptr == p)
  {
    if es == [] then 0
    else (if es[0].Disposed? && es[0].ptr == p then 1 else 0) + Disposals(es[1..], p)
  }

  /** How many control-block storages were obtained (`allocated_bytes`, in blocks). */
  function Allocations(es: seq<Event>): (n: nat)
    ensures n <= |es|
    ensures n == 0 <==> forall i :: 0 <= i < |es| ==> !es[i].Allocated?
  {
    if es == [] then 0 else (if es[0].Allocated? then 1 else 0) + Allocations(es[1..])
  }

  /** How many control-block storages were given back (`deallocated_bytes`, in blocks). */
  function Deallocations(es: seq<Event>): (n: nat)
    ensures n <= |es|
    ensures n == 0 <==> forall i :: 0 <= i < |es| ==> !es[i].Deallocated?
  {
    if es == [] then 0 else (if es[0].Deallocated? then 1 else 0) + Deallocations(es[1..])
  }

  /** The three counts add up over consecutive stretches of a history. */
  lemma {:induction false} CountsAppend(a: seq<Event>, b: seq<Event>, p: Ptr)
    ensures Disposals(a + b, p) == Disposals(a, p) + Disposals(b, p)
    ensures Allocations(a + b) == Allocations(a) + Allocations(b)
    ensures Deallocations(a + b) == Deallocations(a) + Deallocations(b)
  {
    if a != [] {
      assert (a + b)[1..] == a[1..] + b;
      CountsAppend(a[1..], b, p);
    } else {
      assert a + b == b;
    }
  }

  /** The record of side effects shared by the deleters and allocators under observation. */
  class Ledger {
    ghost var events: seq<Event>
    /** Address handed out by the next successful allocation. */
    var nextStorage: nat

    constructor ()
      ensures events == [] && nextStorage == 0
    {
      events := [];
      nextStorage := 0;
    }

    /** Invoke deleter `d` on `p`: `delete p` for the default deleter, `d(p)` otherwise. */
    method Invoke(d: Deleter, p: Ptr)
      modifies this`events
      ensures events == old(events) + [Disposed(d, p)]
    {
      events := events + [Disposed(d, p)];
    }

    /** `allocate(alloc, 1)` for one control block; `fails` stands for the allocator throwing. */
    method Allocate(a: Allocator, fails: bool) returns (r: Option<nat>)
      modifies this
      ensures fails ==> r == None && events == old(events) && nextStorage == old(nextStorage)
      ensures !fails ==> r == Some(old(nextStorage)) && nextStorage == old(nextStorage) + 1
      ensures !fails ==> events == old(events) + [Allocated(a, old(nextStorage))]
    {
      if fails {
        r := None;
      } else {
        r := Some(nextStorage);
        events := events + [Allocated(a, nextStorage)];
        nextStorage := nextStorage + 1;
      }
    }

    /** `deallocate(alloc, storage, 1)`. */
    method Deallocate(a: Allocator, storage: nat)
      modifies this`events
      ensures events == old(events) + [Deallocated(a, storage)]
    {
      events := events + [Deallocated(a, storage)];
    }
  }
}
