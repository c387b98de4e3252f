# shared_ptr 2.0 — the reference-counting protocol in Dafny

This project models the core of `experimental::shared_ptr` from `src/include/shared_ptr_2.h`.
The core is a shared-ownership smart pointer. Each owning handle refers to a heap control block
that holds two counters: the shared count and the weak count. When the last owner goes away the
block runs its deleter on the owned pointer. When the weak count then drops to zero, the block
gives its own storage back to its allocator.

The model has five files:

- `effects.dfy` (module `Effects`): the values the pointer works with. Pointers, deleters and
  allocators are plain values. `Ledger` records every deleter call, allocation and deallocation,
  the way the test deleter and test allocator write to their shared `test_state`.
- `protocol.dfy` (module `Protocol`): the protocol as pure functions. It covers the counters and
  the teardown steps of one `release()`, whole lifetimes made of copies and destructions, and the
  side effects of each constructor on success and on each failure.
- `detail.dfy` (module `Detail`, the source's `detail` namespace): `alloc_guard`, the control
  block (`state_base` plus `state`) and `shared_state`, as classes whose fields their methods
  update in place. Each method's contract ties the new state to the pure definitions.
  - The ghost set `owners` records which `shared_state` handles own a share of a block.
  - The block's invariant says the shared count equals the number of those handles.
- `shared_ptr.dfy` (module `Experimental`): the `shared_ptr` façade. It pairs an observed pointer
  with a `shared_state`.
- `scenarios.dfy` (module `Scenarios`): client methods that follow the cases of
  `src/tests/tests.cpp`. Each one derives that case's expected counts from the contracts alone.

Modelling choices:

- An exception thrown while a control block is being built is modelled as an input. Failing
  constructors are static methods that return `None` when the exception propagates. A `Fault`
  says where building fails: obtaining storage, or constructing in it.
- Atomic counters are plain integers, updated one step at a time.

### Notes on the source

- `shared_ptr::swap` calls `std::swap` on two `shared_state` objects. `shared_state` declares a
  move constructor but no move assignment, so that call needs an assignment the class does not
  have. The model exchanges the two handles' states, which is the evident intent.
- The `unique_ptr` constructor passes a temporary to `swap(shared_ptr&)`. Standard C++ does not
  let a temporary bind to that non-const reference. The model performs the intended swap with a
  named temporary (`TakeOver`).
- The constructor from `weak_ptr` (lines 304-311) reads `r.expired` as a data member. No such
  member exists.
- The header only forward-declares `weak_ptr` (shared_ptr_2.h:173-174), and nothing in it raises
  the weak count. The weak count therefore only ever takes its single 1 → 0 step inside
  `release()`.

## Model

| member | source | states |
|---|---|---|
| `Effects.Disposals` | src/tests/tests.cpp:36-46 | the deleter count on a history: zero exactly when no deleter call on that pointer is recorded |
| `Effects.Allocations` | src/tests/tests.cpp:58-64 | the number of storages obtained: zero exactly when no allocation is recorded |
| `Effects.Deallocations` | src/tests/tests.cpp:65-71 | the number of storages given back: zero exactly when no deallocation is recorded |
| `Effects.Ledger.Invoke` | src/include/shared_ptr_2.h:97 | invoking a deleter on a pointer records exactly that one call |
| `Effects.Ledger.Allocate` | src/include/shared_ptr_2.h:137 | a failing allocation records nothing; a successful one records one allocation at a new address |
| `Effects.Ledger.Deallocate` | src/include/shared_ptr_2.h:23 | giving storage back records exactly that storage and allocator |
| `Protocol.Teardown` | src/include/shared_ptr_2.h:69-77 | `release()` runs the deleter exactly when the shared count goes from 1 to 0, and runs `destroy` exactly when the weak count then also reaches 0; `destroy` never runs before `release_ptr` |
| `Protocol.ReleaseFromLive` | src/include/shared_ptr_2.h:69-77 | a release on a live block lowers the shared count by one; it tears the block down completely exactly when it was the last owner, and otherwise leaves the block live |
| `Protocol.CopyFromLive` | src/include/shared_ptr_2.h:148-153 | a copy raises the shared count by exactly one, leaves the weak count alone and runs no teardown |
| `Protocol.RunTracksOwners` | src/include/shared_ptr_2.h:148-165 | over any sequence of handle copies and destructions, the shared count equals 1 plus copies minus destructions. The block is torn down exactly when that reaches 0, and its history is then one `release_ptr` followed by one `destroy` |
| `Protocol.RunDefinedIff` | src/include/shared_ptr_2.h:148-165 | a sequence of copies and destructions is possible exactly when no proper prefix already released every owner |
| `Protocol.DeleterRunsAtLastRelease` | src/include/shared_ptr_2.h:69-77 | over any lifetime of a fresh block, the deleter (and then `destroy`) runs in a step exactly when that step destroys the only remaining owner; before that step nothing has been torn down |
| `Protocol.Observe` | src/include/shared_ptr_2.h:97-104 | each teardown step becomes one ledger entry: `release_ptr` is a deleter call on the stored pointer, `destroy` gives back the block's own storage to its allocator |
| `Protocol.BuildDisposesOnFailure` | src/include/shared_ptr_2.h:112-146 | a constructor that throws has run the deleter on the pointer exactly once and holds no storage; one that succeeds has run no deleter and holds exactly one storage |
| `Protocol.SingleOwnerLifetime` | src/tests/tests.cpp:117-135 | build with a deleter and allocator, then release the one owner: one allocation, one deleter call, then one deallocation, so the deleter count is 1 and deallocations equal allocations |
| `Detail.AllocGuard.constructor` | src/include/shared_ptr_2.h:17 | the guard starts out holding the storage it is given |
| `Detail.AllocGuard.Release` | src/include/shared_ptr_2.h:26 | after `release()` the guard holds no storage |
| `Detail.AllocGuard.Destruct` | src/include/shared_ptr_2.h:20-25 | the guard gives back its storage exactly when it still holds one, and records nothing otherwise |
| `Detail.ControlBlock.constructor` | src/include/shared_ptr_2.h:61-95 | a new block has shared and weak count 1, no teardown history, no owners yet, and stores the pointer, deleter, allocator and storage it was given |
| `Detail.ControlBlock.ReleasePtr` | src/include/shared_ptr_2.h:97 | runs the stored deleter on the stored pointer once and records the `release_ptr` step |
| `Detail.ControlBlock.Destroy` | src/include/shared_ptr_2.h:98-104 | gives the block's storage back to its allocator through an `alloc_guard` and records the `destroy` step |
| `Detail.ControlBlock.Release` | src/include/shared_ptr_2.h:69-77 | the counters and history after `release()` are those of `Protocol.Release`, and the ledger gains exactly the effects of the teardown steps it ran |
| `Detail.UseCountOne` | src/include/shared_ptr_2.h:167 | a valid handle reports a count of 1 exactly when it is the only owner of its block |
| `Detail.SharedState.UseCount` | src/include/shared_ptr_2.h:167 | `use_count()` is the number of handles owning the block, and is 0 exactly when the handle is empty |
| `Detail.SharedState.Empty` | src/include/shared_ptr_2.h:108-110 | a default-constructed handle owns no block |
| `Detail.SharedState.Adopt` | src/include/shared_ptr_2.h:113 | a handle initialised with a freshly built block is that block's only owner |
| `Detail.SharedState.FromRaw` | src/include/shared_ptr_2.h:112-119 | on success the handle is the sole owner of a fresh block with the default deleter over `p`. If obtaining the block throws, `delete p` has run and the exception propagates. The next storage address advances exactly on success |
| `Detail.SharedState.WithDeleter` | src/include/shared_ptr_2.h:121-128 | as `FromRaw`, with deleter `d` stored in the block and run as `d(p)` on failure |
| `Detail.SharedState.WithAllocator` | src/include/shared_ptr_2.h:130-146 | the block's storage comes from `a`. If allocation throws, `d(p)` runs. If construction throws, the guard gives the storage back and then `d(p)` runs. On success the handle is the sole owner. The next storage address advances exactly when storage was obtained |
| `Detail.SharedState.Copy` | src/include/shared_ptr_2.h:148-153 | the copy shares the source's block, whose shared count rises by exactly one with the copy as a new owner; copying an empty handle changes nothing |
| `Detail.SharedState.Move` | src/include/shared_ptr_2.h:155-158 | the new handle takes over the source's block and share with counts unchanged; the source is left empty |
| `Detail.SharedState.Destruct` | src/include/shared_ptr_2.h:160-165 | destruction releases the handle's share: the shared count drops by one. The deleter runs and then the storage is given back exactly when this handle was the only owner; an empty handle changes nothing |
| `Experimental.SharedPtr.Get` | src/include/shared_ptr_2.h:360 | `get()` is null exactly when the handle converts to false |
| `Experimental.SharedPtr.UseCount` | src/include/shared_ptr_2.h:363 | `use_count()` is the number of handles sharing ownership, and is 0 exactly when nothing is owned |
| `Experimental.SharedPtr.Unique` | src/include/shared_ptr_2.h:364 | `unique()` holds exactly when this handle is the only owner of its block |
| `Experimental.SharedPtr.ToBool` | src/include/shared_ptr_2.h:365 | `operator bool` depends only on the observed pointer being non-null, not on the count |
| `Experimental.SharedPtr.Empty` | src/include/shared_ptr_2.h:192 | a default-constructed handle (and one built from `nullptr`, line 331) reports `get()` null, `use_count()` 0 and converts to false |
| `Experimental.SharedPtr.FromRaw` | src/include/shared_ptr_2.h:194-206 | on success: `get() == p`, `use_count() == 1`, `unique()`, sole owner of a fresh block with the default deleter. On failure, `delete p` has run |
| `Experimental.SharedPtr.WithDeleter` | src/include/shared_ptr_2.h:208-221 | as `FromRaw`, with deleter `d`; on failure `d(p)` has run |
| `Experimental.SharedPtr.WithAllocator` | src/include/shared_ptr_2.h:223-246 | as `WithDeleter`, with the block in storage from `a`; on either failure `d(p)` has run and any storage obtained is given back |
| `Experimental.SharedPtr.NullWithDeleter` | src/include/shared_ptr_2.h:248-259 | a null pointer with a deleter still gets a block: `get()` null, `use_count() == 1`, and the block will run `d` on null |
| `Experimental.SharedPtr.NullWithAllocator` | src/include/shared_ptr_2.h:261-279 | as `NullWithDeleter`, with the block in storage from `a` and the allocator-form failure behaviour |
| `Experimental.SharedPtr.Aliasing` | src/include/shared_ptr_2.h:281-284 | the result reports `p` and shares `r`'s block, with the same count as `r` (one higher than before when `r` owns a block). The new handle joins the block's owners and every earlier owner stays one. Its truth value depends on `p` alone, so an alias of an empty `r` has count 0 yet is true when `p` is non-null |
| `Experimental.SharedPtr.Copy` | src/include/shared_ptr_2.h:286-291 | same-type and converting copy: both handles report the same pointer and the same count, one more than before when the source owns a block and 0 for an empty source |
| `Experimental.SharedPtr.Move` | src/include/shared_ptr_2.h:293-302 | same-type and converting move: the destination reports the source's pointer and count, the block's counters are untouched, the destination takes the source's place among the block's owners and every other owner stays one, and the source reports null, count 0 and false |
| `Experimental.SharedPtr.FromUnique` | src/include/shared_ptr_2.h:313-329 | an empty `unique_ptr` gives an empty handle and no side effects. Otherwise the pointer is released from it and owned through a new block with its deleter, and on failure that deleter has disposed of the pointer |
| `Experimental.SharedPtr.TakeOver` | src/include/shared_ptr_2.h:322-327 | swapping a freshly built temporary into an empty handle leaves the handle as the sole owner, and destroying the then empty temporary has no effect |
| `Experimental.SharedPtr.Swap` | src/include/shared_ptr_2.h:346-351 | pointers and states are exchanged, and each handle reports the other's former count: no count changes |
| `Experimental.SharedPtr.Destruct` | src/include/shared_ptr_2.h:334 | destroying the handle destroys its state: the shared count drops by one, and the deleter runs and then the storage goes back exactly when it was the only owner |
| `Experimental.SwapHandles` | src/include/shared_ptr_2.h:466-470 | `std::swap` on two handles exchanges them without changing any count |

## Left out

- `weak_ptr` and everything built on it are not modelled. That includes weak-count increments, `lock`, expiry and the constructor from `weak_ptr` (lines 304-311). The source has only a forward declaration, and that constructor could not compile.
- Atomic memory ordering and concurrent interleavings are not modelled. The counters are sequential integers.
- The counters' 32-bit width (`std::atomic_int`, lines 61-62) is not modelled. `shared` and `weak` are unbounded, so the wrap-around after 2^31 − 1 live owners is not captured either.
- `ebo_helper` is not modelled. It only changes layout; the deleter and allocator are plain fields.
- Members declared without a body have nothing to model. These are the assignment operators, `reset`, `operator*`, `operator->`, `owner_before`, `make_shared`, `allocate_shared`, comparisons, casts, `get_deleter`, the `atomic_*` functions and `hash`.
- Stream output (`operator<<`) is I/O and is not modelled.
- The `static_assert` type checks happen at compile time and are not modelled.
- Pointer types are erased, so a `Y*`-to-`T*` conversion keeps the address. Base-class address adjustment under multiple inheritance is not modelled.
- The converting copy and move constructors are the same members as the same-type ones.
- The `std::ref` deleter in `unique_ptr` adoption behaves like the deleter itself here, since deleters are values.
- Throws while copying a deleter or allocator into the block are not modelled. The block's constructor is `noexcept`, so such a throw ends the program rather than reaching the catch handlers.
- A throw while rebinding the allocator in the allocator-form constructor (line 136) lies inside the function-try-block, so it reaches the catch handler at lines 143-145, where `d(p)` runs and the exception propagates. No storage has been obtained at that point, so `AllocationFails` models it. The rebinding inside `destroy()` (line 100) is in a `noexcept` function: a throw there ends the program, and that is not modelled.
- Finalising a block (`alloc_traits::destroy`) records no effect of its own.
- Each destructor is a `Destruct` method. Afterwards the handle is left empty, so a destroyed handle can never release twice.
- The byte counts of the test allocator are counted in blocks, one allocation per block.
