/** The reference-counting protocol of a control block as pure values: the two counters,
    the teardown steps `release()` runs, and what the constructors of `shared_state`
    leave behind when they succeed or throw. The classes in module Detail are proved
    against these definitions. */
module Protocol {
  import opened Effects

  /** The two teardown steps of a control block: `release_ptr()` (run the deleter) and
      `destroy()` (give the block's storage back). */
  datatype Phase = PtrReleased | Destroyed

  /** `shared_counter_`, `weak_counter_` and the teardown steps that have run so far. */
  datatype Block = Block(shared: int, weak: int, history: seq<Phase>)

  /** A control block as constructed: both counters start at 1, nothing torn down. */
  const Fresh: Block := Block(1, 1, [])

  /** Some owner remains: the resource and the block are both intact. */
  ghost predicate Live(b: Block) {
    b.shared >= 1 && b.weak == 1 && b.history == []
  }

  /** The last owner went away: the deleter ran once, then the storage was given back once. */
  ghost predicate Dead(b: Block) {
    b.shared == 0 && b.weak == 0 && b.history == [PtrReleased, Destroyed]
  }

  ghost predicate Consistent(b: Block) {
    Live(b) || Dead(b)
  }

  /** The teardown steps one `release()` runs on `b`, in the order it runs them. */
  function Teardown(b: Block): (t: seq<Phase>)
    ensures PtrReleased in t <==> b.shared == 1
    ensures Destroyed in t <==> b.shared == 1 && b.weak == 1
    ensures |t| <= 2 && (t != [] ==> t[0] == PtrReleased)
  {
    if b.shared - 1 == 0 then [PtrReleased] + (if b.weak - 1 == 0 then [Destroyed] else [])
    else []
  }

  /** `state_base::release()`: decrement the shared count; at zero run `release_ptr()`, then
      decrement the weak count; at zero run `destroy()`. */
  function Release(b: Block): Block {
    var shared := b.shared - 1;
    Block(shared, if shared == 0 then b.weak - 1 else b.weak, b.history + Teardown(b))
  }

  /** `++base_->shared_counter_` in the copy constructor of `shared_state`. */
  function Copy(b: Block): Block {
    b.(shared := b.shared + 1)
  }

  /** A release by one of several owners only counts down; a release by the only owner
      tears the block down completely, deleter first. */
  lemma ReleaseFromLive(b: Block)
    requires Live(b)
    ensures Consistent(Release(b))
    ensures Release(b).shared == b.shared - 1
    ensures Dead(Release(b)) <==> b.shared == 1
    ensures Live(Release(b)) <==> b.shared > 1
  {
  }

  /** A copy of a live block adds exactly one owner and runs no teardown step. */
  lemma CopyFromLive(b: Block)
    requires Live(b)
    ensures Live(Copy(b)) && Copy(b).shared == b.shared + 1 && Copy(b).weak == b.weak
  {
  }

  // ---------------------------------------------------------------------------------
  // Whole lifetimes: any sequence of handle copies and handle destructions on one block.

  /** Copy-construct one more owning handle, or destroy one. */
  datatype Op = CopyHandle | DropHandle

  function Step(b: Block, op: Op): Block {
    match op
    case CopyHandle => Copy(b)
    case DropHandle => Release(b)
  }

  /** Owners gained minus owners lost over `ops`. */
  function Balance(ops: seq<Op>): int {
    if ops == [] then 0
    else (if ops[0] == CopyHandle then 1 else -1) + Balance(ops[1..])
  }

  /** Apply `ops` in order; `None` once an operation would need a handle to a block that no
      handle owns any more (a use after release, which no program of owners can perform). */
  function Run(b: Block, ops: seq<Op>): Option<Block>
    decreases |ops|
  {
    if ops == [] then Some(b)
    else if b.shared < 1 then None
    else Run(Step(b, ops[0]), ops[1..])
  }

  /** A block all of whose owners are gone admits no further operation. */
  lemma {:induction false} RunFromDead(b: Block, ops: seq<Op>)
    requires Dead(b)
    ensures Run(b, ops) == if ops == [] then Some(b) else None
  {
  }

  lemma {:induction false} BalanceOfPrefix(ops: seq<Op>, k: nat)
    requires 1 <= k <= |ops|
    ensures Balance(ops[..k]) == (if ops[0] == CopyHandle then 1 else -1) + Balance(ops[1..][..k - 1])
  {
    assert ops[..k][1..] == ops[1..][..k - 1];
  }

  /** Starting from a live block, the count after `ops` is the starting count plus the balance
      of copies over destructions; the block is torn down exactly when that reaches zero, and
      then it has run the deleter once and `destroy()` once, in that order. */
  lemma {:induction false} RunTracksOwners(b: Block, ops: seq<Op>)
    requires Live(b)
    ensures Run(b, ops).Some? ==>
      Run(b, ops).value.shared == b.shared + Balance(ops) &&
      Consistent(Run(b, ops).value) &&
      (Dead(Run(b, ops).value) <==> b.shared + Balance(ops) == 0)
    decreases |ops|
  {
    if ops != [] {
      var next := Step(b, ops[0]);
      if ops[0] == CopyHandle {
        CopyFromLive(b);
        RunTracksOwners(next, ops[1..]);
      } else {
        ReleaseFromLive(b);
        if Live(next) {
          RunTracksOwners(next, ops[1..]);
        } else {
          RunFromDead(next, ops[1..]);
        }
      }
    }
  }

  /** A sequence of operations can be carried out from a live block exactly when no proper
      prefix of it has already released every owner. */
  lemma {:induction false} RunDefinedIff(b: Block, ops: seq<Op>)
    requires Live(b)
    ensures Run(b, ops).Some? <==> forall k :: 0 <= k < |ops| ==> b.shared + Balance(ops[..k]) >= 1
    decreases |ops|
  {
    if ops != [] {
      var next := Step(b, ops[0]);
      var d := if ops[0] == CopyHandle then 1 else -1;
      assert next.shared == b.shared + d;
      assert ops[..0] == [];
      forall k | 1 <= k <= |ops|
        ensures b.shared + Balance(ops[..k]) == next.shared + Balance(ops[1..][..k - 1])
      {
        BalanceOfPrefix(ops, k);
      }
      if ops[0] == CopyHandle {
        CopyFromLive(b);
        RunDefinedIff(next, ops[1..]);
        assert (forall k :: 0 <= k < |ops| ==> b.shared + Balance(ops[..k]) >= 1) <==>
          (forall j :: 0 <= j < |ops[1..]| ==> next.shared + Balance(ops[1..][..j]) >= 1) by {
          forall j | 0 <= j < |ops[1..]| ensures b.shared + Balance(ops[..j + 1]) == next.shared + Balance(ops[1..][..j]) {
          }
        }
      } else {
        ReleaseFromLive(b);
        if Live(next) {
          RunDefinedIff(next, ops[1..]);
          assert (forall k :: 0 <= k < |ops| ==> b.shared + Balance(ops[..k]) >= 1) <==>
            (forall j :: 0 <= j < |ops[1..]| ==> next.shared + Balance(ops[1..][..j]) >= 1) by {
            forall j | 0 <= j < |ops[1..]| ensures b.shared + Balance(ops[..j + 1]) == next.shared + Balance(ops[1..][..j]) {
            }
          }
        } else {
          RunFromDead(next, ops[1..]);
          if |ops| > 1 {
            assert b.shared + Balance(ops[..1]) == next.shared + Balance(ops[1..][..0]);
            assert ops[1..][..0] == [];
          }
        }
      }
    }
  }

  lemma {:induction false} RunAppend(b: Block, ops: seq<Op>, op: Op)
    requires Run(b, ops).Some?
    ensures Run(b, ops + [op]) == Run(Run(b, ops).value, [op])
    decreases |ops|
  {
    if ops != [] {
      assert (ops + [op])[1..] == ops[1..] + [op];
      RunAppend(Step(b, ops[0]), ops[1..], op);
    }
  }

  /** Over any lifetime of a freshly built block, one more operation runs the deleter exactly
      when it destroys the only remaining owner; `destroy()` follows in the same step. */
  lemma DeleterRunsAtLastRelease(ops: seq<Op>, op: Op)
    requires Run(Fresh, ops).Some? && Run(Fresh, ops + [op]).Some?
    ensures var before := Run(Fresh, ops).value;
            var after := Run(Fresh, ops + [op]).value;
            before.history == [] &&
            (after.history == [PtrReleased, Destroyed] <==> op == DropHandle && 1 + Balance(ops) == 1) &&
            (after.history == [] <==> !(op == DropHandle && 1 + Balance(ops) == 1))
  {
    RunTracksOwners(Fresh, ops);
    RunAppend(Fresh, ops, op);
    var before := Run(Fresh, ops).value;
    RunTracksOwners(Fresh, ops + [op]);
    if Dead(before) {
      RunFromDead(before, [op]);
    } else if op == CopyHandle {
      CopyFromLive(before);
    } else {
      ReleaseFromLive(before);
    }
  }

  // ---------------------------------------------------------------------------------
  // Observable effects.

  /** The ledger entries teardown steps produce for a block holding pointer `p` with deleter
      `d`, whose storage `storage` came from allocator `a`. */
  function Observe(h: seq<Phase>, d: Deleter, p: Ptr, a: Allocator, storage: nat): (es: seq<Event>)
    ensures |es| == |h|
    ensures forall i :: 0 <= i < |h| ==> es[i] == (if h[i] == PtrReleased then Disposed(d, p) else Deallocated(a, storage))
  {
    if h == [] then []
    else [if h[0] == PtrReleased then Disposed(d, p) else Deallocated(a, storage)] + Observe(h[1..], d, p, a, storage)
  }

  /** Where building a control block may throw: obtaining its storage, or constructing it there
      (only the allocator form can fail at the second point). */
  datatype Fault = NoFault | AllocationFails | ConstructionFails

  /** What a `shared_state` constructor leaves in the ledger: on success the block's storage is
      obtained; when storage cannot be obtained the deleter disposes of `p`; when construction
      fails the guard gives the storage back and then the deleter disposes of `p`. */
  function BuildEffects(d: Deleter, a: Allocator, p: Ptr, fault: Fault, storage: nat): seq<Event> {
    match fault
    case NoFault => [Allocated(a, storage)]
    case AllocationFails => [Disposed(d, p)]
    case ConstructionFails => [Allocated(a, storage), Deallocated(a, storage), Disposed(d, p)]
  }

  /** Failure safety: a construction that throws has disposed of the pointer exactly once and
      holds no storage; one that succeeds has disposed of nothing and holds one storage. */
  lemma BuildDisposesOnFailure(d: Deleter, a: Allocator, p: Ptr, fault: Fault, storage: nat)
    ensures var es := BuildEffects(d, a, p, fault, storage);
            (fault != NoFault ==> Disposals(es, p) == 1 && Allocations(es) == Deallocations(es)) &&
            (fault == NoFault ==> Disposals(es, p) == 0 && Allocations(es) == 1 && Deallocations(es) == 0)
  {
    var es := BuildEffects(d, a, p, fault, storage);
    if fault == ConstructionFails {
      var tail := [Disposed(d, p)];
      assert es == [Allocated(a, storage), Deallocated(a, storage)] + tail;
      CountsAppend([Allocated(a, storage), Deallocated(a, storage)], tail, p);
      assert Disposals(tail, p) == 1;
    }
  }

  /** A whole lifetime with one owner: build, then the owner's release. The deleter has run
      exactly once and every storage obtained has been given back. */
  lemma SingleOwnerLifetime(d: Deleter, a: Allocator, p: Ptr, storage: nat)
    ensures var es := BuildEffects(d, a, p, NoFault, storage) + Observe(Teardown(Fresh), d, p, a, storage);
            es == [Allocated(a, storage), Disposed(d, p), Deallocated(a, storage)] &&
            Disposals(es, p) == 1 && Allocations(es) == 1 && Deallocations(es) == 1
  {
  }
}
