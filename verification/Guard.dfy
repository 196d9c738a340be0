/**
 The per-thread registry of pools with an active batch, and the guards that register a pool for one
 call. Also its behaviour under any sequence of enters and drops, in any drop order.
 */
module Guard {
  import opened Basics

  // ----- the vector operations -----

  /** Removing the element at `k` keeps the order of the others. */
  function RemoveAt<T>(s: seq<T>, k: nat): (r: seq<T>)
    requires k < |s|
    ensures |r| == |s| - 1
    ensures forall j :: 0 <= j < |r| ==> r[j] == s[if j < k then j else j + 1]
  {
    s[..k] + s[k + 1..]
  }

  /** The vector after a guard for `pool` is dropped: its last occurrence is gone. */
  function Dropped(pools: seq<nat>, pool: nat): seq<nat> {
    if pools == [] then []
    else
      var n := |pools| - 1;
      if pools[n] == pool then pools[..n] else Dropped(pools[..n], pool) + [pools[n]]
  }

  lemma {:induction false} DroppedAt(pools: seq<nat>, pool: nat, k: nat)
    requires k < |pools| && pools[k] == pool && pool !in pools[k + 1..]
    ensures Dropped(pools, pool) == RemoveAt(pools, k)
  {
    var n := |pools| - 1;
    if k < n {
      assert pools[n] in pools[k + 1..];
      assert pools[..n][k + 1..] == pools[k + 1..n];
      DroppedAt(pools[..n], pool, k);
      assert RemoveAt(pools, k) == RemoveAt(pools[..n], k) + [pools[n]];
    }
  }

  lemma {:induction false} DroppedNothing(pools: seq<nat>, pool: nat)
    requires pool !in pools
    ensures Dropped(pools, pool) == pools
  {
    if pools != [] {
      DroppedNothing(pools[..|pools| - 1], pool);
    }
  }

  lemma DropUndoesEnter(pools: seq<nat>, pool: nat)
    ensures Dropped(pools + [pool], pool) == pools
  {
    assert (pools + [pool])[..|pools|] == pools;
  }

  lemma {:induction false} DroppedKeepsOthers(pools: seq<nat>, pool: nat, other: nat)
    requires other in pools && other != pool
    ensures other in Dropped(pools, pool)
  {
    var n := |pools| - 1;
    if pools[n] != other {
      DroppedKeepsOthers(pools[..n], pool, other);
    }
  }

  lemma {:induction false} DroppedMembers(pools: seq<nat>, pool: nat)
    requires NoDuplicates(pools)
    ensures NoDuplicates(Dropped(pools, pool))
    ensures forall p :: p in Dropped(pools, pool) <==> p in pools && p != pool
  {
    if k :| 0 <= k < |pools| && pools[k] == pool {
      DroppedAt(pools, pool, k);
    } else {
      DroppedNothing(pools, pool);
    }
  }

  // ----- the registry of one thread -----

  /** One registration. The pool outlives its guards, so its identity is a number here. */
  class ActiveBatchGuard {
    const poolId: nat
    ghost const number: nat

    constructor (poolId: nat, ghost number: nat)
      ensures this.poolId == poolId && this.number == number
    {
      this.poolId := poolId;
      this.number := number;
    }
  }

  ghost function PoolIds(guards: seq<ActiveBatchGuard>): (r: seq<nat>)
    ensures |r| == |guards| && forall k :: 0 <= k < |r| ==> r[k] == guards[k].poolId
  {
    seq(|guards|, k requires 0 <= k < |guards| => guards[k].poolId)
  }

  ghost function Registrations(guards: seq<ActiveBatchGuard>): (r: seq<Registration>)
    ensures |r| == |guards|
    ensures forall k :: 0 <= k < |r| ==> r[k] == Registration(guards[k].number, guards[k].poolId)
  {
    seq(|guards|, k requires 0 <= k < |guards| => Registration(guards[k].number, guards[k].poolId))
  }

  /** The thread-local vector; `live` lists the guards that have not been dropped, oldest first. */
  class ActivePools {
    var pools: seq<nat>
    ghost var live: seq<ActiveBatchGuard>
    ghost var next: nat  // guards handed out so far

    ghost predicate Valid()
      reads this
    {
      NoDuplicates(pools) && pools == PoolIds(live) && Numbered(Registrations(live), next)
    }

    /** The registry as a value, on which the operations below are those of `ApplyOperation`. */
    ghost function Value(): Registry
      reads this
    {
      Registry(pools, Registrations(live), next)
    }

    constructor ()
      ensures Valid() && pools == [] && live == [] && Value() == EMPTY
    {
      pools := [];
      live := [];
      next := 0;
    }

    method Contains(pool: nat) returns (found: bool)
      ensures found <==> pool in pools
    {
      found := false;
      for k := 0 to |pools|
        invariant !found && pool !in pools[..k]
      {
        if pools[k] == pool {
          return true;
        }
      }
    }

    /** The search from the end; on a valid registry it finds the only occurrence. */
    method Rposition(pool: nat) returns (index: Option<nat>)
      ensures index.None? <==> pool !in pools
      ensures index.Some? ==> index.value < |pools| && pools[index.value] == pool && pool !in pools[index.value + 1..]
    {
      var k := |pools|;
      while k > 0
        invariant 0 <= k <= |pools| && pool !in pools[k..]
      {
        k := k - 1;
        if pools[k] == pool {
          return Some(k);
        }
      }
      index := None;
    }

    /** Registers `pool`, or returns `null` when this thread has it registered already. */
    method Enter(pool: nat) returns (guard: ActiveBatchGuard?)
      requires Valid()
      modifies this
      ensures Valid() && Value() == ApplyOperation(old(Value()), Operation.Enter(pool))
      ensures guard == null <==> pool in old(pools)
      ensures guard == null ==> pools == old(pools) && live == old(live)
      ensures guard != null ==>
        fresh(guard) && guard.poolId == pool && pools == old(pools) + [pool] && live == old(live) + [guard]
    {
      var found := Contains(pool);
      if found {
        guard := null;
      } else {
        pools := pools + [pool];
        guard := new ActiveBatchGuard(pool, next);
        live := live + [guard];
        next := next + 1;
      }
    }

    /** Drops a live guard, wherever it stands among the live ones. */
    method Drop(guard: ActiveBatchGuard)
      requires Valid() && guard in live
      modifies this
      ensures Valid() && CanApply(old(Value()), Operation.Drop(guard.number))
      ensures Value() == ApplyOperation(old(Value()), Operation.Drop(guard.number))
      ensures exists k :: 0 <= k < |old(live)| && old(live)[k] == guard && live == RemoveAt(old(live), k)
      ensures pools == Dropped(old(pools), guard.poolId)
      ensures forall p :: p in pools <==> p in old(pools) && p != guard.poolId
    {
      ghost var k :| 0 <= k < |live| && live[k] == guard;
      DropAt(pools, live, next, k);
      RemovePool(guard.poolId);
      live := RemoveAt(live, k);
    }

    method RemovePool(pool: nat)
      modifies this`pools
      ensures pools == Dropped(old(pools), pool)
    {
      var index := Rposition(pool);
      if index.Some? {
        DroppedAt(pools, pool, index.value);
        pools := RemoveAt(pools, index.value);
      } else {
        DroppedNothing(pools, pool);
      }
    }
  }

  /** Dropping the `k`-th live guard is `Operation.Drop` of its number. */
  lemma DropAt(pools: seq<nat>, live: seq<ActiveBatchGuard>, next: nat, k: nat)
    requires NoDuplicates(pools) && pools == PoolIds(live) && Numbered(Registrations(live), next) && k < |live|
    ensures live[k].poolId in pools
    ensures
      var rest := RemoveAt(live, k);
      var after := Registry(Dropped(pools, live[k].poolId), Registrations(rest), next);
      && NoDuplicates(after.pools) && after.pools == PoolIds(rest) && Numbered(after.live, next)
      && (forall p :: p in after.pools <==> p in pools && p != live[k].poolId)
      && CanApply(Registry(pools, Registrations(live), next), Operation.Drop(live[k].number))
      && after == ApplyOperation(Registry(pools, Registrations(live), next), Operation.Drop(live[k].number))
  {
    assert pools[k] == live[k].poolId;
    DroppedAt(pools, live[k].poolId, k);
    DroppedMembers(pools, live[k].poolId);
    RegistrationAt(Registrations(live), next, k);
    assert Registrations(RemoveAt(live, k)) == RemoveAt(Registrations(live), k);
  }

  // ----- any sequence of enters and drops -----

  /** Guards are numbered in the order in which they are handed out. */
  datatype Operation = Enter(pool: nat) | Drop(guard: nat)

  datatype Registration = Registration(guard: nat, pool: nat)

  /** The vector, next to the list of live guards, oldest first. */
  datatype Registry = Registry(pools: seq<nat>, live: seq<Registration>, next: nat)

  const EMPTY := Registry([], [], 0)

  ghost function LivePools(live: seq<Registration>): (r: seq<nat>)
    ensures |r| == |live| && forall k :: 0 <= k < |r| ==> r[k] == live[k].pool
  {
    if live == [] then [] else LivePools(live[..|live| - 1]) + [live[|live| - 1].pool]
  }

  ghost function Without(live: seq<Registration>, guard: nat): seq<Registration> {
    if live == [] then []
    else
      var n := |live| - 1;
      Without(live[..n], guard) + if live[n].guard == guard then [] else [live[n]]
  }

  function PoolOf(live: seq<Registration>, guard: nat): Option<nat> {
    if live == [] then None
    else if live[|live| - 1].guard == guard then Some(live[|live| - 1].pool)
    else PoolOf(live[..|live| - 1], guard)
  }

  predicate CanApply(r: Registry, op: Operation) {
    op.Drop? ==> PoolOf(r.live, op.guard).Some?
  }

  /** Entering consults and extends the vector only; dropping a guard removes by pool, from the end. */
  ghost function ApplyOperation(r: Registry, op: Operation): Registry
    requires CanApply(r, op)
  {
    match op
    case Enter(pool) =>
      if pool in r.pools then r
      else Registry(r.pools + [pool], r.live + [Registration(r.next, pool)], r.next + 1)
    case Drop(guard) =>
      r.(pools := Dropped(r.pools, PoolOf(r.live, guard).value), live := Without(r.live, guard))
  }

  ghost predicate Applicable(ops: seq<Operation>)
    decreases |ops|, 0
  {
    ops == [] || (Applicable(ops[..|ops| - 1]) && CanApply(Registered(ops[..|ops| - 1]), ops[|ops| - 1]))
  }

  ghost function Registered(ops: seq<Operation>): Registry
    requires Applicable(ops)
    decreases |ops|, 1
  {
    if ops == [] then EMPTY
    else ApplyOperation(Registered(ops[..|ops| - 1]), ops[|ops| - 1])
  }

  ghost predicate Numbered(live: seq<Registration>, next: nat) {
    && (forall k :: 0 <= k < |live| ==> live[k].guard < next)
    && (forall j, k :: 0 <= j < k < |live| ==> live[j].guard < live[k].guard)
  }

  lemma {:induction false} WithoutDropsOne(live: seq<Registration>, next: nat, guard: nat)
    requires Numbered(live, next) && NoDuplicates(LivePools(live)) && PoolOf(live, guard).Some?
    ensures Dropped(LivePools(live), PoolOf(live, guard).value) == LivePools(Without(live, guard))
  {
    var n := |live| - 1;
    var init := live[..n];
    assert LivePools(live) == LivePools(init) + [live[n].pool];
    assert LivePools(live)[..n] == LivePools(init);
    if live[n].guard == guard {
      WithoutNothing(init, guard);
    } else {
      WithoutDropsOne(init, next, guard);
      PoolOfIsLive(init, guard);
      assert (Without(init, guard) + [live[n]])[..|Without(init, guard)|] == Without(init, guard);
    }
  }

  lemma {:induction false} PoolOfIsLive(live: seq<Registration>, guard: nat)
    requires PoolOf(live, guard).Some?
    ensures PoolOf(live, guard).value in LivePools(live)
  {
    if live[|live| - 1].guard != guard {
      PoolOfIsLive(live[..|live| - 1], guard);
    }
  }

  lemma {:induction false} WithoutNothing(live: seq<Registration>, guard: nat)
    requires forall k :: 0 <= k < |live| ==> live[k].guard != guard
    ensures Without(live, guard) == live
  {
    if live != [] {
      WithoutNothing(live[..|live| - 1], guard);
    }
  }

  lemma {:induction false} WithoutHas(live: seq<Registration>, guard: nat, g: Registration)
    ensures g in Without(live, guard) <==> g in live && g.guard != guard
  {
    if live != [] {
      var n := |live| - 1;
      WithoutHas(live[..n], guard, g);
      assert live == live[..n] + [live[n]];
    }
  }

  lemma {:induction false} WithoutNumbered(live: seq<Registration>, next: nat, guard: nat)
    requires Numbered(live, next)
    ensures Numbered(Without(live, guard), next)
  {
    if live != [] {
      var n := |live| - 1;
      WithoutNumbered(live[..n], next, guard);
      var w := Without(live[..n], guard);
      forall k | 0 <= k < |w| ensures w[k].guard < live[n].guard {
        WithoutHas(live[..n], guard, w[k]);
      }
    }
  }

  /** A live registration is found by its number, and nothing else goes with it. */
  lemma {:induction false} RegistrationAt(live: seq<Registration>, next: nat, k: nat)
    requires Numbered(live, next) && k < |live|
    ensures PoolOf(live, live[k].guard) == Some(live[k].pool)
    ensures Without(live, live[k].guard) == RemoveAt(live, k)
  {
    var n := |live| - 1;
    if k < n {
      RegistrationAt(live[..n], next, k);
    } else {
      WithoutNothing(live[..n], live[n].guard);
    }
  }

  ghost predicate ListsLiveGuards(r: Registry) {
    NoDuplicates(r.pools) && r.pools == LivePools(r.live) && Numbered(r.live, r.next)
  }

  lemma EnterListsLiveGuards(r: Registry, pool: nat)
    requires ListsLiveGuards(r)
    ensures ListsLiveGuards(ApplyOperation(r, Enter(pool)))
  {
    var live := r.live + [Registration(r.next, pool)];
    assert live[..|r.live|] == r.live;
  }

  lemma DropListsLiveGuards(r: Registry, guard: nat)
    requires ListsLiveGuards(r) && CanApply(r, Drop(guard))
    ensures ListsLiveGuards(ApplyOperation(r, Drop(guard)))
  {
    WithoutDropsOne(r.live, r.next, guard);
    WithoutNumbered(r.live, r.next, guard);
    DroppedMembers(r.pools, PoolOf(r.live, guard).value);
  }

  /**
   After any sequence of enters and drops, in any drop order, the vector has no duplicates and lists
   exactly the pools of the live guards, oldest guard first.
   */
  lemma {:induction false} RegistryListsLiveGuards(ops: seq<Operation>)
    requires Applicable(ops)
    ensures ListsLiveGuards(Registered(ops))
  {
    if ops != [] {
      var n := |ops| - 1;
      RegistryListsLiveGuards(ops[..n]);
      match ops[n]
      case Enter(pool) => EnterListsLiveGuards(Registered(ops[..n]), pool);
      case Drop(guard) => DropListsLiveGuards(Registered(ops[..n]), guard);
    }
  }

  /** Enters and drops that nest: each call drops the guard it was given, if any, after its inner calls. */
  datatype Nesting = Return | Nested(pool: nat, inner: Nesting, next: Nesting)

  function RunNesting(pools: seq<nat>, calls: Nesting): seq<nat>
    decreases calls
  {
    match calls
    case Return => pools
    case Nested(pool, inner, next) =>
      var within := RunNesting(if pool in pools then pools else pools + [pool], inner);
      RunNesting(if pool in pools then within else Dropped(within, pool), next)
  }

  /** Balanced nesting gives back the exact vector. */
  lemma {:induction false} NestingRestores(pools: seq<nat>, calls: Nesting)
    ensures RunNesting(pools, calls) == pools
    decreases calls
  {
    match calls
    case Return =>
    case Nested(pool, inner, next) =>
      NestingRestores(if pool in pools then pools else pools + [pool], inner);
      DropUndoesEnter(pools, pool);
      NestingRestores(pools, next);
  }
}
