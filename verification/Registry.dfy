/**
 The process-wide registry of connection pools: reuse by key, claims held by the pools'
 users, and eviction of the least recently used unclaimed pool above the cap.
 */
module Registry {
  import opened Options

  const MAX_POOLS: nat := 16

  type Key = nat

  // `handle` is the serial number of the shared handle; `lastUsed` the instant it was last handed out.
  datatype Entry = Entry(handle: nat, claims: nat, closed: bool, lastUsed: nat)

  type Pools = map<Key, Entry>

  function Claimed(pools: Pools): set<Key> {
    set k | k in pools && pools[k].claims > 0
  }

  predicate IsIdle(pools: Pools, k: Key) {
    k in pools && pools[k].claims == 0
  }

  // An unclaimed pool than which no other unclaimed pool has gone unused for longer.
  ghost predicate IsOldestIdle(pools: Pools, k: Key) {
    IsIdle(pools, k) && forall other :: IsIdle(pools, other) ==> pools[k].lastUsed <= pools[other].lastUsed
  }

  lemma ClaimedWithin(pools: Pools)
    ensures Claimed(pools) <= pools.Keys && |Claimed(pools)| <= |pools|
    ensures (forall k :: !IsIdle(pools, k)) ==> |Claimed(pools)| == |pools|
  {
    Smaller(Claimed(pools), pools.Keys);
    if forall k :: !IsIdle(pools, k) {
      forall k | k in pools ensures k in Claimed(pools) {
        assert !IsIdle(pools, k);
      }
      assert Claimed(pools) == pools.Keys;
    }
    assert |pools.Keys| == |pools|;
  }

  lemma {:induction false} Smaller(a: set<Key>, b: set<Key>)
    requires a <= b
    ensures |a| <= |b|
  {
    if a != {} {
      var k :| k in a;
      Smaller(a - {k}, b - {k});
    }
  }

  function Max(a: nat, b: nat): nat {
    if a < b then b else a
  }

  method OldestIdle(pools: Pools) returns (victim: Option<Key>)
    ensures victim == None <==> forall k :: !IsIdle(pools, k)
    ensures victim.Some? ==> IsOldestIdle(pools, victim.value)
  {
    victim := None;
    var left := pools.Keys;
    while left != {}
      invariant left <= pools.Keys
      invariant victim == None ==> forall k :: IsIdle(pools, k) ==> k in left
      invariant victim.Some? ==>
                  && IsIdle(pools, victim.value)
                  && forall k :: IsIdle(pools, k) && k !in left ==>
                       pools[victim.value].lastUsed <= pools[k].lastUsed
      decreases left
    {
      var k :| k in left;
      left := left - {k};
      if pools[k].claims == 0 && (victim == None || pools[k].lastUsed < pools[victim.value].lastUsed) {
        victim := Some(k);
      }
    }
  }

  // The pool just created is claimed, so the victim is one of the others.
  lemma OldestElsewhere(pools: Pools, key: Key, entry: Entry, victim: Key)
    requires entry.claims > 0 && IsOldestIdle(pools[key := entry], victim)
    ensures victim != key && IsOldestIdle(pools - {key}, victim)
  {
    forall other | IsIdle(pools - {key}, other)
      ensures (pools - {key})[victim].lastUsed <= (pools - {key})[other].lastUsed
    {
      assert IsIdle(pools[key := entry], other);
    }
  }

  // What can happen to a registry. `pid` is the process the call is made in, `starts` whether a runtime can
  // be created there.
  datatype Event =
    | Acquires(key: Key, now: nat, pid: nat, starts: bool)
    | Releases(key: Key)
    | Shuts(key: Key)

  // The pools a call finds: those inherited from a process that forked do not count.
  function Inherited(pools: Pools, owner: Option<nat>, pid: nat): Pools {
    if owner == Some(pid) then pools else map[]
  }

  class PoolRegistry {
    var pools: Pools
    var nextHandle: nat
    // The process whose runtime the pools live on.
    var owner: Option<nat>
    // The most pools that were ever claimed at the same time in that process.
    ghost var peak: nat

    ghost predicate Valid()
      reads this
    {
      && |Claimed(pools)| <= peak
      && |pools| <= Max(MAX_POOLS, peak)
      && (forall k :: k in pools ==> pools[k].handle < nextHandle)
      && (owner == None ==> pools == map[])
    }

    constructor ()
      ensures Valid() && pools == map[] && owner == None && peak == 0
    {
      pools, nextHandle, owner, peak := map[], 0, None, 0;
      new;
      assert Claimed(pools) == {};
    }

    // The pool of a key is open: one more claim on it.
    method Reuse(key: Key, now: nat) returns (handle: nat)
      requires Valid() && key in pools && !pools[key].closed
      modifies this`pools, this`peak
      ensures Valid() && handle == old(pools[key]).handle
      ensures pools == old(pools)[key :=
                old(pools[key]).(claims := old(pools[key]).claims + 1, lastUsed := now)]
    {
      var entry := pools[key];
      pools := pools[key := entry.(claims := entry.claims + 1, lastUsed := now)];
      assert pools.Keys == old(pools).Keys;
      SameSize(pools, old(pools));
      handle := entry.handle;
      peak := Max(peak, |Claimed(pools)|);
    }

    // A new pool for a key that has none, or only a closed one.
    method Create(key: Key, now: nat) returns (handle: nat, evicted: Option<Key>)
      requires Valid() && owner.Some?
      modifies this`pools, this`nextHandle, this`peak
      ensures Valid() && handle == old(nextHandle)
      ensures var grown := old(pools)[key := Entry(handle, 1, false, now)];
              && (evicted == None ==>
                    pools == grown && (|grown| <= MAX_POOLS || forall k :: !IsIdle(grown, k)))
              && (evicted.Some? ==>
                    |grown| > MAX_POOLS && IsOldestIdle(grown, evicted.value) && pools == grown - {evicted.value})
    {
      handle, evicted := nextHandle, None;
      nextHandle := nextHandle + 1;
      var grown := pools[key := Entry(handle, 1, false, now)];
      assert grown.Keys == pools.Keys + {key};
      GrownByOne(grown, pools, key);
      if |grown| > MAX_POOLS {
        evicted := OldestIdle(grown);
      }
      if evicted.Some? {
        pools := grown - {evicted.value};
        assert pools.Keys == grown.Keys - {evicted.value};
        ShrunkByOne(pools, grown, evicted.value);
      } else {
        pools := grown;
      }
      peak := Max(peak, |Claimed(pools)|);
      ClaimedWithin(pools);
    }

    // A process that was forked starts over: its parent's pools and runtime are not its own.
    method Enter(pid: nat, starts: bool) returns (ready: bool)
      requires Valid()
      modifies this`pools, this`owner, this`peak
      ensures Valid() && ready == (old(owner) == Some(pid) || starts)
      ensures pools == Inherited(old(pools), old(owner), pid)
      ensures owner == if ready then Some(pid) else None
    {
      if owner.Some? && owner.value != pid {
        pools, owner, peak := map[], None, 0;
        assert Claimed(pools) == {};
      }
      ready := true;
      if owner == None {
        ready := starts;
        owner := if starts then Some(pid) else None;
      }
    }

    /** Hands out the pool of a key: the one this process has, with one more claim, or a new one. Only then,
        and only above the cap, one pool may go: an unclaimed one, unused for the longest time. Without a
        runtime there is no pool. */
    method Acquire(key: Key, now: nat, pid: nat, starts: bool) returns (handle: Option<nat>, evicted: Option<Key>)
      requires Valid()
      modifies this
      ensures Valid()
      ensures handle.Some? == (old(owner) == Some(pid) || starts)
      ensures handle == None ==> owner == None && pools == map[] && evicted == None
      ensures handle.Some? ==>
                && owner == Some(pid) && key in pools && pools[key].handle == handle.value
                && pools[key].claims > 0 && !pools[key].closed
      ensures handle.Some? && key in Inherited(old(pools), old(owner), pid) && !old(pools)[key].closed ==>
                handle.value == old(pools)[key].handle
      ensures handle.Some? && !(key in Inherited(old(pools), old(owner), pid) && !old(pools)[key].closed) ==>
                handle.value == old(nextHandle)
      ensures forall k :: k in Inherited(old(pools), old(owner), pid) && k != key && k !in pools && handle.Some? ==>
                evicted == Some(k)
      ensures forall k :: k in pools && k != key ==>
                k in Inherited(old(pools), old(owner), pid) && pools[k] == old(pools)[k]
      ensures evicted.Some? ==>
                var found := Inherited(old(pools), old(owner), pid);
                IsOldestIdle(found - {key}, evicted.value) && |found| >= MAX_POOLS
    {
      evicted := None;
      var ready := Enter(pid, starts);
      if !ready {
        return None, None;
      }
      ghost var found := pools;
      if key in pools && !pools[key].closed {
        var reused := Reuse(key, now);
        handle := Some(reused);
      } else {
        var created;
        created, evicted := Create(key, now);
        GrownByOne(found[key := Entry(created, 1, false, now)], found, key);
        if evicted.Some? {
          OldestElsewhere(found, key, Entry(created, 1, false, now), evicted.value);
        }
        handle := Some(created);
      }
    }

    // A claim is given back; a release without a claim changes nothing.
    method Release(key: Key) returns (last: bool)
      requires Valid() && key in pools
      modifies this`pools
      ensures Valid()
      ensures last == (old(pools[key]).claims == 1)
      ensures pools == old(pools)[key := old(pools[key]).(claims :=
                if old(pools[key]).claims == 0 then 0 else old(pools[key]).claims - 1)]
    {
      var entry := pools[key];
      last := entry.claims == 1;
      ghost var before := pools;
      if entry.claims > 0 {
        pools := pools[key := entry.(claims := entry.claims - 1)];
        assert pools.Keys == before.Keys;
        SameSize(pools, before);
        assert Claimed(pools) <= Claimed(before);
        Smaller(Claimed(pools), Claimed(before));
      } else {
        assert pools[key := entry] == pools;
      }
    }

    // The last user closed the pool: the handle stays registered until its key is asked for again.
    method Close(key: Key)
      requires Valid() && key in pools
      modifies this`pools
      ensures Valid()
      ensures pools == old(pools)[key := old(pools[key]).(closed := true)]
    {
      ghost var before := pools;
      pools := pools[key := pools[key].(closed := true)];
      assert pools.Keys == before.Keys;
      SameSize(pools, before);
      assert Claimed(pools) == Claimed(before);
    }

    // However pools are acquired, released and closed, and processes forked: never more of them than the
    // cap allows, or than were ever claimed at the same time.
    method Run(events: seq<Event>)
      requires Valid()
      modifies this
      ensures Valid() && |pools| <= Max(MAX_POOLS, peak)
    {
      for i := 0 to |events|
        invariant Valid()
      {
        match events[i]
        case Acquires(key, now, pid, starts) =>
          var _, _ := Acquire(key, now, pid, starts);
        case Releases(key) =>
          if key in pools {
            var _ := Release(key);
          }
        case Shuts(key) =>
          if key in pools {
            Close(key);
          }
      }
    }
  }

  lemma SameSize(a: Pools, b: Pools)
    requires a.Keys == b.Keys
    ensures |a| == |b|
  {
    assert |a.Keys| == |a| && |b.Keys| == |b|;
  }

  lemma GrownByOne(a: Pools, b: Pools, key: Key)
    requires a.Keys == b.Keys + {key}
    ensures |a| <= |b| + 1
  {
    assert |a.Keys| == |a| && |b.Keys| == |b|;
    if key in b {
      assert a.Keys == b.Keys;
    }
  }

  lemma ShrunkByOne(a: Pools, b: Pools, key: Key)
    requires key in b && a.Keys == b.Keys - {key}
    ensures |a| == |b| - 1
  {
    assert |a.Keys| == |a| && |b.Keys| == |b|;
  }
}
