/** The ownership index with its tables updated in place. */
module OwnershipIndex {
  import opened Wrappers
  import opened Words
  import opened ReverseIndex
  import opened OwnershipSpec
  import opened OwnershipLemmas

  /** Forget the owner of each listed request in turn. */
  method RemoveResyncs(owners: map<Resync, PoolId>, resyncs: seq<Resync>) returns (r: map<Resync, PoolId>)
    ensures r == owners - set x | x in resyncs
  {
    r := owners;
    var i := 0;
    while i < |resyncs|
      invariant 0 <= i <= |resyncs|
      invariant r == owners - set x | x in resyncs[..i]
    {
      r := r - {resyncs[i]};
      i := i + 1;
    }
    assert resyncs[..|resyncs|] == resyncs;
  }

  /** List a pool in the four tables keyed by state and emitters. */
  method ListState(t: StateTables, o: PoolOwnership, ghost listed: map<PoolId, PoolOwnership>) returns (r: StateTables)
    requires StateRight(listed, t) && o.instance !in listed
    ensures StateRight(listed[o.instance := o], r)
  {
    StateAdded(listed, t, o);
    hide StateRight, WithOwner;
    var addresses := InsertOwner(t.addresses, o.dependencies.associated, o.instance);
    var wholeAccounts := InsertOwner(t.wholeAccounts, o.dependencies.wholeAccounts, o.instance);
    var slots := InsertOwner(t.slots, o.dependencies.slots, o.instance);
    var emitters := InsertOwner(t.emitters, o.emitters, o.instance);
    r := StateTables(addresses, wholeAccounts, slots, emitters);
  }

  /** Take a pool out of the four tables keyed by state and emitters. */
  method UnlistState(t: StateTables, p: PoolId, o: PoolOwnership, ghost listed: map<PoolId, PoolOwnership>)
      returns (r: StateTables)
    requires StateRight(listed, t) && p in listed && listed[p] == o
    ensures StateRight(listed - {p}, r)
  {
    StateRemoved(listed, t, p, o);
    hide StateRight, WithoutOwner;
    var addresses := RemoveOwner(t.addresses, o.dependencies.associated, p);
    var wholeAccounts := RemoveOwner(t.wholeAccounts, o.dependencies.wholeAccounts, p);
    var slots := RemoveOwner(t.slots, o.dependencies.slots, p);
    var emitters := RemoveOwner(t.emitters, o.emitters, p);
    r := StateTables(addresses, wholeAccounts, slots, emitters);
  }

  /** What one pool removal detaches. */
  datatype PoolRemoval = PoolRemoval(ownership: PoolOwnership, work: set<Work>, resyncs: seq<Resync>)

  datatype DiscoveryRemoval = DiscoveryRemoval(adapter: AdapterId, work: set<Work>)

  class AmmOwnershipIndex {
    var adapters: AdapterTables
    var pools: PoolTables
    var state: StateTables
    var discovery: DiscoveryTables
    var ownerWork: map<Owner, set<Work>>
    var resyncs: ResyncTables

    /** The records that a linear scan would look at. */
    ghost function Recorded(): Records
      reads this
    {
      Records(adapters.live, pools.records, discovery.records, ownerWork, resyncs.byPool)
    }

    /** Every table agrees with a linear scan of the records. */
    ghost predicate Agrees()
      reads this
    {
      && AdaptersRight(adapters)
      && PoolsRight(pools)
      && ServedRight(pools.records, adapters.live)
      && StateRight(pools.records, state)
      && DiscoveryRight(discovery, adapters.live)
      && WorkRight(Recorded())
      && ResyncsRight(pools.records.Keys, resyncs)
    }

    constructor ()
      ensures Agrees() && Recorded() == Records({}, map[], map[], map[], map[])
    {
      adapters := AdapterTables({}, map[]);
      pools := PoolTables(map[], map[], map[], map[]);
      state := StateTables(map[], map[], map[], map[]);
      discovery := DiscoveryTables(map[], map[], map[]);
      ownerWork := map[];
      resyncs := ResyncTables(map[], map[]);
    }

    method InsertAdapter(adapter: AdapterId) returns (r: Result<(), Error>)
      requires Agrees()
      modifies this
      ensures Agrees()
      ensures r.Err? <==> exists a :: a in old(adapters.live) && a.key == adapter.key
      ensures r.Err? ==> unchanged(this) && r.error == DuplicateAdapter(adapter.key)
      ensures r.Ok? ==> Recorded() == old(Recorded()).(adapters := old(adapters.live) + {adapter})
    {
      hide IsReverse, PoolsRight, StateRight, ResyncsRight, WorkRight;
      if adapter.key in adapters.active {
        assert adapters.active[adapter.key] in adapters.live;
        return Err(DuplicateAdapter(adapter.key));
      }
      OwnersStayLive(Recorded(), Recorded().(adapters := adapters.live + {adapter}));
      adapters := AdapterTables(adapters.live + {adapter}, adapters.active[adapter.key := adapter]);
      r := Ok(());
    }

    method InsertPool(ownership: PoolOwnership) returns (r: Result<(), Error>)
      requires Agrees()
      modifies this
      ensures Agrees()
      ensures r == (match old(InsertPoolError(Recorded(), ownership)) case Some(e) => Err(e) case None => Ok(()))
      ensures r.Err? ==> unchanged(this)
      ensures r.Ok? ==> Recorded() == WithPool(old(Recorded()), ownership)
    {
      var instance := ownership.instance;
      hide AdaptersRight, PoolsRight, ServedRight, StateRight, DiscoveryRight, ResyncsRight, WorkRight, WithOwner;
      ScanOfPools(pools, instance, ownership.handler);
      if ownership.adapter !in adapters.live {
        return Err(UnknownAdapter(ownership.adapter));
      }
      if instance.key.protocol !in ownership.adapter.key.protocols {
        return Err(AdapterProtocolMismatch(instance, ownership.adapter));
      }
      if instance.key in pools.active {
        return Err(DuplicatePool(instance.key));
      }
      // A live instance has an active key, so this exact generation is not indexed either.
      assert instance !in pools.records;
      if ownership.handler in pools.handlers {
        return Err(DuplicateHandler(ownership.handler));
      }
      PoolAdded(pools, ownership);
      ServedAdded(pools.records, adapters.live, ownership);
      PoolArrives(Recorded(), ownership);
      ResyncsOfMore(pools.records.Keys, pools.records[instance := ownership].Keys, resyncs);
      state := ListState(state, ownership, pools.records);
      var byAdapter := InsertOwner(pools.byAdapter, {ownership.adapter}, instance);
      pools := PoolTables(pools.records[instance := ownership], pools.active[instance.key := instance],
                          pools.handlers[ownership.handler := instance], byAdapter);
      r := Ok(());
    }

    method ReplacePool(ownership: PoolOwnership) returns (r: Result<PoolOwnership, Error>)
      requires Agrees()
      modifies this
      ensures Agrees()
      ensures r.Err? <==> old(ReplacePoolError(Recorded(), ownership)).Some?
      ensures r.Err? ==> unchanged(this) && Some(r.error) == old(ReplacePoolError(Recorded(), ownership))
      ensures r.Ok? ==>
                && ownership.instance in old(pools.records) && r.value == old(pools.records)[ownership.instance]
                && Recorded() == WithPool(old(Recorded()), ownership)
      ensures unchanged(`ownerWork) && unchanged(`resyncs)
    {
      var instance := ownership.instance;
      hide AdaptersRight, PoolsRight, ServedRight, StateRight, DiscoveryRight, ResyncsRight, WorkRight;
      ScanOfPools(pools, instance, ownership.handler);
      if instance.key !in pools.active || pools.active[instance.key] != instance {
        return Err(UnknownPool(instance));
      }
      var previous := pools.records[instance];
      if previous.handler != ownership.handler || previous.adapter != ownership.adapter
         || pools.handlers[previous.handler] != instance {
        return Err(PoolReplacementIdentity(instance));
      }
      PoolReplaced(pools, ownership);
      ServedReplaced(pools.records, adapters.live, ownership);
      PoolArrives(Recorded(), ownership);
      assert (pools.records - {instance})[instance := ownership] == pools.records[instance := ownership];
      assert pools.records[instance := ownership].Keys == pools.records.Keys;
      var rest := UnlistState(state, instance, previous, pools.records);
      state := ListState(rest, ownership, pools.records - {instance});
      pools := pools.(records := pools.records[instance := ownership]);
      r := Ok(previous);
    }

    method RemovePool(pool: PoolId) returns (r: Option<PoolRemoval>)
      requires Agrees()
      modifies this
      ensures Agrees()
      ensures r.Some? <==> pool in old(pools.records)
      ensures r.None? ==> unchanged(this)
      ensures r.Some? ==>
                && r.value == PoolRemoval(old(pools.records)[pool], old(WorkOf(Recorded(), OfPool(pool))),
                                          old(ResyncsFor(Recorded(), pool)))
                && Recorded() == WithoutPool(old(Recorded()), pool)
    {
      hide AdaptersRight, PoolsRight, ServedRight, StateRight, DiscoveryRight, ResyncsRight, WorkRight, WithoutOwner;
      if pool !in pools.records {
        return None;
      }
      var ownership := pools.records[pool];
      PoolRemoved(pools, pool);
      ServedRemoved(pools.records, adapters.live, pool);
      OwnerLeaves(Recorded(), WithoutPool(Recorded(), pool), OfPool(pool));
      state := UnlistState(state, pool, ownership, pools.records);
      var active := if pool.key in pools.active && pools.active[pool.key] == pool then pools.active - {pool.key}
          else pools.active;
      var byAdapter := RemoveOwner(pools.byAdapter, {ownership.adapter}, pool);
      var work := if OfPool(pool) in ownerWork then ownerWork[OfPool(pool)] else {};
      var tracked := if pool in resyncs.byPool then resyncs.byPool[pool] else [];
      var owners := RemoveResyncs(resyncs.owners, tracked);
      ResyncsDropped(pools.records.Keys, resyncs, pool, owners);
      assert (pools.records - {pool}).Keys == pools.records.Keys - {pool};
      pools := PoolTables(pools.records - {pool}, active, pools.handlers - {ownership.handler}, byAdapter);
      ownerWork := ownerWork - {OfPool(pool)};
      resyncs := ResyncTables(owners, resyncs.byPool - {pool});
      r := Some(PoolRemoval(ownership, work, tracked));
    }

    method InsertDiscovery(owner: DiscoveryId, adapter: AdapterId) returns (r: Result<(), Error>)
      requires Agrees()
      modifies this
      ensures Agrees()
      ensures r.Ok? <==> adapter in old(adapters.live) && forall d | d in old(discovery.records) :: d.key != owner.key
      ensures r.Err? ==>
                && unchanged(this)
                && r.error == (if adapter !in adapters.live then UnknownAdapter(adapter)
                               else DuplicateDiscovery(owner.key))
      ensures r.Ok? ==> Recorded() == old(Recorded()).(discovery := old(discovery.records)[owner := adapter])
    {
      hide IsReverse, AdaptersRight, PoolsRight, StateRight, ServedRight, ResyncsRight, WorkRight, WithOwner;
      if adapter !in adapters.live {
        return Err(UnknownAdapter(adapter));
      }
      if owner.key in discovery.active {
        assert discovery.active[owner.key] in discovery.records;
        return Err(DuplicateDiscovery(owner.key));
      }
      DiscoveryAdded(discovery, adapters.live, owner, adapter);
      OwnersStayLive(Recorded(), Recorded().(discovery := discovery.records[owner := adapter]));
      var byAdapter := InsertOwner(discovery.byAdapter, {adapter}, owner);
      discovery := DiscoveryTables(discovery.records[owner := adapter], discovery.active[owner.key := owner],
                                   byAdapter);
      r := Ok(());
    }

    method RemoveDiscovery(owner: DiscoveryId) returns (r: Option<DiscoveryRemoval>)
      requires Agrees()
      modifies this
      ensures Agrees()
      ensures r.Some? <==> owner in old(discovery.records)
      ensures r.None? ==> unchanged(this)
      ensures r.Some? ==>
                && r.value == DiscoveryRemoval(old(discovery.records)[owner],
                                               old(WorkOf(Recorded(), OfDiscovery(owner))))
                && Recorded() == old(Recorded()).(discovery := old(discovery.records) - {owner},
                                                  work := old(ownerWork) - {OfDiscovery(owner)})
    {
      hide IsReverse, AdaptersRight, PoolsRight, StateRight, ServedRight, DiscoveryRight, ResyncsRight, WorkRight,
          WithoutOwner;
      if owner !in discovery.records {
        return None;
      }
      var adapter := discovery.records[owner];
      DiscoveryRemoved(discovery, adapters.live, owner);
      OwnerLeaves(Recorded(), Recorded().(discovery := discovery.records - {owner},
                                          work := ownerWork - {OfDiscovery(owner)}), OfDiscovery(owner));
      var active := if owner.key in discovery.active && discovery.active[owner.key] == owner
          then discovery.active - {owner.key} else discovery.active;
      var byAdapter := RemoveOwner(discovery.byAdapter, {adapter}, owner);
      var work := if OfDiscovery(owner) in ownerWork then ownerWork[OfDiscovery(owner)] else {};
      discovery := DiscoveryTables(discovery.records - {owner}, active, byAdapter);
      ownerWork := ownerWork - {OfDiscovery(owner)};
      r := Some(DiscoveryRemoval(adapter, work));
    }

    method RemoveAdapter(adapter: AdapterId) returns (r: Result<bool, Error>)
      requires Agrees()
      modifies this
      ensures Agrees()
      ensures r.Err? <==>
              || (exists p :: p in old(pools.records) && old(pools.records)[p].adapter == adapter)
              || (exists d :: d in old(discovery.records) && old(discovery.records)[d] == adapter)
      ensures r.Err? ==> unchanged(this) && r.error == AdapterInUse(adapter)
      ensures r.Ok? ==> r.value == (adapter in old(adapters.live))
      ensures r == Ok(false) ==> unchanged(this)
      ensures r == Ok(true) ==>
                Recorded() == old(Recorded()).(adapters := old(adapters.live) - {adapter},
                                               work := old(ownerWork) - {OfAdapter(adapter)})
    {
      hide IsReverse, PoolsRight, StateRight, ResyncsRight, WorkRight;
      AdapterUsers(pools, adapter);
      AdapterTargets(discovery, adapters.live, adapter);
      if (adapter in pools.byAdapter && pools.byAdapter[adapter] != {})
         || (adapter in discovery.byAdapter && discovery.byAdapter[adapter] != {}) {
        return Err(AdapterInUse(adapter));
      }
      if adapter !in adapters.live {
        return Ok(false);
      }
      OwnerLeaves(Recorded(), Recorded().(adapters := adapters.live - {adapter},
                                          work := ownerWork - {OfAdapter(adapter)}), OfAdapter(adapter));
      var active :=
        if adapter.key in adapters.active && adapters.active[adapter.key] == adapter
            then adapters.active - {adapter.key} else adapters.active;
      adapters := AdapterTables(adapters.live - {adapter}, active);
      ownerWork := ownerWork - {OfAdapter(adapter)};
      r := Ok(true);
    }

    method TrackWork(work: Work) returns (r: Result<(), Error>)
      requires Agrees()
      modifies `ownerWork
      ensures Agrees()
      ensures r.Ok? <==> old(Live(Recorded(), work.owner)) && work !in old(WorkOf(Recorded(), work.owner))
      ensures r.Err? ==>
                && unchanged(this)
                && r.error == (if Live(Recorded(), work.owner) then DuplicateWork(work)
                               else UnknownWorkOwner(work.owner))
      ensures r.Ok? ==> Recorded() == SetWork(old(Recorded()), work.owner, old(WorkOf(Recorded(), work.owner)) + {work})
    {
      hide AdaptersRight, PoolsRight, StateRight, ServedRight, DiscoveryRight, ResyncsRight;
      var live := match work.owner
        case OfPool(p) => p in pools.records
        case OfAdapter(a) => a in adapters.live
        case OfDiscovery(d) => d in discovery.records;
      if !live {
        return Err(UnknownWorkOwner(work.owner));
      }
      var entries := if work.owner in ownerWork then ownerWork[work.owner] else {};
      if work in entries {
        return Err(DuplicateWork(work));
      }
      WorkSet(Recorded(), work.owner, entries + {work});
      hide WorkRight;
      ownerWork := ownerWork[work.owner := entries + {work}];
      r := Ok(());
    }

    method UntrackWork(work: Work) returns (removed: bool)
      requires Agrees()
      modifies `ownerWork
      ensures Agrees()
      ensures removed <==> work in old(WorkOf(Recorded(), work.owner))
      ensures !removed ==> unchanged(this)
      ensures removed ==>
                Recorded()
                == SetWork(old(Recorded()), work.owner, old(WorkOf(Recorded(), work.owner)) - {work})
    {
      hide AdaptersRight, PoolsRight, StateRight, ServedRight, DiscoveryRight, ResyncsRight;
      if work.owner !in ownerWork {
        return false;
      }
      var entries := ownerWork[work.owner];
      removed := work in entries;
      if !removed {
        return;
      }
      WorkSet(Recorded(), work.owner, entries - {work});
      hide WorkRight;
      if entries - {work} == {} {
        ownerWork := ownerWork - {work.owner};
      } else {
        ownerWork := ownerWork[work.owner := entries - {work}];
      }
    }

    method TrackResync(pool: PoolId, resync: Resync) returns (r: Result<(), Error>)
      requires Agrees()
      modifies `resyncs
      ensures Agrees()
      ensures r.Ok? <==> pool in old(pools.records) && forall p | p in old(resyncs.byPool) ::
              resync !in old(resyncs.byPool)[p]
      ensures r.Err? ==>
                && unchanged(this)
                && r.error == (if pool in pools.records then DuplicateResync(resync) else UnknownPool(pool))
      ensures r.Ok? ==> Recorded() == SetResyncs(old(Recorded()), pool, old(ResyncsFor(Recorded(), pool)) + [resync])
    {
      hide AdaptersRight, PoolsRight, StateRight, ServedRight, DiscoveryRight, ResyncsRight, WorkRight;
      ScanOfResyncs(pools.records.Keys, resyncs, resync);
      if pool !in pools.records {
        return Err(UnknownPool(pool));
      }
      if resync in resyncs.owners {
        return Err(DuplicateResync(resync));
      }
      ResyncTracked(pools.records.Keys, resyncs, pool, resync);
      var tracked := (if pool in resyncs.byPool then resyncs.byPool[pool] else []) + [resync];
      OwnersStayLive(Recorded(), Recorded().(resyncs := resyncs.byPool[pool := tracked]));
      resyncs := ResyncTables(resyncs.owners[resync := pool], resyncs.byPool[pool := tracked]);
      r := Ok(());
    }

    method UntrackResync(resync: Resync) returns (r: Option<PoolId>)
      requires Agrees()
      modifies `resyncs
      ensures Agrees()
      ensures r.None? <==> forall p | p in old(resyncs.byPool) :: resync !in old(resyncs.byPool)[p]
      ensures r.None? ==> unchanged(this)
      ensures r.Some? ==>
                && resync in old(ResyncsFor(Recorded(), r.value))
                && Recorded() == SetResyncs(old(Recorded()), r.value,
                                            Retained(old(ResyncsFor(Recorded(), r.value)), resync))
    {
      hide AdaptersRight, PoolsRight, StateRight, ServedRight, DiscoveryRight, ResyncsRight, WorkRight;
      ScanOfResyncs(pools.records.Keys, resyncs, resync);
      if resync !in resyncs.owners {
        return None;
      }
      var pool := resyncs.owners[resync];
      var left := Retained(resyncs.byPool[pool], resync);
      RetainedDistinct(resyncs.byPool[pool], resync);
      ResyncUntracked(pools.records.Keys, resyncs, resync, left);
      hide Retained, Distinct;
      var byPool := if left == [] then resyncs.byPool - {pool} else resyncs.byPool[pool := left];
      OwnersStayLive(Recorded(), Recorded().(resyncs := byPool));
      resyncs := ResyncTables(resyncs.owners - {resync}, byPool);
      r := Some(pool);
    }

    /** The pools declaring the slot itself or the whole of its account, and no others. */
    method PoolsForSlot(slot: StateSlot) returns (r: set<PoolId>)
      requires Agrees()
      ensures forall p :: p in r <==>
                && p in pools.records
                && (slot in pools.records[p].dependencies.slots
                    || slot.address in pools.records[p].dependencies.wholeAccounts)
      ensures forall p | p in r :: slot.address in pools.records[p].dependencies.associated
    {
      hide AdaptersRight, PoolsRight, ServedRight, StateRight, DiscoveryRight, ResyncsRight, WorkRight;
      DeclarersOfSlot(pools.records, state, slot);
      r := Owners(state.slots, slot);
      if slot.address in state.wholeAccounts {
        r := r + state.wholeAccounts[slot.address];
      }
    }

    method PoolsForAddress(address: Address) returns (r: set<PoolId>)
      requires Agrees()
      ensures forall p :: p in r <==> p in pools.records && address in pools.records[p].dependencies.associated
    {
      hide AdaptersRight, PoolsRight, ServedRight, DiscoveryRight, ResyncsRight, WorkRight;
      OwnersAreDeclarers(state.addresses, Associated(pools.records), address);
      r := Owners(state.addresses, address);
    }

    method PoolsForEmitter(emitter: Address) returns (r: set<PoolId>)
      requires Agrees()
      ensures forall p :: p in r <==> p in pools.records && emitter in pools.records[p].emitters
    {
      hide AdaptersRight, PoolsRight, ServedRight, DiscoveryRight, ResyncsRight, WorkRight;
      OwnersAreDeclarers(state.emitters, Emitters(pools.records), emitter);
      r := Owners(state.emitters, emitter);
    }
  }
}
