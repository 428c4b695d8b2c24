/** How each group of ownership tables follows the records through every mutation. */
module OwnershipLemmas {
  import opened ReverseIndex
  import opened OwnershipSpec

  // ------------------------------------------------------------------ pool tables

  lemma DeclaredAdded(pools: map<PoolId, PoolOwnership>, o: PoolOwnership)
    ensures Associated(pools[o.instance := o]) == Associated(pools)[o.instance := o.dependencies.associated]
    ensures WholeAccounts(pools[o.instance := o]) == WholeAccounts(pools)[o.instance := o.dependencies.wholeAccounts]
    ensures Slots(pools[o.instance := o]) == Slots(pools)[o.instance := o.dependencies.slots]
    ensures Emitters(pools[o.instance := o]) == Emitters(pools)[o.instance := o.emitters]
  {
  }

  lemma DeclaredRemoved(pools: map<PoolId, PoolOwnership>, p: PoolId)
    ensures Associated(pools - {p}) == Associated(pools) - {p}
    ensures WholeAccounts(pools - {p}) == WholeAccounts(pools) - {p}
    ensures Slots(pools - {p}) == Slots(pools) - {p}
    ensures Emitters(pools - {p}) == Emitters(pools) - {p}
  {
  }

  lemma AdapterAdded(pools: map<PoolId, PoolOwnership>, index: map<AdapterId, set<PoolId>>, o: PoolOwnership)
    requires IsReverse(index, AdapterOf(pools)) && o.instance !in pools
    ensures IsReverse(WithOwner(index, {o.adapter}, o.instance), AdapterOf(pools[o.instance := o]))
  {
    assert AdapterOf(pools[o.instance := o]) == AdapterOf(pools)[o.instance := {o.adapter}];
    InsertKeepsReverse(index, AdapterOf(pools), o.instance, {o.adapter});
  }

  lemma AdapterRemoved(pools: map<PoolId, PoolOwnership>, index: map<AdapterId, set<PoolId>>, p: PoolId)
    requires IsReverse(index, AdapterOf(pools)) && p in pools
    ensures IsReverse(WithoutOwner(index, {pools[p].adapter}, p), AdapterOf(pools - {p}))
  {
    assert AdapterOf(pools - {p}) == AdapterOf(pools) - {p};
    RemoveKeepsReverse(index, AdapterOf(pools), p);
  }

  lemma PoolAdded(t: PoolTables, o: PoolOwnership)
    requires PoolsRight(t) && o.instance.key !in t.active && o.handler !in t.handlers
    ensures o.instance !in t.records
    ensures PoolsRight(PoolTables(t.records[o.instance := o], t.active[o.instance.key := o.instance],
                                  t.handlers[o.handler := o.instance], WithOwner(t.byAdapter, {o.adapter}, o.instance)))
  {
    AdapterAdded(t.records, t.byAdapter, o);
    hide IsReverse, AdapterOf, WithOwner;
  }

  lemma PoolRemoved(t: PoolTables, p: PoolId)
    requires PoolsRight(t) && p in t.records
    ensures p.key in t.active && t.active[p.key] == p
    ensures PoolsRight(PoolTables(t.records - {p}, t.active - {p.key}, t.handlers - {t.records[p].handler},
                                  WithoutOwner(t.byAdapter, {t.records[p].adapter}, p)))
  {
    AdapterRemoved(t.records, t.byAdapter, p);
    hide IsReverse, AdapterOf, WithoutOwner;
  }

  lemma PoolReplaced(t: PoolTables, o: PoolOwnership)
    requires PoolsRight(t) && o.instance in t.records
    requires t.records[o.instance].handler == o.handler && t.records[o.instance].adapter == o.adapter
    ensures PoolsRight(t.(records := t.records[o.instance := o]))
  {
    assert AdapterOf(t.records[o.instance := o]) == AdapterOf(t.records);
    hide IsReverse, AdapterOf;
  }

  /** The active and handler tables answer as scans of the records would. */
  lemma ScanOfPools(t: PoolTables, p: PoolId, h: Handler)
    requires PoolsRight(t)
    ensures (exists q :: q in t.records && q.key == p.key) <==> p.key in t.active
    ensures (exists q :: q in t.records && t.records[q].handler == h) <==> h in t.handlers
    ensures p in t.records <==> p.key in t.active && t.active[p.key] == p
    ensures p in t.records ==> t.records[p].handler in t.handlers && t.handlers[t.records[p].handler] == p
  {
    hide IsReverse;
    if p.key in t.active {
      assert t.active[p.key] in t.records;
    }
    if h in t.handlers {
      assert t.handlers[h] in t.records;
    }
  }

  // ----------------------------------------------------------------- state tables

  lemma StateAdded(pools: map<PoolId, PoolOwnership>, t: StateTables, o: PoolOwnership)
    requires StateRight(pools, t) && o.instance !in pools
    ensures StateRight(pools[o.instance := o],
                       StateTables(WithOwner(t.addresses, o.dependencies.associated, o.instance),
                                   WithOwner(t.wholeAccounts, o.dependencies.wholeAccounts, o.instance),
                                   WithOwner(t.slots, o.dependencies.slots, o.instance),
                                   WithOwner(t.emitters, o.emitters, o.instance)))
  {
    assert o.instance !in Associated(pools) && o.instance !in WholeAccounts(pools);
    assert o.instance !in Slots(pools) && o.instance !in Emitters(pools);
    DeclaredAdded(pools, o);
    hide IsReverse, WithOwner, Associated, WholeAccounts, Slots, Emitters;
    InsertKeepsReverse(t.addresses, Associated(pools), o.instance, o.dependencies.associated);
    InsertKeepsReverse(t.wholeAccounts, WholeAccounts(pools), o.instance, o.dependencies.wholeAccounts);
    InsertKeepsReverse(t.slots, Slots(pools), o.instance, o.dependencies.slots);
    InsertKeepsReverse(t.emitters, Emitters(pools), o.instance, o.emitters);
  }

  lemma StateRemoved(pools: map<PoolId, PoolOwnership>, t: StateTables, p: PoolId, o: PoolOwnership)
    requires StateRight(pools, t) && p in pools && pools[p] == o
    ensures StateRight(pools - {p},
                       StateTables(WithoutOwner(t.addresses, o.dependencies.associated, p),
                                   WithoutOwner(t.wholeAccounts, o.dependencies.wholeAccounts, p),
                                   WithoutOwner(t.slots, o.dependencies.slots, p),
                                   WithoutOwner(t.emitters, o.emitters, p)))
  {
    assert Associated(pools)[p] == o.dependencies.associated;
    assert WholeAccounts(pools)[p] == o.dependencies.wholeAccounts;
    assert Slots(pools)[p] == o.dependencies.slots;
    assert Emitters(pools)[p] == o.emitters;
    DeclaredRemoved(pools, p);
    hide IsReverse, WithoutOwner, Associated, WholeAccounts, Slots, Emitters;
    RemoveKeepsReverse(t.addresses, Associated(pools), p);
    RemoveKeepsReverse(t.wholeAccounts, WholeAccounts(pools), p);
    RemoveKeepsReverse(t.slots, Slots(pools), p);
    RemoveKeepsReverse(t.emitters, Emitters(pools), p);
  }

  lemma DeclarersOfSlot(pools: map<PoolId, PoolOwnership>, t: StateTables, slot: StateSlot)
    requires StateRight(pools, t)
    ensures forall p :: p in Owners(t.slots, slot) <==> p in pools && slot in pools[p].dependencies.slots
    ensures forall p ::
              p in Owners(t.wholeAccounts, slot.address)
              <==> p in pools && slot.address in pools[p].dependencies.wholeAccounts
  {
    OwnersAreDeclarers(t.slots, Slots(pools), slot);
    OwnersAreDeclarers(t.wholeAccounts, WholeAccounts(pools), slot.address);
    hide IsReverse;
  }

  // --------------------------------------------------------- adapters and discovery

  lemma ServedAdded(pools: map<PoolId, PoolOwnership>, adapters: set<AdapterId>, o: PoolOwnership)
    requires ServedRight(pools, adapters) && o.adapter in adapters && o.instance.key.protocol in o.adapter.key.protocols
    ensures ServedRight(pools[o.instance := o], adapters)
  {
  }

  lemma ServedReplaced(pools: map<PoolId, PoolOwnership>, adapters: set<AdapterId>, o: PoolOwnership)
    requires ServedRight(pools, adapters) && o.instance in pools && pools[o.instance].adapter == o.adapter
    ensures ServedRight(pools[o.instance := o], adapters)
  {
  }

  lemma ServedRemoved(pools: map<PoolId, PoolOwnership>, adapters: set<AdapterId>, p: PoolId)
    requires ServedRight(pools, adapters)
    ensures ServedRight(pools - {p}, adapters)
  {
  }

  /** The reverse table knows whether a pool still uses an adapter. */
  lemma AdapterUsers(t: PoolTables, a: AdapterId)
    requires PoolsRight(t)
    ensures a in t.byAdapter <==> exists p :: p in t.records && t.records[p].adapter == a
    ensures a in t.byAdapter ==> t.byAdapter[a] != {}
  {
    OwnersAreDeclarers(t.byAdapter, AdapterOf(t.records), a);
    forall p | p in t.records ensures t.records[p].adapter == a <==> p in Owners(t.byAdapter, a) {
      assert a in AdapterOf(t.records)[p] <==> t.records[p].adapter == a;
    }
    if a in t.byAdapter {
      var p :| p in t.byAdapter[a];
      assert p in AdapterOf(t.records);
      assert p in t.records && t.records[p].adapter == a;
    }
  }

  /** The reverse table knows whether a discovery owner still targets an adapter. */
  lemma AdapterTargets(t: DiscoveryTables, adapters: set<AdapterId>, a: AdapterId)
    requires DiscoveryRight(t, adapters)
    ensures a in t.byAdapter <==> exists d :: d in t.records && t.records[d] == a
    ensures a in t.byAdapter ==> t.byAdapter[a] != {}
  {
    OwnersAreDeclarers(t.byAdapter, TargetOf(t.records), a);
    forall d | d in t.records ensures t.records[d] == a <==> d in Owners(t.byAdapter, a) {
      assert a in TargetOf(t.records)[d] <==> t.records[d] == a;
    }
    if a in t.byAdapter {
      var d :| d in t.byAdapter[a];
      assert d in TargetOf(t.records);
      assert d in t.records && t.records[d] == a;
    }
  }

  lemma DiscoveryAdded(t: DiscoveryTables, adapters: set<AdapterId>, d: DiscoveryId, a: AdapterId)
    requires DiscoveryRight(t, adapters) && d.key !in t.active && a in adapters
    ensures DiscoveryRight(DiscoveryTables(t.records[d := a], t.active[d.key := d], WithOwner(t.byAdapter, {a}, d)),
                           adapters)
  {
    InsertKeepsReverse(t.byAdapter, TargetOf(t.records), d, {a});
    assert TargetOf(t.records[d := a]) == TargetOf(t.records)[d := {a}];
    hide IsReverse, TargetOf, WithOwner;
  }

  lemma DiscoveryRemoved(t: DiscoveryTables, adapters: set<AdapterId>, d: DiscoveryId)
    requires DiscoveryRight(t, adapters) && d in t.records
    ensures d.key in t.active && t.active[d.key] == d
    ensures DiscoveryRight(DiscoveryTables(t.records - {d}, t.active - {d.key},
                                           WithoutOwner(t.byAdapter, {t.records[d]}, d)), adapters)
  {
    RemoveKeepsReverse(t.byAdapter, TargetOf(t.records), d);
    assert TargetOf(t.records - {d}) == TargetOf(t.records) - {d};
    hide IsReverse, TargetOf, WithoutOwner;
  }

  // ---------------------------------------------------------------- work and resyncs

  lemma OwnersStayLive(r: Records, r': Records)
    requires WorkRight(r) && r'.work == r.work
    requires r.adapters <= r'.adapters && r.pools.Keys <= r'.pools.Keys && r.discovery.Keys <= r'.discovery.Keys
    ensures WorkRight(r')
  {
    forall o | o in r'.work ensures Live(r', o) {
      assert Live(r, o);
    }
  }

  lemma PoolArrives(r: Records, o: PoolOwnership)
    requires WorkRight(r)
    ensures WorkRight(WithPool(r, o))
  {
    OwnersStayLive(r, WithPool(r, o));
  }

  lemma OwnerLeaves(r: Records, r': Records, owner: Owner)
    requires WorkRight(r) && r'.work == r.work - {owner}
    requires forall o | o in r.work && o != owner :: Live(r, o) ==> Live(r', o)
    ensures WorkRight(r')
  {
  }

  lemma WorkSet(r: Records, owner: Owner, work: set<Work>)
    requires WorkRight(r) && Live(r, owner) && forall w | w in work :: w.owner == owner
    ensures WorkRight(SetWork(r, owner, work))
  {
    assert forall o :: Live(SetWork(r, owner, work), o) <==> Live(r, o);
  }

  lemma ResyncsOfMore(pools: set<PoolId>, more: set<PoolId>, t: ResyncTables)
    requires ResyncsRight(pools, t) && pools <= more
    ensures ResyncsRight(more, t)
  {
  }

  /** The owner table answers as a scan of the pools' requests would. */
  lemma ScanOfResyncs(pools: set<PoolId>, t: ResyncTables, x: Resync)
    requires ResyncsRight(pools, t)
    ensures x in t.owners <==> exists p :: p in t.byPool && x in t.byPool[p]
    ensures x in t.owners ==> t.owners[x] in t.byPool && x in t.byPool[t.owners[x]] && Distinct(t.byPool[t.owners[x]])
  {
    if x in t.owners {
      assert t.owners[x] in t.byPool;
    }
  }

  lemma ResyncTracked(pools: set<PoolId>, t: ResyncTables, p: PoolId, x: Resync)
    requires ResyncsRight(pools, t) && p in pools && x !in t.owners
    ensures ResyncsRight(pools, ResyncTables(t.owners[x := p],
                                             t.byPool[p := (if p in t.byPool then t.byPool[p] else []) + [x]]))
  {
  }

  lemma ResyncUntracked(pools: set<PoolId>, t: ResyncTables, x: Resync, left: seq<Resync>)
    requires ResyncsRight(pools, t) && x in t.owners && Distinct(left)
    requires forall y :: y in left <==> y in t.byPool[t.owners[x]] && y != x
    ensures ResyncsRight(pools, ResyncTables(t.owners - {x},
                                             if left == [] then t.byPool - {t.owners[x]}
                                                 else t.byPool[t.owners[x] := left]))
  {
    hide Distinct;
    var p := t.owners[x];
    var byPool := if left == [] then t.byPool - {p} else t.byPool[p := left];
    forall q, y | q in byPool && y in byPool[q] ensures y in t.owners - {x} && (t.owners - {x})[y] == q {
      assert q in t.byPool && y in t.byPool[q];
    }
    forall y | y in t.owners - {x} ensures t.owners[y] in byPool && y in byPool[t.owners[y]] {
      assert t.owners[y] in t.byPool && y in t.byPool[t.owners[y]];
      assert left == [] ==> y !in left;
    }
  }

  lemma ResyncsDropped(pools: set<PoolId>, t: ResyncTables, p: PoolId, owners: map<Resync, PoolId>)
    requires ResyncsRight(pools, t)
    requires p !in t.byPool ==> owners == t.owners
    requires p in t.byPool ==> owners == t.owners - set x | x in t.byPool[p]
    ensures ResyncsRight(pools - {p}, ResyncTables(owners, t.byPool - {p}))
  {
    hide Distinct;
    forall y | y in owners ensures owners[y] in t.byPool - {p} {
      assert t.owners[y] in t.byPool && y in t.byPool[t.owners[y]];
    }
    forall q, y | q in t.byPool - {p} && y in t.byPool[q] ensures y in owners {
      assert y in t.owners && t.owners[y] == q;
    }
  }
}
