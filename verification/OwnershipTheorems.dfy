/** What the ownership index guarantees over sequences of mutations. */
module OwnershipTheorems {
  import opened Wrappers
  import opened ReverseIndex
  import opened OwnershipSpec
  import opened OwnershipIndex

  // ------------------------------------------- the records determine every other table

  lemma AdaptersDetermined(s: AdapterTables, t: AdapterTables)
    requires AdaptersRight(s) && AdaptersRight(t) && s.live == t.live
    ensures s == t
  {
    forall k ensures k in s.active <==> k in t.active {
      if k in s.active {
        assert s.active[k] in t.live;
      }
      if k in t.active {
        assert t.active[k] in s.live;
      }
    }
    assert forall k | k in s.active :: s.active[k] in t.live;
    assert s.active == t.active;
  }

  lemma PoolsDetermined(s: PoolTables, t: PoolTables)
    requires PoolsRight(s) && PoolsRight(t) && s.records == t.records
    ensures s == t
  {
    ReverseIsUnique(s.byAdapter, t.byAdapter, AdapterOf(s.records));
    hide IsReverse, AdapterOf;
    assert s.active == t.active by {
      assert forall k | k in s.active :: s.active[k] in t.records;
      assert forall k | k in t.active :: t.active[k] in s.records;
    }
    assert s.handlers == t.handlers by {
      assert forall h | h in s.handlers :: s.handlers[h] in t.records;
      assert forall h | h in t.handlers :: t.handlers[h] in s.records;
    }
  }

  lemma StateDetermined(pools: map<PoolId, PoolOwnership>, s: StateTables, t: StateTables)
    requires StateRight(pools, s) && StateRight(pools, t)
    ensures s == t
  {
    hide IsReverse, Associated, WholeAccounts, Slots, Emitters;
    ReverseIsUnique(s.addresses, t.addresses, Associated(pools));
    ReverseIsUnique(s.wholeAccounts, t.wholeAccounts, WholeAccounts(pools));
    ReverseIsUnique(s.slots, t.slots, Slots(pools));
    ReverseIsUnique(s.emitters, t.emitters, Emitters(pools));
  }

  lemma DiscoveryDetermined(s: DiscoveryTables, t: DiscoveryTables, adapters: set<AdapterId>)
    requires DiscoveryRight(s, adapters) && DiscoveryRight(t, adapters) && s.records == t.records
    ensures s == t
  {
    ReverseIsUnique(s.byAdapter, t.byAdapter, TargetOf(s.records));
    hide IsReverse, TargetOf;
    assert s.active == t.active by {
      assert forall k | k in s.active :: s.active[k] in t.records;
      assert forall k | k in t.active :: t.active[k] in s.records;
    }
  }

  lemma ResyncsDetermined(pools: set<PoolId>, s: ResyncTables, t: ResyncTables)
    requires ResyncsRight(pools, s) && ResyncsRight(pools, t) && s.byPool == t.byPool
    ensures s == t
  {
    hide Distinct;
    assert s.owners == t.owners by {
      assert forall x | x in s.owners :: s.owners[x] in t.byPool && x in t.byPool[s.owners[x]];
      assert forall x | x in t.owners :: t.owners[x] in s.byPool && x in s.byPool[t.owners[x]];
    }
  }

  /** At most one generation of a pool key is indexed, and each handler serves one pool. */
  lemma OneLiveGeneration(t: PoolTables, p: PoolId, q: PoolId)
    requires PoolsRight(t) && p in t.records && q in t.records
    requires p.key == q.key || t.records[p].handler == t.records[q].handler
    ensures p == q
  {
  }

  // --------------------------------------------------------------------- round trip

  /** What a pool may do with its own work and resyncs between insertion and removal. */
  datatype OwnStep =
    | Begin(id: nat)
    | End(id: nat)
    | Request(resync: Resync)
    | Settle(resync: Resync)

  /** The attempts begun and not ended. */
  function OpenWork(owner: Owner, steps: seq<OwnStep>): set<Work> {
    if steps == [] then {} else WorkAfter(owner, OpenWork(owner, steps[..|steps| - 1]), steps[|steps| - 1])
  }

  function WorkAfter(owner: Owner, open: set<Work>, step: OwnStep): set<Work> {
    if step.Begin? then open + {Work(owner, step.id)}
    else if step.End? then open - {Work(owner, step.id)}
    else open
  }

  /** The requests made, in order, and not settled; a request another pool owns is refused. */
  function OpenResyncs(taken: set<Resync>, steps: seq<OwnStep>): seq<Resync> {
    if steps == [] then [] else ResyncsAfter(taken, OpenResyncs(taken, steps[..|steps| - 1]), steps[|steps| - 1])
  }

  function ResyncsAfter(taken: set<Resync>, open: seq<Resync>, step: OwnStep): seq<Resync> {
    if step.Request? then if step.resync in taken || step.resync in open then open else open + [step.resync]
    else if step.Settle? then Retained(open, step.resync)
    else open
  }

  /** Between its insertion and its removal, the pool's own entries are all that differ. */
  ghost predicate OnlyOwn(r: Records, before: Records, o: PoolOwnership) {
    && o.instance in r.pools && r.pools[o.instance] == o
    && WithoutPool(r, o.instance) == before
  }

  /** ... and these are the entries. */
  ghost predicate Holds(r: Records, before: Records, o: PoolOwnership, open: set<Work>, requested: seq<Resync>) {
    && OnlyOwn(r, before, o)
    && WorkOf(r, OfPool(o.instance)) == open
    && ResyncsFor(r, o.instance) == requested
  }

  /** Settling a request the pool does not hold leaves its list alone. */
  lemma {:induction false} RetainedAbsent(resyncs: seq<Resync>, x: Resync)
    requires x !in resyncs
    ensures Retained(resyncs, x) == resyncs
  {
    if resyncs != [] {
      RetainedAbsent(resyncs[1..], x);
    }
  }

  lemma HoldsWork(r: Records, before: Records, o: PoolOwnership, open: set<Work>, requested: seq<Resync>,
                  work: set<Work>)
    requires Holds(r, before, o, open, requested)
    ensures Holds(SetWork(r, OfPool(o.instance), work), before, o, work, requested)
    ensures Live(r, OfPool(o.instance))
  {
  }

  lemma HoldsResyncs(r: Records, before: Records, o: PoolOwnership, open: set<Work>, requested: seq<Resync>,
                     resyncs: seq<Resync>)
    requires Holds(r, before, o, open, requested)
    ensures Holds(SetResyncs(r, o.instance, resyncs), before, o, open, resyncs)
  {
  }

  /** Which requests some pool holds. */
  function Taken(r: Records): set<Resync> {
    set p, x | p in r.resyncs && x in r.resyncs[p] :: x
  }

  lemma TakenSplits(r: Records, before: Records, o: PoolOwnership, x: Resync)
    requires OnlyOwn(r, before, o)
    ensures (exists p :: p in r.resyncs && x in r.resyncs[p]) <==> x in Taken(before) || x in ResyncsFor(r, o.instance)
    ensures forall p :: x in ResyncsFor(r, p) ==> x in Taken(before) || p == o.instance
  {
    if x in ResyncsFor(r, o.instance) {
      assert o.instance in r.resyncs;
    }
    if x in Taken(before) {
      var p :| p in before.resyncs && x in before.resyncs[p];
      assert p in r.resyncs && x in r.resyncs[p];
    }
    forall p | x in ResyncsFor(r, p) && p != o.instance ensures x in Taken(before) {
      assert p in before.resyncs && x in before.resyncs[p];
    }
    if p :| p in r.resyncs && x in r.resyncs[p] {
      assert x in ResyncsFor(r, p);
    }
  }

  method StepWork(index: AmmOwnershipIndex, o: PoolOwnership, step: OwnStep, ghost before: Records,
                  ghost open: set<Work>, ghost requested: seq<Resync>)
    requires index.Agrees() && Holds(index.Recorded(), before, o, open, requested) && (step.Begin? || step.End?)
    modifies index
    ensures index.Agrees() && Holds(index.Recorded(), before, o, WorkAfter(OfPool(o.instance), open, step), requested)
  {
    hide AmmOwnershipIndex.Agrees, SetWork, Live, OnlyOwn;
    var work := Work(OfPool(o.instance), step.id);
    HoldsWork(index.Recorded(), before, o, open, requested, WorkAfter(OfPool(o.instance), open, step));
    if step.Begin? {
      var r := index.TrackWork(work);
      assert r.Err? ==> open + {work} == open;
    } else {
      var r := index.UntrackWork(work);
      assert !r ==> open - {work} == open;
    }
  }

  method StepResync(index: AmmOwnershipIndex, o: PoolOwnership, step: OwnStep, ghost before: Records,
                    ghost open: set<Work>, ghost requested: seq<Resync>)
    requires index.Agrees() && Holds(index.Recorded(), before, o, open, requested) && (step.Request? || step.Settle?)
    requires step.Settle? ==> step.resync !in Taken(before)
    modifies index
    ensures index.Agrees() && Holds(index.Recorded(), before, o, open, ResyncsAfter(Taken(before), requested, step))
  {
    TakenSplits(index.Recorded(), before, o, step.resync);
    assert o.instance in index.pools.records;
    hide AmmOwnershipIndex.Agrees, SetResyncs, Retained, Taken, OnlyOwn;
    var x := step.resync;
    HoldsResyncs(index.Recorded(), before, o, open, requested, if step.Request? then requested + [x]
                 else Retained(requested, x));
    if step.Request? {
      var r := index.TrackResync(o.instance, x);
    } else {
      if x !in requested {
        RetainedAbsent(requested, x);
      }
      var r := index.UntrackResync(x);
    }
  }

  /**
   Inserting a pool, doing anything with its own work and resyncs, and removing it
   restores every table and reports exactly what was still open.
   */
  method RoundTrip(index: AmmOwnershipIndex, o: PoolOwnership, steps: seq<OwnStep>)
      returns (removal: Option<PoolRemoval>)
    requires index.Agrees() && InsertPoolError(index.Recorded(), o).None?
    requires forall step | step in steps && step.Settle? :: step.resync !in Taken(index.Recorded())
    modifies index
    ensures unchanged(index`adapters) && unchanged(index`pools) && unchanged(index`state)
    ensures unchanged(index`discovery) && unchanged(index`ownerWork) && unchanged(index`resyncs)
    ensures removal == Some(PoolRemoval(o, OpenWork(OfPool(o.instance), steps),
                                        old(OpenResyncs(Taken(index.Recorded()), steps))))
  {
    hide PoolsRight, AdaptersRight, StateRight, ServedRight, DiscoveryRight, WorkRight, ResyncsRight, Taken;
    ghost var before := index.Recorded();
    ghost var owner := OfPool(o.instance);
    ghost var taken := Taken(before);
    NothingBefore(index, o);
    var _ := index.InsertPool(o);
    assert steps[..0] == [];
    for i := 0 to |steps|
      invariant index.Agrees()
      invariant Holds(index.Recorded(), before, o, OpenWork(owner, steps[..i]), OpenResyncs(taken, steps[..i]))
    {
      assert steps[..i + 1][..i] == steps[..i];
      if steps[i].Begin? || steps[i].End? {
        StepWork(index, o, steps[i], before, OpenWork(owner, steps[..i]), OpenResyncs(taken, steps[..i]));
      } else {
        StepResync(index, o, steps[i], before, OpenWork(owner, steps[..i]), OpenResyncs(taken, steps[..i]));
      }
    }
    assert steps[..|steps|] == steps;
    removal := index.RemovePool(o.instance);
    AdaptersDetermined(old(index.adapters), index.adapters);
    PoolsDetermined(old(index.pools), index.pools);
    StateDetermined(index.pools.records, old(index.state), index.state);
    DiscoveryDetermined(old(index.discovery), index.discovery, index.adapters.live);
    ResyncsDetermined(index.pools.records.Keys, old(index.resyncs), index.resyncs);
  }

  /** A pool that may be inserted has no entries of its own yet. */
  lemma NothingBefore(index: AmmOwnershipIndex, o: PoolOwnership)
    requires index.Agrees() && InsertPoolError(index.Recorded(), o).None?
    ensures Holds(WithPool(index.Recorded(), o), index.Recorded(), o, {}, [])
  {
    hide AdaptersRight, PoolsRight, ServedRight, StateRight, DiscoveryRight, Distinct;
    assert o.instance !in index.Recorded().pools;
    assert OfPool(o.instance) !in index.ownerWork;
  }
}
