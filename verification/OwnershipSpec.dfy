/**
 The tables of the runtime ownership index, the forward records among them, and what
 each mutation does to the records. The invariant says that every other table is what a
 linear scan of the records gives.
 */
module OwnershipSpec {
  import opened Wrappers
  import opened Words
  import opened ReverseIndex

  type Protocol = nat
  type Handler = nat
  type Resync = nat

  datatype StateSlot = StateSlot(address: Address, slot: nat)

  datatype PoolKey = PoolKey(protocol: Protocol, identity: nat)
  datatype PoolId = PoolId(key: PoolKey, generation: nat)
  datatype AdapterKey = AdapterKey(protocols: set<Protocol>)
  datatype AdapterId = AdapterId(key: AdapterKey, generation: nat)
  datatype DiscoveryId = DiscoveryId(key: nat, generation: nat)

  datatype Owner = OfPool(pool: PoolId) | OfAdapter(adapter: AdapterId) | OfDiscovery(discovery: DiscoveryId)
  datatype Work = Work(owner: Owner, id: nat)

  /** State declared by a pool; a canonically sorted list without repeats is modelled as its set. */
  datatype RawDependencies = Dependencies(associated: set<Address>, wholeAccounts: set<Address>, slots: set<StateSlot>)

  /** Every whole account and every slot's contract is also an associated address. */
  predicate Closed(d: RawDependencies) {
    d.wholeAccounts <= d.associated && forall s | s in d.slots :: s.address in d.associated
  }

  /** The builders normalise after every addition, so dependencies are always closed. */
  type Dependencies = d: RawDependencies | Closed(d) witness Dependencies({}, {}, {})

  function Normalized(d: RawDependencies): (r: Dependencies)
    ensures r.wholeAccounts == d.wholeAccounts && r.slots == d.slots
    ensures forall a :: a in r.associated <==>
              a in d.associated || a in d.wholeAccounts || exists s :: s in d.slots && s.address == a
  {
    d.(associated := d.associated + d.wholeAccounts + set s | s in d.slots :: s.address)
  }

  datatype PoolOwnership = PoolOwnership(
    instance: PoolId,
    handler: Handler,
    adapter: AdapterId,
    dependencies: Dependencies,
    emitters: set<Address>)

  datatype Error =
    | DuplicateAdapter(adapterKey: AdapterKey)
    | UnknownAdapter(adapter: AdapterId)
    | AdapterProtocolMismatch(pool: PoolId, adapter: AdapterId)
    | DuplicatePool(key: PoolKey)
    | DuplicateHandler(handler: Handler)
    | DuplicateDiscovery(discoveryKey: nat)
    | DuplicateWork(work: Work)
    | UnknownWorkOwner(owner: Owner)
    | DuplicateResync(resync: Resync)
    | PoolReplacementIdentity(pool: PoolId)
    | UnknownPool(pool: PoolId)
    | AdapterInUse(adapter: AdapterId)

  // The sixteen tables, in the groups that belong together.

  datatype AdapterTables = AdapterTables(live: set<AdapterId>, active: map<AdapterKey, AdapterId>)

  datatype PoolTables = PoolTables(
    records: map<PoolId, PoolOwnership>,
    active: map<PoolKey, PoolId>,
    handlers: map<Handler, PoolId>,
    byAdapter: map<AdapterId, set<PoolId>>)

  datatype StateTables = StateTables(
    addresses: map<Address, set<PoolId>>,
    wholeAccounts: map<Address, set<PoolId>>,
    slots: map<StateSlot, set<PoolId>>,
    emitters: map<Address, set<PoolId>>)

  datatype DiscoveryTables = DiscoveryTables(
    records: map<DiscoveryId, AdapterId>,
    active: map<nat, DiscoveryId>,
    byAdapter: map<AdapterId, set<DiscoveryId>>)

  datatype ResyncTables = ResyncTables(owners: map<Resync, PoolId>, byPool: map<PoolId, seq<Resync>>)

  /** The records everything else is derived from. */
  datatype Records = Records(
    adapters: set<AdapterId>,
    pools: map<PoolId, PoolOwnership>,
    discovery: map<DiscoveryId, AdapterId>,
    work: map<Owner, set<Work>>,
    resyncs: map<PoolId, seq<Resync>>)

  // ---------------------------------------------------- what the records declare

  function Associated(pools: map<PoolId, PoolOwnership>): map<PoolId, set<Address>> {
    map p | p in pools :: pools[p].dependencies.associated
  }

  function WholeAccounts(pools: map<PoolId, PoolOwnership>): map<PoolId, set<Address>> {
    map p | p in pools :: pools[p].dependencies.wholeAccounts
  }

  function Slots(pools: map<PoolId, PoolOwnership>): map<PoolId, set<StateSlot>> {
    map p | p in pools :: pools[p].dependencies.slots
  }

  function Emitters(pools: map<PoolId, PoolOwnership>): map<PoolId, set<Address>> {
    map p | p in pools :: pools[p].emitters
  }

  function AdapterOf(pools: map<PoolId, PoolOwnership>): map<PoolId, set<AdapterId>> {
    map p | p in pools :: {pools[p].adapter}
  }

  function TargetOf(discovery: map<DiscoveryId, AdapterId>): map<DiscoveryId, set<AdapterId>> {
    map d | d in discovery :: {discovery[d]}
  }

  // ------------------------------------------------------------------ invariant

  /** The registered adapters are one live generation per family key. */
  ghost predicate AdaptersRight(t: AdapterTables) {
    && (forall k | k in t.active :: t.active[k] in t.live && t.active[k].key == k)
    && (forall a | a in t.live :: a.key in t.active && t.active[a.key] == a)
  }

  /** The indexed pools are one live generation per pool key, each under a handler of its own. */
  ghost predicate PoolsRight(t: PoolTables) {
    && (forall p | p in t.records :: t.records[p].instance == p)
    && (forall k | k in t.active :: t.active[k] in t.records && t.active[k].key == k)
    && (forall p | p in t.records :: p.key in t.active && t.active[p.key] == p)
    && (forall h | h in t.handlers :: t.handlers[h] in t.records && t.records[t.handlers[h]].handler == h)
    && (forall p | p in t.records :: t.records[p].handler in t.handlers && t.handlers[t.records[p].handler] == p)
    && IsReverse(t.byAdapter, AdapterOf(t.records))
  }

  /** Every indexed pool is served by a registered adapter that speaks its protocol. */
  ghost predicate ServedRight(pools: map<PoolId, PoolOwnership>, adapters: set<AdapterId>) {
    forall p | p in pools :: pools[p].adapter in adapters && p.key.protocol in pools[p].adapter.key.protocols
  }

  /** The four tables keyed by state and emitters are linear scans of the pools. */
  ghost predicate StateRight(pools: map<PoolId, PoolOwnership>, t: StateTables) {
    && IsReverse(t.addresses, Associated(pools))
    && IsReverse(t.wholeAccounts, WholeAccounts(pools))
    && IsReverse(t.slots, Slots(pools))
    && IsReverse(t.emitters, Emitters(pools))
  }

  /** The discovery owners are one live generation per key, each targeting a registered adapter. */
  ghost predicate DiscoveryRight(t: DiscoveryTables, adapters: set<AdapterId>) {
    && (forall k | k in t.active :: t.active[k] in t.records && t.active[k].key == k)
    && (forall d | d in t.records :: d.key in t.active && t.active[d.key] == d)
    && (forall d | d in t.records :: t.records[d] in adapters)
    && IsReverse(t.byAdapter, TargetOf(t.records))
  }

  predicate Live(r: Records, owner: Owner) {
    match owner
    case OfPool(p) => p in r.pools
    case OfAdapter(a) => a in r.adapters
    case OfDiscovery(d) => d in r.discovery
  }

  /** Work is kept only for live owners, under the owner it names. */
  ghost predicate WorkRight(r: Records) {
    forall o | o in r.work ::
      && r.work[o] != {}
      && Live(r, o)
      && forall w | w in r.work[o] :: w.owner == o
  }

  /** Resyncs are kept only for indexed pools, each request under one pool, once. */
  ghost predicate ResyncsRight(pools: set<PoolId>, t: ResyncTables) {
    && (forall p | p in t.byPool :: p in pools && t.byPool[p] != [] && Distinct(t.byPool[p]))
    && (forall r | r in t.owners :: t.owners[r] in t.byPool && r in t.byPool[t.owners[r]])
    && (forall p, r | p in t.byPool && r in t.byPool[p] :: r in t.owners && t.owners[r] == p)
  }

  predicate Distinct(s: seq<Resync>) {
    forall i, j | 0 <= i < j < |s| :: s[i] != s[j]
  }

  // --------------------------------------------------------- effects on records

  /** Why a scan of the records would refuse a new pool. */
  ghost function InsertPoolError(r: Records, o: PoolOwnership): Option<Error> {
    if o.adapter !in r.adapters then Some(UnknownAdapter(o.adapter))
    else if o.instance.key.protocol !in o.adapter.key.protocols then
      Some(AdapterProtocolMismatch(o.instance, o.adapter))
    else if exists p :: p in r.pools && p.key == o.instance.key then Some(DuplicatePool(o.instance.key))
    else if exists p :: p in r.pools && r.pools[p].handler == o.handler then Some(DuplicateHandler(o.handler))
    else None
  }

  function WithPool(r: Records, o: PoolOwnership): Records {
    r.(pools := r.pools[o.instance := o])
  }

  /** Why a scan of the records would refuse a replacement. */
  ghost function ReplacePoolError(r: Records, o: PoolOwnership): Option<Error> {
    if o.instance !in r.pools then Some(UnknownPool(o.instance))
    else if r.pools[o.instance].handler != o.handler || r.pools[o.instance].adapter != o.adapter then
      Some(PoolReplacementIdentity(o.instance))
    else None
  }

  function WithoutPool(r: Records, p: PoolId): Records {
    r.(pools := r.pools - {p}, work := r.work - {OfPool(p)}, resyncs := r.resyncs - {p})
  }

  function WorkOf(r: Records, owner: Owner): set<Work> {
    if owner in r.work then r.work[owner] else {}
  }

  function ResyncsFor(r: Records, p: PoolId): seq<Resync> {
    if p in r.resyncs then r.resyncs[p] else []
  }

  function SetWork(r: Records, owner: Owner, work: set<Work>): Records {
    r.(work := if work == {} then r.work - {owner} else r.work[owner := work])
  }

  function SetResyncs(r: Records, p: PoolId, resyncs: seq<Resync>): Records {
    r.(resyncs := if resyncs == [] then r.resyncs - {p} else r.resyncs[p := resyncs])
  }

  /** The list without every occurrence of one request. */
  function Retained(resyncs: seq<Resync>, gone: Resync): (r: seq<Resync>)
    ensures forall x :: x in r <==> x in resyncs && x != gone
  {
    if resyncs == [] then []
    else if resyncs[0] == gone then Retained(resyncs[1..], gone)
    else [resyncs[0]] + Retained(resyncs[1..], gone)
  }

  lemma {:induction false} RetainedDistinct(resyncs: seq<Resync>, gone: Resync)
    requires Distinct(resyncs)
    ensures Distinct(Retained(resyncs, gone))
  {
    if resyncs != [] {
      RetainedDistinct(resyncs[1..], gone);
      assert resyncs[0] !in resyncs[1..];
    }
  }
}
