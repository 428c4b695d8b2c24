/**
 Quote readiness: learned read sets of representative quotes grow under a bound, are
 invalidated when code changes, and are replayed against a snapshot without a provider.
 The check is fail-closed, and growth makes it converge.
 */
module QuoteReadiness {
  import opened Wrappers

  type PoolKey = nat
  type Protocol = nat
  type Quote = nat

  datatype Request = Request(pool: PoolKey, tokenIn: nat, tokenOut: nat, amountIn: nat)

  /** The accounts, runtime code, storage slots and block hashes a quote touches. */
  datatype ReadSet = ReadSet(accounts: set<nat>, codeHashes: set<nat>, slots: set<(nat, nat)>, blocks: set<nat>)

  const NO_READS: ReadSet := ReadSet({}, {}, {}, {})

  datatype Limits = Limits(maxAccounts: nat, maxCodeHashes: nat, maxSlots: nat, maxBlockHashes: nat)

  predicate Accepts(limits: Limits, access: ReadSet) {
    && |access.accounts| <= limits.maxAccounts
    && |access.codeHashes| <= limits.maxCodeHashes
    && |access.slots| <= limits.maxSlots
    && |access.blocks| <= limits.maxBlockHashes
  }

  function Extended(a: ReadSet, b: ReadSet): ReadSet {
    ReadSet(a.accounts + b.accounts, a.codeHashes + b.codeHashes, a.slots + b.slots, a.blocks + b.blocks)
  }

  predicate Within(a: ReadSet, b: ReadSet) {
    a.accounts <= b.accounts && a.codeHashes <= b.codeHashes && a.slots <= b.slots && a.blocks <= b.blocks
  }

  function Minus(a: ReadSet, b: ReadSet): ReadSet {
    ReadSet(a.accounts - b.accounts, a.codeHashes - b.codeHashes, a.slots - b.slots, a.blocks - b.blocks)
  }

  predicate Disjoint(a: ReadSet, b: ReadSet) {
    a.accounts !! b.accounts && a.codeHashes !! b.codeHashes && a.slots !! b.slots && a.blocks !! b.blocks
  }

  function Size(a: ReadSet): nat {
    |a.accounts| + |a.codeHashes| + |a.slots| + |a.blocks|
  }

  function Total(limits: Limits): nat {
    limits.maxAccounts + limits.maxCodeHashes + limits.maxSlots + limits.maxBlockHashes
  }

  /** A replay without a provider: its quote unless the adapter failed, and what it found absent. */
  datatype Replay = Replay(quote: Option<Quote>, missing: ReadSet)

  /** An immutable snapshot: what it holds, and how each quote replays over it. */
  datatype Snapshot = Snapshot(resident: ReadSet, replay: Request -> Replay)

  /** A replay reports only state that the snapshot does not hold. */
  ghost predicate Honest(s: Snapshot) {
    forall r: Request :: Disjoint(s.replay(r).missing, s.resident)
  }

  datatype Error =
    | UnknownPool(pool: PoolKey)
    | MissingAdapter(protocol: Protocol)
    | MissingReadSet(pool: PoolKey)
    | Simulation(request: Request)
    | IncompleteSnapshot(request: Request, missing: ReadSet)
    | ReplayMismatch(request: Request, canonical: Quote, offline: Quote)
    | ReadSetLimit(request: Request, access: ReadSet)

  function ValidateOne(s: Snapshot, request: Request): Result<Quote, Error> {
    var replay := s.replay(request);
    if replay.missing != NO_READS then Err(IncompleteSnapshot(request, replay.missing))
    else if replay.quote.None? then Err(Simulation(request))
    else Ok(replay.quote.value)
  }

  function EnsureWithinLimits(limits: Limits, request: Request, access: ReadSet): (r: Option<Error>)
    ensures r.None? <==> Accepts(limits, access)
  {
    if Accepts(limits, access) then None else Some(ReadSetLimit(request, access))
  }

  /** The registered pools with their protocols, the protocols with an adapter, and the bounds. */
  datatype Setup = Setup(pools: map<PoolKey, Protocol>, adapters: set<Protocol>, limits: Limits)

  /** What stops a request before it is simulated. */
  function Unserved(setup: Setup, request: Request): Option<Error> {
    if request.pool !in setup.pools then Some(UnknownPool(request.pool))
    else if setup.pools[request.pool] !in setup.adapters then Some(MissingAdapter(setup.pools[request.pool]))
    else None
  }

  /** All the learned manifests are within their bound. */
  predicate Bounded(setup: Setup, manifests: map<Request, ReadSet>) {
    forall r | r in manifests :: Accepts(setup.limits, manifests[r])
  }

  /** What is wrong with a learned request on this snapshot, if anything. */
  function Fault(setup: Setup, s: Snapshot, request: Request, manifest: ReadSet): Option<Error> {
    if Unserved(setup, request).Some? then Unserved(setup, request)
    else
      match ValidateOne(s, request)
      case Ok(_) => None
      case Err(e) =>
        if e.IncompleteSnapshot? && !Accepts(setup.limits, Extended(manifest, e.missing))
        then Some(ReadSetLimit(request, Extended(manifest, e.missing)))
        else Some(e)
  }

  /** Learned requests are replayed in the order of their fields. */
  predicate RequestLeq(a: Request, b: Request) {
    a.pool < b.pool
    || (a.pool == b.pool
        && (a.tokenIn < b.tokenIn
            || (a.tokenIn == b.tokenIn && (a.tokenOut < b.tokenOut
                                           || (a.tokenOut == b.tokenOut && a.amountIn <= b.amountIn)))))
  }

  lemma {:induction false} LeastRequest(requests: set<Request>)
    requires requests != {}
    ensures exists least :: least in requests && forall other | other in requests :: RequestLeq(least, other)
  {
    var r :| r in requests;
    if requests == {r} {
      assert r in requests && forall other | other in requests :: RequestLeq(r, other);
    } else {
      LeastRequest(requests - {r});
      var rest :| rest in requests - {r} && forall other | other in requests - {r} :: RequestLeq(rest, other);
      var least := if RequestLeq(r, rest) then r else rest;
      forall other | other in requests ensures RequestLeq(least, other) {
        assert other == r || other in requests - {r};
      }
      assert least in requests && forall other | other in requests :: RequestLeq(least, other);
    }
  }

  predicate Covered(manifests: map<Request, ReadSet>, pool: PoolKey) {
    exists r :: r in manifests && r.pool == pool
  }

  /** The requests a readiness check of these pools replays. */
  function Selected(manifests: map<Request, ReadSet>, pools: set<PoolKey>): set<Request> {
    set r | r in manifests && r.pool in pools
  }

  datatype Check = Check(snapshot: Snapshot, pools: set<PoolKey>, outcome: Result<nat, Error>)

  /** The first request of the order that has a fault. */
  ghost predicate FirstFault(setup: Setup, s: Snapshot, manifests: map<Request, ReadSet>, selected: set<Request>,
                             r: Request)
    requires selected <= manifests.Keys
  {
    && r in selected && Fault(setup, s, r, manifests[r]).Some?
    && forall other | other in selected && other != r && RequestLeq(other, r) ::
        Fault(setup, s, other, manifests[other]).None?
  }

  /** The manifests once a fault has been answered: an incomplete replay teaches the one it blames. */
  function Taught(manifests: map<Request, ReadSet>, r: Request, fault: Error): map<Request, ReadSet>
    requires r in manifests
  {
    if fault.IncompleteSnapshot? then manifests[r := Extended(manifests[r], fault.missing)] else manifests
  }

  /**
   What one readiness check answers and changes. A listed pool without a manifest fails
   it first, when coverage is required. Otherwise the first faulty request in order
   decides; without one the check passes and counts its requests.
   */
  ghost predicate Checked(setup: Setup, before: map<Request, ReadSet>, required: bool, check: Check,
                          after: map<Request, ReadSet>) {
    var selected := Selected(before, check.pools);
    if required && exists p :: p in check.pools && !Covered(before, p) then
      && check.outcome.Err? && check.outcome.error.MissingReadSet?
      && check.outcome.error.pool in check.pools && !Covered(before, check.outcome.error.pool)
      && after == before
    else if forall r | r in selected :: Fault(setup, check.snapshot, r, before[r]).None? then
      check.outcome == Ok(|selected|) && after == before
    else
      exists r :: FirstFault(setup, check.snapshot, before, selected, r) && Blamed(setup, before, check, after, r)
  }

  ghost predicate Blamed(setup: Setup, before: map<Request, ReadSet>, check: Check, after: map<Request, ReadSet>,
                         r: Request)
    requires r in before
  {
    var fault := Fault(setup, check.snapshot, r, before[r]);
    fault.Some? && check.outcome == Err(fault.value) && after == Taught(before, r, fault.value)
  }

  /** The manifests after a batch of warmups, in request order. */
  function Installed(before: map<Request, ReadSet>, learned: seq<(Request, ReadSet)>): map<Request, ReadSet> {
    if learned == [] then before
    else Installed(before, learned[..|learned| - 1])[learned[|learned| - 1].0 := learned[|learned| - 1].1]
  }

  /** The canonical execution of one warmup: its quote and everything it read, or a failure. */
  datatype Warmup = Warmup(quote: Quote, accesses: ReadSet)

  /** Hydration at the canonical pin: what failed, whose code changed, and what the cache holds afterwards. */
  datatype Hydration = Hydration(failures: nat, changedCode: set<nat>, resident: ReadSet)

  datatype HydrationReport = HydrationReport(failures: nat, changedCode: set<nat>, invalidated: set<Request>,
                                             missingAfter: ReadSet) {
    predicate IsComplete() {
      failures == 0 && changedCode == {} && invalidated == {} && missingAfter == NO_READS
    }
  }

  /** Everything of one kind that the manifests name. */
  ghost function Named<T>(manifests: map<Request, ReadSet>, kind: ReadSet -> set<T>): set<T> {
    set r, x | r in manifests && x in kind(manifests[r]) :: x
  }

  /** Everything the manifests name. */
  ghost function AllReads(manifests: map<Request, ReadSet>): ReadSet {
    ReadSet(Named(manifests, (a: ReadSet) => a.accounts), Named(manifests, (a: ReadSet) => a.codeHashes),
            Named(manifests, (a: ReadSet) => a.slots), Named(manifests, (a: ReadSet) => a.blocks))
  }

  lemma NamedBy<T>(manifests: map<Request, ReadSet>, kind: ReadSet -> set<T>, r: Request)
    requires r in manifests
    ensures kind(manifests[r]) <= Named(manifests, kind)
  {
  }

  lemma NamedMore<T>(some: map<Request, ReadSet>, r: Request, access: ReadSet, kind: ReadSet -> set<T>)
    requires r !in some
    ensures Named(some[r := access], kind) == Named(some, kind) + kind(access)
  {
    var more := some[r := access];
    forall x | x in Named(more, kind) ensures x in Named(some, kind) + kind(access) {
      var q :| q in more && x in kind(more[q]);
      assert q == r || (q in some && x in kind(some[q]));
    }
    forall x | x in Named(some, kind) ensures x in Named(more, kind) {
      var q :| q in some && x in kind(some[q]);
      assert q in more && x in kind(more[q]);
    }
    NamedBy(more, kind, r);
    assert Named(more, kind) <= Named(some, kind) + kind(access);
    assert Named(some, kind) + kind(access) <= Named(more, kind);
  }

  /** The manifests that do not depend on changed code. */
  function Kept(manifests: map<Request, ReadSet>, changedCode: set<nat>): map<Request, ReadSet> {
    map r | r in manifests && manifests[r].codeHashes !! changedCode :: manifests[r]
  }

  ghost function ReportOf(manifests: map<Request, ReadSet>, h: Hydration): HydrationReport {
    HydrationReport(h.failures, h.changedCode,
                    manifests.Keys - Kept(manifests, h.changedCode).Keys,
                    Minus(AllReads(manifests), h.resident))
  }

  /** A complete report says that every manifest is kept and that all it names is held. */
  lemma CompleteIsResident(manifests: map<Request, ReadSet>, h: Hydration)
    requires ReportOf(manifests, h).IsComplete()
    ensures Kept(manifests, h.changedCode) == manifests
    ensures forall r | r in manifests :: Within(manifests[r], h.resident)
  {
    var all := AllReads(manifests);
    forall r | r in manifests ensures Within(manifests[r], h.resident) {
      NamedBy(manifests, (a: ReadSet) => a.accounts, r);
      NamedBy(manifests, (a: ReadSet) => a.codeHashes, r);
      NamedBy(manifests, (a: ReadSet) => a.slots, r);
      NamedBy(manifests, (a: ReadSet) => a.blocks, r);
      assert Within(manifests[r], all);
      assert Within(all, h.resident) by {
        EmptyDifference(all.accounts, h.resident.accounts);
        EmptyDifference(all.codeHashes, h.resident.codeHashes);
        EmptyDifference(all.slots, h.resident.slots);
        EmptyDifference(all.blocks, h.resident.blocks);
      }
    }
  }

  lemma EmptyDifference<T>(a: set<T>, b: set<T>)
    requires a - b == {}
    ensures a <= b
  {
    forall x | x in a ensures x in b {
      assert x in a - b || x in b;
    }
  }

  class QuoteRegistry {
    const setup: Setup
    var manifests: map<Request, ReadSet>
    var required: bool

    constructor (setup: Setup)
      ensures this.setup == setup && manifests == map[] && !required
    {
      this.setup, manifests, required := setup, map[], false;
    }

    /** Learn a batch of representative quotes; installs all of them or none. */
    method WarmQuoteReadSets(requests: seq<Request>, live: (nat, Request) -> Option<Warmup>, snapshots: nat -> Snapshot)
      returns (r: Result<seq<(Request, ReadSet)>, Error>)
      requires Bounded(setup, manifests)
      modifies this
      ensures Bounded(setup, manifests)
      ensures r.Err? ==> manifests == old(manifests) && required == old(required)
      ensures r.Ok? ==>
                && |r.value| == |requests| && (required <==> old(required) || requests != [])
                && manifests == Installed(old(manifests), r.value)
                && forall i: nat | i < |requests| ::
                     && r.value[i].0 == requests[i] && live(i, requests[i]).Some?
                     && r.value[i].1 == live(i, requests[i]).value.accesses
                     && Unserved(setup, requests[i]).None?
                     && Accepts(setup.limits, r.value[i].1)
                     && snapshots(i).replay(requests[i]) == Replay(Some(live(i, requests[i]).value.quote), NO_READS)
    {
      var learned: seq<(Request, ReadSet)> := [];
      for i := 0 to |requests|
        invariant |learned| == i && manifests == old(manifests) && required == old(required)
        invariant forall j: nat | j < i ::
                    && learned[j].0 == requests[j] && live(j, requests[j]).Some?
                    && learned[j].1 == live(j, requests[j]).value.accesses && Accepts(setup.limits, learned[j].1)
                    && Unserved(setup, requests[j]).None?
                    && snapshots(j).replay(requests[j]) == Replay(Some(live(j, requests[j]).value.quote), NO_READS)
      {
        var unserved := Unserved(setup, requests[i]);
        if unserved.Some? {
          return Err(unserved.value);
        }
        var run := live(i, requests[i]);
        if run.None? {
          return Err(Simulation(requests[i]));
        }
        var over := EnsureWithinLimits(setup.limits, requests[i], run.value.accesses);
        if over.Some? {
          return Err(over.value);
        }
        var offline := ValidateOne(snapshots(i), requests[i]);
        if offline.Err? {
          return Err(offline.error);
        }
        if offline.value != run.value.quote {
          return Err(ReplayMismatch(requests[i], run.value.quote, offline.value));
        }
        learned := learned + [(requests[i], run.value.accesses)];
      }
      for i := 0 to |learned|
        invariant manifests == Installed(old(manifests), learned[..i]) && Bounded(setup, manifests)
                && required == old(required)
      {
        assert learned[..i + 1][..i] == learned[..i];
        manifests := manifests[learned[i].0 := learned[i].1];
      }
      assert learned[..|learned|] == learned;
      required := required || learned != [];
      r := Ok(learned);
    }

    /**
     Refresh everything the manifests name and drop every manifest that depended on code
     that has changed. Any snapshot that holds what a complete hydration left in the
     cache holds everything the manifests name.
     */
    method HydrateQuoteReadSets(hydrate: ReadSet -> Hydration) returns (report: HydrationReport)
      modifies `manifests
      ensures var h := hydrate(AllReads(old(manifests)));
              && report == ReportOf(old(manifests), h)
              && manifests == Kept(old(manifests), h.changedCode)
              && (report.IsComplete() ==>
                    manifests == old(manifests)
                    && forall s: Snapshot | Within(h.resident, s.resident) :: Resident(manifests, s))
      ensures Bounded(setup, old(manifests)) ==> Bounded(setup, manifests)
    {
      hide AllReads, Kept, Resident, Within;
      var all := Required();
      var hydrated := hydrate(all);
      var kept := Kept(manifests, hydrated.changedCode);
      report := HydrationReport(hydrated.failures, hydrated.changedCode, manifests.Keys - kept.Keys,
                                Minus(all, hydrated.resident));
      if report.IsComplete() {
        CompleteIsResident(manifests, hydrated);
        CompleteSnapshots(manifests, hydrated.resident);
      }
      KeptBounded(setup, manifests, hydrated.changedCode);
      manifests := kept;
    }

    /** The union of the manifests. */
    method Required() returns (all: ReadSet)
      ensures all == AllReads(manifests)
    {
      hide AllReads;
      all := NO_READS;
      var rest := manifests.Keys;
      NothingNamed(manifests);
      while rest != {}
        invariant rest <= manifests.Keys
        invariant all == AllReads(Outside(manifests, rest))
        decreases |rest|
      {
        var r :| r in rest;
        OneMoreManifest(manifests, rest, r);
        all := Extended(all, manifests[r]);
        rest := rest - {r};
      }
      assert manifests == Outside(manifests, rest);
    }

    /** Replay the learned quotes of the pools in order; an incomplete replay teaches its manifest. */
    method ValidateQuoteReadSets(snapshot: Snapshot, pools: set<PoolKey>) returns (r: Result<nat, Error>)
      requires Bounded(setup, manifests)
      modifies `manifests
      ensures Bounded(setup, manifests)
      ensures Checked(setup, old(manifests), required, Check(snapshot, pools, r), manifests)
      // fail-closed: nothing was missing from any replay of a check that passes
      ensures r.Ok? ==>
                forall q | q in old(manifests) && q.pool in pools ::
                  snapshot.replay(q).missing == NO_READS && snapshot.replay(q).quote.Some?
    {
      if required && exists p :: p in pools && !Covered(manifests, p) {
        var p :| p in pools && !Covered(manifests, p);
        return Err(MissingReadSet(p));
      }
      var selected := Selected(manifests, pools);
      var rest := selected;
      while rest != {}
        invariant rest <= selected && manifests == old(manifests)
        invariant forall q | q in selected && q !in rest :: Fault(setup, snapshot, q, manifests[q]).None?
        decreases |rest|
      {
        LeastRequest(rest);
        var q :| q in rest && forall other | other in rest :: RequestLeq(q, other);
        var outcome, taught := ReplayLearned(snapshot, q);
        if outcome.Some? {
          assert FirstFault(setup, snapshot, manifests, selected, q) by {
            forall other | other in selected && other != q && RequestLeq(other, q)
              ensures Fault(setup, snapshot, other, manifests[other]).None?
            {
              if other in rest {
                SameRequest(q, other);
              }
            }
          }
          r := Err(outcome.value);
          assert Blamed(setup, manifests, Check(snapshot, pools, r), taught, q);
          manifests := taught;
          return;
        }
        rest := rest - {q};
      }
      forall q | q in manifests && q.pool in pools
        ensures snapshot.replay(q).missing == NO_READS && snapshot.replay(q).quote.Some?
      {
        FaultlessReplay(setup, snapshot, q, manifests[q]);
      }
      r := Ok(|selected|);
    }

    /** One learned request: its fault if any, and the manifests with what an incomplete replay taught. */
    method ReplayLearned(snapshot: Snapshot, q: Request) returns (fault: Option<Error>, taught: map<Request, ReadSet>)
      requires q in manifests && Bounded(setup, manifests)
      ensures fault == Fault(setup, snapshot, q, manifests[q])
      ensures taught == if fault.Some? then Taught(manifests, q, fault.value) else manifests
      ensures Bounded(setup, taught)
    {
      taught := manifests;
      fault := Unserved(setup, q);
      if fault.Some? {
        return;
      }
      var result := ValidateOne(snapshot, q);
      if result.Err? {
        if result.error.IncompleteSnapshot? {
          var grown := Extended(manifests[q], result.error.missing);
          var over := EnsureWithinLimits(setup.limits, q, grown);
          if over.Some? {
            return over, manifests;
          }
          taught := manifests[q := grown];
        }
        fault := Some(result.error);
      }
    }
  }

  lemma FaultlessReplay(setup: Setup, s: Snapshot, q: Request, manifest: ReadSet)
    requires Fault(setup, s, q, manifest).None?
    ensures s.replay(q).missing == NO_READS && s.replay(q).quote.Some?
  {
  }

  lemma SameRequest(a: Request, b: Request)
    requires RequestLeq(a, b) && RequestLeq(b, a)
    ensures a == b
  {
  }

  lemma NothingNamed(manifests: map<Request, ReadSet>)
    ensures AllReads(Outside(manifests, manifests.Keys)) == NO_READS
  {
    assert Outside(manifests, manifests.Keys) == map[];
  }

  function Outside(manifests: map<Request, ReadSet>, rest: set<Request>): map<Request, ReadSet> {
    map r | r in manifests && r !in rest :: manifests[r]
  }

  lemma CompleteSnapshots(manifests: map<Request, ReadSet>, resident: ReadSet)
    requires forall r | r in manifests :: Within(manifests[r], resident)
    ensures forall s: Snapshot | Within(resident, s.resident) :: Resident(manifests, s)
  {
  }

  lemma KeptBounded(setup: Setup, manifests: map<Request, ReadSet>, changedCode: set<nat>)
    ensures Bounded(setup, manifests) ==> Bounded(setup, Kept(manifests, changedCode))
  {
  }

  lemma OneMoreManifest(manifests: map<Request, ReadSet>, rest: set<Request>, r: Request)
    requires r in rest && rest <= manifests.Keys
    ensures AllReads(Outside(manifests, rest - {r})) == Extended(AllReads(Outside(manifests, rest)), manifests[r])
  {
    var some, more := Outside(manifests, rest), Outside(manifests, rest - {r});
    assert more.Keys == some.Keys + {r};
    assert more == some[r := manifests[r]];
    AllReadsExtended(some, r, manifests[r]);
  }

  lemma AllReadsExtended(some: map<Request, ReadSet>, r: Request, access: ReadSet)
    requires r !in some
    ensures AllReads(some[r := access]) == Extended(AllReads(some), access)
  {
    NamedMore(some, r, access, (a: ReadSet) => a.accounts);
    NamedMore(some, r, access, (a: ReadSet) => a.codeHashes);
    NamedMore(some, r, access, (a: ReadSet) => a.slots);
    NamedMore(some, r, access, (a: ReadSet) => a.blocks);
  }

  // -------------------------------------------------------------------- convergence

  /** Everything the manifests name is in the snapshot, as after a complete hydration. */
  predicate Resident(manifests: map<Request, ReadSet>, s: Snapshot) {
    forall r | r in manifests :: Within(manifests[r], s.resident)
  }

  lemma AcceptedSize(limits: Limits, a: ReadSet)
    requires Accepts(limits, a)
    ensures Size(a) <= Total(limits)
  {
  }

  /** New reads that are not in a set make it strictly larger. */
  lemma GrowsStrictly(a: ReadSet, b: ReadSet)
    requires Disjoint(a, b) && b != NO_READS
    ensures Size(Extended(a, b)) > Size(a)
  {
    assert |a.accounts + b.accounts| == |a.accounts| + |b.accounts|;
    assert |a.codeHashes + b.codeHashes| == |a.codeHashes| + |b.codeHashes|;
    assert |a.slots + b.slots| == |a.slots| + |b.slots|;
    assert |a.blocks + b.blocks| == |a.blocks| + |b.blocks|;
  }

  predicate Incomplete(check: Check) {
    check.outcome.Err? && check.outcome.error.IncompleteSnapshot?
  }

  /** After a complete hydration, an incomplete check strictly grows the manifest it blames and no other. */
  lemma IncompleteGrows(setup: Setup, before: map<Request, ReadSet>, required: bool, check: Check,
                        after: map<Request, ReadSet>)
    requires Checked(setup, before, required, check, after) && Bounded(setup, before)
    requires Honest(check.snapshot) && Resident(before, check.snapshot)
    ensures Bounded(setup, after) && after.Keys == before.Keys
    ensures !Incomplete(check) ==> after == before
    ensures Incomplete(check) ==>
              var q := check.outcome.error.request;
              q in before && after == before[q := after[q]] && Size(after[q]) > Size(before[q])
  {
    hide Blamed, Covered, Resident, Bounded, Fault;
    var selected := Selected(before, check.pools);
    if r :| FirstFault(setup, check.snapshot, before, selected, r) && Blamed(setup, before, check, after, r) {
      BlamedGrows(setup, before, check, after, r);
    }
  }

  lemma BlamedGrows(setup: Setup, before: map<Request, ReadSet>, check: Check, after: map<Request, ReadSet>, r: Request)
    requires r in before && Blamed(setup, before, check, after, r) && Bounded(setup, before)
    requires Honest(check.snapshot) && Resident(before, check.snapshot)
    ensures Bounded(setup, after) && after.Keys == before.Keys
    ensures !Incomplete(check) ==> after == before
    ensures Incomplete(check) ==>
              check.outcome.error.request == r && after == before[r := after[r]] && Size(after[r]) > Size(before[r])
  {
    if Incomplete(check) {
      assert Disjoint(check.snapshot.replay(r).missing, check.snapshot.resident);
      assert Within(before[r], check.snapshot.resident);
      GrowsStrictly(before[r], check.outcome.error.missing);
    }
  }

  /** How much a learned request can still grow. */
  function Room(limits: Limits, manifests: map<Request, ReadSet>, r: Request): nat {
    if r in manifests && Size(manifests[r]) <= Total(limits) then Total(limits) - Size(manifests[r]) else 0
  }

  function RoomOf(limits: Limits, manifests: map<Request, ReadSet>, requests: seq<Request>): nat {
    if requests == [] then 0
    else RoomOf(limits, manifests, requests[..|requests| - 1]) + Room(limits, manifests, requests[|requests| - 1])
  }

  /** Room never grows when manifests are dropped or learn more, and shrinks for one that learns. */
  lemma {:induction false} RoomShrinks(limits: Limits, before: map<Request, ReadSet>, after: map<Request, ReadSet>,
                                       requests: seq<Request>)
    requires after.Keys <= before.Keys
    requires forall r | r in after :: Size(before[r]) <= Size(after[r]) <= Total(limits)
    ensures RoomOf(limits, after, requests) <= RoomOf(limits, before, requests)
    ensures (exists r :: r in after && r in requests && Size(before[r]) < Size(after[r])) ==>
              RoomOf(limits, after, requests) < RoomOf(limits, before, requests)
  {
    if requests != [] {
      var front, last := requests[..|requests| - 1], requests[|requests| - 1];
      RoomShrinks(limits, before, after, front);
      assert requests == front + [last];
      assert Room(limits, after, last) <= Room(limits, before, last);
    }
  }

  lemma {:induction false} RoomIsBounded(limits: Limits, manifests: map<Request, ReadSet>, requests: seq<Request>)
    ensures RoomOf(limits, manifests, requests) <= |requests| * Total(limits)
  {
    if requests != [] {
      RoomIsBounded(limits, manifests, requests[..|requests| - 1]);
      assert |requests| * Total(limits) == (|requests| - 1) * Total(limits) + Total(limits);
    }
  }

  lemma {:induction false} Listed(requests: set<Request>) returns (list: seq<Request>)
    ensures |list| == |requests| && forall r :: r in requests <==> r in list
  {
    list := [];
    if requests != {} {
      var r :| r in requests;
      var rest := Listed(requests - {r});
      list := rest + [r];
    }
  }

  // ------------------------------------------------------ hydrating and checking in turn

  /** One round: hydrate, and check on a snapshot of the hydrated cache if hydration was complete. */
  datatype Round = Round(hydration: Hydration, check: Option<Check>)

  ghost predicate IsRound(setup: Setup, required: bool, before: map<Request, ReadSet>, round: Round,
                          after: map<Request, ReadSet>) {
    if ReportOf(before, round.hydration).IsComplete() then
      && round.check.Some?
      && Honest(round.check.value.snapshot)
      && Within(round.hydration.resident, round.check.value.snapshot.resident)
      && Checked(setup, Kept(before, round.hydration.changedCode), required, round.check.value, after)
    else
      round.check.None? && after == Kept(before, round.hydration.changedCode)
  }

  ghost predicate IsRun(setup: Setup, required: bool, states: seq<map<Request, ReadSet>>, rounds: seq<Round>) {
    && |states| == |rounds| + 1
    && Bounded(setup, states[0])
    && forall i: nat | i < |rounds| :: IsRound(setup, required, states[i], rounds[i], states[i + 1])
  }

  predicate FoundIncomplete(round: Round) {
    round.check.Some? && Incomplete(round.check.value)
  }

  /** How many checks of the run found a snapshot incomplete, whatever they blamed. */
  function Incompletes(rounds: seq<Round>): nat {
    if rounds == [] then 0
    else Incompletes(rounds[..|rounds| - 1]) + (if FoundIncomplete(rounds[|rounds| - 1]) then 1 else 0)
  }

  /** A round keeps the bounds, learns nothing new to ask about, and an incomplete check uses up room. */
  lemma RoundUsesRoom(setup: Setup, required: bool, before: map<Request, ReadSet>, round: Round,
                      after: map<Request, ReadSet>, requests: seq<Request>)
    requires Bounded(setup, before) && IsRound(setup, required, before, round, after)
    requires forall r | r in before :: r in requests
    ensures Bounded(setup, after) && after.Keys <= before.Keys
    ensures round.hydration.changedCode == {} ==> after.Keys == before.Keys
    ensures RoomOf(setup.limits, after, requests)
            + (if FoundIncomplete(round) then 1 else 0) <= RoomOf(setup.limits, before, requests)
  {
    hide Checked;
    if round.check.Some? {
      var check := round.check.value;
      CompleteIsResident(before, round.hydration);
      IncompleteGrows(setup, before, required, check, after);
    }
    forall r | r in after ensures Size(before[r]) <= Size(after[r]) <= Total(setup.limits) {
      AcceptedSize(setup.limits, after[r]);
    }
    RoomShrinks(setup.limits, before, after, requests);
  }

  lemma {:induction false} RunUsesRoom(setup: Setup, required: bool, states: seq<map<Request, ReadSet>>,
                                       rounds: seq<Round>, requests: seq<Request>)
    requires IsRun(setup, required, states, rounds)
    requires forall r | r in states[0] :: r in requests
    ensures Bounded(setup, states[|rounds|]) && states[|rounds|].Keys <= states[0].Keys
    ensures Incompletes(rounds) + RoomOf(setup.limits, states[|rounds|], requests) <= RoomOf(setup.limits, states[0],
                requests)
    ensures (forall i: nat | i < |rounds| :: rounds[i].hydration.changedCode == {})
            ==> states[|rounds|].Keys == states[0].Keys
  {
    hide IsRound, Bounded, RoomOf;
    if rounds != [] {
      var last := |rounds| - 1;
      assert IsRun(setup, required, states[..|rounds|], rounds[..last]) by {
        forall i: nat | i < last
          ensures IsRound(setup, required, states[..|rounds|][i], rounds[..last][i], states[..|rounds|][i + 1])
        {
          assert IsRound(setup, required, states[i], rounds[i], states[i + 1]);
        }
      }
      RunUsesRoom(setup, required, states[..|rounds|], rounds[..last], requests);
      RoundUsesRoom(setup, required, states[last], rounds[last], states[last + 1], requests);
    }
  }

  /**
   Readiness converges. However hydration and checks go, over a whole run and all its
   requests no more checks find the snapshot incomplete than the learned manifests have
   room to grow, and no bound is ever exceeded.
   */
  lemma ReadinessConverges(setup: Setup, required: bool, states: seq<map<Request, ReadSet>>, rounds: seq<Round>)
    requires IsRun(setup, required, states, rounds)
    ensures Bounded(setup, states[|rounds|])
    ensures Incompletes(rounds) <= |states[0]| * Total(setup.limits)
  {
    var requests := Listed(states[0].Keys);
    RunUsesRoom(setup, required, states, rounds, requests);
    RoomIsBounded(setup.limits, states[0], requests);
  }

  /** The check passed, or a bound or the adapter failed it. */
  predicate Settled(outcome: Result<nat, Error>) {
    outcome.Ok? || outcome.error.ReadSetLimit? || outcome.error.Simulation?
  }

  lemma ServedSettles(setup: Setup, required: bool, before: map<Request, ReadSet>, check: Check,
                      after: map<Request, ReadSet>)
    requires Checked(setup, before, required, check, after) && !Incomplete(check)
    requires forall r | r in before :: Unserved(setup, r).None?
    requires required ==> forall p | p in check.pools :: Covered(before, p)
    ensures Settled(check.outcome)
  {
  }

  lemma {:induction false} AllIncomplete(rounds: seq<Round>)
    requires forall i: nat | i < |rounds| :: FoundIncomplete(rounds[i])
    ensures Incompletes(rounds) == |rounds|
  {
    if rounds != [] {
      AllIncomplete(rounds[..|rounds| - 1]);
    }
  }

  /**
   The checks come to an end. If every hydration completes, every learned request is
   served and every checked pool is covered, then in any run with more rounds than the
   manifests can grow, some check passes, exceeds a limit or fails in the adapter.
   */
  lemma ReadinessSettles(setup: Setup, required: bool, states: seq<map<Request, ReadSet>>, rounds: seq<Round>)
      returns (i: nat)
    requires IsRun(setup, required, states, rounds)
    requires forall k: nat | k < |rounds| :: ReportOf(states[k], rounds[k].hydration).IsComplete()
    requires forall r | r in states[0] :: Unserved(setup, r).None?
    requires required ==> forall k: nat, p | k < |rounds| && rounds[k].check.Some?
            && p in rounds[k].check.value.pools :: Covered(states[0], p)
    requires |rounds| > |states[0]| * Total(setup.limits)
    ensures i < |rounds| && rounds[i].check.Some? && Settled(rounds[i].check.value.outcome)
  {
    hide Checked, Honest, ReportOf, Bounded, Unserved;
    ReadinessConverges(setup, required, states, rounds);
    if forall k: nat | k < |rounds| :: FoundIncomplete(rounds[k]) {
      AllIncomplete(rounds);
    }
    i :| i < |rounds| && !FoundIncomplete(rounds[i]);
    KeysKept(setup, required, states, rounds, i);
    assert IsRound(setup, required, states[i], rounds[i], states[i + 1]);
    RoundKept(setup, required, states[i], rounds[i], states[i + 1]);
    CoverageIsByKeys(states[0], states[i], rounds[i].check.value.pools);
    ServedSettles(setup, required, states[i], rounds[i].check.value, states[i + 1]);
  }

  /** A completely hydrated round checks the very manifests it began with. */
  lemma RoundKept(setup: Setup, required: bool, before: map<Request, ReadSet>, round: Round,
                  after: map<Request, ReadSet>)
    requires IsRound(setup, required, before, round, after) && ReportOf(before, round.hydration).IsComplete()
    ensures round.check.Some? && Checked(setup, before, required, round.check.value, after)
  {
    hide Checked;
    CompleteIsResident(before, round.hydration);
  }

  lemma CoverageIsByKeys(a: map<Request, ReadSet>, b: map<Request, ReadSet>, pools: set<PoolKey>)
    requires a.Keys == b.Keys
    ensures forall p | p in pools && Covered(a, p) :: Covered(b, p)
  {
  }

  lemma KeysKept(setup: Setup, required: bool, states: seq<map<Request, ReadSet>>, rounds: seq<Round>, i: nat)
    requires IsRun(setup, required, states, rounds) && i <= |rounds|
    requires forall k: nat | k < |rounds| :: ReportOf(states[k], rounds[k].hydration).IsComplete()
    ensures states[i].Keys == states[0].Keys
  {
    hide IsRound, Bounded;
    assert IsRun(setup, required, states[..i + 1], rounds[..i]) by {
      forall k: nat | k < i ensures IsRound(setup, required, states[..i + 1][k], rounds[..i][k],
                                            states[..i + 1][k + 1]) {
        assert IsRound(setup, required, states[k], rounds[k], states[k + 1]);
      }
    }
    var requests := Listed(states[0].Keys);
    RunUsesRoom(setup, required, states[..i + 1], rounds[..i], requests);
  }
}
