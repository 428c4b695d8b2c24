/**
 What a readiness check promises, said in terms of the replays themselves: one that passes
 found nothing missing, and one that fails says exactly why. Also what installing learned
 manifests leaves, what hydration asks for, and when its report is complete.
 */
module QuoteLaws {
  import opened Wrappers
  import opened QuoteReadiness

  /** No account, code, slot or block hash. */
  predicate Nothing(a: ReadSet) {
    a.accounts == {} && a.codeHashes == {} && a.slots == {} && a.blocks == {}
  }

  /** The pool is registered and its protocol has an adapter. */
  predicate HasAdapter(setup: Setup, q: Request) {
    q.pool in setup.pools && setup.pools[q.pool] in setup.adapters
  }

  /** The replay is complete: it has a quote, and found nothing absent. */
  predicate Clean(setup: Setup, s: Snapshot, q: Request) {
    HasAdapter(setup, q) && Nothing(s.replay(q).missing) && s.replay(q).quote.Some?
  }

  /** Some listed pool has no manifest at all. */
  predicate SomeUncovered(manifests: map<Request, ReadSet>, pools: set<PoolKey>) {
    exists p :: p in pools && forall q | q in manifests :: q.pool != p
  }

  /** The manifest together with what was missing, kind by kind. */
  predicate IsUnion(a: ReadSet, b: ReadSet, union: ReadSet) {
    && union.accounts == a.accounts + b.accounts
    && union.codeHashes == a.codeHashes + b.codeHashes
    && union.slots == a.slots + b.slots
    && union.blocks == a.blocks + b.blocks
  }

  /** Some count exceeds its bound. */
  predicate TooLarge(limits: Limits, a: ReadSet) {
    || |a.accounts| > limits.maxAccounts
    || |a.codeHashes| > limits.maxCodeHashes
    || |a.slots| > limits.maxSlots
    || |a.blocks| > limits.maxBlockHashes
  }

  /** By pool, then token in, then token out, then amount. */
  predicate Sooner(a: Request, b: Request) {
    || a.pool < b.pool
    || (a.pool == b.pool && a.tokenIn < b.tokenIn)
    || (a.pool == b.pool && a.tokenIn == b.tokenIn && a.tokenOut < b.tokenOut)
    || (a.pool == b.pool && a.tokenIn == b.tokenIn && a.tokenOut == b.tokenOut && a.amountIn < b.amountIn)
  }

  /** Why the check failed on this request, and what it left. */
  predicate FailedOn(setup: Setup, s: Snapshot, before: map<Request, ReadSet>, q: Request, error: Error,
                     after: map<Request, ReadSet>)
    requires q in before
  {
    if q.pool !in setup.pools then error == UnknownPool(q.pool) && after == before
    else if setup.pools[q.pool] !in setup.adapters then error == MissingAdapter(setup.pools[q.pool]) && after == before
    else if !Nothing(s.replay(q).missing) then
      if error.ReadSetLimit? then
        && error.request == q && IsUnion(before[q], s.replay(q).missing, error.access)
        && TooLarge(setup.limits, error.access) && after == before
      else
        && error == IncompleteSnapshot(q, s.replay(q).missing)
        && q in after && after == before[q := after[q]]
        && IsUnion(before[q], s.replay(q).missing, after[q]) && !TooLarge(setup.limits, after[q])
    else s.replay(q).quote.None? && error == Simulation(q) && after == before
  }

  /** The first request of the checked pools that is not clean, and the failure it gives. */
  ghost predicate FailedFirstOn(setup: Setup, s: Snapshot, before: map<Request, ReadSet>, pools: set<PoolKey>,
                                q: Request,
                                error: Error, after: map<Request, ReadSet>)
  {
    && q in before && q.pool in pools && !Clean(setup, s, q)
    && (forall other | other in before && other.pool in pools && Sooner(other, q) :: Clean(setup, s, other))
    && FailedOn(setup, s, before, q, error, after)
  }

  lemma FaultIsUnclean(setup: Setup, s: Snapshot, q: Request, manifest: ReadSet)
    ensures Fault(setup, s, q, manifest).None? <==> Clean(setup, s, q)
  {
  }

  lemma BlamedFailed(setup: Setup, before: map<Request, ReadSet>, check: Check, after: map<Request, ReadSet>,
                     q: Request)
    requires q in before && Blamed(setup, before, check, after, q)
    ensures check.outcome.Err? && FailedOn(setup, check.snapshot, before, q, check.outcome.error, after)
  {
  }

  lemma SoonerIsBefore(a: Request, b: Request)
    ensures Sooner(a, b) <==> a != b && RequestLeq(a, b)
  {
  }

  /**
   A readiness check is fail-closed. It passes exactly when no listed pool lacks a manifest,
   if that is required, and every learned request of the listed pools is served, has a quote
   and replays with nothing missing; it then counts those requests and changes nothing. It
   fails on an uncovered pool, or on the first request that is not clean, with the reason.
   */
  lemma CheckMeans(setup: Setup, before: map<Request, ReadSet>, required: bool, check: Check,
                   after: map<Request, ReadSet>)
    requires Checked(setup, before, required, check, after)
    ensures check.outcome.Ok? <==>
              && !(required && SomeUncovered(before, check.pools))
              && forall q | q in before && q.pool in check.pools :: Clean(setup, check.snapshot, q)
    ensures check.outcome.Ok? ==>
              check.outcome.value == |set q | q in before && q.pool in check.pools| && after == before
    ensures required && SomeUncovered(before, check.pools) ==>
              && check.outcome.Err? && check.outcome.error.MissingReadSet? && after == before
              && check.outcome.error.pool in check.pools
              && forall q | q in before :: q.pool != check.outcome.error.pool
    ensures check.outcome.Err? && !(required && SomeUncovered(before, check.pools)) ==>
              exists q :: FailedFirstOn(setup, check.snapshot, before, check.pools, q, check.outcome.error, after)
  {
    hide Fault, Blamed, Clean, FailedOn, RequestLeq, Sooner;
    UncoveredIsSo(before, check.pools);
    var selected := Selected(before, check.pools);
    forall q | q in selected ensures Fault(setup, check.snapshot, q, before[q]).None?
        <==> Clean(setup, check.snapshot, q) {
      FaultIsUnclean(setup, check.snapshot, q, before[q]);
    }
    if !(required && SomeUncovered(before, check.pools))
       && exists q :: q in selected && Fault(setup, check.snapshot, q, before[q]).Some?
    {
      var q :| FirstFault(setup, check.snapshot, before, selected, q) && Blamed(setup, before, check, after, q);
      BlamedFailed(setup, before, check, after, q);
      forall other | other in before && other.pool in check.pools && Sooner(other, q)
        ensures Clean(setup, check.snapshot, other)
      {
        SoonerIsBefore(other, q);
        assert other in selected;
      }
      assert FailedFirstOn(setup, check.snapshot, before, check.pools, q, check.outcome.error, after);
    }
  }

  lemma UncoveredIsSo(manifests: map<Request, ReadSet>, pools: set<PoolKey>)
    ensures SomeUncovered(manifests, pools) <==> exists p :: p in pools && !Covered(manifests, p)
    ensures forall p :: Covered(manifests, p) <==> !(forall q | q in manifests :: q.pool != p)
  {
    if p :| p in pools && forall q | q in manifests :: q.pool != p {
      assert !Covered(manifests, p);
    }
  }

  // ----------------------------------------------------------------------- warming

  /** Installing leaves alone what is not learned. */
  lemma {:induction false} InstalledElsewhere(before: map<Request, ReadSet>, learned: seq<(Request, ReadSet)>,
                                              q: Request)
    requires forall i | 0 <= i < |learned| :: learned[i].0 != q
    ensures q in Installed(before, learned) <==> q in before
    ensures q in before ==> Installed(before, learned)[q] == before[q]
  {
    if learned != [] {
      InstalledElsewhere(before, learned[..|learned| - 1], q);
    }
  }

  /** Each learned request has the manifest learned for it last. */
  lemma {:induction false} InstalledLast(before: map<Request, ReadSet>, learned: seq<(Request, ReadSet)>, i: nat)
    requires i < |learned| && forall j | i < j < |learned| :: learned[j].0 != learned[i].0
    ensures learned[i].0 in Installed(before, learned)
    ensures Installed(before, learned)[learned[i].0] == learned[i].1
  {
    if i < |learned| - 1 {
      var front := learned[..|learned| - 1];
      assert front[i] == learned[i];
      InstalledLast(before, front, i);
    }
  }

  // --------------------------------------------------------------------- hydration

  lemma NamedIs<T>(manifests: map<Request, ReadSet>, kind: ReadSet -> set<T>, x: T)
    ensures x in Named(manifests, kind) <==> exists q :: q in manifests && x in kind(manifests[q])
  {
  }

  /** What hydration asks for is exactly what some manifest names. */
  lemma AsksForWhatIsNamed(manifests: map<Request, ReadSet>)
    ensures var all := AllReads(manifests);
            && (forall a :: a in all.accounts <==> exists q :: q in manifests && a in manifests[q].accounts)
            && (forall c :: c in all.codeHashes <==> exists q :: q in manifests && c in manifests[q].codeHashes)
            && (forall x :: x in all.slots <==> exists q :: q in manifests && x in manifests[q].slots)
            && (forall b :: b in all.blocks <==> exists q :: q in manifests && b in manifests[q].blocks)
  {
    forall a ensures a in AllReads(manifests).accounts <==> exists q :: q in manifests && a in manifests[q].accounts {
      NamedIs(manifests, (r: ReadSet) => r.accounts, a);
    }
    forall c ensures c in AllReads(manifests).codeHashes
        <==> exists q :: q in manifests && c in manifests[q].codeHashes {
      NamedIs(manifests, (r: ReadSet) => r.codeHashes, c);
    }
    forall x ensures x in AllReads(manifests).slots <==> exists q :: q in manifests && x in manifests[q].slots {
      NamedIs(manifests, (r: ReadSet) => r.slots, x);
    }
    forall b ensures b in AllReads(manifests).blocks <==> exists q :: q in manifests && b in manifests[q].blocks {
      NamedIs(manifests, (r: ReadSet) => r.blocks, b);
    }
  }

  /** Hydration drops exactly the manifests that name code that has changed, and leaves the others as they are. */
  lemma DropsChangedCode(manifests: map<Request, ReadSet>, h: Hydration, q: Request)
    ensures q in Kept(manifests, h.changedCode) <==>
              q in manifests && forall c | c in manifests[q].codeHashes :: c !in h.changedCode
    ensures q in Kept(manifests, h.changedCode) ==> Kept(manifests, h.changedCode)[q] == manifests[q]
    ensures q in ReportOf(manifests, h).invalidated <==>
              q in manifests && exists c :: c in manifests[q].codeHashes && c in h.changedCode
  {
  }

  /** A report is complete exactly when nothing failed, no code changed and all that is named is held. */
  lemma CompleteExactly(manifests: map<Request, ReadSet>, h: Hydration)
    ensures ReportOf(manifests, h).IsComplete() <==>
              && h.failures == 0 && h.changedCode == {}
              && forall q | q in manifests ::
                   && manifests[q].accounts <= h.resident.accounts
                   && manifests[q].codeHashes <= h.resident.codeHashes
                   && manifests[q].slots <= h.resident.slots
                   && manifests[q].blocks <= h.resident.blocks
  {
    if ReportOf(manifests, h).IsComplete() {
      CompleteIsResident(manifests, h);
    }
    AsksForWhatIsNamed(manifests);
    hide AllReads;
    if h.failures == 0 && h.changedCode == {} && forall q | q in manifests :: Within(manifests[q], h.resident) {
      assert Minus(AllReads(manifests), h.resident) == NO_READS;
      assert Kept(manifests, {}) == manifests;
    }
  }
}
