/**
 The Balancer cold-start planner: discover the vault slots behind a pool and then verify
 them, or verify the known ones at once. A run of it is at most two provider rounds.
 */
module BalancerPlanner {
  import opened Wrappers
  import opened Words
  import opened PackedCash
  import opened ColdStartTypes
  import opened SortedWords
  import opened BalancerSwaps
  import opened BalancerProbe

  const TWO_TOKEN_SPECIALIZATION: nat := 2

  /** The leading 20 bytes of a pool id are the pool's address. */
  function PoolAddress(poolId: Word): Address {
    poolId / 0x1_0000_0000_0000_0000_0000_0000
  }

  /** The two bytes after the address are the specialization. */
  predicate IsTwoTokenPool(poolId: Word) {
    poolId / 0x1_0000_0000_0000_0000_0000 % 0x1_0000 == TWO_TOKEN_SPECIALIZATION
  }

  datatype Metadata = Metadata(
    vault: Option<Address>,
    poolAddress: Option<Address>,
    tokens: seq<Token>,
    balanceSlots: seq<Word>,
    tokenCash: seq<TokenCash>)

  datatype Phase = Discover | Verify

  datatype Repair = DiscoverFailed | NoSlotsDiscovered | BalancesUnfetched

  datatype Action = RunColdStart | VerifySlots(slots: seq<Slot>)

  datatype Outcome = Ready | NeedsRepair(action: Action)

  /** The report of a run; the pool is Degraded exactly when the outcome needs a repair. */
  datatype Report = Report(verifiedSlots: seq<Slot>, changedSlots: seq<SlotChange>, degraded: bool)

  /** A validating decoder of the getPoolTokens return data. */
  type Decoder = Bytes -> Option<(seq<Token>, seq<Word>)>

  /** The slots of the discover call that lie on the vault. */
  function OnVault(slots: seq<Slot>, vault: Address): (r: seq<Slot>)
    ensures forall s :: s in r <==> s in slots && s.address == vault
  {
    if slots == [] then []
    else (if slots[0].address == vault then [slots[0]] else []) + OnVault(slots[1..], vault)
  }

  function VaultSlots(vault: Address, keys: seq<Word>): (r: seq<Slot>)
    ensures |r| == |keys|
    ensures forall i | 0 <= i < |keys| :: r[i] == Slot(vault, keys[i])
  {
    seq(|keys|, i requires 0 <= i < |keys| => Slot(vault, keys[i]))
  }

  function Keys(slots: seq<Slot>): (r: seq<Word>)
    ensures |r| == |slots|
    ensures forall i | 0 <= i < |slots| :: r[i] == slots[i].key
  {
    seq(|slots|, i requires 0 <= i < |slots| => slots[i].key)
  }

  /** The first outcome recorded for a slot. */
  function FetchOf(fetched: seq<SlotOutcome>, slot: Slot): Option<SlotFetch> {
    if fetched == [] then None
    else if fetched[0].slot == slot then Some(fetched[0].fetch)
    else FetchOf(fetched[1..], slot)
  }

  /** The slot came back, as a value or as a genuine zero. */
  predicate Arrived(fetched: seq<SlotOutcome>, slot: Slot) {
    var fetch := FetchOf(fetched, slot);
    fetch.Some? && (fetch.value.Value? || fetch.value.Zero?)
  }

  function VerifyPlan(slots: seq<Slot>): Plan {
    Plan(slots, [], [], [], [])
  }

  /** The first discovery call succeeded, decodes to these tokens and balances, and touched the vault. */
  predicate Discovered(results: Results, decode: Decoder, vault: Address, tokens: seq<Token>, balances: seq<Word>,
                       slots: seq<Slot>) {
    && results.discovered != []
    && var call := results.discovered[0];
       && call.success && call.output.Some?
       && decode(call.output.value) == Some((tokens, balances))
       && slots == OnVault(call.slots, vault) != []
  }

  /** The token cash a verify round leaves: probed against the state, or kept when no balance is known. */
  function CashAfter(known: seq<TokenCash>, tokens: seq<Token>, balances: seq<Word>, slots: seq<Slot>, vault: Address,
                     state: View, twoToken: bool): seq<TokenCash> {
    if balances == [] then known
    else Probed(tokens, balances, Paired(tokens, balances), slots, vault, state, twoToken)
  }

  class BalancerV2ColdStartPlanner {
    const vault: Address
    const poolId: Word
    var phase: Phase
    var tokens: seq<Token>
    var balances: seq<Word>
    var tokenCash: seq<TokenCash>
    var verifiedSlots: seq<Slot>
    var changedSlots: seq<SlotChange>
    var repair: Option<Repair>

    /** Before its last round a planner has nothing to repair, and what it verifies is on the vault. */
    ghost predicate Running()
      reads this
    {
      && repair.None?
      && (phase.Discover? ==> verifiedSlots == [])
      && (phase.Verify? ==> verifiedSlots != [])
      && (forall s | s in verifiedSlots :: s.address == vault)
    }

    constructor (vault: Address, poolId: Word, knownSlots: seq<Word>, tokens: seq<Token>,
                 knownTokenCash: seq<TokenCash>)
      ensures this.vault == vault && this.poolId == poolId && this.tokens == tokens && tokenCash == knownTokenCash
      ensures Running() && balances == [] && changedSlots == []
      ensures phase.Verify? <==> knownSlots != []
      ensures phase.Verify? ==> verifiedSlots == VaultSlots(vault, SortedDistinct(knownSlots))
    {
      var slots := SortedDistinct(knownSlots);
      assert knownSlots != [] ==> knownSlots[0] in slots;
      this.vault, this.poolId := vault, poolId;
      phase := if slots == [] then Discover else Verify;
      verifiedSlots := if slots == [] then [] else VaultSlots(vault, slots);
      this.tokens, tokenCash := tokens, knownTokenCash;
      balances, changedSlots, repair := [], [], None;
    }

    method InitialPlan(getPoolTokens: Word -> Bytes) returns (plan: Plan)
      ensures plan == if phase.Verify? then VerifyPlan(verifiedSlots)
                      else Plan([], [], [], [vault], [Call(0, vault, getPoolTokens(poolId), Some([vault]))])
    {
      if phase.Verify? {
        return VerifyPlan(verifiedSlots);
      }
      plan := Plan([], [], [], [vault], [Call(0, vault, getPoolTokens(poolId), Some([vault]))]);
    }

    method OnResults(results: Results, state: View, decode: Decoder) returns (decision: Decision)
      requires Running()
      modifies this
      ensures changedSlots == old(changedSlots) + results.verified
      ensures decision.Continue? ==>
                && Running() && old(phase).Discover? && phase.Verify?
                && decision.plan == VerifyPlan(verifiedSlots)
                && tokenCash == old(tokenCash)
                && Discovered(results, decode, vault, tokens, balances, verifiedSlots)
      ensures decision.Done? && repair.None? ==>
                && old(phase).Verify? && verifiedSlots == old(verifiedSlots) && tokens == old(tokens)
                && (forall s | s in verifiedSlots :: Arrived(results.fetched, s))
                && tokenCash == CashAfter(old(tokenCash), tokens, balances, verifiedSlots, vault, state,
                                          IsTwoTokenPool(poolId))
      ensures old(phase).Verify? ==>
                && decision.Done? && verifiedSlots == old(verifiedSlots) && balances == old(balances)
                    && tokens == old(tokens)
                && (repair.None? <==> forall s | s in verifiedSlots :: Arrived(results.fetched, s))
                && (repair.Some? ==> repair.value == BalancesUnfetched)
    {
      changedSlots := changedSlots + results.verified;
      match phase
      case Discover =>
        if results.discovered == [] {
          repair := Some(DiscoverFailed);
          return Done;
        }
        var call := results.discovered[0];
        if !call.success || call.output.None? || decode(call.output.value).None? {
          repair := Some(DiscoverFailed);
          return Done;
        }
        tokens, balances := decode(call.output.value).value.0, decode(call.output.value).value.1;
        var discovered := OnVault(call.slots, vault);
        if discovered == [] {
          repair := Some(NoSlotsDiscovered);
          return Done;
        }
        verifiedSlots := discovered;
        phase := Verify;
        return Continue(VerifyPlan(discovered));
      case Verify =>
        var unfetched := false;
        for i := 0 to |verifiedSlots|
          invariant unfetched <==> exists j :: 0 <= j < i && !Arrived(results.fetched, verifiedSlots[j])
        {
          var fetch := FetchOf(results.fetched, verifiedSlots[i]);
          if fetch.None? || fetch.value.FetchFailed? || fetch.value.NotAttempted? {
            unfetched := true;
          }
        }
        if unfetched {
          repair := Some(BalancesUnfetched);
        }
        if balances != [] {
          tokenCash := ProbeTokenCash(tokens, balances, verifiedSlots, vault, state, IsTwoTokenPool(poolId));
        }
        return Done;
    }

    method Finish(metadata: Metadata) returns (metadata': Metadata, outcome: Outcome, report: Report)
      ensures outcome.Ready? <==> repair.None?
      ensures report == Report(verifiedSlots, changedSlots, outcome.NeedsRepair?)
      ensures outcome.Ready? ==>
                metadata' == Metadata(Some(vault), Some(PoolAddress(poolId)), tokens,
                                      SortedDistinct(Keys(verifiedSlots)), tokenCash)
      ensures outcome.NeedsRepair? ==>
                && metadata' == metadata
                && outcome.action == if repair.value.BalancesUnfetched? then VerifySlots(verifiedSlots)
                    else RunColdStart
    {
      match repair {
        case Some(BalancesUnfetched) =>
          metadata', outcome := metadata, NeedsRepair(VerifySlots(verifiedSlots));
        case Some(_) =>
          metadata', outcome := metadata, NeedsRepair(RunColdStart);
        case None =>
          metadata' := Metadata(Some(vault), Some(PoolAddress(poolId)), tokens, SortedDistinct(Keys(verifiedSlots)),
                                tokenCash);
          outcome := Ready;
      }
      report := Report(verifiedSlots, changedSlots, outcome.NeedsRepair?);
    }
  }

  /** What the provider answers to a plan in a given round, and the state it leaves. */
  type Provider = (nat, Plan) -> (Results, View)

  /** Every slot the planner verified came back in the last round. */
  predicate AllArrived(fetched: seq<SlotOutcome>, slots: seq<Slot>) {
    forall s | s in slots :: Arrived(fetched, s)
  }

  /** Drive a planner until it is done: one round if it verifies at once, at most two in all. */
  method Drive(planner: BalancerV2ColdStartPlanner, provider: Provider, getPoolTokens: Word -> Bytes, decode: Decoder)
    returns (plans: seq<Plan>, last: Results, state: View)
    requires planner.Running()
    modifies planner
    ensures 1 <= |plans| <= 2
    ensures (last, state) == provider(|plans| - 1, plans[|plans| - 1])
    ensures planner.repair.None? ==>
              && planner.verifiedSlots != [] && (forall s | s in planner.verifiedSlots :: s.address == planner.vault)
              && AllArrived(last.fetched, planner.verifiedSlots)
    ensures old(planner.phase).Verify? ==>
              && plans == [VerifyPlan(old(planner.verifiedSlots))]
              && planner.verifiedSlots == old(planner.verifiedSlots) && planner.tokens == old(planner.tokens)
              && (planner.repair.None? <==> AllArrived(last.fetched, planner.verifiedSlots))
              && planner.balances == old(planner.balances)
    ensures old(planner.phase).Discover? ==> plans[0].discover != []
    ensures planner.repair.None? ==>
              planner.tokenCash == CashAfter(old(planner.tokenCash), planner.tokens, planner.balances,
                                             planner.verifiedSlots,
                                             planner.vault, state, IsTwoTokenPool(planner.poolId))
    ensures old(planner.phase).Discover? && planner.repair.None? ==>
              && |plans| == 2
              && Discovered(provider(0, plans[0]).0, decode, planner.vault, planner.tokens, planner.balances,
                            planner.verifiedSlots)
  {
    hide CashAfter, Arrived, IsTwoTokenPool, Discovered;
    var plan := planner.InitialPlan(getPoolTokens);
    plans := [plan];
    last, state := provider(0, plan).0, provider(0, plan).1;
    var decision := planner.OnResults(last, state, decode);
    while decision.Continue?
      invariant |plans| == 1 || (|plans| == 2 && decision.Done?)
      invariant old(planner.phase).Verify? ==> decision.Done? && |plans| == 1
      invariant decision.Continue? ==>
                  planner.Running() && planner.phase.Verify?
                  && decision.plan == VerifyPlan(planner.verifiedSlots)
      invariant plans[0] == plan && (last, state) == provider(|plans| - 1, plans[|plans| - 1])
      invariant decision.Done? && planner.repair.None? ==>
                  && planner.verifiedSlots != []
                      && (forall s | s in planner.verifiedSlots :: s.address == planner.vault)
                  && AllArrived(last.fetched, planner.verifiedSlots)
      invariant old(planner.phase).Verify? ==>
                  && planner.verifiedSlots == old(planner.verifiedSlots) && planner.tokens == old(planner.tokens)
                  && (planner.repair.None? <==> AllArrived(last.fetched, planner.verifiedSlots))
                  && planner.balances == old(planner.balances)
      invariant decision.Continue? ==>
                  && planner.tokenCash == old(planner.tokenCash)
                  && Discovered(last, decode, planner.vault, planner.tokens, planner.balances, planner.verifiedSlots)
      invariant decision.Done? && planner.repair.None? ==>
                  planner.tokenCash == CashAfter(old(planner.tokenCash), planner.tokens, planner.balances,
                                                 planner.verifiedSlots,
                                                 planner.vault, state, IsTwoTokenPool(planner.poolId))
      invariant old(planner.phase).Discover? && decision.Done? && planner.repair.None? ==>
                  && |plans| == 2
                  && Discovered(provider(0, plan).0, decode, planner.vault, planner.tokens, planner.balances,
                                planner.verifiedSlots)
      decreases if decision.Continue? then 1 else 0
    {
      plans := plans + [decision.plan];
      last, state := provider(1, decision.plan).0, provider(1, decision.plan).1;
      decision := planner.OnResults(last, state, decode);
    }
  }

  /**
   What a Ready discovery records: the tokens and vault slots of the first round's call,
   and the cash located by probing the balances of that call in the state after the second.
   */
  ghost predicate ReadyDiscovery(poolId: Word, vault: Address, before: Metadata, after: Metadata, provider: Provider,
                                 plans: seq<Plan>, decode: Decoder,
                                 balances: seq<Word>, slots: seq<Slot>)
  {
    && |plans| == 2
    && Discovered(provider(0, plans[0]).0, decode, vault, after.tokens, balances, slots)
    && after.balanceSlots == SortedDistinct(Keys(slots))
    && after.tokenCash == CashAfter(before.tokenCash, after.tokens, balances, slots, vault, provider(1, plans[1]).1,
                                    IsTwoTokenPool(poolId))
  }

  /**
   A Ready discovery can be trusted over every later history: if the state it probed holds,
   for every reported token, its balance in its true field, then after any swaps the words
   decoded at the true fields are the ledger's balances.
   */
  lemma ReadyDiscoveryRefinesLedger(poolId: Word, vault: Address, before: Metadata, after: Metadata,
                                    provider: Provider, plans: seq<Plan>, decode: Decoder,
                                    balances: seq<Word>, slots: seq<Slot>, storage: Storage,
                                        truth: map<Token, Location>, swaps: seq<Swap>)
    requires ReadyDiscovery(poolId, vault, before, after, provider, plans, decode, balances, slots)
    requires provider(1, plans[1]).1 == Stored(storage) && Injective(truth)
    requires Reported(after.tokens, balances, Paired(after.tokens, balances), slots, vault, Stored(storage),
                      IsTwoTokenPool(poolId), truth)
    requires balances == [] ==> Truthful(before.tokenCash, truth)
    ensures var twoToken := IsTwoTokenPool(poolId);
            Ledger(RunSwaps(storage, vault, twoToken, after.tokenCash, swaps), vault, truth) ==
            RunLedger(Ledger(storage, vault, truth), twoToken, after.tokenCash, swaps)
  {
    hide Injective, Reported, Truthful, Probed, RunSwaps, RunLedger, Ledger, IsTwoTokenPool;
    if balances == [] {
      HistoryRefinesLedger(storage, vault, IsTwoTokenPool(poolId), before.tokenCash, truth, swaps);
    } else {
      ProbedHistoryRefinesLedger(after.tokens, balances, slots, vault, storage, IsTwoTokenPool(poolId), truth, swaps);
    }
  }

  /** Create the planner the registration asks for, run it, and record what it found. */
  method ColdStart(poolId: Word, vault: Address, metadata: Metadata, provider: Provider, getPoolTokens: Word -> Bytes,
                   decode: Decoder)
    returns (metadata': Metadata, outcome: Outcome, plans: seq<Plan>, last: Results)
    ensures 1 <= |plans| <= 2 && last == provider(|plans| - 1, plans[|plans| - 1]).0
    ensures outcome.NeedsRepair? ==> metadata' == metadata
    ensures outcome.Ready? ==>
              && metadata'.vault == Some(vault) && metadata'.poolAddress == Some(PoolAddress(poolId))
              && metadata'.balanceSlots != [] && StrictlyIncreasing(metadata'.balanceSlots)
              && AllArrived(last.fetched, VaultSlots(vault, metadata'.balanceSlots))
    ensures metadata.balanceSlots == [] ==> plans[0].discover != []
    ensures metadata.balanceSlots == [] && outcome.Ready? ==>
              exists balances, slots :: ReadyDiscovery(poolId, vault, metadata, metadata', provider, plans, decode,
                                                       balances, slots)
    ensures metadata.balanceSlots != [] ==>
              var slots := SortedDistinct(metadata.balanceSlots);
              && plans == [VerifyPlan(VaultSlots(vault, slots))]
              && (outcome.Ready? <==> AllArrived(last.fetched, VaultSlots(vault, slots)))
              && (outcome.Ready? ==>
                    metadata' == metadata.(vault := Some(vault), poolAddress := Some(PoolAddress(poolId)),
                                           balanceSlots := slots))
  {
    hide Probed, Arrived, SortedDistinct, PoolAddress, IsTwoTokenPool, Discovered, BalancerV2ColdStartPlanner.Running;
    var planner := new BalancerV2ColdStartPlanner(vault, poolId, metadata.balanceSlots, metadata.tokens,
                                                  metadata.tokenCash);
    ghost var first := planner.verifiedSlots;
    var state;
    plans, last, state := Drive(planner, provider, getPoolTokens, decode);
    var report;
    metadata', outcome, report := planner.Finish(metadata);
    if outcome.Ready? {
      KeysOnVault(vault, planner.verifiedSlots);
      if metadata.balanceSlots != [] {
        KnownKeys(vault, metadata.balanceSlots);
      } else {
        assert ReadyDiscovery(poolId, vault, metadata, metadata', provider, plans, decode, planner.balances,
                              planner.verifiedSlots);
      }
    }
  }

  lemma KeysOnVault(vault: Address, slots: seq<Slot>)
    requires slots != [] && forall s | s in slots :: s.address == vault
    ensures SortedDistinct(Keys(slots)) != []
    ensures forall s :: s in VaultSlots(vault, SortedDistinct(Keys(slots))) <==> s in slots
  {
    hide SortedDistinct, StrictlyIncreasing;
    var keys := SortedDistinct(Keys(slots));
    assert Keys(slots)[0] in keys;
    forall s ensures s in VaultSlots(vault, keys) <==> s in slots {
      if s in VaultSlots(vault, keys) {
        assert s.key in Keys(slots);
      }
      if i :| 0 <= i < |slots| && slots[i] == s {
        assert Keys(slots)[i] in keys;
      }
    }
  }

  lemma KnownKeys(vault: Address, known: seq<Word>)
    ensures SortedDistinct(Keys(VaultSlots(vault, SortedDistinct(known)))) == SortedDistinct(known)
  {
    hide SortedDistinct;
    assert Keys(VaultSlots(vault, SortedDistinct(known))) == SortedDistinct(known);
    AlreadySorted(SortedDistinct(known));
  }

  /** Cold-starting a Ready registration again verifies exactly its slots, and Ready leaves it unchanged. */
  method ColdStartAgain(poolId: Word, vault: Address, metadata: Metadata, provider: Provider, provider': Provider,
                        getPoolTokens: Word -> Bytes, decode: Decoder)
    returns (once: Metadata, outcome: Outcome, twice: Metadata, outcome': Outcome, plans: seq<Plan>)
    ensures outcome.Ready? ==> plans == [VerifyPlan(VaultSlots(vault, once.balanceSlots))] && twice == once
  {
    hide Probed, Arrived, SortedDistinct, PoolAddress;
    var before, answer;
    once, outcome, before, answer := ColdStart(poolId, vault, metadata, provider, getPoolTokens, decode);
    var last;
    twice, outcome', plans, last := ColdStart(poolId, vault, once, provider', getPoolTokens, decode);
    if outcome.Ready? {
      AlreadySorted(once.balanceSlots);
    }
  }
}
