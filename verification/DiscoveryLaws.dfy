/**
 What discovery promises, said without the functions that compute it: which keys every
 driver tries and in which order, which pools a search must list, why a probe fails, in
 which order the work is done, and which of several equal things is kept.
 */
module DiscoveryLaws {
  import opened Wrappers
  import opened Words
  import opened Picks
  import opened DiscoveryTypes
  import opened DiscoveryAssembly
  import opened DiscoverySpec
  import opened DiscoveryTheorems
  import opened DiscoveryMeaning
  import opened Discovery

  // ------------------------------------------------------------------ the keys tried

  /**
   The probes of a driver, in order: pair by pair, and for each pair a block of the plain
   mapping for a by-pair driver, of every configured fee tier, of every configured tick
   spacing, or of the volatile and then the stable variant.
   */
  lemma ProbeOrder(f: Factory, pairs: seq<Pair>, i: nat) returns (block: seq<Candidate>)
    requires i < |pairs|
    ensures Candidates(f, []) == []
    ensures Candidates(f, pairs[..i + 1]) == Candidates(f, pairs[..i]) + block
    ensures f.keying.ByPair? ==> block == [Candidate(pairs[i], Only)]
    ensures f.keying.ByFee? ==>
              && |block| == |f.keying.tiers|
              && forall j | 0 <= j < |block| :: block[j] == Candidate(pairs[i], Fee(f.keying.tiers[j]))
    ensures f.keying.BySpacing? ==>
              && |block| == |f.keying.spacings|
              && forall j | 0 <= j < |block| :: block[j] == Candidate(pairs[i], TickSpacing(f.keying.spacings[j]))
    ensures f.keying.ByVariant? ==> block == [Candidate(pairs[i], Stable(false)), Candidate(pairs[i], Stable(true))]
    ensures f.keying.External? ==> block == []
  {
    OneMorePair(f, pairs, i);
    block := PairCandidates(f, pairs[i]);
  }

  /** The address the factory's mapping holds for a pair under a key; zero for none. */
  function MappingWord(env: Environment, chain: Chain, f: Factory, pair: Pair, k: LookupKey): nat {
    chain(Read(f.address, env.poolSlot(f.poolBase, pair, k)))
  }

  /** A pool of this protocol is listed at the address the mapping holds, if it holds one. */
  ghost predicate Listed(pools: seq<Pool>, protocol: Protocol, address: nat) {
    address != 0 ==> exists p :: p in pools && p.key == PoolKey(protocol, address)
  }

  /** Everything the driver must try for the pair is listed where the chain has it. */
  ghost predicate AllListed(env: Environment, chain: Chain, f: Factory, pair: Pair, pools: seq<Pool>) {
    var concentrated := if f.protocol == PANCAKE_V3 || f.protocol == SLIPSTREAM then f.protocol else UNISWAP_V3;
    match f.keying
    case ByPair => Listed(pools, UNISWAP_V2, MappingWord(env, chain, f, pair, Only))
    case ByFee(tiers, _) =>
      forall t | t in tiers :: Listed(pools, concentrated, MappingWord(env, chain, f, pair, Fee(t)))
    case BySpacing(spacings) =>
      forall s | s in spacings :: Listed(pools, concentrated, MappingWord(env, chain, f, pair, TickSpacing(s)))
    case ByVariant =>
      && Listed(pools, SOLIDLY_V2, MappingWord(env, chain, f, pair, Stable(false)))
      && Listed(pools, SOLIDLY_V2, MappingWord(env, chain, f, pair, Stable(true)))
    case External => true
  }

  lemma KeyListed(env: Environment, chain: Chain, factories: seq<Factory>, queries: seq<Query>, verified: set<nat>,
                  f: Factory, pair: Pair, k: LookupKey)
    requires AllBuiltIn(factories) && Naive(env, factories, chain, queries, verified).result.Ok?
    requires f in factories && Queried(queries, f, pair) && k in Keys(f)
    ensures Listed(Naive(env, factories, chain, queries, verified).result.value, KeyProtocol(f),
                   MappingWord(env, chain, f, pair, k))
  {
    hide Naive, Keys, KeyProtocol, Queried, Backed;
    SearchMeans(env, factories, chain, queries, verified);
    assert PoolRead(env, f, pair, k) == Read(f.address, env.poolSlot(f.poolBase, pair, k));
  }

  /**
   A successful search with built-in drivers lists every pool the chain has for a queried
   pair: under the plain mapping of a by-pair driver, under every configured fee tier,
   under every configured tick spacing, and under both variants of a Solidly driver.
   */
  lemma SearchListsEveryPool(env: Environment, factories: seq<Factory>, chain: Chain, queries: seq<Query>,
                             verified: set<nat>, f: Factory, pair: Pair)
    requires AllBuiltIn(factories) && Naive(env, factories, chain, queries, verified).result.Ok?
    requires f in factories && Queried(queries, f, pair)
    ensures AllListed(env, chain, f, pair, Naive(env, factories, chain, queries, verified).result.value)
  {
    hide Naive, Queried, Listed, MappingWord;
    forall k | k in Keys(f)
      ensures Listed(Naive(env, factories, chain, queries, verified).result.value, KeyProtocol(f),
                     MappingWord(env, chain, f, pair, k))
    {
      KeyListed(env, chain, factories, queries, verified, f, pair, k);
    }
    match f.keying
    case ByPair => assert Keys(f)[0] == Only;
    case ByFee(tiers, _) =>
      forall t | t in tiers ensures Fee(t) in Keys(f) {
        var i :| 0 <= i < |tiers| && tiers[i] == t;
        assert Keys(f)[i] == Fee(t);
      }
    case BySpacing(spacings) =>
      forall s | s in spacings ensures TickSpacing(s) in Keys(f) {
        var i :| 0 <= i < |spacings| && spacings[i] == s;
        assert Keys(f)[i] == TickSpacing(s);
      }
    case ByVariant => assert Keys(f)[0] == Stable(false) && Keys(f)[1] == Stable(true);
    case External =>
  }

  /** The same of the batched search, for drivers that read what they ask for. */
  lemma BatchListsEveryPool(env: Environment, factories: seq<Factory>, chain: Chain, queries: seq<Query>,
                            verified: set<nat>, f: Factory, pair: Pair)
    requires AllBuiltIn(factories) && AllClosed(factories)
    requires Batched(env, factories, chain, queries, verified).result.Ok?
    requires f in factories && Queried(queries, f, pair)
    ensures AllListed(env, chain, f, pair, Batched(env, factories, chain, queries, verified).result.value)
  {
    hide Batched, Naive, AllListed, AllBuiltIn, AllClosed;
    BatchedIsNaive(env, factories, chain, queries, verified);
    SearchListsEveryPool(env, factories, chain, queries, verified, f, pair);
  }

  // ------------------------------------------------------------------- why it fails

  /** The address the derivation check compares with. */
  function ExpectedAddress(env: Environment, f: Factory, pair: Pair, key: LookupKey): Address
    requires f.create2.Some?
  {
    env.create2(if f.create2.value.deployer.Some? then f.create2.value.deployer.value else f.address,
                f.create2.value.initCodeHash, pair, key)
  }

  /** The low 24 bits, read as a signed number, are not positive. */
  predicate NotPositive24(word: nat) {
    word % 0x100_0000 == 0 || word % 0x100_0000 >= 0x80_0000
  }

  /** The fee tier has no positive tick spacing. */
  predicate LacksSpacing(env: Environment, f: Factory, values: map<Read, nat>, key: LookupKey) {
    key.Fee? && f.keying.ByFee?
    && NotPositive24(ValueOr0(values, Read(f.address, env.feeSlot(f.keying.spacingBase, key))))
  }

  lemma RegisteredFailure(env: Environment, f: Factory, pool: Address, pair: Pair, key: LookupKey,
                          values: map<Read, nat>)
    requires key in Keys(f)
    ensures var registered := Registered(env, f, pool, pair, key, values);
            && (registered.Err? <==> LacksSpacing(env, f, values, key) || (key.TickSpacing? && f.feeSource.KeyIsFee?))
            && (registered.Err? ==> registered.error.Malformed?)
  {
    hide KeyProtocol, U32FromWord;
  }

  lemma CheckFailure(env: Environment, f: Factory, mapping: Address, pair: Pair, key: LookupKey, verified: bool)
    ensures var checked := EnsureDerivation(env, f, mapping, pair, key, verified).result;
            if f.verify && !verified && f.create2.Some? && ExpectedAddress(env, f, pair, key) != mapping
            then checked == Err(DerivationMismatch(mapping, ExpectedAddress(env, f, pair, key)))
            else checked.Ok?
  {
  }

  /**
   A probe fails exactly when the mapping holds something that is no address, an address
   other than the derived one while that is still unchecked, a fee tier without a positive
   tick spacing, or a pool whose fee would have to be a key that is none; in that order.
   */
  lemma ProbeFailure(env: Environment, f: Factory, values: map<Read, nat>, pair: Pair, key: LookupKey, verified: bool)
    requires key in Keys(f)
    ensures var word := ValueOr0(values, Read(f.address, env.poolSlot(f.poolBase, pair, key)));
            var result := ProbeKey(env, f, values, pair, key, verified).result;
            var malformed := word >= ADDRESS_LIMIT;
            var mismatch := f.verify && !verified && f.create2.Some? && ExpectedAddress(env, f, pair, key) != word;
            var noDetails := LacksSpacing(env, f, values, key) || (key.TickSpacing? && f.feeSource.KeyIsFee?);
            && (result.Err? <==> word != 0 && (malformed || mismatch || noDetails))
            && (result.Err? && malformed ==> result.error == Malformed("factory address word has non-zero high bytes"))
            && (result.Err? && !malformed && mismatch ==>
                  result.error == DerivationMismatch(word, ExpectedAddress(env, f, pair, key)))
            && (result.Err? && !malformed && !mismatch ==> result.error.Malformed?)
  {
    hide Registered, EnsureDerivation, LacksSpacing, ExpectedAddress, Keys;
    var word := ValueOr0(values, PoolRead(env, f, pair, key));
    RegisteredFailure(env, f, word, pair, key, values);
    CheckFailure(env, f, word, pair, key, verified);
  }

  // --------------------------------------------------------------- firsts and orders

  /** The scope that is refused is the first that no factory serves. */
  lemma {:induction false} FirstMissingIs(factories: seq<Factory>, queries: seq<Query>)
    ensures var missing := FirstMissing(factories, queries);
            if missing.None? then
              forall q | q in queries && q.protocol.Some? :: Served(factories, q.protocol.value)
            else
              exists i :: 0 <= i < |queries| && IsFirstUnserved(factories, queries, i, missing.value)
  {
    if queries != [] {
      var front, last := queries[..|queries| - 1], |queries| - 1;
      var before := FirstMissing(factories, front);
      FirstMissingIs(factories, front);
      assert queries == front + [queries[last]];
      if i :| 0 <= i < |front| && before.Some? && IsFirstUnserved(factories, front, i, before.value) {
        assert IsFirstUnserved(factories, queries, i, before.value);
      } else if FirstMissing(factories, queries).Some? {
        forall j | 0 <= j < last && queries[j].protocol.Some? ensures Served(factories, queries[j].protocol.value) {
          assert queries[j] in front;
        }
        assert IsFirstUnserved(factories, queries, last, FirstMissing(factories, queries).value);
      }
    }
  }

  predicate Served(factories: seq<Factory>, protocol: Protocol) {
    exists f :: f in factories && f.protocol == protocol
  }

  predicate IsFirstUnserved(factories: seq<Factory>, queries: seq<Query>, i: nat, protocol: Protocol)
    requires i < |queries|
  {
    && queries[i].protocol == Some(protocol) && !Served(factories, protocol)
    && forall j | 0 <= j < i && queries[j].protocol.Some? :: Served(factories, queries[j].protocol.value)
  }

  function KeyList(pools: seq<Pool>): seq<PoolKey> {
    seq(|pools|, i requires 0 <= i < |pools| => pools[i].key)
  }

  lemma KeysAreListed(pools: seq<Pool>, key: PoolKey)
    ensures key in KeysOf(pools) <==> key in KeyList(pools)
  {
    if p :| p in pools && p.key == key {
      var i :| 0 <= i < |pools| && pools[i] == p;
      assert KeyList(pools)[i] == key;
    }
  }

  /** Of several pools with one key the first is kept, and the kept ones stay in order. */
  lemma {:induction false} FirstPoolWins(pools: seq<Pool>) returns (at: seq<nat>)
    ensures Picked(at, |pools|, FirstOccurrence(KeyList(pools)))
    ensures |FirstOfEachKey(pools)| == |at|
    ensures forall k | 0 <= k < |at| :: at[k] < |pools| && FirstOfEachKey(pools)[k] == pools[at[k]]
    decreases |pools|
  {
    hide KeysOf, FirstOccurrence, Picked;
    at := [];
    if pools == [] {
      NonePicked(FirstOccurrence(KeyList(pools)));
    } else {
      var front, n := pools[..|pools| - 1], |pools| - 1;
      at := FirstPoolWins(front);
      assert KeyList(pools) == KeyList(front) + [pools[n].key];
      PickFirstOccurrence(at, KeyList(front), pools[n].key);
      KeysAreListed(front, pools[n].key);
      assert KeysOf(FirstOfEachKey(front)) == KeysOf(front);
      if pools[n].key !in KeyList(front) {
        at := at + [n];
      }
    }
  }

  function IdentityList(all: seq<Factory>): seq<(Protocol, Address)> {
    seq(|all|, i requires 0 <= i < |all| => (all[i].protocol, all[i].address))
  }

  lemma IdentitiesAreListed(all: seq<Factory>, f: Factory)
    ensures IdentityOf(f) in Identities(all) <==> (f.protocol, f.address) in IdentityList(all)
  {
    if g :| g in all && IdentityOf(g) == IdentityOf(f) {
      var i :| 0 <= i < |all| && all[i] == g;
      assert IdentityList(all)[i] == (f.protocol, f.address);
    }
    if (f.protocol, f.address) in IdentityList(all) {
      var i :| 0 <= i < |all| && IdentityList(all)[i] == (f.protocol, f.address);
      assert all[i] in all && IdentityOf(all[i]) == IdentityOf(f);
    }
  }

  /** Of several factories with one protocol and address the first is kept, and the kept ones stay in order. */
  lemma {:induction false} FirstFactoryWins(all: seq<Factory>) returns (at: seq<nat>)
    ensures Picked(at, |all|, FirstOccurrence(IdentityList(all)))
    ensures |Unique(all)| == |at|
    ensures forall k | 0 <= k < |at| :: at[k] < |all| && Unique(all)[k] == all[at[k]]
    decreases |all|
  {
    hide Identities, IdentityOf, FirstOccurrence, Picked;
    at := [];
    if all == [] {
      NonePicked(FirstOccurrence(IdentityList(all)));
    } else {
      var front, n := all[..|all| - 1], |all| - 1;
      at := FirstFactoryWins(front);
      assert IdentityList(all) == IdentityList(front) + [(all[n].protocol, all[n].address)];
      PickFirstOccurrence(at, IdentityList(front), (all[n].protocol, all[n].address));
      IdentitiesAreListed(front, all[n]);
      assert Identities(Unique(front)) == Identities(front);
      if (all[n].protocol, all[n].address) !in IdentityList(front) {
        at := at + [n];
      }
    }
  }

  /** A repeated value is reported for the first read that an earlier entry has given already. */
  lemma {:induction false} RepeatedReadIs(values: seq<(Read, nat)>)
    ensures RepeatedRead(values).None? ==> NoRepeat(values, |values|)
    ensures RepeatedRead(values).Some? ==>
              exists i :: 0 <= i < |values| && IsFirstRepeat(values, i, RepeatedRead(values).value)
  {
    if values != [] {
      var front, n := values[..|values| - 1], |values| - 1;
      assert values == front + [values[n]];
      RepeatedReadIs(front);
      ResolvedIs(front);
      hide Resolved, IsFirstRepeat, NoRepeat;
      if RepeatedRead(front).Some? {
        var i :| 0 <= i < |front| && IsFirstRepeat(front, i, RepeatedRead(front).value);
        RepeatStays(front, values[n], i, RepeatedRead(front).value);
      } else {
        RepeatHere(front, values[n], values[n].0 in Resolved(front));
      }
    }
  }

  /** No two of the first `n` entries give the same read. */
  predicate NoRepeat(values: seq<(Read, nat)>, n: nat)
    requires n <= |values|
  {
    forall j, k | 0 <= j < k < n :: values[j].0 != values[k].0
  }

  lemma RepeatStays(front: seq<(Read, nat)>, next: (Read, nat), i: nat, read: Read)
    requires i < |front| && IsFirstRepeat(front, i, read)
    ensures IsFirstRepeat(front + [next], i, read)
  {
    var values := front + [next];
    var j :| 0 <= j < i && front[j].0 == read;
    assert values[j] == front[j];
    forall j, k | 0 <= j < k < i ensures values[j].0 != values[k].0 {
      assert front[j].0 != front[k].0;
    }
  }

  lemma RepeatHere(front: seq<(Read, nat)>, next: (Read, nat), repeated: bool)
    requires NoRepeat(front, |front|)
    requires repeated <==> exists i :: 0 <= i < |front| && front[i].0 == next.0
    ensures repeated ==> IsFirstRepeat(front + [next], |front|, next.0)
    ensures !repeated ==> NoRepeat(front + [next], |front| + 1)
  {
    var values := front + [next];
    forall j, k | 0 <= j < k < |front| ensures values[j].0 != values[k].0 {
      assert front[j].0 != front[k].0;
    }
    if i :| 0 <= i < |front| && front[i].0 == next.0 {
      assert values[i].0 == next.0;
    }
  }

  predicate IsFirstRepeat(values: seq<(Read, nat)>, i: nat, read: Read)
    requires i < |values|
  {
    && values[i].0 == read
    && (exists j :: 0 <= j < i && values[j].0 == read)
    && NoRepeat(values, i)
  }

  /** The table holds exactly the reads supplied, each with a value supplied for it. */
  lemma {:induction false} ResolvedIs(values: seq<(Read, nat)>)
    ensures forall read :: read in Resolved(values) <==> exists i :: 0 <= i < |values| && values[i].0 == read
    ensures forall i | 0 <= i < |values| && (forall j | i < j < |values| :: values[j].0 != values[i].0) ::
              values[i].0 in Resolved(values) && Resolved(values)[values[i].0] == values[i].1
  {
    if values != [] {
      var front, n := values[..|values| - 1], |values| - 1;
      ResolvedIs(front);
      assert values == front + [values[n]];
      forall read ensures read in Resolved(values) <==> exists i :: 0 <= i < |values| && values[i].0 == read {
        if i :| 0 <= i < |values| && values[i].0 == read {
          assert i < n ==> front[i].0 == read;
        }
        if i :| 0 <= i < |front| && front[i].0 == read {
          assert values[i].0 == read;
        }
      }
    }
  }

  /** The legacy driver that is refused is that of the first legacy entry. */
  lemma {:induction false} FirstLegacyIs(entries: seq<Entry>)
    ensures var legacy := FirstLegacy(entries);
            if legacy.None? then forall e | e in entries :: !e.legacy
            else exists k :: 0 <= k < |entries| && entries[k].legacy && entries[k].index == legacy.value
                             && forall j | 0 <= j < k :: !entries[j].legacy
  {
    if entries != [] {
      var front, n := entries[..|entries| - 1], |entries| - 1;
      FirstLegacyIs(front);
      assert entries == front + [entries[n]];
      if FirstLegacy(front).Some? {
        var k :| 0 <= k < |front| && front[k].legacy && front[k].index == FirstLegacy(front).value
                 && forall j | 0 <= j < k :: !front[j].legacy;
        assert entries[k] == front[k];
      } else {
        assert forall j | 0 <= j < n :: entries[j] in front;
      }
    }
  }

  // ---------------------------------------------------------------- the order of work

  /** One question of a search: a query, a factory and one of the query's pairs, by position. */
  datatype Place = Place(query: nat, factory: nat, pair: nat)

  /** Query order first, then factory order, then pair order. */
  predicate Earlier(a: Place, b: Place) {
    || a.query < b.query
    || (a.query == b.query && a.factory < b.factory)
    || (a.query == b.query && a.factory == b.factory && a.pair < b.pair)
  }

  ghost predicate InOrder(at: seq<Place>) {
    forall i, j | 0 <= i < j < |at| :: Earlier(at[i], at[j])
  }

  /** The query has that pair and the factory is in its scope. */
  predicate Asks(factories: seq<Factory>, queries: seq<Query>, p: Place) {
    && p.query < |queries| && p.factory < |factories| && p.pair < |queries[p.query].pairs|
    && (queries[p.query].protocol.None? || queries[p.query].protocol.value == factories[p.factory].protocol)
  }

  predicate TaskAt(queries: seq<Query>, p: Place, t: Task) {
    p.query < |queries| && p.pair < |queries[p.query].pairs|
    && t == Task(p.factory, queries[p.query].pairs[p.pair])
  }

  /** The tasks are those of the places, one by one. */
  ghost predicate TasksAt(queries: seq<Query>, at: seq<Place>, tasks: seq<Task>) {
    |at| == |tasks| && forall k | 0 <= k < |at| :: TaskAt(queries, at[k], tasks[k])
  }

  lemma {:induction false} PairTasks(queries: seq<Query>, q: nat, f: nat, m: nat) returns (at: seq<Place>)
    requires q < |queries| && m <= |queries[q].pairs|
    ensures TasksAt(queries, at, TasksOf(f, queries[q].pairs[..m])) && InOrder(at)
    ensures forall p :: p in at <==> p.query == q && p.factory == f && p.pair < m
  {
    at := [];
    if m > 0 {
      at := PairTasks(queries, q, f, m - 1);
      assert queries[q].pairs[..m][..m - 1] == queries[q].pairs[..m - 1];
      assert forall i | 0 <= i < |at| :: at[i] in at;
      at := at + [Place(q, f, m - 1)];
    }
  }

  lemma {:induction false} FactoryTasks(factories: seq<Factory>, queries: seq<Query>, q: nat, n: nat)
    returns (at: seq<Place>)
    requires q < |queries| && n <= |factories|
    ensures TasksAt(queries, at, QueryTasks(factories, queries[q], n)) && InOrder(at)
    ensures forall p :: p in at <==> p.query == q && p.factory < n && Asks(factories, queries, p)
  {
    hide TasksOf, TasksAt, InOrder;
    NoPlaces(queries);
    at := [];
    if n > 0 {
      at := FactoryTasks(factories, queries, q, n - 1);
      if Matches(queries[q], factories[n - 1]) {
        var more := PairTasks(queries, q, n - 1, |queries[q].pairs|);
        assert queries[q].pairs[..|queries[q].pairs|] == queries[q].pairs;
        PlacesJoin(queries, at, QueryTasks(factories, queries[q], n - 1), more, TasksOf(n - 1, queries[q].pairs));
        at := at + more;
      } else {
        assert QueryTasks(factories, queries[q], n - 1) + [] == QueryTasks(factories, queries[q], n - 1);
      }
    }
  }

  lemma NoPlaces(queries: seq<Query>)
    ensures TasksAt(queries, [], []) && InOrder([])
  {
  }

  lemma PlacesJoin(queries: seq<Query>, a: seq<Place>, s: seq<Task>, b: seq<Place>, t: seq<Task>)
    requires TasksAt(queries, a, s) && TasksAt(queries, b, t) && InOrder(a) && InOrder(b)
    requires forall x, y | x in a && y in b :: Earlier(x, y)
    ensures TasksAt(queries, a + b, s + t) && InOrder(a + b)
  {
  }

  lemma {:induction false} QueriesTasks(factories: seq<Factory>, queries: seq<Query>, m: nat) returns (at: seq<Place>)
    requires m <= |queries|
    ensures TasksAt(queries, at, AllTasks(factories, queries[..m])) && InOrder(at)
    ensures forall p :: p in at <==> p.query < m && Asks(factories, queries, p)
  {
    hide QueryTasks, TasksAt, InOrder;
    NoPlaces(queries);
    assert AllTasks(factories, []) == [];
    assert queries[..0] == [];
    at := [];
    if m > 0 {
      at := QueriesTasks(factories, queries, m - 1);
      var more := FactoryTasks(factories, queries, m - 1, |factories|);
      assert queries[..m][..m - 1] == queries[..m - 1];
      PlacesJoin(queries, at, AllTasks(factories, queries[..m - 1]), more,
                 QueryTasks(factories, queries[m - 1], |factories|));
      at := at + more;
    }
  }

  /**
   A search asks exactly the factories in scope for exactly the pairs: query by query,
   factory by factory, pair by pair.
   */
  lemma TasksInOrder(factories: seq<Factory>, queries: seq<Query>) returns (at: seq<Place>)
    ensures TasksAt(queries, at, AllTasks(factories, queries)) && InOrder(at)
    ensures forall p :: p in at <==> Asks(factories, queries, p)
  {
    at := QueriesTasks(factories, queries, |queries|);
    assert queries[..|queries|] == queries;
  }
}
