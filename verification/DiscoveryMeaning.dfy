/** What a discovery answer says about the chain: every pool is there, and none is missed. */
module DiscoveryMeaning {
  import opened Wrappers
  import opened DiscoveryTypes
  import opened DiscoveryAssembly
  import opened DiscoverySpec
  import opened DiscoveryTheorems

  /** The words the pool was made from: a non-zero address in the factory's mapping, and its key's details. */
  predicate Backed(env: Environment, words: Read -> nat, p: Pool, k: LookupKey) {
    && p.key == PoolKey(KeyProtocol(p.factory), words(PoolRead(env, p.factory, p.pair, k)))
    && 0 < p.key.address < ADDRESS_LIMIT
    && (k.Stable? <==> p.stable.Some?) && (k.Stable? ==> p.stable.value == k.stable)
    && (k.Fee? || k.TickSpacing? <==> p.spacing.Some?)
    && (k.TickSpacing? ==> p.spacing.value == k.spacing)
    && (k.Fee? && p.factory.keying.ByFee? ==>
          p.spacing.value > 0 && p.spacing.value
              == words(Read(p.factory.address, env.feeSlot(p.factory.keying.spacingBase, k))) % 0x100_0000)
    && (k.Fee? || k.TickSpacing? ==> FeeBacked(env, words, p, k))
    && (k.Only? || k.Stable? ==> p.fee.None?)
  }

  /** The fee is what the driver's fee source says of the key; zero is left unset. */
  predicate FeeBacked(env: Environment, words: Read -> nat, p: Pool, k: LookupKey) {
    var f := p.factory;
    match f.feeSource
    case NoFee => p.fee.None?
    case KeyIsFee => k.Fee? && p.fee == (if k.fee == 0 then None else Some(k.fee))
    case Fixed(fee) => p.fee == if fee == 0 then None else Some(fee)
    case FactoryMapping(base) =>
      f.keying.BySpacing? || (f.keying.ByFee? && base == f.keying.spacingBase) ==>
        var fee := words(Read(f.address, env.feeSlot(base, k))) % 0x1_0000_0000;
        p.fee == if fee == 0 then None else Some(fee)
  }

  function WordsOf(values: map<Read, nat>): Read -> nat {
    (r: Read) => ValueOr0(values, r)
  }

  /** A probe reports a pool backed by the words, exactly when the mapping holds an address. */
  lemma ProbeMeans(env: Environment, f: Factory, values: map<Read, nat>, pair: Pair, key: LookupKey, verified: bool)
    requires key in Keys(f) && ProbeKey(env, f, values, pair, key, verified).result.Ok?
    ensures var found := ProbeKey(env, f, values, pair, key, verified).result.value;
            && (found.Some? <==> ValueOr0(values, PoolRead(env, f, pair, key)) != 0) && (found.Some? ==>
              found.value.factory == f && found.value.pair == pair
              && Backed(env, WordsOf(values), found.value, key))
  {
    var pool := ValueOr0(values, PoolRead(env, f, pair, key));
    if pool != 0 {
      var registered := Registered(env, f, pool, pair, key, values);
      assert registered.Ok?;
    }
  }

  /** The pool was found under one of the candidates, and that candidate's derivation gives its address. */
  ghost predicate Derived(env: Environment, f: Factory, candidates: seq<Candidate>, p: Pool)
    requires f.create2.Some?
  {
    var deployer := if f.create2.value.deployer.Some? then f.create2.value.deployer.value else f.address;
    exists c :: c in candidates && c.pair == p.pair
                && p.key.address == env.create2(deployer, f.create2.value.initCodeHash, c.pair, c.key)
  }

  lemma FirstProbeIsDerived(env: Environment, f: Factory, values: map<Read, nat>, pair: Pair, key: LookupKey)
    requires f.verify && f.create2.Some? && ProbeKey(env, f, values, pair, key, false).result.Ok?
    ensures var probe := ProbeKey(env, f, values, pair, key, false);
            && (probe.verified <==> probe.result.value.Some?)
            && (probe.result.value.Some? ==>
                  probe.result.value.value.pair == pair
                  && probe.result.value.value.key.address == DerivedAddress(env, f, pair, key))
  {
    hide DerivedAddress, KeyProtocol, PoolRead;
  }

  /**
   A driver that checks its derivation never returns pools of which the first is not the
   derived one: an assembly that starts unverified and succeeds either finds nothing and
   stays unverified, or ends verified with a first pool at the address its candidate derives.
   */
  lemma {:induction false} FirstPoolIsDerived(env: Environment, f: Factory, values: map<Read, nat>,
                                              candidates: seq<Candidate>)
    requires f.verify && f.create2.Some?
    requires Assemble(env, f, values, candidates, false).result.Ok?
    ensures var run := Assemble(env, f, values, candidates, false);
            && (run.verified <==> run.result.value != [])
            && (run.result.value != [] ==> Derived(env, f, candidates, run.result.value[0]))
  {
    hide ProbeKey;
    if candidates != [] {
      var front, last := candidates[..|candidates| - 1], candidates[|candidates| - 1];
      FirstPoolIsDerived(env, f, values, front);
      var before := Assemble(env, f, values, front, false);
      if before.verified {
        var c :| c in front && c.pair == before.result.value[0].pair
                 && before.result.value[0].key.address == DerivedAddress(env, f, c.pair, c.key);
        assert c in candidates;
        VerifiedProbe(env, f, values, last.pair, last.key);
      } else {
        FirstProbeIsDerived(env, f, values, last.pair, last.key);
        assert last in candidates;
      }
    }
  }

  lemma VerifiedProbe(env: Environment, f: Factory, values: map<Read, nat>, pair: Pair, key: LookupKey)
    ensures ProbeKey(env, f, values, pair, key, true).verified
  {
  }

  /** Every pool of the list is backed, and every candidate with an address has its pool in the list. */
  ghost predicate Answered(env: Environment, words: Read -> nat, f: Factory, candidates: seq<Candidate>,
                           pools: seq<Pool>) {
    && (forall p | p in pools :: BackedBy(env, words, f, candidates, p))
    && (forall c | c in candidates && words(PoolRead(env, f, c.pair, c.key)) != 0 ::
          PoolKey(KeyProtocol(f), words(PoolRead(env, f, c.pair, c.key))) in KeysOf(pools))
  }

  ghost predicate BackedBy(env: Environment, words: Read -> nat, f: Factory, candidates: seq<Candidate>, p: Pool) {
    p.factory == f && exists c :: c in candidates && c.pair == p.pair && Backed(env, words, p, c.key)
  }

  lemma OneMoreAnswer(env: Environment, words: Read -> nat, f: Factory, front: seq<Candidate>, last: Candidate,
                      before: seq<Pool>, found: Option<Pool>)
    requires Answered(env, words, f, front, before)
    requires found.Some? <==> words(PoolRead(env, f, last.pair, last.key)) != 0
    requires found.Some? ==>
               found.value.factory == f && found.value.pair == last.pair
               && Backed(env, words, found.value, last.key)
    ensures Answered(env, words, f, front + [last], if found.Some? then before + [found.value] else before)
  {
    assert last in front + [last];
    forall p | p in before ensures BackedBy(env, words, f, front + [last], p) {
      var c :| c in front && c.pair == p.pair && Backed(env, words, p, c.key);
      assert c in front + [last];
    }
    if found.Some? {
      assert found.value.key == PoolKey(KeyProtocol(f), words(PoolRead(env, f, last.pair, last.key)));
      assert KeysOf(before + [found.value]) == KeysOf(before) + {found.value.key};
      hide Backed, KeyProtocol;
    }
  }

  lemma {:induction false} AssemblyMeans(env: Environment, f: Factory, values: map<Read, nat>,
                                         candidates: seq<Candidate>, verified: bool)
    requires forall c | c in candidates :: c.key in Keys(f)
    requires Assemble(env, f, values, candidates, verified).result.Ok?
    ensures Answered(env, WordsOf(values), f, candidates, Assemble(env, f, values, candidates, verified).result.value)
  {
    hide ProbeKey, Keys, Backed, KeyProtocol, PoolRead;
    if candidates == [] {
      assert Assemble(env, f, values, candidates, verified).result.value == [];
    } else {
      var front, last := candidates[..|candidates| - 1], candidates[|candidates| - 1];
      AssemblyMeans(env, f, values, front, verified);
      var before := Assemble(env, f, values, front, verified);
      ProbeMeans(env, f, values, last.pair, last.key, before.verified);
      assert candidates == front + [last];
      hide Answered;
      OneMoreAnswer(env, WordsOf(values), f, front, last, before.result.value,
                    ProbeKey(env, f, values, last.pair, last.key, before.verified).result.value);
    }
  }

  /** What one pair's own reads say is what the chain says. */
  lemma BackedOnChain(env: Environment, f: Factory, chain: Chain, pair: Pair, p: Pool, k: LookupKey)
    requires k in Keys(f) && p.factory == f && p.pair == pair
    requires Backed(env, WordsOf(Fetched(CandidateReads(env, f, [pair]), chain)), p, k)
    ensures Backed(env, chain, p, k)
  {
    assert PoolRead(env, f, pair, k) in CandidateReads(env, f, [pair]);
    if f.keying.ByFee? {
      assert Read(f.address, env.feeSlot(f.keying.spacingBase, k)) in CandidateReads(env, f, [pair]);
    }
    if f.keying.BySpacing? && f.feeSource.FactoryMapping? {
      assert Read(f.address, env.feeSlot(f.feeSource.base, k)) in CandidateReads(env, f, [pair]);
    }
    hide CandidateReads;
  }

  /** find_pools on one pair reports exactly the pools the chain has for it. */
  lemma FindPoolsMeans(env: Environment, f: Factory, pair: Pair, chain: Chain, verified: bool)
    requires !f.keying.External? && FindPools(env, f, pair, chain, verified).result.Ok?
    ensures Answered(env, chain, f, Candidates(f, [pair]), FindPools(env, f, pair, chain, verified).result.value)
  {
    var asked := CandidateReads(env, f, [pair]);
    CandidatesAreOfPairs(f, [pair]);
    if asked == {} {
      NoKeys(env, f, pair);
    } else {
      var values := Fetched(asked, chain);
      AssemblyMeans(env, f, values, Candidates(f, [pair]), verified);
      var pools := FindPools(env, f, pair, chain, verified).result.value;
      forall p | p in pools ensures BackedBy(env, chain, f, Candidates(f, [pair]), p) {
        assert BackedBy(env, WordsOf(values), f, Candidates(f, [pair]), p);
        var c :| c in Candidates(f, [pair]) && c.pair == p.pair && Backed(env, WordsOf(values), p, c.key);
        BackedOnChain(env, f, chain, pair, p, c.key);
      }
      forall c | c in Candidates(f, [pair]) ensures WordsOf(values)(PoolRead(env, f, c.pair, c.key))
          == chain(PoolRead(env, f, c.pair, c.key)) {
        assert c.pair == pair;
        assert PoolRead(env, f, pair, c.key) in asked;
      }
    }
  }

  lemma NoKeys(env: Environment, f: Factory, pair: Pair)
    requires CandidateReads(env, f, [pair]) == {}
    ensures Candidates(f, [pair]) == []
  {
    OnePair(f, pair);
    if Keys(f) != [] {
      AskedOfPair(env, f, pair, Keys(f)[0]);
    }
  }

  lemma AskedOfPair(env: Environment, f: Factory, pair: Pair, k: LookupKey)
    requires k in Keys(f)
    ensures PoolRead(env, f, pair, k) in CandidateReads(env, f, [pair])
  {
  }

  // ------------------------------------------------------------------ a whole search

  /** The pool exists on chain, was asked for, and is what a driver makes of its words. */
  ghost predicate Asked(env: Environment, chain: Chain, factories: seq<Factory>, tasks: seq<Task>, p: Pool) {
    exists t, k :: t in tasks && t.index < |factories| && p.factory == factories[t.index] && p.pair == t.pair
                   && k in Keys(p.factory) && Backed(env, chain, p, k)
  }

  /** A key under which the chain has an address is among the keys found. */
  ghost predicate NoneMissed(env: Environment, chain: Chain, factories: seq<Factory>, tasks: seq<Task>,
                             keys: set<PoolKey>) {
    forall t, k | t in tasks && t.index < |factories| && k in Keys(factories[t.index]) ::
      var f := factories[t.index];
      chain(PoolRead(env, f, t.pair, k)) != 0 ==> PoolKey(KeyProtocol(f), chain(PoolRead(env, f, t.pair, k))) in keys
  }

  predicate AllBuiltIn(factories: seq<Factory>) {
    forall i | 0 <= i < |factories| :: !factories[i].keying.External?
  }

  /** Every pool found was asked for and is on chain, and nothing the tasks could find is missed. */
  ghost predicate Complete(env: Environment, chain: Chain, factories: seq<Factory>, tasks: seq<Task>,
                           pools: seq<Pool>) {
    (forall p | p in pools :: Asked(env, chain, factories, tasks, p))
        && NoneMissed(env, chain, factories, tasks, KeysOf(pools))
  }

  lemma OneMoreTaskMeans(env: Environment, chain: Chain, factories: seq<Factory>, front: seq<Task>, last: Task,
                         before: seq<Pool>, more: seq<Pool>)
    requires Complete(env, chain, factories, front, before) && last.index < |factories|
    requires Answered(env, chain, factories[last.index], Candidates(factories[last.index], [last.pair]), more)
    ensures Complete(env, chain, factories, front + [last], before + more)
  {
    hide Backed, KeyProtocol, PoolRead, Keys;
    var f := factories[last.index];
    var tasks := front + [last];
    CandidatesAreOfPairs(f, [last.pair]);
    OnePair(f, last.pair);
    assert KeysOf(before + more) == KeysOf(before) + KeysOf(more);
    forall p | p in before ensures Asked(env, chain, factories, tasks, p) {
      var t, k :| t in front && t.index < |factories| && p.factory == factories[t.index] && p.pair == t.pair
          && k in Keys(p.factory) && Backed(env, chain, p, k);
      assert t in tasks;
    }
    forall p | p in more ensures Asked(env, chain, factories, tasks, p) {
      assert BackedBy(env, chain, f, Candidates(f, [last.pair]), p);
      var c :| c in Candidates(f, [last.pair]) && c.pair == p.pair && Backed(env, chain, p, c.key);
      assert last in tasks && c.pair == last.pair && c.key in Keys(f);
    }
    forall t, k | t in tasks && t.index < |factories| && k in Keys(factories[t.index])
        && chain(PoolRead(env, factories[t.index], t.pair, k)) != 0
      ensures PoolKey(KeyProtocol(factories[t.index]),
                      chain(PoolRead(env, factories[t.index], t.pair, k))) in KeysOf(before + more)
    {
      if t == last {
        var i :| 0 <= i < |Keys(f)| && Keys(f)[i] == k;
        assert PairCandidates(f, last.pair)[i] == Candidate(last.pair, k);
        assert Candidate(last.pair, k) in Candidates(f, [last.pair]);
      } else {
        assert t in front;
      }
    }
  }

  lemma {:induction false} OneByOneMeans(env: Environment, factories: seq<Factory>, chain: Chain, tasks: seq<Task>,
                                         verified: set<nat>)
    requires AllBuiltIn(factories) && forall t | t in tasks :: t.index < |factories|
    requires OneByOne(env, factories, chain, tasks, Search(Ok([]), verified)).result.Ok?
    ensures Complete(env, chain, factories, tasks,
                     OneByOne(env, factories, chain, tasks, Search(Ok([]), verified)).result.value)
  {
    hide FindPools, Backed, KeyProtocol, PoolRead, Keys;
    if tasks == [] {
      assert OneByOne(env, factories, chain, tasks, Search(Ok([]), verified)).result.value == [];
    } else {
      var front, last := tasks[..|tasks| - 1], tasks[|tasks| - 1];
      assert last in tasks;
      OneByOneMeans(env, factories, chain, front, verified);
      var before := OneByOne(env, factories, chain, front, Search(Ok([]), verified));
      FindPoolsMeans(env, factories[last.index], last.pair, chain, last.index in before.verified);
      assert tasks == front + [last];
      hide Complete, Answered;
      OneMoreTaskMeans(env, chain, factories, front, last, before.result.value,
                       FindPools(env, factories[last.index], last.pair, chain,
                                 last.index in before.verified).result.value);
    }
  }

  // -------------------------------------------------------- from tasks back to queries

  /** Some query asks a driver for the pair. */
  ghost predicate Queried(queries: seq<Query>, f: Factory, pair: Pair) {
    exists q :: q in queries && AsksFor(q, f, pair)
  }

  /** The query names the pair, and no protocol or the driver's. */
  predicate AsksFor(q: Query, f: Factory, pair: Pair) {
    (q.protocol.None? || q.protocol.value == f.protocol) && pair in q.pairs
  }

  lemma {:induction false} TasksAre(index: nat, pairs: seq<Pair>, t: Task)
    ensures t in TasksOf(index, pairs) <==> t.index == index && t.pair in pairs
  {
    if pairs != [] {
      TasksAre(index, pairs[..|pairs| - 1], t);
      assert pairs == pairs[..|pairs| - 1] + [pairs[|pairs| - 1]];
    }
  }

  lemma {:induction false} QueryTasksAre(factories: seq<Factory>, query: Query, n: nat, t: Task)
    requires n <= |factories|
    ensures t in QueryTasks(factories, query, n) <==> t.index < n && AsksFor(query, factories[t.index], t.pair)
  {
    if n > 0 {
      QueryTasksAre(factories, query, n - 1, t);
      TasksAre(n - 1, query.pairs, t);
    }
  }

  lemma {:induction false} AllTasksAre(factories: seq<Factory>, queries: seq<Query>, t: Task)
    ensures t in AllTasks(factories, queries) <==> t.index < |factories| && Queried(queries, factories[t.index], t.pair)
  {
    hide AsksFor;
    if queries != [] {
      var front, last := queries[..|queries| - 1], queries[|queries| - 1];
      AllTasksAre(factories, front, t);
      QueryTasksAre(factories, last, |factories|, t);
      assert queries == front + [last];
      if t.index < |factories| && Queried(queries, factories[t.index], t.pair) {
        var q :| q in queries && AsksFor(q, factories[t.index], t.pair);
        assert q in front || q == last;
      }
      if t.index < |factories| && Queried(front, factories[t.index], t.pair) {
        var q :| q in front && AsksFor(q, factories[t.index], t.pair);
        assert q in queries;
      }
    }
  }

  /**
   A successful search with built-in drivers lists each key once, reports only pools that
   were queried and that the chain has, and misses none of them.
   */
  lemma SearchMeans(env: Environment, factories: seq<Factory>, chain: Chain, queries: seq<Query>, verified: set<nat>)
    requires AllBuiltIn(factories) && Naive(env, factories, chain, queries, verified).result.Ok?
    ensures var pools := Naive(env, factories, chain, queries, verified).result.value;
            && (forall i, j | 0 <= i < j < |pools| :: pools[i].key != pools[j].key)
            && (forall p | p in pools :: p.factory in factories && Queried(queries, p.factory, p.pair) && exists k ::
                k in Keys(p.factory) && Backed(env, chain, p, k))
            && (forall f, pair, k | f in factories && Queried(queries, f, pair) && k in Keys(f)
                && chain(PoolRead(env, f, pair, k)) != 0 ::
                  PoolKey(KeyProtocol(f), chain(PoolRead(env, f, pair, k))) in KeysOf(pools))
  {
    hide Backed, KeyProtocol, PoolRead, Keys, Queried, FirstMissing, AllTasks, OneByOne, FirstOfEachKey;
    var tasks := AllTasks(factories, queries);
    forall t ensures t in tasks <==> t.index < |factories| && Queried(queries, factories[t.index], t.pair) {
      AllTasksAre(factories, queries, t);
    }
    OneByOneMeans(env, factories, chain, tasks, verified);
    var all := OneByOne(env, factories, chain, tasks, Search(Ok([]), verified)).result.value;
    var pools := Naive(env, factories, chain, queries, verified).result.value;
    assert pools == FirstOfEachKey(all);
    forall p | p in pools ensures p.factory in factories && Queried(queries, p.factory, p.pair) && exists k ::
        k in Keys(p.factory) && Backed(env, chain, p, k) {
      assert Asked(env, chain, factories, tasks, p);
    }
    forall f, pair, k | f in factories && Queried(queries, f, pair) && k in Keys(f)
        && chain(PoolRead(env, f, pair, k)) != 0
      ensures PoolKey(KeyProtocol(f), chain(PoolRead(env, f, pair, k))) in KeysOf(pools)
    {
      var i :| 0 <= i < |factories| && factories[i] == f;
      assert Task(i, pair) in tasks;
    }
  }
}
