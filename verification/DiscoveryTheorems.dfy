/** Batched discovery is naive discovery, errors and derivation checks included. */
module DiscoveryTheorems {
  import opened Wrappers
  import opened DiscoveryTypes
  import opened DiscoveryAssembly
  import opened DiscoverySpec

  lemma {:induction false} FailedStays(env: Environment, factories: seq<Factory>, chain: Chain, tasks: seq<Task>,
                                       start: Search)
    requires start.result.Err?
    ensures OneByOne(env, factories, chain, tasks, start) == start
  {
    hide FindPools;
    if tasks != [] {
      FailedStays(env, factories, chain, tasks[..|tasks| - 1], start);
    }
  }

  lemma {:induction false} OneByOneConcat(env: Environment, factories: seq<Factory>, chain: Chain, a: seq<Task>,
                                          b: seq<Task>, start: Search)
    ensures OneByOne(env, factories, chain, a + b, start)
            == OneByOne(env, factories, chain, b, OneByOne(env, factories, chain, a, start))
  {
    hide FindPools;
    if b == [] {
      assert a + b == a;
    } else {
      OneByOneConcat(env, factories, chain, a, b[..|b| - 1], start);
      assert (a + b)[..|a + b| - 1] == a + b[..|b| - 1];
    }
  }

  lemma {:induction false} PlanRunConcat(env: Environment, factories: seq<Factory>, chain: Chain,
                                         answers: map<Read, nat>, a: seq<Entry>, b: seq<Entry>, start: Search)
    ensures PlanRun(env, factories, chain, answers, a + b, start)
            == PlanRun(env, factories, chain, answers, b, PlanRun(env, factories, chain, answers, a, start))
  {
    hide EntryStep;
    if b == [] {
      assert a + b == a;
    } else {
      PlanRunConcat(env, factories, chain, answers, a, b[..|b| - 1], start);
      assert (a + b)[..|a + b| - 1] == a + b[..|b| - 1];
    }
  }

  /** One entry assembled from shared answers is its pairs asked one by one. */
  lemma EntryIsTasks(env: Environment, factories: seq<Factory>, chain: Chain, answers: map<Read, nat>, index: nat,
                     pairs: seq<Pair>, before: Search)
    requires index < |factories| && ReadsClosed(factories[index])
    requires Answers(answers, CandidateReads(env, factories[index], pairs), chain)
    ensures EntryStep(env, factories, chain, answers, before, EntryFor(env, factories, index, pairs)) ==
            OneByOne(env, factories, chain, TasksOf(index, pairs), before)
  {
    hide ReadsClosed, Assemble, OneByOne, Candidates, TasksOf, Answers;
    if before.result.Err? {
      FailedStays(env, factories, chain, TasksOf(index, pairs), before);
    } else if pairs == [] {
      NoPairs(env, factories, index, answers, chain, before);
    } else if CandidateReads(env, factories[index], pairs) != {} {
      PairsFromShared(env, factories, index, answers, chain, pairs, pairs, before);
    }
  }

  lemma PlanRunOne(env: Environment, factories: seq<Factory>, chain: Chain, answers: map<Read, nat>, entry: Entry,
                   start: Search)
    ensures PlanRun(env, factories, chain, answers, [entry], start)
            == EntryStep(env, factories, chain, answers, start, entry)
  {
    assert [entry][..0] == [];
  }

  lemma NoFactories(env: Environment, factories: seq<Factory>, query: Query)
    ensures QueryEntries(env, factories, query, 0) == []
  {
  }

  lemma OneMoreFactory(env: Environment, factories: seq<Factory>, query: Query, n: nat)
    requires n < |factories|
    ensures QueryEntries(env, factories, query, n + 1) ==
            if Matches(query, factories[n])
                then QueryEntries(env, factories, query, n) + [EntryFor(env, factories, n, query.pairs)]
            else QueryEntries(env, factories, query, n)
  {
  }

  lemma AskedGrowsBy(a: seq<Entry>, b: seq<Entry>)
    ensures AskedBy(a + b) == AskedBy(a) + AskedBy(b)
  {
  }

  lemma AskedByOne(entry: Entry)
    ensures AskedBy([entry]) == entry.asked
  {
    assert entry in [entry];
  }

  lemma NothingDone(env: Environment, factories: seq<Factory>, chain: Chain, answers: map<Read, nat>, start: Search)
    ensures PlanRun(env, factories, chain, answers, [], start) == start
            && OneByOne(env, factories, chain, [], start) == start
  {
  }

  lemma {:induction false} QueryIsTasks(env: Environment, factories: seq<Factory>, chain: Chain,
                                        answers: map<Read, nat>, query: Query, n: nat, start: Search)
    requires n <= |factories| && AllClosed(factories)
    requires Answers(answers, AskedBy(QueryEntries(env, factories, query, n)), chain)
    ensures PlanRun(env, factories, chain, answers, QueryEntries(env, factories, query, n), start) ==
            OneByOne(env, factories, chain, QueryTasks(factories, query, n), start)
  {
    hide EntryStep, ReadsClosed, TasksOf, CandidateReads, FindPools, PlanRun, OneByOne, QueryEntries, AskedBy, Matches;
    if n == 0 {
      NoFactories(env, factories, query);
      NothingDone(env, factories, chain, answers, start);
    } else {
      var before := QueryEntries(env, factories, query, n - 1);
      var entry := EntryFor(env, factories, n - 1, query.pairs);
      OneMoreFactory(env, factories, query, n - 1);
      AskedGrowsBy(before, [entry]);
      AskedByOne(entry);
      QueryIsTasks(env, factories, chain, answers, query, n - 1, start);
      if Matches(query, factories[n - 1]) {
        PlanRunConcat(env, factories, chain, answers, before, [entry], start);
        PlanRunOne(env, factories, chain, answers, entry, PlanRun(env, factories, chain, answers, before, start));
        EntryIsTasks(env, factories, chain, answers, n - 1, query.pairs,
                     PlanRun(env, factories, chain, answers, before, start));
        OneByOneConcat(env, factories, chain, QueryTasks(factories, query, n - 1), TasksOf(n - 1, query.pairs), start);
      } else {
        assert QueryTasks(factories, query, n - 1) + [] == QueryTasks(factories, query, n - 1);
      }
    }
  }

  /** Any answers that hold the chain's values for everything asked give the naive run. */
  lemma {:induction false} PlanIsTasks(env: Environment, factories: seq<Factory>, chain: Chain,
                                       answers: map<Read, nat>, queries: seq<Query>, start: Search)
    requires AllClosed(factories) && Answers(answers, AskedBy(AllEntries(env, factories, queries)), chain)
    ensures PlanRun(env, factories, chain, answers, AllEntries(env, factories, queries), start) ==
            OneByOne(env, factories, chain, AllTasks(factories, queries), start)
  {
    hide EntryStep, AllClosed, QueryEntries, QueryTasks, FindPools;
    if queries != [] {
      var front, last := queries[..|queries| - 1], queries[|queries| - 1];
      var before := AllEntries(env, factories, front);
      var more := QueryEntries(env, factories, last, |factories|);
      assert AskedBy(before) <= AskedBy(before + more) && AskedBy(more) <= AskedBy(before + more);
      hide PlanRun, OneByOne;
      PlanIsTasks(env, factories, chain, answers, front, start);
      PlanRunConcat(env, factories, chain, answers, before, more, start);
      QueryIsTasks(env, factories, chain, answers, last, |factories|,
                   PlanRun(env, factories, chain, answers, before, start));
      OneByOneConcat(env, factories, chain, AllTasks(factories, front), QueryTasks(factories, last, |factories|),
                     start);
    }
  }

  /**
   One batched plan, fetch and assembly equals the naive search in query, factory and
   pair order, with errors and derivation checks, for drivers that read what they ask for.
   */
  lemma BatchedIsNaive(env: Environment, factories: seq<Factory>, chain: Chain, queries: seq<Query>, verified: set<nat>)
    requires AllClosed(factories)
    ensures Batched(env, factories, chain, queries, verified) == Naive(env, factories, chain, queries, verified)
  {
    hide AllClosed, PlanRun, OneByOne, AllTasks, AllEntries, Deduplicated, FirstMissing;
    var entries := AllEntries(env, factories, queries);
    PlanIsTasks(env, factories, chain, Fetched(AskedBy(entries), chain), queries, Search(Ok([]), verified));
  }

  // ------------------------------------------- a driver that reads more than it asks for

  lemma {:induction false} FirstKept(pools: seq<Pool>)
    requires pools != []
    ensures FirstOfEachKey(pools) != [] && FirstOfEachKey(pools)[0] == pools[0]
  {
    if |pools| == 1 {
      assert pools[..0] == [];
    } else {
      FirstKept(pools[..|pools| - 1]);
    }
  }

  /** A query for nothing on the second driver, then one for a pair on the first. */
  function TwoQueries(factories: seq<Factory>, pair: Pair): seq<Query>
    requires |factories| == 2
  {
    [Query(Some(factories[1].protocol), []), Query(Some(factories[0].protocol), [pair])]
  }

  lemma {:induction false} TwoEntries(env: Environment, factories: seq<Factory>, pair: Pair)
    requires |factories| == 2 && factories[0].protocol != factories[1].protocol
    ensures AllEntries(env, factories, TwoQueries(factories, pair))
            == [EntryFor(env, factories, 1, []), EntryFor(env, factories, 0, [pair])]
  {
    hide EntryFor;
    var queries := TwoQueries(factories, pair);
    assert queries[..1] == [queries[0]] && queries[..1][..0] == [];
    assert AllEntries(env, factories, queries[..1][..0]) == [];
    assert QueryEntries(env, factories, queries[0], 1) == []
        && QueryEntries(env, factories, queries[0], 2) == [EntryFor(env, factories, 1, [])];
    assert QueryEntries(env, factories, queries[1], 1) == [EntryFor(env, factories, 0, [pair])]
        == QueryEntries(env, factories, queries[1], 2);
  }

  lemma {:induction false} BothServed(factories: seq<Factory>, pair: Pair)
    requires |factories| == 2
    ensures FirstMissing(factories, TwoQueries(factories, pair)).None?
  {
    var queries := TwoQueries(factories, pair);
    assert factories[0] in factories && factories[1] in factories;
    assert queries[..1] == [queries[0]] && queries[..1][..0] == [];
    assert FirstMissing(factories, queries[..1][..0]).None?;
  }

  lemma {:induction false} OnlyTask(factories: seq<Factory>, pair: Pair)
    requires |factories| == 2 && factories[0].protocol != factories[1].protocol
    ensures AllTasks(factories, TwoQueries(factories, pair)) == TasksOf(0, [pair])
  {
    var queries := TwoQueries(factories, pair);
    assert queries[..1] == [queries[0]] && queries[..1][..0] == [];
    assert AllTasks(factories, queries[..1][..0]) == [];
    assert TasksOf(1, []) == [];
    assert QueryTasks(factories, queries[0], 1) == [] && QueryTasks(factories, queries[0], 2) == [];
    assert QueryTasks(factories, queries[1], 1) == TasksOf(0, [pair]) == QueryTasks(factories, queries[1], 2);
  }

  lemma PlanRunTwo(env: Environment, factories: seq<Factory>, chain: Chain, answers: map<Read, nat>, a: Entry,
                   b: Entry, start: Search)
    ensures PlanRun(env, factories, chain, answers, [a, b], start) ==
            EntryStep(env, factories, chain, answers, EntryStep(env, factories, chain, answers, start, a), b)
  {
    hide EntryStep;
    assert [a, b][..1] == [a];
    PlanRunOne(env, factories, chain, answers, a, start);
  }

  /** A second driver for the same contract, whose tick spacings are where the first keeps its fees. */
  function SecondDriver(f: Factory, protocol: Protocol): Factory
    requires f.keying.ByFee? && f.feeSource.FactoryMapping?
  {
    f.(protocol := protocol, keying := ByFee(f.keying.tiers, f.feeSource.base), feeSource := Fixed(1))
  }

  function OnePoolChain(env: Environment, f: Factory, pair: Pair, key: LookupKey): Chain
    requires f.keying.ByFee? && f.feeSource.FactoryMapping?
  {
    (r: Read) => OnePoolWord(env, f, pair, key, r)
  }

  /** From the answers to both drivers the fee is 5; from the first driver's own it is unset. */
  lemma ClashAnswers(env: Environment, f: Factory, pair: Pair, key: LookupKey, protocol: Protocol)
    requires !ReadsClosed(f) && key in Keys(f) && CollisionFree(env, f, pair, key)
    ensures var chain := OnePoolChain(env, f, pair, key);
            var own := CandidateReads(env, f, [pair]);
            && own != {}
            && OnePoolAnswers(env, f, pair, key,
                              Fetched(CandidateReads(env, SecondDriver(f, protocol), []) + own, chain), 5)
            && OnePoolAnswers(env, f, pair, key, Fetched(own, chain), 0)
  {
    var own := CandidateReads(env, f, [pair]);
    assert PoolRead(env, f, pair, key) in own && DetailRead(env, f, f.keying.spacingBase, key) in own;
    assert key in Keys(SecondDriver(f, protocol));
    assert DetailRead(env, f, f.feeSource.base, key) in CandidateReads(env, SecondDriver(f, protocol), []);
    hide CandidateReads, Expected;
  }

  /**
   A driver that is not closed breaks the agreement under any hashes that do not collide
   for one of its keys: beside a second driver for the same contract, the batch gives its
   pool a fee that the naive search leaves unset.
   */
  lemma OpenBreaksBatching(env: Environment, f: Factory, pair: Pair, key: LookupKey, protocol: Protocol)
    requires !ReadsClosed(f) && key in Keys(f) && CollisionFree(env, f, pair, key)
    requires protocol != f.protocol
    ensures var chain := OnePoolChain(env, f, pair, key);
            var factories := [f, SecondDriver(f, protocol)];
            var queries := TwoQueries(factories, pair);
            && StartsWith(Batched(env, factories, chain, queries, {}).result, Opened(env, f, pair, key, 5))
            && StartsWith(Naive(env, factories, chain, queries, {}).result, Opened(env, f, pair, key, 0))
            && Batched(env, factories, chain, queries, {}) != Naive(env, factories, chain, queries, {})
  {
    var factories := [f, SecondDriver(f, protocol)];
    assert !f.keying.External? && f.protocol != factories[1].protocol;
    assert Opened(env, f, pair, key, 5) != Opened(env, f, pair, key, 0);
    hide Batched, Naive, CandidateReads, Keys, ReadsClosed, CollisionFree, TwoQueries, Opened;
    BatchedClash(env, f, pair, key, protocol);
    NaiveClash(env, f, pair, key, protocol);
  }

  /** An entry without pairs finds nothing, so the plan is the run of the other entry. */
  lemma EmptyThenPair(env: Environment, factories: seq<Factory>, chain: Chain, answers: map<Read, nat>, pair: Pair)
    requires |factories| == 2 && CandidateReads(env, factories[0], [pair]) != {}
    ensures var run := Assemble(env, factories[0], answers, Candidates(factories[0], [pair]), false);
            PlanRun(env, factories, chain, answers,
                    [EntryFor(env, factories, 1, []), EntryFor(env, factories, 0, [pair])], Search(Ok([]), {})).result
                == run.result
  {
    hide Assemble, PlanRun, CandidateReads, Candidates, OneByOne;
    var start := Search(Ok([]), {});
    NoPairs(env, factories, 1, answers, chain, start);
    PlanRunTwo(env, factories, chain, answers, EntryFor(env, factories, 1, []), EntryFor(env, factories, 0, [pair]),
               start);
    var run := Assemble(env, factories[0], answers, Candidates(factories[0], [pair]), false);
    assert run.result.Ok? ==> [] + run.result.value == run.result.value;
  }

  lemma AskedByTwo(a: Entry, b: Entry)
    ensures AskedBy([a, b]) == a.asked + b.asked
  {
    hide AskedBy;
    assert [a] + [b] == [a, b];
    AskedGrowsBy([a], [b]);
    AskedByOne(a);
    AskedByOne(b);
  }

  lemma BatchedTwo(env: Environment, factories: seq<Factory>, chain: Chain, pair: Pair, answers: map<Read, nat>)
    requires |factories| == 2 && factories[0].protocol != factories[1].protocol
            && CandidateReads(env, factories[0], [pair]) != {}
    requires answers == Fetched(CandidateReads(env, factories[1], []) + CandidateReads(env, factories[0], [pair]),
                                chain)
    requires Assemble(env, factories[0], answers, Candidates(factories[0], [pair]), false).result.Ok?
    ensures Batched(env, factories, chain, TwoQueries(factories, pair), {}).result ==
            Ok(FirstOfEachKey(Assemble(env, factories[0], answers, Candidates(factories[0], [pair]),
                                       false).result.value))
  {
    hide Assemble, AllEntries, PlanRun, FirstMissing, FirstOfEachKey, TwoQueries, Candidates, AskedBy, CandidateReads;
    BothServed(factories, pair);
    TwoEntries(env, factories, pair);
    AskedByTwo(EntryFor(env, factories, 1, []), EntryFor(env, factories, 0, [pair]));
    EmptyThenPair(env, factories, chain, answers, pair);
  }

  /** What the batch finds first. */
  lemma BatchedClash(env: Environment, f: Factory, pair: Pair, key: LookupKey, protocol: Protocol)
    requires !ReadsClosed(f) && key in Keys(f) && CollisionFree(env, f, pair, key)
    requires protocol != f.protocol
    ensures var factories := [f, SecondDriver(f, protocol)];
            StartsWith(Batched(env, factories, OnePoolChain(env, f, pair, key), TwoQueries(factories, pair), {}).result,
                       Opened(env, f, pair, key, 5))
  {
    var other := SecondDriver(f, protocol);
    var chain := OnePoolChain(env, f, pair, key);
    ClashAnswers(env, f, pair, key, protocol);
    hide Assemble, Batched, FirstOfEachKey, ReadsClosed, CollisionFree, Keys, TwoQueries, Candidates, Opened,
        OnePoolAnswers, CandidateReads;
    var answers := Fetched(CandidateReads(env, other, []) + CandidateReads(env, f, [pair]), chain);
    OnePoolFound(env, f, pair, key, answers, 5);
    BatchedTwo(env, [f, other], chain, pair, answers);
    FirstKept(Assemble(env, f, answers, Candidates(f, [pair]), false).result.value);
  }

  /** What the naive search finds first. */
  lemma NaiveClash(env: Environment, f: Factory, pair: Pair, key: LookupKey, protocol: Protocol)
    requires !ReadsClosed(f) && key in Keys(f) && CollisionFree(env, f, pair, key)
    requires protocol != f.protocol
    ensures var factories := [f, SecondDriver(f, protocol)];
            StartsWith(Naive(env, factories, OnePoolChain(env, f, pair, key), TwoQueries(factories, pair), {}).result,
                       Opened(env, f, pair, key, 0))
  {
    var factories := [f, SecondDriver(f, protocol)];
    var chain := OnePoolChain(env, f, pair, key);
    ClashAnswers(env, f, pair, key, protocol);
    assert !f.keying.External? && f.protocol != factories[1].protocol;
    hide Assemble, AllTasks, FirstMissing, FirstOfEachKey, ReadsClosed, CollisionFree, Keys, TwoQueries, Candidates,
        Opened, OnePoolAnswers, CandidateReads;
    var answers := Fetched(CandidateReads(env, f, [pair]), chain);
    OnePoolFound(env, f, pair, key, answers, 0);
    BothServed(factories, pair);
    OnlyTask(factories, pair);
    assert [pair][..0] == [];
    OneMoreTask(env, factories, chain, 0, [pair], Search(Ok([]), {}));
    NoPairs(env, factories, 0, map[], chain, Search(Ok([]), {}));
    var alone := Assemble(env, f, answers, Candidates(f, [pair]), false).result.value;
    assert [] + alone == alone;
    FirstKept(alone);
  }
}
