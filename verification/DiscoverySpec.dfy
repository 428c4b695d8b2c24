/**
 Batched discovery against naive discovery. The batch gathers the reads of every query,
 factory and pair, fetches them once and assembles; the naive search asks the factories
 one pair after another.
 */
module DiscoverySpec {
  import opened Wrappers
  import opened Words
  import opened DiscoveryTypes
  import opened DiscoveryAssembly

  /** The value of every storage slot at the block the search is pinned to. */
  type Chain = Read -> nat

  datatype Query = Query(protocol: Option<Protocol>, pairs: seq<Pair>)

  /** Pools found so far or the error, and the factories whose derivation check has passed. */
  datatype Search = Search(result: Result<seq<Pool>, Error>, verified: set<nat>)

  function Fetched(asked: set<Read>, chain: Chain): map<Read, nat> {
    map r | r in asked :: chain(r)
  }

  predicate Matches(query: Query, f: Factory) {
    query.protocol.None? || f.protocol == query.protocol.value
  }

  /** The first scoped query that no factory serves. */
  function FirstMissing(factories: seq<Factory>, queries: seq<Query>): Option<Protocol> {
    if queries == [] then None
    else
      var before := FirstMissing(factories, queries[..|queries| - 1]);
      var last := queries[|queries| - 1];
      if before.Some? then before
      else if last.protocol.Some? && forall f | f in factories :: f.protocol != last.protocol.value then last.protocol
      else None
  }

  function KeysOf(pools: seq<Pool>): set<PoolKey> {
    set p | p in pools :: p.key
  }

  /** The pools without those whose key came earlier. */
  function FirstOfEachKey(pools: seq<Pool>): (r: seq<Pool>)
    ensures KeysOf(r) == KeysOf(pools) && forall p | p in r :: p in pools
    ensures forall i, j | 0 <= i < j < |r| :: r[i].key != r[j].key
  {
    if pools == [] then []
    else
      var before := FirstOfEachKey(pools[..|pools| - 1]);
      var last := pools[|pools| - 1];
      assert pools == pools[..|pools| - 1] + [last];
      assert KeysOf(pools) == KeysOf(pools[..|pools| - 1]) + {last.key};
      if last.key in KeysOf(before) then before
      else
        assert forall i | 0 <= i < |before| :: before[i] in before;
        assert KeysOf(before + [last]) == KeysOf(before) + {last.key};
        before + [last]
  }

  // -------------------------------------------------------------------- naive search

  /** find_pools: one factory, one pair, only that pair's reads. */
  function FindPools(env: Environment, f: Factory, pair: Pair, chain: Chain, verified: bool): Run<seq<Pool>> {
    if f.keying.External? then Run(env.external(f, pair), verified)
    else
      var asked := CandidateReads(env, f, [pair]);
      if asked == {} then Run(Ok([]), verified)
      else Assemble(env, f, Fetched(asked, chain), Candidates(f, [pair]), verified)
  }

  datatype Task = Task(index: nat, pair: Pair)

  /** Carry a factory's run into the search. */
  function Took(before: Search, index: nat, run: Run<seq<Pool>>): Search
    requires before.result.Ok?
  {
    Search(if run.result.Err? then run.result else Ok(before.result.value + run.result.value),
           if run.verified then before.verified + {index} else before.verified)
  }

  /** Ask the factories one pair after another, until one fails. */
  function OneByOne(env: Environment, factories: seq<Factory>, chain: Chain, tasks: seq<Task>, start: Search): Search {
    if tasks == [] then start
    else
      var before := OneByOne(env, factories, chain, tasks[..|tasks| - 1], start);
      var last := tasks[|tasks| - 1];
      if before.result.Err? || last.index >= |factories| then before
      else Took(before, last.index, FindPools(env, factories[last.index], last.pair, chain,
                                              last.index in before.verified))
  }

  function TasksOf(index: nat, pairs: seq<Pair>): seq<Task> {
    if pairs == [] then [] else TasksOf(index, pairs[..|pairs| - 1]) + [Task(index, pairs[|pairs| - 1])]
  }

  /** One query's pairs under each of the first `n` factories. */
  function QueryTasks(factories: seq<Factory>, query: Query, n: nat): seq<Task>
    requires n <= |factories|
  {
    if n == 0 then []
    else
      QueryTasks(factories, query, n - 1)
      + (if Matches(query, factories[n - 1]) then TasksOf(n - 1, query.pairs) else [])
  }

  /** In query order, then factory order, then pair order. */
  function AllTasks(factories: seq<Factory>, queries: seq<Query>): seq<Task> {
    if queries == [] then []
    else AllTasks(factories, queries[..|queries| - 1]) + QueryTasks(factories, queries[|queries| - 1], |factories|)
  }

  function Deduplicated(search: Search): Search {
    if search.result.Err? then search else Search(Ok(FirstOfEachKey(search.result.value)), search.verified)
  }

  function Naive(env: Environment, factories: seq<Factory>, chain: Chain, queries: seq<Query>,
                 verified: set<nat>): Search {
    var missing := FirstMissing(factories, queries);
    if missing.Some? then Search(Err(MissingFactory(missing.value)), verified)
    else Deduplicated(OneByOne(env, factories, chain, AllTasks(factories, queries), Search(Ok([]), verified)))
  }

  // ------------------------------------------------------------------ batched search

  datatype Entry = Entry(index: nat, protocol: Protocol, address: Address, pairs: seq<Pair>, asked: set<Read>,
                         legacy: bool)

  datatype Prepared = Prepared(asked: set<Read>, entries: seq<Entry>)

  function EntryFor(env: Environment, factories: seq<Factory>, index: nat, pairs: seq<Pair>): Entry
    requires index < |factories|
  {
    var f := factories[index];
    var asked := CandidateReads(env, f, pairs);
    Entry(index, f.protocol, f.address, pairs, asked, pairs != [] && asked == {})
  }

  function QueryEntries(env: Environment, factories: seq<Factory>, query: Query, n: nat): seq<Entry>
    requires n <= |factories|
  {
    if n == 0 then []
    else
      QueryEntries(env, factories, query, n - 1)
      + (if Matches(query, factories[n - 1]) then [EntryFor(env, factories, n - 1, query.pairs)] else [])
  }

  function AllEntries(env: Environment, factories: seq<Factory>, queries: seq<Query>): seq<Entry> {
    if queries == [] then []
    else
      AllEntries(env, factories, queries[..|queries| - 1])
      + QueryEntries(env, factories, queries[|queries| - 1], |factories|)
  }

  function AskedBy(entries: seq<Entry>): set<Read> {
    set e, r | e in entries && r in e.asked :: r
  }

  /** Assemble one entry from the answers at hand; a legacy driver asks pair by pair instead. */
  function EntryStep(env: Environment, factories: seq<Factory>, chain: Chain, answers: map<Read, nat>, before: Search,
                     e: Entry): Search {
    if before.result.Err? then before
    else if e.index >= |factories| || factories[e.index].protocol != e.protocol
        || factories[e.index].address != e.address then
      Search(Err(PreparedFactoryMismatch(e.index)), before.verified)
    else if e.legacy then OneByOne(env, factories, chain, TasksOf(e.index, e.pairs), before)
    else Took(before, e.index, Assemble(env, factories[e.index], answers, Candidates(factories[e.index], e.pairs),
                                        e.index in before.verified))
  }

  function PlanRun(env: Environment, factories: seq<Factory>, chain: Chain, answers: map<Read, nat>,
                   entries: seq<Entry>, start: Search): Search {
    if entries == [] then start
    else
      EntryStep(env, factories, chain, answers,
                PlanRun(env, factories, chain, answers, entries[..|entries| - 1], start), entries[|entries| - 1])
  }

  /** One plan, one fetch of everything it asks for, one assembly. */
  function Batched(env: Environment, factories: seq<Factory>, chain: Chain, queries: seq<Query>,
                   verified: set<nat>): Search {
    var missing := FirstMissing(factories, queries);
    if missing.Some? then Search(Err(MissingFactory(missing.value)), verified)
    else
      var entries := AllEntries(env, factories, queries);
      Deduplicated(PlanRun(env, factories, chain, Fetched(AskedBy(entries), chain), entries, Search(Ok([]), verified)))
  }

  /** Every factory reads only what it asks for. */
  predicate AllClosed(factories: seq<Factory>) {
    forall f | f in factories :: ReadsClosed(f)
  }

  /** The answers hold the chain's value for everything asked. */
  predicate Answers(answers: map<Read, nat>, asked: set<Read>, chain: Chain) {
    forall r | r in asked :: r in answers && answers[r] == chain(r)
  }

  // -------------------------------------------------------------------- one entry

  lemma AskedGrows(env: Environment, f: Factory, pairs: seq<Pair>, pair: Pair)
    requires pair in pairs
    ensures CandidateReads(env, f, [pair]) <= CandidateReads(env, f, pairs)
  {
  }

  lemma AskedByPair(env: Environment, f: Factory, pairs: seq<Pair>, pair: Pair)
    requires CandidateReads(env, f, pairs) != {}
    ensures CandidateReads(env, f, [pair]) != {}
  {
    assert |Keys(f)| > 0;
    assert PoolRead(env, f, pair, Keys(f)[0]) in CandidateReads(env, f, [pair]);
  }

  /** One pair asked on its own gives what the shared answers give. */
  lemma PairFromShared(env: Environment, f: Factory, answers: map<Read, nat>, chain: Chain, pairs: seq<Pair>,
                       pair: Pair, verified: bool)
    requires ReadsClosed(f) && !f.keying.External? && pair in pairs && CandidateReads(env, f, pairs) != {}
    requires Answers(answers, CandidateReads(env, f, pairs), chain)
    ensures FindPools(env, f, pair, chain, verified) == Assemble(env, f, answers, Candidates(f, [pair]), verified)
  {
    hide ReadsClosed, CandidateReads, Assemble, Candidates;
    AskedGrows(env, f, pairs, pair);
    AskedByPair(env, f, pairs, pair);
    ClosedDependsOnRequested(env, f, Fetched(CandidateReads(env, f, [pair]), chain), answers, [pair], verified);
  }

  /** Assembling a list of pairs from the shared answers is asking for them one by one. */
  lemma {:induction false} PairsFromShared(env: Environment, factories: seq<Factory>, index: nat,
                                           answers: map<Read, nat>, chain: Chain, all: seq<Pair>, pairs: seq<Pair>,
                                           before: Search)
    requires index < |factories| && before.result.Ok?
    requires ReadsClosed(factories[index]) && !factories[index].keying.External?
            && CandidateReads(env, factories[index], all) != {}
    requires Answers(answers, CandidateReads(env, factories[index], all), chain) && forall p | p in pairs :: p in all
    ensures Took(before, index, Assemble(env, factories[index], answers, Candidates(factories[index], pairs),
                                         index in before.verified)) ==
            OneByOne(env, factories, chain, TasksOf(index, pairs), before)
    decreases |pairs|
  {
    hide ReadsClosed, CandidateReads, FindPools, Answers, Assemble, Candidates, TasksOf, OneByOne;
    var f := factories[index];
    if pairs == [] {
      NoPairs(env, factories, index, answers, chain, before);
    } else {
      var front, last := pairs[..|pairs| - 1], pairs[|pairs| - 1];
      PairsFromShared(env, factories, index, answers, chain, all, front, before);
      var run := Assemble(env, f, answers, Candidates(f, front), index in before.verified);
      var more := Assemble(env, f, answers, Candidates(f, [last]), run.verified);
      OnePair(f, last);
      OneMorePair(f, pairs, |pairs| - 1);
      assert pairs[..|pairs|] == pairs;
      AssembleConcat(env, f, answers, Candidates(f, front), Candidates(f, [last]), index in before.verified);
      if index in before.verified {
        VerifiedStays(env, f, answers, Candidates(f, front));
      }
      if run.verified {
        VerifiedStays(env, f, answers, Candidates(f, [last]));
      }
      TookOnward(before, index, run, more);
      PairFromShared(env, f, answers, chain, all, last, run.verified);
      OneMoreTask(env, factories, chain, index, pairs, before);
    }
  }

  lemma NoPairs(env: Environment, factories: seq<Factory>, index: nat, answers: map<Read, nat>, chain: Chain,
                before: Search)
    requires index < |factories| && before.result.Ok?
    ensures Took(before, index, Assemble(env, factories[index], answers, Candidates(factories[index], []),
                                         index in before.verified)) == before
    ensures OneByOne(env, factories, chain, TasksOf(index, []), before) == before
  {
    assert before.result.value + [] == before.result.value;
    assert index in before.verified ==> before.verified + {index} == before.verified;
  }

  /** Once a derivation check has passed it is not taken back. */
  lemma {:induction false} VerifiedStays(env: Environment, f: Factory, answers: map<Read, nat>,
                                         candidates: seq<Candidate>)
    ensures Assemble(env, f, answers, candidates, true).verified
  {
    if candidates != [] {
      VerifiedStays(env, f, answers, candidates[..|candidates| - 1]);
    }
  }

  lemma TookOnward(before: Search, index: nat, run: Run<seq<Pool>>, more: Run<seq<Pool>>)
    requires before.result.Ok? && (index in before.verified ==> run.verified)
    ensures Took(before, index, Onward(run, more)).result.Ok? ==> run.result.Ok?
    ensures run.result.Err? ==> Took(before, index, Onward(run, more)) == Took(before, index, run)
    ensures run.result.Ok? ==> (index in Took(before, index, run).verified <==> run.verified)
    ensures run.result.Ok? && (run.verified ==> more.verified) ==>
              Took(before, index, Onward(run, more)) == Took(Took(before, index, run), index, more)
  {
    if run.result.Ok? && more.result.Ok? {
      assert before.result.value + run.result.value + more.result.value
          == before.result.value + (run.result.value + more.result.value);
    }
  }

  lemma OneMoreTask(env: Environment, factories: seq<Factory>, chain: Chain, index: nat, pairs: seq<Pair>,
                    start: Search)
    requires pairs != [] && index < |factories|
    ensures var before := OneByOne(env, factories, chain, TasksOf(index, pairs[..|pairs| - 1]), start);
            OneByOne(env, factories, chain, TasksOf(index, pairs), start) ==
              if before.result.Err? then before
              else Took(before, index, FindPools(env, factories[index], pairs[|pairs| - 1], chain,
                                                 index in before.verified))
  {
    hide FindPools;
    var front := TasksOf(index, pairs[..|pairs| - 1]);
    assert TasksOf(index, pairs)[..|front|] == front;
  }
}
