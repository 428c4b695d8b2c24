/** The discovery front-end over its registered factory drivers. */
module Discovery {
  import opened Wrappers
  import opened Words
  import opened DiscoveryTypes
  import opened DiscoveryAssembly
  import opened DiscoverySpec
  import opened DiscoveryTheorems

  datatype Identity = Identity(protocol: Protocol, address: Address)

  function IdentityOf(f: Factory): Identity {
    Identity(f.protocol, f.address)
  }

  function Identities(factories: seq<Factory>): set<Identity> {
    set f | f in factories :: IdentityOf(f)
  }

  /** The first factory of every identity, in insertion order. */
  function Unique(all: seq<Factory>): (r: seq<Factory>)
    ensures Identities(r) == Identities(all)
    ensures forall i, j | 0 <= i < j < |r| :: IdentityOf(r[i]) != IdentityOf(r[j])
  {
    if all == [] then []
    else
      var before := Unique(all[..|all| - 1]);
      var last := all[|all| - 1];
      assert all == all[..|all| - 1] + [last];
      assert Identities(all) == Identities(all[..|all| - 1]) + {IdentityOf(last)};
      if IdentityOf(last) in Identities(before) then before
      else
        assert forall i | 0 <= i < |before| :: before[i] in before;
        assert Identities(before + [last]) == Identities(before) + {IdentityOf(last)};
        before + [last]
  }

  datatype Mode = Allow | Reject

  /** What planning the given entries comes to. */
  function Planned(entries: seq<Entry>, mode: Mode, factories: seq<Factory>): Result<Prepared, Error> {
    var legacy := FirstLegacy(entries);
    if mode.Reject? && legacy.Some? && legacy.value < |factories|
        then Err(PreparedModeUnsupported(factories[legacy.value]))
    else Ok(Prepared(AskedBy(entries), entries))
  }

  function FirstLegacy(entries: seq<Entry>): Option<nat> {
    if entries == [] then None
    else
      var before := FirstLegacy(entries[..|entries| - 1]);
      if before.Some? then before
      else if entries[|entries| - 1].legacy then Some(entries[|entries| - 1].index)
      else None
  }

  lemma LegacyGrows(entries: seq<Entry>, more: seq<Entry>)
    requires FirstLegacy(entries).Some?
    ensures FirstLegacy(entries + more) == FirstLegacy(entries)
  {
    if more == [] {
      assert entries + more == entries;
    } else {
      LegacyGrows(entries, more[..|more| - 1]);
      assert (entries + more)[..|entries + more| - 1] == entries + more[..|more| - 1];
    }
  }

  /** Without a cache there is nothing to ask; plans without legacy entries never do. */
  function ChainOf(cache: Option<Chain>): Chain {
    if cache.Some? then cache.value else _ => 0
  }

  lemma NoLegacy()
    ensures FirstLegacy([]) == None
  {
  }

  lemma NoPools()
    ensures FirstOfEachKey([]) == [] && KeysOf([]) == {}
  {
  }

  lemma {:induction false} StuckPlan(env: Environment, factories: seq<Factory>, chain: Chain, answers: map<Read, nat>,
                                     entries: seq<Entry>, start: Search)
    requires start.result.Err?
    ensures PlanRun(env, factories, chain, answers, entries, start) == start
  {
    if entries != [] {
      StuckPlan(env, factories, chain, answers, entries[..|entries| - 1], start);
    }
  }

  /** The first failing entry ends the assembly. */
  lemma PlanFails(env: Environment, factories: seq<Factory>, chain: Chain, answers: map<Read, nat>,
                  entries: seq<Entry>, i: nat, start: Search)
    requires i < |entries| && PlanRun(env, factories, chain, answers, entries[..i + 1], start).result.Err?
    ensures PlanRun(env, factories, chain, answers, entries, start)
            == PlanRun(env, factories, chain, answers, entries[..i + 1], start)
  {
    hide PlanRun;
    assert entries == entries[..i + 1] + entries[i + 1..];
    PlanRunConcat(env, factories, chain, answers, entries[..i + 1], entries[i + 1..], start);
    StuckPlan(env, factories, chain, answers, entries[i + 1..],
              PlanRun(env, factories, chain, answers, entries[..i + 1], start));
  }

  /** The first failing pair ends a legacy entry. */
  lemma TasksFail(env: Environment, factories: seq<Factory>, chain: Chain, index: nat, pairs: seq<Pair>, i: nat,
                  start: Search)
    requires i < |pairs| && OneByOne(env, factories, chain, TasksOf(index, pairs[..i + 1]), start).result.Err?
    ensures OneByOne(env, factories, chain, TasksOf(index, pairs), start)
            == OneByOne(env, factories, chain, TasksOf(index, pairs[..i + 1]), start)
  {
    hide OneByOne, TasksOf;
    assert pairs == pairs[..i + 1] + pairs[i + 1..];
    TasksConcat(index, pairs[..i + 1], pairs[i + 1..]);
    OneByOneConcat(env, factories, chain, TasksOf(index, pairs[..i + 1]), TasksOf(index, pairs[i + 1..]), start);
    FailedStays(env, factories, chain, TasksOf(index, pairs[i + 1..]),
                OneByOne(env, factories, chain, TasksOf(index, pairs[..i + 1]), start));
  }

  lemma {:induction false} TasksConcat(index: nat, a: seq<Pair>, b: seq<Pair>)
    ensures TasksOf(index, a + b) == TasksOf(index, a) + TasksOf(index, b)
  {
    if b == [] {
      assert a + b == a;
    } else {
      assert (a + b)[..|a + b| - 1] == a + b[..|b| - 1];
      TasksConcat(index, a, b[..|b| - 1]);
    }
  }

  lemma OneMorePool(pools: seq<Pool>, next: Pool)
    ensures KeysOf(pools + [next]) == KeysOf(pools) + {next.key}
    ensures FirstOfEachKey(pools + [next]) == if next.key in KeysOf(pools) then FirstOfEachKey(pools)
            else FirstOfEachKey(pools) + [next]
  {
    assert (pools + [next])[..|pools|] == pools;
  }

  /** Append the pools whose key has not been seen. */
  method AddPools(found: seq<Pool>, seen: set<PoolKey>, pools: seq<Pool>, ghost before: seq<Pool>)
      returns (found': seq<Pool>, seen': set<PoolKey>)
    requires found == FirstOfEachKey(before) && seen == KeysOf(before)
    ensures found' == FirstOfEachKey(before + pools) && seen' == KeysOf(before + pools)
  {
    hide FirstOfEachKey, KeysOf;
    found', seen' := found, seen;
    assert before + pools[..0] == before;
    for i := 0 to |pools|
      invariant found' == FirstOfEachKey(before + pools[..i]) && seen' == KeysOf(before + pools[..i])
    {
      assert before + pools[..i + 1] == (before + pools[..i]) + [pools[i]];
      OneMorePool(before + pools[..i], pools[i]);
      if pools[i].key !in seen' {
        found', seen' := found' + [pools[i]], seen' + {pools[i].key};
      }
    }
    assert pools[..|pools|] == pools;
  }

  lemma {:induction false} QueryEntriesPrefix(env: Environment, factories: seq<Factory>, query: Query, n: nat, m: nat)
    requires n <= m <= |factories|
    ensures QueryEntries(env, factories, query, n) <= QueryEntries(env, factories, query, m)
    decreases m
  {
    hide EntryFor;
    if n < m {
      QueryEntriesPrefix(env, factories, query, n, m - 1);
    }
  }

  lemma {:induction false} AllEntriesPrefix(env: Environment, factories: seq<Factory>, queries: seq<Query>, q: nat)
    requires q <= |queries|
    ensures AllEntries(env, factories, queries[..q]) <= AllEntries(env, factories, queries)
    decreases |queries|
  {
    hide QueryEntries;
    if q == |queries| {
      assert queries[..q] == queries;
    } else {
      AllEntriesPrefix(env, factories, queries[..|queries| - 1], q);
      assert queries[..|queries| - 1][..q] == queries[..q];
    }
  }

  lemma OneMoreQuery(env: Environment, factories: seq<Factory>, queries: seq<Query>, q: nat)
    requires q < |queries|
    ensures AllEntries(env, factories, queries[..q + 1]) ==
            AllEntries(env, factories, queries[..q]) + QueryEntries(env, factories, queries[q], |factories|)
  {
    hide QueryEntries;
    assert queries[..q + 1][..q] == queries[..q];
  }

  lemma LegacyLast(entries: seq<Entry>, entry: Entry)
    ensures FirstLegacy(entries + [entry]) ==
            if FirstLegacy(entries).Some? then FirstLegacy(entries) else if entry.legacy then Some(entry.index)
                else None
  {
    assert (entries + [entry])[..|entries|] == entries;
  }

  /** The entries planned so far start the whole plan. */
  lemma PlannedSoFar(env: Environment, factories: seq<Factory>, queries: seq<Query>, q: nat, n: nat)
    requires q < |queries| && n <= |factories|
    ensures AllEntries(env, factories, queries[..q])
            + QueryEntries(env, factories, queries[q], n) <= AllEntries(env, factories, queries)
  {
    hide AllEntries, QueryEntries;
    OneMoreQuery(env, factories, queries, q);
    QueryEntriesPrefix(env, factories, queries[q], n, |factories|);
    AllEntriesPrefix(env, factories, queries, q + 1);
  }

  /** The first legacy entry ends planning, whatever queries and factories are left. */
  lemma PlanStops(env: Environment, factories: seq<Factory>, queries: seq<Query>, q: nat, n: nat)
    requires q < |queries| && n < |factories| && Matches(queries[q], factories[n])
    requires FirstLegacy(AllEntries(env, factories, queries[..q]) + QueryEntries(env, factories, queries[q], n)).None?
    requires EntryFor(env, factories, n, queries[q].pairs).legacy
    ensures FirstLegacy(AllEntries(env, factories, queries)) == Some(n)
  {
    hide AllEntries, QueryEntries, FirstLegacy, CandidateReads, Matches;
    var before := AllEntries(env, factories, queries[..q]);
    var entries := before + QueryEntries(env, factories, queries[q], n);
    var entry := EntryFor(env, factories, n, queries[q].pairs);
    assert entry.index == n;
    hide EntryFor;
    OneMoreFactory(env, factories, queries[q], n);
    LegacyLast(entries, entry);
    PlannedSoFar(env, factories, queries, q, n + 1);
    assert entries + [entry] == before + QueryEntries(env, factories, queries[q], n + 1);
    var rest := AllEntries(env, factories, queries)[|entries| + 1..];
    LegacyGrows(entries + [entry], rest);
    assert AllEntries(env, factories, queries) == entries + [entry] + rest;
  }

  class PoolDiscovery {
    const env: Environment
    const factories: seq<Factory>
    var verified: set<nat>

    constructor (env: Environment, all: seq<Factory>)
      ensures this.env == env && factories == Unique(all) && verified == {}
    {
      var kept: seq<Factory> := [];
      for k := 0 to |all|
        invariant kept == Unique(all[..k])
      {
        assert all[..k + 1][..k] == all[..k];
        if IdentityOf(all[k]) !in Identities(kept) {
          kept := kept + [all[k]];
        }
      }
      assert all[..|all|] == all;
      this.env, factories, verified := env, kept, {};
    }

    /** Find the first query scoped to a protocol that no factory serves. */
    method CheckScopes(queries: seq<Query>) returns (missing: Option<Protocol>)
      ensures missing == FirstMissing(factories, queries)
    {
      missing := None;
      for q := 0 to |queries|
        invariant missing == FirstMissing(factories, queries[..q])
      {
        assert queries[..q + 1][..q] == queries[..q];
        if missing.None? && queries[q].protocol.Some? && forall f | f in factories ::
            f.protocol != queries[q].protocol.value {
          missing := queries[q].protocol;
        }
      }
      assert queries[..|queries|] == queries;
    }

    /** Add the entries of one query, factory by factory, up to a legacy one that is refused. */
    method PlanQuery(queries: seq<Query>, q: nat, mode: Mode, before: seq<Entry>) returns (r: Result<seq<Entry>, Error>)
      requires q < |queries| && before == AllEntries(env, factories, queries[..q])
      requires mode.Reject? ==> FirstLegacy(before).None?
      ensures r.Ok? ==> r.value == AllEntries(env, factories, queries[..q + 1])
      ensures r.Ok? && mode.Reject? ==> FirstLegacy(r.value).None?
      ensures r.Err? ==> mode.Reject? && Err(r.error) == Planned(AllEntries(env, factories, queries), mode, factories)
    {
      hide CandidateReads, Matches, FirstLegacy, AllEntries, QueryEntries, EntryFor, AskedBy;
      var entries := before;
      OneMoreQuery(env, factories, queries, q);
      NoFactories(env, factories, queries[q]);
      assert before + [] == before;
      for n := 0 to |factories|
        invariant entries == before + QueryEntries(env, factories, queries[q], n)
        invariant mode.Reject? ==> FirstLegacy(entries).None?
      {
        OneMoreFactory(env, factories, queries[q], n);
        if Matches(queries[q], factories[n]) {
          var entry := EntryFor(env, factories, n, queries[q].pairs);
          LegacyLast(entries, entry);
          if entry.legacy && mode.Reject? {
            PlanStops(env, factories, queries, q, n);
            return Err(PreparedModeUnsupported(factories[n]));
          }
          entries := entries + [entry];
        }
      }
      r := Ok(entries);
    }

    /** Gather the candidate reads of every query and matching factory. */
    method PrepareReadsWithMode(queries: seq<Query>, mode: Mode) returns (r: Result<Prepared, Error>)
      ensures r == var missing := FirstMissing(factories, queries);
                   if missing.Some? then Err(MissingFactory(missing.value))
                   else Planned(AllEntries(env, factories, queries), mode, factories)
    {
      hide FirstMissing, FirstLegacy, QueryEntries, AskedBy;
      var missing := CheckScopes(queries);
      if missing.Some? {
        return Err(MissingFactory(missing.value));
      }
      var entries: seq<Entry> := [];
      assert entries == AllEntries(env, factories, queries[..0]);
      NoLegacy();
      hide AllEntries;
      for q := 0 to |queries|
        invariant entries == AllEntries(env, factories, queries[..q])
        invariant mode.Reject? ==> FirstLegacy(entries).None?
      {
        var more := PlanQuery(queries, q, mode, entries);
        if more.Err? {
          return Err(more.error);
        }
        entries := more.value;
      }
      assert queries[..|queries|] == queries;
      r := Ok(Prepared(AskedBy(entries), entries));
    }

    /** Assemble the entries in turn, keeping the first pool of every key. */
    method AssemblePlan(prepared: Prepared, resolved: map<Read, nat>, cache: Option<Chain>)
        returns (r: Result<seq<Pool>, Error>)
      requires cache.None? ==> forall e | e in prepared.entries :: !e.legacy
      modifies `verified
      ensures Search(r, verified) == Deduplicated(PlanRun(env, factories, ChainOf(cache), resolved, prepared.entries,
                                                          Search(Ok([]), old(verified))))
    {
      hide EntryStep, FirstOfEachKey, OneByOne;
      var found: seq<Pool> := [];
      var seen: set<PoolKey> := {};
      ghost var start := Search(Ok([]), verified);
      ghost var all: seq<Pool> := [];
      NoPools();
      for i := 0 to |prepared.entries|
        invariant PlanRun(env, factories, ChainOf(cache), resolved, prepared.entries[..i], start)
                == Search(Ok(all), verified)
        invariant found == FirstOfEachKey(all) && seen == KeysOf(all)
      {
        var e := prepared.entries[i];
        assert prepared.entries[..i + 1][..i] == prepared.entries[..i];
        var pools, failed := AssembleEntry(e, resolved, cache, all);
        if failed.Some? {
          PlanFails(env, factories, ChainOf(cache), resolved, prepared.entries, i, start);
          return Err(failed.value);
        }
        found, seen := AddPools(found, seen, pools, all);
        all := all + pools;
      }
      assert prepared.entries[..|prepared.entries|] == prepared.entries;
      r := Ok(found);
    }

    /** One entry: from the answers, or pair by pair for a legacy driver. */
    method AssembleEntry(e: Entry, resolved: map<Read, nat>, cache: Option<Chain>, ghost before: seq<Pool>)
        returns (pools: seq<Pool>, failed: Option<Error>)
      requires cache.None? ==> !e.legacy
      modifies `verified
      ensures EntryStep(env, factories, ChainOf(cache), resolved, Search(Ok(before), old(verified)), e) ==
              Search(if failed.Some? then Err(failed.value) else Ok(before + pools), verified)
    {
      hide Assemble, Candidates;
      pools := [];
      if e.index >= |factories| || factories[e.index].protocol != e.protocol
          || factories[e.index].address != e.address {
        return [], Some(PreparedFactoryMismatch(e.index));
      }
      if e.legacy {
        pools, failed := FindEach(e.index, e.pairs, cache.value, before);
      } else {
        var run := AssemblePairs(env, factories[e.index], e.pairs, resolved, e.index in verified);
        if run.verified {
          verified := verified + {e.index};
        }
        if run.result.Err? {
          return [], Some(run.result.error);
        }
        return run.result.value, None;
      }
    }

    /** find_pools for each pair in turn. */
    method FindEach(index: nat, pairs: seq<Pair>, chain: Chain, ghost before: seq<Pool>)
        returns (pools: seq<Pool>, failed: Option<Error>)
      requires index < |factories|
      modifies `verified
      ensures OneByOne(env, factories, chain, TasksOf(index, pairs), Search(Ok(before), old(verified))) ==
              Search(if failed.Some? then Err(failed.value) else Ok(before + pools), verified)
    {
      hide FindPools;
      pools, failed := [], None;
      ghost var start := Search(Ok(before), verified);
      assert before + [] == before;
      for i := 0 to |pairs|
        invariant failed.None? && OneByOne(env, factories, chain, TasksOf(index, pairs[..i]), start)
                == Search(Ok(before + pools), verified)
      {
        assert pairs[..i + 1][..i] == pairs[..i];
        OneMoreTask(env, factories, chain, index, pairs[..i + 1], start);
        var run := FindPools(env, factories[index], pairs[i], chain, index in verified);
        if run.verified {
          verified := verified + {index};
        }
        if run.result.Err? {
          failed := Some(run.result.error);
          TasksFail(env, factories, chain, index, pairs, i, start);
          return;
        }
        assert before + pools + run.result.value == before + (pools + run.result.value);
        pools := pools + run.result.value;
      }
      assert pairs[..|pairs|] == pairs;
    }

    /**
     Several queries resolved by one batched read, which the cache may refuse. A refusal
     matters only when there is something to read, and comes after an unserved scope.
     */
    method FindMany(queries: seq<Query>, chain: Chain, refusal: Option<Error>) returns (r: Result<seq<Pool>, Error>)
      modifies `verified
      ensures var asked := AskedBy(AllEntries(env, factories, queries));
              var refused := FirstMissing(factories, queries).None? && asked != {} && refusal.Some?;
              if refused then r == Err(refusal.value) && verified == old(verified)
              else Search(r, verified) == Batched(env, factories, chain, queries, old(verified))
      ensures AllClosed(factories) && refusal.None? ==>
                Search(r, verified) == Naive(env, factories, chain, queries, old(verified))
    {
      hide PlanRun, Naive, AllEntries, Deduplicated, FirstMissing, AskedBy;
      if AllClosed(factories) {
        BatchedIsNaive(env, factories, chain, queries, verified);
      }
      var prepared := PrepareReadsWithMode(queries, Allow);
      if prepared.Err? {
        return Err(prepared.error);
      }
      if prepared.value.asked != {} && refusal.Some? {
        return Err(refusal.value);
      }
      r := AssemblePlan(prepared.value, Fetched(prepared.value.asked, chain), Some(chain));
    }

    /** A plan that a worker can fetch on its own: it has no legacy entries. */
    method PrepareReads(queries: seq<Query>) returns (r: Result<Prepared, Error>)
      ensures FirstMissing(factories, queries).Some?
              ==> r == Err(MissingFactory(FirstMissing(factories, queries).value))
      ensures FirstMissing(factories, queries).None?
              ==> r == Planned(AllEntries(env, factories, queries), Reject, factories)
      ensures r.Ok? ==>
                r.value.entries == AllEntries(env, factories, queries)
                && (forall e | e in r.value.entries :: !e.legacy)
    {
      hide AllEntries, FirstMissing;
      r := PrepareReadsWithMode(queries, Reject);
      if r.Ok? {
        LegacyIsIndexed(env, factories, queries);
        NoneLegacy(AllEntries(env, factories, queries));
      }
    }

    /** Assemble a plan from values fetched elsewhere, each requested one exactly once. */
    method AssemblePrepared(prepared: Prepared, values: seq<(Read, nat)>) returns (r: Result<seq<Pool>, Error>)
      requires forall e | e in prepared.entries :: !e.legacy
      modifies `verified
      ensures RepeatedRead(values).Some?
              ==> r == Err(DuplicatePreparedValue(RepeatedRead(values).value)) && unchanged(this)
      ensures RepeatedRead(values).None? && !(prepared.asked <= Resolved(values).Keys) ==>
                && unchanged(this) && r.Err? && r.error.MissingPreparedValue?
                && r.error.read in prepared.asked - Resolved(values).Keys
                && forall other | other in prepared.asked - Resolved(values).Keys :: ReadLeq(r.error.read, other)
      ensures RepeatedRead(values).None? && prepared.asked <= Resolved(values).Keys ==>
                Search(r, verified) ==
                Deduplicated(PlanRun(env, factories, ChainOf(None), Resolved(values), prepared.entries,
                                     Search(Ok([]), old(verified))))
    {
      hide PlanRun, Deduplicated;
      var resolved: map<Read, nat> := map[];
      for i := 0 to |values|
        invariant resolved == Resolved(values[..i]) && RepeatedRead(values[..i]).None?
      {
        assert values[..i + 1][..i] == values[..i];
        if values[i].0 in resolved {
          RepeatedStays(values, i + 1);
          return Err(DuplicatePreparedValue(values[i].0));
        }
        resolved := resolved[values[i].0 := values[i].1];
      }
      assert values[..|values|] == values;
      if !(prepared.asked <= resolved.Keys) {
        var missing := prepared.asked - resolved.Keys;
        assert missing != {} by {
          var read :| read in prepared.asked && read !in resolved;
          assert read in missing;
        }
        LeastRead(missing);
        var read :| read in missing && forall other | other in missing :: ReadLeq(read, other);
        return Err(MissingPreparedValue(read));
      }
      r := AssemblePlan(prepared, resolved, None);
    }
  }

  /** Reads are requested in address, then slot order. */
  predicate ReadLeq(a: Read, b: Read) {
    a.address < b.address || (a.address == b.address && a.slot <= b.slot)
  }

  lemma {:induction false} LeastRead(asked: set<Read>)
    requires asked != {}
    ensures exists least :: least in asked && forall other | other in asked :: ReadLeq(least, other)
  {
    var r :| r in asked;
    if asked == {r} {
      assert r in asked && forall other | other in asked :: ReadLeq(r, other);
    } else {
      LeastRead(asked - {r});
      var rest :| rest in asked - {r} && forall other | other in asked - {r} :: ReadLeq(rest, other);
      var least := if ReadLeq(r, rest) then r else rest;
      forall other | other in asked ensures ReadLeq(least, other) {
        assert other == r || other in asked - {r};
      }
      assert least in asked && forall other | other in asked :: ReadLeq(least, other);
    }
  }

  /** The fetched values as a table. */
  function Resolved(values: seq<(Read, nat)>): map<Read, nat> {
    if values == [] then map[] else Resolved(values[..|values| - 1])[values[|values| - 1].0 := values[|values| - 1].1]
  }

  /** The first read supplied a second time. */
  function RepeatedRead(values: seq<(Read, nat)>): Option<Read> {
    if values == [] then None
    else
      var before := RepeatedRead(values[..|values| - 1]);
      if before.Some? then before
      else if values[|values| - 1].0 in Resolved(values[..|values| - 1]) then Some(values[|values| - 1].0)
      else None
  }

  lemma {:induction false} RepeatedStays(values: seq<(Read, nat)>, i: nat)
    requires i <= |values| && RepeatedRead(values[..i]).Some?
    ensures RepeatedRead(values) == RepeatedRead(values[..i])
    decreases |values|
  {
    if i == |values| {
      assert values[..i] == values;
    } else {
      assert values[..|values| - 1][..i] == values[..i];
      RepeatedStays(values[..|values| - 1], i);
    }
  }

  lemma {:induction false} NoneLegacy(entries: seq<Entry>)
    requires FirstLegacy(entries).None?
    ensures forall e | e in entries :: !e.legacy
  {
    if entries != [] {
      NoneLegacy(entries[..|entries| - 1]);
    }
  }

  lemma {:induction false} LegacyInside(entries: seq<Entry>, n: nat)
    requires forall e | e in entries :: e.index < n
    ensures FirstLegacy(entries).Some? ==> FirstLegacy(entries).value < n
  {
    if entries != [] {
      LegacyInside(entries[..|entries| - 1], n);
    }
  }

  lemma {:induction false} QueryEntriesIndexed(env: Environment, factories: seq<Factory>, query: Query, n: nat)
    requires n <= |factories|
    ensures forall e | e in QueryEntries(env, factories, query, n) :: e.index < |factories|
  {
    hide CandidateReads;
    if n > 0 {
      QueryEntriesIndexed(env, factories, query, n - 1);
    }
  }

  lemma {:induction false} EntriesIndexed(env: Environment, factories: seq<Factory>, queries: seq<Query>)
    ensures forall e | e in AllEntries(env, factories, queries) :: e.index < |factories|
  {
    hide QueryEntries;
    if queries != [] {
      EntriesIndexed(env, factories, queries[..|queries| - 1]);
      QueryEntriesIndexed(env, factories, queries[|queries| - 1], |factories|);
    }
  }

  lemma LegacyIsIndexed(env: Environment, factories: seq<Factory>, queries: seq<Query>)
    ensures var legacy := FirstLegacy(AllEntries(env, factories, queries));
            legacy.Some? ==> legacy.value < |factories|
  {
    EntriesIndexed(env, factories, queries);
    LegacyInside(AllEntries(env, factories, queries), |factories|);
  }

  lemma {:induction false} ChainIgnored(env: Environment, factories: seq<Factory>, chain: Chain, chain': Chain,
                                        answers: map<Read, nat>, entries: seq<Entry>, start: Search)
    requires forall e | e in entries :: !e.legacy
    ensures PlanRun(env, factories, chain, answers, entries, start)
            == PlanRun(env, factories, chain', answers, entries, start)
  {
    hide Assemble;
    if entries != [] {
      ChainIgnored(env, factories, chain, chain', answers, entries[..|entries| - 1], start);
    }
  }

  /**
   Assembling a prepared plan from exactly the fetched answers agrees with find_many,
   whatever the drivers read: open drivers included.
   */
  lemma PreparedIsBatched(env: Environment, factories: seq<Factory>, chain: Chain, queries: seq<Query>,
                          verified: set<nat>)
    requires FirstMissing(factories, queries).None?
    requires forall e | e in AllEntries(env, factories, queries) :: !e.legacy
    ensures var entries := AllEntries(env, factories, queries);
            var answers := Fetched(AskedBy(entries), chain);
            Deduplicated(PlanRun(env, factories, ChainOf(None), answers, entries, Search(Ok([]), verified))) ==
            Batched(env, factories, chain, queries, verified)
  {
    hide PlanRun, AllEntries, AskedBy, Deduplicated, FirstMissing;
    var entries := AllEntries(env, factories, queries);
    ChainIgnored(env, factories, ChainOf(None), chain, Fetched(AskedBy(entries), chain), entries,
                 Search(Ok([]), verified));
  }

  /**
   For closed drivers it agrees from any values that hold the chain's answers, so values
   fetched for other purposes as well do no harm.
   */
  lemma PreparedAgrees(env: Environment, factories: seq<Factory>, chain: Chain, queries: seq<Query>,
                       answers: map<Read, nat>, verified: set<nat>)
    requires AllClosed(factories) && FirstMissing(factories, queries).None?
    requires forall e | e in AllEntries(env, factories, queries) :: !e.legacy
    requires Answers(answers, AskedBy(AllEntries(env, factories, queries)), chain)
    ensures Deduplicated(PlanRun(env, factories, ChainOf(None), answers, AllEntries(env, factories, queries),
                                 Search(Ok([]), verified))) ==
            Batched(env, factories, chain, queries, verified)
  {
    hide AllClosed, PlanRun, OneByOne, AllTasks, AllEntries, Deduplicated, FirstMissing;
    var entries := AllEntries(env, factories, queries);
    ChainIgnored(env, factories, ChainOf(None), chain, answers, entries, Search(Ok([]), verified));
    PlanIsTasks(env, factories, chain, answers, queries, Search(Ok([]), verified));
    BatchedIsNaive(env, factories, chain, queries, verified);
  }
}
