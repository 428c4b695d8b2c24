/**
 What a multi-pool bootstrap reports and does, said without the functions that compute it:
 when the bundle finishes a pool, what its report lists, what the cache holds after the
 bundle, and on which cache every fallback runs.
 */
module ColdStartLaws {
  import opened Wrappers
  import opened Words
  import opened Picks
  import opened ColdStartTypes
  import opened ColdStartMany

  // --------------------------------------------------------------------- change lists

  /** The value a cache gives a slot; zero if it has none. */
  predicate Holds(cache: Cache, slot: Slot, value: Word) {
    if slot in cache then cache[slot] == value else value == 0
  }

  /** The entry gives its slot another value than the cache has. */
  function DiffersFrom(cache: Cache, entries: Entries): nat -> bool {
    (i: nat) => i < |entries| && !Holds(cache, entries[i].0, entries[i].1)
  }

  /** The list names the entries at the positions, each with the cached and the new value. */
  ghost predicate ListsEntries(changes: seq<SlotChange>, cache: Cache, entries: Entries, at: seq<nat>) {
    && |changes| == |at|
    && forall k | 0 <= k < |at| ::
         && at[k] < |entries|
         && changes[k].slot == entries[at[k]].0 && changes[k].new_ == entries[at[k]].1
         && Holds(cache, changes[k].slot, changes[k].old_)
  }

  lemma EntryDiffers(cache: Cache, front: Entries, last: (Slot, Word))
    ensures DiffersFrom(cache, front + [last])(|front|) <==> Cached(cache, last.0) != last.1
    ensures forall i | 0 <= i < |front| :: DiffersFrom(cache, front + [last])(i) == DiffersFrom(cache, front)(i)
  {
  }

  lemma EntryListed(changes: seq<SlotChange>, cache: Cache, front: Entries, last: (Slot, Word), at: seq<nat>)
    requires ListsEntries(changes, cache, front, at)
    ensures ListsEntries(changes, cache, front + [last], at)
    ensures ListsEntries(changes + [SlotChange(last.0, Cached(cache, last.0), last.1)], cache, front + [last],
                         at + [|front|])
  {
    var change := SlotChange(last.0, Cached(cache, last.0), last.1);
    forall k | 0 <= k < |at| + 1
      ensures k < |at| ==> (front + [last])[at[k]] == front[at[k]] && (changes + [change])[k] == changes[k]
    {
    }
  }

  /** The changes of a result are its entries that differ from the cache, in order, with both values. */
  lemma {:induction false} ChangesListEntries(cache: Cache, entries: Entries) returns (at: seq<nat>)
    ensures Picked(at, |entries|, DiffersFrom(cache, entries))
    ensures ListsEntries(Changes(cache, entries), cache, entries, at)
    decreases |entries|
  {
    hide Picked, DiffersFrom;
    at := [];
    if entries == [] {
      NonePicked(DiffersFrom(cache, entries));
    } else {
      var front, n := entries[..|entries| - 1], |entries| - 1;
      assert entries == front + [entries[n]];
      at := ChangesListEntries(cache, front);
      EntryDiffers(cache, front, entries[n]);
      PickedAgree(at, n, DiffersFrom(cache, front), DiffersFrom(cache, entries));
      PickOneMore(at, n, DiffersFrom(cache, entries));
      EntryListed(Changes(cache, front), cache, front, entries[n], at);
      hide ListsEntries, Cached;
      if DiffersFrom(cache, entries)(n) {
        at := at + [n];
      }
    }
  }

  /** The two caches give the target different values. */
  function DiffersBetween(before: Cache, after: Cache, targets: seq<Slot>): nat -> bool {
    (i: nat) => i < |targets| && !SameValue(before, after, targets[i])
  }

  predicate SameValue(before: Cache, after: Cache, slot: Slot) {
    (if slot in before then before[slot] else 0) == (if slot in after then after[slot] else 0)
  }

  /** The list names the targets at the positions, each with its value before and after. */
  ghost predicate ListsTargets(changes: seq<SlotChange>, before: Cache, after: Cache, targets: seq<Slot>,
                               at: seq<nat>) {
    && |changes| == |at|
    && forall k | 0 <= k < |at| ::
         && at[k] < |targets| && changes[k].slot == targets[at[k]]
         && Holds(before, changes[k].slot, changes[k].old_)
         && Holds(after, changes[k].slot, changes[k].new_)
  }

  lemma CachedHolds(cache: Cache, slot: Slot, value: Word)
    ensures Holds(cache, slot, value) <==> Cached(cache, slot) == value
  {
  }

  lemma TargetDiffers(before: Cache, after: Cache, front: seq<Slot>, last: Slot)
    ensures DiffersBetween(before, after, front + [last])(|front|) <==> Cached(before, last) != Cached(after, last)
    ensures forall i | 0 <= i < |front| ::
              DiffersBetween(before, after, front + [last])(i) == DiffersBetween(before, after, front)(i)
  {
  }

  lemma TargetListed(changes: seq<SlotChange>, before: Cache, after: Cache, front: seq<Slot>, last: Slot, at: seq<nat>)
    requires ListsTargets(changes, before, after, front, at)
    ensures ListsTargets(changes, before, after, front + [last], at)
    ensures ListsTargets(changes + [SlotChange(last, Cached(before, last), Cached(after, last))], before, after,
                         front + [last], at + [|front|])
  {
    var change := SlotChange(last, Cached(before, last), Cached(after, last));
    forall k | 0 <= k < |at| + 1
      ensures k < |at| ==> (front + [last])[at[k]] == front[at[k]] && (changes + [change])[k] == changes[k]
    {
    }
  }

  /** The external changes are the targets whose value differs, each from what it was to what it is. */
  lemma {:induction false} ExternalChangesListTargets(before: Cache, after: Cache, targets: seq<Slot>)
    returns (at: seq<nat>)
    ensures Picked(at, |targets|, DiffersBetween(before, after, targets))
    ensures ListsTargets(ExternalChanges(before, after, targets), before, after, targets, at)
    decreases |targets|
  {
    hide Picked, DiffersBetween;
    var chosen := DiffersBetween(before, after, targets);
    at := [];
    if targets == [] {
      NonePicked(chosen);
    } else {
      var front, n := targets[..|targets| - 1], |targets| - 1;
      assert targets == front + [targets[n]];
      at := ExternalChangesListTargets(before, after, front);
      TargetDiffers(before, after, front, targets[n]);
      PickedAgree(at, n, DiffersBetween(before, after, front), chosen);
      PickOneMore(at, n, chosen);
      TargetListed(ExternalChanges(before, after, front), before, after, front, targets[n], at);
      hide ListsTargets, Cached;
      if chosen(n) {
        at := at + [n];
      }
    }
  }

  // -------------------------------------------------------------------- the bundle

  /** The entries of the first `k` results that decoded, in order. */
  function Decoded(results: seq<Option<Entries>>, k: nat): Entries
    requires k <= |results|
  {
    if k == 0 then []
    else Decoded(results, k - 1) + (if results[k - 1].Some? then results[k - 1].value else [])
  }

  lemma {:induction false} InjectedConcat(cache: Cache, a: Entries, b: Entries)
    ensures Injected(cache, a + b) == Injected(Injected(cache, a), b)
    decreases |b|
  {
    if b == [] {
      assert a + b == a;
    } else {
      InjectedConcat(cache, a, b[..|b| - 1]);
      assert (a + b)[..|a + b| - 1] == a + b[..|b| - 1];
    }
  }

  lemma {:induction false} HydratedIsInjected(results: seq<Option<Entries>>, k: nat, cache: Cache)
    requires k <= |results|
    ensures Hydrated(results, k, cache) == Injected(cache, Decoded(results, k))
  {
    hide Injected;
    if k > 0 {
      HydratedIsInjected(results, k - 1, cache);
      if results[k - 1].Some? {
        InjectedConcat(cache, Decoded(results, k - 1), results[k - 1].value);
      } else {
        assert Decoded(results, k - 1) + [] == Decoded(results, k - 1);
      }
    } else {
      InjectedNothing(cache);
    }
  }

  lemma InjectedNothing(cache: Cache)
    ensures Injected(cache, []) == cache
  {
  }

  /** After `k` results a slot has the last value they gave it, and the value it had if they gave none. */
  lemma HydratedIs(results: seq<Option<Entries>>, k: nat, cache: Cache, slot: Slot)
    requires k <= |results|
    ensures var after := Hydrated(results, k, cache);
            match LastValue(Decoded(results, k), slot)
            case Some(value) => slot in after && after[slot] == value
            case None => forall value :: Holds(after, slot, value) <==> Holds(cache, slot, value)
  {
    hide Injected, Hydrated;
    HydratedIsInjected(results, k, cache);
    InjectedIs(cache, Decoded(results, k), slot);
    forall value ensures LastValue(Decoded(results, k), slot).None? ==>
                           (Holds(Hydrated(results, k, cache), slot, value) <==> Holds(cache, slot, value))
    {
      CachedHolds(cache, slot, value);
      CachedHolds(Hydrated(results, k, cache), slot, value);
    }
  }

  /** The pools before `i` that take part in the bundle: they have an adapter, a program and all metadata. */
  ghost function Ahead(pools: seq<Pool>, i: nat): set<nat>
    requires i <= |pools|
  {
    set j: nat | j < i && pools[j].hasAdapter && pools[j].oneShot && pools[j].metadataComplete
  }

  lemma {:induction false} RankCounts(pools: seq<Pool>, i: nat)
    requires i <= |pools|
    ensures Rank(pools, i) == |Ahead(pools, i)|
  {
    if i == 0 {
      assert Ahead(pools, 0) == {};
    } else {
      RankCounts(pools, i - 1);
      assert Ahead(pools, i) == Ahead(pools, i - 1) + (if Eligible(pools[i - 1]) then {i - 1} else {});
    }
  }

  /**
   The bundle finishes a pool exactly if it takes part, its own result, the one after those
   of the participants before it, decoded, and either it names no external cells or the
   external batch was well-formed and loaded every one of them.
   */
  lemma FastReadyIs(pools: seq<Pool>, results: seq<Option<Entries>>, malformed: bool, failed: seq<Slot>, i: nat)
    requires i < |pools|
    ensures FastReady(pools, results, malformed, failed, i) <==>
              && pools[i].hasAdapter && pools[i].oneShot && pools[i].metadataComplete
              && |Ahead(pools, i)| < |results| && results[|Ahead(pools, i)|].Some?
              && (pools[i].externalTargets == []
                  || (!malformed && forall target | target in pools[i].externalTargets :: target !in failed))
  {
    RankCounts(pools, i);
  }

  /** The report of such a pool: its program's slots, then its external cells, and the changes to each. */
  lemma FastReportIs(pools: seq<Pool>, results: seq<Option<Entries>>, cache: Cache, warmed: Cache, i: nat)
    returns (ownAt: seq<nat>, externalAt: seq<nat>, own: seq<SlotChange>, external: seq<SlotChange>)
    requires i < |pools| && Loaded(pools, results, i).Some? && Rank(pools, |pools|) <= |results|
    ensures |Ahead(pools, i)| < |results| && results[|Ahead(pools, i)|].Some?
    ensures var report := FastReport(pools, results, cache, warmed, i);
            var entries := results[|Ahead(pools, i)|].value;
            var targets := pools[i].externalTargets;
            var before := Hydrated(results, |Ahead(pools, i)|, cache);
            var bundled := Hydrated(results, Rank(pools, |pools|), cache);
            && |report.verifiedSlots| == |entries| + |targets|
            && (forall k | 0 <= k < |entries| :: report.verifiedSlots[k] == entries[k].0)
            && report.verifiedSlots[|entries|..] == targets
            && report.changedSlots == own + external
            && Picked(ownAt, |entries|, DiffersFrom(before, entries)) && ListsEntries(own, before, entries, ownAt)
            && Picked(externalAt, |targets|, DiffersBetween(bundled, warmed, targets))
            && ListsTargets(external, bundled, warmed, targets, externalAt)
  {
    hide Picked, Changes, ExternalChanges, Hydrated, DiffersFrom, DiffersBetween, ListsEntries, ListsTargets;
    RankCounts(pools, i);
    var entries := results[|Ahead(pools, i)|].value;
    var bundled := Hydrated(results, Rank(pools, |pools|), cache);
    own := Changes(Hydrated(results, |Ahead(pools, i)|, cache), entries);
    external := ExternalChanges(bundled, warmed, pools[i].externalTargets);
    ownAt := ChangesListEntries(Hydrated(results, |Ahead(pools, i)|, cache), entries);
    externalAt := ExternalChangesListTargets(bundled, warmed, pools[i].externalTargets);
  }

  // ------------------------------------------------------------------- the fallbacks

  /**
   The caches the fallbacks see form a chain: the first is the one the bundle and the
   external cells left, every marked pool's cold start takes it one step, and the others
   leave it alone.
   */
  lemma FallbacksChain(marked: seq<bool>, cache: Cache, coldStart: ColdStart, outcomes: seq<Outcome>)
    returns (caches: seq<Cache>)
    requires |outcomes| == |marked|
    requires forall i: nat | i < |marked| && marked[i] :: FallbackOf(marked, cache, coldStart, i) == Ok(outcomes[i])
    ensures |caches| == |marked| + 1 && caches[0] == cache
    ensures forall i: nat | i < |marked| ::
              if marked[i] then coldStart(i, caches[i]) == (Ok(outcomes[i]), caches[i + 1])
              else caches[i + 1] == caches[i]
  {
    caches := seq(|marked| + 1, i requires 0 <= i <= |marked| => CacheBefore(marked, cache, coldStart, i));
    forall i: nat | i < |marked|
      ensures if marked[i] then coldStart(i, caches[i]) == (Ok(outcomes[i]), caches[i + 1])
              else caches[i + 1] == caches[i]
    {
      assert marked[i] ==> FallbackOf(marked, cache, coldStart, i) == Ok(outcomes[i]);
    }
  }
}
