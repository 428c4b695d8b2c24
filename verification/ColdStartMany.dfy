/**
 Multi-pool bootstrap. Eligible pools are hydrated together by one bundled call; a pool
 whose program or external cells fail is demoted to the ordinary cold start. Two local
 tables track each pool: whether it must fall back, and the outcome it already has.
 */
module ColdStartMany {
  import opened Wrappers
  import opened Words
  import opened ColdStartTypes

  type Cache = map<Slot, Word>
  type Entries = seq<(Slot, Word)>

  /** What classification looks at. */
  datatype Pool = Pool(hasAdapter: bool, oneShot: bool, metadataComplete: bool, externalTargets: seq<Slot>)

  datatype Report = Report(verifiedSlots: seq<Slot>, changedSlots: seq<SlotChange>)

  datatype Outcome = Ready(report: Report) | FromPlanner(id: nat)

  /** The planner's own errors, and the failure of the final expect. */
  datatype Error = Planner(error: nat) | Unpopulated

  /** The external fetch: how many cells it loaded, which failed, and the cache it leaves. */
  datatype Prewarmed = Prewarmed(loaded: nat, failed: seq<Slot>, cache: Cache)

  /** The ordinary cold start of one pool. */
  type ColdStart = (nat, Cache) -> (Result<Outcome, nat>, Cache)

  predicate Eligible(pool: Pool) {
    pool.hasAdapter && pool.oneShot && pool.metadataComplete
  }

  /** How many eligible pools come before index `i`. */
  function Rank(pools: seq<Pool>, i: nat): (k: nat)
    requires i <= |pools|
    ensures k <= i
  {
    if i == 0 then 0 else Rank(pools, i - 1) + (if Eligible(pools[i - 1]) then 1 else 0)
  }

  /** The decoded result of the pool's program; None if the call or the decoding failed. */
  function Loaded(pools: seq<Pool>, results: seq<Option<Entries>>, i: nat): Option<Entries>
    requires i < |pools|
  {
    if Eligible(pools[i]) && Rank(pools, i) < |results| then results[Rank(pools, i)] else None
  }

  function SlotsOf(entries: Entries): seq<Slot> {
    seq(|entries|, i requires 0 <= i < |entries| => entries[i].0)
  }

  function Cached(cache: Cache, slot: Slot): Word {
    if slot in cache then cache[slot] else 0
  }

  /** The entries that differ from the values cached before the batch. */
  function Changes(cache: Cache, entries: Entries): seq<SlotChange> {
    if entries == [] then []
    else
      var (slot, value) := entries[|entries| - 1];
      Changes(cache, entries[..|entries| - 1])
          + (if Cached(cache, slot) != value then [SlotChange(slot, Cached(cache, slot), value)] else [])
  }

  function Injected(cache: Cache, entries: Entries): Cache {
    if entries == [] then cache else Injected(cache,
                                              entries[..|entries| - 1])[entries[|entries| - 1].0 :=
            entries[|entries| - 1].1]
  }

  /** The changes listed are the entries that differ from the cache, with the value cached before the batch. */
  lemma {:induction false} ChangesAre(cache: Cache, entries: Entries, change: SlotChange)
    ensures change in Changes(cache, entries) <==>
            && (change.slot, change.new_) in entries
            && change.old_ == Cached(cache, change.slot) && change.old_ != change.new_
  {
    if entries != [] {
      var front, last := entries[..|entries| - 1], entries[|entries| - 1];
      ChangesAre(cache, front, change);
      assert entries == front + [last];
      var here := SlotChange(last.0, Cached(cache, last.0), last.1);
      assert Changes(cache, entries)
          == Changes(cache, front) + (if Cached(cache, last.0) != last.1 then [here] else []);
      assert (change.slot, change.new_) == last <==> change == here.(old_ := change.old_);
    }
  }

  /** Injecting a batch leaves each of its slots with the last value given for it, and no other slot changed. */
  lemma {:induction false} InjectedIs(cache: Cache, entries: Entries, slot: Slot)
    ensures LastValue(entries, slot).Some?
            ==> slot in Injected(cache, entries) && Injected(cache, entries)[slot] == LastValue(entries, slot).value
    ensures LastValue(entries, slot).None? ==>
              (slot in Injected(cache, entries) <==> slot in cache)
                  && Cached(Injected(cache, entries), slot) == Cached(cache, slot)
  {
    if entries != [] {
      InjectedIs(cache, entries[..|entries| - 1], slot);
    }
  }

  /** The cache after the first `k` results of the bundle. */
  function Hydrated(results: seq<Option<Entries>>, k: nat, cache: Cache): Cache
    requires k <= |results|
  {
    if k == 0 then cache
    else
      var before := Hydrated(results, k - 1, cache);
      if results[k - 1].Some? then Injected(before, results[k - 1].value) else before
  }

  function ExternalChanges(before: Cache, after: Cache, targets: seq<Slot>): seq<SlotChange> {
    if targets == [] then []
    else
      var slot := targets[|targets| - 1];
      ExternalChanges(before, after, targets[..|targets| - 1])
      + (if Cached(before, slot) != Cached(after, slot)
         then [SlotChange(slot, Cached(before, slot), Cached(after, slot))] else [])
  }

  // ------------------------------------------------------------------ classification

  /** The eligible indices in order. */
  function FastIndices(pools: seq<Pool>, n: nat): (fast: seq<nat>)
    requires n <= |pools|
    ensures |fast| == Rank(pools, n)
    ensures forall k | 0 <= k < |fast| :: fast[k] < n && Eligible(pools[fast[k]]) && Rank(pools, fast[k]) == k
  {
    if n == 0 then [] else FastIndices(pools, n - 1) + (if Eligible(pools[n - 1]) then [n - 1] else [])
  }

  lemma {:induction false} RankGrows(pools: seq<Pool>, i: nat, j: nat)
    requires i < j <= |pools|
    ensures Rank(pools, i) + (if Eligible(pools[i]) then 1 else 0) <= Rank(pools, j)
    decreases j
  {
    if i < j - 1 {
      RankGrows(pools, i, j - 1);
    }
  }

  /** Ranks tell eligible pools apart. */
  lemma RankInjective(pools: seq<Pool>, i: nat, j: nat)
    requires i < |pools| && j < |pools| && Eligible(pools[i]) && Eligible(pools[j]) && Rank(pools, i) == Rank(pools, j)
    ensures i == j
  {
    if i < j {
      RankGrows(pools, i, j);
    } else if j < i {
      RankGrows(pools, j, i);
    }
  }

  // ---------------------------------------------------------------- what is promised

  /** All the external cells of the fast pools that loaded. */
  ghost predicate Targeted(pools: seq<Pool>, results: seq<Option<Entries>>, slot: Slot) {
    exists i :: 0 <= i < |pools| && Loaded(pools, results, i).Some? && slot in pools[i].externalTargets
  }

  /** One batch fetched exactly those cells, if there were any, and this is how it went. */
  ghost predicate ExternalRun(pools: seq<Pool>, results: seq<Option<Entries>>, cache: Cache,
                              prewarm: (set<Slot>, Cache) -> Prewarmed, warmed: Cache, malformed: bool,
                              failed: seq<Slot>) {
    if exists slot :: Targeted(pools, results, slot) then
      exists targets ::
        && (forall slot :: slot in targets <==> Targeted(pools, results, slot))
        && prewarm(targets, cache).cache == warmed && prewarm(targets, cache).failed == failed
        && malformed == (prewarm(targets, cache).loaded + |failed| != |targets|)
    else warmed == cache && !malformed && failed == []
  }

  predicate ExternalFailed(pool: Pool, malformed: bool, failed: seq<Slot>) {
    pool.externalTargets != [] && (malformed || exists s :: s in pool.externalTargets && s in failed)
  }

  /** The pool is finished by the bundle: its program loaded and none of its external cells failed. */
  predicate FastReady(pools: seq<Pool>, results: seq<Option<Entries>>, malformed: bool, failed: seq<Slot>, i: nat)
    requires i < |pools|
  {
    Loaded(pools, results, i).Some? && !ExternalFailed(pools[i], malformed, failed)
  }

  /** The report of a pool finished by the bundle. */
  function FastReport(pools: seq<Pool>, results: seq<Option<Entries>>, cache: Cache, warmed: Cache, i: nat): Report
    requires i < |pools| && Loaded(pools, results, i).Some?
  {
    var entries := Loaded(pools, results, i).value;
    Report(
      SlotsOf(entries) + pools[i].externalTargets,
      Changes(Hydrated(results, Rank(pools, i), cache), entries)
      + ExternalChanges(Hydrated(results, Shorter(Rank(pools, |pools|), |results|), cache), warmed,
                        pools[i].externalTargets))
  }

  function Shorter(a: nat, b: nat): (r: nat)
    ensures r <= a && r <= b && (r == a || r == b)
  {
    if a <= b then a else b
  }

  // ---------------------------------------------------------------------- the phases

  method Classify(pools: seq<Pool>, isFallback: array<bool>) returns (fast: seq<nat>)
    requires isFallback.Length == |pools| && forall i | 0 <= i < |pools| :: isFallback[i]
    modifies isFallback
    ensures fast == FastIndices(pools, |pools|)
    ensures forall i | 0 <= i < |pools| :: isFallback[i] == !Eligible(pools[i])
  {
    fast := [];
    for i := 0 to |pools|
      invariant fast == FastIndices(pools, i)
      invariant forall j | 0 <= j < |pools| :: isFallback[j] == (j >= i || !Eligible(pools[j]))
    {
      if pools[i].hasAdapter && pools[i].oneShot && pools[i].metadataComplete {
        isFallback[i] := false;
        fast := fast + [i];
      }
    }
  }

  /** The outcome the bundle gives a pool before its external cells are looked at. */
  function Bundled(pools: seq<Pool>, results: seq<Option<Entries>>, cache: Cache, i: nat): Option<Outcome>
    requires i < |pools|
  {
    var loaded := Loaded(pools, results, i);
    if loaded.None? then None
    else Some(Ready(Report(SlotsOf(loaded.value), Changes(Hydrated(results, Rank(pools, i), cache), loaded.value))))
  }

  method Hydrate(pools: seq<Pool>, fast: seq<nat>, results: seq<Option<Entries>>, cache: Cache,
                 isFallback: array<bool>, outcomes: array<Option<Outcome>>)
    returns (cache': Cache)
    requires isFallback.Length == |pools| == outcomes.Length && fast == FastIndices(pools, |pools|)
    requires forall i | 0 <= i < |pools| :: isFallback[i] == !Eligible(pools[i]) && outcomes[i] == None
    modifies isFallback, outcomes
    ensures cache' == Hydrated(results, Shorter(|fast|, |results|), cache)
    ensures forall i | 0 <= i < |pools| :: outcomes[i] == Bundled(pools, results, cache, i)
    ensures forall i | 0 <= i < |pools| ::
            isFallback[i] == (!Eligible(pools[i]) || (Rank(pools, i) < |results| && results[Rank(pools, i)].None?))
    ensures forall i | 0 <= i < |pools| && isFallback[i] :: outcomes[i].None?
  {
    hide Rank, Eligible, FastIndices, SlotsOf, Changes, Injected;
    cache' := cache;
    forall i | 0 <= i < |pools| ensures Rank(pools, i) + (if Eligible(pools[i]) then 1 else 0) <= |fast| {
      RankGrows(pools, i, |pools|);
    }
    for k := 0 to Shorter(|fast|, |results|)
      invariant cache' == Hydrated(results, k, cache)
      invariant forall i | 0 <= i < |pools| :: outcomes[i] == if Eligible(pools[i]) && Rank(pools, i) < k
              then Bundled(pools, results, cache, i) else None
      invariant forall i | 0 <= i < |pools| ::
              isFallback[i] == (!Eligible(pools[i]) || (Rank(pools, i) < k && results[Rank(pools, i)].None?))
    {
      var index := fast[k];
      forall i | 0 <= i < |pools| && Eligible(pools[i]) && Rank(pools, i) == k ensures i == index {
        RankInjective(pools, i, index);
      }
      if results[k].Some? {
        outcomes[index] := Some(Ready(Report(SlotsOf(results[k].value), Changes(cache', results[k].value))));
        cache' := Injected(cache', results[k].value);
      } else {
        isFallback[index] := true;
      }
    }
  }

  /** The pool's outcome once its external cells are known. */
  function AfterExternal(pools: seq<Pool>, results: seq<Option<Entries>>, cache: Cache, warmed: Cache, malformed: bool,
                         failed: seq<Slot>, i: nat): Option<Outcome>
    requires i < |pools|
  {
    if FastReady(pools, results, malformed, failed, i) then Some(Ready(FastReport(pools, results, cache, warmed, i)))
        else None
  }

  /** Gather the external cells of every pool the bundle has finished. */
  method CollectTargets(pools: seq<Pool>, ghost results: seq<Option<Entries>>, ghost cache: Cache,
                        outcomes: array<Option<Outcome>>) returns (targets: set<Slot>)
    requires outcomes.Length == |pools| && forall i | 0 <= i < |pools| ::
            outcomes[i] == Bundled(pools, results, cache, i)
    ensures forall slot :: slot in targets <==> Targeted(pools, results, slot)
  {
    targets := {};
    for i := 0 to |pools|
      invariant forall slot ::
                  slot in targets
                  <==> exists j :: 0 <= j < i && Loaded(pools, results, j).Some? && slot in pools[j].externalTargets
    {
      if outcomes[i].Some? {
        targets := targets + set slot | slot in pools[i].externalTargets;
      }
    }
  }

  /** Pools without external cells keep the outcome of the bundle. */
  lemma NoExternal(pools: seq<Pool>, results: seq<Option<Entries>>, cache: Cache, warmed: Cache, malformed: bool,
                   failed: seq<Slot>, i: nat)
    requires i < |pools| && (pools[i].externalTargets == [] || Loaded(pools, results, i).None?)
    ensures AfterExternal(pools, results, cache, warmed, malformed, failed, i) == Bundled(pools, results, cache, i)
  {
    hide Changes, SlotsOf, Hydrated, Rank;
    var loaded := Loaded(pools, results, i);
    if loaded.Some? {
      assert SlotsOf(loaded.value) + [] == SlotsOf(loaded.value);
      var changes := Changes(Hydrated(results, Rank(pools, i), cache), loaded.value);
      assert changes + [] == changes;
    }
  }

  lemma Untargeted(pools: seq<Pool>, results: seq<Option<Entries>>, i: nat)
    requires i < |pools| && forall slot :: !Targeted(pools, results, slot)
    ensures pools[i].externalTargets == [] || Loaded(pools, results, i).None?
  {
    hide Loaded;
    if pools[i].externalTargets != [] {
      assert !Targeted(pools, results, pools[i].externalTargets[0]);
    }
  }

  /** Load the external cells in one batch and demote every pool that misses one. */
  method LoadExternal(pools: seq<Pool>, results: seq<Option<Entries>>, ghost start: Cache, cache: Cache,
                      prewarm: (set<Slot>, Cache) -> Prewarmed,
                      isFallback: array<bool>, outcomes: array<Option<Outcome>>)
    returns (warmed: Cache, malformed: bool, failed: seq<Slot>)
    requires isFallback.Length == |pools| == outcomes.Length
            && cache == Hydrated(results, Shorter(Rank(pools, |pools|), |results|), start)
    requires forall i | 0 <= i < |pools| :: outcomes[i] == Bundled(pools, results, start, i)
    requires forall i | 0 <= i < |pools| :: isFallback[i] ==> outcomes[i].None?
    modifies isFallback, outcomes
    ensures forall i | 0 <= i < |pools| ::
            outcomes[i] == AfterExternal(pools, results, start, warmed, malformed, failed, i)
    ensures forall i | 0 <= i < |pools| ::
            isFallback[i] == (old(isFallback[i]) || (Loaded(pools, results, i).Some? && outcomes[i].None?))
    ensures ExternalRun(pools, results, cache, prewarm, warmed, malformed, failed)
  {
    hide Changes, SlotsOf, Hydrated, Rank, ExternalChanges, Eligible;
    var targets := CollectTargets(pools, results, start, outcomes);
    if targets == {} {
      warmed, malformed, failed := cache, false, [];
      forall i | 0 <= i < |pools| ensures AfterExternal(pools, results, start, warmed, malformed, failed, i)
          == Bundled(pools, results, start, i) {
        Untargeted(pools, results, i);
        NoExternal(pools, results, start, warmed, malformed, failed, i);
      }
      return;
    }
    var run := prewarm(targets, cache);
    warmed, failed := run.cache, run.failed;
    malformed := run.loaded + |run.failed| != |targets|;
    for i := 0 to |pools|
      invariant forall j | 0 <= j < |pools| :: outcomes[j] == if j < i
              then AfterExternal(pools, results, start, warmed, malformed, failed, j)
              else Bundled(pools, results, start, j)
      invariant forall j | 0 <= j < |pools| ::
              isFallback[j] == (old(isFallback[j]) || (j < i && Loaded(pools, results, j).Some? && outcomes[j].None?))
    {
      if pools[i].externalTargets == [] || outcomes[i].None? {
        NoExternal(pools, results, start, warmed, malformed, failed, i);
      } else if malformed || exists s :: s in pools[i].externalTargets && s in failed {
        isFallback[i] := true;
        outcomes[i] := None;
      } else {
        var report := outcomes[i].value.report;
        outcomes[i] := Some(Ready(Report(report.verifiedSlots + pools[i].externalTargets,
                                         report.changedSlots + ExternalChanges(cache, warmed,
                                                 pools[i].externalTargets))));
      }
    }
  }

  /** The cache before pool `i`'s turn: the fallback cold starts of the marked pools run one after another on it. */
  function CacheBefore(marked: seq<bool>, cache: Cache, coldStart: ColdStart, i: nat): Cache
    requires i <= |marked|
  {
    if i == 0 then cache
    else
      var before := CacheBefore(marked, cache, coldStart, i - 1);
      if marked[i - 1] then coldStart(i - 1, before).1 else before
  }

  /** What the ordinary cold start says of pool `i` in its turn. */
  function FallbackOf(marked: seq<bool>, cache: Cache, coldStart: ColdStart, i: nat): Result<Outcome, nat>
    requires i <= |marked|
  {
    coldStart(i, CacheBefore(marked, cache, coldStart, i)).0
  }

  /** The first marked pool whose cold start fails, with its error. */
  predicate FirstFailure(marked: seq<bool>, cache: Cache, coldStart: ColdStart, i: nat, error: nat) {
    && i < |marked| && marked[i] && FallbackOf(marked, cache, coldStart, i) == Err(error)
    && forall j | 0 <= j < i && marked[j] :: FallbackOf(marked, cache, coldStart, j).Ok?
  }

  /** Run the ordinary cold start of every pool marked fallback, each on the cache the earlier ones left. */
  method FinishFallbacks(isFallback: array<bool>, outcomes: array<Option<Outcome>>, cache: Cache, coldStart: ColdStart)
    returns (error: Option<nat>)
    requires isFallback.Length == outcomes.Length
    modifies outcomes
    ensures var marked := isFallback[..];
            && (error.None? ==> forall i | 0 <= i < outcomes.Length ::
                  if marked[i] then outcomes[i].Some?
                      && FallbackOf(marked, cache, coldStart, i) == Ok(outcomes[i].value)
                  else outcomes[i] == old(outcomes[i]))
            && (error.Some? ==> exists i: nat :: FirstFailure(marked, cache, coldStart, i, error.value))
  {
    ghost var marked := isFallback[..];
    var current := cache;
    for i := 0 to outcomes.Length
      invariant current == CacheBefore(marked, cache, coldStart, i)
      invariant forall j | 0 <= j < outcomes.Length ::
                  if j < i && marked[j] then outcomes[j].Some?
                      && FallbackOf(marked, cache, coldStart, j) == Ok(outcomes[j].value)
                  else outcomes[j] == old(outcomes[j])
    {
      if isFallback[i] {
        var run := coldStart(i, current);
        if run.0.Err? {
          assert isFallback[..] == marked;
          assert FirstFailure(isFallback[..], cache, coldStart, i, run.0.error);
          return Some(run.0.error);
        }
        outcomes[i] := Some(run.0.value);
        current := run.1;
      }
    }
    error := None;
  }

  /** The bundle answered every program it was given. */
  predicate FullBundle(pools: seq<Pool>, results: seq<Option<Entries>>) {
    Rank(pools, |pools|) <= |results|
  }

  /** The pools the ordinary cold start finishes. */
  function Marks(pools: seq<Pool>, results: seq<Option<Entries>>, malformed: bool, failed: seq<Slot>): seq<bool> {
    seq(|pools|, i requires 0 <= i < |pools| =>
      !FastReady(pools, results, malformed, failed, i) && !Stranded(pools, results, i))
  }

  /**
   One outcome per pool in input order: the bundle's Ready report exactly when the pool's
   program loaded and none of its external cells failed, and otherwise the outcome of the
   ordinary cold start on the cache the bundle, the external cells and the earlier
   fallbacks left. The first failing fallback is the error, and the final expect fails
   only if the bundle left a program unanswered.
   */
  method RunColdStartMany(pools: seq<Pool>, cache: Cache, results: seq<Option<Entries>>,
                          prewarm: (set<Slot>, Cache) -> Prewarmed, coldStart: ColdStart)
    returns (r: Result<seq<Outcome>, Error>, warmed: Cache, malformed: bool, failed: seq<Slot>)
    ensures var marks := Marks(pools, results, malformed, failed);
            && (r.Ok? ==>
                  && |r.value| == |pools|
                  && forall i: nat | i < |pools| ::
                       if FastReady(pools, results, malformed, failed, i)
                       then r.value[i] == Ready(FastReport(pools, results, cache, warmed, i))
                       else FallbackOf(marks, warmed, coldStart, i) == Ok(r.value[i]))
            && (r.Err? && r.error.Planner?
                ==> exists i: nat :: FirstFailure(marks, warmed, coldStart, i, r.error.error))
    ensures ExternalRun(pools, results, Hydrated(results, Shorter(Rank(pools, |pools|), |results|), cache), prewarm,
                        warmed, malformed, failed)
    ensures FullBundle(pools, results) ==> r != Err(Unpopulated)
    ensures !FullBundle(pools, results) ==> r.Err?
  {
    hide Changes, SlotsOf, ExternalChanges, FastReport, FastIndices, Hydrated, Rank, Eligible, Loaded, FastReady,
        Stranded, FallbackOf, FirstFailure;
    warmed, malformed, failed := cache, false, [];
    if pools == [] {
      NothingHydrated(pools, results, cache);
      return Ok([]), warmed, malformed, failed;
    }
    var isFallback := new bool[|pools|](_ => true);
    var outcomes := new Option<Outcome>[|pools|](_ => None);
    var fast := Classify(pools, isFallback);
    var hydrated := Hydrate(pools, fast, results, cache, isFallback, outcomes);
    warmed, malformed, failed := LoadExternal(pools, results, cache, hydrated, prewarm, isFallback, outcomes);
    StrandedIffShort(pools, results);
    forall i: nat | i < |pools|
      ensures isFallback[i] <==> !FastReady(pools, results, malformed, failed, i) && !Stranded(pools, results, i)
      ensures FastReady(pools, results, malformed, failed, i) ==> !Stranded(pools, results, i)
    {
      Marked(pools, results, malformed, failed, i, isFallback[i]);
    }
    assert isFallback[..] == Marks(pools, results, malformed, failed);
    var error := FinishFallbacks(isFallback, outcomes, warmed, coldStart);
    if error.Some? {
      return Err(Planner(error.value)), warmed, malformed, failed;
    }
    var collected: seq<Outcome> := [];
    for i := 0 to |pools|
      invariant |collected| == i && forall j | 0 <= j < i :: outcomes[j] == Some(collected[j])
    {
      if outcomes[i].None? {
        return Err(Unpopulated), warmed, malformed, failed;
      }
      collected := collected + [outcomes[i].value];
    }
    r := Ok(collected);
  }

  lemma NothingHydrated(pools: seq<Pool>, results: seq<Option<Entries>>, cache: Cache)
    requires pools == []
    ensures Rank(pools, |pools|) == 0 && Hydrated(results, Shorter(Rank(pools, |pools|), |results|), cache) == cache
  {
  }

  /** The pool has no outcome and is not marked for fallback either. */
  predicate Stranded(pools: seq<Pool>, results: seq<Option<Entries>>, i: nat)
    requires i < |pools|
  {
    Eligible(pools[i]) && Rank(pools, i) >= |results|
  }

  /** Apart from stranded pools, a pool is marked fallback or holds an outcome, never both. */
  lemma Marked(pools: seq<Pool>, results: seq<Option<Entries>>, malformed: bool, failed: seq<Slot>, i: nat,
               fallback: bool)
    requires i < |pools|
    requires fallback == ((!Eligible(pools[i]) || (Rank(pools, i) < |results| && results[Rank(pools, i)].None?))
                          || (Loaded(pools, results, i).Some? && !FastReady(pools, results, malformed, failed, i)))
    ensures fallback <==> !FastReady(pools, results, malformed, failed, i) && !Stranded(pools, results, i)
    ensures FastReady(pools, results, malformed, failed, i) ==> !Stranded(pools, results, i)
  {
  }

  /** A pool is stranded exactly when the bundle is short. */
  lemma StrandedIffShort(pools: seq<Pool>, results: seq<Option<Entries>>)
    ensures FullBundle(pools, results) <==> forall i: nat | i < |pools| :: !Stranded(pools, results, i)
  {
    forall i: nat | i < |pools| && FullBundle(pools, results) ensures !Stranded(pools, results, i) {
      RankGrows(pools, i, |pools|);
    }
    if !FullBundle(pools, results) {
      var fast := FastIndices(pools, |pools|);
      assert Stranded(pools, results, fast[|results|]);
    }
  }
}
