/**
 What normalising, saving and loading keep of a registration, field by field: the status a
 load resumes with, the contents of every list, the limits, and the family of the metadata.
 */
module RegistrationLaws {
  import opened Wrappers
  import opened Words
  import opened Sorting
  import opened RegistrationNormalForm
  import opened RegistrationArchive

  // ------------------------------------------------------------------------- status

  /** Queueable states start over as Pending; Disabled and Unsupported are kept. */
  predicate StatusResumes(saved: Status, loaded: Status) {
    && (saved.Pending? || saved.Cold? || saved.Ready? || saved.Degraded? <==> loaded.Pending?)
    && (!loaded.Pending? ==> loaded == saved)
  }

  /** Everything but the status is as it was saved. */
  predicate ComesBackAs(saved: Registration, loaded: Registration) {
    && loaded.key == saved.key
    && loaded.stateAddresses == saved.stateAddresses
    && loaded.eventSources == saved.eventSources
    && loaded.metadata == saved.metadata
    && StatusResumes(saved.status, loaded.status)
  }

  /**
   A saved archive loads as the same list of registrations, every field but the status
   equal; a status is Pending exactly if the saved one was Pending, Cold, Ready or Degraded,
   and otherwise the saved one, so a disabled pool stays disabled.
   */
  lemma SavedComesBack(c: Codec, a: Archive)
    requires Faithful(c) && Captured(a) && Save(c, a).Ok?
    ensures var loaded := Loaded(c, Save(c, a).value, a.chainId);
            && loaded.Ok? && loaded.value.chainId == a.chainId
            && |loaded.value.registrations| == |a.registrations|
            && forall i | 0 <= i < |a.registrations| ::
                 ComesBackAs(a.registrations[i], loaded.value.registrations[i])
  {
    hide Captured, Save, Loaded;
    SaveThenLoad(c, a);
  }

  // ----------------------------------------------------------------------- contents

  /** A source with the same emitter, route and indexed topics, and the same topics in some order. */
  ghost predicate SameSource(s: EventSource, t: EventSource) {
    s.emitter == t.emitter && s.route == t.route && s.indexedTopics == t.indexedTopics
        && SameElements(s.topics, t.topics)
  }

  ghost predicate SourceAmong(s: EventSource, sources: seq<EventSource>) {
    exists t :: t in sources && SameSource(s, t)
  }

  ghost predicate SameSources(a: seq<EventSource>, b: seq<EventSource>) {
    (forall s | s in a :: SourceAmong(s, b)) && (forall t | t in b :: SourceAmong(t, a))
  }

  /** The same protocol fields; token and coin order is part of them, slots and cash may be reordered. */
  ghost predicate SameProtocol(m: Metadata, n: Metadata) {
    if m.Balancer? then
      && n.Balancer? && n.fields == m.fields && n.tokens == m.tokens
      && SameElements(m.balanceSlots, n.balanceSlots) && SameElements(m.tokenCash, n.tokenCash)
    else if m.CurvePool? then
      && n.CurvePool? && n.fields == m.fields && n.coins == m.coins && n.seedBytes == m.seedBytes
      && SameElements(m.discoveredSlots, n.discoveredSlots)
    else n == m
  }

  ghost predicate SameContent(r: Registration, t: Registration) {
    && r.key == t.key
    && SameElements(r.stateAddresses, t.stateAddresses)
    && SameSources(r.eventSources, t.eventSources)
    && SameProtocol(r.metadata, t.metadata)
  }

  lemma NormalSource(s: EventSource)
    ensures SameSource(s, NormalTopics(s)) && SameSource(NormalTopics(s), s)
  {
    Orders();
    CanonicalIsStable(s.topics, NatLeq);
  }

  lemma NormalSourcesSame(sources: seq<EventSource>)
    ensures SameSources(sources, NormalSources(sources))
  {
    Orders();
    hide SameSource, Canonical, SourceLeq, TotalPreorder;
    var listed := NormalTopicsOf(sources);
    CanonicalIsStable(listed, SourceLeq);
    forall s | s in sources ensures SourceAmong(s, NormalSources(sources)) {
      var i :| 0 <= i < |sources| && sources[i] == s;
      NormalSource(s);
      assert listed[i] in NormalSources(sources);
    }
    forall t | t in NormalSources(sources) ensures SourceAmong(t, sources) {
      var i :| 0 <= i < |listed| && listed[i] == t;
      NormalSource(sources[i]);
      assert sources[i] in sources;
    }
  }

  /** Normalising keeps key, status and contents; it only reorders lists and drops repeats. */
  lemma NormalKeepsContent(r: Registration)
    ensures SameContent(r, Normal(r)) && Normal(r).status == r.status
  {
    hide NormalSources, Canonical, SameSources;
    Orders();
    CanonicalIsStable(r.stateAddresses, NatLeq);
    NormalSourcesSame(r.eventSources);
    if r.metadata.Balancer? {
      CanonicalIsStable(r.metadata.balanceSlots, NatLeq);
      CanonicalIsStable(r.metadata.tokenCash, CashLeq);
    } else if r.metadata.CurvePool? {
      CanonicalIsStable(r.metadata.discoveredSlots, NatLeq);
    }
  }

  // -------------------------------------------------------------------------- order

  /** The lists agree up to position `k`, where the first ends or has the smaller element. */
  predicate DiffersAt(a: seq<nat>, b: seq<nat>, k: nat) {
    k <= |a| && k < |b| && a[..k] == b[..k] && (k == |a| || a[k] < b[k])
  }

  ghost predicate LexBefore(a: seq<nat>, b: seq<nat>) {
    exists k: nat :: DiffersAt(a, b, k)
  }

  lemma {:induction false} LexLeqIs(a: seq<nat>, b: seq<nat>)
    requires LexLeq(a, b)
    ensures a == b || LexBefore(a, b)
  {
    if a == [] {
      assert b == [] || DiffersAt(a, b, 0);
    } else if a[0] < b[0] {
      assert DiffersAt(a, b, 0);
    } else {
      LexLeqIs(a[1..], b[1..]);
      assert a == [a[0]] + a[1..] && b == [b[0]] + b[1..];
      if k: nat :| DiffersAt(a[1..], b[1..], k) {
        assert a[..k + 1] == [a[0]] + a[1..][..k] && b[..k + 1] == [b[0]] + b[1..][..k];
        assert DiffersAt(a, b, k + 1);
      }
    }
  }

  function RouteKind(r: Route): nat {
    match r
    case Direct => 0
    case IndexedAddress(_) => 1
    case IndexedBytes32(_) => 2
    case AdapterDefined => 3
  }

  /** By kind of route, and by topic index among those that have one. */
  predicate RouteUpTo(a: Route, b: Route) {
    || RouteKind(a) < RouteKind(b)
    || (a.IndexedAddress? && b.IndexedAddress? && a.index <= b.index)
    || (a.IndexedBytes32? && b.IndexedBytes32? && a.index <= b.index)
    || a == b
  }

  /** By emitter, then by topics as a list, then by route. */
  ghost predicate SourceUpTo(a: EventSource, b: EventSource) {
    || a.emitter < b.emitter
    || (a.emitter == b.emitter && LexBefore(a.topics, b.topics))
    || (a.emitter == b.emitter && a.topics == b.topics && RouteUpTo(a.route, b.route))
  }

  lemma SourceLeqIs(a: EventSource, b: EventSource)
    requires SourceLeq(a, b)
    ensures SourceUpTo(a, b)
  {
    hide LexBefore;
    if a.emitter == b.emitter && a.topics != b.topics {
      LexLeqIs(a.topics, b.topics);
    }
  }

  ghost predicate Increasing(s: seq<nat>) {
    forall i, j | 0 <= i < j < |s| :: s[i] < s[j]
  }

  lemma StrictlySorted(r: seq<nat>)
    requires Sorted(r, NatLeq) && NoConsecutiveRepeats(r)
    ensures Increasing(r)
  {
    forall i, j | 0 <= i < j < |r| ensures r[i] < r[j] {
      assert NatLeq(r[i], r[i + 1]) && r[i] != r[i + 1];
      assert i + 1 < j ==> NatLeq(r[i + 1], r[j]);
    }
  }

  lemma CanonicalIncreases(s: seq<nat>)
    ensures Increasing(Canonical(s, NatLeq))
  {
    Orders();
    hide TotalPreorder, StableSort, Dedup, Increasing, SourceLeq, CashLeq;
    StableSortSorts(s, NatLeq);
    DedupFacts(StableSort(s, NatLeq), NatLeq);
    StrictlySorted(Canonical(s, NatLeq));
  }

  /** Normal lists are in order: addresses, topics and slots strictly, sources by emitter, topics and route. */
  lemma NormalIsSorted(r: Registration)
    ensures Increasing(Normal(r).stateAddresses)
    ensures forall i, j | 0 <= i < j < |Normal(r).eventSources| ::
              SourceUpTo(Normal(r).eventSources[i], Normal(r).eventSources[j])
    ensures forall s | s in Normal(r).eventSources :: Increasing(s.topics)
    ensures r.metadata.Balancer? ==> Increasing(Normal(r).metadata.balanceSlots)
    ensures r.metadata.CurvePool? ==> Increasing(Normal(r).metadata.discoveredSlots)
  {
    Orders();
    hide Canonical, SourceLeq, SourceUpTo, TotalPreorder, Increasing;
    CanonicalIncreases(r.stateAddresses);
    var listed := NormalTopicsOf(r.eventSources);
    CanonicalIsStable(listed, SourceLeq);
    var sources := Normal(r).eventSources;
    forall i, j | 0 <= i < j < |sources| ensures SourceUpTo(sources[i], sources[j]) {
      assert SourceLeq(sources[i], sources[j]);
      SourceLeqIs(sources[i], sources[j]);
    }
    forall s | s in sources ensures Increasing(s.topics) {
      var i :| 0 <= i < |listed| && listed[i] == s;
      CanonicalIncreases(r.eventSources[i].topics);
    }
    if r.metadata.Balancer? {
      CanonicalIncreases(r.metadata.balanceSlots);
    } else if r.metadata.CurvePool? {
      CanonicalIncreases(r.metadata.discoveredSlots);
    }
  }

  /** The families in the order their keys sort. */
  const FAMILIES: seq<Family> := [UniswapV2, UniswapV3, PancakeV3, Slipstream, SolidlyV2, BalancerV2, Curve, Custom]

  predicate EarlierFamily(f: Family, g: Family) {
    exists i, j :: 0 <= i < j < |FAMILIES| && FAMILIES[i] == f && FAMILIES[j] == g
  }

  lemma FamilyRankIs(f: Family)
    ensures FamilyRank(f) < |FAMILIES| && FAMILIES[FamilyRank(f)] == f
  {
  }

  /** An archive lists its pools by family and then by id, each key after the one before it. */
  lemma ArchiveIsSorted(a: Archive, i: nat, j: nat)
    requires Captured(a) && i < j < |a.registrations|
    ensures var k, l := a.registrations[i].key, a.registrations[j].key;
            EarlierFamily(k.family, l.family) || (k.family == l.family && k.id < l.id)
  {
    hide AllNormal;
    var k, l := a.registrations[i].key, a.registrations[j].key;
    assert KeyLeq(a.registrations[i], a.registrations[j]) && k != l;
    FamilyRankIs(k.family);
    FamilyRankIs(l.family);
  }

  // ------------------------------------------------------------------ limits, family

  predicate SourceBounded(s: EventSource) {
    |s.topics| <= 64 && forall topics | topics in s.indexedTopics :: |topics| <= 64
  }

  /** Every list is within its limit. */
  predicate WithinBounds(r: Registration) {
    && |r.stateAddresses| <= 64
    && |r.eventSources| <= 64
    && (forall s | s in r.eventSources :: SourceBounded(s))
    && (r.metadata.Balancer? ==>
          |r.metadata.tokens| <= 256 && |r.metadata.balanceSlots| <= 65536 && |r.metadata.tokenCash| <= 256)
    && (r.metadata.CurvePool? ==>
          && |r.metadata.coins| <= 256 && |r.metadata.discoveredSlots| <= 65536
          && (r.metadata.seedBytes.Some? ==> r.metadata.seedBytes.value <= 1048576))
  }

  lemma LimitsAreBounds(r: Registration)
    ensures WithinLimits(r) <==> WithinBounds(r)
  {
    if WithinBounds(r) {
      forall i | 0 <= i < |r.eventSources| ensures TopicsWithin(r.eventSources[i]) {
        var s := r.eventSources[i];
        assert s in r.eventSources && SourceBounded(s);
        forall j | 0 <= j < |s.indexedTopics| ensures |s.indexedTopics[j]| <= MAX_EVENT_TOPICS {
          assert s.indexedTopics[j] in s.indexedTopics;
        }
      }
    }
  }

  /** The key and the metadata are of one built-in family, if there is metadata. */
  predicate OneFamily(r: Registration) {
    && !r.key.family.Custom? && !r.metadata.CustomMetadata?
    && (r.metadata.Balancer? ==> r.key.family.BalancerV2?)
    && (r.metadata.CurvePool? ==> r.key.family.Curve?)
    && (r.metadata.Plain? ==> r.metadata.family == r.key.family && !r.key.family.BalancerV2? && !r.key.family.Curve?)
  }

  lemma {:induction false} InsertLength<T>(s: seq<T>, x: T, leq: (T, T) -> bool)
    ensures |InsertLast(s, x, leq)| == |s| + 1
  {
    InsertKeepsElements(s, x, leq);
    assert |InsertLast(s, x, leq)| == |multiset(InsertLast(s, x, leq))|;
  }

  lemma {:induction false} SortLength<T>(s: seq<T>, leq: (T, T) -> bool)
    ensures |StableSort(s, leq)| == |s|
  {
    if s != [] {
      SortLength(s[..|s| - 1], leq);
      InsertLength(StableSort(s[..|s| - 1], leq), s[|s| - 1], leq);
    }
  }

  lemma {:induction false} DedupLength<T>(s: seq<T>)
    ensures |Dedup(s)| <= |s|
  {
    if s != [] {
      DedupLength(s[..|s| - 1]);
    }
  }

  lemma CanonicalLength<T>(s: seq<T>, leq: (T, T) -> bool)
    ensures |Canonical(s, leq)| <= |s|
  {
    SortLength(s, leq);
    DedupLength(StableSort(s, leq));
  }

  lemma NormalSourcesBounded(sources: seq<EventSource>)
    requires |sources| <= 64 && forall s | s in sources :: SourceBounded(s)
    ensures |NormalSources(sources)| <= 64 && forall s | s in NormalSources(sources) :: SourceBounded(s)
  {
    Orders();
    hide Canonical, SourceLeq, TotalPreorder;
    var listed := NormalTopicsOf(sources);
    CanonicalIsStable(listed, SourceLeq);
    CanonicalLength(listed, SourceLeq);
    forall s | s in NormalSources(sources) ensures SourceBounded(s) {
      var i :| 0 <= i < |listed| && listed[i] == s;
      assert sources[i] in sources;
      CanonicalLength(sources[i].topics, NatLeq);
    }
  }

  /** Normalising never breaks a limit, and never changes the family. */
  lemma NormalStaysBounded(r: Registration)
    requires WithinBounds(r)
    ensures WithinBounds(Normal(r))
    ensures OneFamily(r) ==> OneFamily(Normal(r))
  {
    hide NormalSources, Canonical, SourceBounded;
    CanonicalLength(r.stateAddresses, NatLeq);
    NormalSourcesBounded(r.eventSources);
    if r.metadata.Balancer? {
      CanonicalLength(r.metadata.balanceSlots, NatLeq);
      CanonicalLength(r.metadata.tokenCash, CashLeq);
    } else if r.metadata.CurvePool? {
      CanonicalLength(r.metadata.discoveredSlots, NatLeq);
    }
  }

  // --------------------------------------------------------------------- any load

  /** What a load makes of one registration of the file. */
  ghost predicate LoadedAs(stored: Registration, loaded: Registration) {
    && SameContent(stored, loaded) && StatusResumes(stored.status, loaded.status)
    && WithinBounds(loaded) && OneFamily(loaded)
  }

  lemma RestoredOne(before: seq<Registration>, stored: Registration)
    requires RestoreOne(before, stored).Ok?
    ensures var r := RestoreOne(before, stored).value;
            |r| == |before| + 1 && r[..|before|] == before && LoadedAs(stored, r[|before|])
  {
    hide Normal, SameContent, WithinLimits, OneFamily;
    LimitsAreBounds(stored);
    var resumed := Resumed(stored);
    NormalKeepsContent(resumed);
    NormalStaysBounded(resumed);
    BoundsIgnoreStatus(stored);
    FamilyOf(stored);
  }

  lemma FamilyOf(stored: Registration)
    requires FromPersisted(stored).Ok? && NormalizeRegistration(Resumed(stored)).Ok?
    ensures WithinLimits(stored) && OneFamily(Resumed(stored))
  {
  }

  lemma BoundsIgnoreStatus(r: Registration)
    ensures WithinBounds(Resumed(r)) <==> WithinBounds(r)
    ensures forall n :: SameContent(Resumed(r), n) <==> SameContent(r, n)
  {
    hide SameSources, SameElements;
  }

  lemma {:induction false} RestoredAre(stored: seq<Registration>)
    requires Restored(stored).Ok?
    ensures |Restored(stored).value| == |stored|
    ensures forall i | 0 <= i < |stored| :: LoadedAs(stored[i], Restored(stored).value[i])
  {
    hide LoadedAs, RestoreOne;
    if stored != [] {
      var front := stored[..|stored| - 1];
      RestoredAre(front);
      RestoredOne(Restored(front).value, stored[|stored| - 1]);
      forall i | 0 <= i < |front| ensures Restored(stored).value[i] == Restored(front).value[i] {
        assert Restored(stored).value[i] == Restored(stored).value[..|front|][i];
      }
    }
  }

  ghost predicate LoadedFrom(stored: seq<Registration>, r: Registration) {
    exists p :: p in stored && LoadedAs(p, r)
  }

  ghost predicate LoadedInto(loaded: seq<Registration>, p: Registration) {
    exists r :: r in loaded && LoadedAs(p, r)
  }

  /**
   Whatever the file, a successful load returns each of its registrations once and nothing
   else: with the contents it was stored with, the status it resumes with, every list
   within its limit, and metadata of its key's own built-in family.
   */
  lemma LoadReturnsTheFile(c: Codec, bytes: seq<Byte>, chainId: nat)
    requires Loaded(c, bytes, chainId).Ok?
    ensures c.decode(bytes[HEADER..]).Some?
    ensures var stored := c.decode(bytes[HEADER..]).value.registrations;
            var loaded := Loaded(c, bytes, chainId).value.registrations;
            && |loaded| == |stored|
            && (forall i, j | 0 <= i < j < |loaded| :: loaded[i].key != loaded[j].key)
            && (forall p | p in stored :: LoadedInto(loaded, p))
            && (forall r | r in loaded :: LoadedFrom(stored, r))
  {
    LoadIsSound(c, bytes, chainId);
    var stored := Opened(c, bytes, chainId).value.registrations;
    assert stored == c.decode(bytes[HEADER..]).value.registrations;
    var loaded := Loaded(c, bytes, chainId).value.registrations;
    assert Captured(Loaded(c, bytes, chainId).value);
    var restored := Restored(stored).value;
    assert loaded == StableSort(restored, KeyLeq);
    hide Loaded, Opened, Restored, StableSort, LoadedAs, LittleEndian;
    RestoredAre(stored);
    KeyOrder();
    StableSortSorts(restored, KeyLeq);
    assert |loaded| == |multiset(loaded)| == |multiset(restored)|;
    forall p | p in stored ensures LoadedInto(loaded, p) {
      var i :| 0 <= i < |stored| && stored[i] == p;
      assert restored[i] in multiset(restored);
      assert restored[i] in loaded;
    }
    forall r | r in loaded ensures LoadedFrom(stored, r) {
      assert r in multiset(loaded);
      var i :| 0 <= i < |restored| && restored[i] == r;
      assert stored[i] in stored;
    }
  }

  /** Each refusal of the envelope, in the order it is looked for. */
  lemma LoadRefuses(c: Codec, bytes: seq<Byte>, chainId: nat)
    ensures var r := Loaded(c, bytes, chainId);
            if |bytes| > 67108864 then r == Err(LimitExceeded("file bytes"))
            else if |bytes| < 44 then r == Err(Corrupt)
            else if bytes[..8] != MAGIC then r == Err(InvalidMagic)
            else if LittleEndian(bytes[8..12]) != 1 then r == Err(IncompatibleVersion(LittleEndian(bytes[8..12])))
            else if c.checksum(bytes[44..]) != bytes[12..44] then r == Err(ChecksumMismatch)
            else if c.decode(bytes[44..]).None? then r == Err(Decode)
            else
              var stored := c.decode(bytes[44..]).value;
              && (stored.chainId != chainId ==> r == Err(ChainMismatch(stored.chainId)))
              && (stored.chainId == chainId && |stored.registrations| > 50000 ==>
                    r == Err(LimitExceeded("registrations")))
  {
    hide Restored, StableSort, LittleEndian;
  }

  /** Metadata that may stand beside the key: its own family's, or none. */
  predicate MetadataFits(r: Registration) {
    && !r.metadata.CustomMetadata?
    && (r.metadata.Balancer? ==> r.key.family.BalancerV2?)
    && (r.metadata.CurvePool? ==> r.key.family.Curve?)
    && (r.metadata.Plain? ==> r.metadata.family == r.key.family && !r.key.family.BalancerV2? && !r.key.family.Curve?)
  }

  /**
   One registration of the file is taken exactly if it is within the limits, its metadata
   fits its key, no earlier one has the key, and it is not custom; otherwise the error says
   which of these failed.
   */
  lemma RestoreDecides(before: seq<Registration>, stored: Registration)
    ensures var r := RestoreOne(before, stored);
            var taken := exists p :: p in before && p.key == stored.key;
            && (r.Ok? <==> WithinBounds(stored) && MetadataFits(stored) && !taken && !stored.key.family.Custom?)
            && (WithinBounds(stored) && !MetadataFits(stored) ==> r == Err(InvalidRegistration(stored.key)))
            && (WithinBounds(stored) && MetadataFits(stored) && taken ==> r == Err(DuplicatePool(stored.key)))
            && (WithinBounds(stored) && MetadataFits(stored) && !taken && stored.key.family.Custom? ==>
                  r == Err(UnsupportedCustom(stored.key)))
            && (!WithinBounds(stored) ==> r.Err? && (r.error.LimitExceeded? || r.error.InvalidRegistration?))
  {
    LimitsAreBounds(stored);
    hide Normal, WithinBounds, TopicsWithin;
    if p :| p in before && p.key == stored.key {
      assert stored.key in KeysIn(before);
    }
  }
}
