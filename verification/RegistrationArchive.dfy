/** Saving normalised registrations and loading them back for a warm resume. */
module RegistrationArchive {
  import opened Wrappers
  import opened Words
  import opened Sorting
  import opened RegistrationNormalForm

  const MAGIC: seq<Byte> := [69, 65, 83, 82, 69, 71, 0, 0]
  const VERSION: nat := 1
  const VERSION_BYTES: seq<Byte> := [1, 0, 0, 0]
  const VERSION_HEADER: nat := 12
  const HEADER: nat := 44
  const MAX_FILE_BYTES: nat := 67108864
  const MAX_REGISTRATIONS: nat := 50000
  const MAX_STATE_ADDRESSES: nat := 64
  const MAX_EVENT_SOURCES: nat := 64
  const MAX_EVENT_TOPICS: nat := 64
  const MAX_POOL_TOKENS: nat := 256
  const MAX_READ_SET_SLOTS: nat := 65536
  const MAX_BALANCER_TOKEN_CASH: nat := 256
  const MAX_CODE_SEED_BYTES: nat := 1048576

  datatype Archive = Archive(chainId: nat, registrations: seq<Registration>)

  /** The text encoding of an archive and the checksum of a payload. */
  datatype Codec = Codec(encode: Archive -> seq<Byte>, decode: seq<Byte> -> Option<Archive>,
                         checksum: seq<Byte> -> seq<Byte>)

  /** Decoding undoes encoding, and a checksum is 32 bytes. */
  ghost predicate Faithful(c: Codec) {
    (forall a: Archive :: c.decode(c.encode(a)) == Some(a)) && (forall p: seq<Byte> :: |c.checksum(p)| == 32)
  }

  // ----------------------------------------------------------------- one registration

  predicate TopicsWithin(s: EventSource) {
    |s.topics| <= MAX_EVENT_TOPICS && forall i | 0 <= i < |s.indexedTopics| :: |s.indexedTopics[i]| <= MAX_EVENT_TOPICS
  }

  predicate SourcesWithin(r: Registration) {
    forall i | 0 <= i < |r.eventSources| :: TopicsWithin(r.eventSources[i])
  }

  predicate ListsWithin(r: Registration) {
    |r.stateAddresses| <= MAX_STATE_ADDRESSES && |r.eventSources| <= MAX_EVENT_SOURCES
  }

  predicate MetadataWithin(m: Metadata) {
    match m
    case Balancer(_, tokens, slots, cash) =>
      |tokens| <= MAX_POOL_TOKENS && |slots| <= MAX_READ_SET_SLOTS && |cash| <= MAX_BALANCER_TOKEN_CASH
    case CurvePool(_, coins, slots, seed) =>
      |coins| <= MAX_POOL_TOKENS && |slots| <= MAX_READ_SET_SLOTS && (seed.Some? ==> seed.value <= MAX_CODE_SEED_BYTES)
    case _ => true
  }

  predicate WithinLimits(r: Registration) {
    ListsWithin(r) && SourcesWithin(r) && MetadataWithin(r.metadata)
  }

  /** Metadata of the family the key names, or none yet. */
  predicate Matching(r: Registration) {
    match r.metadata
    case Unknown => true
    case Plain(family, _) => family == r.key.family && !family.BalancerV2? && !family.Curve?
    case Balancer(_, _, _, _) => r.key.family.BalancerV2?
    case CurvePool(_, _, _, _) => r.key.family.Curve?
    case CustomMetadata => false
  }

  /** The persisted form has the registration's own fields. */
  function ToPersisted(r: Registration): Result<Registration, Error> {
    if r.key.family.Custom? || r.metadata.CustomMetadata? then Err(UnsupportedCustom(r.key))
    else if !Matching(r) then Err(InvalidRegistration(r.key))
    else Ok(r)
  }

  function FromPersisted(r: Registration): Result<Registration, Error> {
    if !ListsWithin(r) then Err(LimitExceeded("registration"))
    else if !Matching(r) then Err(InvalidRegistration(r.key))
    else if !MetadataWithin(r.metadata) || !SourcesWithin(r) then Err(LimitExceeded("registration"))
    else Ok(r)
  }

  /** Queueable states start over; the others are kept. */
  function ResumeStatus(s: Status): Status {
    match s
    case Disabled => Disabled
    case Unsupported => Unsupported
    case _ => Pending
  }

  function Resumed(r: Registration): Registration {
    r.(status := ResumeStatus(r.status))
  }

  function AllResumed(registrations: seq<Registration>): (r: seq<Registration>)
    ensures |r| == |registrations|
    ensures forall i | 0 <= i < |registrations| :: r[i] == Resumed(registrations[i])
  {
    seq(|registrations|, i requires 0 <= i < |registrations| => Resumed(registrations[i]))
  }

  function FamilyRank(f: Family): nat {
    match f
    case UniswapV2 => 0
    case UniswapV3 => 1
    case PancakeV3 => 2
    case Slipstream => 3
    case SolidlyV2 => 4
    case BalancerV2 => 5
    case Curve => 6
    case Custom => 7
  }

  predicate KeyLeq(a: Registration, b: Registration) {
    FamilyRank(a.key.family) < FamilyRank(b.key.family) || (a.key.family == b.key.family && a.key.id <= b.key.id)
  }

  lemma KeyOrder()
    ensures TotalPreorder(KeyLeq)
  {
  }

  // ----------------------------------------------------------------------- capturing

  predicate DistinctKeys(registrations: seq<Registration>) {
    forall i, j | 0 <= i < j < |registrations| :: registrations[i].key != registrations[j].key
  }

  predicate AllNormal(registrations: seq<Registration>) {
    forall i | 0 <= i < |registrations| :: Normal(registrations[i]) == registrations[i]
  }

  predicate Capturable(r: Registration) {
    !r.key.family.Custom? && !r.metadata.CustomMetadata? && WithinLimits(Normal(r))
  }

  function NormalOf(pools: seq<Registration>): (r: seq<Registration>)
    ensures |r| == |pools|
    ensures forall i | 0 <= i < |pools| :: r[i] == Normal(pools[i])
  {
    seq(|pools|, i requires 0 <= i < |pools| => Normal(pools[i]))
  }

  /** An archive holds the normal forms of the pools, sorted by key. */
  method Capture(chainId: nat, pools: seq<Registration>) returns (r: Result<Archive, Error>)
    ensures r.Ok? <==> |pools| <= MAX_REGISTRATIONS && forall p | p in pools :: Capturable(p)
    ensures r.Ok? ==> r.value == Archive(chainId, StableSort(NormalOf(pools), KeyLeq))
  {
    hide Normal, WithinLimits;
    if |pools| > MAX_REGISTRATIONS {
      return Err(LimitExceeded("registrations"));
    }
    var registrations: seq<Registration> := [];
    for i := 0 to |pools|
      invariant registrations == NormalOf(pools[..i]) && forall j | 0 <= j < i :: Capturable(pools[j])
    {
      assert pools[i] in pools;
      var normal := NormalizeRegistration(pools[i]);
      if normal.Err? {
        return Err(normal.error);
      }
      if !WithinLimits(normal.value) {
        return Err(LimitExceeded("registration"));
      }
      registrations := registrations + [normal.value];
    }
    assert pools[..|pools|] == pools;
    r := Ok(Archive(chainId, StableSort(registrations, KeyLeq)));
  }

  /** What every captured archive is. */
  predicate Captured(a: Archive) {
    && |a.registrations| <= MAX_REGISTRATIONS
    && Sorted(a.registrations, KeyLeq) && DistinctKeys(a.registrations) && AllNormal(a.registrations)
  }

  lemma CaptureGives(chainId: nat, pools: seq<Registration>)
    requires |pools| <= MAX_REGISTRATIONS && DistinctKeys(pools)
    ensures Captured(Archive(chainId, StableSort(NormalOf(pools), KeyLeq)))
  {
    hide Normal;
    KeyOrder();
    var normal := NormalOf(pools);
    StableSortSorts(normal, KeyLeq);
    var sorted := StableSort(normal, KeyLeq);
    assert |sorted| == |multiset(sorted)| == |multiset(normal)| == |pools|;
    forall i | 0 <= i < |sorted| ensures Normal(sorted[i]) == sorted[i] {
      assert sorted[i] in multiset(sorted);
      var j :| 0 <= j < |normal| && normal[j] == sorted[i];
      NormalIsStable(pools[j]);
    }
    NormalKeys(pools);
    KeysStayDistinct(normal, sorted);
  }

  lemma NormalKeys(pools: seq<Registration>)
    requires DistinctKeys(pools)
    ensures DistinctKeys(NormalOf(pools))
  {
  }

  lemma KeysStayDistinct(s: seq<Registration>, t: seq<Registration>)
    requires DistinctKeys(s) && multiset(t) == multiset(s)
    ensures DistinctKeys(t)
  {
    forall i, j | 0 <= i < j < |t| ensures t[i].key != t[j].key {
      assert t[i] in multiset(t) && t[j] in multiset(t);
      var k :| 0 <= k < |s| && s[k] == t[i];
      var l :| 0 <= l < |s| && s[l] == t[j];
      if k == l {
        TwiceThere(t, i, j);
        OnceThere(s, k);
        assert false;
      }
    }
  }

  lemma TwiceThere(t: seq<Registration>, i: nat, j: nat)
    requires i < j < |t| && t[i] == t[j]
    ensures multiset(t)[t[i]] >= 2
  {
    assert t == t[..i] + [t[i]] + t[i + 1..j] + [t[j]] + t[j + 1..];
  }

  lemma OnceThere(s: seq<Registration>, k: nat)
    requires DistinctKeys(s) && k < |s|
    ensures multiset(s)[s[k]] == 1
  {
    assert s == s[..k] + [s[k]] + s[k + 1..];
    assert s[k] !in s[..k] && s[k] !in s[k + 1..];
    assert multiset(s[..k])[s[k]] == 0 && multiset(s[k + 1..])[s[k]] == 0;
  }

  // --------------------------------------------------------------- saving and loading

  function Save(c: Codec, a: Archive): Result<seq<Byte>, Error> {
    if |a.registrations| > MAX_REGISTRATIONS then Err(LimitExceeded("registrations"))
    else if exists r :: r in a.registrations && !WithinLimits(r) then Err(LimitExceeded("registration"))
    else
      match FirstUnpersistable(a.registrations)
      case Some(e) => Err(e)
      case None =>
        var payload := c.encode(a);
        if HEADER + |payload| > MAX_FILE_BYTES then Err(LimitExceeded("file bytes"))
        else Ok(MAGIC + VERSION_BYTES + c.checksum(payload) + payload)
  }

  function FirstUnpersistable(registrations: seq<Registration>): Option<Error> {
    if registrations == [] then None
    else
      var before := FirstUnpersistable(registrations[..|registrations| - 1]);
      if before.Some? then before
      else match ToPersisted(registrations[|registrations| - 1])
        case Err(e) => Some(e)
        case Ok(_) => None
  }

  function LittleEndian(s: seq<Byte>): nat {
    if s == [] then 0 else s[0] + 256 * LittleEndian(s[1..])
  }

  /** The envelope checks of a load: the decoded archive, or what is wrong with the file. */
  function Opened(c: Codec, bytes: seq<Byte>, chainId: nat): Result<Archive, Error> {
    if |bytes| > MAX_FILE_BYTES then Err(LimitExceeded("file bytes"))
    else if |bytes| < HEADER then Err(Corrupt)
    else if bytes[..|MAGIC|] != MAGIC then Err(InvalidMagic)
    else if LittleEndian(bytes[|MAGIC|..VERSION_HEADER]) != VERSION
        then Err(IncompatibleVersion(LittleEndian(bytes[|MAGIC|..VERSION_HEADER])))
    else if c.checksum(bytes[HEADER..]) != bytes[VERSION_HEADER..HEADER] then Err(ChecksumMismatch)
    else
      match c.decode(bytes[HEADER..])
      case None => Err(Decode)
      case Some(a) =>
        if a.chainId != chainId then Err(ChainMismatch(a.chainId))
        else if |a.registrations| > MAX_REGISTRATIONS then Err(LimitExceeded("registrations"))
        else Ok(a)
  }

  function KeysIn(registrations: seq<Registration>): set<PoolKey> {
    set r | r in registrations :: r.key
  }

  /** The registrations of a load, in file order. */
  function Restored(persisted: seq<Registration>): Result<seq<Registration>, Error> {
    if persisted == [] then Ok([])
    else
      match Restored(persisted[..|persisted| - 1])
      case Err(e) => Err(e)
      case Ok(before) => RestoreOne(before, persisted[|persisted| - 1])
  }

  function RestoreOne(before: seq<Registration>, p: Registration): Result<seq<Registration>, Error> {
    match FromPersisted(p)
    case Err(e) => Err(e)
    case Ok(r) =>
      if r.key in KeysIn(before) then Err(DuplicatePool(r.key))
      else
        match NormalizeRegistration(Resumed(r))
        case Err(e) => Err(e)
        case Ok(normal) => Ok(before + [normal])
  }

  function Loaded(c: Codec, bytes: seq<Byte>, chainId: nat): Result<Archive, Error> {
    match Opened(c, bytes, chainId)
    case Err(e) => Err(e)
    case Ok(a) =>
      match Restored(a.registrations)
      case Err(e) => Err(e)
      case Ok(registrations) => Ok(Archive(chainId, StableSort(registrations, KeyLeq)))
  }

  method Load(c: Codec, bytes: seq<Byte>, chainId: nat) returns (r: Result<Archive, Error>)
    ensures r == Loaded(c, bytes, chainId)
  {
    hide FromPersisted, Opened, NormalizeRegistration, StableSort;
    var envelope := Opened(c, bytes, chainId);
    if envelope.Err? {
      return Err(envelope.error);
    }
    var persisted := envelope.value.registrations;
    var registrations: seq<Registration> := [];
    var seen: set<PoolKey> := {};
    for i := 0 to |persisted|
      invariant Restored(persisted[..i]) == Ok(registrations)
      invariant seen == KeysIn(registrations)
    {
      assert persisted[..i + 1][..i] == persisted[..i];
      NormalKeepsKey(persisted[i]);
      var registration := FromPersisted(persisted[i]);
      if registration.Err? {
        RestoreFails(persisted, i);
        return Err(registration.error);
      }
      if registration.value.key in seen {
        RestoreFails(persisted, i);
        return Err(DuplicatePool(registration.value.key));
      }
      var normal := NormalizeRegistration(Resumed(registration.value));
      if normal.Err? {
        RestoreFails(persisted, i);
        return Err(normal.error);
      }
      assert KeysIn(registrations + [normal.value]) == KeysIn(registrations) + {normal.value.key};
      seen := seen + {registration.value.key};
      registrations := registrations + [normal.value];
    }
    assert persisted[..|persisted|] == persisted;
    r := Ok(Archive(chainId, StableSort(registrations, KeyLeq)));
  }

  lemma NormalKeepsKey(p: Registration)
    ensures FromPersisted(p).Ok? ==> FromPersisted(p).value == p
    ensures NormalizeRegistration(Resumed(p)).Ok? ==> NormalizeRegistration(Resumed(p)).value.key == p.key
  {
  }

  lemma {:induction false} RestoreFails(persisted: seq<Registration>, i: nat)
    requires i < |persisted| && Restored(persisted[..i + 1]).Err?
    ensures Restored(persisted) == Restored(persisted[..i + 1])
    decreases |persisted|
  {
    hide RestoreOne;
    if i + 1 == |persisted| {
      assert persisted[..i + 1] == persisted;
    } else {
      assert persisted[..|persisted| - 1][..i + 1] == persisted[..i + 1];
      RestoreFails(persisted[..|persisted| - 1], i);
    }
  }

  // ---------------------------------------------------------------------- round trip

  lemma {:induction false} AllPersistable(registrations: seq<Registration>)
    requires FirstUnpersistable(registrations).None?
    ensures forall i | 0 <= i < |registrations| :: ToPersisted(registrations[i]).Ok?
  {
    hide ToPersisted;
    if registrations != [] {
      AllPersistable(registrations[..|registrations| - 1]);
    }
  }

  /** The envelope of a saved archive opens to that archive. */
  lemma SavedOpens(c: Codec, a: Archive)
    requires Faithful(c) && Save(c, a).Ok?
    ensures Opened(c, Save(c, a).value, a.chainId) == Ok(a)
  {
    var payload := c.encode(a);
    var bytes := Save(c, a).value;
    assert bytes == MAGIC + VERSION_BYTES + c.checksum(payload) + payload;
    assert bytes[..|MAGIC|] == MAGIC;
    assert bytes[|MAGIC|..VERSION_HEADER] == VERSION_BYTES;
    assert bytes[VERSION_HEADER..HEADER] == c.checksum(payload);
    assert bytes[HEADER..] == payload;
    assert c.decode(c.encode(a)) == Some(a);
    VersionReads();
  }

  lemma VersionReads()
    ensures LittleEndian(VERSION_BYTES) == VERSION
  {
    assert VERSION_BYTES[1..] == [0, 0, 0];
    assert VERSION_BYTES[1..][1..] == [0, 0];
    assert VERSION_BYTES[1..][1..][1..] == [0];
    assert VERSION_BYTES[1..][1..][1..][1..] == [];
  }

  lemma NormalWhenResumed(r: Registration)
    requires Normal(r) == r
    ensures Normal(Resumed(r)) == Resumed(r)
  {
  }

  /** Normal registrations with distinct keys come back as they were, with their status resumed. */
  lemma {:induction false} RestoresAll(registrations: seq<Registration>)
    requires DistinctKeys(registrations) && AllNormal(registrations)
    requires forall i | 0 <= i < |registrations| :: ToPersisted(registrations[i]).Ok? && WithinLimits(registrations[i])
    ensures Restored(registrations) == Ok(AllResumed(registrations))
  {
    hide Normal;
    if registrations != [] {
      var front, last := registrations[..|registrations| - 1], registrations[|registrations| - 1];
      RestoresAll(front);
      NormalWhenResumed(last);
      assert AllResumed(registrations) == AllResumed(front) + [Resumed(last)];
    }
  }

  lemma ResumedStaysSorted(registrations: seq<Registration>)
    requires Sorted(registrations, KeyLeq)
    ensures StableSort(AllResumed(registrations), KeyLeq) == AllResumed(registrations)
  {
    SortedStays(AllResumed(registrations), KeyLeq);
  }

  /** Loading a saved archive returns its registrations, with only queueable statuses reset. */
  lemma SaveThenLoad(c: Codec, a: Archive)
    requires Faithful(c) && Captured(a) && Save(c, a).Ok?
    ensures Loaded(c, Save(c, a).value, a.chainId) == Ok(Archive(a.chainId, AllResumed(a.registrations)))
  {
    hide Opened, Restored, StableSort, FirstUnpersistable;
    SavedOpens(c, a);
    AllPersistable(a.registrations);
    RestoresAll(a.registrations);
    ResumedStaysSorted(a.registrations);
  }

  // ------------------------------------------------------------- what a load vouches for

  predicate ResumableStatus(s: Status) {
    s.Pending? || s.Disabled? || s.Unsupported?
  }

  lemma {:induction false} RestoredIsSound(persisted: seq<Registration>)
    requires Restored(persisted).Ok?
    ensures var r := Restored(persisted).value;
            && |r| == |persisted| && DistinctKeys(r) && AllNormal(r)
            && forall i | 0 <= i < |r| :: r[i].key == persisted[i].key && ResumableStatus(r[i].status)
  {
    hide Normal, FromPersisted, WithinLimits;
    if persisted != [] {
      var front, last := persisted[..|persisted| - 1], persisted[|persisted| - 1];
      RestoredIsSound(front);
      NormalKeepsKey(last);
      var before := Restored(front).value;
      NormalOfResumed(last);
      assert forall i | 0 <= i < |before| :: before[i] in before;
    }
  }

  lemma NormalOfResumed(r: Registration)
    ensures NormalizeRegistration(Resumed(r)).Ok? ==>
              var n := NormalizeRegistration(Resumed(r)).value;
              n.key == r.key && Normal(n) == n && ResumableStatus(n.status)
  {
    NormalIsStable(Resumed(r));
  }

  /**
   Whatever the file, a successful load had the right magic, version, checksum and chain, and
   returns at most the allowed number of registrations: normal, sorted, of distinct keys, none ready.
   */
  lemma LoadIsSound(c: Codec, bytes: seq<Byte>, chainId: nat)
    requires Loaded(c, bytes, chainId).Ok?
    ensures HEADER <= |bytes| <= MAX_FILE_BYTES && MAGIC <= bytes
    ensures LittleEndian(bytes[|MAGIC|..VERSION_HEADER]) == VERSION
            && c.checksum(bytes[HEADER..]) == bytes[VERSION_HEADER..HEADER]
    ensures c.decode(bytes[HEADER..]).Some? && c.decode(bytes[HEADER..]).value.chainId == chainId
    ensures var a := Loaded(c, bytes, chainId).value;
            a.chainId == chainId && Captured(a) && forall i | 0 <= i < |a.registrations| ::
                ResumableStatus(a.registrations[i].status)
  {
    var persisted := Opened(c, bytes, chainId).value.registrations;
    hide Restored, StableSort, Normal, LittleEndian, Captured;
    RestoredIsSound(persisted);
    SortedIsSound(chainId, Restored(persisted).value);
  }

  lemma SortedIsSound(chainId: nat, restored: seq<Registration>)
    requires |restored| <= MAX_REGISTRATIONS && DistinctKeys(restored) && AllNormal(restored)
    requires forall i | 0 <= i < |restored| :: ResumableStatus(restored[i].status)
    ensures Captured(Archive(chainId, StableSort(restored, KeyLeq)))
    ensures forall i | 0 <= i < |StableSort(restored, KeyLeq)| ::
            ResumableStatus(StableSort(restored, KeyLeq)[i].status)
  {
    hide StableSort, Normal;
    KeyOrder();
    StableSortSorts(restored, KeyLeq);
    var sorted := StableSort(restored, KeyLeq);
    KeysStayDistinct(restored, sorted);
    assert |sorted| == |multiset(sorted)| == |multiset(restored)|;
    forall i | 0 <= i < |sorted| ensures Normal(sorted[i]) == sorted[i] && ResumableStatus(sorted[i].status) {
      assert sorted[i] in multiset(sorted);
      var j :| 0 <= j < |restored| && restored[j] == sorted[i];
    }
  }
}
