/**
 The normal form of a pool registration. Lists are sorted and consecutive repeats dropped;
 event sources are sorted by emitter, topics and route, a key that leaves out their
 indexed topics.
 */
module RegistrationNormalForm {
  import opened Wrappers
  import opened Sorting
  import BalancerSwaps

  datatype Route = Direct | IndexedAddress(index: nat) | IndexedBytes32(index: nat) | AdapterDefined

  datatype EventSource = EventSource(emitter: nat, topics: seq<nat>, indexedTopics: seq<seq<nat>>, route: Route)

  type TokenCash = BalancerSwaps.TokenCash

  datatype Family = UniswapV2 | UniswapV3 | PancakeV3 | Slipstream | SolidlyV2 | BalancerV2 | Curve | Custom

  datatype PoolKey = PoolKey(family: Family, id: nat)

  /** Protocol metadata; the fields that are only copied are one opaque value. */
  datatype Metadata =
    | Unknown
    | Plain(family: Family, fields: nat)
    | Balancer(fields: nat, tokens: seq<nat>, balanceSlots: seq<nat>, tokenCash: seq<TokenCash>)
    | CurvePool(fields: nat, coins: seq<nat>, discoveredSlots: seq<nat>, seedBytes: Option<nat>)
    | CustomMetadata

  datatype Status = Pending | Cold | Ready | Degraded | Disabled | Unsupported

  datatype Registration = Registration(key: PoolKey, stateAddresses: seq<nat>, eventSources: seq<EventSource>,
                                       metadata: Metadata, status: Status)

  datatype Error =
    | UnsupportedCustom(pool: PoolKey)
    | InvalidRegistration(pool: PoolKey)
    | LimitExceeded(field: string)
    | DuplicatePool(pool: PoolKey)
    | Corrupt
    | InvalidMagic
    | IncompatibleVersion(actual: nat)
    | ChecksumMismatch
    | Decode
    | ChainMismatch(actual: nat)

  // ------------------------------------------------------------------------- orders

  predicate NatLeq(a: nat, b: nat) {
    a <= b
  }

  /** The dictionary order of two lists. */
  predicate LexLeq(a: seq<nat>, b: seq<nat>) {
    if a == [] then true
    else if b == [] then false
    else if a[0] != b[0] then a[0] < b[0]
    else LexLeq(a[1..], b[1..])
  }

  function RouteRank(r: Route): (nat, nat) {
    match r
    case Direct => (0, 0)
    case IndexedAddress(i) => (1, i)
    case IndexedBytes32(i) => (2, i)
    case AdapterDefined => (3, 0)
  }

  predicate RouteLeq(a: Route, b: Route) {
    RouteRank(a).0 < RouteRank(b).0 || (RouteRank(a).0 == RouteRank(b).0 && RouteRank(a).1 <= RouteRank(b).1)
  }

  predicate SourceLeq(a: EventSource, b: EventSource) {
    if a.emitter != b.emitter then a.emitter < b.emitter
    else if a.topics != b.topics then LexLeq(a.topics, b.topics)
    else RouteLeq(a.route, b.route)
  }

  predicate CashLeq(a: TokenCash, b: TokenCash) {
    if a.token != b.token then a.token < b.token
    else if a.at.key != b.at.key then a.at.key < b.at.key
    else !a.at.high || b.at.high
  }

  lemma {:induction false} LexTotal(a: seq<nat>, b: seq<nat>)
    ensures LexLeq(a, b) || LexLeq(b, a)
    ensures LexLeq(a, b) && LexLeq(b, a) ==> a == b
    ensures a == b ==> LexLeq(a, b)
  {
    if a != [] && b != [] {
      LexTotal(a[1..], b[1..]);
      assert a == [a[0]] + a[1..] && b == [b[0]] + b[1..];
    }
  }

  lemma {:induction false} LexTransitive(a: seq<nat>, b: seq<nat>, c: seq<nat>)
    requires LexLeq(a, b) && LexLeq(b, c)
    ensures LexLeq(a, c)
  {
    if a != [] && b != [] && c != [] && a[0] == b[0] == c[0] {
      LexTransitive(a[1..], b[1..], c[1..]);
    }
  }

  lemma SourceTransitive(a: EventSource, b: EventSource, c: EventSource)
    requires SourceLeq(a, b) && SourceLeq(b, c)
    ensures SourceLeq(a, c)
  {
    hide LexLeq;
    if a.emitter == b.emitter == c.emitter {
      LexTotal(a.topics, b.topics);
      LexTotal(b.topics, c.topics);
      LexTotal(a.topics, c.topics);
      if a.topics != b.topics && b.topics != c.topics {
        LexTransitive(a.topics, b.topics, c.topics);
      }
    }
  }

  lemma Orders()
    ensures TotalPreorder(NatLeq) && TotalPreorder(CashLeq) && TotalPreorder(SourceLeq)
  {
    forall a, b ensures SourceLeq(a, b) || SourceLeq(b, a) {
      LexTotal(a.topics, b.topics);
    }
    forall a, b, c | SourceLeq(a, b) && SourceLeq(b, c) ensures SourceLeq(a, c) {
      SourceTransitive(a, b, c);
    }
  }

  /** Sources tie exactly when they differ in nothing but their indexed topics. */
  lemma SourceTies(a: EventSource, b: EventSource)
    ensures SourceLeq(a, b) && SourceLeq(b, a) <==> a.(indexedTopics := b.indexedTopics) == b
  {
    LexTotal(a.topics, b.topics);
  }

  // -------------------------------------------------------------------- normal form

  function NormalTopics(s: EventSource): EventSource {
    s.(topics := Canonical(s.topics, NatLeq))
  }

  function NormalTopicsOf(sources: seq<EventSource>): (r: seq<EventSource>)
    ensures |r| == |sources|
    ensures forall i | 0 <= i < |sources| :: r[i] == NormalTopics(sources[i])
  {
    seq(|sources|, i requires 0 <= i < |sources| => NormalTopics(sources[i]))
  }

  function NormalSources(sources: seq<EventSource>): seq<EventSource> {
    Canonical(NormalTopicsOf(sources), SourceLeq)
  }

  function NormalMetadata(m: Metadata): Metadata {
    match m
    case Balancer(_, _, slots, cash) => m.(balanceSlots := Canonical(slots, NatLeq),
                                           tokenCash := Canonical(cash, CashLeq))
    case CurvePool(_, _, slots, _) => m.(discoveredSlots := Canonical(slots, NatLeq))
    case _ => m
  }

  function Normal(r: Registration): Registration {
    r.(stateAddresses := Canonical(r.stateAddresses, NatLeq), eventSources := NormalSources(r.eventSources),
       metadata := NormalMetadata(r.metadata))
  }

  function NormalizeRegistration(r: Registration): Result<Registration, Error> {
    if r.key.family.Custom? || r.metadata.CustomMetadata? then Err(UnsupportedCustom(r.key)) else Ok(Normal(r))
  }

  lemma NormalTopicsStable(s: EventSource)
    ensures NormalTopics(NormalTopics(s)) == NormalTopics(s)
  {
    Orders();
    CanonicalIsStable(s.topics, NatLeq);
  }

  lemma NormalSourcesStable(sources: seq<EventSource>)
    ensures NormalSources(NormalSources(sources)) == NormalSources(sources)
  {
    Orders();
    var listed := NormalTopicsOf(sources);
    CanonicalIsStable(listed, SourceLeq);
    var normal := NormalSources(sources);
    forall i | 0 <= i < |normal| ensures NormalTopics(normal[i]) == normal[i] {
      assert normal[i] in listed;
      var j :| 0 <= j < |listed| && listed[j] == normal[i];
      NormalTopicsStable(sources[j]);
    }
    assert NormalTopicsOf(normal) == normal;
  }

  /** Normalising twice is normalising once. */
  lemma NormalIsStable(r: Registration)
    ensures Normal(Normal(r)) == Normal(r)
    ensures NormalizeRegistration(r).Ok?
            ==> NormalizeRegistration(NormalizeRegistration(r).value) == NormalizeRegistration(r)
  {
    hide NormalSources, Canonical;
    Orders();
    CanonicalIsStable(r.stateAddresses, NatLeq);
    NormalSourcesStable(r.eventSources);
    match r.metadata
    case Balancer(_, _, slots, cash) =>
      CanonicalIsStable(slots, NatLeq);
      CanonicalIsStable(cash, CashLeq);
    case CurvePool(_, _, slots, _) =>
      CanonicalIsStable(slots, NatLeq);
    case _ =>
  }

  // ---------------------------------------------------------- independence from order

  /** The same registration up to the order and repetition of its lists. */
  ghost predicate SameLists(r: Registration, t: Registration) {
    && r.key == t.key && r.status == t.status
    && SameElements(r.stateAddresses, t.stateAddresses)
    && SameElements(NormalTopicsOf(r.eventSources), NormalTopicsOf(t.eventSources))
    && match (r.metadata, t.metadata)
       case (Balancer(f, tokens, slots, cash), Balancer(f', tokens', slots', cash')) =>
         f == f' && tokens == tokens' && SameElements(slots, slots') && SameElements(cash, cash')
       case (CurvePool(f, coins, slots, seed), CurvePool(f', coins', slots', seed')) =>
         f == f' && coins == coins' && seed == seed' && SameElements(slots, slots')
       case (_, _) => r.metadata == t.metadata
  }

  lemma NatsIgnoreOrder(s: seq<nat>, t: seq<nat>)
    requires SameElements(s, t)
    ensures Canonical(s, NatLeq) == Canonical(t, NatLeq)
  {
    Orders();
    CanonicalIgnoresOrder(s, t, NatLeq);
  }

  lemma CashIgnoresOrder(s: seq<TokenCash>, t: seq<TokenCash>)
    requires SameElements(s, t)
    ensures Canonical(s, CashLeq) == Canonical(t, CashLeq)
  {
    Orders();
    CanonicalIgnoresOrder(s, t, CashLeq);
  }

  /** Sources that tie are identical. */
  predicate SourcesTieFree(r: Registration) {
    TieFree(NormalTopicsOf(r.eventSources), SourceLeq)
  }

  /** Without tied sources, the normal form does not depend on order or repetition. */
  lemma NormalIgnoresOrder(r: Registration, t: Registration)
    requires SourcesTieFree(r) && SameLists(r, t)
    ensures Normal(r) == Normal(t)
  {
    Orders();
    hide Canonical, SameElements, TotalPreorder, TieFree;
    NatsIgnoreOrder(r.stateAddresses, t.stateAddresses);
    CanonicalIgnoresOrder(NormalTopicsOf(r.eventSources), NormalTopicsOf(t.eventSources), SourceLeq);
    match (r.metadata, t.metadata)
    case (Balancer(_, _, slots, cash), Balancer(_, _, slots', cash')) =>
      NatsIgnoreOrder(slots, slots');
      CashIgnoresOrder(cash, cash');
    case (CurvePool(_, _, slots, _), CurvePool(_, _, slots', _)) =>
      NatsIgnoreOrder(slots, slots');
    case (_, _) =>
  }

  function SourceToFront(r: Registration, k: nat): Registration
    requires k < |r.eventSources|
  {
    r.(eventSources := ToFront(r.eventSources, k))
  }

  lemma MovedSourcesAreTheSame(r: Registration, k: nat)
    requires k < |r.eventSources|
    ensures multiset(SourceToFront(r, k).eventSources) == multiset(r.eventSources)
    ensures SameLists(r, SourceToFront(r, k))
    ensures NormalTopicsOf(SourceToFront(r, k).eventSources) == ToFront(NormalTopicsOf(r.eventSources), k)
  {
    hide NormalTopics;
    var moved := SourceToFront(r, k);
    assert NormalTopicsOf(moved.eventSources) == ToFront(NormalTopicsOf(r.eventSources), k);
    ToFrontReorders(r.eventSources, k);
    ToFrontReorders(NormalTopicsOf(r.eventSources), k);
  }

  /** With tied sources it does: moving one source to the front changes the normal form. */
  lemma TiedSourcesShowTheOrder(r: Registration) returns (k: nat)
    requires !SourcesTieFree(r)
    ensures k < |r.eventSources|
    ensures var moved := SourceToFront(r, k);
            && multiset(moved.eventSources) == multiset(r.eventSources)
            && SameLists(r, moved)
            && Normal(moved) != Normal(r)
  {
    hide Canonical, TieFree, TotalPreorder, SourceLeq, NormalTopics, ToFront, SameLists;
    Orders();
    k := TiesShowTheOrder(NormalTopicsOf(r.eventSources), SourceLeq);
    MovedSourcesAreTheSame(r, k);
  }
}
