/**
 Factory-backed pool discovery: what a factory driver reads for a token pair, and what
 it makes of the words it gets back. The V2, concentrated-liquidity and Solidly drivers
 differ only in the keys they look a pair up under, so one driver covers them.
 */
module DiscoveryTypes {
  import opened Wrappers
  import opened Words

  type Protocol = nat

  const ADDRESS_LIMIT: nat := 0x1_0000_0000_0000_0000_0000_0000_0000_0000_0000_0000
  const UNISWAP_V2: Protocol := 0
  const UNISWAP_V3: Protocol := 1
  const PANCAKE_V3: Protocol := 2
  const SLIPSTREAM: Protocol := 3
  const SOLIDLY_V2: Protocol := 4

  datatype Read = Read(address: Address, slot: nat)

  datatype Pair = Pair(token0: Address, token1: Address)

  /** The innermost key of a factory's pool mapping. */
  datatype LookupKey = Only | Fee(fee: nat) | TickSpacing(spacing: int) | Stable(stable: bool)

  datatype Keying =
    | ByPair
    | ByFee(tiers: seq<nat>, spacingBase: nat)
    | BySpacing(spacings: seq<int>)
    | ByVariant
    | External

  datatype FeeSource = NoFee | KeyIsFee | Fixed(fee: nat) | FactoryMapping(base: nat)

  datatype Create2 = Create2(deployer: Option<Address>, initCodeHash: nat)

  datatype Factory = Factory(
    protocol: Protocol,
    address: Address,
    keying: Keying,
    poolBase: nat,
    feeSource: FeeSource,
    verify: bool,
    create2: Option<Create2>)

  datatype PoolKey = PoolKey(protocol: Protocol, address: Address)

  /** A registration is made from its driver, its pair and what the words said. */
  datatype Pool = Pool(key: PoolKey, factory: Factory, pair: Pair, fee: Option<nat>, spacing: Option<int>,
                       stable: Option<bool>)

  datatype Error =
    | MissingFactory(protocol: Protocol)
    | Malformed(reason: string)
    | DerivationMismatch(mapping: Address, derived: Address)
    | PreparedModeUnsupported(factory: Factory)
    | MissingPreparedValue(read: Read)
    | DuplicatePreparedValue(read: Read)
    | PreparedFactoryMismatch(index: nat)
    | QueryFailed(reason: string)

  /**
   What lies outside this model: storage-key and CREATE2 hashing, and drivers that only
   resolve pairs one by one through a cache of their own.
   */
  datatype Environment = Environment(
    poolSlot: (nat, Pair, LookupKey) -> nat,
    feeSlot: (nat, LookupKey) -> nat,
    create2: (Address, nat, Pair, LookupKey) -> Address,
    external: (Factory, Pair) -> Result<seq<Pool>, Error>)

  // ------------------------------------------------------------------------ words

  function AddressFromWord(word: nat): Result<Address, Error> {
    if word >= ADDRESS_LIMIT then Err(Malformed("factory address word has non-zero high bytes")) else Ok(word)
  }

  /** The signed value of the low 24 bits. */
  function I24FromWord(word: nat): (r: int)
    ensures -0x80_0000 <= r < 0x80_0000
  {
    var raw := word % 0x100_0000;
    if raw >= 0x80_0000 then raw - 0x100_0000 else raw
  }

  /** Sign extension: the low 64 bits in two's complement under all-ones for a negative value. */
  function I24ToWord(value: int): (word: nat)
    requires -0x8000_0000 <= value < 0x8000_0000
    ensures word < WORD
  {
    if value < 0 then
      var low := value + 0x1_0000_0000_0000_0000;
      var highOnes := (WORD - 1) / 0x1_0000_0000_0000_0000 * 0x1_0000_0000_0000_0000;
      low + highOnes
    else value
  }

  /** The encoding is the two's complement of the value in 256 bits, and decoding undoes it. */
  lemma I24RoundTrip(value: int)
    requires -0x80_0000 <= value < 0x80_0000
    ensures I24ToWord(value) == value % WORD
    ensures I24FromWord(I24ToWord(value)) == value
  {
    assert WORD % 0x100_0000 == 0;
    if value < 0 {
      assert I24ToWord(value) == value + WORD;
      assert (value + WORD) % 0x100_0000 == value + 0x100_0000;
    }
  }

  function U32FromWord(word: nat): (r: nat)
    ensures r < 0x1_0000_0000
  {
    word % 0x1_0000_0000
  }

  // ------------------------------------------------------------------- candidates

  /** The keys one pair is looked up under, in probe order. */
  function Keys(f: Factory): seq<LookupKey> {
    match f.keying
    case ByPair => [Only]
    case ByFee(tiers, _) => seq(|tiers|, i requires 0 <= i < |tiers| => Fee(tiers[i]))
    case BySpacing(spacings) => seq(|spacings|, i requires 0 <= i < |spacings| => TickSpacing(spacings[i]))
    case ByVariant => [Stable(false), Stable(true)]
    case External => []
  }

  function PoolRead(env: Environment, f: Factory, pair: Pair, key: LookupKey): Read {
    Read(f.address, env.poolSlot(f.poolBase, pair, key))
  }

  /** The storage reads that resolve every given pair. */
  function CandidateReads(env: Environment, f: Factory, pairs: seq<Pair>): set<Read> {
    (set p, k | p in pairs && k in Keys(f) :: PoolRead(env, f, p, k))
    + (if f.keying.ByFee? then set k | k in Keys(f) :: Read(f.address, env.feeSlot(f.keying.spacingBase, k)) else {})
    + (if f.keying.BySpacing? && f.feeSource.FactoryMapping? && pairs != []
       then set k | k in Keys(f) :: Read(f.address, env.feeSlot(f.feeSource.base, k)) else {})
  }

  // --------------------------------------------------------------------- one probe

  /** A result, and whether the driver's derivation check has passed by then. */
  datatype Run<T> = Run(result: Result<T, Error>, verified: bool)

  /** The pool address a driver derives from its pair and key. */
  function DerivedAddress(env: Environment, f: Factory, pair: Pair, key: LookupKey): Address
    requires f.create2.Some?
  {
    var deployer := if f.create2.value.deployer.Some? then f.create2.value.deployer.value else f.address;
    env.create2(deployer, f.create2.value.initCodeHash, pair, key)
  }

  function EnsureDerivation(env: Environment, f: Factory, mapping: Address, pair: Pair, key: LookupKey,
                            verified: bool): Run<()> {
    if !f.verify || verified || f.create2.None? then Run(Ok(()), verified)
    else
      var derived := DerivedAddress(env, f, pair, key);
      if derived != mapping then Run(Err(DerivationMismatch(mapping, derived)), verified) else Run(Ok(()), true)
  }

  function ValueOr0(values: map<Read, nat>, read: Read): nat {
    if read in values then values[read] else 0
  }

  function FeeForKey(env: Environment, f: Factory, key: LookupKey, values: map<Read, nat>): Result<nat, Error> {
    match f.feeSource
    case KeyIsFee => if key.Fee? then Ok(key.fee)
        else Err(Malformed("fee source Key is not valid for tickSpacing-keyed factories"))
    case Fixed(fee) => Ok(fee)
    case FactoryMapping(base) => Ok(U32FromWord(ValueOr0(values, Read(f.address, env.feeSlot(base, key)))))
    case NoFee => Ok(0)
  }

  function KeyProtocol(f: Factory): Protocol {
    if f.keying.ByPair? then UNISWAP_V2
    else if f.keying.ByVariant? then SOLIDLY_V2
    else if f.protocol == PANCAKE_V3 || f.protocol == SLIPSTREAM then f.protocol
    else UNISWAP_V3
  }

  /** The metadata of a located pool; a zero fee is left unset. */
  function Registered(env: Environment, f: Factory, pool: Address, pair: Pair, key: LookupKey,
                      values: map<Read, nat>): Result<Pool, Error> {
    var poolKey := PoolKey(KeyProtocol(f), pool);
    match key
    case Only => Ok(Pool(poolKey, f, pair, None, None, None))
    case Stable(stable) => Ok(Pool(poolKey, f, pair, None, None, Some(stable)))
    case _ =>
      var spacing :=
        if key.TickSpacing? then key.spacing
        else if f.keying.ByFee? then I24FromWord(ValueOr0(values,
                                                          Read(f.address, env.feeSlot(f.keying.spacingBase, key))))
        else 0;
      if key.Fee? && spacing <= 0 then Err(Malformed("V3 feeAmountTickSpacing returned a non-positive spacing"))
      else
        match FeeForKey(env, f, key, values)
        case Err(e) => Err(e)
        case Ok(fee) => Ok(Pool(poolKey, f, pair, if fee != 0 then Some(fee) else None, Some(spacing), None))
  }

  /** Look one pair up under one key. */
  function ProbeKey(env: Environment, f: Factory, values: map<Read, nat>, pair: Pair, key: LookupKey,
                    verified: bool): Run<Option<Pool>> {
    var read := PoolRead(env, f, pair, key);
    if read !in values then Run(Ok(None), verified)
    else
      match AddressFromWord(values[read])
      case Err(e) => Run(Err(e), verified)
      case Ok(pool) =>
        if pool == 0 then Run(Ok(None), verified)
        else
          var checked := EnsureDerivation(env, f, pool, pair, key, verified);
          if checked.result.Err? then Run(Err(checked.result.error), checked.verified)
          else
            match Registered(env, f, pool, pair, key, values)
            case Err(e) => Run(Err(e), checked.verified)
            case Ok(registered) => Run(Ok(Some(registered)), checked.verified)
  }

  /** Whether assembly looks only at the slots it asked for. */
  predicate ReadsClosed(f: Factory) {
    f.keying.ByFee? && f.feeSource.FactoryMapping? && f.keying.tiers != [] ==> f.feeSource.base == f.keying.spacingBase
  }
}
