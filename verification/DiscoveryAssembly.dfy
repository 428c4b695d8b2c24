/** Assembling the pools of one factory: candidate by candidate, from whatever values are at hand. */
module DiscoveryAssembly {
  import opened Wrappers
  import opened Words
  import opened DiscoveryTypes

  datatype Candidate = Candidate(pair: Pair, key: LookupKey)

  function PairCandidates(f: Factory, pair: Pair): seq<Candidate> {
    seq(|Keys(f)|, i requires 0 <= i < |Keys(f)| => Candidate(pair, Keys(f)[i]))
  }

  function Candidates(f: Factory, pairs: seq<Pair>): seq<Candidate> {
    if pairs == [] then [] else Candidates(f, pairs[..|pairs| - 1]) + PairCandidates(f, pairs[|pairs| - 1])
  }

  /** Probe the candidates in turn until one fails. */
  function Assemble(env: Environment, f: Factory, values: map<Read, nat>, candidates: seq<Candidate>,
                    verified: bool): Run<seq<Pool>> {
    if candidates == [] then Run(Ok([]), verified)
    else AddProbe(env, f, values, Assemble(env, f, values, candidates[..|candidates| - 1], verified),
                  candidates[|candidates| - 1])
  }

  function AddProbe(env: Environment, f: Factory, values: map<Read, nat>, before: Run<seq<Pool>>,
                    next: Candidate): Run<seq<Pool>> {
    if before.result.Err? then before
    else
      var probe := ProbeKey(env, f, values, next.pair, next.key, before.verified);
      match probe.result
      case Err(e) => Run(Err(e), probe.verified)
      case Ok(None) => Run(before.result, probe.verified)
      case Ok(Some(pool)) => Run(Ok(before.result.value + [pool]), probe.verified)
  }

  lemma AssembleOneMore(env: Environment, f: Factory, values: map<Read, nat>, candidates: seq<Candidate>,
                        next: Candidate, verified: bool)
    ensures Assemble(env, f, values, candidates + [next], verified) ==
            AddProbe(env, f, values, Assemble(env, f, values, candidates, verified), next)
  {
    assert (candidates + [next])[..|candidates|] == candidates;
  }

  /** Run on from a partial result. */
  function Onward(before: Run<seq<Pool>>, more: Run<seq<Pool>>): Run<seq<Pool>> {
    if before.result.Err? then before
    else if more.result.Err? then more
    else Run(Ok(before.result.value + more.result.value), more.verified)
  }

  /** Assembling a concatenation is assembling one part after the other. */
  lemma {:induction false} AssembleConcat(env: Environment, f: Factory, values: map<Read, nat>, a: seq<Candidate>,
                                          b: seq<Candidate>, verified: bool)
    ensures var before := Assemble(env, f, values, a, verified);
            Assemble(env, f, values, a + b, verified) == Onward(before, Assemble(env, f, values, b, before.verified))
  {
    hide ProbeKey;
    if b == [] {
      assert a + b == a;
      var before := Assemble(env, f, values, a, verified);
      assert before.result.Ok? ==> before.result.value + [] == before.result.value;
    } else {
      var front, last := b[..|b| - 1], b[|b| - 1];
      assert a + b == (a + front) + [last] && b == front + [last];
      hide Assemble;
      AssembleConcat(env, f, values, a, front, verified);
      AssembleOneMore(env, f, values, a + front, last, verified);
      AssembleOneMore(env, f, values, front, last, Assemble(env, f, values, a, verified).verified);
      OnwardProbe(env, f, values, Assemble(env, f, values, a, verified),
                  Assemble(env, f, values, front, Assemble(env, f, values, a, verified).verified), last);
    }
  }

  lemma OnwardProbe(env: Environment, f: Factory, values: map<Read, nat>, before: Run<seq<Pool>>, more: Run<seq<Pool>>,
                    next: Candidate)
    ensures AddProbe(env, f, values, Onward(before, more), next) == Onward(before, AddProbe(env, f, values, more, next))
  {
    hide ProbeKey;
    var probe := ProbeKey(env, f, values, next.pair, next.key, more.verified);
    if before.result.Ok? && more.result.Ok? && probe.result.Ok? && probe.result.value.Some? {
      assert before.result.value + more.result.value + [probe.result.value.value]
          == before.result.value + (more.result.value + [probe.result.value.value]);
    }
  }

  /** The driver's loop over pairs and keys. */
  method AssemblePairs(env: Environment, f: Factory, pairs: seq<Pair>, values: map<Read, nat>, verified: bool)
      returns (run: Run<seq<Pool>>)
    ensures run == Assemble(env, f, values, Candidates(f, pairs), verified)
  {
    hide ProbeKey, Keys;
    var keys := Keys(f);
    run := Run(Ok([]), verified);
    assert run == Assemble(env, f, values, Candidates(f, pairs[..0]), verified);
    hide Assemble, Candidates;
    for i := 0 to |pairs|
      invariant run == Assemble(env, f, values, Candidates(f, pairs[..i]), verified)
      invariant run.result.Ok?
    {
      OneMorePair(f, pairs, i);
      ghost var before := Candidates(f, pairs[..i]);
      ghost var here := PairCandidates(f, pairs[i]);
      assert before + here[..0] == before;
      for j := 0 to |keys|
        invariant run == Assemble(env, f, values, before + here[..j], verified)
        invariant run.result.Ok?
      {
        assert before + here[..j + 1] == (before + here[..j]) + [here[j]];
        AssembleOneMore(env, f, values, before + here[..j], here[j], verified);
        var probe := ProbeKey(env, f, values, pairs[i], keys[j], run.verified);
        match probe.result {
          case Err(e) =>
            run := Run(Err(e), probe.verified);
            StopsHere(env, f, values, before, here, pairs, i, j, verified);
            return;
          case Ok(None) =>
            run := Run(run.result, probe.verified);
          case Ok(Some(pool)) =>
            run := Run(Ok(run.result.value + [pool]), probe.verified);
        }
      }
      assert here[..|keys|] == here;
    }
    assert pairs[..|pairs|] == pairs;
  }

  lemma OneMorePair(f: Factory, pairs: seq<Pair>, i: nat)
    requires i < |pairs|
    ensures Candidates(f, pairs[..i + 1]) == Candidates(f, pairs[..i]) + PairCandidates(f, pairs[i])
  {
    assert pairs[..i + 1][..i] == pairs[..i];
  }

  /** The first failure is the answer, whatever candidates are left. */
  lemma StopsHere(env: Environment, f: Factory, values: map<Read, nat>, before: seq<Candidate>, here: seq<Candidate>,
                  pairs: seq<Pair>, i: nat, j: nat, verified: bool)
    requires i < |pairs| && before == Candidates(f, pairs[..i]) && here == PairCandidates(f, pairs[i]) && j < |here|
    requires Assemble(env, f, values, before + here[..j + 1], verified).result.Err?
    ensures Assemble(env, f, values, Candidates(f, pairs), verified)
            == Assemble(env, f, values, before + here[..j + 1], verified)
  {
    hide Assemble, Candidates, PairCandidates;
    CandidatesSplit(f, pairs, i);
    var rest := here[j + 1..] + Candidates(f, pairs[i + 1..]);
    assert Candidates(f, pairs) == (before + here[..j + 1]) + rest;
    AssembleConcat(env, f, values, before + here[..j + 1], rest, verified);
  }

  lemma {:induction false} CandidatesConcat(f: Factory, a: seq<Pair>, b: seq<Pair>)
    ensures Candidates(f, a + b) == Candidates(f, a) + Candidates(f, b)
  {
    if b == [] {
      assert a + b == a;
    } else {
      assert (a + b)[..|a + b| - 1] == a + b[..|b| - 1];
      CandidatesConcat(f, a, b[..|b| - 1]);
    }
  }

  lemma CandidatesSplit(f: Factory, pairs: seq<Pair>, i: nat)
    requires i < |pairs|
    ensures Candidates(f, pairs) == Candidates(f, pairs[..i]) + PairCandidates(f, pairs[i])
            + Candidates(f, pairs[i + 1..])
  {
    assert pairs == pairs[..i + 1] + pairs[i + 1..];
    CandidatesConcat(f, pairs[..i + 1], pairs[i + 1..]);
    assert pairs[..i + 1][..i] == pairs[..i];
  }

  // --------------------------------------------------- which slots assembly depends on

  /** Two sets of answers that agree on some reads. */
  predicate AgreeOn(a: map<Read, nat>, b: map<Read, nat>, asked: set<Read>) {
    forall r | r in asked :: r in a && r in b && a[r] == b[r]
  }

  /** The answers a probe of one key looks at. */
  predicate SameAnswers(env: Environment, f: Factory, a: map<Read, nat>, b: map<Read, nat>, pair: Pair,
                        key: LookupKey) {
    && PoolRead(env, f, pair, key) in a && PoolRead(env, f, pair, key) in b
    && a[PoolRead(env, f, pair, key)] == b[PoolRead(env, f, pair, key)]
    && (f.keying.ByFee? ==>
          ValueOr0(a, Read(f.address, env.feeSlot(f.keying.spacingBase, key)))
              == ValueOr0(b, Read(f.address, env.feeSlot(f.keying.spacingBase, key))))
    && (f.feeSource.FactoryMapping? && (key.Fee? || key.TickSpacing?) ==>
          ValueOr0(a, Read(f.address, env.feeSlot(f.feeSource.base, key)))
              == ValueOr0(b, Read(f.address, env.feeSlot(f.feeSource.base, key))))
  }

  lemma AnswersRequested(env: Environment, f: Factory, a: map<Read, nat>, b: map<Read, nat>, pairs: seq<Pair>,
                         pair: Pair, key: LookupKey)
    requires ReadsClosed(f) && pair in pairs && key in Keys(f) && AgreeOn(a, b, CandidateReads(env, f, pairs))
    ensures SameAnswers(env, f, a, b, pair, key)
  {
    assert PoolRead(env, f, pair, key) in CandidateReads(env, f, pairs);
    if f.keying.ByFee? {
      assert Read(f.address, env.feeSlot(f.keying.spacingBase, key)) in CandidateReads(env, f, pairs);
    }
    if f.keying.BySpacing? && f.feeSource.FactoryMapping? {
      assert Read(f.address, env.feeSlot(f.feeSource.base, key)) in CandidateReads(env, f, pairs);
    }
  }

  lemma ProbeAgrees(env: Environment, f: Factory, a: map<Read, nat>, b: map<Read, nat>, pair: Pair, key: LookupKey,
                    verified: bool)
    requires SameAnswers(env, f, a, b, pair, key)
    ensures ProbeKey(env, f, a, pair, key, verified) == ProbeKey(env, f, b, pair, key, verified)
  {
    hide EnsureDerivation, KeyProtocol, I24FromWord, U32FromWord, AddressFromWord, PoolRead, ValueOr0;
  }

  lemma {:induction false} AssembleAgrees(env: Environment, f: Factory, a: map<Read, nat>, b: map<Read, nat>,
                                          pairs: seq<Pair>, candidates: seq<Candidate>, verified: bool)
    requires ReadsClosed(f) && AgreeOn(a, b, CandidateReads(env, f, pairs))
    requires forall c | c in candidates :: c.pair in pairs && c.key in Keys(f)
    ensures Assemble(env, f, a, candidates, verified) == Assemble(env, f, b, candidates, verified)
  {
    hide ProbeKey, CandidateReads, Keys, ReadsClosed, AgreeOn, SameAnswers;
    if candidates != [] {
      var last := candidates[|candidates| - 1];
      AssembleAgrees(env, f, a, b, pairs, candidates[..|candidates| - 1], verified);
      AnswersRequested(env, f, a, b, pairs, last.pair, last.key);
      ProbeAgrees(env, f, a, b, last.pair, last.key,
                  Assemble(env, f, a, candidates[..|candidates| - 1], verified).verified);
    }
  }

  lemma {:induction false} CandidatesAreOfPairs(f: Factory, pairs: seq<Pair>)
    ensures forall c | c in Candidates(f, pairs) :: c.pair in pairs && c.key in Keys(f)
  {
    hide Keys;
    if pairs != [] {
      CandidatesAreOfPairs(f, pairs[..|pairs| - 1]);
      forall c | c in PairCandidates(f, pairs[|pairs| - 1]) ensures c.pair in pairs && c.key in Keys(f) {
        assert c.pair == pairs[|pairs| - 1];
      }
    }
  }

  /** A closed driver depends on nothing but the slots it asked for. */
  lemma ClosedDependsOnRequested(env: Environment, f: Factory, a: map<Read, nat>, b: map<Read, nat>, pairs: seq<Pair>,
                                 verified: bool)
    requires ReadsClosed(f) && AgreeOn(a, b, CandidateReads(env, f, pairs))
    ensures Assemble(env, f, a, Candidates(f, pairs), verified) == Assemble(env, f, b, Candidates(f, pairs), verified)
  {
    CandidatesAreOfPairs(f, pairs);
    AssembleAgrees(env, f, a, b, pairs, Candidates(f, pairs), verified);
  }

  // ------------------------------------------- a driver that reads more than it asks for

  /** Where a factory keeps a detail of a key: its tick spacing or its fee. */
  function DetailRead(env: Environment, f: Factory, base: nat, key: LookupKey): Read {
    Read(f.address, env.feeSlot(base, key))
  }

  /** The pool address the derivation check asks for; any address will do when it checks nothing. */
  function Expected(env: Environment, f: Factory, pair: Pair, key: LookupKey): Address {
    if f.verify && f.create2.Some? then DerivedAddress(env, f, pair, key) else 1
  }

  /**
   The hashes keep the slots of one key apart, as storage hashing does: its fee is not
   where the driver looks for anything else, its pool is not where the pair's other pools
   or its tick spacing are, and its derived pool is an address other than zero.
   */
  predicate CollisionFree(env: Environment, f: Factory, pair: Pair, key: LookupKey)
    requires f.keying.ByFee? && f.feeSource.FactoryMapping?
  {
    && DetailRead(env, f, f.feeSource.base, key) !in CandidateReads(env, f, [pair])
    && (forall k | k in Keys(f) && k != key :: PoolRead(env, f, pair, k) != PoolRead(env, f, pair, key))
    && (forall k | k in Keys(f) :: PoolRead(env, f, pair, k) != DetailRead(env, f, f.keying.spacingBase, key))
    && 0 < Expected(env, f, pair, key) < ADDRESS_LIMIT
  }

  /** Storage in which the pair has one pool, under the key, with tick spacing 1 and fee 5. */
  function OnePoolWord(env: Environment, f: Factory, pair: Pair, key: LookupKey, r: Read): nat
    requires f.keying.ByFee? && f.feeSource.FactoryMapping?
  {
    if r == PoolRead(env, f, pair, key) then Expected(env, f, pair, key)
    else if r == DetailRead(env, f, f.keying.spacingBase, key) then 1
    else if r == DetailRead(env, f, f.feeSource.base, key) then 5
    else 0
  }

  /** The pool such storage describes, as seen by an assembly that reads the given fee. */
  function Opened(env: Environment, f: Factory, pair: Pair, key: LookupKey, fee: nat): Pool {
    Pool(PoolKey(KeyProtocol(f), Expected(env, f, pair, key)), f, pair, if fee != 0 then Some(fee)
         else None, Some(1), None)
  }

  /** The requested words are as in that storage, and the fee's word reads as the given fee. */
  predicate OnePoolAnswers(env: Environment, f: Factory, pair: Pair, key: LookupKey, values: map<Read, nat>, fee: nat)
    requires f.keying.ByFee? && f.feeSource.FactoryMapping?
  {
    && (forall r | r in CandidateReads(env, f, [pair]) :: r in values && values[r] == OnePoolWord(env, f, pair, key, r))
    && ValueOr0(values, DetailRead(env, f, f.feeSource.base, key)) == fee
  }

  /**
   A driver that is not closed does depend on more. Whatever the hashes, as long as they
   do not collide for one of its keys, there are answers and an unrequested value that
   change the pool it assembles.
   */
  lemma OpenDependsOnMore(env: Environment, f: Factory, pair: Pair, key: LookupKey)
    returns (a: map<Read, nat>, b: map<Read, nat>)
    requires !ReadsClosed(f) && key in Keys(f) && CollisionFree(env, f, pair, key)
    ensures AgreeOn(a, b, CandidateReads(env, f, [pair]))
    ensures Assemble(env, f, a, Candidates(f, [pair]), false).result.Ok?
    ensures Assemble(env, f, a, Candidates(f, [pair]), false) != Assemble(env, f, b, Candidates(f, [pair]), false)
  {
    a := map r | r in CandidateReads(env, f, [pair]) :: OnePoolWord(env, f, pair, key, r);
    b := a[DetailRead(env, f, f.feeSource.base, key) := 5];
    UnrequestedFee(env, f, pair, key, a, b);
    hide Assemble, CandidateReads, OnePoolAnswers, CollisionFree, ReadsClosed, Keys, Candidates;
    OnePoolFound(env, f, pair, key, a, 0);
    OnePoolFound(env, f, pair, key, b, 5);
  }

  lemma UnrequestedFee(env: Environment, f: Factory, pair: Pair, key: LookupKey, a: map<Read, nat>, b: map<Read, nat>)
    requires f.keying.ByFee? && f.feeSource.FactoryMapping? && CollisionFree(env, f, pair, key)
    requires a == map r | r in CandidateReads(env, f, [pair]) :: OnePoolWord(env, f, pair, key, r)
    requires b == a[DetailRead(env, f, f.feeSource.base, key) := 5]
    ensures OnePoolAnswers(env, f, pair, key, a, 0) && OnePoolAnswers(env, f, pair, key, b, 5)
    ensures AgreeOn(a, b, CandidateReads(env, f, [pair]))
  {
    hide CandidateReads, OnePoolWord, PoolRead, DetailRead;
  }

  predicate StartsWith(result: Result<seq<Pool>, Error>, pool: Pool) {
    result.Ok? && result.value != [] && result.value[0] == pool
  }

  lemma OnePoolFound(env: Environment, f: Factory, pair: Pair, key: LookupKey, values: map<Read, nat>, fee: nat)
    requires !ReadsClosed(f) && key in Keys(f) && CollisionFree(env, f, pair, key) && fee < 0x1_0000_0000
    requires OnePoolAnswers(env, f, pair, key, values, fee)
    ensures StartsWith(Assemble(env, f, values, Candidates(f, [pair]), false).result, Opened(env, f, pair, key, fee))
  {
    hide Assemble, OnePoolAnswers, CollisionFree, ReadsClosed;
    var pool := Opened(env, f, pair, key, fee);
    var all := PairCandidates(f, pair);
    OnePair(f, pair);
    forall k, v | k in Keys(f)
      ensures ProbeKey(env, f, values, pair, k, v).result == Ok(if k == key then Some(pool) else None)
    {
      OneKeyProbe(env, f, pair, key, values, fee, k, v);
    }
    var i :| 0 <= i < |Keys(f)| && Keys(f)[i] == key;
    assert all[i] == Candidate(pair, key);
    hide ProbeKey, Keys, Opened;
    OnlyThisPool(env, f, values, all, pair, key, pool);
  }

  lemma OneKeyProbe(env: Environment, f: Factory, pair: Pair, key: LookupKey, values: map<Read, nat>, fee: nat,
                    k: LookupKey, v: bool)
    requires !ReadsClosed(f) && key in Keys(f) && CollisionFree(env, f, pair, key) && fee < 0x1_0000_0000
    requires OnePoolAnswers(env, f, pair, key, values, fee) && k in Keys(f)
    ensures ProbeKey(env, f, values, pair, k, v).result
            == Ok(if k == key then Some(Opened(env, f, pair, key, fee)) else None)
  {
    hide ProbeKey, KeyProtocol, Expected;
    assert PoolRead(env, f, pair, k) in CandidateReads(env, f, [pair]);
    assert DetailRead(env, f, f.keying.spacingBase, k) in CandidateReads(env, f, [pair]);
    hide CandidateReads;
    if k == key {
      assert OnePoolWord(env, f, pair, key, DetailRead(env, f, f.keying.spacingBase, key)) == 1;
      FoundProbe(env, f, pair, key, values, fee, v);
    } else {
      assert OnePoolWord(env, f, pair, key, PoolRead(env, f, pair, k)) == 0;
      EmptyProbe(env, f, pair, k, values, v);
    }
  }

  lemma EmptyProbe(env: Environment, f: Factory, pair: Pair, k: LookupKey, values: map<Read, nat>, v: bool)
    requires PoolRead(env, f, pair, k) in values && values[PoolRead(env, f, pair, k)] == 0
    ensures ProbeKey(env, f, values, pair, k, v).result == Ok(None)
  {
    hide PoolRead, Registered, EnsureDerivation;
  }

  lemma FoundProbe(env: Environment, f: Factory, pair: Pair, key: LookupKey, values: map<Read, nat>, fee: nat, v: bool)
    requires f.keying.ByFee? && f.feeSource.FactoryMapping? && key.Fee? && fee < 0x1_0000_0000
    requires PoolRead(env, f, pair, key) in values && values[PoolRead(env, f, pair, key)] == Expected(env, f, pair, key)
    requires 0 < Expected(env, f, pair, key) < ADDRESS_LIMIT
    requires ValueOr0(values, DetailRead(env, f, f.keying.spacingBase, key)) == 1
    requires ValueOr0(values, DetailRead(env, f, f.feeSource.base, key)) == fee
    ensures ProbeKey(env, f, values, pair, key, v).result == Ok(Some(Opened(env, f, pair, key, fee)))
  {
    hide PoolRead, ValueOr0, KeyProtocol, DerivedAddress;
  }

  /** If only the probes of one key find a pool, the assembled list starts with that pool. */
  lemma {:induction false} OnlyThisPool(env: Environment, f: Factory, values: map<Read, nat>,
                                        candidates: seq<Candidate>, pair: Pair, key: LookupKey, pool: Pool)
    requires forall c | c in candidates :: c.pair == pair
    requires forall c, v | c in candidates ::
               ProbeKey(env, f, values, pair, c.key, v).result == Ok(if c.key == key then Some(pool) else None)
    ensures var result := Assemble(env, f, values, candidates, false).result;
            && result.Ok?
            && (forall p | p in result.value :: p == pool)
            && (Candidate(pair, key) in candidates ==> StartsWith(result, pool))
  {
    hide ProbeKey;
    if candidates != [] {
      OnlyThisPool(env, f, values, candidates[..|candidates| - 1], pair, key, pool);
      var front, last := candidates[..|candidates| - 1], candidates[|candidates| - 1];
      assert last in candidates && last == Candidate(pair, last.key);
      assert Candidate(pair, key) in candidates ==> Candidate(pair, key) in front || last.key == key;
      var found := Assemble(env, f, values, candidates, false).result.value;
      assert found != [] ==> found[0] in found;
    }
  }

  lemma OnePair(f: Factory, pair: Pair)
    ensures Candidates(f, [pair]) == PairCandidates(f, pair)
  {
    assert [pair][..0] == [];
    assert Candidates(f, [pair][..0]) == [];
  }
}
