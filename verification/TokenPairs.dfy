/** Expanding a token basket into the pairs a discovery query asks for. */
module TokenPairs {
  import opened Words
  import opened Sorting
  import opened DiscoveryTypes

  function SortTokens(a: Address, b: Address): Pair {
    if a <= b then Pair(a, b) else Pair(b, a)
  }

  predicate PairLeq(p: Pair, q: Pair) {
    p.token0 < q.token0 || (p.token0 == q.token0 && p.token1 <= q.token1)
  }

  /** A normalised pair of two different basket tokens. */
  predicate IsPairOf(tokens: seq<Address>, p: Pair) {
    p.token0 in tokens && p.token1 in tokens && p.token0 < p.token1
  }

  /** The pairs of one token with those after it, in basket order. */
  function PairsWith(a: Address, rest: seq<Address>): seq<Pair> {
    if rest == [] then []
    else PairsWith(a, rest[..|rest| - 1]) + (if a != rest[|rest| - 1] then [SortTokens(a, rest[|rest| - 1])] else [])
  }

  function AllPairs(tokens: seq<Address>, n: nat): seq<Pair>
    requires n <= |tokens|
  {
    if n == 0 then [] else AllPairs(tokens, n - 1) + PairsWith(tokens[n - 1], tokens[n..])
  }

  lemma {:induction false} PairsWithAre(a: Address, rest: seq<Address>, p: Pair)
    ensures p in PairsWith(a, rest) <==> exists b :: b in rest && b != a && p == SortTokens(a, b)
  {
    if rest != [] {
      var front, last := rest[..|rest| - 1], rest[|rest| - 1];
      PairsWithAre(a, front, p);
      assert rest == front + [last];
    }
  }

  lemma {:induction false} AllPairsAre(tokens: seq<Address>, n: nat, p: Pair)
    requires n <= |tokens|
    ensures p in AllPairs(tokens, n)
            <==> exists i, j ::
              0 <= i < n && i < j < |tokens| && tokens[i] != tokens[j]
              && p == SortTokens(tokens[i], tokens[j])
  {
    hide SortTokens, PairsWith;
    if n > 0 {
      AllPairsAre(tokens, n - 1, p);
      PairsWithAre(tokens[n - 1], tokens[n..], p);
      if p in PairsWith(tokens[n - 1], tokens[n..]) {
        var b :| b in tokens[n..] && b != tokens[n - 1] && p == SortTokens(tokens[n - 1], b);
        var j :| n <= j < |tokens| && tokens[j] == b;
        assert tokens[n - 1] != tokens[j] && p == SortTokens(tokens[n - 1], tokens[j]);
      }
      if i, j :| 0 <= i < n && i < j < |tokens| && tokens[i] != tokens[j] && p == SortTokens(tokens[i], tokens[j]) {
        if i == n - 1 {
          assert tokens[j] in tokens[n..];
        }
      }
    }
  }

  /** The listed pairs are the normalised pairs of different tokens. */
  lemma ListedExactly(tokens: seq<Address>, p: Pair)
    ensures p in AllPairs(tokens, |tokens|) <==> IsPairOf(tokens, p)
  {
    AllPairsAre(tokens, |tokens|, p);
    if IsPairOf(tokens, p) {
      var i :| 0 <= i < |tokens| && tokens[i] == p.token0;
      var j :| 0 <= j < |tokens| && tokens[j] == p.token1;
      assert p == SortTokens(tokens[i], tokens[j]) == SortTokens(tokens[j], tokens[i]);
    }
  }

  lemma PairOrder()
    ensures TotalPreorder(PairLeq)
    ensures forall p, q :: PairLeq(p, q) && PairLeq(q, p) ==> p == q
  {
  }

  /** Every unordered pair of different basket tokens, once, in order. */
  method PairsAmong(tokens: seq<Address>) returns (pairs: seq<Pair>)
    ensures forall p :: p in pairs <==> IsPairOf(tokens, p)
    ensures forall i, j | 0 <= i < j < |pairs| :: pairs[i] != pairs[j] && PairLeq(pairs[i], pairs[j])
    ensures Distinct(tokens) ==> 2 * |pairs| == |tokens| * (|tokens| - 1)
  {
    var listed: seq<Pair> := [];
    for i := 0 to |tokens|
      invariant listed == AllPairs(tokens, i)
    {
      var rest := tokens[i + 1..];
      ghost var before := listed;
      assert before + [] == before;
      for j := 0 to |rest|
        invariant listed == before + PairsWith(tokens[i], rest[..j])
      {
        assert rest[..j + 1][..j] == rest[..j];
        if tokens[i] != rest[j] {
          listed := listed + [SortTokens(tokens[i], rest[j])];
        }
      }
      assert rest[..|rest|] == rest;
    }
    PairOrder();
    CanonicalIsStable(listed, PairLeq);
    CanonicalStrict(listed);
    forall p ensures p in listed <==> IsPairOf(tokens, p) {
      ListedExactly(tokens, p);
    }
    pairs := Canonical(listed, PairLeq);
    if Distinct(tokens) {
      PairCount(tokens);
      NoRepeatsCount(pairs);
      assert (set p | p in pairs) == PairSet(tokens);
    }
  }

  lemma CanonicalStrict(listed: seq<Pair>)
    ensures var c := Canonical(listed, PairLeq);
            forall i, j | 0 <= i < j < |c| :: c[i] != c[j] && PairLeq(c[i], c[j])
  {
    PairOrder();
    StableSortSorts(listed, PairLeq);
    DedupFacts(StableSort(listed, PairLeq), PairLeq);
    var c := Canonical(listed, PairLeq);
    forall i, j | 0 <= i < j < |c| ensures c[i] != c[j] {
      assert PairLeq(c[i], c[i + 1]) && c[i] != c[i + 1];
      assert i + 1 == j || PairLeq(c[i + 1], c[j]);
    }
  }

  // ------------------------------------------------------------------------ counting

  predicate Distinct(tokens: seq<Address>) {
    forall i, j | 0 <= i < j < |tokens| :: tokens[i] != tokens[j]
  }

  ghost function PairSet(tokens: seq<Address>): set<Pair> {
    set a, b | a in tokens && b in tokens && a < b :: Pair(a, b)
  }

  ghost function NewPairs(tokens: seq<Address>, a: Address): set<Pair> {
    set b | b in tokens :: SortTokens(a, b)
  }

  lemma {:induction false} NewPairCount(tokens: seq<Address>, a: Address)
    requires Distinct(tokens)
    ensures |NewPairs(tokens, a)| == |tokens|
  {
    if tokens != [] {
      var front, last := tokens[..|tokens| - 1], tokens[|tokens| - 1];
      NewPairCount(front, a);
      assert NewPairs(tokens, a) == NewPairs(front, a) + {SortTokens(a, last)};
      assert SortTokens(a, last) !in NewPairs(front, a);
    }
  }

  lemma Triangle(n: int)
    ensures (n + 1) * n == n * (n - 1) + 2 * n
  {
  }

  lemma NoTokens()
    ensures PairSet([]) == {}
  {
  }

  /** n distinct tokens have n(n-1)/2 pairs. */
  lemma {:induction false} PairCount(tokens: seq<Address>)
    requires Distinct(tokens)
    ensures 2 * |PairSet(tokens)| == |tokens| * (|tokens| - 1)
  {
    hide PairSet, NewPairs;
    if tokens == [] {
      NoTokens();
    } else {
      var front, last := tokens[..|tokens| - 1], tokens[|tokens| - 1];
      assert tokens == front + [last] && Distinct(front) && last !in front;
      PairCount(front);
      NewPairCount(front, last);
      PairsGrow(front, last);
      Disjoint(PairSet(front), NewPairs(front, last));
      Triangle(|front|);
    }
  }

  lemma Disjoint(a: set<Pair>, b: set<Pair>)
    requires a !! b
    ensures |a + b| == |a| + |b|
  {
  }

  lemma PairsGrow(front: seq<Address>, last: Address)
    requires last !in front
    ensures PairSet(front + [last]) == PairSet(front) + NewPairs(front, last)
    ensures PairSet(front) !! NewPairs(front, last)
  {
    forall p ensures p in PairSet(front + [last]) <==> p in PairSet(front) || p in NewPairs(front, last) {
      if p in PairSet(front + [last]) && p !in PairSet(front) {
        var b := if p.token0 == last then p.token1 else p.token0;
        assert b in front && p == SortTokens(last, b);
      }
    }
  }

  lemma {:induction false} NoRepeatsCount(pairs: seq<Pair>)
    requires forall i, j | 0 <= i < j < |pairs| :: pairs[i] != pairs[j]
    ensures |set p | p in pairs| == |pairs|
  {
    if pairs != [] {
      var front, last := pairs[..|pairs| - 1], pairs[|pairs| - 1];
      NoRepeatsCount(front);
      assert (set p | p in pairs) == (set p | p in front) + {last};
    }
  }
}
