/**
 Locating each token's cash by value. The probe knows the warmed vault words and the
 balance of every token, and trusts a field only when it is the one candidate that
 holds the balance.
 */
module BalancerProbe {
  import opened Wrappers
  import opened Words
  import opened PackedCash
  import opened ColdStartTypes
  import opened BalancerSwaps

  /** A field the probe may look at: warm, on the vault, and high only where high holds cash. */
  predicate Candidate(slots: seq<Slot>, vault: Address, view: View, highIsCash: bool, at: Location) {
    Slot(vault, at.key) in slots && view(Slot(vault, at.key)).Some? && (at.high ==> highIsCash)
  }

  /** A candidate field that holds the balance. */
  predicate Holding(slots: seq<Slot>, vault: Address, view: View, highIsCash: bool, balance: Word, at: Location) {
    Candidate(slots, vault, view, highIsCash, at) && CashField(view(Slot(vault, at.key)).value, at.high) == balance
  }

  /** The matching fields of one warmed slot, low before high. */
  function MatchesAt(slot: Slot, vault: Address, view: View, highIsCash: bool, balance: Word): seq<Location> {
    if slot.address != vault || view(slot).None? then []
    else
      (if CashField(view(slot).value, false) == balance then [Location(slot.key, false)] else [])
      + (if highIsCash && CashField(view(slot).value, true) == balance then [Location(slot.key, true)] else [])
  }

  /** The matching fields of all the slots, in order. */
  function Matches(slots: seq<Slot>, vault: Address, view: View, highIsCash: bool, balance: Word): seq<Location> {
    if slots == [] then []
    else
      Matches(slots[..|slots| - 1], vault, view, highIsCash, balance)
      + MatchesAt(slots[|slots| - 1], vault, view, highIsCash, balance)
  }

  /** Only a unique match of a non-zero balance is trusted. */
  function Located(slots: seq<Slot>, vault: Address, view: View, highIsCash: bool, balance: Word): Option<Location> {
    var matches := Matches(slots, vault, view, highIsCash, balance);
    if balance != 0 && |matches| == 1 then Some(matches[0]) else None
  }

  /** The probed list of the first `n` tokens. */
  function Probed(tokens: seq<Token>, balances: seq<Word>, n: nat, slots: seq<Slot>, vault: Address, view: View,
                  highIsCash: bool): seq<TokenCash>
    requires n <= |tokens| && n <= |balances|
  {
    if n == 0 then []
    else
      var at := Located(slots, vault, view, highIsCash, balances[n - 1]);
      Probed(tokens, balances, n - 1, slots, vault, view, highIsCash)
          + (if at.Some? then [TokenCash(tokens[n - 1], at.value)] else [])
  }

  function Paired(tokens: seq<Token>, balances: seq<Word>): (n: nat)
    ensures n <= |tokens| && n <= |balances|
  {
    if |tokens| <= |balances| then |tokens| else |balances|
  }

  /** Collect the matching fields slot by slot. */
  method FindMatches(slots: seq<Slot>, vault: Address, view: View, highIsCash: bool, balance: Word)
      returns (matches: seq<Location>)
    ensures matches == Matches(slots, vault, view, highIsCash, balance)
  {
    hide CashField;
    matches := [];
    for j := 0 to |slots|
      invariant matches == Matches(slots[..j], vault, view, highIsCash, balance)
    {
      assert slots[..j + 1][..j] == slots[..j];
      if slots[j].address == vault && view(slots[j]).Some? {
        var word := view(slots[j]).value;
        var found := [];
        if CashField(word, false) == balance {
          found := found + [Location(slots[j].key, false)];
        }
        if highIsCash && CashField(word, true) == balance {
          found := found + [Location(slots[j].key, true)];
        }
        matches := matches + found;
      }
    }
    assert slots[..|slots|] == slots;
  }

  method ProbeTokenCash(tokens: seq<Token>, balances: seq<Word>, slots: seq<Slot>, vault: Address, view: View,
                        highIsCash: bool)
    returns (located: seq<TokenCash>)
    ensures located == Probed(tokens, balances, Paired(tokens, balances), slots, vault, view, highIsCash)
  {
    hide Matches;
    located := [];
    for k := 0 to Paired(tokens, balances)
      invariant located == Probed(tokens, balances, k, slots, vault, view, highIsCash)
    {
      if balances[k] != 0 {
        var matches := FindMatches(slots, vault, view, highIsCash, balances[k]);
        if |matches| == 1 {
          located := located + [TokenCash(tokens[k], matches[0])];
        }
      }
    }
  }

  // ------------------------------------------------------------------- what it finds

  /** The matches are exactly the candidate fields that hold the balance. */
  lemma {:induction false} MatchesAreHolding(slots: seq<Slot>, vault: Address, view: View, highIsCash: bool,
                                             balance: Word, at: Location)
    ensures at in Matches(slots, vault, view, highIsCash, balance)
            <==> Holding(slots, vault, view, highIsCash, balance, at)
  {
    hide CashField;
    if slots != [] {
      var front, last := slots[..|slots| - 1], slots[|slots| - 1];
      MatchesAreHolding(front, vault, view, highIsCash, balance, at);
      assert slots == front + [last];
      assert at in MatchesAt(last, vault, view, highIsCash, balance)
          <==> Holding([last], vault, view, highIsCash, balance, at);
    }
  }

  /** No slot is listed twice. */
  predicate NoRepeats(slots: seq<Slot>) {
    forall i, j | 0 <= i < j < |slots| :: slots[i] != slots[j]
  }

  predicate NoRepeatedLocation(locations: seq<Location>) {
    forall i, j | 0 <= i < j < |locations| :: locations[i] != locations[j]
  }

  lemma {:induction false} MatchesDistinct(slots: seq<Slot>, vault: Address, view: View, highIsCash: bool,
                                           balance: Word)
    requires NoRepeats(slots)
    ensures NoRepeatedLocation(Matches(slots, vault, view, highIsCash, balance))
  {
    hide CashField;
    if slots != [] {
      var front, last := slots[..|slots| - 1], slots[|slots| - 1];
      MatchesDistinct(front, vault, view, highIsCash, balance);
      var m, n := Matches(front, vault, view, highIsCash, balance), MatchesAt(last, vault, view, highIsCash, balance);
      forall i, j | 0 <= i < |m| && 0 <= j < |n| ensures m[i] != n[j] {
        assert m[i] in m;
        MatchesAreHolding(front, vault, view, highIsCash, balance, m[i]);
        assert Slot(vault, n[j].key) == last;
      }
      assert NoRepeatedLocation(n);
    }
  }

  /** A location is returned exactly when it is the only candidate that holds a non-zero balance. */
  lemma LocatedIffUnique(slots: seq<Slot>, vault: Address, view: View, highIsCash: bool, balance: Word, at: Location)
    requires NoRepeats(slots)
    ensures Located(slots, vault, view, highIsCash, balance) == Some(at) <==>
            && balance != 0
            && Holding(slots, vault, view, highIsCash, balance, at)
            && forall other :: Holding(slots, vault, view, highIsCash, balance, other) ==> other == at
  {
    hide Holding, Matches;
    var m := Matches(slots, vault, view, highIsCash, balance);
    MatchesDistinct(slots, vault, view, highIsCash, balance);
    forall other ensures other in m <==> Holding(slots, vault, view, highIsCash, balance, other) {
      MatchesAreHolding(slots, vault, view, highIsCash, balance, other);
    }
    if |m| >= 2 {
      assert m[0] in m && m[1] in m && m[0] != m[1];
    } else if |m| == 1 {
      assert m[0] in m;
    }
  }

  /** Whatever the slots, a location returned is one that holds the balance, and none other does. */
  lemma LocatedHolds(slots: seq<Slot>, vault: Address, view: View, highIsCash: bool, balance: Word, at: Location)
    requires Located(slots, vault, view, highIsCash, balance).Some?
            && Holding(slots, vault, view, highIsCash, balance, at)
    ensures Located(slots, vault, view, highIsCash, balance).value == at
  {
    MatchesAreHolding(slots, vault, view, highIsCash, balance, at);
  }

  // -------------------------------------------------------------------- soundness

  /** Every token's true cash field is a candidate and holds the balance reported for it. */
  predicate Reported(tokens: seq<Token>, balances: seq<Word>, n: nat, slots: seq<Slot>, vault: Address, view: View,
                     highIsCash: bool, truth: map<Token, Location>)
    requires n <= |tokens| && n <= |balances|
  {
    forall k | 0 <= k < n :: tokens[k] in truth
        && Holding(slots, vault, view, highIsCash, balances[k], truth[tokens[k]])
  }

  /** Then every location the probe returns is the true one. */
  lemma {:induction false} ProbeIsTruthful(tokens: seq<Token>, balances: seq<Word>, n: nat, slots: seq<Slot>,
                                           vault: Address, view: View, highIsCash: bool, truth: map<Token, Location>)
    requires n <= |tokens| && n <= |balances|
    requires Reported(tokens, balances, n, slots, vault, view, highIsCash, truth)
    ensures Truthful(Probed(tokens, balances, n, slots, vault, view, highIsCash), truth)
  {
    hide Holding, Located;
    if n > 0 {
      ProbeIsTruthful(tokens, balances, n - 1, slots, vault, view, highIsCash, truth);
      if Located(slots, vault, view, highIsCash, balances[n - 1]).Some? {
        LocatedHolds(slots, vault, view, highIsCash, balances[n - 1], truth[tokens[n - 1]]);
      }
    }
  }

  /** So different tokens are never given the same field. */
  lemma ProbedFieldsDistinct(cash: seq<TokenCash>, truth: map<Token, Location>, t: Token, u: Token)
    requires Injective(truth) && Truthful(cash, truth) && t != u
    requires Locate(cash, t).Some? && Locate(cash, u).Some?
    ensures Locate(cash, t) != Locate(cash, u)
  {
    LocatesTruth(cash, truth, t);
    LocatesTruth(cash, truth, u);
  }

  function Stored(storage: Storage): View {
    (slot: Slot) => if slot in storage then Some(storage[slot]) else None
  }

  /** From a sound probe on, every history of swaps keeps the decoded cash equal to the ledger. */
  lemma ProbedHistoryRefinesLedger(tokens: seq<Token>, balances: seq<Word>, slots: seq<Slot>, vault: Address,
                                   storage: Storage, twoToken: bool, truth: map<Token, Location>, swaps: seq<Swap>)
    requires Injective(truth)
    requires Reported(tokens, balances, Paired(tokens, balances), slots, vault, Stored(storage), twoToken, truth)
    ensures var cash := Probed(tokens, balances, Paired(tokens, balances), slots, vault, Stored(storage), twoToken);
            Ledger(RunSwaps(storage, vault, twoToken, cash, swaps), vault, truth)
                == RunLedger(Ledger(storage, vault, truth), twoToken, cash, swaps)
  {
    hide Injective, Reported, Truthful, Probed, RunSwaps, RunLedger, Ledger;
    ProbeIsTruthful(tokens, balances, Paired(tokens, balances), slots, vault, Stored(storage), twoToken, truth);
    HistoryRefinesLedger(storage, vault, twoToken,
                         Probed(tokens, balances, Paired(tokens, balances), slots, vault, Stored(storage), twoToken),
                         truth, swaps);
  }
}
