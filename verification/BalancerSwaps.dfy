/**
 Event-sourced Balancer swaps. The reactive path rewrites packed vault words in place;
 what it refines is a ledger from token to cash, in which a swap adds one amount and
 subtracts another.
 */
module BalancerSwaps {
  import opened Wrappers
  import opened Words
  import opened PackedCash
  import opened ColdStartTypes

  type Token = nat

  type Storage = map<Slot, Word>

  /** Where a token's cash lives: a vault slot, and which 112-bit field of its word. */
  datatype Location = Location(key: Word, high: bool)

  datatype TokenCash = TokenCash(token: Token, at: Location)

  datatype Swap = Swap(tokenIn: Token, amountIn: Word, tokenOut: Token, amountOut: Word)

  datatype Write = Write(slot: Slot, word: Word)

  // ------------------------------------------------------------------ the operation

  /** The first entry of the probed list that names the token. */
  function Locate(cash: seq<TokenCash>, token: Token): Option<Location> {
    if cash == [] then None
    else if cash[0].token == token then Some(cash[0].at)
    else Locate(cash[1..], token)
  }

  function Warm(storage: Storage, slot: Slot): Option<Word> {
    if slot in storage then Some(storage[slot]) else None
  }

  /** The writes of one swap, or None so that the caller resyncs instead. */
  function EventSourceSwap(storage: Storage, vault: Address, twoToken: bool, cash: seq<TokenCash>,
                           swap: Swap): Option<seq<Write>> {
    var into :- Locate(cash, swap.tokenIn);
    var from :- Locate(cash, swap.tokenOut);
    if !twoToken && (into.high || from.high) then None
    else if into.key == from.key then
      if into.high == from.high then None
      else
        // One shared word: two separate writes would clobber each other.
        var word :- Warm(storage, Slot(vault, into.key));
        var added :- ApplyCashDelta(word, into.high, true, swap.amountIn);
        var moved :- ApplyCashDelta(added, from.high, false, swap.amountOut);
        Some([Write(Slot(vault, into.key), moved)])
    else
      var wordIn :- Warm(storage, Slot(vault, into.key));
      var added :- ApplyCashDelta(wordIn, into.high, true, swap.amountIn);
      var wordOut :- Warm(storage, Slot(vault, from.key));
      var taken :- ApplyCashDelta(wordOut, from.high, false, swap.amountOut);
      Some([Write(Slot(vault, into.key), added), Write(Slot(vault, from.key), taken)])
  }

  /** The reactive cache applies the writes in order. */
  function Applied(storage: Storage, writes: seq<Write>): Storage
    decreases |writes|
  {
    if writes == [] then storage else Applied(storage[writes[0].slot := writes[0].word], writes[1..])
  }

  // --------------------------------------------------------------------- the ledger

  /** The cash of every token whose word is warm, decoded at its location. */
  function Ledger(storage: Storage, vault: Address, at: map<Token, Location>): map<Token, nat> {
    map t | t in at && Slot(vault, at[t].key) in storage :: CashField(storage[Slot(vault, at[t].key)], at[t].high)
  }

  /** What a swap is: both amounts move within 112 bits, or nothing happens. */
  function LedgerSwap(ledger: map<Token, nat>, swap: Swap): Option<map<Token, nat>> {
    if swap.tokenIn == swap.tokenOut || swap.tokenIn !in ledger || swap.tokenOut !in ledger then None
    else if ledger[swap.tokenIn] + swap.amountIn > MAX_CASH || ledger[swap.tokenOut] < swap.amountOut then None
    else Some(ledger[swap.tokenIn := ledger[swap.tokenIn]
                     + swap.amountIn][swap.tokenOut := ledger[swap.tokenOut] - swap.amountOut])
  }

  /** Different tokens have different cash fields. */
  predicate Injective(at: map<Token, Location>) {
    forall t, u | t in at && u in at && t != u :: at[t] != at[u]
  }

  /** Every location the list gives is the true one. */
  predicate Truthful(cash: seq<TokenCash>, truth: map<Token, Location>) {
    forall i | 0 <= i < |cash| :: cash[i].token in truth && truth[cash[i].token] == cash[i].at
  }

  /** Whether a swap can be event-sourced at all: both tokens located, in fields that hold cash. */
  predicate Sourced(twoToken: bool, cash: seq<TokenCash>, swap: Swap) {
    && Locate(cash, swap.tokenIn).Some? && Locate(cash, swap.tokenOut).Some?
    && (twoToken || (!Locate(cash, swap.tokenIn).value.high && !Locate(cash, swap.tokenOut).value.high))
  }

  lemma {:induction false} LocatesTruth(cash: seq<TokenCash>, truth: map<Token, Location>, token: Token)
    requires Truthful(cash, truth)
    ensures Locate(cash, token).Some? ==> token in truth && truth[token] == Locate(cash, token).value
    ensures Locate(cash, token).Some? <==> exists i :: 0 <= i < |cash| && cash[i].token == token
  {
    if cash != [] && cash[0].token != token {
      LocatesTruth(cash[1..], truth, token);
      if i :| 0 <= i < |cash| && cash[i].token == token {
        assert cash[1..][i - 1].token == token;
      }
      if i :| 0 <= i < |cash[1..]| && cash[1..][i].token == token {
        assert cash[i + 1].token == token;
      }
    }
  }

  // ----------------------------------------------------------------- one field write

  /** One field of one warm word rewritten. */
  function WithCash(storage: Storage, vault: Address, at: Location, cash: nat): Storage
    requires Slot(vault, at.key) in storage
  {
    storage[Slot(vault, at.key) := SetCashField(storage[Slot(vault, at.key)], at.high, cash)]
  }

  /** Rewriting a field changes the ledger at the tokens living in that field only. */
  lemma FieldWritten(storage: Storage, vault: Address, at: Location, cash: nat, t: Location)
    requires Slot(vault, at.key) in storage && cash <= MAX_CASH && Slot(vault, t.key) in storage
    ensures CashField(WithCash(storage, vault, at, cash)[Slot(vault, t.key)], t.high) ==
            if t == at then cash else CashField(storage[Slot(vault, t.key)], t.high)
  {
    hide CashField, SetCashField;
    SetThenGet(storage[Slot(vault, at.key)], at.high, cash);
  }

  lemma LedgerWritten(storage: Storage, vault: Address, truth: map<Token, Location>, token: Token, cash: nat)
    requires Injective(truth) && token in truth && Slot(vault, truth[token].key) in storage && cash <= MAX_CASH
    ensures Ledger(WithCash(storage, vault, truth[token], cash), vault, truth)
            == Ledger(storage, vault, truth)[token := cash]
  {
    var after := WithCash(storage, vault, truth[token], cash);
    assert after.Keys == storage.Keys;
    forall t | t in truth && Slot(vault, truth[t].key) in storage
      ensures CashField(after[Slot(vault, truth[t].key)], truth[t].high) ==
              if t == token then cash else CashField(storage[Slot(vault, truth[t].key)], truth[t].high)
    {
      FieldWritten(storage, vault, truth[token], cash, truth[t]);
    }
  }

  // ------------------------------------------------------------------- one swap

  /** The cash at a warm location. */
  function CashAt(storage: Storage, vault: Address, at: Location): nat
    requires Slot(vault, at.key) in storage
  {
    CashField(storage[Slot(vault, at.key)], at.high)
  }

  /** Both amounts move between two warm fields and stay within 112 bits. */
  predicate Moves(storage: Storage, vault: Address, into: Location, from: Location, swap: Swap) {
    && Slot(vault, into.key) in storage && Slot(vault, from.key) in storage
    && into != from
    && CashAt(storage, vault, into) + swap.amountIn <= MAX_CASH
    && swap.amountOut <= CashAt(storage, vault, from)
  }

  lemma AppliedOne(storage: Storage, write: Write)
    ensures Applied(storage, [write]) == storage[write.slot := write.word]
  {
    assert [write][1..] == [];
  }

  lemma AppliedTwo(storage: Storage, first: Write, second: Write)
    ensures Applied(storage, [first, second]) == storage[first.slot := first.word][second.slot := second.word]
  {
    assert [first, second][1..] == [second];
    AppliedOne(storage[first.slot := first.word], second);
  }

  /** Exactly when a swap is event-sourced, and what its writes do. */
  lemma SwapWrites(storage: Storage, vault: Address, twoToken: bool, cash: seq<TokenCash>, swap: Swap)
    ensures EventSourceSwap(storage, vault, twoToken, cash, swap).Some? <==>
            && Sourced(twoToken, cash, swap)
            && Moves(storage, vault, Locate(cash, swap.tokenIn).value, Locate(cash, swap.tokenOut).value, swap)
    ensures EventSourceSwap(storage, vault, twoToken, cash, swap).Some? ==>
              var into, from := Locate(cash, swap.tokenIn).value, Locate(cash, swap.tokenOut).value;
              Applied(storage, EventSourceSwap(storage, vault, twoToken, cash, swap).value) ==
              WithCash(WithCash(storage, vault, into, CashAt(storage, vault, into) + swap.amountIn), vault,
                       from, CashAt(storage, vault, from) - swap.amountOut)
  {
    hide CashField, SetCashField, Locate, Applied;
    if Sourced(twoToken, cash, swap) {
      var into, from := Locate(cash, swap.tokenIn).value, Locate(cash, swap.tokenOut).value;
      if Slot(vault, into.key) in storage && CashAt(storage, vault, into) + swap.amountIn <= MAX_CASH {
        SetThenGet(storage[Slot(vault, into.key)], into.high, CashAt(storage, vault, into) + swap.amountIn);
      }
      var writes := EventSourceSwap(storage, vault, twoToken, cash, swap);
      if writes.Some? {
        if into.key == from.key {
          AppliedOne(storage, writes.value[0]);
        } else {
          AppliedTwo(storage, writes.value[0], writes.value[1]);
        }
      }
    }
  }

  /** Fields at the true locations move exactly when the ledger's swap is allowed. */
  lemma MovesInLedger(storage: Storage, vault: Address, truth: map<Token, Location>, swap: Swap)
    requires Injective(truth) && swap.tokenIn in truth && swap.tokenOut in truth
    ensures Moves(storage, vault, truth[swap.tokenIn], truth[swap.tokenOut], swap)
            <==> LedgerSwap(Ledger(storage, vault, truth), swap).Some?
  {
    hide CashField;
  }

  /** Moving both amounts between the true locations is the ledger's swap. */
  lemma MovedLedger(storage: Storage, vault: Address, truth: map<Token, Location>, swap: Swap)
    requires Injective(truth) && swap.tokenIn in truth && swap.tokenOut in truth
    requires Moves(storage, vault, truth[swap.tokenIn], truth[swap.tokenOut], swap)
    ensures var into, from := truth[swap.tokenIn], truth[swap.tokenOut];
            var after := WithCash(WithCash(storage, vault, into, CashAt(storage, vault, into) + swap.amountIn), vault,
                                  from, CashAt(storage, vault, from) - swap.amountOut);
            LedgerSwap(Ledger(storage, vault, truth), swap) == Some(Ledger(after, vault, truth))
  {
    var into, from := truth[swap.tokenIn], truth[swap.tokenOut];
    var cashIn, cashOut := CashAt(storage, vault, into) + swap.amountIn, CashAt(storage, vault, from) - swap.amountOut;
    hide CashField, SetCashField;
    LedgerWritten(storage, vault, truth, swap.tokenIn, cashIn);
    LedgerWritten(WithCash(storage, vault, into, cashIn), vault, truth, swap.tokenOut, cashOut);
  }

  /**
   A swap either carries out the ledger's swap on the packed words, or writes nothing:
   it is event-sourced exactly when its tokens are located and the ledger allows it.
   */
  lemma SwapRefinesLedger(storage: Storage, vault: Address, twoToken: bool, cash: seq<TokenCash>,
                          truth: map<Token, Location>, swap: Swap)
    requires Injective(truth) && Truthful(cash, truth)
    ensures var writes := EventSourceSwap(storage, vault, twoToken, cash, swap);
            var ledger := LedgerSwap(Ledger(storage, vault, truth), swap);
            && (writes.Some? <==> Sourced(twoToken, cash, swap) && ledger.Some?)
            && (writes.Some? ==> Ledger(Applied(storage, writes.value), vault, truth) == ledger.value)
  {
    hide CashField, SetCashField, EventSourceSwap, Locate, Truthful, WithCash, CashAt, Moves, LedgerSwap, Ledger,
        Applied, Injective;
    SwapWrites(storage, vault, twoToken, cash, swap);
    LocatesTruth(cash, truth, swap.tokenIn);
    LocatesTruth(cash, truth, swap.tokenOut);
    if Sourced(twoToken, cash, swap) {
      MovesInLedger(storage, vault, truth, swap);
      if Moves(storage, vault, truth[swap.tokenIn], truth[swap.tokenOut], swap) {
        MovedLedger(storage, vault, truth, swap);
      }
    }
  }

  /** Bit `i` of the word at `slot` belongs to the field at a location. */
  predicate InField(vault: Address, at: Location, slot: Slot, i: nat) {
    slot == Slot(vault, at.key) && FieldStart(at.high) <= i < FieldStart(at.high) + FIELD_BITS
  }

  lemma OtherBitsKept(storage: Storage, vault: Address, at: Location, cash: nat, slot: Slot, i: nat)
    requires Slot(vault, at.key) in storage && cash <= MAX_CASH && slot in storage && !InField(vault, at, slot, i)
    ensures Bit(WithCash(storage, vault, at, cash)[slot], i) == Bit(storage[slot], i)
  {
    hide SetCashField, Bit;
    BitsOfSetField(storage[Slot(vault, at.key)], at.high, cash, i);
  }

  /** An event-sourced swap keeps every slot, and every bit outside the two cash fields. */
  lemma SwapKeepsOtherBits(storage: Storage, vault: Address, twoToken: bool, cash: seq<TokenCash>, swap: Swap,
                           slot: Slot, i: nat)
    requires EventSourceSwap(storage, vault, twoToken, cash, swap).Some? && slot in storage
    requires forall at ::
               Locate(cash, swap.tokenIn) == Some(at) || Locate(cash, swap.tokenOut) == Some(at)
               ==> !InField(vault, at, slot, i)
    ensures var after := Applied(storage, EventSourceSwap(storage, vault, twoToken, cash, swap).value);
            after.Keys == storage.Keys && Bit(after[slot], i) == Bit(storage[slot], i)
  {
    SwapWrites(storage, vault, twoToken, cash, swap);
    hide SetCashField, CashField, Bit, EventSourceSwap, Locate, Applied;
    var into, from := Locate(cash, swap.tokenIn).value, Locate(cash, swap.tokenOut).value;
    var added := CashAt(storage, vault, into) + swap.amountIn;
    OtherBitsKept(storage, vault, into, added, slot, i);
    OtherBitsKept(WithCash(storage, vault, into, added), vault, from, CashAt(storage, vault, from) - swap.amountOut,
                  slot, i);
  }

  // -------------------------------------------------------------------- histories

  /** The packed words after a history of swaps; a swap left to a resync writes nothing. */
  function RunSwaps(storage: Storage, vault: Address, twoToken: bool, cash: seq<TokenCash>, swaps: seq<Swap>): Storage
    decreases |swaps|
  {
    if swaps == [] then storage
    else
      var writes := EventSourceSwap(storage, vault, twoToken, cash, swaps[0]);
      RunSwaps(if writes.Some? then Applied(storage, writes.value) else storage, vault, twoToken, cash, swaps[1..])
  }

  /** The ledger after the same history. */
  function RunLedger(ledger: map<Token, nat>, twoToken: bool, cash: seq<TokenCash>, swaps: seq<Swap>): map<Token, nat>
    decreases |swaps|
  {
    if swaps == [] then ledger
    else
      var next := LedgerSwap(ledger, swaps[0]);
      RunLedger(if Sourced(twoToken, cash, swaps[0]) && next.Some? then next.value
                else ledger, twoToken, cash, swaps[1..])
  }

  /** Over any history, decoding the packed words gives the ledger. */
  lemma {:induction false} HistoryRefinesLedger(storage: Storage, vault: Address, twoToken: bool, cash: seq<TokenCash>,
                                                truth: map<Token, Location>, swaps: seq<Swap>)
    requires Injective(truth) && Truthful(cash, truth)
    ensures Ledger(RunSwaps(storage, vault, twoToken, cash, swaps), vault, truth) ==
            RunLedger(Ledger(storage, vault, truth), twoToken, cash, swaps)
    decreases |swaps|
  {
    hide EventSourceSwap, LedgerSwap, Ledger, Applied, Sourced, Injective, Truthful;
    if swaps != [] {
      SwapRefinesLedger(storage, vault, twoToken, cash, truth, swaps[0]);
      var writes := EventSourceSwap(storage, vault, twoToken, cash, swaps[0]);
      HistoryRefinesLedger(if writes.Some? then Applied(storage, writes.value)
                           else storage, vault, twoToken, cash, truth, swaps[1..]);
    }
  }

  lemma {:induction false} SameLedgerRun(ledger: map<Token, nat>, twoToken: bool, cash: seq<TokenCash>,
                                         twoToken': bool, cash': seq<TokenCash>, swaps: seq<Swap>)
    requires forall i | 0 <= i < |swaps| :: Sourced(twoToken, cash, swaps[i]) == Sourced(twoToken', cash', swaps[i])
    ensures RunLedger(ledger, twoToken, cash, swaps) == RunLedger(ledger, twoToken', cash', swaps)
    decreases |swaps|
  {
    hide LedgerSwap, Sourced;
    if swaps != [] {
      var next := LedgerSwap(ledger, swaps[0]);
      SameLedgerRun(if Sourced(twoToken, cash, swaps[0]) && next.Some? then next.value
                    else ledger, twoToken, cash, twoToken', cash', swaps[1..]);
    }
  }

  /** Two vault layouts of the same cash, shared words or separate ones, stay equal over any history. */
  lemma LayoutDoesNotMatter(storage: Storage, vault: Address, twoToken: bool, cash: seq<TokenCash>,
                            truth: map<Token, Location>,
                            storage': Storage, vault': Address, twoToken': bool, cash': seq<TokenCash>,
                                truth': map<Token, Location>,
                            swaps: seq<Swap>)
    requires Injective(truth) && Truthful(cash, truth) && Injective(truth') && Truthful(cash', truth')
    requires Ledger(storage, vault, truth) == Ledger(storage', vault', truth')
    requires forall i | 0 <= i < |swaps| :: Sourced(twoToken, cash, swaps[i]) == Sourced(twoToken', cash', swaps[i])
    ensures Ledger(RunSwaps(storage, vault, twoToken, cash, swaps), vault, truth) ==
            Ledger(RunSwaps(storage', vault', twoToken', cash', swaps), vault', truth')
  {
    hide Injective, Truthful, Ledger, Sourced;
    HistoryRefinesLedger(storage, vault, twoToken, cash, truth, swaps);
    HistoryRefinesLedger(storage', vault', twoToken', cash', truth', swaps);
    SameLedgerRun(Ledger(storage, vault, truth), twoToken, cash, twoToken', cash', swaps);
  }
}
