/**
 What the Balancer probe finds and what the planner reads, said without the functions that
 compute it: which tokens are listed and where, what a pool id encodes, which slots of a
 discovery call are kept and which outcome of a slot counts.
 */
module BalancerLaws {
  import opened Wrappers
  import opened Words
  import opened Picks
  import opened ColdStartTypes
  import opened BalancerSwaps
  import opened BalancerProbe
  import opened BalancerPlanner

  // ------------------------------------------------------------- what the probe lists

  /** The field holds the balance and no other candidate field does. */
  ghost predicate OnlyHolder(slots: seq<Slot>, vault: Address, view: View, highIsCash: bool, balance: Word,
                             at: Location) {
    && Holding(slots, vault, view, highIsCash, balance, at)
    && forall other :: Holding(slots, vault, view, highIsCash, balance, other) ==> other == at
  }

  /** The balance is not zero and exactly one candidate field holds it. */
  ghost predicate CanLocate(slots: seq<Slot>, vault: Address, view: View, highIsCash: bool, balance: Word) {
    balance != 0 && exists at :: OnlyHolder(slots, vault, view, highIsCash, balance, at)
  }

  ghost function Locatable(balances: seq<Word>, slots: seq<Slot>, vault: Address, view: View, highIsCash: bool)
    : nat -> bool
  {
    (k: nat) => k < |balances| && CanLocate(slots, vault, view, highIsCash, balances[k])
  }

  /** The list names the tokens at the given positions, each with the one field that holds its balance. */
  ghost predicate ListsTokens(cash: seq<TokenCash>, tokens: seq<Token>, balances: seq<Word>, slots: seq<Slot>,
                              vault: Address, view: View, highIsCash: bool, at: seq<nat>)
  {
    && |cash| == |at|
    && forall j | 0 <= j < |at| ::
         && at[j] < |tokens| && at[j] < |balances|
         && cash[j].token == tokens[at[j]]
         && OnlyHolder(slots, vault, view, highIsCash, balances[at[j]], cash[j].at)
  }

  lemma LocatedDecides(slots: seq<Slot>, vault: Address, view: View, highIsCash: bool, balance: Word)
    requires NoRepeats(slots)
    ensures var located := Located(slots, vault, view, highIsCash, balance);
            && (located.Some? <==> CanLocate(slots, vault, view, highIsCash, balance))
            && (located.Some? ==> OnlyHolder(slots, vault, view, highIsCash, balance, located.value))
  {
    hide Holding, Located;
    forall at ensures Located(slots, vault, view, highIsCash, balance) == Some(at) <==>
                      balance != 0 && OnlyHolder(slots, vault, view, highIsCash, balance, at)
    {
      LocatedIffUnique(slots, vault, view, highIsCash, balance, at);
    }
  }

  lemma {:induction false} ProbedLists(tokens: seq<Token>, balances: seq<Word>, n: nat, slots: seq<Slot>,
                                       vault: Address, view: View, highIsCash: bool) returns (at: seq<nat>)
    requires n <= |tokens| && n <= |balances| && NoRepeats(slots)
    ensures Picked(at, n, Locatable(balances, slots, vault, view, highIsCash))
    ensures ListsTokens(Probed(tokens, balances, n, slots, vault, view, highIsCash), tokens, balances, slots, vault,
                        view, highIsCash, at)
    decreases n
  {
    hide Picked, CanLocate, OnlyHolder, Located;
    var chosen := Locatable(balances, slots, vault, view, highIsCash);
    at := [];
    if n == 0 {
      NonePicked(chosen);
    } else {
      at := ProbedLists(tokens, balances, n - 1, slots, vault, view, highIsCash);
      LocatedDecides(slots, vault, view, highIsCash, balances[n - 1]);
      PickOneMore(at, n - 1, chosen);
      if chosen(n - 1) {
        at := at + [n - 1];
      }
    }
  }

  /**
   The probe lists, in token order, exactly the tokens whose non-zero balance is held by one
   candidate field alone, each with that field; tokens and balances are paired by position
   as far as both lists go.
   */
  lemma ProbeListsExactly(tokens: seq<Token>, balances: seq<Word>, slots: seq<Slot>, vault: Address, view: View,
                          highIsCash: bool) returns (at: seq<nat>)
    requires NoRepeats(slots)
    ensures Picked(at, if |tokens| <= |balances| then |tokens| else |balances|,
                   Locatable(balances, slots, vault, view, highIsCash))
    ensures ListsTokens(Probed(tokens, balances, Paired(tokens, balances), slots, vault, view, highIsCash), tokens,
                        balances, slots, vault, view, highIsCash, at)
  {
    at := ProbedLists(tokens, balances, Paired(tokens, balances), slots, vault, view, highIsCash);
  }

  /** So a Ready discovery records every token whose balance one vault field alone holds. */
  lemma ReadyDiscoveryLocatesAll(poolId: Word, vault: Address, before: Metadata, after: Metadata, provider: Provider,
                                 plans: seq<Plan>, decode: Decoder, balances: seq<Word>, slots: seq<Slot>, k: nat,
                                 at: Location)
    requires ReadyDiscovery(poolId, vault, before, after, provider, plans, decode, balances, slots)
    requires NoRepeats(slots) && k < |after.tokens| && k < |balances| && balances[k] != 0
    requires OnlyHolder(slots, vault, provider(1, plans[1]).1, IsTwoTokenPool(poolId), balances[k], at)
    ensures TokenCash(after.tokens[k], at) in after.tokenCash
  {
    hide Holding, IsTwoTokenPool, Probed, Picked;
    var view, two := provider(1, plans[1]).1, IsTwoTokenPool(poolId);
    var picked := ProbeListsExactly(after.tokens, balances, slots, vault, view, two);
    assert Locatable(balances, slots, vault, view, two)(k);
    PositionOf(picked, if |after.tokens| <= |balances| then |after.tokens| else |balances|,
               Locatable(balances, slots, vault, view, two), k);
    var j :| 0 <= j < |picked| && picked[j] == k;
    assert after.tokenCash[j] == TokenCash(after.tokens[k], at);
  }

  lemma PositionOf(at: seq<nat>, n: nat, chosen: nat -> bool, k: nat)
    requires Picked(at, n, chosen) && k < n && chosen(k)
    ensures k in at
  {
  }

  // ------------------------------------------------------------------ what is read off

  /** A pool id is the pool's 20-byte address, two bytes of specialization and ten more bytes. */
  lemma PoolIdParts(address: nat, specialization: nat, rest: nat)
    requires address < 0x1_0000_0000_0000_0000_0000_0000_0000_0000_0000_0000
    requires specialization < 0x1_0000 && rest < 0x1_0000_0000_0000_0000_0000
    ensures var poolId := address * 0x1_0000_0000_0000_0000_0000_0000 + specialization * 0x1_0000_0000_0000_0000_0000
                          + rest;
            && poolId < WORD
            && PoolAddress(poolId) == address
            && (IsTwoTokenPool(poolId) <==> specialization == 2)
  {
    var upper := address * 0x1_0000 + specialization;
    var poolId := upper * 0x1_0000_0000_0000_0000_0000 + rest;
    assert poolId / 0x1_0000_0000_0000_0000_0000 == upper;
    assert upper % 0x1_0000 == specialization;
  }

  /** A slot lies on the vault. */
  function IsOnVault(slots: seq<Slot>, vault: Address): nat -> bool {
    (i: nat) => i < |slots| && slots[i].address == vault
  }

  lemma {:induction false} OnVaultLast(front: seq<Slot>, last: Slot, vault: Address)
    ensures OnVault(front + [last], vault) == OnVault(front, vault) + (if last.address == vault then [last] else [])
  {
    if front == [] {
      assert front + [last] == [last];
      assert OnVault([last][1..], vault) == [];
    } else {
      assert (front + [last])[1..] == front[1..] + [last];
      OnVaultLast(front[1..], last, vault);
    }
  }

  /** Of the slots a call touched, those on the vault are kept, in order. */
  lemma {:induction false} VaultSlotsKept(slots: seq<Slot>, vault: Address) returns (at: seq<nat>)
    ensures Picked(at, |slots|, IsOnVault(slots, vault))
    ensures |OnVault(slots, vault)| == |at|
    ensures forall k | 0 <= k < |at| :: at[k] < |slots| && OnVault(slots, vault)[k] == slots[at[k]]
    decreases |slots|
  {
    hide Picked, OnVault;
    at := [];
    if slots == [] {
      NonePicked(IsOnVault(slots, vault));
      NothingOnVault(vault);
    } else {
      var front, n := slots[..|slots| - 1], |slots| - 1;
      assert slots == front + [slots[n]];
      at := VaultSlotsKept(front, vault);
      OnVaultLast(front, slots[n], vault);
      PickedAgree(at, n, IsOnVault(front, vault), IsOnVault(slots, vault));
      PickOneMore(at, n, IsOnVault(slots, vault));
      if slots[n].address == vault {
        at := at + [n];
      }
    }
  }

  lemma NothingOnVault(vault: Address)
    ensures OnVault([], vault) == []
  {
  }

  /** A slot has arrived exactly if the first outcome recorded for it is a value or a genuine zero. */
  lemma {:induction false} ArrivedIs(fetched: seq<SlotOutcome>, slot: Slot)
    ensures Arrived(fetched, slot) <==>
              exists i :: 0 <= i < |fetched| && FirstOutcome(fetched, slot, i)
                          && (fetched[i].fetch.Value? || fetched[i].fetch.Zero?)
  {
    FetchIsFirst(fetched, slot);
  }

  predicate FirstOutcome(fetched: seq<SlotOutcome>, slot: Slot, i: nat)
    requires i < |fetched|
  {
    fetched[i].slot == slot && forall j | 0 <= j < i :: fetched[j].slot != slot
  }

  lemma {:induction false} FetchIsFirst(fetched: seq<SlotOutcome>, slot: Slot)
    ensures FetchOf(fetched, slot).None? ==> forall i | 0 <= i < |fetched| :: fetched[i].slot != slot
    ensures FetchOf(fetched, slot).Some? ==>
              exists i :: 0 <= i < |fetched| && FirstOutcome(fetched, slot, i)
                          && fetched[i].fetch == FetchOf(fetched, slot).value
  {
    if fetched != [] {
      FetchIsFirst(fetched[1..], slot);
      if fetched[0].slot == slot {
        assert FirstOutcome(fetched, slot, 0);
      } else if FetchOf(fetched[1..], slot).Some? {
        var i :| 0 <= i < |fetched[1..]| && FirstOutcome(fetched[1..], slot, i)
                 && fetched[1..][i].fetch == FetchOf(fetched[1..], slot).value;
        forall j | 0 <= j < i + 1 ensures fetched[j].slot != slot {
          assert j > 0 ==> fetched[j] == fetched[1..][j - 1];
        }
        assert FirstOutcome(fetched, slot, i + 1);
      } else {
        forall i | 0 <= i < |fetched| ensures fetched[i].slot != slot {
          assert i > 0 ==> fetched[i] == fetched[1..][i - 1];
        }
      }
    }
  }

  /** A token is located where the first entry of the cash list for it says. */
  lemma {:induction false} LocateIsFirst(cash: seq<TokenCash>, token: Token)
    ensures Locate(cash, token).None? ==> forall i | 0 <= i < |cash| :: cash[i].token != token
    ensures Locate(cash, token).Some? ==>
              exists i :: 0 <= i < |cash| && cash[i] == TokenCash(token, Locate(cash, token).value)
                          && forall j | 0 <= j < i :: cash[j].token != token
  {
    if cash != [] {
      LocateIsFirst(cash[1..], token);
      if cash[0].token != token && Locate(cash[1..], token).Some? {
        var i :| 0 <= i < |cash[1..]| && cash[1..][i] == TokenCash(token, Locate(cash[1..], token).value)
                 && forall j | 0 <= j < i :: cash[1..][j].token != token;
        assert cash[i + 1] == TokenCash(token, Locate(cash, token).value);
        forall j | 0 <= j < i + 1 ensures cash[j].token != token {
          assert j > 0 ==> cash[j] == cash[1..][j - 1];
        }
      }
    }
  }
}
