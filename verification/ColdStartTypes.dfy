/** The cold-start vocabulary: slots, plans, round results and run counters. */
module ColdStartTypes {
  import opened Wrappers
  import opened Words

  type Bytes = seq<bv8>

  /** One storage location: a contract and a storage key. */
  datatype Slot = Slot(address: Address, key: Word)

  /** A read-only storage view: the value at a slot, when it is known. */
  type View = Slot -> Option<Word>

  datatype Call = Call(from: Address, to: Address, calldata: Bytes, restrictTo: Option<seq<Address>>)

  datatype Plan = Plan(
    verify: seq<Slot>,
    probe: seq<Slot>,
    probeRoots: seq<Address>,
    accounts: seq<Address>,
    discover: seq<Call>)

  datatype SlotFetch = Value(value: Word) | Zero | FetchFailed | NotAttempted

  datatype SlotOutcome = SlotOutcome(slot: Slot, fetch: SlotFetch)

  datatype SlotChange = SlotChange(slot: Slot, old_: Word, new_: Word)

  /** A discover call: whether it succeeded, its output if any, and the slots it read. */
  datatype CallResult = CallResult(success: bool, output: Option<Bytes>, slots: seq<Slot>)

  datatype Results = Results(
    verified: seq<SlotChange>,
    fetched: seq<SlotOutcome>,
    probed: seq<SlotOutcome>,
    discovered: seq<CallResult>)

  datatype Decision = Continue(plan: Plan) | Done

  datatype RunReport = RunReport(rounds: nat, verifiedSlots: nat, changedSlots: nat, failedSlots: nat)

  /** A snapshot with the values of a storage overlay on top. */
  function Overlay(base: View, storage: map<Slot, Word>): View {
    (slot: Slot) => if slot in storage then Some(storage[slot]) else base(slot)
  }

  /** The value of the last entry for a slot. */
  function LastValue(patch: seq<(Slot, Word)>, slot: Slot): Option<Word> {
    if patch == [] then None
    else if patch[|patch| - 1].0 == slot then Some(patch[|patch| - 1].1)
    else LastValue(patch[..|patch| - 1], slot)
  }
}
