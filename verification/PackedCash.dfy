/**
 Packed vault balances: a 256-bit word holds two 112-bit fields below a 32-bit block
 number. Shifts and masks are divisions and remainders by powers of two; the bit lemmas
 say which bits of the word each operation reads and writes.
 */
module PackedCash {
  import opened Wrappers
  import opened Words

  const FIELD_BITS: nat := 112
  const FIELD: nat := 0x1_0000_0000_0000_0000_0000_0000_0000
  const TWO_FIELDS: nat := FIELD * FIELD
  const MAX_CASH: nat := FIELD - 1

  function CashField(word: Word, high: bool): (cash: nat)
    ensures cash <= MAX_CASH
  {
    if high then word / FIELD % FIELD else word % FIELD
  }

  /** The word with the given low field, high field and bits above them. */
  function Join(low: nat, high: nat, rest: nat): nat {
    low + high * FIELD + rest * TWO_FIELDS
  }

  function SetCashField(word: Word, high: bool, cash: nat): Word {
    JoinFits(if high then word % FIELD else cash % FIELD, if high then cash % FIELD
             else word / FIELD % FIELD, word / TWO_FIELDS);
    if high then Join(word % FIELD, cash % FIELD, word / TWO_FIELDS)
    else Join(cash % FIELD, word / FIELD % FIELD, word / TWO_FIELDS)
  }

  /** A delta is applied only when the new cash stays a 112-bit number. */
  function ApplyCashDelta(word: Word, high: bool, add: bool, amount: Word): (r: Option<Word>)
    ensures r.Some? <==> if add then CashField(word, high) + amount <= MAX_CASH else amount <= CashField(word, high)
  {
    var cash := CashField(word, high);
    // Checked 256-bit arithmetic: neither operation wraps.
    if add && cash + amount >= WORD then None
    else if !add && cash < amount then None
    else
      var next := if add then cash + amount else cash - amount;
      if next > MAX_CASH then None else Some(SetCashField(word, high, next))
  }

  // -------------------------------------------------------------- field by field

  lemma JoinFits(low: nat, high: nat, rest: nat)
    requires low < FIELD && high < FIELD && rest < WORD / TWO_FIELDS
    ensures Join(low, high, rest) < WORD
  {
  }

  /** A word is its low field, its high field and the bits above them. */
  lemma Parts(word: Word)
    ensures word == Join(word % FIELD, word / FIELD % FIELD, word / TWO_FIELDS)
  {
  }

  /** The fields put together can be read back. */
  lemma Reassembled(low: nat, high: nat, rest: nat)
    requires low < FIELD && high < FIELD
    ensures var word := Join(low, high, rest);
            word % FIELD == low && word / FIELD % FIELD == high && word / TWO_FIELDS == rest
  {
  }

  /** Writing a field changes that field to the value written, and nothing else. */
  lemma SetThenGet(word: Word, high: bool, cash: nat)
    requires cash <= MAX_CASH
    ensures CashField(SetCashField(word, high, cash), high) == cash
    ensures CashField(SetCashField(word, high, cash), !high) == CashField(word, !high)
    ensures SetCashField(word, high, cash) / TWO_FIELDS == word / TWO_FIELDS
  {
    hide Join;
    if high {
      Reassembled(word % FIELD, cash, word / TWO_FIELDS);
    } else {
      Reassembled(cash, word / FIELD % FIELD, word / TWO_FIELDS);
    }
  }

  // ------------------------------------------------------------------- bit by bit

  function Bit(word: nat, i: nat): bool {
    if i == 0 then word % 2 == 1 else Bit(word / 2, i - 1)
  }

  function Pow2(n: nat): (p: nat)
    ensures p > 0
  {
    if n == 0 then 1 else 2 * Pow2(n - 1)
  }

  lemma {:induction false} BitsJoined(low: nat, rest: nat, n: nat, i: nat)
    requires low < Pow2(n)
    ensures Bit(low + rest * Pow2(n), i) == if i < n then Bit(low, i) else Bit(rest, i - n)
  {
    if n > 0 {
      var p := Pow2(n - 1);
      assert low + rest * Pow2(n) == low + 2 * (rest * p);
      assert (low + rest * Pow2(n)) / 2 == low / 2 + rest * p;
      assert (low + rest * Pow2(n)) % 2 == low % 2;
      if i > 0 {
        BitsJoined(low / 2, rest, n - 1, i - 1);
      }
    }
  }

  lemma {:induction false} Pow2Sum(m: nat, n: nat)
    ensures Pow2(m + n) == Pow2(m) * Pow2(n)
  {
    if m > 0 {
      Pow2Sum(m - 1, n);
    }
  }

  lemma Doubled(n: nat, p: nat)
    requires Pow2(n) == p
    ensures Pow2(2 * n) == p * p
  {
    Pow2Sum(n, n);
  }

  lemma FieldIsPower()
    ensures Pow2(FIELD_BITS) == FIELD
  {
    assert Pow2(3) == 8;
    assert Pow2(4) == 16;
    hide Pow2;
    Pow2Sum(4, 3);
    Doubled(7, 0x80);
    Doubled(14, 0x4000);
    Doubled(28, 0x1000_0000);
    Doubled(56, 0x100_0000_0000_0000);
  }

  function FieldStart(high: bool): nat {
    if high then FIELD_BITS else 0
  }

  lemma BitsOfJoin(low: nat, high: nat, rest: nat, i: nat)
    requires low < FIELD && high < FIELD
    ensures Bit(Join(low, high, rest), i) ==
            if i < FIELD_BITS then Bit(low, i)
            else if i < 2 * FIELD_BITS then Bit(high, i - FIELD_BITS)
            else Bit(rest, i - 2 * FIELD_BITS)
  {
    FieldIsPower();
    hide Pow2, Bit;
    assert Join(low, high, rest) == low + (high + rest * FIELD) * FIELD;
    BitsJoined(low, high + rest * FIELD, FIELD_BITS, i);
    if FIELD_BITS <= i {
      BitsJoined(high, rest, FIELD_BITS, i - FIELD_BITS);
    }
  }

  /** Reading a field reads its 112 bits. */
  lemma BitsOfField(word: Word, high: bool, i: nat)
    requires i < FIELD_BITS
    ensures Bit(CashField(word, high), i) == Bit(word, FieldStart(high) + i)
  {
    Parts(word);
    hide Join, Bit;
    BitsOfJoin(word % FIELD, word / FIELD % FIELD, word / TWO_FIELDS, FieldStart(high) + i);
  }

  /** Writing a field replaces its 112 bits and keeps every other bit of the word. */
  lemma BitsOfSetField(word: Word, high: bool, cash: nat, i: nat)
    requires cash <= MAX_CASH
    ensures Bit(SetCashField(word, high, cash), i) ==
            if FieldStart(high) <= i < FieldStart(high) + FIELD_BITS then Bit(cash, i - FieldStart(high))
                else Bit(word, i)
  {
    Parts(word);
    hide Join, Bit;
    BitsOfJoin(word % FIELD, word / FIELD % FIELD, word / TWO_FIELDS, i);
    if high {
      BitsOfJoin(word % FIELD, cash, word / TWO_FIELDS, i);
    } else {
      BitsOfJoin(cash, word / FIELD % FIELD, word / TWO_FIELDS, i);
    }
  }
}
