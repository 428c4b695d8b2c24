/**
 What rendering a template means for its fields: which writes are made and in which order,
 how a value is laid out in bytes, that every field reads back, and that nothing else moves.
 */
module BytecodeLaws {
  import opened Wrappers
  import opened Words
  import opened BytecodeTemplate

  // ------------------------------------------------------------------- byte order

  /** Dividing by 256 and then by `p` is dividing by 256 times `p`. */
  lemma DivideTwice(n: int, p: nat)
    requires p > 0
    ensures n / 256 / p == n / (256 * p)
  {
    var q, r := n / 256 / p, n / 256 % p;
    assert n / 256 == q * p + r;
    assert n == 256 * (q * p + r) + n % 256;
    var rest := 256 * r + n % 256;
    assert n == q * (256 * p) + rest;
    assert 0 <= rest < 256 * p;
    QuotientIs(n, 256 * p, q, rest);
  }

  lemma QuotientIs(n: int, m: int, q: int, r: int)
    requires m > 0 && n == q * m + r && 0 <= r < m
    ensures n / m == q
  {
    var q', r' := n / m, n % m;
    assert (q - q') * m == r' - r by {
      assert n == q' * m + r';
    }
    MultipleIsFar(q - q', m);
  }

  /** Byte `j` from the end is the value's byte of weight 256 to the `j`: the most significant byte comes first. */
  lemma {:induction false} BigEndian(n: int, k: nat, j: nat)
    requires j < k
    ensures ToBytes(n, k)[k - 1 - j] == n / Pow256(j) % 256
    decreases k
  {
    if j > 0 {
      BigEndian(n / 256, k - 1, j - 1);
      DivideTwice(n, Pow256(j - 1));
    }
  }

  // ------------------------------------------------------------------- the writes

  /** A range of a field, by position. */
  datatype At = At(field: nat, patch: nat)

  predicate Before(a: At, b: At) {
    a.field < b.field || (a.field == b.field && a.patch < b.patch)
  }

  ghost predicate InOrder(at: seq<At>) {
    forall i, j | 0 <= i < j < |at| :: Before(at[i], at[j])
  }

  /** The field has a value and that range. */
  predicate Patches(fields: seq<Immutable>, a: At) {
    a.field < |fields| && a.patch < |fields[a.field].patches| && fields[a.field].value.Some?
  }

  predicate WriteAt(fields: seq<Immutable>, a: At, w: Write) {
    Patches(fields, a) && w == Write(fields[a.field].patches[a.patch], fields[a.field].value.value)
  }

  ghost predicate WritesAt(fields: seq<Immutable>, at: seq<At>, writes: seq<Write>) {
    |at| == |writes| && forall k | 0 <= k < |at| :: WriteAt(fields, at[k], writes[k])
  }

  lemma FieldWrites(fields: seq<Immutable>, n: nat) returns (at: seq<At>)
    requires n < |fields| && fields[n].value.Some?
    ensures WritesAt(fields, at, WritesOf(fields[n].patches, fields[n].value.value)) && InOrder(at)
    ensures forall a :: a in at <==> a.field == n && a.patch < |fields[n].patches|
  {
    at := seq(|fields[n].patches|, j requires 0 <= j < |fields[n].patches| => At(n, j));
    forall a ensures a in at <==> a.field == n && a.patch < |fields[n].patches| {
      if a.field == n && a.patch < |fields[n].patches| {
        assert at[a.patch] == a;
      }
    }
  }

  lemma WritesJoin(fields: seq<Immutable>, a: seq<At>, s: seq<Write>, b: seq<At>, t: seq<Write>)
    requires WritesAt(fields, a, s) && WritesAt(fields, b, t) && InOrder(a) && InOrder(b)
    requires forall x, y | x in a && y in b :: Before(x, y)
    ensures WritesAt(fields, a + b, s + t) && InOrder(a + b)
  {
  }

  /** Every range of every field that has a value is written once: field by field, range by range. */
  lemma {:induction false} WritesInOrder(fields: seq<Immutable>, n: nat) returns (at: seq<At>)
    requires n <= |fields|
    ensures WritesAt(fields, at, AllWrites(fields, n)) && InOrder(at)
    ensures forall a :: a in at <==> a.field < n && Patches(fields, a)
  {
    hide WritesOf, WritesAt, InOrder;
    at := [];
    NoWritesAt(fields);
    if n > 0 {
      at := WritesInOrder(fields, n - 1);
      if fields[n - 1].value.Some? {
        var more := FieldWrites(fields, n - 1);
        WritesJoin(fields, at, AllWrites(fields, n - 1), more,
                   WritesOf(fields[n - 1].patches, fields[n - 1].value.value));
        at := at + more;
      } else {
        assert AllWrites(fields, n - 1) + [] == AllWrites(fields, n - 1);
      }
    }
  }

  lemma NoWritesAt(fields: seq<Immutable>)
    ensures WritesAt(fields, [], []) && InOrder([])
  {
  }

  // ------------------------------------------------------------------ the rendered code

  /** No two ranges of the template overlap. */
  ghost predicate Separate(fields: seq<Immutable>) {
    forall a, b | Patches(fields, a) && Patches(fields, b) && a != b ::
      Disjoint(fields[a.field].patches[a.patch], fields[b.field].patches[b.patch])
  }

  lemma SeparateWrites(fields: seq<Immutable>, at: seq<At>, writes: seq<Write>)
    requires Separate(fields) && WritesAt(fields, at, writes) && InOrder(at)
    ensures PairwiseDisjoint(writes)
  {
    forall i, j | 0 <= i < j < |writes| ensures Disjoint(writes[i].patch, writes[j].patch) {
      assert Before(at[i], at[j]);
      assert WriteAt(fields, at[i], writes[i]) && WriteAt(fields, at[j], writes[j]);
    }
  }

  lemma RangeIsWritten(fields: seq<Immutable>, a: At) returns (k: nat)
    requires Separate(fields) && Patches(fields, a)
    ensures k < |AllWrites(fields, |fields|)|
    ensures AllWrites(fields, |fields|)[k] == Write(fields[a.field].patches[a.patch], fields[a.field].value.value)
    ensures PairwiseDisjoint(AllWrites(fields, |fields|))
  {
    hide AllWrites, Separate, PairwiseDisjoint, InOrder;
    var at := WritesInOrder(fields, |fields|);
    assert a in at;
    k :| k < |at| && at[k] == a;
    assert WriteAt(fields, at[k], AllWrites(fields, |fields|)[k]);
    SeparateWrites(fields, at, AllWrites(fields, |fields|));
  }

  /** With separate ranges, each field reads back from each of its ranges as its value, modulo the range's width. */
  lemma FieldReadsBack(template: seq<Byte>, fields: seq<Immutable>, field: nat, patch: nat)
    requires Separate(fields) && Patches(fields, At(field, patch))
    requires AllFit(AllWrites(fields, |fields|), |template|)
    ensures var p := fields[field].patches[patch];
            && Fits(p, |template|)
            && FromBytes(Written(template, AllWrites(fields, |fields|))[p.offset..p.offset + p.length])
               == fields[field].value.value % Pow256(p.length)
  {
    hide *;
    var k := RangeIsWritten(fields, At(field, patch));
    FitsAt(AllWrites(fields, |fields|), |template|, k);
    RangeReadsBack(template, AllWrites(fields, |fields|), k);
  }

  lemma FitsAt(writes: seq<Write>, size: nat, k: nat)
    requires AllFit(writes, size) && k < |writes|
    ensures Fits(writes[k].patch, size)
    ensures writes[k].patch.offset + writes[k].patch.length <= size
  {
  }

  lemma {:induction false} NothingOver(writes: seq<Write>, k: int)
    requires forall i | 0 <= i < |writes| :: !Covers(writes[i].patch, k)
    ensures LastOver(writes, k).None?
  {
    if writes != [] {
      NothingOver(writes[..|writes| - 1], k);
    }
  }

  /** A byte that no range covers is the template's. */
  lemma RestIsTemplate(template: seq<Byte>, fields: seq<Immutable>, k: nat)
    requires AllFit(AllWrites(fields, |fields|), |template|) && k < |template|
    requires forall a | Patches(fields, a) :: !Covers(fields[a.field].patches[a.patch], k)
    ensures Written(template, AllWrites(fields, |fields|))[k] == template[k]
  {
    hide Written, AllWrites;
    var writes := AllWrites(fields, |fields|);
    var at := WritesInOrder(fields, |fields|);
    forall i | 0 <= i < |writes| ensures !Covers(writes[i].patch, k) {
      assert WriteAt(fields, at[i], writes[i]);
    }
    NothingOver(writes, k);
    ByteOfWritten(template, writes, k);
  }
}
