/**
 Rendering a runtime-bytecode template: immutable values are written over their patch
 ranges, big-endian, each range taking the low bytes of a 32-byte word.
 */
module BytecodeTemplate {
  import opened Wrappers
  import opened Words

  const WORD_BYTES: nat := 32

  datatype Patch = Patch(offset: nat, length: nat)

  /** One immutable: where it goes, and its value if the caller has one. */
  datatype Immutable = Immutable(patches: seq<Patch>, value: Option<int>)

  datatype Error =
    | MissingImmutable(field: nat)
    | InvalidPatchLength(field: nat, length: nat)
    | PatchOutOfBounds(field: nat, patch: Patch)

  /** One range written with one word. */
  datatype Write = Write(patch: Patch, value: int)

  function Pow256(k: nat): (p: nat)
    ensures p > 0
  {
    if k == 0 then 1 else 256 * Pow256(k - 1)
  }

  /** The low `k` bytes, most significant first; a negative value in two's complement. */
  function ToBytes(n: int, k: nat): (r: seq<Byte>)
    ensures |r| == k
    decreases k
  {
    if k == 0 then [] else ToBytes(n / 256, k - 1) + [n % 256]
  }

  function FromBytes(s: seq<Byte>): nat {
    if s == [] then 0 else 256 * FromBytes(s[..|s| - 1]) + s[|s| - 1]
  }

  /** The last bytes of a word are the value in fewer bytes. */
  lemma {:induction false} Suffix(n: int, k: nat, len: nat)
    requires len <= k
    ensures ToBytes(n, k)[k - len..] == ToBytes(n, len)
    decreases k
  {
    if len > 0 {
      Suffix(n / 256, k - 1, len - 1);
    }
  }

  /** Reading the bytes back gives the value modulo their number. */
  lemma {:induction false} ReadBack(n: int, k: nat)
    ensures FromBytes(ToBytes(n, k)) == n % Pow256(k)
    decreases k
  {
    if k > 0 {
      var s := ToBytes(n, k);
      assert s[..k - 1] == ToBytes(n / 256, k - 1);
      ReadBack(n / 256, k - 1);
      ModSplit(n, Pow256(k - 1));
    }
  }

  lemma ModSplit(n: int, p: nat)
    requires p > 0
    ensures 256 * (n / 256 % p) + n % 256 == n % (256 * p)
  {
    var q, r := n / 256 / p, n / 256 % p;
    assert n / 256 == q * p + r;
    assert n == 256 * (q * p + r) + n % 256;
    var rest := 256 * r + n % 256;
    assert n == q * (256 * p) + rest;
    assert 0 <= rest < 256 * p;
    ModIs(n, 256 * p, q, rest);
  }

  lemma ModIs(n: int, m: int, q: int, r: int)
    requires m > 0 && n == q * m + r && 0 <= r < m
    ensures n % m == r
  {
    var q', r' := n / m, n % m;
    assert (q - q') * m == r' - r by {
      assert n == q' * m + r';
    }
    MultipleIsFar(q - q', m);
  }

  lemma MultipleIsFar(k: int, m: int)
    requires m > 0
    ensures k >= 1 ==> k * m >= m
    ensures k <= -1 ==> k * m <= -m
  {
  }

  // ------------------------------------------------------------------------ writing

  predicate Fits(patch: Patch, size: nat) {
    1 <= patch.length <= WORD_BYTES && patch.offset + patch.length <= size
  }

  predicate Covers(patch: Patch, k: int) {
    patch.offset <= k < patch.offset + patch.length
  }

  /** The code with one range overwritten. */
  function Spliced(code: seq<Byte>, w: Write): (r: seq<Byte>)
    requires Fits(w.patch, |code|)
    ensures |r| == |code|
  {
    code[..w.patch.offset] + ToBytes(w.value, WORD_BYTES)[WORD_BYTES - w.patch.length..]
        + code[w.patch.offset + w.patch.length..]
  }

  predicate AllFit(writes: seq<Write>, size: nat) {
    forall i | 0 <= i < |writes| :: Fits(writes[i].patch, size)
  }

  /** The ranges overwritten one after another. */
  function Written(code: seq<Byte>, writes: seq<Write>): (r: seq<Byte>)
    requires AllFit(writes, |code|)
    ensures |r| == |code|
  {
    if writes == [] then code else Spliced(Written(code, writes[..|writes| - 1]), writes[|writes| - 1])
  }

  /** The last range that covers a byte. */
  function LastOver(writes: seq<Write>, k: int): Option<Write> {
    if writes == [] then None
    else if Covers(writes[|writes| - 1].patch, k) then Some(writes[|writes| - 1])
    else LastOver(writes[..|writes| - 1], k)
  }

  /** Every byte is the template's, or that of the last range written over it. */
  lemma {:induction false} ByteOfWritten(code: seq<Byte>, writes: seq<Write>, k: nat)
    requires AllFit(writes, |code|) && k < |code|
    ensures LastOver(writes, k).None? ==> Written(code, writes)[k] == code[k]
    ensures LastOver(writes, k).Some? ==>
              var w := LastOver(writes, k).value;
              && Fits(w.patch, |code|) && Covers(w.patch, k)
              && Written(code, writes)[k] == ToBytes(w.value, w.patch.length)[k - w.patch.offset]
  {
    if writes != [] {
      var w := writes[|writes| - 1];
      ByteOfWritten(code, writes[..|writes| - 1], k);
      Suffix(w.value, WORD_BYTES, w.patch.length);
    }
  }

  predicate Disjoint(p: Patch, q: Patch) {
    p.offset + p.length <= q.offset || q.offset + q.length <= p.offset
  }

  predicate PairwiseDisjoint(writes: seq<Write>) {
    forall i, j | 0 <= i < j < |writes| :: Disjoint(writes[i].patch, writes[j].patch)
  }

  lemma {:induction false} OnlyCover(writes: seq<Write>, i: nat, k: int)
    requires PairwiseDisjoint(writes) && i < |writes| && Covers(writes[i].patch, k)
    ensures LastOver(writes, k) == Some(writes[i])
  {
    if i < |writes| - 1 {
      assert Disjoint(writes[i].patch, writes[|writes| - 1].patch);
      OnlyCover(writes[..|writes| - 1], i, k);
    }
  }

  lemma ByteOfRange(code: seq<Byte>, writes: seq<Write>, i: nat, k: nat)
    requires AllFit(writes, |code|) && PairwiseDisjoint(writes) && i < |writes| && k < writes[i].patch.length
    ensures Written(code, writes)[writes[i].patch.offset + k] == ToBytes(writes[i].value, writes[i].patch.length)[k]
  {
    hide Written, ToBytes, LastOver;
    OnlyCover(writes, i, writes[i].patch.offset + k);
    ByteOfWritten(code, writes, writes[i].patch.offset + k);
  }

  /** With disjoint ranges, every range reads back as the value written to it. */
  lemma RangeReadsBack(code: seq<Byte>, writes: seq<Write>, i: nat)
    requires AllFit(writes, |code|) && PairwiseDisjoint(writes) && i < |writes|
    ensures var p := writes[i].patch;
            FromBytes(Written(code, writes)[p.offset..p.offset + p.length]) == writes[i].value % Pow256(p.length)
  {
    var p := writes[i].patch;
    hide Written, ToBytes, FromBytes, Pow256, Disjoint;
    forall k | 0 <= k < p.length ensures Written(code, writes)[p.offset + k] == ToBytes(writes[i].value, p.length)[k] {
      ByteOfRange(code, writes, i, k);
    }
    assert Written(code, writes)[p.offset..p.offset + p.length] == ToBytes(writes[i].value, p.length);
    ReadBack(writes[i].value, p.length);
  }

  // ---------------------------------------------------------------------- rendering

  function WritesOf(patches: seq<Patch>, value: int): seq<Write> {
    seq(|patches|, i requires 0 <= i < |patches| => Write(patches[i], value))
  }

  /** The writes of the first `n` immutables; one without patches is skipped. */
  function AllWrites(fields: seq<Immutable>, n: nat): seq<Write>
    requires n <= |fields|
  {
    if n == 0 then []
    else AllWrites(fields, n - 1) + (if fields[n - 1].value.Some?
                                     then WritesOf(fields[n - 1].patches, fields[n - 1].value.value) else [])
  }

  predicate Renderable(fields: seq<Immutable>, size: nat) {
    forall i | 0 <= i < |fields| && fields[i].patches != [] ::
      fields[i].value.Some? && forall p | p in fields[i].patches :: Fits(p, size)
  }

  lemma WrittenMore(code: seq<Byte>, a: seq<Write>, b: Write)
    requires AllFit(a, |code|) && Fits(b.patch, |code|)
    ensures AllFit(a + [b], |code|) && Written(code, a + [b]) == Spliced(Written(code, a), b)
  {
    assert (a + [b])[..|a|] == a && (a + [b])[|a|] == b;
  }

  /** Overwrite one range in place. */
  method WriteRange(bytecode: array<Byte>, patch: Patch, value: int)
    requires Fits(patch, bytecode.Length)
    modifies bytecode
    ensures bytecode[..] == Spliced(old(bytecode[..]), Write(patch, value))
  {
    hide ToBytes;
    var word := ToBytes(value, WORD_BYTES);
    forall k | 0 <= k < patch.length {
      bytecode[patch.offset + k] := word[WORD_BYTES - patch.length + k];
    }
  }

  /** Range `i` is the first that is malformed, and the error says how. */
  predicate RangeRefused(field: nat, patches: seq<Patch>, i: nat, size: nat, error: Error)
    requires i < |patches|
  {
    && (forall j | 0 <= j < i :: Fits(patches[j], size))
    && if patches[i].length == 0 || patches[i].length > 32 then error == InvalidPatchLength(field, patches[i].length)
       else patches[i].offset + patches[i].length > size && error == PatchOutOfBounds(field, patches[i])
  }

  /** Field `n` is the first that cannot be written: it has no value, or a malformed range. */
  ghost predicate FieldRefused(fields: seq<Immutable>, n: nat, size: nat, error: Error)
    requires n < |fields|
  {
    && fields[n].patches != []
    && (forall m | 0 <= m < n && fields[m].patches != [] ::
          fields[m].value.Some? && forall p | p in fields[m].patches :: Fits(p, size))
    && if fields[n].value.None? then error == MissingImmutable(n)
       else exists i :: 0 <= i < |fields[n].patches| && RangeRefused(n, fields[n].patches, i, size, error)
  }

  /** Overwrite each range in place, or stop at the first that is malformed. */
  method PatchWord(bytecode: array<Byte>, field: nat, patches: seq<Patch>, value: int, ghost code: seq<Byte>,
                   ghost before: seq<Write>)
    returns (error: Option<Error>)
    requires |code| == bytecode.Length && AllFit(before, |code|) && bytecode[..] == Written(code, before)
    modifies bytecode
    ensures error.None? <==> forall p | p in patches :: Fits(p, bytecode.Length)
    ensures error.Some? ==>
              exists i :: 0 <= i < |patches| && RangeRefused(field, patches, i, bytecode.Length, error.value)
    ensures error.None? ==>
              AllFit(before + WritesOf(patches, value), |code|)
              && bytecode[..] == Written(code, before + WritesOf(patches, value))
  {
    hide Written, Spliced, ToBytes;
    error := None;
    assert before + WritesOf(patches, value)[..0] == before;
    for i := 0 to |patches|
      invariant error.None?
      invariant forall j | 0 <= j < i :: Fits(patches[j], bytecode.Length)
      invariant AllFit(before + WritesOf(patches, value)[..i], |code|)
              && bytecode[..] == Written(code, before + WritesOf(patches, value)[..i])
    {
      var patch := patches[i];
      assert patch in patches;
      if patch.length == 0 || patch.length > WORD_BYTES {
        assert RangeRefused(field, patches, i, bytecode.Length, InvalidPatchLength(field, patch.length));
        return Some(InvalidPatchLength(field, patch.length));
      }
      if patch.offset + patch.length > bytecode.Length {
        assert RangeRefused(field, patches, i, bytecode.Length, PatchOutOfBounds(field, patch));
        return Some(PatchOutOfBounds(field, patch));
      }
      ghost var done := before + WritesOf(patches, value)[..i];
      assert before + WritesOf(patches, value)[..i + 1] == done + [Write(patch, value)];
      WrittenMore(code, done, Write(patch, value));
      WriteRange(bytecode, patch, value);
    }
    assert WritesOf(patches, value)[..|patches|] == WritesOf(patches, value);
  }

  lemma NoWrites(template: seq<Byte>, fields: seq<Immutable>)
    ensures AllFit(AllWrites(fields, 0), |template|) && Written(template, AllWrites(fields, 0)) == template
  {
  }

  lemma OneMoreField(fields: seq<Immutable>, n: nat)
    requires n < |fields|
    ensures fields[n].patches == [] ==> AllWrites(fields, n + 1) == AllWrites(fields, n)
    ensures fields[n].value.Some? ==>
              AllWrites(fields, n + 1)
              == AllWrites(fields, n) + WritesOf(fields[n].patches, fields[n].value.value)
  {
  }

  /** Render the code of one pool: every immutable with patches is written, in field order. */
  method Render(template: seq<Byte>, fields: seq<Immutable>) returns (r: Result<seq<Byte>, Error>)
    ensures r.Ok? <==> Renderable(fields, |template|)
    ensures r.Err? ==> exists n :: 0 <= n < |fields| && FieldRefused(fields, n, |template|, r.error)
    ensures r.Ok? ==>
              AllFit(AllWrites(fields, |fields|), |template|)
              && r.value == Written(template, AllWrites(fields, |fields|))
  {
    hide Written, AllWrites, WritesOf, Fits;
    var bytecode := new Byte[|template|](i requires 0 <= i < |template| => template[i]);
    NoWrites(template, fields);
    for n := 0 to |fields|
      invariant forall i | 0 <= i < n && fields[i].patches != [] ::
                  fields[i].value.Some?
                  && forall p | p in fields[i].patches :: Fits(p, |template|)
      invariant AllFit(AllWrites(fields, n), |template|) && bytecode[..] == Written(template, AllWrites(fields, n))
    {
      OneMoreField(fields, n);
      if fields[n].patches != [] {
        if fields[n].value.None? {
          assert FieldRefused(fields, n, |template|, MissingImmutable(n));
          return Err(MissingImmutable(n));
        }
        var error := PatchWord(bytecode, n, fields[n].patches, fields[n].value.value, template, AllWrites(fields, n));
        if error.Some? {
          assert FieldRefused(fields, n, |template|, error.value);
          return Err(error.value);
        }
      }
    }
    r := Ok(bytecode[..]);
  }
}
