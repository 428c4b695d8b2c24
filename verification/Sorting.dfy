/** Stable sorting by a total preorder, and dropping consecutive repeats. */
module Sorting {
  import opened Wrappers

  /** `leq` compares any two values, ties included. */
  ghost predicate TotalPreorder<T(!new)>(leq: (T, T) -> bool) {
    && (forall x, y :: leq(x, y) || leq(y, x))
    && (forall x, y, z :: leq(x, y) && leq(y, z) ==> leq(x, z))
  }

  predicate Sorted<T>(s: seq<T>, leq: (T, T) -> bool) {
    forall i, j | 0 <= i < j < |s| :: leq(s[i], s[j])
  }

  /** Put `x` after everything that is not greater. */
  function InsertLast<T>(s: seq<T>, x: T, leq: (T, T) -> bool): seq<T> {
    if s == [] || leq(s[|s| - 1], x) then s + [x] else InsertLast(s[..|s| - 1], x, leq) + [s[|s| - 1]]
  }

  /** Sort, keeping tied values in their order. */
  function StableSort<T>(s: seq<T>, leq: (T, T) -> bool): seq<T> {
    if s == [] then [] else InsertLast(StableSort(s[..|s| - 1], leq), s[|s| - 1], leq)
  }

  /** Drop every value equal to the one before it. */
  function Dedup<T(==)>(s: seq<T>): seq<T> {
    if s == [] then []
    else
      var before := Dedup(s[..|s| - 1]);
      if before != [] && before[|before| - 1] == s[|s| - 1] then before else before + [s[|s| - 1]]
  }

  function Canonical<T(==)>(s: seq<T>, leq: (T, T) -> bool): seq<T> {
    Dedup(StableSort(s, leq))
  }

  // ---------------------------------------------------------------------- sorting

  lemma {:induction false} InsertKeepsElements<T>(s: seq<T>, x: T, leq: (T, T) -> bool)
    ensures multiset(InsertLast(s, x, leq)) == multiset(s) + multiset{x}
  {
    if s != [] && !leq(s[|s| - 1], x) {
      InsertKeepsElements(s[..|s| - 1], x, leq);
      assert s == s[..|s| - 1] + [s[|s| - 1]];
    }
  }

  lemma {:induction false} InsertKeepsSorted<T(!new)>(s: seq<T>, x: T, leq: (T, T) -> bool)
    requires TotalPreorder(leq) && Sorted(s, leq)
    ensures Sorted(InsertLast(s, x, leq), leq)
  {
    if s != [] && !leq(s[|s| - 1], x) {
      var front, last := s[..|s| - 1], s[|s| - 1];
      InsertKeepsSorted(front, x, leq);
      InsertKeepsElements(front, x, leq);
      var r := InsertLast(front, x, leq);
      forall i | 0 <= i < |r| ensures leq(r[i], last) {
        assert r[i] in multiset(r);
        assert r[i] == x || r[i] in multiset(front);
      }
    }
  }

  lemma {:induction false} StableSortSorts<T(!new)>(s: seq<T>, leq: (T, T) -> bool)
    requires TotalPreorder(leq)
    ensures Sorted(StableSort(s, leq), leq)
    ensures multiset(StableSort(s, leq)) == multiset(s)
  {
    hide TotalPreorder, InsertLast;
    if s != [] {
      StableSortSorts(s[..|s| - 1], leq);
      InsertKeepsSorted(StableSort(s[..|s| - 1], leq), s[|s| - 1], leq);
      InsertKeepsElements(StableSort(s[..|s| - 1], leq), s[|s| - 1], leq);
      assert s == s[..|s| - 1] + [s[|s| - 1]];
    }
  }

  /** A sorted list is left alone. */
  lemma {:induction false} SortedStays<T>(s: seq<T>, leq: (T, T) -> bool)
    requires Sorted(s, leq)
    ensures StableSort(s, leq) == s
  {
    if s != [] {
      SortedStays(s[..|s| - 1], leq);
      assert |s| > 1 ==> leq(s[|s| - 2], s[|s| - 1]);
      assert s == s[..|s| - 1] + [s[|s| - 1]];
    }
  }

  // ----------------------------------------------------------------- dropping repeats

  predicate NoConsecutiveRepeats<T(==)>(s: seq<T>) {
    forall i | 0 <= i < |s| - 1 :: s[i] != s[i + 1]
  }

  lemma {:induction false} DedupFacts<T(!new)>(s: seq<T>, leq: (T, T) -> bool)
    requires Sorted(s, leq)
    ensures NoConsecutiveRepeats(Dedup(s)) && Sorted(Dedup(s), leq)
    ensures forall x :: x in Dedup(s) <==> x in s
    ensures s != [] ==> Dedup(s) != [] && Dedup(s)[|Dedup(s)| - 1] == s[|s| - 1]
  {
    if s != [] {
      var front := s[..|s| - 1];
      DedupFacts(front, leq);
      assert s == front + [s[|s| - 1]];
      var before, last := Dedup(front), s[|s| - 1];
      forall i | 0 <= i < |before| ensures leq(before[i], last) {
        assert before[i] in front;
      }
      if before != [] && before[|before| - 1] == last {
        assert last in before;
      } else {
        assert Dedup(s) == before + [last];
        assert NoConsecutiveRepeats(before + [last]);
      }
    }
  }

  lemma {:induction false} DedupStays<T>(s: seq<T>)
    requires NoConsecutiveRepeats(s)
    ensures Dedup(s) == s
  {
    if s != [] {
      DedupStays(s[..|s| - 1]);
      assert |s| > 1 ==> s[|s| - 2] != s[|s| - 1];
      assert s == s[..|s| - 1] + [s[|s| - 1]];
    }
  }

  /** Putting a canonical list into canonical form again changes nothing. */
  lemma CanonicalIsStable<T(!new)>(s: seq<T>, leq: (T, T) -> bool)
    requires TotalPreorder(leq)
    ensures Canonical(Canonical(s, leq), leq) == Canonical(s, leq)
    ensures Sorted(Canonical(s, leq), leq) && forall x :: x in Canonical(s, leq) <==> x in s
  {
    StableSortSorts(s, leq);
    DedupFacts(StableSort(s, leq), leq);
    SortedStays(Canonical(s, leq), leq);
    DedupStays(Canonical(s, leq));
    assert forall x :: x in StableSort(s, leq) <==> x in multiset(StableSort(s, leq));
    assert forall x :: x in s <==> x in multiset(s);
  }

  // ------------------------------------------------------------------- order and ties

  /** No two different values compare as equal. */
  predicate TieFree<T(==)>(s: seq<T>, leq: (T, T) -> bool) {
    forall i, j | 0 <= i < |s| && 0 <= j < |s| && leq(s[i], s[j]) && leq(s[j], s[i]) :: s[i] == s[j]
  }

  ghost predicate SameElements<T(!new)>(s: seq<T>, t: seq<T>) {
    forall x :: x in s <==> x in t
  }

  lemma LastIsGreatest<T(!new)>(a: seq<T>, x: T, leq: (T, T) -> bool)
    requires TotalPreorder(leq) && Sorted(a, leq) && x in a
    ensures leq(x, a[|a| - 1])
  {
    var j :| 0 <= j < |a| && a[j] == x;
    assert leq(x, x);
  }

  lemma WithoutLast<T(!new)>(a: seq<T>, b: seq<T>, leq: (T, T) -> bool)
    requires Sorted(a, leq) && Sorted(b, leq) && TieFree(a, leq) && TieFree(b, leq)
    requires NoConsecutiveRepeats(a) && NoConsecutiveRepeats(b) && SameElements(a, b)
    requires a != [] && b != [] && a[|a| - 1] == b[|b| - 1]
    ensures SameElements(a[..|a| - 1], b[..|b| - 1])
  {
    LastIsUnique(a, leq);
    LastIsUnique(b, leq);
    var a', b', x := a[..|a| - 1], b[..|b| - 1], a[|a| - 1];
    assert a == a' + [x] && b == b' + [x];
    forall z ensures z in a' <==> z in b' {
      assert z in a <==> z in b;
    }
  }

  /** Sorted, without repeats, and tie-free lists of the same elements are equal. */
  lemma {:induction false} SortedIsUnique<T(!new)>(a: seq<T>, b: seq<T>, leq: (T, T) -> bool)
    requires TotalPreorder(leq) && Sorted(a, leq) && Sorted(b, leq) && TieFree(a, leq) && TieFree(b, leq)
    requires NoConsecutiveRepeats(a) && NoConsecutiveRepeats(b) && SameElements(a, b)
    ensures a == b
  {
    assert (|a| > 0 ==> a[|a| - 1] in b) && (|b| > 0 ==> b[|b| - 1] in a);
    if a != [] && b != [] {
      hide TotalPreorder;
      LastIsGreatest(b, a[|a| - 1], leq);
      LastIsGreatest(a, b[|b| - 1], leq);
      WithoutLast(a, b, leq);
      SortedIsUnique(a[..|a| - 1], b[..|b| - 1], leq);
      assert a == a[..|a| - 1] + [a[|a| - 1]] && b == b[..|b| - 1] + [b[|b| - 1]];
    }
  }

  lemma LastIsUnique<T(!new)>(a: seq<T>, leq: (T, T) -> bool)
    requires Sorted(a, leq) && TieFree(a, leq) && NoConsecutiveRepeats(a) && a != []
    ensures a[|a| - 1] !in a[..|a| - 1]
  {
    forall i | 0 <= i < |a| - 1 ensures a[i] != a[|a| - 1] {
      assert i == |a| - 2 || leq(a[i], a[|a| - 2]);
      assert leq(a[|a| - 2], a[|a| - 1]) && a[|a| - 2] != a[|a| - 1];
    }
  }

  lemma TieFreeWithin<T(!new)>(s: seq<T>, c: seq<T>, leq: (T, T) -> bool)
    requires TieFree(s, leq) && forall x | x in c :: x in s
    ensures TieFree(c, leq)
  {
    forall i, j | 0 <= i < |c| && 0 <= j < |c| && leq(c[i], c[j]) && leq(c[j], c[i]) ensures c[i] == c[j] {
      assert c[i] in s && c[j] in s;
    }
  }

  /** Without ties, the canonical form depends only on which elements there are. */
  lemma CanonicalIgnoresOrder<T(!new)>(s: seq<T>, t: seq<T>, leq: (T, T) -> bool)
    requires TotalPreorder(leq) && TieFree(s, leq) && SameElements(s, t)
    ensures Canonical(s, leq) == Canonical(t, leq)
  {
    hide TotalPreorder, Sorted, StableSort, Dedup, NoConsecutiveRepeats, TieFree;
    CanonicalIsStable(s, leq);
    CanonicalIsStable(t, leq);
    StableSortSorts(s, leq);
    StableSortSorts(t, leq);
    DedupFacts(StableSort(s, leq), leq);
    DedupFacts(StableSort(t, leq), leq);
    TieFreeWithin(s, Canonical(s, leq), leq);
    TieFreeWithin(s, Canonical(t, leq), leq);
    SortedIsUnique(Canonical(s, leq), Canonical(t, leq), leq);
  }

  predicate Tied<T>(x: T, y: T, leq: (T, T) -> bool) {
    leq(x, y) && leq(y, x)
  }

  /** The first value that ties with `a`. */
  function FirstTied<T>(s: seq<T>, a: T, leq: (T, T) -> bool): Option<T> {
    if s == [] then None
    else
      var before := FirstTied(s[..|s| - 1], a, leq);
      if before.Some? then before else if Tied(s[|s| - 1], a, leq) then Some(s[|s| - 1]) else None
  }

  lemma FirstTiedAppend<T>(s: seq<T>, x: T, a: T, leq: (T, T) -> bool)
    ensures FirstTied(s + [x], a, leq) ==
            if FirstTied(s, a, leq).Some? then FirstTied(s, a, leq) else if Tied(x, a, leq) then Some(x) else None
  {
    assert (s + [x])[..|s|] == s;
  }

  lemma {:induction false} InsertKeepsFirstTied<T(!new)>(s: seq<T>, x: T, a: T, leq: (T, T) -> bool)
    requires TotalPreorder(leq)
    ensures FirstTied(InsertLast(s, x, leq), a, leq) ==
            if FirstTied(s, a, leq).Some? then FirstTied(s, a, leq) else if Tied(x, a, leq) then Some(x) else None
  {
    if s == [] || leq(s[|s| - 1], x) {
      FirstTiedAppend(s, x, a, leq);
    } else {
      var front, last := s[..|s| - 1], s[|s| - 1];
      InsertKeepsFirstTied(front, x, a, leq);
      FirstTiedAppend(InsertLast(front, x, leq), last, a, leq);
    }
  }

  lemma {:induction false} SortKeepsFirstTied<T(!new)>(s: seq<T>, a: T, leq: (T, T) -> bool)
    requires TotalPreorder(leq)
    ensures FirstTied(StableSort(s, leq), a, leq) == FirstTied(s, a, leq)
  {
    if s != [] {
      SortKeepsFirstTied(s[..|s| - 1], a, leq);
      InsertKeepsFirstTied(StableSort(s[..|s| - 1], leq), s[|s| - 1], a, leq);
    }
  }

  lemma {:induction false} FirstTiedNone<T>(s: seq<T>, a: T, leq: (T, T) -> bool)
    requires FirstTied(s, a, leq).None?
    ensures forall x | x in s :: !Tied(x, a, leq)
  {
    if s != [] {
      FirstTiedNone(s[..|s| - 1], a, leq);
    }
  }

  lemma {:induction false} DedupKeepsFirstTied<T>(s: seq<T>, a: T, leq: (T, T) -> bool)
    ensures FirstTied(Dedup(s), a, leq) == FirstTied(s, a, leq)
  {
    if s != [] {
      var before := Dedup(s[..|s| - 1]);
      DedupKeepsFirstTied(s[..|s| - 1], a, leq);
      if before != [] && before[|before| - 1] == s[|s| - 1] {
        if FirstTied(before, a, leq).None? {
          FirstTiedNone(before, a, leq);
          assert before[|before| - 1] in before;
        }
      } else {
        FirstTiedAppend(before, s[|s| - 1], a, leq);
      }
    }
  }

  lemma {:induction false} FirstTiedPrefix<T>(s: seq<T>, t: seq<T>, a: T, leq: (T, T) -> bool)
    requires FirstTied(s, a, leq).Some?
    ensures FirstTied(s + t, a, leq) == FirstTied(s, a, leq)
  {
    if t == [] {
      assert s + t == s;
    } else {
      FirstTiedPrefix(s, t[..|t| - 1], a, leq);
      assert s + t == (s + t[..|t| - 1]) + [t[|t| - 1]];
      FirstTiedAppend(s + t[..|t| - 1], t[|t| - 1], a, leq);
    }
  }

  /** The canonical form of a list that starts with `a` shows `a` first among its ties. */
  lemma StartsItsTies<T(!new)>(a: T, s: seq<T>, leq: (T, T) -> bool)
    requires TotalPreorder(leq)
    ensures FirstTied(Canonical([a] + s, leq), a, leq) == Some(a)
  {
    assert leq(a, a);
    assert [a][..0] == [];
    assert FirstTied([a], a, leq) == Some(a);
    FirstTiedPrefix([a], s, a, leq);
    SortKeepsFirstTied([a] + s, a, leq);
    DedupKeepsFirstTied(StableSort([a] + s, leq), a, leq);
  }

  lemma {:induction false} SameTies<T(!new)>(s: seq<T>, a: T, b: T, leq: (T, T) -> bool)
    requires TotalPreorder(leq) && Tied(a, b, leq)
    ensures FirstTied(s, a, leq) == FirstTied(s, b, leq)
  {
    if s != [] {
      SameTies(s[..|s| - 1], a, b, leq);
    }
  }

  /** The list with one element moved to the front. */
  function ToFront<T>(s: seq<T>, k: nat): seq<T>
    requires k < |s|
  {
    [s[k]] + (s[..k] + s[k + 1..])
  }

  lemma ToFrontReorders<T(!new)>(s: seq<T>, k: nat)
    requires k < |s|
    ensures multiset(ToFront(s, k)) == multiset(s)
    ensures SameElements(s, ToFront(s, k))
  {
    assert s == s[..k] + [s[k]] + s[k + 1..];
    forall x ensures x in s <==> x in ToFront(s, k) {
      assert x in s <==> x in multiset(s);
      assert x in ToFront(s, k) <==> x in multiset(ToFront(s, k));
    }
  }

  /** With a tie, moving one element to the front changes the canonical form. */
  lemma TiesShowTheOrder<T(!new)>(s: seq<T>, leq: (T, T) -> bool) returns (k: nat)
    requires TotalPreorder(leq) && !TieFree(s, leq)
    ensures k < |s| && multiset(ToFront(s, k)) == multiset(s)
    ensures Canonical(ToFront(s, k), leq) != Canonical(s, leq)
  {
    var i, j :| 0 <= i < |s| && 0 <= j < |s| && leq(s[i], s[j]) && leq(s[j], s[i]) && s[i] != s[j];
    var a, b := s[i], s[j];
    hide StableSort, Dedup, TotalPreorder;
    StartsItsTies(a, s[..i] + s[i + 1..], leq);
    StartsItsTies(b, s[..j] + s[j + 1..], leq);
    SameTies(Canonical(ToFront(s, j), leq), a, b, leq);
    k := if Canonical(ToFront(s, i), leq) != Canonical(s, leq) then i else j;
    ToFrontReorders(s, k);
  }
}
