/** Sorting a list of words and dropping repeats. */
module SortedWords {
  import opened Words
  import opened Sorting

  predicate WordLeq(a: Word, b: Word) {
    a <= b
  }

  predicate StrictlyIncreasing(s: seq<Word>) {
    forall i, j | 0 <= i < j < |s| :: s[i] < s[j]
  }

  /** The sorted list of the distinct elements. */
  function SortedDistinct(s: seq<Word>): (r: seq<Word>)
    ensures StrictlyIncreasing(r)
    ensures forall y :: y in r <==> y in s
  {
    CanonicalWords(s);
    Canonical(s, WordLeq)
  }

  lemma CanonicalWords(s: seq<Word>)
    ensures StrictlyIncreasing(Canonical(s, WordLeq))
    ensures forall y :: y in Canonical(s, WordLeq) <==> y in s
  {
    CanonicalIsStable(s, WordLeq);
    StableSortSorts(s, WordLeq);
    DedupFacts(StableSort(s, WordLeq), WordLeq);
    var c := Canonical(s, WordLeq);
    forall i, j | 0 <= i < j < |c| ensures c[i] < c[j] {
      assert WordLeq(c[i], c[i + 1]) && c[i] != c[i + 1];
      assert i + 1 == j || WordLeq(c[i + 1], c[j]);
    }
  }

  lemma AlreadySorted(s: seq<Word>)
    requires StrictlyIncreasing(s)
    ensures SortedDistinct(s) == s
  {
    SortedStays(s, WordLeq);
    DedupStays(s);
  }
}
