/**
 Order-preserving selection: a list of positions that names, in increasing order, exactly
 the chosen positions of another list. It says what a filtering loop must produce
 without saying how.
 */
module Picks {
  /** The chosen positions below `n`, each once, in increasing order. */
  ghost predicate Picked(at: seq<nat>, n: nat, chosen: nat -> bool) {
    && (forall i, j | 0 <= i < j < |at| :: at[i] < at[j])
    && (forall k: nat :: k in at <==> k < n && chosen(k))
  }

  lemma NonePicked(chosen: nat -> bool)
    ensures Picked([], 0, chosen)
  {
  }

  /** One more position: it comes last if it is chosen, and otherwise changes nothing. */
  lemma PickOneMore(at: seq<nat>, n: nat, chosen: nat -> bool)
    requires Picked(at, n, chosen)
    ensures Picked(if chosen(n) then at + [n] else at, n + 1, chosen)
  {
    forall i | 0 <= i < |at| ensures at[i] < n {
      assert at[i] in at;
    }
  }

  /** Only the choice below `n` matters. */
  lemma PickedAgree(at: seq<nat>, n: nat, chosen: nat -> bool, other: nat -> bool)
    requires Picked(at, n, chosen) && forall k | 0 <= k < n :: chosen(k) == other(k)
    ensures Picked(at, n, other)
  {
  }

  lemma PickedBelow(at: seq<nat>, n: nat, chosen: nat -> bool)
    requires Picked(at, n, chosen)
    ensures forall i | 0 <= i < |at| :: at[i] < n && chosen(at[i])
  {
    forall i | 0 <= i < |at| ensures at[i] < n && chosen(at[i]) {
      assert at[i] in at;
    }
  }

  /** There is only one such list. */
  lemma SamePicks(a: seq<nat>, b: seq<nat>, n: nat, chosen: nat -> bool)
    requires Picked(a, n, chosen) && Picked(b, n, chosen)
    ensures a == b
  {
    IncreasingIsUnique(a, b);
  }

  lemma {:induction false} IncreasingIsUnique(a: seq<nat>, b: seq<nat>)
    requires forall i, j | 0 <= i < j < |a| :: a[i] < a[j]
    requires forall i, j | 0 <= i < j < |b| :: b[i] < b[j]
    requires forall k: nat :: k in a <==> k in b
    ensures a == b
  {
    assert |a| == 0 || a[0] in b;
    assert |b| == 0 || b[0] in a;
    if a != [] && b != [] {
      assert a[0] == b[0];
      forall k: nat ensures k in a[1..] <==> k in b[1..] {
        assert a == [a[0]] + a[1..] && b == [b[0]] + b[1..];
        assert k in a[1..] <==> k in a && k != a[0];
        assert k in b[1..] <==> k in b && k != b[0];
      }
      IncreasingIsUnique(a[1..], b[1..]);
      assert a == [a[0]] + a[1..] && b == [b[0]] + b[1..];
    }
  }

  /** The position shows something that no earlier position shows. */
  function FirstOccurrence<K(==)>(shown: seq<K>): nat -> bool {
    (i: nat) => i < |shown| && shown[i] !in shown[..i]
  }

  lemma OneMoreOccurrence<K>(front: seq<K>, next: K)
    ensures FirstOccurrence(front + [next])(|front|) <==> next !in front
    ensures forall i | 0 <= i < |front| :: FirstOccurrence(front + [next])(i) == FirstOccurrence(front)(i)
  {
    var shown := front + [next];
    assert shown[..|front|] == front;
    forall i | 0 <= i < |front| ensures FirstOccurrence(shown)(i) == FirstOccurrence(front)(i) {
      assert shown[..i] == front[..i];
    }
  }

  /** One more position joins the first occurrences exactly when it shows something new. */
  lemma PickFirstOccurrence<K>(at: seq<nat>, front: seq<K>, next: K)
    requires Picked(at, |front|, FirstOccurrence(front))
    ensures Picked(if next in front then at else at + [|front|], |front| + 1, FirstOccurrence(front + [next]))
  {
    hide Picked, FirstOccurrence;
    OneMoreOccurrence(front, next);
    PickedAgree(at, |front|, FirstOccurrence(front), FirstOccurrence(front + [next]));
    PickOneMore(at, |front|, FirstOccurrence(front + [next]));
  }
}
