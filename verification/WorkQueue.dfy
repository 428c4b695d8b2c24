/**
 The scheduler's priority queue: strict priority between work classes, FIFO inside
 a class, at most eight consecutive quanta for the highest class while a lower one
 waits, and a cursor that rotates the aged quantum over the waiting lower classes.

 The class PriorityQueue works in place; the value Queue is its state, and the
 functions on it are what the methods are proved against. The lemmas of this
 module and of QueueFairness speak about those functions.
 */
module WorkQueue {
  import opened Wrappers

  /** AmmWorkClass has six values, declared from the most to the least urgent. */
  const CLASS_COUNT: nat := 6

  /** Quanta granted to one class before a waiting lower class is served. */
  const PRIORITY_BURST_QUANTA: nat := 8

  /** A work class by its rank; a smaller rank is more urgent. */
  type WorkClass = c: nat | c < CLASS_COUNT witness 0

  datatype Queue<T> = Queue(
    byClass: map<WorkClass, seq<T>>,
    lastClass: Option<WorkClass>,
    consecutive: nat,
    agingCursor: Option<WorkClass>)

  function EmptyQueue<T>(): Queue<T> {
    Queue(map[], None, 0, None)
  }

  /** Jobs waiting in one class; a class never pushed to has none. */
  function Jobs<T>(q: Queue<T>, c: WorkClass): seq<T> {
    if c in q.byClass then q.byClass[c] else []
  }

  /** The most urgent class at or after `from` that has a waiting job. */
  function FirstWaiting<T>(q: Queue<T>, from: nat): (r: Option<WorkClass>)
    ensures r.Some? ==> from <= r.value && Jobs(q, r.value) != []
    ensures r.Some? ==> forall c: WorkClass | from <= c < r.value :: Jobs(q, c) == []
    ensures r.None? ==> forall c: WorkClass | from <= c :: Jobs(q, c) == []
    decreases CLASS_COUNT - from
  {
    if from >= CLASS_COUNT then None
    else if Jobs(q, from) != [] then Some(from)
    else FirstWaiting(q, from + 1)
  }

  predicate BurstSpent<T>(q: Queue<T>, highest: WorkClass) {
    q.lastClass == Some(highest) && q.consecutive >= PRIORITY_BURST_QUANTA
  }

  /** Rank after which the search for an aged class starts. */
  function AgingBound<T>(q: Queue<T>, highest: WorkClass): WorkClass {
    if q.agingCursor.Some? && q.agingCursor.value > highest then q.agingCursor.value else highest
  }

  /** The waiting class that follows the cursor, wrapping round to just below `highest`. */
  function Aged<T>(q: Queue<T>, highest: WorkClass): Option<WorkClass> {
    var after := FirstWaiting(q, AgingBound(q, highest) + 1);
    if after.Some? then after else FirstWaiting(q, highest + 1)
  }

  /** The class the next pop serves, if any job waits. */
  function NextClass<T>(q: Queue<T>): (r: Option<WorkClass>)
    ensures r.Some? ==> Jobs(q, r.value) != []
  {
    var highest := FirstWaiting(q, 0);
    if highest.None? then None
    else if BurstSpent(q, highest.value) && Aged(q, highest.value).Some? then Aged(q, highest.value)
    else highest
  }

  function NextJob<T>(q: Queue<T>): Option<T> {
    var c := NextClass(q);
    if c.None? then None else Some(Jobs(q, c.value)[0])
  }

  function Popped<T>(q: Queue<T>): Queue<T> {
    var next := NextClass(q);
    if next.None? then q else
      var c := next.value;
      var aged := c != FirstWaiting(q, 0).value;
      Queue(
        q.byClass[c := Jobs(q, c)[1..]],
        Some(c),
        if q.lastClass == Some(c) then q.consecutive + 1 else 1,
        if aged then Some(c) else q.agingCursor)
  }

  function Pushed<T>(q: Queue<T>, c: WorkClass, job: T): Queue<T> {
    q.(byClass := q.byClass[c := Jobs(q, c) + [job]])
  }

  /** Position of the first job in `jobs` that satisfies `matches`. */
  function FirstMatch<T>(jobs: seq<T>, matches: T -> bool): (r: Option<nat>)
    ensures r.Some? ==> r.value < |jobs| && matches(jobs[r.value])
    ensures r.Some? ==> forall i | 0 <= i < r.value :: !matches(jobs[i])
    ensures r.None? ==> forall i | 0 <= i < |jobs| :: !matches(jobs[i])
  {
    if jobs == [] then None
    else if matches(jobs[0]) then Some(0)
    else
      var rest := FirstMatch(jobs[1..], matches);
      if rest.Some? then Some(rest.value + 1) else None
  }

  /** The most urgent class at or after `from` holding a matching job. */
  function MatchClass<T>(q: Queue<T>, matches: T -> bool, from: nat): (r: Option<WorkClass>)
    ensures r.Some? ==> from <= r.value && FirstMatch(Jobs(q, r.value), matches).Some?
    ensures r.Some? ==> forall c: WorkClass | from <= c < r.value :: FirstMatch(Jobs(q, c), matches).None?
    ensures r.None? ==> forall c: WorkClass | from <= c :: FirstMatch(Jobs(q, c), matches).None?
    decreases CLASS_COUNT - from
  {
    if from >= CLASS_COUNT then None
    else if FirstMatch(Jobs(q, from), matches).Some? then Some(from)
    else MatchClass(q, matches, from + 1)
  }

  function Match<T>(q: Queue<T>, matches: T -> bool): Option<T> {
    var c := MatchClass(q, matches, 0);
    if c.None? then None
    else Some(Jobs(q, c.value)[FirstMatch(Jobs(q, c.value), matches).value])
  }

  function WithoutMatch<T>(q: Queue<T>, matches: T -> bool): Queue<T> {
    var c := MatchClass(q, matches, 0);
    if c.None? then q else
      var jobs := Jobs(q, c.value);
      var i := FirstMatch(jobs, matches).value;
      q.(byClass := q.byClass[c.value := jobs[..i] + jobs[i + 1..]])
  }

  /** Every waiting job, class by class. */
  function DrainedFrom<T>(q: Queue<T>, from: nat): seq<T>
    decreases CLASS_COUNT - from
  {
    if from >= CLASS_COUNT then [] else Jobs(q, from) + DrainedFrom(q, from + 1)
  }

  class PriorityQueue<T> {
    var byClass: map<WorkClass, seq<T>>
    var lastClass: Option<WorkClass>
    var consecutive: nat
    var agingCursor: Option<WorkClass>

    function State(): Queue<T>
      reads this
    {
      Queue(byClass, lastClass, consecutive, agingCursor)
    }

    constructor ()
      ensures State() == EmptyQueue()
    {
      byClass, lastClass, consecutive, agingCursor := map[], None, 0, None;
    }

    function Waiting(c: WorkClass): (jobs: seq<T>)
      reads this
      ensures jobs == Jobs(State(), c)
    {
      if c in byClass then byClass[c] else []
    }

    /** First waiting class at or after `from`, by scanning the ordered map. */
    method FindWaiting(from: nat) returns (r: Option<WorkClass>)
      ensures r == FirstWaiting(State(), from)
    {
      var c := from;
      while c < CLASS_COUNT
        invariant from <= c
        invariant c <= CLASS_COUNT || c == from
        invariant FirstWaiting(State(), from) == FirstWaiting(State(), c)
      {
        if Waiting(c) != [] {
          return Some(c);
        }
        c := c + 1;
      }
      r := None;
    }

    method Push(c: WorkClass, job: T)
      modifies this
      ensures State() == Pushed(old(State()), c, job)
    {
      byClass := byClass[c := Waiting(c) + [job]];
    }

    method Pop() returns (job: Option<T>)
      modifies this
      ensures job == NextJob(old(State()))
      ensures State() == Popped(old(State()))
    {
      hide FirstWaiting;
      var highest := FindWaiting(0);
      if highest.None? {
        return None;
      }
      var selected := highest.value;
      if lastClass == highest && consecutive >= PRIORITY_BURST_QUANTA {
        var lowerBound: nat := highest.value;
        if agingCursor.Some? && agingCursor.value > highest.value {
          lowerBound := agingCursor.value;
        }
        var aged := FindWaiting(lowerBound + 1);
        if aged.None? {
          var belowHighest: nat := highest.value;
          aged := FindWaiting(belowHighest + 1);
        }
        if aged.Some? {
          agingCursor := aged;
          selected := aged.value;
        }
      }
      if lastClass == Some(selected) {
        consecutive := consecutive + 1;
      } else {
        lastClass := Some(selected);
        consecutive := 1;
      }
      job := Some(byClass[selected][0]);
      byClass := byClass[selected := byClass[selected][1..]];
    }

    method RemoveWhere(matches: T -> bool) returns (job: Option<T>)
      modifies this
      ensures job == Match(old(State()), matches)
      ensures State() == WithoutMatch(old(State()), matches)
    {
      var c: nat := 0;
      while c < CLASS_COUNT
        invariant c <= CLASS_COUNT
        invariant State() == old(State())
        invariant MatchClass(State(), matches, 0) == MatchClass(State(), matches, c)
      {
        var jobs := Waiting(c);
        var i := FirstMatch(jobs, matches);
        if i.Some? {
          byClass := byClass[c := jobs[..i.value] + jobs[i.value + 1..]];
          return Some(jobs[i.value]);
        }
        c := c + 1;
      }
      job := None;
    }

    /** Empty every class, yielding the jobs in class order. */
    method Drain() returns (jobs: seq<T>)
      modifies this
      ensures jobs == All(old(State()))
      ensures forall c: WorkClass :: Jobs(State(), c) == []
      ensures State() == old(State()).(byClass := State().byClass)
    {
      hide DrainedFrom;
      ghost var before := State();
      jobs := [];
      NothingEmptied(before);
      var c: nat := 0;
      while c < CLASS_COUNT
        invariant c <= CLASS_COUNT
        invariant State() == before.(byClass := byClass)
        invariant EmptiedBelow(State(), before, c)
        invariant jobs + DrainedFrom(before, c) == DrainedFrom(before, 0)
      {
        DrainedUnfold(before, c);
        ClassEmptied(State(), before, c);
        jobs := jobs + Waiting(c);
        if c in byClass {
          byClass := byClass[c := []];
        }
        c := c + 1;
      }
      AllEmptied(State(), before);
    }
  }

  /** The classes more urgent than `c` have been emptied and the others are as in `before`. */
  ghost predicate EmptiedBelow<T>(q: Queue<T>, before: Queue<T>, c: nat) {
    forall d: WorkClass :: Jobs(q, d) == if d < c then [] else Jobs(before, d)
  }

  lemma NothingEmptied<T>(q: Queue<T>)
    ensures EmptiedBelow(q, q, 0)
  {
  }

  lemma ClassEmptied<T>(q: Queue<T>, before: Queue<T>, c: WorkClass)
    requires EmptiedBelow(q, before, c)
    ensures Jobs(q, c) == Jobs(before, c)
    ensures EmptiedBelow(if c in q.byClass then q.(byClass := q.byClass[c := []]) else q, before, c + 1)
  {
    var r := if c in q.byClass then q.(byClass := q.byClass[c := []]) else q;
    forall d: WorkClass ensures Jobs(r, d) == if d < c + 1 then [] else Jobs(before, d) {
      assert Jobs(q, d) == if d < c then [] else Jobs(before, d);
    }
  }

  lemma AllEmptied<T>(q: Queue<T>, before: Queue<T>)
    requires EmptiedBelow(q, before, CLASS_COUNT)
    ensures DrainedFrom(before, CLASS_COUNT) == []
    ensures forall c: WorkClass :: Jobs(q, c) == []
  {
  }

  // ------------------------------------------------------------------ contents

  /** What a drain yields: the classes from the most to the least urgent, each front to back. */
  lemma AllInClassOrder<T>(q: Queue<T>)
    ensures All(q) == Jobs(q, 0) + Jobs(q, 1) + Jobs(q, 2) + Jobs(q, 3) + Jobs(q, 4) + Jobs(q, 5)
  {
    hide DrainedFrom, Jobs;
    DrainedUnfold(q, 0);
    DrainedUnfold(q, 1);
    DrainedUnfold(q, 2);
    DrainedUnfold(q, 3);
    DrainedUnfold(q, 4);
    DrainedUnfold(q, 5);
    NothingAfterLast(q);
  }

  lemma NothingAfterLast<T>(q: Queue<T>)
    ensures DrainedFrom(q, CLASS_COUNT) == []
  {
  }

  /** Every waiting job, class by class. */
  function All<T>(q: Queue<T>): seq<T> {
    DrainedFrom(q, 0)
  }

  lemma {:induction false} DrainedAgree<T>(q: Queue<T>, r: Queue<T>, from: nat)
    requires forall d: WorkClass | from <= d :: Jobs(r, d) == Jobs(q, d)
    ensures DrainedFrom(r, from) == DrainedFrom(q, from)
    decreases CLASS_COUNT - from
  {
    if from < CLASS_COUNT {
      DrainedAgree(q, r, from + 1);
    }
  }

  lemma DrainedUnfold<T>(q: Queue<T>, from: WorkClass)
    ensures DrainedFrom(q, from) == Jobs(q, from) + DrainedFrom(q, from + 1)
  {
  }

  lemma Regroup<T>(a: seq<T>, b: seq<T>, c: seq<T>, d: seq<T>)
    ensures a + (b + c + d) == (a + b) + c + d
  {
  }

  lemma RegroupAt<T>(before: seq<T>, jobs: seq<T>, i: nat, after: seq<T>)
    requires i < |jobs|
    ensures before + jobs + after == (before + jobs[..i]) + [jobs[i]] + (jobs[i + 1..] + after)
    ensures before + (jobs[..i] + jobs[i + 1..]) + after == (before + jobs[..i]) + (jobs[i + 1..] + after)
  {
    assert jobs == jobs[..i] + [jobs[i]] + jobs[i + 1..];
  }

  /** Queues that differ in one class agree before and after that class's stretch. */
  lemma {:induction false} DrainedSplit<T>(q: Queue<T>, r: Queue<T>, c: WorkClass, from: nat)
    returns (before: seq<T>, after: seq<T>)
    requires from <= c
    requires forall d: WorkClass | d != c :: Jobs(r, d) == Jobs(q, d)
    ensures DrainedFrom(q, from) == before + Jobs(q, c) + after
    ensures DrainedFrom(r, from) == before + Jobs(r, c) + after
    decreases CLASS_COUNT - from
  {
    hide DrainedFrom;
    if from == c {
      DrainedAgree(q, r, from + 1);
      DrainedUnfold(q, from);
      DrainedUnfold(r, from);
      before, after := [], DrainedFrom(q, from + 1);
    } else {
      var rest: seq<T>;
      rest, after := DrainedSplit(q, r, c, from + 1);
      before := Jobs(q, from) + rest;
      Regroup(Jobs(q, from), rest, Jobs(q, c), after);
      Regroup(Jobs(q, from), rest, Jobs(r, c), after);
      DrainedUnfold(q, from);
      DrainedUnfold(r, from);
    }
  }

  lemma {:induction false} DrainedWitness<T>(q: Queue<T>, from: nat, k: nat) returns (c: WorkClass, i: nat)
    requires k < |DrainedFrom(q, from)|
    ensures from <= c && i < |Jobs(q, c)| && Jobs(q, c)[i] == DrainedFrom(q, from)[k]
    decreases CLASS_COUNT - from
  {
    if k < |Jobs(q, from)| {
      c, i := from, k;
    } else {
      c, i := DrainedWitness(q, from + 1, k - |Jobs(q, from)|);
    }
  }

  /** Taking one job out of one class takes it out of the whole, and moves no other. */
  lemma DrainedWithout<T>(q: Queue<T>, r: Queue<T>, c: WorkClass, i: nat, from: nat)
    returns (before: seq<T>, after: seq<T>)
    requires from <= c && i < |Jobs(q, c)|
    requires forall d: WorkClass | d != c :: Jobs(r, d) == Jobs(q, d)
    requires Jobs(r, c) == Jobs(q, c)[..i] + Jobs(q, c)[i + 1..]
    ensures DrainedFrom(q, from) == before + [Jobs(q, c)[i]] + after
    ensures DrainedFrom(r, from) == before + after
  {
    hide DrainedFrom;
    var jobs := Jobs(q, c);
    before, after := DrainedSplit(q, r, c, from);
    RegroupAt(before, jobs, i, after);
    before, after := before + jobs[..i], jobs[i + 1..] + after;
  }

  lemma {:induction false} NoMatchWaits<T>(q: Queue<T>, matches: T -> bool, from: nat)
    requires MatchClass(q, matches, from).None?
    ensures forall k | 0 <= k < |DrainedFrom(q, from)| :: !matches(DrainedFrom(q, from)[k])
  {
    forall k | 0 <= k < |DrainedFrom(q, from)| ensures !matches(DrainedFrom(q, from)[k]) {
      var c, i := DrainedWitness(q, from, k);
      assert FirstMatch(Jobs(q, c), matches).None?;
    }
  }

  /** A push inserts its job at one position and moves no other job. */
  lemma PushInserts<T>(q: Queue<T>, c: WorkClass, job: T) returns (before: seq<T>, after: seq<T>)
    ensures All(q) == before + after
    ensures All(Pushed(q, c, job)) == before + [job] + after
  {
    hide DrainedFrom;
    before, after := DrainedSplit(q, Pushed(q, c, job), c, 0);
    before := before + Jobs(q, c);
  }

  /** A pop takes out one job, and moves no other; it yields nothing exactly when nothing waits. */
  lemma PopRemoves<T>(q: Queue<T>) returns (before: seq<T>, after: seq<T>)
    ensures NextJob(q).None? <==> All(q) == []
    ensures NextJob(q).None? ==> Popped(q) == q
    ensures NextJob(q).Some? ==> All(q) == before + [NextJob(q).value] + after
    ensures NextJob(q).Some? ==> All(Popped(q)) == before + after
  {
    var next := NextClass(q);
    before, after := [], [];
    if next.Some? {
      before, after := DrainedWithout(q, Popped(q), next.value, 0, 0);
    }
  }

  /** Removal takes out one matching job exactly when one waits, and moves no other. */
  lemma MatchRemoves<T>(q: Queue<T>, matches: T -> bool) returns (before: seq<T>, after: seq<T>)
    ensures Match(q, matches).None? ==> forall k | 0 <= k < |All(q)| :: !matches(All(q)[k])
    ensures Match(q, matches).None? ==> WithoutMatch(q, matches) == q
    ensures Match(q, matches).Some? ==> matches(Match(q, matches).value)
    ensures Match(q, matches).Some? ==> All(q) == before + [Match(q, matches).value] + after
    ensures Match(q, matches).Some? ==> All(WithoutMatch(q, matches)) == before + after
  {
    var found := MatchClass(q, matches, 0);
    before, after := [], [];
    if found.Some? {
      var i := FirstMatch(Jobs(q, found.value), matches).value;
      before, after := DrainedWithout(q, WithoutMatch(q, matches), found.value, i, 0);
    } else {
      NoMatchWaits(q, matches, 0);
    }
  }

  /**
   The removed job is the first matching one of the most urgent class that holds a match;
   its class loses exactly that position and every other class is as it was.
   */
  lemma MatchIsFirst<T>(q: Queue<T>, matches: T -> bool) returns (c: WorkClass, i: nat)
    requires Match(q, matches).Some?
    ensures i < |Jobs(q, c)| && Jobs(q, c)[i] == Match(q, matches).value && matches(Jobs(q, c)[i])
    ensures forall k | 0 <= k < i :: !matches(Jobs(q, c)[k])
    ensures forall d: WorkClass, job | d < c && job in Jobs(q, d) :: !matches(job)
    ensures Jobs(WithoutMatch(q, matches), c) == Jobs(q, c)[..i] + Jobs(q, c)[i + 1..]
    ensures forall d: WorkClass | d != c :: Jobs(WithoutMatch(q, matches), d) == Jobs(q, d)
  {
    c := MatchClass(q, matches, 0).value;
    i := FirstMatch(Jobs(q, c), matches).value;
    forall d: WorkClass, job | d < c && job in Jobs(q, d) ensures !matches(job) {
      assert FirstMatch(Jobs(q, d), matches).None?;
    }
  }

  /** A pop yields a job exactly when one waits, and the bag of waiting jobs loses that job and nothing else. */
  lemma PopConserves<T>(q: Queue<T>)
    ensures NextJob(q).Some? <==> All(q) != []
    ensures NextJob(q).None? ==> Popped(q) == q
    ensures NextJob(q).Some? ==>
              NextJob(q).value in All(q)
              && multiset(All(Popped(q))) == multiset(All(q)) - multiset{NextJob(q).value}
  {
    var before, after := PopRemoves(q);
  }
}
