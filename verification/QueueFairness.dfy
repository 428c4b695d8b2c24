/**
 What the queue guarantees over whole runs of pushes, removals and pops: a waiting
 lower class is served within a bounded number of pops while the highest class is
 stable, and without that hypothesis exactly the two most urgent classes are; a lower
 class overtakes only after a full burst; and each class is first-in first-out, its
 jobs served, waiting or removed and never lost or doubled.
 */
module QueueFairness {
  import opened Wrappers
  import opened WorkQueue

  datatype Op<!T> =
    | Push(class_: WorkClass, job: T)
    | Remove(matches: T -> bool)
    | Pop

  function Step<T>(q: Queue<T>, op: Op<T>): Queue<T> {
    match op
    case Push(c, job) => Pushed(q, c, job)
    case Remove(matches) => WithoutMatch(q, matches)
    case Pop => Popped(q)
  }

  function Run<T>(q: Queue<T>, ops: seq<Op<T>>): Queue<T>
    decreases |ops|
  {
    if ops == [] then q else Run(Step(q, ops[0]), ops[1..])
  }

  function Pops<T>(ops: seq<Op<T>>): nat {
    if ops == [] then 0 else (if ops[0].Pop? then 1 else 0) + Pops(ops[1..])
  }

  /** The class one step serves, as a list of length at most one. */
  function ServedBy<T>(q: Queue<T>, op: Op<T>): seq<WorkClass> {
    if op.Pop? && NextClass(q).Some? then [NextClass(q).value] else []
  }

  /** The class each successful pop of the run served, in order. */
  function Served<T>(q: Queue<T>, ops: seq<Op<T>>): seq<WorkClass>
    decreases |ops|
  {
    if ops == [] then [] else ServedBy(q, ops[0]) + Served(Step(q, ops[0]), ops[1..])
  }

  // ----------------------------------------------------------- bounded waiting

  /** `high` is the highest waiting class and `low` waits below it. */
  predicate Contended<T>(q: Queue<T>, high: WorkClass, low: WorkClass) {
    high < low && FirstWaiting(q, 0) == Some(high) && Jobs(q, low) != []
  }

  /** Contended holds at every pop of the run. */
  predicate ContendedThroughout<T>(q: Queue<T>, ops: seq<Op<T>>, high: WorkClass, low: WorkClass)
    decreases |ops|
  {
    ops != [] ==>
      (ops[0].Pop? ==> Contended(q, high, low))
      && ContendedThroughout(Step(q, ops[0]), ops[1..], high, low)
  }

  /** How many classes the aging cursor must still pass, itself included, to reach `low`. */
  function CursorDistance<T>(q: Queue<T>, high: WorkClass, low: WorkClass): (d: nat)
    requires high < low
    ensures 1 <= d <= CLASS_COUNT - 1 - high
  {
    var at := AgingBound(q, high);
    if at < low then low - at else low + (CLASS_COUNT - 1 - high) - at
  }

  /** Pops of `high` left before the next aged quantum. */
  function BurstLeft<T>(q: Queue<T>, high: WorkClass): nat {
    if q.lastClass != Some(high) then PRIORITY_BURST_QUANTA
    else if q.consecutive >= PRIORITY_BURST_QUANTA then 0
    else PRIORITY_BURST_QUANTA - q.consecutive
  }

  /** An upper bound on the pops needed until `low` is served. */
  function WaitBound<T>(q: Queue<T>, high: WorkClass, low: WorkClass): nat
    requires high < low
  {
    (PRIORITY_BURST_QUANTA + 1) * (CursorDistance(q, high, low) - 1) + BurstLeft(q, high) + 1
  }

  lemma AgedApproaches<T>(q: Queue<T>, high: WorkClass, low: WorkClass)
    requires Contended(q, high, low) && BurstSpent(q, high)
    ensures NextClass(q).Some? && NextClass(q).value > high
    ensures NextClass(q).value != low ==>
              CursorDistance(Popped(q), high, low) < CursorDistance(q, high, low)
  {
    var at := AgingBound(q, high);
    var after := FirstWaiting(q, at + 1);
    var wrapped := FirstWaiting(q, high + 1);
    assert wrapped.Some? && wrapped.value <= low;
    if at < low {
      assert after.Some? && after.value <= low;
    }
    var s := NextClass(q).value;
    assert AgingBound(Popped(q), high) == s;
  }

  lemma PopMakesProgress<T>(q: Queue<T>, high: WorkClass, low: WorkClass)
    requires Contended(q, high, low)
    ensures NextClass(q).Some?
    ensures NextClass(q) != Some(low) ==> WaitBound(Popped(q), high, low) < WaitBound(q, high, low)
  {
    if BurstSpent(q, high) {
      AgedApproaches(q, high, low);
    } else {
      assert NextClass(q) == Some(high);
      assert AgingBound(Popped(q), high) == AgingBound(q, high);
    }
  }

  lemma OtherStepsKeepBound<T>(q: Queue<T>, op: Op<T>, high: WorkClass, low: WorkClass)
    requires high < low && !op.Pop?
    ensures WaitBound(Step(q, op), high, low) == WaitBound(q, high, low)
  {
    assert AgingBound(Step(q, op), high) == AgingBound(q, high);
  }

  lemma {:induction false} ServedWithinBound<T>(q: Queue<T>, ops: seq<Op<T>>, high: WorkClass, low: WorkClass)
    requires high < low
    requires ContendedThroughout(q, ops, high, low)
    requires Pops(ops) >= WaitBound(q, high, low)
    ensures low in Served(q, ops)
    decreases |ops|
  {
    if ops != [] {
      if ops[0].Pop? {
        PopMakesProgress(q, high, low);
        if NextClass(q) != Some(low) {
          ServedWithinBound(Step(q, ops[0]), ops[1..], high, low);
        }
      } else {
        OtherStepsKeepBound(q, ops[0], high, low);
        ServedWithinBound(Step(q, ops[0]), ops[1..], high, low);
      }
    }
  }

  /**
   Bounded waiting. From any queue whatever, if `high` is the highest waiting class and
   `low` waits at every pop of a run, nine pops for each class below `high` are enough
   for `low` to be served, however pushes and removals are interleaved.
   */
  lemma BoundedWaiting<T>(q: Queue<T>, ops: seq<Op<T>>, high: WorkClass, low: WorkClass)
    requires high < low
    requires ContendedThroughout(q, ops, high, low)
    requires Pops(ops) >= (PRIORITY_BURST_QUANTA + 1) * (CLASS_COUNT - 1 - high)
    ensures low in Served(q, ops)
  {
    ServedWithinBound(q, ops, high, low);
  }

  // -------------------------------------------- the stable-class hypothesis

  /** `low` waits at every pop of the run. */
  predicate WaitsThroughout<T>(q: Queue<T>, ops: seq<Op<T>>, low: WorkClass)
    decreases |ops|
  {
    ops != [] ==>
      (ops[0].Pop? ==> Jobs(q, low) != [])
      && WaitsThroughout(Step(q, ops[0]), ops[1..], low)
  }

  /** `n` times: push one job to the more urgent of two classes in turn, and pop it. */
  function Alternating<T>(job: T, n: nat): seq<Op<T>> {
    if n == 0 then [] else [Push(n % 2, job), Pop] + Alternating(job, n - 1)
  }

  /** One turn: the pushed job is served at once and nothing else moves. */
  lemma TurnServesPushed<T>(q: Queue<T>, job: T, c: WorkClass)
    requires c < 2 && Jobs(q, 0) == [] && Jobs(q, 1) == [] && q.lastClass != Some(c)
    ensures var pushed := Pushed(q, c, job);
            && NextClass(pushed) == Some(c)
            && Popped(pushed).lastClass == Some(c)
            && (forall d: WorkClass :: Jobs(Popped(pushed), d) == Jobs(q, d))
            && (forall d: WorkClass | d != c :: Jobs(pushed, d) == Jobs(q, d))
  {
    var pushed := Pushed(q, c, job);
    assert Jobs(pushed, c) == [job];
    assert FirstWaiting(pushed, 0) == Some(c);
    assert !BurstSpent(pushed, c);
  }

  lemma {:induction false} AlternatingStarves<T>(q: Queue<T>, job: T, low: WorkClass, n: nat)
    requires low >= 2 && Jobs(q, low) != []
    requires Jobs(q, 0) == [] && Jobs(q, 1) == []
    requires q.lastClass != Some(n % 2)
    ensures WaitsThroughout(q, Alternating(job, n), low)
    ensures Pops(Alternating(job, n)) == n && |Served(q, Alternating(job, n))| == n
    ensures low !in Served(q, Alternating(job, n))
    decreases n
  {
    hide FirstWaiting, NextClass, Popped, Pushed;
    if n > 0 {
      var c: WorkClass := n % 2;
      var ops := Alternating(job, n);
      TurnServesPushed(q, job, c);
      AlternatingStarves(Popped(Pushed(q, c, job)), job, low, n - 1);
      assert ops[0] == Push(c, job) && ops[1..] == [Pop] + Alternating(job, n - 1);
      assert ops[1..][0] == Pop && ops[1..][1..] == Alternating(job, n - 1);
    }
  }

  /**
   Below the second class, stability of the highest class is needed: a burst is counted
   per class, so two urgent classes taking turns never spend one, and a lower class can
   wait through any number of pops.
   */
  lemma StarvationUnderAlternation<T>(job: T, low: WorkClass, n: nat)
    returns (q: Queue<T>, ops: seq<Op<T>>)
    requires low >= 2
    ensures WaitsThroughout(q, ops, low) && Pops(ops) == n && |Served(q, ops)| == n
    ensures low !in Served(q, ops)
  {
    q := Pushed(EmptyQueue(), low, job);
    ops := Alternating(job, n);
    AlternatingStarves(q, job, low, n);
  }

  // ------------------------------------------------ waiting without stability

  /** What a burst of `c` itself, already spent, can add to its wait. */
  function OwnBurst<T>(q: Queue<T>, c: WorkClass, cost: nat): nat {
    if BurstSpent(q, c) then cost else 0
  }

  const CLASS_ONE_WAIT: nat := (PRIORITY_BURST_QUANTA + 1) * (CLASS_COUNT - 1)

  /** An upper bound on the pops until one of the two most urgent classes is served. */
  function UrgentBound<T>(q: Queue<T>, low: WorkClass): nat
    requires low < 2
  {
    if low == 0 then 1 + OwnBurst(q, 0, 1) else WaitBound(q, 0, 1) + OwnBurst(q, 1, CLASS_ONE_WAIT)
  }

  lemma UrgentBoundIsSmall<T>(q: Queue<T>, low: WorkClass)
    requires low < 2
    ensures UrgentBound(q, low) <= if low == 0 then 2 else 2 * CLASS_ONE_WAIT
  {
  }

  /** A burst other than the one just continued is not spent. */
  lemma OnlyServedBurstGrows<T>(q: Queue<T>, c: WorkClass)
    requires NextClass(q).Some? && NextClass(q) != Some(c)
    ensures !BurstSpent(Popped(q), c)
  {
  }

  /** Whatever else waits, a pop serves one of the two most urgent classes or brings it closer. */
  lemma UrgentPop<T>(q: Queue<T>, low: WorkClass)
    requires low < 2 && Jobs(q, low) != []
    ensures NextClass(q).Some?
    ensures NextClass(q) != Some(low) ==> UrgentBound(Popped(q), low) < UrgentBound(q, low)
  {
    var highest := FirstWaiting(q, 0);
    assert highest.Some? && highest.value <= low;
    if NextClass(q) != Some(low) {
      OnlyServedBurstGrows(q, low);
      if highest.value < low {
        PopMakesProgress(q, 0, 1);
      } else {
        assert BurstSpent(q, low);
      }
    }
  }

  lemma UrgentKept<T>(q: Queue<T>, op: Op<T>, low: WorkClass)
    requires low < 2 && !op.Pop?
    ensures UrgentBound(Step(q, op), low) == UrgentBound(q, low)
  {
    OtherStepsKeepBound(q, op, 0, 1);
  }

  lemma {:induction false} UrgentServed<T>(q: Queue<T>, ops: seq<Op<T>>, low: WorkClass)
    requires low < 2 && WaitsThroughout(q, ops, low)
    requires Pops(ops) >= UrgentBound(q, low)
    ensures low in Served(q, ops)
    decreases |ops|
  {
    hide UrgentBound, NextClass, Popped, Pushed;
    if ops != [] {
      if ops[0].Pop? {
        UrgentPop(q, low);
        if NextClass(q) != Some(low) {
          UrgentServed(Step(q, ops[0]), ops[1..], low);
        }
      } else {
        UrgentKept(q, ops[0], low);
        UrgentServed(Step(q, ops[0]), ops[1..], low);
      }
    } else {
      UrgentBoundPositive(q, low);
    }
  }

  lemma UrgentBoundPositive<T>(q: Queue<T>, low: WorkClass)
    requires low < 2
    ensures UrgentBound(q, low) > 0
  {
  }

  /**
   The two most urgent classes need no stability: from any queue whatever, the first
   class is served within two pops and the second within ninety, however pushes and
   removals are interleaved, as long as the class waits at every pop.
   */
  lemma UrgentWaiting<T>(q: Queue<T>, ops: seq<Op<T>>, low: WorkClass)
    requires low < 2 && WaitsThroughout(q, ops, low)
    requires Pops(ops) >= if low == 0 then 2 else 2 * CLASS_ONE_WAIT
    ensures low in Served(q, ops)
  {
    UrgentBoundIsSmall(q, low);
    UrgentServed(q, ops, low);
  }

  /** In every run from every queue in which `low` waits at every pop, `bound` pops serve it. */
  ghost predicate ServedWithin<T(!new)>(low: WorkClass, bound: nat) {
    forall q: Queue<T>, ops | WaitsThroughout(q, ops, low) && Pops(ops) >= bound :: low in Served(q, ops)
  }

  /** Waiting alone bounds a class's wait exactly for the two most urgent classes. */
  lemma BoundedExactlyForUrgent<T(!new)>(job: T, low: WorkClass)
    ensures (exists bound :: ServedWithin<T>(low, bound)) <==> low < 2
  {
    if low < 2 {
      var bound: nat := 2 * CLASS_ONE_WAIT;
      forall q: Queue<T>, ops | WaitsThroughout(q, ops, low) && Pops(ops) >= bound
        ensures low in Served(q, ops)
      {
        UrgentWaiting(q, ops, low);
      }
      assert ServedWithin<T>(low, bound);
    } else {
      forall bound ensures !ServedWithin<T>(low, bound) {
        var q, ops := StarvationUnderAlternation(job, low, bound);
      }
    }
  }

  // -------------------------------------------------------- burst before aging

  /** The run counter is a true account of the classes served last. */
  ghost predicate CountsHistory<T>(q: Queue<T>, history: seq<WorkClass>) {
    q.lastClass.Some? ==>
      q.consecutive <= |history|
      && forall i | |history| - q.consecutive <= i < |history| :: history[i] == q.lastClass.value
  }

  lemma HistoryStep<T>(q: Queue<T>, op: Op<T>, history: seq<WorkClass>)
    requires CountsHistory(q, history)
    ensures CountsHistory(Step(q, op), history + ServedBy(q, op))
  {
  }

  lemma {:induction false} HistoryKept<T>(q: Queue<T>, ops: seq<Op<T>>, history: seq<WorkClass>)
    requires CountsHistory(q, history)
    ensures CountsHistory(Run(q, ops), history + Served(q, ops))
    decreases |ops|
  {
    hide CountsHistory;
    if ops == [] {
      assert history + Served(q, ops) == history;
    } else {
      HistoryStep(q, ops[0], history);
      HistoryKept(Step(q, ops[0]), ops[1..], history + ServedBy(q, ops[0]));
      assert history + ServedBy(q, ops[0]) + Served(Step(q, ops[0]), ops[1..]) == history + Served(q, ops);
    }
  }

  /**
   After any run from an empty queue, a pop that serves a class below the highest
   waiting one comes directly after eight pops that all served that highest class.
   */
  lemma AgingOnlyAfterFullBurst<T>(ops: seq<Op<T>>)
    ensures var q := Run(EmptyQueue<T>(), ops);
            var history := Served(EmptyQueue<T>(), ops);
            var highest := FirstWaiting(q, 0);
            NextClass(q) != highest ==>
              highest.Some? && NextClass(q).Some? && highest.value < NextClass(q).value
              && |history| >= PRIORITY_BURST_QUANTA
              && forall i | |history| - PRIORITY_BURST_QUANTA <= i < |history| :: history[i] == highest.value
  {
    HistoryKept(EmptyQueue<T>(), ops, []);
    assert [] + Served(EmptyQueue<T>(), ops) == Served(EmptyQueue<T>(), ops);
  }

  // ------------------------------------------------------------ FIFO per class

  /** The job of class `c` that one step yields, if any. */
  function JobServedBy<T>(q: Queue<T>, op: Op<T>, c: WorkClass): seq<T> {
    if op.Pop? && NextClass(q) == Some(c) then [NextJob(q).value] else []
  }

  /** The jobs of class `c` that the run's pops yielded, in order. */
  function ServedJobs<T>(q: Queue<T>, ops: seq<Op<T>>, c: WorkClass): seq<T>
    decreases |ops|
  {
    if ops == [] then [] else JobServedBy(q, ops[0], c) + ServedJobs(Step(q, ops[0]), ops[1..], c)
  }

  function JobPushedBy<T>(op: Op<T>, c: WorkClass): seq<T> {
    if op.Push? && op.class_ == c then [op.job] else []
  }

  /** The jobs the run pushed to class `c`, in order. */
  function PushedJobs<T>(ops: seq<Op<T>>, c: WorkClass): seq<T> {
    if ops == [] then [] else JobPushedBy(ops[0], c) + PushedJobs(ops[1..], c)
  }

  /** The job of class `c` that one step removes, if any. */
  function JobRemovedBy<T>(q: Queue<T>, op: Op<T>, c: WorkClass): seq<T> {
    if op.Remove? && MatchClass(q, op.matches, 0) == Some(c) then [Match(q, op.matches).value] else []
  }

  /** The jobs of class `c` that the run removed, in order. */
  function RemovedJobs<T>(q: Queue<T>, ops: seq<Op<T>>, c: WorkClass): seq<T>
    decreases |ops|
  {
    if ops == [] then [] else JobRemovedBy(q, ops[0], c) + RemovedJobs(Step(q, ops[0]), ops[1..], c)
  }

  /** `xs` is `ys` with some elements left out and the others in place. */
  ghost predicate Subsequence<T>(xs: seq<T>, ys: seq<T>)
    decreases |ys|
  {
    if ys == [] then xs == []
    else (xs != [] && xs[0] == ys[0] && Subsequence(xs[1..], ys[1..])) || Subsequence(xs, ys[1..])
  }

  lemma {:induction false} SubsequenceOfItself<T>(xs: seq<T>)
    ensures Subsequence(xs, xs)
  {
    if xs != [] {
      SubsequenceOfItself(xs[1..]);
    }
  }

  lemma {:induction false} SubsequenceIsShorter<T>(xs: seq<T>, ys: seq<T>)
    requires Subsequence(xs, ys)
    ensures |xs| <= |ys|
    ensures |xs| == |ys| ==> xs == ys
    decreases |ys|
  {
    if ys != [] {
      if xs != [] && xs[0] == ys[0] && Subsequence(xs[1..], ys[1..]) {
        SubsequenceIsShorter(xs[1..], ys[1..]);
        assert xs == [xs[0]] + xs[1..] && ys == [ys[0]] + ys[1..];
      } else {
        SubsequenceIsShorter(xs, ys[1..]);
      }
    }
  }

  lemma {:induction false} SubsequenceAppend<T>(xs: seq<T>, ys: seq<T>, more: seq<T>)
    requires Subsequence(xs, ys)
    ensures Subsequence(xs + more, ys + more)
    decreases |ys|
  {
    if ys == [] {
      SubsequenceOfItself(more);
      assert xs + more == more && ys + more == more;
    } else {
      assert (ys + more)[1..] == ys[1..] + more;
      if xs != [] && xs[0] == ys[0] && Subsequence(xs[1..], ys[1..]) {
        SubsequenceAppend(xs[1..], ys[1..], more);
        assert (xs + more)[1..] == xs[1..] + more;
      } else {
        SubsequenceAppend(xs, ys[1..], more);
      }
    }
  }

  lemma {:induction false} SubsequencePrepend<T>(more: seq<T>, xs: seq<T>, ys: seq<T>)
    requires Subsequence(xs, ys)
    ensures Subsequence(more + xs, more + ys)
    decreases |more|
  {
    if more == [] {
      assert more + xs == xs && more + ys == ys;
    } else {
      SubsequencePrepend(more[1..], xs, ys);
      assert (more + xs)[1..] == more[1..] + xs && (more + ys)[1..] == more[1..] + ys;
    }
  }

  lemma {:induction false} SubsequenceOfSubsequence<T>(xs: seq<T>, ys: seq<T>, zs: seq<T>)
    requires Subsequence(xs, ys) && Subsequence(ys, zs)
    ensures Subsequence(xs, zs)
    decreases |ys| + |zs|
  {
    if zs != [] {
      if ys != [] && ys[0] == zs[0] && Subsequence(ys[1..], zs[1..]) {
        if xs != [] && xs[0] == ys[0] && Subsequence(xs[1..], ys[1..]) {
          SubsequenceOfSubsequence(xs[1..], ys[1..], zs[1..]);
        } else {
          SubsequenceOfSubsequence(xs, ys[1..], zs[1..]);
        }
      } else {
        SubsequenceOfSubsequence(xs, ys, zs[1..]);
      }
    }
  }

  lemma {:induction false} SubsequenceSkip<T>(before: seq<T>, x: T, after: seq<T>)
    ensures Subsequence(before + after, before + [x] + after)
  {
    SubsequenceOfItself(after);
    assert ([x] + after)[1..] == after;
    assert Subsequence(after, [x] + after);
    SubsequencePrepend(before, after, [x] + after);
    assert before + ([x] + after) == before + [x] + after;
  }

  /** One step of one class: out at the front, in at the back, at most one taken from between. */
  lemma FifoStep<T>(q: Queue<T>, op: Op<T>, c: WorkClass)
    ensures var left := JobServedBy(q, op, c) + Jobs(Step(q, op), c);
            var came := Jobs(q, c) + JobPushedBy(op, c);
            Subsequence(left, came) && multiset(left) + multiset(JobRemovedBy(q, op, c)) == multiset(came)
  {
    hide FirstWaiting, BurstSpent, Aged, Subsequence;
    var left := JobServedBy(q, op, c) + Jobs(Step(q, op), c);
    var came := Jobs(q, c) + JobPushedBy(op, c);
    if op.Remove? && MatchClass(q, op.matches, 0) == Some(c) {
      var jobs := Jobs(q, c);
      var i := FirstMatch(jobs, op.matches).value;
      SubsequenceSkip(jobs[..i], jobs[i], jobs[i + 1..]);
      assert jobs == jobs[..i] + [jobs[i]] + jobs[i + 1..];
      assert left == jobs[..i] + jobs[i + 1..] && came == jobs;
    } else {
      assert left == came;
      SubsequenceOfItself(came);
    }
  }

  lemma Reassociate<T>(a: seq<T>, b: seq<T>, c: seq<T>)
    ensures (a + b) + c == a + (b + c)
  {
  }

  lemma Chain<T>(out: seq<T>, mid: seq<T>, start: seq<T>, in_: seq<T>, outs: seq<T>, end: seq<T>, ins: seq<T>)
    requires Subsequence(out + mid, start + in_)
    requires Subsequence(outs + end, mid + ins)
    ensures Subsequence((out + outs) + end, start + (in_ + ins))
  {
    hide Subsequence;
    SubsequencePrepend(out, outs + end, mid + ins);
    SubsequenceAppend(out + mid, start + in_, ins);
    Reassociate(out, outs, end);
    Reassociate(out, mid, ins);
    Reassociate(start, in_, ins);
    SubsequenceOfSubsequence((out + outs) + end, (out + mid) + ins, start + (in_ + ins));
  }

  lemma BagChain<T>(out: seq<T>, mid: seq<T>, came: multiset<T>, rem: seq<T>,
                    outs: seq<T>, end: seq<T>, ins: seq<T>, rems: seq<T>)
    requires multiset(out + mid) + multiset(rem) == came
    requires multiset(outs + end) + multiset(rems) == multiset(mid + ins)
    ensures multiset(out + outs + end) + multiset(rem + rems) == came + multiset(ins)
  {
    var o, os, r, rs, e := multiset(out), multiset(outs), multiset(rem), multiset(rems), multiset(end);
    assert o + multiset(mid) + r == came;
    assert os + e + rs == multiset(mid) + multiset(ins);
    assert multiset(out + outs + end) == o + os + e;
    assert multiset(rem + rems) == r + rs;
    assert o + os + e + (r + rs) == o + (os + e + rs) + r;
  }

  /**
   In every run of pushes, removals and pops each class is first-in first-out: the jobs
   it yields, followed by those still waiting, are the jobs it held and was given in
   their order, with exactly the removed jobs left out.
   */
  lemma {:induction false} FirstInFirstOut<T>(q: Queue<T>, ops: seq<Op<T>>, c: WorkClass)
    ensures var left := ServedJobs(q, ops, c) + Jobs(Run(q, ops), c);
            var came := Jobs(q, c) + PushedJobs(ops, c);
            Subsequence(left, came) && multiset(left) + multiset(RemovedJobs(q, ops, c)) == multiset(came)
    decreases |ops|
  {
    hide Subsequence, Step, JobServedBy, JobPushedBy, JobRemovedBy;
    if ops == [] {
      SubsequenceOfItself(Jobs(q, c));
      assert Jobs(q, c) + PushedJobs(ops, c) == Jobs(q, c);
      assert ServedJobs(q, ops, c) + Jobs(q, c) == Jobs(q, c);
    } else {
      var next := Step(q, ops[0]);
      FifoStep(q, ops[0], c);
      FirstInFirstOut(next, ops[1..], c);
      Chain(JobServedBy(q, ops[0], c), Jobs(next, c), Jobs(q, c), JobPushedBy(ops[0], c),
            ServedJobs(next, ops[1..], c), Jobs(Run(next, ops[1..]), c), PushedJobs(ops[1..], c));
      BagChain(JobServedBy(q, ops[0], c), Jobs(next, c), multiset(Jobs(q, c) + JobPushedBy(ops[0], c)),
               JobRemovedBy(q, ops[0], c), ServedJobs(next, ops[1..], c), Jobs(Run(next, ops[1..]), c),
               PushedJobs(ops[1..], c), RemovedJobs(next, ops[1..], c));
    }
  }

  /** A class from which nothing is removed yields its jobs exactly in push order, none lost. */
  lemma NothingRemovedNothingLost<T>(q: Queue<T>, ops: seq<Op<T>>, c: WorkClass)
    requires RemovedJobs(q, ops, c) == []
    ensures ServedJobs(q, ops, c) + Jobs(Run(q, ops), c) == Jobs(q, c) + PushedJobs(ops, c)
  {
    var left := ServedJobs(q, ops, c) + Jobs(Run(q, ops), c);
    var came := Jobs(q, c) + PushedJobs(ops, c);
    FirstInFirstOut(q, ops, c);
    assert |multiset(left)| == |multiset(came)|;
    SubsequenceIsShorter(left, came);
  }
}
