/**
 What a batch does to the queue, and what that means for runs. Each job of a batch joins
 the back of its own class in batch order, with a new lease of its own; so two jobs of one
 class that were submitted together are first dispatched in the order they were given.
 */
module SchedulerBatches {
  import opened Wrappers
  import opened Picks
  import opened WorkQueue
  import opened Scheduler
  import opened SchedulerSafety
  import opened SchedulerCancel

  function OfClass(jobs: seq<Job>, c: WorkClass): nat -> bool {
    (i: nat) => i < |jobs| && jobs[i].class_ == c
  }

  /**
   `after` is `before` followed by the batch's jobs of class `c`, which are at the positions
   `at`: each with its own work id and class, and the lease numbered by its position.
   */
  ghost predicate Joined(before: seq<Accepted>, after: seq<Accepted>, jobs: seq<Job>, c: WorkClass, at: seq<nat>,
                         firstLease: nat) {
    && Picked(at, |jobs|, OfClass(jobs, c))
    && |after| == |before| + |at|
    && after[..|before|] == before
    && forall k | 0 <= k < |at| ::
         at[k] < |jobs| && after[|before| + k] == Accepted(jobs[at[k]].work, c, firstLease + at[k])
  }

  lemma {:induction false} EnqueueLast(s: State, jobs: seq<Job>, job: Job)
    ensures Enqueue(s, jobs + [job]) == EnqueueOne(Enqueue(s, jobs), job)
    decreases |jobs|
  {
    hide DrainedFrom, Pushed;
    if jobs == [] {
      assert jobs + [job] == [job];
      assert Enqueue(EnqueueOne(s, job), []) == EnqueueOne(s, job);
    } else {
      assert (jobs + [job])[1..] == jobs[1..] + [job];
      EnqueueLast(EnqueueOne(s, jobs[0]), jobs[1..], job);
    }
  }

  lemma {:induction false} EnqueueLeases(s: State, jobs: seq<Job>)
    ensures var s1 := Enqueue(s, jobs);
            && s1.nextLease == s.nextLease + |jobs|
            && (forall lease :: lease in s1.held <==> lease in s.held || s.nextLease <= lease < s1.nextLease)
            && s1 == s.(queue := s1.queue, held := s1.held, nextLease := s1.nextLease)
    decreases |jobs|
  {
    hide DrainedFrom, Pushed;
    if jobs != [] {
      var last := |jobs| - 1;
      EnqueueLeases(s, jobs[..last]);
      EnqueueLast(s, jobs[..last], jobs[last]);
      assert jobs == jobs[..last] + [jobs[last]];
    }
  }

  lemma {:induction false} EnqueueJoins(s: State, jobs: seq<Job>, c: WorkClass) returns (at: seq<nat>)
    ensures Joined(Jobs(s.queue, c), Jobs(Enqueue(s, jobs).queue, c), jobs, c, at, s.nextLease)
    decreases |jobs|
  {
    hide DrainedFrom;
    if jobs == [] {
      at := [];
    } else {
      var front, last := jobs[..|jobs| - 1], jobs[|jobs| - 1];
      at := EnqueueJoins(s, front, c);
      EnqueueLast(s, front, last);
      assert jobs == front + [last];
      EnqueueLeases(s, front);
      at := JoinOneMore(Jobs(s.queue, c), Enqueue(s, front), front, last, c, at, s.nextLease);
    }
  }

  lemma JoinOneMore(before: seq<Accepted>, s: State, front: seq<Job>, last: Job, c: WorkClass, at: seq<nat>,
                    firstLease: nat) returns (at': seq<nat>)
    requires Joined(before, Jobs(s.queue, c), front, c, at, firstLease)
    requires s.nextLease == firstLease + |front|
    ensures Joined(before, Jobs(EnqueueOne(s, last).queue, c), front + [last], c, at', firstLease)
  {
    hide Joined, Jobs, Pushed, DrainedFrom;
    PushedJobs(s.queue, last.class_, Accepted(last.work, last.class_, s.nextLease), c);
    if last.class_ == c {
      at' := at + [|front|];
      JoinTaken(before, Jobs(s.queue, c), front, last, c, at, firstLease);
    } else {
      at' := at;
      JoinSkipped(before, Jobs(s.queue, c), front, last, c, at, firstLease);
    }
  }

  lemma JoinTaken(before: seq<Accepted>, after: seq<Accepted>, front: seq<Job>, last: Job, c: WorkClass, at: seq<nat>,
                  firstLease: nat)
    requires Joined(before, after, front, c, at, firstLease) && last.class_ == c
    ensures Joined(before, after + [Accepted(last.work, c, firstLease + |front|)], front + [last], c, at + [|front|],
                   firstLease)
  {
    hide Picked;
    PickedAgree(at, |front|, OfClass(front, c), OfClass(front + [last], c));
    PickOneMore(at, |front|, OfClass(front + [last], c));
  }

  lemma JoinSkipped(before: seq<Accepted>, after: seq<Accepted>, front: seq<Job>, last: Job, c: WorkClass, at: seq<nat>,
                    firstLease: nat)
    requires Joined(before, after, front, c, at, firstLease) && last.class_ != c
    ensures Joined(before, after, front + [last], c, at, firstLease)
  {
    hide Picked;
    PickedAgree(at, |front|, OfClass(front, c), OfClass(front + [last], c));
    PickOneMore(at, |front|, OfClass(front + [last], c));
  }

  lemma PushedJobs(q: Queue<Accepted>, class_: WorkClass, job: Accepted, c: WorkClass)
    ensures Jobs(Pushed(q, class_, job), c) == if c == class_ then Jobs(q, c) + [job] else Jobs(q, c)
  {
  }

  ghost predicate JoinsClass(before: Queue<Accepted>, after: Queue<Accepted>, jobs: seq<Job>, c: WorkClass,
                             firstLease: nat) {
    exists at :: Joined(Jobs(before, c), Jobs(after, c), jobs, c, at, firstLease)
  }

  /** Every class keeps its jobs in front and gains the batch's jobs of that class behind them, in batch order. */
  ghost predicate JoinsItsClasses(before: Queue<Accepted>, after: Queue<Accepted>, jobs: seq<Job>, firstLease: nat) {
    forall c: WorkClass :: JoinsClass(before, after, jobs, c, firstLease)
  }

  lemma EnqueueJoinsAll(s: State, jobs: seq<Job>)
    ensures JoinsItsClasses(s.queue, Enqueue(s, jobs).queue, jobs, s.nextLease)
  {
    hide Joined, Enqueue;
    forall c: WorkClass ensures JoinsClass(s.queue, Enqueue(s, jobs).queue, jobs, c, s.nextLease) {
      var at := EnqueueJoins(s, jobs, c);
    }
  }

  lemma SomeOfClass(jobs: seq<Job>, c: WorkClass, at: seq<nat>)
    requires Picked(at, |jobs|, OfClass(jobs, c)) && at != []
    ensures exists job :: job in jobs && job.class_ == c
  {
    PickedBelow(at, |jobs|, OfClass(jobs, c));
    assert jobs[at[0]] in jobs;
  }

  /**
   Handling a batch. In every class the waiting jobs stay in front, in order, and the
   batch's jobs of that class follow in batch order, each with its own work id and a lease
   not handed out before; nothing else of the state moves.
   */
  lemma BatchJoinsItsClasses(s: State, jobs: seq<Job>, c: WorkClass) returns (at: seq<nat>)
    ensures Joined(Jobs(s.queue, c), Jobs(Handle(s, Batch(jobs)).queue, c), jobs, c, at, s.nextLease)
    ensures (forall job | job in jobs :: job.class_ != c) ==>
              Jobs(Handle(s, Batch(jobs)).queue, c) == Jobs(s.queue, c)
    ensures var s1 := Handle(s, Batch(jobs));
            && s1.nextLease == s.nextLease + |jobs|
            && (forall lease :: lease in s1.held <==> lease in s.held || s.nextLease <= lease < s1.nextLease)
            && s1 == s.(queue := s1.queue, held := s1.held, nextLease := s1.nextLease)
  {
    hide DrainedFrom, Enqueue;
    at := EnqueueJoins(s, jobs, c);
    EnqueueLeases(s, jobs);
    if at != [] {
      SomeOfClass(jobs, c, at);
    }
  }

  // ------------------------------------------------------- first dispatch order

  /** The work ids a run dispatches, in order. */
  function Dispatched(cfg: Config, s: State, run: seq<Action>): seq<nat>
    requires IsRun(cfg, s, run)
    decreases |run|
  {
    if run == [] then []
    else (if run[0].Dispatch? then [NextJob(s.queue).value.work] else [])
         + Dispatched(cfg, Next(cfg, s, run[0]), run[1..])
  }

  /** `first` waits in class `c`, and wherever `second` waits, it is behind it there. */
  ghost predicate WaitsAhead(q: Queue<Accepted>, first: nat, second: nat, c: WorkClass) {
    exists p :: 0 <= p < |Jobs(q, c)| && Jobs(q, c)[p].work == first && BehindOnly(q, second, c, p)
  }

  ghost predicate BehindOnly(q: Queue<Accepted>, second: nat, c: WorkClass, p: nat) {
    forall d: WorkClass, k | 0 <= k < |Jobs(q, d)| && Jobs(q, d)[k].work == second :: d == c && p < k
  }

  /** The batch names the two works in this order, under one class. */
  ghost predicate InOrder(jobs: seq<Job>, first: nat, second: nat, c: WorkClass) {
    exists i, j :: 0 <= i < j < |jobs| && jobs[i] == Job(first, c) && jobs[j] == Job(second, c)
  }

  /** The batch that brings both is at position `k` of the channel, and `second` is nowhere else. */
  ghost predicate Brought(s: State, first: nat, second: nat, c: WorkClass, k: nat) {
    && k < |s.channel| && s.channel[k].Batch? && InOrder(s.channel[k].jobs, first, second, c)
    && InChannel(s.channel, second) == 1 && InQueue(All(s.queue), second) == 0
  }

  /** Neither work has been dispatched yet, and `first` comes before `second`. */
  ghost predicate Pending(s: State, first: nat, second: nat, c: WorkClass) {
    && InPending(s.pending, second) == 0 && TasksOf(s.tasks, second) == {} && Cancel(first) !in s.channel
    && ((InChannel(s.channel, second) == 0 && WaitsAhead(s.queue, first, second, c)) || exists k: nat ::
        Brought(s, first, second, c, k))
  }

  lemma {:induction false} CommandCounts(channel: seq<Command>, k: nat, w: nat)
    requires k < |channel|
    ensures InChannel(channel, w) >= InCommand(channel[k], w)
  {
    if k > 0 {
      CommandCounts(channel[1..], k - 1, w);
    }
  }

  lemma {:induction false} JobCounts(jobs: seq<Job>, j: nat, w: nat)
    requires j < |jobs| && jobs[j].work == w
    ensures InJobs(jobs, w) >= 1
    ensures InJobs(jobs, w) == 1 ==> forall k | 0 <= k < |jobs| && jobs[k].work == w :: k == j
  {
    forall k | 0 <= k < |jobs| && jobs[k].work == w ensures InJobs(jobs, w) >= if k == j then 1 else 2 {
      TwoCount(jobs, if k < j then k else j, if k < j then j else k, w);
    }
  }

  lemma {:induction false} TwoCount(jobs: seq<Job>, i: nat, j: nat, w: nat)
    requires i <= j < |jobs| && jobs[i].work == w && jobs[j].work == w
    ensures InJobs(jobs, w) >= if i == j then 1 else 2
  {
    if i > 0 {
      TwoCount(jobs[1..], i - 1, j - 1, w);
    } else if j > 0 {
      TwoCount(jobs[1..], j - 1, j - 1, w);
    }
  }

  lemma {:induction false} QueuedCounts(waiting: seq<Accepted>, k: nat, w: nat)
    requires k < |waiting| && waiting[k].work == w
    ensures InQueue(waiting, w) >= 1
  {
    if k > 0 {
      QueuedCounts(waiting[1..], k - 1, w);
    }
  }

  lemma NowhereInQueue(q: Queue<Accepted>, w: nat)
    requires InQueue(All(q), w) == 0
    ensures forall d: WorkClass, k | 0 <= k < |Jobs(q, d)| :: Jobs(q, d)[k].work != w
  {
    hide DrainedFrom;
    forall d: WorkClass, k | 0 <= k < |Jobs(q, d)| ensures Jobs(q, d)[k].work != w {
      var before, after := DrainedSplit(q, q, d, 0);
      assert All(q)[|before| + k] == Jobs(q, d)[k];
      if Jobs(q, d)[k].work == w {
        QueuedCounts(All(q), |before| + k, w);
      }
    }
  }

  lemma AtPosition(at: seq<nat>, jobs: seq<Job>, c: WorkClass, i: nat) returns (k: nat)
    requires Picked(at, |jobs|, OfClass(jobs, c)) && OfClass(jobs, c)(i)
    ensures k < |at| && at[k] == i
  {
    assert i in at;
    k :| k < |at| && at[k] == i;
  }

  /** Handling the batch that brings both queues them in order. */
  lemma BatchQueuesInOrder(s: State, jobs: seq<Job>, first: nat, second: nat, c: WorkClass)
    requires InOrder(jobs, first, second, c) && InJobs(jobs, second) == 1 && InQueue(All(s.queue), second) == 0
    ensures WaitsAhead(Handle(s, Batch(jobs)).queue, first, second, c)
  {
    hide Handle, Enqueue, InJobs, InQueue, DrainedFrom;
    var i, j :| 0 <= i < j < |jobs| && jobs[i] == Job(first, c) && jobs[j] == Job(second, c);
    var q, q1 := s.queue, Handle(s, Batch(jobs)).queue;
    var at := BatchJoinsItsClasses(s, jobs, c);
    var k := AtPosition(at, jobs, c, i);
    JobCounts(jobs, j, second);
    NowhereInQueue(q, second);
    var p := |Jobs(q, c)| + k;
    assert Jobs(q1, c)[p].work == first;
    forall d: WorkClass, m | 0 <= m < |Jobs(q1, d)| && Jobs(q1, d)[m].work == second ensures d == c && p < m {
      var at' := BatchJoinsItsClasses(s, jobs, d);
      NewlyJoined(Jobs(q, d), Jobs(q1, d), jobs, d, at', s.nextLease, m, second);
      assert at'[m - |Jobs(q, d)|] == j;
      if d == c {
        SamePicks(at, at', |jobs|, OfClass(jobs, c));
        assert at[m - |Jobs(q, d)|] == j > at[k];
      }
    }
    assert BehindOnly(q1, second, c, p);
  }

  lemma NewlyJoined(before: seq<Accepted>, after: seq<Accepted>, jobs: seq<Job>, d: WorkClass, at: seq<nat>,
                    firstLease: nat, m: nat, w: nat)
    requires Joined(before, after, jobs, d, at, firstLease) && m < |after| && after[m].work == w
    requires forall k | 0 <= k < |before| :: before[k].work != w
    ensures m >= |before| && at[m - |before|] < |jobs|
    ensures jobs[at[m - |before|]].work == w && jobs[at[m - |before|]].class_ == d
  {
    forall k | 0 <= k < |before| ensures after[k] == before[k] {
      assert after[..|before|][k] == before[k];
    }
    PickedBelow(at, |jobs|, OfClass(jobs, d));
  }

  // ------------------------------------------------------------ what keeps the order

  lemma PushKeepsAhead(q: Queue<Accepted>, c: WorkClass, job: Accepted, first: nat, second: nat, class_: WorkClass)
    requires WaitsAhead(q, first, second, c) && job.work != second
    ensures WaitsAhead(Pushed(q, class_, job), first, second, c)
  {
    var p :| 0 <= p < |Jobs(q, c)| && Jobs(q, c)[p].work == first && BehindOnly(q, second, c, p);
    var q1 := Pushed(q, class_, job);
    assert Jobs(q1, c)[p] == Jobs(q, c)[p];
    forall d: WorkClass, k | 0 <= k < |Jobs(q1, d)| && Jobs(q1, d)[k].work == second ensures d == c && p < k {
      assert k < |Jobs(q, d)| && Jobs(q, d)[k] == Jobs(q1, d)[k];
    }
    assert BehindOnly(q1, second, c, p);
  }

  lemma {:induction false} EnqueueKeepsAhead(s: State, jobs: seq<Job>, first: nat, second: nat, c: WorkClass)
    requires WaitsAhead(s.queue, first, second, c) && InJobs(jobs, second) == 0
    ensures WaitsAhead(Enqueue(s, jobs).queue, first, second, c)
    decreases |jobs|
  {
    hide WaitsAhead, Pushed, DrainedFrom;
    if jobs != [] {
      PushKeepsAhead(s.queue, c, Accepted(jobs[0].work, jobs[0].class_, s.nextLease), first, second, jobs[0].class_);
      EnqueueKeepsAhead(EnqueueOne(s, jobs[0]), jobs[1..], first, second, c);
    }
  }

  /** A job taken out from anywhere leaves the order of the others. */
  lemma RemoveKeepsAhead(q: Queue<Accepted>, v: nat, first: nat, second: nat, c: WorkClass)
    requires WaitsAhead(q, first, second, c) && v != first
    ensures WaitsAhead(WithoutMatch(q, Attempts(v)), first, second, c)
  {
    var q1 := WithoutMatch(q, Attempts(v));
    var found := MatchClass(q, Attempts(v), 0);
    if found.Some? {
      var jobs := Jobs(q, found.value);
      var i := FirstMatch(jobs, Attempts(v)).value;
      assert Attempts(v)(jobs[i]);
      var p :| 0 <= p < |Jobs(q, c)| && Jobs(q, c)[p].work == first && BehindOnly(q, second, c, p);
      assert Jobs(q1, found.value) == jobs[..i] + jobs[i + 1..];
      var p1 := if found.value == c && i < p then p - 1 else p;
      assert Jobs(q1, c)[p1] == Jobs(q, c)[p];
      forall d: WorkClass, k | 0 <= k < |Jobs(q1, d)| && Jobs(q1, d)[k].work == second ensures d == c && p1 < k {
        var k0 := if found.value == d && i <= k then k + 1 else k;
        assert Jobs(q, d)[k0] == Jobs(q1, d)[k];
      }
      assert BehindOnly(q1, second, c, p1);
    }
  }

  /** A pop takes `first` itself, or leaves the order; it never takes `second`. */
  lemma PopKeepsAhead(q: Queue<Accepted>, first: nat, second: nat, c: WorkClass)
    requires WaitsAhead(q, first, second, c) && NextJob(q).Some?
    ensures NextJob(q).value.work != second || first == second
    ensures NextJob(q).value.work == first || WaitsAhead(Popped(q), first, second, c)
  {
    hide FirstWaiting, Aged, BurstSpent;
    var p :| 0 <= p < |Jobs(q, c)| && Jobs(q, c)[p].work == first && BehindOnly(q, second, c, p);
    var n := NextClass(q).value;
    var q1 := Popped(q);
    assert Jobs(q, n)[0] == NextJob(q).value;
    assert Jobs(q1, n) == Jobs(q, n)[1..];
    if NextJob(q).value.work != first {
      var p1 := if n == c then p - 1 else p;
      assert Jobs(q1, c)[p1] == Jobs(q, c)[p];
      forall d: WorkClass, k | 0 <= k < |Jobs(q1, d)| && Jobs(q1, d)[k].work == second ensures d == c && p1 < k {
        assert Jobs(q, d)[if n == d then k + 1 else k] == Jobs(q1, d)[k];
      }
      assert BehindOnly(q1, second, c, p1);
    }
  }

  // ---------------------------------------------------------------- step by step

  lemma PendingReceive(s: State, s0: State, first: nat, second: nat, c: WorkClass)
    requires Pending(s, first, second, c) && s.channel != [] && s0 == s.(channel := s.channel[1..])
    ensures Pending(Handle(s0, s.channel[0]), first, second, c)
  {
    var command := s.channel[0];
    HandleStage(s0, command);
    if InChannel(s.channel, second) == 0 {
      hide Brought;
      AheadHandle(s0, command, first, second, c);
    } else {
      var k: nat :| Brought(s, first, second, c, k);
      if k == 0 {
        var i, j :| 0 <= i < j < |command.jobs| && command.jobs[i] == Job(first, c)
            && command.jobs[j] == Job(second, c);
        JobCounts(command.jobs, j, second);
        BatchQueuesInOrder(s0, command.jobs, first, second, c);
      } else {
        BroughtReceive(s, s0, first, second, c, k);
      }
    }
  }

  lemma AheadHandle(s: State, command: Command, first: nat, second: nat, c: WorkClass)
    requires WaitsAhead(s.queue, first, second, c) && InCommand(command, second) == 0 && command != Cancel(first)
    ensures WaitsAhead(Handle(s, command).queue, first, second, c)
  {
    hide WaitsAhead, Match, WithoutMatch, DrainedFrom;
    match command
    case Batch(jobs) => EnqueueKeepsAhead(s, jobs, first, second, c);
    case Cancel(v) =>
      if Match(s.queue, Attempts(v)).Some? {
        RemoveKeepsAhead(s.queue, v, first, second, c);
      }
  }

  lemma BroughtReceive(s: State, s0: State, first: nat, second: nat, c: WorkClass, k: nat)
    requires Brought(s, first, second, c, k) && k > 0 && s0 == s.(channel := s.channel[1..])
    ensures Brought(Handle(s0, s.channel[0]), first, second, c, k - 1)
  {
    hide DrainedFrom;
    var command := s.channel[0];
    var jobs := s.channel[k].jobs;
    var i, j :| 0 <= i < j < |jobs| && jobs[i] == Job(first, c) && jobs[j] == Job(second, c);
    JobCounts(jobs, j, second);
    assert s0.channel[k - 1] == s.channel[k];
    CommandCounts(s0.channel, k - 1, second);
    HandleStage(s0, command);
    hide Handle, InJobs, InQueue, InOrder;
    match command
    case Batch(others) => HandleBatchOccurs(s0, others, second);
    case Cancel(v) => CancelOccurs(s0, v, second);
  }

  lemma HandleBatchOccurs(s: State, jobs: seq<Job>, w: nat)
    ensures InQueue(All(Handle(s, Batch(jobs)).queue), w) == InQueue(All(s.queue), w) + InJobs(jobs, w)
  {
    EnqueuedOccurs(s, jobs, w);
  }

  lemma PendingSubmitter(cfg: Config, s: State, a: Action, first: nat, second: nat, c: WorkClass)
    requires Pending(s, first, second, c) && Enabled(cfg, s, a) && BySubmitter(a)
    requires Admits(cfg, s, a, second) == 0 && a != SendCancel(first)
    ensures Pending(Next(cfg, s, a), first, second, c)
  {
    var s1 := Next(cfg, s, a);
    SubmitterOccurs(cfg, s, a, second);
    SubmitterChannel(cfg, s, a);
    hide Next, Enabled, InOrder, WaitsAhead, InQueue, InJobs, DrainedFrom;
    if k: nat :| Brought(s, first, second, c, k) {
      assert s1.channel[k] == s.channel[k];
      assert Brought(s1, first, second, c, k);
    }
  }

  lemma SubmitterChannel(cfg: Config, s: State, a: Action)
    requires Enabled(cfg, s, a) && BySubmitter(a)
    ensures var s1 := Next(cfg, s, a);
            && s.channel <= s1.channel
            && forall v | Cancel(v) in s1.channel :: Cancel(v) in s.channel || a == SendCancel(v)
  {
    hide DrainedFrom;
  }

  lemma PendingDispatch(cfg: Config, s: State, first: nat, second: nat, c: WorkClass)
    requires Pending(s, first, second, c) && Enabled(cfg, s, Dispatch)
    ensures NextJob(s.queue).value.work != second || first == second
    ensures NextJob(s.queue).value.work == first || Pending(Next(cfg, s, Dispatch), first, second, c)
  {
    hide DrainedFrom, InQueue, InOrder, WaitsAhead, Popped, NextJob, FirstWaiting;
    var job := NextJob(s.queue).value;
    PoppedOccurs(s.queue, second);
    if WaitsAhead(s.queue, first, second, c) {
      PopKeepsAhead(s.queue, first, second, c);
    }
    if k: nat :| Brought(s, first, second, c, k) {
      assert k < |Next(cfg, s, Dispatch).channel|;
      if job.work != second {
        assert Brought(Next(cfg, s, Dispatch), first, second, c, k);
      }
    }
    if job.work != second {
      SpawnLeavesTasks(s.(queue := Popped(s.queue)), job, second);
    }
  }

  lemma SpawnLeavesTasks(s: State, job: Accepted, w: nat)
    requires TasksOf(s.tasks, w) == {} && job.work != w
    ensures TasksOf(Spawn(s, job).tasks, w) == {}
  {
    forall t | t in Spawn(s, job).tasks ensures Spawn(s, job).tasks[t].job.work != w {
      if t != s.nextTask {
        assert t in TasksOf(s.tasks, w) <==> s.tasks[t].job.work == w;
      }
    }
  }

  lemma PendingJoin(cfg: Config, s: State, id: nat, first: nat, second: nat, c: WorkClass)
    requires Pending(s, first, second, c) && Enabled(cfg, s, Join(id))
    ensures Pending(JoinServing(s, id), first, second, c)
  {
    var s1 := JoinServing(s, id);
    var job := s.tasks[id].job;
    JoinFrame(s, id);
    assert job.work != second by {
      assert id !in TasksOf(s.tasks, second);
    }
    ReapTasks(s.tasks, id, second);
    PushedOccurs(s.queue, job.class_, job, second);
    hide JoinServing, InOrder, WaitsAhead, InQueue, DrainedFrom;
    if WaitsAhead(s.queue, first, second, c) {
      PushKeepsAhead(s.queue, c, job, first, second, job.class_);
    }
    if k: nat :| Brought(s, first, second, c, k) {
      assert Brought(s1, first, second, c, k);
    }
  }

  lemma PendingQuantum(cfg: Config, s: State, a: Action, first: nat, second: nat, c: WorkClass)
    requires Pending(s, first, second, c) && Enabled(cfg, s, a) && ByQuantum(a)
    ensures Pending(Next(cfg, s, a), first, second, c)
  {
    StatusOccurs(cfg, s, a, second);
    QuantumFrame(cfg, s, a);
    hide Next, Enabled, InOrder, WaitsAhead, InQueue, DrainedFrom;
    if k: nat :| Brought(s, first, second, c, k) {
      assert Brought(Next(cfg, s, a), first, second, c, k);
    }
  }

  lemma QuantumFrame(cfg: Config, s: State, a: Action)
    requires Enabled(cfg, s, a) && ByQuantum(a)
    ensures var s1 := Next(cfg, s, a);
            s1.queue == s.queue && s1.pending == s.pending && s1.channel == s.channel
  {
    hide DrainedFrom;
  }

  /** While the worker serves, a step dispatches `first`, or does not dispatch `second` and keeps the order. */
  lemma PendingStep(cfg: Config, s: State, a: Action, first: nat, second: nat, c: WorkClass)
    requires Pending(s, first, second, c) && first != second && s.phase.Serving? && Enabled(cfg, s, a) && !a.Exit?
    requires Admits(cfg, s, a, second) == 0 && a != SendCancel(first)
    ensures a.Dispatch? ==> NextJob(s.queue).value.work != second
    ensures (a.Dispatch? && NextJob(s.queue).value.work == first) || Pending(Next(cfg, s, a), first, second, c)
  {
    hide Pending, DrainedFrom;
    if BySubmitter(a) {
      PendingSubmitter(cfg, s, a, first, second, c);
    } else if ByQuantum(a) {
      PendingQuantum(cfg, s, a, first, second, c);
    } else if a.Receive? {
      PendingReceive(s, s.(channel := s.channel[1..]), first, second, c);
    } else if a.Dispatch? {
      PendingDispatch(cfg, s, first, second, c);
    } else {
      PendingJoin(cfg, s, a.id, first, second, c);
    }
  }

  /** No step of the run admits the second work again or cancels the first. */
  predicate LeftAlone(cfg: Config, s: State, run: seq<Action>, first: nat, second: nat)
    requires IsRun(cfg, s, run)
    decreases |run|
  {
    run != [] ==>
      && Admits(cfg, s, run[0], second) == 0 && run[0] != SendCancel(first)
      && LeftAlone(cfg, Next(cfg, s, run[0]), run[1..], first, second)
  }

  lemma {:induction false} FirstIsDispatchedFirst(cfg: Config, s: State, run: seq<Action>, first: nat, second: nat,
                                                  c: WorkClass)
    requires IsRun(cfg, s, run) && LeftAlone(cfg, s, run, first, second) && first != second
    requires s.phase.Serving? ==> Pending(s, first, second, c)
    ensures var s1 := Final(cfg, s, run);
            first in Dispatched(cfg, s, run) || (s1.phase.Serving? ==> Pending(s1, first, second, c))
    decreases |run|
  {
    hide Next, Enabled, Pending, Admits;
    if run != [] {
      var a, s1 := run[0], Next(cfg, s, run[0]);
      if !s.phase.Serving? {
        PhaseStep(cfg, s, a);
        FirstIsDispatchedFirst(cfg, s1, run[1..], first, second, c);
      } else if a.Exit? {
        ExitServes(cfg, s);
        FirstIsDispatchedFirst(cfg, s1, run[1..], first, second, c);
      } else {
        PendingStep(cfg, s, a, first, second, c);
        if Pending(s1, first, second, c) {
          FirstIsDispatchedFirst(cfg, s1, run[1..], first, second, c);
        }
      }
    }
  }

  lemma ExitServes(cfg: Config, s: State)
    requires Enabled(cfg, s, Exit)
    ensures !Next(cfg, s, Exit).phase.Serving?
  {
  }

  /**
   Jobs submitted together keep their order. Take any state in which a batch with `first`
   before `second`, both of class `c`, is at position `k` of the channel, `second` is
   nowhere else and no cancel of `first` is buffered. However the run goes on, short of
   admitting `second` again or cancelling `first`, by the time `second` is up for dispatch
   `first` has been dispatched.
   */
  lemma BatchOrderIsDispatchOrder(cfg: Config, s: State, run: seq<Action>, k: nat, first: nat, second: nat,
                                  c: WorkClass)
    requires IsRun(cfg, s, run) && LeftAlone(cfg, s, run, first, second)
    requires k < |s.channel| && s.channel[k].Batch? && InOrder(s.channel[k].jobs, first, second, c)
    requires Occurrences(s, second) <= 1 && Cancel(first) !in s.channel
    ensures var s1 := Final(cfg, s, run);
            Enabled(cfg, s1, Dispatch) && NextJob(s1.queue).value.work == second ==>
              first in Dispatched(cfg, s, run)
  {
    BroughtIsPending(s, k, first, second, c);
    FirstIsDispatchedFirst(cfg, s, run, first, second, c);
    var s1 := Final(cfg, s, run);
    if Enabled(cfg, s1, Dispatch) && s1.phase.Serving? && Pending(s1, first, second, c) {
      hide Next, Pending;
      PendingDispatch(cfg, s1, first, second, c);
    }
  }

  lemma BroughtIsPending(s: State, k: nat, first: nat, second: nat, c: WorkClass)
    requires k < |s.channel| && s.channel[k].Batch? && InOrder(s.channel[k].jobs, first, second, c)
    requires Occurrences(s, second) <= 1 && Cancel(first) !in s.channel
    ensures Pending(s, first, second, c) && first != second
  {
    var jobs := s.channel[k].jobs;
    var i, j :| 0 <= i < j < |jobs| && jobs[i] == Job(first, c) && jobs[j] == Job(second, c);
    JobCounts(jobs, j, second);
    CommandCounts(s.channel, k, second);
    hide InQueue, DrainedFrom, InOrder;
    assert TasksOf(s.tasks, second) == {};
    assert Brought(s, first, second, c, k);
  }
}
