/**
 Safety of the scheduler over every interleaving: the shared counter balances, capacity
 and concurrency are respected, every lease is released exactly once, and a stopped
 worker with no submit pending has returned all capacity.
 */
module SchedulerSafety {
  import opened Wrappers
  import opened WorkQueue
  import opened Scheduler

  // -------------------------------------------------------------- counting

  lemma {:induction false} ReservedSplit(xs: seq<Submission>, ys: seq<Submission>)
    ensures Reserved(xs + ys) == Reserved(xs) + Reserved(ys)
  {
    if xs == [] {
      assert xs + ys == ys;
    } else {
      ReservedSplit(xs[1..], ys);
      assert (xs + ys)[1..] == xs[1..] + ys;
    }
  }

  lemma ReservedAt(xs: seq<Submission>, i: nat)
    requires i < |xs|
    ensures Reserved(xs) == Reserved(Without(xs, i)) + |xs[i].jobs|
  {
    ReservedSplit(xs[..i], xs[i..]);
    ReservedSplit(xs[..i], xs[i + 1..]);
    assert xs == xs[..i] + xs[i..];
    assert xs[i..][1..] == xs[i + 1..];
  }

  lemma {:induction false} BufferedSplit(xs: seq<Command>, ys: seq<Command>)
    ensures Buffered(xs + ys) == Buffered(xs) + Buffered(ys)
  {
    if xs == [] {
      assert xs + ys == ys;
    } else {
      BufferedSplit(xs[1..], ys);
      assert (xs + ys)[1..] == xs[1..] + ys;
    }
  }

  // -------------------------------------------------------------- what moves

  predicate OnlyQueueMoves(s: State, s1: State) {
    s1.pending == s.pending && s1.channel == s.channel && s1.tasks == s.tasks && s1.phase == s.phase
  }

  predicate ReapedFrom(s: State, s1: State, id: nat) {
    s1.pending == s.pending && s1.channel == s.channel && s1.tasks == s.tasks - {id}
  }

  lemma ReleaseFrame(s: State, lease: nat)
    ensures OnlyQueueMoves(s, Release(s, lease)) && Release(s, lease).queue == s.queue
  {
  }

  lemma ReapFrame(s: State, id: nat)
    ensures ReapedFrom(s, Reap(s, id), id) && Reap(s, id).queue == s.queue
  {
  }

  lemma JoinFrame(s: State, id: nat)
    requires id in s.tasks
    ensures ReapedFrom(s, JoinDraining(s, id), id) && JoinDraining(s, id).queue == s.queue
    ensures ReapedFrom(s, JoinServing(s, id), id)
    ensures JoinServing(s, id).queue == s.queue
            || (s.tasks[id].status.Continued? && id !in s.cancelled
                && JoinServing(s, id).queue == Pushed(s.queue, s.tasks[id].job.class_, s.tasks[id].job))
  {
    hide Release, Reap, DrainedFrom;
    ReapFrame(s, id);
    ReleaseFrame(Reap(s, id), s.tasks[id].job.lease);
    if id in s.inFlight {
      ReleaseFrame(Reap(s, id), s.inFlight[id].lease);
    }
  }

  // ----------------------------------------------------------- lease movements
  //
  // `before + after` lists the queued jobs apart from the one that moves.

  lemma Widen(before: seq<Accepted>, job: Accepted, after: seq<Accepted>)
    ensures QueueOwns(before + [job] + after, job.lease)
    ensures forall l :: QueueOwns(before + after, l) ==> QueueOwns(before + [job] + after, l)
    ensures forall l :: QueueOwns(before + [job] + after, l) ==> l == job.lease || QueueOwns(before + after, l)
  {
    var wide, narrow := before + [job] + after, before + after;
    assert wide[|before|] == job;
    forall l | QueueOwns(narrow, l) ensures QueueOwns(wide, l) {
      var i :| 0 <= i < |narrow| && narrow[i].lease == l;
      assert wide[if i < |before| then i else i + 1].lease == l;
    }
    forall l | QueueOwns(wide, l) && l != job.lease ensures QueueOwns(narrow, l) {
      var i :| 0 <= i < |wide| && wide[i].lease == l;
      assert narrow[if i < |before| then i else i - 1].lease == l;
    }
  }

  /** The pairwise facts of the queue, with one job told apart. */
  lemma LeasedApart(s: State, before: seq<Accepted>, job: Accepted, after: seq<Accepted>)
    ensures QueueLeased(s, before + [job] + after) <==>
            && QueueLeased(s, before + after)
            && job.lease in s.held
            && !QueueOwns(before + after, job.lease)
  {
    if QueueLeased(s, before + [job] + after) {
      LeasedNarrow(s, before, job, after);
    }
    if QueueLeased(s, before + after) && job.lease in s.held && !QueueOwns(before + after, job.lease) {
      LeasedWide(s, before, job, after);
    }
  }

  lemma LeasedNarrow(s: State, before: seq<Accepted>, job: Accepted, after: seq<Accepted>)
    requires QueueLeased(s, before + [job] + after)
    ensures QueueLeased(s, before + after) && job.lease in s.held && !QueueOwns(before + after, job.lease)
  {
    var wide, narrow := before + [job] + after, before + after;
    assert forall i | 0 <= i < |narrow| :: narrow[i] == wide[if i < |before| then i else i + 1];
    assert wide[|before|] == job;
  }

  lemma LeasedWide(s: State, before: seq<Accepted>, job: Accepted, after: seq<Accepted>)
    requires QueueLeased(s, before + after) && job.lease in s.held && !QueueOwns(before + after, job.lease)
    ensures QueueLeased(s, before + [job] + after)
  {
    var wide, narrow := before + [job] + after, before + after;
    assert forall i | 0 <= i < |wide| && i != |before| :: wide[i] == narrow[if i < |before| then i else i - 1];
    assert wide[|before|] == job;
  }

  lemma QueueLeasedIffOwned(s: State, waiting: seq<Accepted>)
    requires QueueLeased(s, waiting)
    ensures forall l :: QueueOwns(waiting, l) ==> l in s.held
  {
  }

  lemma TasksApart(s: State, waiting: seq<Accepted>, t: nat)
    requires TasksLeased(s, waiting) && t in s.tasks
    ensures !QueueOwns(waiting, s.tasks[t].job.lease)
  {
  }

  lemma TasksStillApart(s: State, s1: State, waiting: seq<Accepted>, waiting1: seq<Accepted>)
    requires TasksLeased(s, waiting)
    requires s1.nextLease >= s.nextLease && s1.nextTask >= s.nextTask
    requires forall t | t in s1.tasks :: t in s.tasks && s1.tasks[t].job == s.tasks[t].job
    requires forall t | t in s1.tasks :: !QueueOwns(waiting1, s1.tasks[t].job.lease)
    ensures TasksLeased(s1, waiting1)
  {
  }

  lemma EnqueueOneKeeps(s: State, job: Job, before: seq<Accepted>, after: seq<Accepted>)
    requires Leases(s, before + after)
    ensures Leases(EnqueueOne(s, job), before + [Accepted(job.work, job.class_, s.nextLease)] + after)
    ensures |EnqueueOne(s, job).held| == |s.held| + 1
  {
    var s1 := EnqueueOne(s, job);
    var accepted := Accepted(job.work, job.class_, s.nextLease);
    Widen(before, accepted, after);
    assert s.nextLease !in s.held;
    QueueLeasedIffOwned(s, before + after);
    LeasedApart(s1, before, accepted, after);
    forall t | t in s1.tasks ensures !QueueOwns(before + [accepted] + after, s1.tasks[t].job.lease) {
      TasksApart(s, before + after, t);
    }
    TasksStillApart(s, s1, before + after, before + [accepted] + after);
    SameTasksOwn(s, s1);
  }

  lemma SameTasksOwn(s: State, s1: State)
    requires forall t | t in s.tasks :: t in s1.tasks && s1.tasks[t].job == s.tasks[t].job
    ensures forall l :: TaskOwns(s, l) ==> TaskOwns(s1, l)
  {
    forall l | TaskOwns(s, l) ensures TaskOwns(s1, l) {
      var t :| t in s.tasks && s.tasks[t].job.lease == l;
      assert t in s1.tasks;
    }
  }

  /** Taking a job out of the queue and releasing its lease. */
  lemma DropQueuedKeeps(s: State, queue: Queue<Accepted>, before: seq<Accepted>, job: Accepted, after: seq<Accepted>)
    requires Leases(s, before + [job] + after)
    ensures Leases(Release(s.(queue := queue), job.lease), before + after) && job.lease in s.held
  {
    var s1 := Release(s.(queue := queue), job.lease);
    Widen(before, job, after);
    LeasedApart(s, before, job, after);
    forall t | t in s1.tasks ensures !QueueOwns(before + after, s1.tasks[t].job.lease) {
      TasksApart(s, before + [job] + after, t);
    }
    TasksStillApart(s, s1, before + [job] + after, before + after);
    SameTasksOwn(s, s1);
    assert forall t | t in s.tasks :: s.tasks[t].job.lease != job.lease by {
      forall t | t in s.tasks ensures s.tasks[t].job.lease != job.lease {
        TasksApart(s, before + [job] + after, t);
      }
    }
  }

  /** A live or cancelled task gives up its lease, and nothing else about leases changes. */
  lemma LeaseGivenUp(s: State, s1: State, id: nat, waiting: seq<Accepted>)
    requires QueueLeased(s, waiting) && TasksLeased(s, waiting) && NoLeak(s, waiting)
    requires id in s.tasks
    requires s1.held == s.held - {s.tasks[id].job.lease}
    requires s1.nextLease == s.nextLease && s1.nextTask == s.nextTask
    requires forall t | t in s1.tasks :: t in s.tasks && s1.tasks[t].job == s.tasks[t].job
    requires forall t | t in s.tasks && t != id :: t in s1.tasks
    ensures QueueLeased(s1, waiting) && TasksLeased(s1, waiting) && NoLeak(s1, waiting)
  {
    TasksApart(s, waiting, id);
    forall l | l in s1.held && TaskOwns(s, l) ensures TaskOwns(s1, l) {
      var t :| t in s.tasks && s.tasks[t].job.lease == l;
      assert t in s1.tasks;
    }
  }

  lemma CancelMarks(s: State, work: nat, waiting: seq<Accepted>)
    requires TasksLeased(s, waiting) && Marked(s) && TablesAgree(s) && work in s.abortByWork
    ensures Marked(CancelInFlight(s, work))
  {
  }

  lemma CancelTables(s: State, work: nat, waiting: seq<Accepted>)
    requires TasksLeased(s, waiting) && Marked(s) && TablesAgree(s) && work in s.abortByWork
    ensures TablesAgree(CancelInFlight(s, work))
  {
  }

  lemma CancelInFlightKeeps(s: State, work: nat, waiting: seq<Accepted>)
    requires Leases(s, waiting)
    ensures Leases(CancelInFlight(s, work), waiting)
  {
    if work in s.abortByWork {
      CancelMarks(s, work, waiting);
      CancelTables(s, work, waiting);
      LeaseGivenUp(s, CancelInFlight(s, work), s.abortByWork[work].task, waiting);
    }
  }

  /** A queued job becomes a task, under the same lease. */
  lemma SpawnKeeps(s: State, queue: Queue<Accepted>, before: seq<Accepted>, job: Accepted, after: seq<Accepted>)
    requires Leases(s, before + [job] + after)
    ensures Leases(Spawn(s.(queue := queue), job), before + after)
  {
    var s1 := Spawn(s.(queue := queue), job);
    assert s.nextTask !in s.tasks;
    LeasedApart(s, before, job, after);
    SpawnLeases(s, s1, before, job, after);
    assert Marked(s1);
    assert TablesAgree(s1);
  }

  lemma SpawnLeases(s: State, s1: State, before: seq<Accepted>, job: Accepted, after: seq<Accepted>)
    requires QueueLeased(s, before + [job] + after) && TasksLeased(s, before + [job] + after)
    requires NoLeak(s, before + [job] + after)
    requires s1.held == s.held && s1.nextLease == s.nextLease && s1.nextTask == s.nextTask + 1
    requires s1.tasks.Keys == s.tasks.Keys + {s.nextTask} && s.nextTask !in s.tasks
    requires s1.tasks[s.nextTask].job == job
    requires forall t | t in s.tasks :: s1.tasks[t] == s.tasks[t]
    ensures QueueLeased(s1, before + after) && TasksLeased(s1, before + after) && NoLeak(s1, before + after)
  {
    Widen(before, job, after);
    LeasedApart(s, before, job, after);
    forall t | t in s.tasks
      ensures s.tasks[t].job.lease != job.lease && !QueueOwns(before + after, s.tasks[t].job.lease)
    {
      TasksApart(s, before + [job] + after, t);
    }
    assert job.lease < s.nextLease;
    SameTasksOwn(s, s1);
    assert TaskOwns(s1, job.lease);
  }

  lemma ReapMarks(s: State, id: nat, waiting: seq<Accepted>)
    requires TasksLeased(s, waiting) && Marked(s) && id in s.tasks
    ensures Marked(Release(Reap(s, id), s.tasks[id].job.lease))
  {
  }

  lemma ReapTables(s: State, id: nat)
    requires TablesAgree(s) && id in s.tasks
    ensures TablesAgree(Release(Reap(s, id), s.tasks[id].job.lease))
  {
  }

  /** A joined task can be forgotten once its lease is released. */
  lemma ReapReleased(s: State, id: nat, waiting: seq<Accepted>)
    requires Leases(s, waiting) && id in s.tasks
    ensures Leases(Release(Reap(s, id), s.tasks[id].job.lease), waiting)
  {
    ReapMarks(s, id, waiting);
    ReapTables(s, id);
    LeaseGivenUp(s, Release(Reap(s, id), s.tasks[id].job.lease), id, waiting);
  }

  /** A task that returned Continue and was not cancelled goes back to the queue with its lease. */
  lemma RequeueKeeps(s: State, id: nat, before: seq<Accepted>, after: seq<Accepted>)
    requires Leases(s, before + after)
    requires id in s.tasks && s.tasks[id].status.Continued? && id !in s.cancelled
    ensures Leases(JoinServing(s, id), before + [s.tasks[id].job] + after)
  {
    var job := s.tasks[id].job;
    var s1 := JoinServing(s, id);
    var wide, narrow := before + [job] + after, before + after;
    Widen(before, job, after);
    TasksApart(s, narrow, id);
    LeasedApart(s1, before, job, after);
    forall t | t in s1.tasks ensures !QueueOwns(wide, s1.tasks[t].job.lease) {
      TasksApart(s, narrow, t);
    }
    TasksStillApart(s, s1, narrow, wide);
    forall l | l in s1.held && l != job.lease && TaskOwns(s, l) ensures TaskOwns(s1, l) {
      var t :| t in s.tasks && s.tasks[t].job.lease == l;
      assert t in s1.tasks;
    }
    assert NoLeak(s1, wide);
    assert TablesAgree(s1);
  }

  /** A task changes status without changing its job. */
  lemma StatusKeeps(s: State, id: nat, status: Status, waiting: seq<Accepted>)
    requires Leases(s, waiting) && id in s.tasks
    requires status.Continued? ==> s.tasks[id].status.Running?
    requires !Active(status)
    ensures Leases(WithStatus(s, id, status), waiting)
  {
    var s1 := WithStatus(s, id, status);
    SameTasksOwn(s, s1);
    assert TasksLeased(s1, waiting);
    assert TablesAgree(s1);
  }

  function Committed(s: State, id: nat): State
    requires id in s.tasks
  {
    Release(WithStatus(s, id, Committing), s.tasks[id].job.lease)
  }

  lemma CommitMarks(s: State, id: nat, waiting: seq<Accepted>)
    requires TasksLeased(s, waiting) && Marked(s) && id in s.tasks
    ensures Marked(Committed(s, id))
  {
  }

  lemma CommitTables(s: State, id: nat)
    requires TablesAgree(s) && id in s.tasks
    ensures TablesAgree(Committed(s, id))
  {
  }

  /** A task gives its lease back before it commits. */
  lemma CommitKeeps(s: State, id: nat, waiting: seq<Accepted>)
    requires Leases(s, waiting) && id in s.tasks && s.tasks[id].status.Running?
    ensures Leases(Committed(s, id), waiting)
  {
    CommitMarks(s, id, waiting);
    CommitTables(s, id);
    LeaseGivenUp(s, Committed(s, id), id, waiting);
  }

  // ---------------------------------------------------------- lease steps

  lemma EnqueueKeeps(s: State, jobs: seq<Job>)
    requires Leases(s, All(s.queue))
    ensures Leases(Enqueue(s, jobs), All(Enqueue(s, jobs).queue))
    ensures |Enqueue(s, jobs).held| == |s.held| + |jobs|
    ensures Enqueue(s, jobs) ==
            s.(queue := Enqueue(s, jobs).queue, held := Enqueue(s, jobs).held, nextLease := Enqueue(s, jobs).nextLease)
    decreases |jobs|
  {
    if jobs != [] {
      var job := jobs[0];
      var before, after := PushInserts(s.queue, job.class_, Accepted(job.work, job.class_, s.nextLease));
      EnqueueOneKeeps(s, job, before, after);
      EnqueueKeeps(EnqueueOne(s, job), jobs[1..]);
    }
  }

  lemma DropMatchKeeps(s: State, matches: Accepted -> bool)
    requires Leases(s, All(s.queue)) && Match(s.queue, matches).Some?
    ensures Leases(DropMatch(s, matches), All(DropMatch(s, matches).queue))
    ensures Match(s.queue, matches).value.lease in s.held
  {
    var before, after := MatchRemoves(s.queue, matches);
    DropQueuedKeeps(s, WithoutMatch(s.queue, matches), before, Match(s.queue, matches).value, after);
  }

  lemma HandleKeeps(s: State, command: Command)
    requires Leases(s, All(s.queue))
    ensures Leases(Handle(s, command), All(Handle(s, command).queue))
  {
    match command
    case Batch(jobs) => EnqueueKeeps(s, jobs);
    case Cancel(work) =>
      if Match(s.queue, Attempts(work)).Some? {
        DropMatchKeeps(s, Attempts(work));
      } else {
        CancelInFlightKeeps(s, work, All(s.queue));
      }
  }

  lemma DispatchKeeps(s: State)
    requires Leases(s, All(s.queue)) && NextJob(s.queue).Some?
    ensures Leases(Spawn(s.(queue := Popped(s.queue)), NextJob(s.queue).value), All(Popped(s.queue)))
  {
    var before, after := PopRemoves(s.queue);
    SpawnKeeps(s, Popped(s.queue), before, NextJob(s.queue).value, after);
  }

  lemma JoinKeeps(s: State, id: nat)
    requires Leases(s, All(s.queue)) && id in s.tasks
    ensures Leases(JoinDraining(s, id), All(s.queue))
    ensures Leases(JoinServing(s, id), All(JoinServing(s, id).queue))
  {
    var job := s.tasks[id].job;
    if s.tasks[id].status.Continued? && id !in s.cancelled {
      var before, after := PushInserts(s.queue, job.class_, job);
      RequeueKeeps(s, id, before, after);
    }
    ReapReleased(s, id, All(s.queue));
  }

  lemma ReceiveKeeps(s: State)
    requires Leases(s, All(s.queue)) && s.channel != []
    ensures var s1 := Handle(s.(channel := s.channel[1..]), s.channel[0]);
            Leases(s1, All(s1.queue))
  {
    var s0 := s.(channel := s.channel[1..]);
    SameTasksOwn(s, s0);
    HandleKeeps(s0, s.channel[0]);
  }

  /** Steps that touch no lease, task, queue or table. */
  lemma UntouchedKeeps(s: State, s1: State)
    requires Leases(s, All(s.queue))
    requires s1.queue == s.queue && s1.held == s.held && s1.nextLease == s.nextLease
    requires s1.tasks == s.tasks && s1.nextTask == s.nextTask && s1.inFlight == s.inFlight
    requires s1.abortByWork == s.abortByWork && s1.cancelled == s.cancelled
    ensures Leases(s1, All(s1.queue))
  {
    SameTasksOwn(s, s1);
  }

  predicate BySubmitter(a: Action) {
    a.Reserve? || a.CheckShutdown? || a.Send? || a.SendCancel? || a.RequestShutdown?
  }

  predicate ByQuantum(a: Action) {
    a.ReleaseEarly? || a.Return? || a.Fail?
  }

  lemma LeasesByQuantum(cfg: Config, s: State, a: Action)
    requires Leases(s, All(s.queue)) && Enabled(cfg, s, a) && ByQuantum(a)
    ensures Leases(Next(cfg, s, a), All(s.queue)) && Next(cfg, s, a).queue == s.queue
  {
    hide Leases, DrainedFrom;
    match a
    case ReleaseEarly(id) => CommitKeeps(s, id, All(s.queue));
    case Return(id, again) => StatusKeeps(s, id, if again then Continued else Finished, All(s.queue));
    case Fail(id) => StatusKeeps(s, id, Failed, All(s.queue));
  }

  lemma LeasesByWorker(cfg: Config, s: State, a: Action)
    requires Leases(s, All(s.queue)) && Enabled(cfg, s, a)
    requires a.Dispatch? || a.Join? || a.DrainQueued? || a.DrainJoin?
    ensures Leases(Next(cfg, s, a), All(Next(cfg, s, a).queue))
  {
    hide Leases, DrainedFrom, WithoutMatch, Popped;
    match a
    case Dispatch => DispatchKeeps(s);
    case Join(id) => JoinKeeps(s, id);
    case DrainQueued =>
      if Match(s.queue, AnyJob()).Some? {
        DropMatchKeeps(s, AnyJob());
      } else {
        UntouchedKeeps(s, Next(cfg, s, a));
      }
    case DrainJoin(id) =>
      if s.tasks == map[] {
        UntouchedKeeps(s, Next(cfg, s, a));
      } else {
        JoinKeeps(s, id);
      }
  }

  lemma LeasesUntouched(cfg: Config, s: State, a: Action)
    requires Leases(s, All(s.queue)) && Enabled(cfg, s, a)
    requires BySubmitter(a) || a.Exit? || a.DrainCommand?
    ensures Leases(Next(cfg, s, a), All(Next(cfg, s, a).queue))
  {
    hide Leases, DrainedFrom;
    UntouchedKeeps(s, Next(cfg, s, a));
  }

  lemma LeasesStep(cfg: Config, s: State, a: Action)
    requires Leases(s, All(s.queue)) && Enabled(cfg, s, a)
    ensures Leases(Next(cfg, s, a), All(Next(cfg, s, a).queue))
  {
    if ByQuantum(a) {
      LeasesByQuantum(cfg, s, a);
    } else if a.Receive? {
      ReceiveKeeps(s);
    } else if BySubmitter(a) || a.Exit? || a.DrainCommand? {
      LeasesUntouched(cfg, s, a);
    } else {
      LeasesByWorker(cfg, s, a);
    }
  }

  // -------------------------------------------------------------- the counter

  /** The step leaves counter minus held leases, and what submitters and channel hold, alone. */
  predicate SameNet(s: State, s1: State) {
    && s1.accepted - |s1.held| == s.accepted - |s.held|
    && s1.accepted <= s.accepted
    && s1.pending == s.pending
    && s1.channel == s.channel
  }

  lemma ReleaseNet(s: State, lease: nat)
    ensures SameNet(s, Release(s, lease))
  {
  }

  lemma CancelNet(s: State, work: nat)
    ensures SameNet(s, Handle(s, Cancel(work)))
  {
    if Match(s.queue, Attempts(work)).Some? {
      var dropped := s.(queue := WithoutMatch(s.queue, Attempts(work)));
      ReleaseNet(dropped, Match(s.queue, Attempts(work)).value.lease);
      assert SameNet(dropped, DropMatch(s, Attempts(work)));
    }
  }

  lemma BatchNet(s: State, jobs: seq<Job>)
    requires Leases(s, All(s.queue))
    ensures var s1 := Handle(s, Batch(jobs));
            && s1.accepted == s.accepted
            && |s1.held| == |s.held| + |jobs|
            && s1.pending == s.pending
            && s1.channel == s.channel
  {
    EnqueueKeeps(s, jobs);
  }

  lemma ReceiveNet(s: State, s0: State)
    requires Leases(s, All(s.queue)) && s.channel != []
    requires s0 == s.(channel := s.channel[1..])
    requires Balanced(s)
    ensures var s1 := Handle(s0, s.channel[0]);
            Balanced(s1) && s1.accepted <= s.accepted
  {
    match s.channel[0]
    case Batch(jobs) =>
      UntouchedKeeps(s, s0);
      BatchNet(s0, jobs);
    case Cancel(work) => CancelNet(s0, work);
  }

  lemma ReapNet(s: State, id: nat)
    ensures SameNet(s, Reap(s, id))
  {
    hide DrainedFrom;
  }

  lemma JoinNet(s: State, id: nat)
    requires id in s.tasks
    ensures SameNet(s, JoinServing(s, id)) && SameNet(s, JoinDraining(s, id))
  {
    hide Release, Reap, DrainedFrom, Pushed;
    ReapNet(s, id);
    ReleaseNet(Reap(s, id), s.tasks[id].job.lease);
    if id in s.inFlight {
      ReleaseNet(Reap(s, id), s.inFlight[id].lease);
    }
  }

  lemma BalancedBySubmitter(cfg: Config, s: State, a: Action)
    requires Balanced(s) && s.accepted <= cfg.capacity && Enabled(cfg, s, a) && BySubmitter(a)
    ensures Balanced(Next(cfg, s, a)) && Next(cfg, s, a).accepted <= cfg.capacity
  {
    match a
    case Reserve(jobs) => ReservedSplit(s.pending, [Submission(jobs, false)]);
    case CheckShutdown(i) =>
      ReservedAt(s.pending, i);
      if !s.shutdown {
        var pending := s.pending[i := s.pending[i].(checked := true)];
        ReservedAt(pending, i);
        assert Without(pending, i) == Without(s.pending, i);
      }
    case Send(i) =>
      ReservedAt(s.pending, i);
      BufferedSplit(s.channel, [Batch(s.pending[i].jobs)]);
    case SendCancel(work) => BufferedSplit(s.channel, [Cancel(work)]);
    case RequestShutdown =>
  }

  lemma SameNetBalanced(s: State, s1: State)
    requires Balanced(s) && SameNet(s, s1)
    ensures Balanced(s1)
  {
  }

  lemma NetByQuantum(cfg: Config, s: State, a: Action)
    requires Enabled(cfg, s, a) && ByQuantum(a)
    ensures SameNet(s, Next(cfg, s, a))
  {
    hide Release, DrainedFrom;
    if a.ReleaseEarly? {
      ReleaseNet(WithStatus(s, a.id, Committing), s.tasks[a.id].job.lease);
    }
  }

  lemma DropNet(s: State, matches: Accepted -> bool)
    requires Match(s.queue, matches).Some?
    ensures SameNet(s, DropMatch(s, matches))
  {
    hide Release, DrainedFrom, WithoutMatch;
    ReleaseNet(s.(queue := WithoutMatch(s.queue, matches)), Match(s.queue, matches).value.lease);
  }

  lemma NetOfStep(cfg: Config, s: State, a: Action)
    requires Enabled(cfg, s, a) && !BySubmitter(a) && !a.Receive? && !a.DrainCommand?
    ensures SameNet(s, Next(cfg, s, a))
  {
    hide DrainedFrom, WithoutMatch, Popped, NextJob, JoinServing, JoinDraining, DropMatch;
    if ByQuantum(a) {
      NetByQuantum(cfg, s, a);
    } else {
      match a
      case Join(id) => JoinNet(s, id);
      case DrainQueued =>
        if Match(s.queue, AnyJob()).Some? {
          DropNet(s, AnyJob());
        }
      case DrainJoin(id) =>
        if s.tasks != map[] {
          JoinNet(s, id);
        }
      case _ =>
    }
  }

  lemma BalancedStep(cfg: Config, s: State, a: Action)
    requires Inv(cfg, s) && Enabled(cfg, s, a)
    ensures Balanced(Next(cfg, s, a)) && Next(cfg, s, a).accepted <= cfg.capacity
  {
    if BySubmitter(a) {
      BalancedBySubmitter(cfg, s, a);
    } else if a.Receive? {
      ReceiveNet(s, s.(channel := s.channel[1..]));
    } else if !a.DrainCommand? {
      NetOfStep(cfg, s, a);
      SameNetBalanced(s, Next(cfg, s, a));
    }
  }

  // ---------------------------------------------------------------- the stages

  /** What the enqueue and cancel paths leave alone. */
  predicate SameStage(s: State, s1: State) {
    && s1.tasks == s.tasks && s1.nextTask == s.nextTask
    && s1.pending == s.pending && s1.channel == s.channel
    && s1.phase == s.phase && s1.channelOpen == s.channelOpen && s1.shutdown == s.shutdown
  }

  lemma {:induction false} EnqueueStage(s: State, jobs: seq<Job>)
    ensures SameStage(s, Enqueue(s, jobs))
    decreases |jobs|
  {
    if jobs != [] {
      EnqueueStage(EnqueueOne(s, jobs[0]), jobs[1..]);
    }
  }

  lemma HandleStage(s: State, command: Command)
    ensures SameStage(s, Handle(s, command))
  {
    hide DrainedFrom, Match, WithoutMatch, Pushed;
    if command.Batch? {
      EnqueueStage(s, command.jobs);
    }
  }

  lemma NothingMatchesAny(q: Queue<Accepted>)
    requires Match(q, AnyJob()).None?
    ensures All(q) == []
  {
    var before, after := MatchRemoves(q, AnyJob());
    assert forall k | 0 <= k < |All(q)| :: AnyJob()(All(q)[k]);
  }

  lemma FewerTasks(tasks: map<nat, Task>, id: nat)
    ensures |tasks - {id}| <= |tasks|
  {
    assert (tasks - {id}).Keys == tasks.Keys - {id};
  }

  lemma StatusCount(s: State, id: nat, status: Status)
    requires id in s.tasks
    ensures |WithStatus(s, id, status).tasks| == |s.tasks|
  {
    assert WithStatus(s, id, status).tasks.Keys == s.tasks.Keys;
  }

  lemma SpawnCount(s: State, job: Accepted)
    ensures |Spawn(s, job).tasks| <= |s.tasks| + 1
  {
    assert Spawn(s, job).tasks.Keys == s.tasks.Keys + {s.nextTask};
  }

  lemma JoinCount(s: State, id: nat)
    requires id in s.tasks
    ensures |JoinServing(s, id).tasks| <= |s.tasks| && |JoinDraining(s, id).tasks| <= |s.tasks|
  {
    hide JoinServing, JoinDraining, DrainedFrom;
    JoinFrame(s, id);
    FewerTasks(s.tasks, id);
  }

  lemma CountByQuantum(cfg: Config, s: State, a: Action)
    requires Enabled(cfg, s, a) && ByQuantum(a)
    ensures |Next(cfg, s, a).tasks| == |s.tasks|
  {
    match a
    case ReleaseEarly(id) => StatusCount(s, id, Committing);
    case Return(id, again) => StatusCount(s, id, if again then Continued else Finished);
    case Fail(id) => StatusCount(s, id, Failed);
  }

  lemma CountStep(cfg: Config, s: State, a: Action)
    requires Enabled(cfg, s, a) && |s.tasks| <= cfg.maxConcurrency
    ensures |Next(cfg, s, a).tasks| <= cfg.maxConcurrency
  {
    if ByQuantum(a) {
      CountByQuantum(cfg, s, a);
    } else {
      match a
      case Receive => HandleStage(s.(channel := s.channel[1..]), s.channel[0]);
      case Dispatch => SpawnCount(s.(queue := Popped(s.queue)), NextJob(s.queue).value);
      case Join(id) => JoinCount(s, id);
      case DrainJoin(id) =>
        if s.tasks != map[] {
          JoinCount(s, id);
        }
      case _ =>
    }
  }

  /** Steps taken while the worker serves, or that leave queue, stage and task set alone. */
  lemma StagedBefore(cfg: Config, s: State, a: Action)
    requires Staged(s) && Enabled(cfg, s, a)
    requires s.phase.Serving? && !a.Exit?
    ensures Next(cfg, s, a).phase.Serving?
  {
    hide DrainedFrom, Match, WithoutMatch, Popped, Pushed, NextJob;
    if a.Receive? {
      HandleStage(s.(channel := s.channel[1..]), s.channel[0]);
    }
  }

  lemma StagedAside(cfg: Config, s: State, a: Action)
    requires Staged(s) && Enabled(cfg, s, a)
    requires BySubmitter(a) || ByQuantum(a) || a.Exit? || a.DrainCommand?
    ensures Staged(Next(cfg, s, a))
  {
    assert Next(cfg, s, a).queue == s.queue;
  }

  lemma StagedDraining(cfg: Config, s: State, a: Action)
    requires Staged(s) && Enabled(cfg, s, a)
    requires a.DrainQueued? || a.DrainJoin?
    ensures Staged(Next(cfg, s, a))
  {
    hide DrainedFrom, WithoutMatch;
    if a.DrainQueued? && Match(s.queue, AnyJob()).None? {
      NothingMatchesAny(s.queue);
    }
  }

  lemma StagedStep(cfg: Config, s: State, a: Action)
    requires Staged(s) && Enabled(cfg, s, a)
    ensures Staged(Next(cfg, s, a))
  {
    if BySubmitter(a) || ByQuantum(a) || a.Exit? || a.DrainCommand? {
      StagedAside(cfg, s, a);
    } else if a.DrainQueued? || a.DrainJoin? {
      StagedDraining(cfg, s, a);
    } else {
      StagedBefore(cfg, s, a);
    }
  }

  /** Every enabled step, by any participant, keeps the whole invariant. */
  lemma StepKeepsInv(cfg: Config, s: State, a: Action)
    requires Inv(cfg, s) && Enabled(cfg, s, a)
    ensures Inv(cfg, Next(cfg, s, a))
  {
    LeasesStep(cfg, s, a);
    BalancedStep(cfg, s, a);
    StagedStep(cfg, s, a);
    CountStep(cfg, s, a);
  }

  // --------------------------------------------------------------- whole runs

  /** An interleaving: each action is enabled in the state the earlier ones lead to. */
  predicate IsRun(cfg: Config, s: State, run: seq<Action>)
    decreases |run|
  {
    run != [] ==> Enabled(cfg, s, run[0]) && IsRun(cfg, Next(cfg, s, run[0]), run[1..])
  }

  function Final(cfg: Config, s: State, run: seq<Action>): State
    requires IsRun(cfg, s, run)
    decreases |run|
  {
    if run == [] then s else Final(cfg, Next(cfg, s, run[0]), run[1..])
  }

  lemma InitInv(cfg: Config)
    ensures Inv(cfg, Init())
  {
    assert All(Init().queue) == [] by {
      var before, after := PopRemoves(Init().queue);
    }
  }

  lemma {:induction false} RunKeepsInv(cfg: Config, s: State, run: seq<Action>)
    requires Inv(cfg, s) && IsRun(cfg, s, run)
    ensures Inv(cfg, Final(cfg, s, run))
    decreases |run|
  {
    if run != [] {
      StepKeepsInv(cfg, s, run[0]);
      RunKeepsInv(cfg, Next(cfg, s, run[0]), run[1..]);
    }
  }

  lemma {:induction false} SubsetSize<T>(small: set<T>, large: set<T>)
    requires small <= large
    ensures |small| <= |large|
  {
    if small != {} {
      var x :| x in small;
      SubsetSize(small - {x}, large - {x});
    }
  }

  lemma {:induction false} DistinctLeases(waiting: seq<Accepted>, held: set<nat>)
    requires forall i | 0 <= i < |waiting| :: waiting[i].lease in held
    requires forall i, j | 0 <= i < j < |waiting| :: waiting[i].lease != waiting[j].lease
    ensures |waiting| <= |held|
  {
    if waiting != [] {
      DistinctLeases(waiting[1..], held - {waiting[0].lease});
    }
  }

  /**
   Admission is exact over every interleaving from start-up: the counter is the sum of
   the reservations in progress, the buffered jobs and the held leases, it neither
   exceeds capacity nor underflows, buffered and queued jobs together fit in capacity,
   and no more quanta run than the concurrency allows.
   */
  lemma AdmissionBalances(cfg: Config, run: seq<Action>)
    requires IsRun(cfg, Init(), run)
    ensures var s := Final(cfg, Init(), run);
            && s.accepted == Reserved(s.pending) + Buffered(s.channel) + |s.held|
            && 0 <= s.accepted <= cfg.capacity
            && Buffered(s.channel) + |All(s.queue)| <= cfg.capacity
            && |s.tasks| <= cfg.maxConcurrency
  {
    InitInv(cfg);
    RunKeepsInv(cfg, Init(), run);
    var s := Final(cfg, Init(), run);
    DistinctLeases(All(s.queue), s.held);
  }

  /** Once the worker has stopped, all that is still counted is submits yet to notice; without them, nothing. */
  lemma StoppedReturnsEverything(cfg: Config, run: seq<Action>)
    requires IsRun(cfg, Init(), run) && Final(cfg, Init(), run).phase.Stopped?
    ensures var s := Final(cfg, Init(), run);
            s.held == {} && s.accepted == Reserved(s.pending) && (s.pending == [] ==> s.accepted == 0)
  {
    hide DrainedFrom;
    InitInv(cfg);
    RunKeepsInv(cfg, Init(), run);
    var s := Final(cfg, Init(), run);
    StoppedHoldsNone(cfg, s);
  }

  lemma StoppedHoldsNone(cfg: Config, s: State)
    requires Inv(cfg, s) && s.phase.Stopped?
    ensures s.held == {}
  {
    if l :| l in s.held {
      assert false;
    }
  }

  /** The leases handed out so far that have been released. */
  ghost function Released(s: State): set<nat> {
    set l | 0 <= l < s.nextLease && l !in s.held
  }

  /** Only leases not handed out before can be newly held. */
  predicate HeldOnlyNew(s: State, s1: State) {
    s.nextLease <= s1.nextLease && forall l | l in s1.held :: l in s.held || l >= s.nextLease
  }

  lemma {:induction false} EnqueueHeld(s: State, jobs: seq<Job>)
    ensures HeldOnlyNew(s, Enqueue(s, jobs))
    decreases |jobs|
  {
    hide DrainedFrom, Pushed;
    if jobs != [] {
      EnqueueHeld(EnqueueOne(s, jobs[0]), jobs[1..]);
    }
  }

  lemma ReleaseHeld(s: State, lease: nat)
    ensures HeldOnlyNew(s, Release(s, lease))
  {
  }

  lemma ReapHeld(s: State, id: nat)
    ensures HeldOnlyNew(s, Reap(s, id))
  {
    hide DrainedFrom;
  }

  lemma JoinHeld(s: State, id: nat)
    requires id in s.tasks
    ensures HeldOnlyNew(s, JoinServing(s, id)) && HeldOnlyNew(s, JoinDraining(s, id))
  {
    hide Release, Reap, DrainedFrom, Pushed;
    ReapHeld(s, id);
    ReleaseHeld(Reap(s, id), s.tasks[id].job.lease);
    if id in s.inFlight {
      ReleaseHeld(Reap(s, id), s.inFlight[id].lease);
    }
  }

  lemma HandleHeld(s: State, command: Command)
    ensures HeldOnlyNew(s, Handle(s, command))
  {
    hide DrainedFrom, Match, WithoutMatch;
    if command.Batch? {
      EnqueueHeld(s, command.jobs);
    }
  }

  lemma StepHeld(cfg: Config, s: State, a: Action)
    requires Enabled(cfg, s, a)
    ensures HeldOnlyNew(s, Next(cfg, s, a))
  {
    hide DrainedFrom, Match, WithoutMatch, Popped, NextJob, JoinServing, JoinDraining, Handle;
    match a
    case Receive => HandleHeld(s.(channel := s.channel[1..]), s.channel[0]);
    case Join(id) => JoinHeld(s, id);
    case DrainJoin(id) =>
      if s.tasks != map[] {
        JoinHeld(s, id);
      }
    case _ =>
  }

  /**
   A release takes effect once: in any run a released lease stays released, so the
   counter is never decremented for it again, and a stopped worker has released all.
   */
  lemma {:induction false} ReleasedOnceAndForAll(cfg: Config, s: State, run: seq<Action>)
    requires Inv(cfg, s) && IsRun(cfg, s, run)
    ensures Released(s) <= Released(Final(cfg, s, run))
    ensures Final(cfg, s, run).phase.Stopped? ==>
              forall l: nat | l < Final(cfg, s, run).nextLease :: l in Released(Final(cfg, s, run))
    decreases |run|
  {
    if run != [] {
      StepKeepsInv(cfg, s, run[0]);
      StepReleases(cfg, s, run[0]);
      ReleasedOnceAndForAll(cfg, Next(cfg, s, run[0]), run[1..]);
    } else if s.phase.Stopped? {
      StoppedHoldsNone(cfg, s);
    }
  }

  lemma StepReleases(cfg: Config, s: State, a: Action)
    requires Enabled(cfg, s, a)
    ensures Released(s) <= Released(Next(cfg, s, a))
  {
    hide Next;
    StepHeld(cfg, s, a);
  }
}
