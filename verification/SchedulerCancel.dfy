/**
 Cancellation over every interleaving. As long as no work id is admitted while it is
 still somewhere in the scheduler, every in-flight task is either the one its work's
 abort entry points at or is marked cancelled, and once a cancel has been handled its
 work never runs another quantum. A submit that is refused may be retried under its id.
 */
module SchedulerCancel {
  import opened Wrappers
  import opened WorkQueue
  import opened Scheduler
  import opened SchedulerSafety

  // ------------------------------------------------------ where a work id sits

  function InJobs(jobs: seq<Job>, w: nat): nat {
    if jobs == [] then 0 else (if jobs[0].work == w then 1 else 0) + InJobs(jobs[1..], w)
  }

  function InPending(pending: seq<Submission>, w: nat): nat {
    if pending == [] then 0 else InJobs(pending[0].jobs, w) + InPending(pending[1..], w)
  }

  function InCommand(command: Command, w: nat): nat {
    if command.Batch? then InJobs(command.jobs, w) else 0
  }

  function InChannel(channel: seq<Command>, w: nat): nat {
    if channel == [] then 0 else InCommand(channel[0], w) + InChannel(channel[1..], w)
  }

  function InQueue(waiting: seq<Accepted>, w: nat): nat {
    if waiting == [] then 0 else (if waiting[0].work == w then 1 else 0) + InQueue(waiting[1..], w)
  }

  ghost function TasksOf(tasks: map<nat, Task>, w: nat): set<nat> {
    set t | t in tasks && tasks[t].job.work == w
  }

  /** How often a work id occurs among submits, buffered commands, queued jobs and tasks. */
  ghost function Occurrences(s: State, w: nat): nat {
    InPending(s.pending, w) + InChannel(s.channel, w) + InQueue(All(s.queue), w) + |TasksOf(s.tasks, w)|
  }

  /** How often a step admits a work id; a submit refused for capacity admits nothing. */
  function Admits(cfg: Config, s: State, a: Action, w: nat): nat {
    if a.Reserve? && s.accepted + |a.jobs| <= cfg.capacity then InJobs(a.jobs, w) else 0
  }

  lemma {:induction false} PendingSplit(xs: seq<Submission>, ys: seq<Submission>, w: nat)
    ensures InPending(xs + ys, w) == InPending(xs, w) + InPending(ys, w)
  {
    if xs == [] {
      assert xs + ys == ys;
    } else {
      PendingSplit(xs[1..], ys, w);
      assert (xs + ys)[1..] == xs[1..] + ys;
    }
  }

  lemma PendingAt(xs: seq<Submission>, i: nat, w: nat)
    requires i < |xs|
    ensures InPending(xs, w) == InPending(Without(xs, i), w) + InJobs(xs[i].jobs, w)
  {
    PendingSplit(xs[..i], xs[i..], w);
    PendingSplit(xs[..i], xs[i + 1..], w);
    assert xs == xs[..i] + xs[i..];
    assert xs[i..][1..] == xs[i + 1..];
  }

  lemma {:induction false} ChannelSplit(xs: seq<Command>, ys: seq<Command>, w: nat)
    ensures InChannel(xs + ys, w) == InChannel(xs, w) + InChannel(ys, w)
  {
    if xs == [] {
      assert xs + ys == ys;
    } else {
      ChannelSplit(xs[1..], ys, w);
      assert (xs + ys)[1..] == xs[1..] + ys;
    }
  }

  lemma {:induction false} QueueSplit(xs: seq<Accepted>, ys: seq<Accepted>, w: nat)
    ensures InQueue(xs + ys, w) == InQueue(xs, w) + InQueue(ys, w)
  {
    if xs == [] {
      assert xs + ys == ys;
    } else {
      QueueSplit(xs[1..], ys, w);
      assert (xs + ys)[1..] == xs[1..] + ys;
    }
  }

  lemma QueueOne(before: seq<Accepted>, job: Accepted, after: seq<Accepted>, w: nat)
    ensures InQueue(before + [job] + after, w) == InQueue(before + after, w) + (if job.work == w then 1 else 0)
  {
    QueueSplit(before + [job], after, w);
    QueueSplit(before, [job], w);
    QueueSplit(before, after, w);
  }

  lemma {:induction false} NotInQueue(waiting: seq<Accepted>, w: nat)
    requires forall k | 0 <= k < |waiting| :: waiting[k].work != w
    ensures InQueue(waiting, w) == 0
  {
    if waiting != [] {
      NotInQueue(waiting[1..], w);
    }
  }

  // ----------------------------------------------------- queue effects on a work

  lemma PushedOccurs(q: Queue<Accepted>, c: WorkClass, job: Accepted, w: nat)
    ensures InQueue(All(Pushed(q, c, job)), w) == InQueue(All(q), w) + (if job.work == w then 1 else 0)
  {
    var before, after := PushInserts(q, c, job);
    QueueOne(before, job, after, w);
  }

  lemma PoppedOccurs(q: Queue<Accepted>, w: nat)
    requires NextJob(q).Some?
    ensures InQueue(All(q), w) == InQueue(All(Popped(q)), w) + (if NextJob(q).value.work == w then 1 else 0)
  {
    var before, after := PopRemoves(q);
    QueueOne(before, NextJob(q).value, after, w);
  }

  lemma MatchedOccurs(q: Queue<Accepted>, matches: Accepted -> bool, w: nat)
    requires Match(q, matches).Some?
    ensures matches(Match(q, matches).value)
    ensures InQueue(All(q), w) == InQueue(All(WithoutMatch(q, matches)), w)
            + (if Match(q, matches).value.work == w then 1 else 0)
  {
    var before, after := MatchRemoves(q, matches);
    QueueOne(before, Match(q, matches).value, after, w);
  }

  lemma UnmatchedAbsent(q: Queue<Accepted>, w: nat)
    requires Match(q, Attempts(w)).None?
    ensures InQueue(All(q), w) == 0
  {
    var before, after := MatchRemoves(q, Attempts(w));
    forall k | 0 <= k < |All(q)| ensures All(q)[k].work != w {
      assert !Attempts(w)(All(q)[k]);
    }
    NotInQueue(All(q), w);
  }

  lemma {:induction false} EnqueuedOccurs(s: State, jobs: seq<Job>, w: nat)
    ensures InQueue(All(Enqueue(s, jobs).queue), w) == InQueue(All(s.queue), w) + InJobs(jobs, w)
    ensures Aside(s, Enqueue(s, jobs))
    decreases |jobs|
  {
    if jobs != [] {
      PushedOccurs(s.queue, jobs[0].class_, Accepted(jobs[0].work, jobs[0].class_, s.nextLease), w);
      EnqueuedOccurs(EnqueueOne(s, jobs[0]), jobs[1..], w);
    }
  }

  /** The step leaves submits, channel, tasks and task tables alone. */
  predicate Aside(s: State, s1: State) {
    && s1.pending == s.pending
    && s1.channel == s.channel
    && s1.tasks == s.tasks
    && s1.phase == s.phase
    && s1.abortByWork == s.abortByWork
    && s1.cancelled == s.cancelled
  }

  lemma CancelFrame(s: State, v: nat)
    ensures OnlyQueueMoves(s, Handle(s, Cancel(v)))
    ensures Match(s.queue, Attempts(v)).Some? ==>
              Handle(s, Cancel(v)).queue == WithoutMatch(s.queue, Attempts(v))
    ensures Match(s.queue, Attempts(v)).None? ==> Handle(s, Cancel(v)).queue == s.queue
  {
    hide DrainedFrom, Match, WithoutMatch;
  }

  /** Effect of the cancel of work `v` on where work `w` sits. */
  lemma CancelOccurs(s: State, v: nat, w: nat)
    ensures OnlyQueueMoves(s, Handle(s, Cancel(v)))
    ensures InQueue(All(Handle(s, Cancel(v)).queue), w) <= InQueue(All(s.queue), w)
  {
    CancelFrame(s, v);
    if Match(s.queue, Attempts(v)).Some? {
      MatchedOccurs(s.queue, Attempts(v), w);
    }
  }

  // -------------------------------------------------------- occurrences per step

  lemma SubmitterOccurs(cfg: Config, s: State, a: Action, w: nat)
    requires Enabled(cfg, s, a) && BySubmitter(a)
    ensures var s1 := Next(cfg, s, a);
            && InPending(s1.pending, w) + Delivers(s, a, w) <= InPending(s.pending, w) + Admits(cfg, s, a, w)
            && InChannel(s1.channel, w) == InChannel(s.channel, w) + Delivers(s, a, w)
    ensures Next(cfg, s, a).queue == s.queue && Next(cfg, s, a).tasks == s.tasks
  {
    hide DrainedFrom;
    match a
    case Reserve(jobs) => PendingSplit(s.pending, [Submission(jobs, false)], w);
    case CheckShutdown(i) =>
      PendingAt(s.pending, i, w);
      if !s.shutdown {
        var pending := s.pending[i := s.pending[i].(checked := true)];
        PendingAt(pending, i, w);
        assert Without(pending, i) == Without(s.pending, i);
      }
    case Send(i) =>
      PendingAt(s.pending, i, w);
      ChannelSplit(s.channel, [Batch(s.pending[i].jobs)], w);
    case SendCancel(v) => ChannelSplit(s.channel, [Cancel(v)], w);
    case RequestShutdown =>
  }

  lemma ReceiveOccurs(s: State, s0: State, w: nat)
    requires s.channel != [] && s0 == s.(channel := s.channel[1..])
    ensures Occurrences(Handle(s0, s.channel[0]), w) <= Occurrences(s, w)
  {
    match s.channel[0]
    case Batch(jobs) => EnqueuedOccurs(s0, jobs, w);
    case Cancel(v) => CancelOccurs(s0, v, w);
  }

  lemma SpawnTasks(s: State, job: Accepted, w: nat)
    requires s.nextTask !in s.tasks
    ensures TasksOf(Spawn(s, job).tasks, w) ==
            TasksOf(s.tasks, w) + (if job.work == w then {s.nextTask} else {})
  {
  }

  lemma DispatchOccurs(s: State, w: nat)
    requires NextJob(s.queue).Some? && s.nextTask !in s.tasks
    ensures var s1 := Spawn(s.(queue := Popped(s.queue)), NextJob(s.queue).value);
            Occurrences(s1, w) == Occurrences(s, w)
  {
    PoppedOccurs(s.queue, w);
    SpawnTasks(s.(queue := Popped(s.queue)), NextJob(s.queue).value, w);
  }

  lemma ReapTasks(tasks: map<nat, Task>, id: nat, w: nat)
    requires id in tasks
    ensures TasksOf(tasks - {id}, w) == TasksOf(tasks, w) - {id}
    ensures |TasksOf(tasks, w)| == |TasksOf(tasks - {id}, w)| + (if tasks[id].job.work == w then 1 else 0)
  {
    assert TasksOf(tasks - {id}, w) == TasksOf(tasks, w) - {id};
    if tasks[id].job.work != w {
      assert TasksOf(tasks, w) - {id} == TasksOf(tasks, w);
    }
  }

  lemma JoinOccurs(s: State, id: nat, w: nat)
    requires id in s.tasks
    ensures Occurrences(JoinServing(s, id), w) <= Occurrences(s, w)
    ensures Occurrences(JoinDraining(s, id), w) <= Occurrences(s, w)
  {
    JoinFrame(s, id);
    ReapTasks(s.tasks, id, w);
    PushedOccurs(s.queue, s.tasks[id].job.class_, s.tasks[id].job, w);
  }

  lemma StatusOccurs(cfg: Config, s: State, a: Action, w: nat)
    requires Enabled(cfg, s, a) && ByQuantum(a)
    ensures TasksOf(Next(cfg, s, a).tasks, w) == TasksOf(s.tasks, w)
    ensures Occurrences(Next(cfg, s, a), w) == Occurrences(s, w)
  {
    hide DrainedFrom;
    assert TasksOf(Next(cfg, s, a).tasks, w) == TasksOf(s.tasks, w);
  }

  lemma DrainQueuedOccurs(s: State, w: nat)
    requires Match(s.queue, AnyJob()).Some?
    ensures Occurrences(DropMatch(s, AnyJob()), w) <= Occurrences(s, w)
  {
    MatchedOccurs(s.queue, AnyJob(), w);
    var s1 := DropMatch(s, AnyJob());
    assert OnlyQueueMoves(s, s1) && s1.queue == WithoutMatch(s.queue, AnyJob());
  }

  lemma DrainOccurs(cfg: Config, s: State, a: Action, w: nat)
    requires Enabled(cfg, s, a)
    requires a.Exit? || a.DrainCommand? || a.DrainQueued? || a.DrainJoin?
    ensures Occurrences(Next(cfg, s, a), w) <= Occurrences(s, w)
  {
    hide DrainedFrom, WithoutMatch;
    if a.DrainQueued? && Match(s.queue, AnyJob()).Some? {
      DrainQueuedOccurs(s, w);
    } else if a.DrainJoin? && s.tasks != map[] {
      JoinOccurs(s, a.id, w);
    } else {
      assert Next(cfg, s, a).queue == s.queue && Next(cfg, s, a).tasks == s.tasks;
    }
  }

  /** Only a submit can add an occurrence of a work id. */
  lemma OccursStep(cfg: Config, s: State, a: Action, w: nat)
    requires Enabled(cfg, s, a) && s.nextTask !in s.tasks
    ensures Occurrences(Next(cfg, s, a), w) <= Occurrences(s, w) + Admits(cfg, s, a, w)
  {
    if BySubmitter(a) {
      SubmitterOccurs(cfg, s, a, w);
    } else if ByQuantum(a) {
      StatusOccurs(cfg, s, a, w);
    } else if a.Receive? {
      ReceiveOccurs(s, s.(channel := s.channel[1..]), w);
    } else if a.Dispatch? {
      DispatchOccurs(s, w);
    } else if a.Join? {
      JoinOccurs(s, a.id, w);
    } else {
      DrainOccurs(cfg, s, a, w);
    }
  }

  ghost predicate AtMostOnce(s: State) {
    forall w :: Occurrences(s, w) <= 1
  }

  /** Whenever the run admits the work id, it does so once and the id is nowhere in the scheduler. */
  ghost predicate AdmittedFresh(cfg: Config, s: State, run: seq<Action>, w: nat)
    requires IsRun(cfg, s, run)
    decreases |run|
  {
    run != [] ==>
      && (Admits(cfg, s, run[0], w) > 0 ==> Occurrences(s, w) + Admits(cfg, s, run[0], w) <= 1)
      && AdmittedFresh(cfg, Next(cfg, s, run[0]), run[1..], w)
  }

  ghost predicate FreshRun(cfg: Config, s: State, run: seq<Action>)
    requires IsRun(cfg, s, run)
  {
    forall w :: AdmittedFresh(cfg, s, run, w)
  }

  lemma FreshStep(cfg: Config, s: State, run: seq<Action>)
    requires Inv(cfg, s) && IsRun(cfg, s, run) && run != []
    requires AtMostOnce(s) && FreshRun(cfg, s, run)
    ensures AtMostOnce(Next(cfg, s, run[0])) && FreshRun(cfg, Next(cfg, s, run[0]), run[1..])
  {
    hide Next, Inv, Enabled, Occurrences, Admits, DrainedFrom;
    var s1 := Next(cfg, s, run[0]);
    forall w ensures Occurrences(s1, w) <= 1 && AdmittedFresh(cfg, s1, run[1..], w) {
      assert AdmittedFresh(cfg, s, run, w) && Occurrences(s, w) <= 1;
      FreshIdsUnused(cfg, s);
      OccursStep(cfg, s, run[0], w);
    }
  }

  /** A step that submits nothing may precede any fresh run. */
  lemma FreshAfter(cfg: Config, s: State, a: Action, run: seq<Action>)
    requires Enabled(cfg, s, a) && !a.Reserve?
    requires IsRun(cfg, Next(cfg, s, a), run) && FreshRun(cfg, Next(cfg, s, a), run)
    ensures IsRun(cfg, s, [a] + run) && FreshRun(cfg, s, [a] + run)
  {
    hide Next, Enabled, Occurrences;
    assert ([a] + run)[1..] == run;
    forall w ensures AdmittedFresh(cfg, s, [a] + run, w) {
      assert AdmittedFresh(cfg, Next(cfg, s, a), run, w);
    }
  }

  lemma FreshIdsUnused(cfg: Config, s: State)
    requires Inv(cfg, s)
    ensures s.nextTask !in s.tasks
  {
  }

  // ------------------------------------------------- the runtime's id allocation

  /** How often a step puts a work id into the channel, which completes its submit. */
  function Delivers(s: State, a: Action, w: nat): nat {
    if a.Send? && a.i < |s.pending| && s.channelOpen then InJobs(s.pending[a.i].jobs, w) else 0
  }

  /**
   The runtime's use of a work id: it moves on to the next id only after a submit has
   succeeded, so a submit of `w` names it once and starts when no submit of `w` is in
   progress and none has succeeded (`delivered` counts those that have).
   */
  predicate RetriedUntilDelivered(cfg: Config, s: State, run: seq<Action>, w: nat, delivered: nat)
    requires IsRun(cfg, s, run)
    decreases |run|
  {
    run != [] ==>
      && (Admits(cfg, s, run[0], w) > 0 ==>
            Admits(cfg, s, run[0], w) + InPending(s.pending, w) + delivered <= 1)
      && RetriedUntilDelivered(cfg, Next(cfg, s, run[0]), run[1..], w, delivered + Delivers(s, run[0], w))
  }

  /** Past the submitters: buffered, queued or running. */
  ghost function Inside(s: State, w: nat): nat {
    InChannel(s.channel, w) + InQueue(All(s.queue), w) + |TasksOf(s.tasks, w)|
  }

  /** Only a delivered submit adds an occurrence past the submitters. */
  lemma InsideStep(cfg: Config, s: State, a: Action, w: nat)
    requires Inv(cfg, s) && Enabled(cfg, s, a)
    ensures Inside(Next(cfg, s, a), w) <= Inside(s, w) + Delivers(s, a, w)
    ensures InPending(Next(cfg, s, a).pending, w) + Delivers(s, a, w) <= InPending(s.pending, w) + Admits(cfg, s, a, w)
  {
    OccursStep(cfg, s, a, w);
    if BySubmitter(a) {
      SubmitterOccurs(cfg, s, a, w);
    } else {
      PendingBySubmitters(cfg, s, a);
    }
  }

  lemma PendingBySubmitters(cfg: Config, s: State, a: Action)
    requires Enabled(cfg, s, a) && !BySubmitter(a)
    ensures Next(cfg, s, a).pending == s.pending
  {
    if a.Receive? {
      HandleStage(s.(channel := s.channel[1..]), s.channel[0]);
    } else {
      PendingKept(cfg, s, a);
    }
  }

  lemma {:induction false} RetriesStayFresh(cfg: Config, s: State, run: seq<Action>, w: nat, delivered: nat)
    requires Inv(cfg, s) && IsRun(cfg, s, run)
    requires RetriedUntilDelivered(cfg, s, run, w, delivered) && Inside(s, w) <= delivered
    ensures AdmittedFresh(cfg, s, run, w)
    decreases |run|
  {
    hide Next, Inv, Enabled, Admits, Delivers, DrainedFrom;
    if run != [] {
      StepKeepsInv(cfg, s, run[0]);
      InsideStep(cfg, s, run[0], w);
      RetriesStayFresh(cfg, Next(cfg, s, run[0]), run[1..], w, delivered + Delivers(s, run[0], w));
    }
  }

  /**
   The runtime's id allocation is fresh in every run: reusing an id after a submit was
   refused for capacity or found the scheduler closed never admits a work id that is
   still in the scheduler.
   */
  lemma RuntimeSubmitsAreFresh(cfg: Config, run: seq<Action>)
    requires IsRun(cfg, Init(), run)
    requires forall w :: RetriedUntilDelivered(cfg, Init(), run, w, 0)
    ensures FreshRun(cfg, Init(), run)
  {
    InitInv(cfg);
    forall w ensures AdmittedFresh(cfg, Init(), run, w) {
      InitOccurrences(w);
      RetriesStayFresh(cfg, Init(), run, w, 0);
    }
  }

  // ------------------------------------------------------------ the abort map

  /** An in-flight task is the one its work's abort entry names, or it is marked cancelled. */
  ghost predicate Abortable(s: State) {
    forall t | t in s.tasks && t !in s.cancelled ::
      s.tasks[t].job.work in s.abortByWork && s.abortByWork[s.tasks[t].job.work].task == t
  }

  lemma OneTaskPerWork(s: State, w: nat)
    requires Occurrences(s, w) <= 1
    ensures forall t, u | t in s.tasks && u in s.tasks && s.tasks[t].job.work == w && s.tasks[u].job.work == w :: t == u
    ensures InQueue(All(s.queue), w) >= 1 ==> TasksOf(s.tasks, w) == {}
  {
    forall t, u | t in s.tasks && u in s.tasks && s.tasks[t].job.work == w && s.tasks[u].job.work == w
      ensures t == u
    {
      if t != u {
        assert {t, u} <= TasksOf(s.tasks, w);
        SubsetSize({t, u}, TasksOf(s.tasks, w));
      }
    }
  }

  lemma AbortableDispatch(s: State, queue: Queue<Accepted>, job: Accepted)
    requires Abortable(s) && TasksOf(s.tasks, job.work) == {}
    ensures Abortable(Spawn(s.(queue := queue), job))
  {
    assert forall t | t in s.tasks :: t in TasksOf(s.tasks, s.tasks[t].job.work);
  }

  lemma AbortableReap(s: State, id: nat)
    requires Abortable(s) && TablesAgree(s) && id in s.tasks
    requires Occurrences(s, s.tasks[id].job.work) <= 1
    ensures Abortable(Reap(s, id))
  {
    OneTaskPerWork(s, s.tasks[id].job.work);
  }

  lemma AbortableJoin(s: State, id: nat)
    requires Abortable(s) && TablesAgree(s) && id in s.tasks
    requires Occurrences(s, s.tasks[id].job.work) <= 1
    ensures Abortable(JoinServing(s, id)) && Abortable(JoinDraining(s, id))
  {
    AbortableReap(s, id);
    JoinTables(s, id);
  }

  lemma JoinTables(s: State, id: nat)
    requires id in s.tasks
    ensures SameTables(Reap(s, id), JoinServing(s, id)) && SameTables(Reap(s, id), JoinDraining(s, id))
  {
  }

  predicate SameTables(s: State, s1: State) {
    s1.tasks == s.tasks && s1.abortByWork == s.abortByWork && s1.cancelled == s.cancelled
  }

  lemma AbortableHandle(s: State, command: Command)
    requires Abortable(s)
    ensures Abortable(Handle(s, command))
  {
    match command
    case Batch(jobs) => EnqueuedOccurs(s, jobs, 0);
    case Cancel(w) =>
      if Match(s.queue, Attempts(w)).Some? {
        assert SameTables(s, DropMatch(s, Attempts(w)));
      } else {
        AbortableCancel(s, w);
      }
  }

  lemma AbortableCancel(s: State, w: nat)
    requires Abortable(s)
    ensures Abortable(CancelInFlight(s, w))
  {
  }

  lemma AbortableQuantum(cfg: Config, s: State, a: Action)
    requires Abortable(s) && Enabled(cfg, s, a) && ByQuantum(a)
    ensures Abortable(Next(cfg, s, a))
  {
  }

  lemma TablesUntouched(cfg: Config, s: State, a: Action)
    requires Enabled(cfg, s, a)
    requires BySubmitter(a) || a.Exit? || a.DrainCommand? || a.DrainQueued? || (a.DrainJoin? && s.tasks == map[])
    ensures SameTables(s, Next(cfg, s, a))
  {
    hide DrainedFrom, Match, WithoutMatch, Popped, Pushed, NextJob;
  }

  lemma AbortableStep(cfg: Config, s: State, a: Action)
    requires Inv(cfg, s) && Enabled(cfg, s, a)
    requires AtMostOnce(s) && Abortable(s)
    ensures Abortable(Next(cfg, s, a))
  {
    if ByQuantum(a) {
      AbortableQuantum(cfg, s, a);
    } else if a.Receive? {
      AbortableHandle(s.(channel := s.channel[1..]), s.channel[0]);
    } else if a.Dispatch? {
      var job := NextJob(s.queue).value;
      PoppedOccurs(s.queue, job.work);
      OneTaskPerWork(s, job.work);
      AbortableDispatch(s, Popped(s.queue), job);
    } else if a.Join? || (a.DrainJoin? && s.tasks != map[]) {
      AbortableJoin(s, a.id);
    } else {
      TablesUntouched(cfg, s, a);
    }
  }

  lemma {:induction false} InitOccurrences(w: nat)
    ensures Occurrences(Init(), w) == 0
  {
    InitInv(Config(0, 0));
    assert All(Init().queue) == [] by {
      var before, after := PopRemoves(Init().queue);
    }
    assert TasksOf(Init().tasks, w) == {};
  }

  lemma {:induction false} RunAbortable(cfg: Config, s: State, run: seq<Action>)
    requires Inv(cfg, s) && IsRun(cfg, s, run) && FreshRun(cfg, s, run) && AtMostOnce(s) && Abortable(s)
    ensures var s1 := Final(cfg, s, run);
            Inv(cfg, s1) && AtMostOnce(s1) && Abortable(s1)
    decreases |run|
  {
    if run != [] {
      StepKeepsInv(cfg, s, run[0]);
      AbortableStep(cfg, s, run[0]);
      FreshStep(cfg, s, run);
      RunAbortable(cfg, Next(cfg, s, run[0]), run[1..]);
    }
  }

  lemma ReachedAbortable(cfg: Config, run: seq<Action>)
    requires IsRun(cfg, Init(), run) && FreshRun(cfg, Init(), run)
    ensures var s := Final(cfg, Init(), run);
            Inv(cfg, s) && AtMostOnce(s) && Abortable(s)
  {
    InitInv(cfg);
    forall w ensures Occurrences(Init(), w) <= 1 {
      InitOccurrences(w);
    }
    RunAbortable(cfg, Init(), run);
  }

  /**
   In every run from start-up that admits no work id while it is still in the scheduler,
   an in-flight task is either the one its work's abort entry names or is marked
   externally cancelled, no two in-flight tasks attempt the same work, and a mark never
   outlives its task.
   */
  lemma InFlightIsAbortable(cfg: Config, run: seq<Action>)
    requires IsRun(cfg, Init(), run) && FreshRun(cfg, Init(), run)
    ensures var s := Final(cfg, Init(), run);
            && Abortable(s)
            && (forall t, u | t in s.tasks && u in s.tasks && s.tasks[t].job.work == s.tasks[u].job.work :: t == u)
            && s.inFlight.Keys == s.tasks.Keys
            && s.cancelled <= s.tasks.Keys
  {
    ReachedAbortable(cfg, run);
    var s := Final(cfg, Init(), run);
    forall t, u | t in s.tasks && u in s.tasks && s.tasks[t].job.work == s.tasks[u].job.work ensures t == u {
      OneTaskPerWork(s, s.tasks[t].job.work);
    }
  }

  // ------------------------------------------------------- cancel is for good

  /** The work will never run another quantum: it waits nowhere and its tasks are marked. */
  ghost predicate Gone(s: State, w: nat) {
    && InPending(s.pending, w) == 0
    && InChannel(s.channel, w) == 0
    && InQueue(All(s.queue), w) == 0
    && forall t | t in s.tasks && s.tasks[t].job.work == w :: t in s.cancelled
  }

  /** Position `k` of the channel holds a cancel of the work, and no command from there on carries it. */
  ghost predicate CancelAt(s: State, w: nat, k: nat) {
    k < |s.channel| && s.channel[k] == Cancel(w) && InChannel(s.channel[k..], w) == 0
  }

  /**
   The work's submit has completed and its cancel has been accepted: `left` commands
   are ahead of that cancel, or it has been handled when `left` is negative.
   */
  ghost predicate CancelSent(s: State, w: nat, left: int) {
    && InPending(s.pending, w) == 0
    && (s.phase.Serving? ==> if left < 0 then Gone(s, w) else CancelAt(s, w, left))
  }

  lemma GoneHandle(s: State, command: Command, w: nat)
    requires Gone(s, w) && InCommand(command, w) == 0
    ensures Gone(Handle(s, command), w)
  {
    match command
    case Batch(jobs) => EnqueuedOccurs(s, jobs, w);
    case Cancel(v) => GoneCancel(s, v, w);
  }

  lemma MarksGrow(s: State, v: nat)
    ensures Handle(s, Cancel(v)).cancelled >= s.cancelled
  {
    hide DrainedFrom, Match, WithoutMatch;
  }

  lemma GoneCancel(s: State, v: nat, w: nat)
    requires Gone(s, w)
    ensures Gone(Handle(s, Cancel(v)), w)
  {
    CancelOccurs(s, v, w);
    MarksGrow(s, v);
    GoneStill(s, Handle(s, Cancel(v)), w);
  }

  lemma GoneStill(s: State, s1: State, w: nat)
    requires Gone(s, w) && OnlyQueueMoves(s, s1) && s1.cancelled >= s.cancelled
    requires InQueue(All(s1.queue), w) <= InQueue(All(s.queue), w)
    ensures Gone(s1, w)
  {
  }

  /** Handling the cancel of a work that no buffered command carries makes it gone. */
  lemma CancelMakesGone(s: State, w: nat)
    requires Abortable(s) && Occurrences(s, w) <= 1
    requires InPending(s.pending, w) == 0 && InChannel(s.channel, w) == 0
    ensures Gone(Handle(s, Cancel(w)), w)
  {
    CancelFrame(s, w);
    if Match(s.queue, Attempts(w)).Some? {
      MatchedOccurs(s.queue, Attempts(w), w);
      OneTaskPerWork(s, w);
      assert TasksOf(s.tasks, w) == {};
      assert forall t | t in s.tasks :: t in TasksOf(s.tasks, s.tasks[t].job.work);
    } else {
      UnmatchedAbsent(s.queue, w);
      MarkedByCancel(s, w);
    }
  }

  lemma MarkedByCancel(s: State, w: nat)
    requires Abortable(s)
    ensures forall t | t in s.tasks && s.tasks[t].job.work == w :: t in CancelInFlight(s, w).cancelled
  {
  }

  lemma GoneJoin(s: State, id: nat, w: nat)
    requires Gone(s, w) && id in s.tasks
    ensures Gone(JoinServing(s, id), w)
  {
    JoinFrame(s, id);
    JoinTables(s, id);
    PushedOccurs(s.queue, s.tasks[id].job.class_, s.tasks[id].job, w);
  }

  lemma GoneDispatch(s: State, w: nat)
    requires Gone(s, w) && NextJob(s.queue).Some?
    ensures NextJob(s.queue).value.work != w
    ensures Gone(Spawn(s.(queue := Popped(s.queue)), NextJob(s.queue).value), w)
  {
    PoppedOccurs(s.queue, w);
  }

  lemma GoneQuantum(cfg: Config, s: State, a: Action, w: nat)
    requires Gone(s, w) && Enabled(cfg, s, a) && ByQuantum(a)
    ensures Gone(Next(cfg, s, a), w)
  {
    hide DrainedFrom;
    var s1 := Next(cfg, s, a);
    assert s1.queue == s.queue && s1.pending == s.pending && s1.channel == s.channel && s1.cancelled == s.cancelled;
    assert forall t | t in s1.tasks :: t in s.tasks && s1.tasks[t].job == s.tasks[t].job;
  }

  /** While the worker serves, no step can bring a gone work back. */
  lemma GoneStep(cfg: Config, s: State, a: Action, w: nat)
    requires Gone(s, w) && Enabled(cfg, s, a) && Admits(cfg, s, a, w) == 0 && s.phase.Serving? && !a.Exit?
    ensures Gone(Next(cfg, s, a), w)
  {
    if BySubmitter(a) {
      SubmitterOccurs(cfg, s, a, w);
      TablesUntouched(cfg, s, a);
    } else if ByQuantum(a) {
      GoneQuantum(cfg, s, a, w);
    } else if a.Receive? {
      GoneHandle(s.(channel := s.channel[1..]), s.channel[0], w);
    } else if a.Dispatch? {
      GoneDispatch(s, w);
    } else {
      GoneJoin(s, a.id, w);
    }
  }

  lemma AheadAppend(channel: seq<Command>, command: Command, k: nat, w: nat)
    requires k < |channel| && channel[k] == Cancel(w)
    requires InChannel(channel[k..], w) == 0 && InCommand(command, w) == 0
    ensures (channel + [command])[k] == Cancel(w)
    ensures InChannel((channel + [command])[k..], w) == 0
  {
    assert (channel + [command])[k..] == channel[k..] + [command];
    ChannelSplit(channel[k..], [command], w);
  }

  lemma AheadSubmitter(cfg: Config, s: State, a: Action, w: nat, k: nat)
    requires CancelAt(s, w, k) && InPending(s.pending, w) == 0
    requires Enabled(cfg, s, a) && BySubmitter(a)
    ensures CancelAt(Next(cfg, s, a), w, k)
  {
    hide DrainedFrom;
    if a.Send? && s.channelOpen {
      PendingAt(s.pending, a.i, w);
      AheadAppend(s.channel, Batch(s.pending[a.i].jobs), k, w);
    } else if a.SendCancel? && s.channelOpen {
      AheadAppend(s.channel, Cancel(a.work), k, w);
    }
  }

  lemma AheadReceive(s: State, s0: State, w: nat, k: nat)
    requires Abortable(s) && Occurrences(s, w) <= 1 && InPending(s.pending, w) == 0
    requires CancelAt(s, w, k) && s0 == s.(channel := s.channel[1..])
    ensures var s1 := Handle(s0, s.channel[0]);
            if k == 0 then Gone(s1, w) else CancelAt(s1, w, k - 1)
  {
    HandleStage(s0, s.channel[0]);
    if k == 0 {
      CancelMakesGone(s0, w);
    } else {
      assert s0.channel[k - 1..] == s.channel[k..];
    }
  }

  lemma ChannelKept(cfg: Config, s: State, a: Action)
    requires Enabled(cfg, s, a) && (ByQuantum(a) || a.Dispatch? || a.Join?)
    ensures Next(cfg, s, a).channel == s.channel && Next(cfg, s, a).pending == s.pending
  {
    if a.Join? {
      JoinFrame(s, a.id);
    }
  }

  lemma PendingStep(cfg: Config, s: State, a: Action, w: nat)
    requires Enabled(cfg, s, a) && Admits(cfg, s, a, w) == 0 && InPending(s.pending, w) == 0
    ensures InPending(Next(cfg, s, a).pending, w) == 0
  {
    match a
    case Reserve(jobs) => PendingSplit(s.pending, [Submission(jobs, false)], w);
    case CheckShutdown(i) =>
      PendingAt(s.pending, i, w);
      if !s.shutdown {
        var pending := s.pending[i := s.pending[i].(checked := true)];
        PendingAt(pending, i, w);
        assert Without(pending, i) == Without(s.pending, i);
      }
    case Send(i) => PendingAt(s.pending, i, w);
    case Receive => HandleStage(s.(channel := s.channel[1..]), s.channel[0]);
    case _ => PendingKept(cfg, s, a);
  }

  lemma PendingKept(cfg: Config, s: State, a: Action)
    requires Enabled(cfg, s, a)
    requires !a.Reserve? && !a.CheckShutdown? && !a.Send? && !a.Receive?
    ensures Next(cfg, s, a).pending == s.pending
  {
    if ByQuantum(a) || a.Dispatch? || a.Join? {
      ChannelKept(cfg, s, a);
    } else {
      DrainPendingKept(cfg, s, a);
    }
  }

  lemma DrainPendingKept(cfg: Config, s: State, a: Action)
    requires Enabled(cfg, s, a)
    requires a.SendCancel? || a.RequestShutdown? || a.Exit? || a.DrainCommand? || a.DrainQueued? || a.DrainJoin?
    ensures Next(cfg, s, a).pending == s.pending
  {
    hide DrainedFrom, Match, WithoutMatch;
    if a.DrainJoin? && s.tasks != map[] {
      JoinFrame(s, a.id);
    }
  }

  lemma PhaseStep(cfg: Config, s: State, a: Action)
    requires Enabled(cfg, s, a) && !s.phase.Serving?
    ensures !Next(cfg, s, a).phase.Serving?
  {
    hide DrainedFrom, WithoutMatch, Popped, Pushed, NextJob, JoinServing, JoinDraining, Handle;
    if a.DrainJoin? && s.tasks != map[] {
      JoinPhase(s, a.id);
    }
  }

  lemma JoinPhase(s: State, id: nat)
    requires id in s.tasks
    ensures JoinDraining(s, id).phase == s.phase
  {
  }

  /** Commands taken from the channel by one step. */
  function Takes(a: Action): nat {
    if a.Receive? then 1 else 0
  }

  /** Commands the worker handles during a run. */
  function Receives(run: seq<Action>): nat {
    if run == [] then 0 else Takes(run[0]) + Receives(run[1..])
  }

  /** No step of the run admits the work id. */
  predicate NotAdmitted(cfg: Config, s: State, run: seq<Action>, w: nat)
    requires IsRun(cfg, s, run)
    decreases |run|
  {
    run != [] ==> Admits(cfg, s, run[0], w) == 0 && NotAdmitted(cfg, Next(cfg, s, run[0]), run[1..], w)
  }

  lemma AheadStep(cfg: Config, s: State, a: Action, w: nat, k: nat)
    requires Abortable(s) && Occurrences(s, w) <= 1 && s.phase.Serving?
    requires CancelAt(s, w, k) && InPending(s.pending, w) == 0
    requires Enabled(cfg, s, a) && !a.Exit?
    ensures var s1 := Next(cfg, s, a);
            if k < Takes(a) then Gone(s1, w) else CancelAt(s1, w, k - Takes(a))
  {
    hide DrainedFrom, Abortable, Gone, Handle, Popped, NextJob, JoinServing, JoinDraining, WithoutMatch, Match;
    if a.Receive? {
      AheadReceive(s, s.(channel := s.channel[1..]), w, k);
    } else {
      hide Next, Enabled, Occurrences;
      if BySubmitter(a) {
        AheadSubmitter(cfg, s, a, w, k);
      } else {
        ServingKeepsChannel(cfg, s, a);
      }
    }
  }

  lemma ServingKeepsChannel(cfg: Config, s: State, a: Action)
    requires Enabled(cfg, s, a) && s.phase.Serving? && !BySubmitter(a) && !a.Receive? && !a.Exit?
    ensures Next(cfg, s, a).channel == s.channel
  {
    hide Next;
    ChannelKept(cfg, s, a);
  }

  lemma CancelSentStep(cfg: Config, s: State, a: Action, w: nat, left: int)
    requires Abortable(s) && Occurrences(s, w) <= 1
    requires CancelSent(s, w, left) && Enabled(cfg, s, a) && Admits(cfg, s, a, w) == 0
    ensures CancelSent(Next(cfg, s, a), w, left - Takes(a))
  {
    hide Enabled, Admits, Occurrences, Abortable, Gone, CancelAt, DrainedFrom;
    PendingStep(cfg, s, a, w);
    if a.Exit? {
    } else if !s.phase.Serving? {
      PhaseStep(cfg, s, a);
    } else if left < 0 {
      GoneStep(cfg, s, a, w);
    } else {
      AheadStep(cfg, s, a, w, left);
    }
  }

  lemma Occurring(s: State, w: nat)
    requires AtMostOnce(s)
    ensures Occurrences(s, w) <= 1
  {
  }

  lemma {:induction false} CancelSentForever(cfg: Config, s: State, run: seq<Action>, w: nat, left: int)
    requires Inv(cfg, s) && AtMostOnce(s) && Abortable(s)
    requires IsRun(cfg, s, run) && FreshRun(cfg, s, run) && NotAdmitted(cfg, s, run, w)
    requires CancelSent(s, w, left)
    ensures CancelSent(Final(cfg, s, run), w, left - Receives(run))
    decreases |run|
  {
    hide Next, Inv, Enabled, AtMostOnce, Abortable, CancelSent, FreshRun, Admits, DrainedFrom;
    Occurring(s, w);
    if run != [] {
      StepKeepsInv(cfg, s, run[0]);
      AbortableStep(cfg, s, run[0]);
      FreshStep(cfg, s, run);
      CancelSentStep(cfg, s, run[0], w, left);
      CancelSentForever(cfg, Next(cfg, s, run[0]), run[1..], w, left - Takes(run[0]));
    }
  }

  /** The work waits nowhere, each of its tasks is marked, and the next dispatch is of another work. */
  ghost predicate NeverRunsAgain(s: State, w: nat) {
    Gone(s, w) && (NextJob(s.queue).Some? ==> NextJob(s.queue).value.work != w)
  }

  lemma GoneNeverRuns(s: State, w: nat)
    requires Gone(s, w)
    ensures NeverRunsAgain(s, w)
  {
    if NextJob(s.queue).Some? {
      GoneDispatch(s, w);
    }
  }

  /**
   Cancellation is final. Take any reachable state with a cancel of `w` at position `k`
   of the channel, the submit of `w` complete and no command behind that cancel carrying
   `w`, and let anyone do anything that does not admit `w` again: submit, be refused,
   cancel `w` any number of times. As soon as the worker has handled more than `k`
   commands, `w` waits nowhere and each of its tasks is marked, in every later state in
   which the worker serves, so a Continue already returned is dropped and the next
   dispatch is of another work.
   */
  lemma CancelIsFinal(cfg: Config, before: seq<Action>, after: seq<Action>, w: nat, k: nat)
    requires IsRun(cfg, Init(), before) && FreshRun(cfg, Init(), before)
    requires var s := Final(cfg, Init(), before);
             && CancelAt(s, w, k) && InPending(s.pending, w) == 0
             && IsRun(cfg, s, after) && FreshRun(cfg, s, after) && NotAdmitted(cfg, s, after, w)
    requires Receives(after) > k
    ensures var s := Final(cfg, Final(cfg, Init(), before), after);
            s.phase.Serving? ==> NeverRunsAgain(s, w)
  {
    hide Next, Enabled, Inv, AtMostOnce, Abortable, DrainedFrom;
    var s := Final(cfg, Init(), before);
    ReachedAbortable(cfg, before);
    CancelSentForever(cfg, s, after, w, k);
    var final := Final(cfg, s, after);
    if final.phase.Serving? {
      GoneNeverRuns(final, w);
    }
  }

  /** From the step that handles a cancel of `w` on: gone in every state in which the worker serves. */
  lemma HandledCancelIsFinal(cfg: Config, before: seq<Action>, after: seq<Action>, w: nat)
    requires IsRun(cfg, Init(), before) && FreshRun(cfg, Init(), before)
    requires var s := Final(cfg, Init(), before);
             && s.phase.Serving? && CancelAt(s, w, 0) && InPending(s.pending, w) == 0
             && IsRun(cfg, Next(cfg, s, Receive), after)
             && FreshRun(cfg, Next(cfg, s, Receive), after)
             && NotAdmitted(cfg, Next(cfg, s, Receive), after, w)
    ensures var s := Final(cfg, Next(cfg, Final(cfg, Init(), before), Receive), after);
            s.phase.Serving? ==> NeverRunsAgain(s, w)
  {
    var run := [Receive] + after;
    assert run[1..] == after;
    FreshAfter(cfg, Final(cfg, Init(), before), Receive, after);
    CancelIsFinal(cfg, before, run, w, 0);
  }

  /** From the accepted cancel call on: gone once the commands buffered before it and it have been handled. */
  lemma SentCancelIsFinal(cfg: Config, before: seq<Action>, after: seq<Action>, w: nat)
    requires IsRun(cfg, Init(), before) && FreshRun(cfg, Init(), before)
    requires var s := Final(cfg, Init(), before);
             && s.channelOpen && InPending(s.pending, w) == 0
             && IsRun(cfg, Next(cfg, s, SendCancel(w)), after)
             && FreshRun(cfg, Next(cfg, s, SendCancel(w)), after)
             && NotAdmitted(cfg, Next(cfg, s, SendCancel(w)), after, w)
             && Receives(after) > |s.channel|
    ensures var s := Final(cfg, Next(cfg, Final(cfg, Init(), before), SendCancel(w)), after);
            s.phase.Serving? ==> NeverRunsAgain(s, w)
  {
    hide Next, Inv, AtMostOnce, Abortable, DrainedFrom;
    var s := Final(cfg, Init(), before);
    var sent := Next(cfg, s, SendCancel(w));
    ReachedAbortable(cfg, before);
    CancelJustSent(cfg, s, w);
    CancelSentForever(cfg, sent, after, w, |s.channel|);
    var final := Final(cfg, sent, after);
    if final.phase.Serving? {
      GoneNeverRuns(final, w);
    }
  }

  lemma CancelJustSent(cfg: Config, s: State, w: nat)
    requires Inv(cfg, s) && AtMostOnce(s) && Abortable(s)
    requires s.channelOpen && InPending(s.pending, w) == 0
    ensures CancelSent(Next(cfg, s, SendCancel(w)), w, |s.channel|)
    ensures var sent := Next(cfg, s, SendCancel(w));
            Inv(cfg, sent) && AtMostOnce(sent) && Abortable(sent)
  {
    hide Inv, AtMostOnce, Abortable, DrainedFrom;
    StepKeepsInv(cfg, s, SendCancel(w));
    AbortableStep(cfg, s, SendCancel(w));
    var sent := Next(cfg, s, SendCancel(w));
    FreshAfter(cfg, s, SendCancel(w), []);
    FreshStep(cfg, s, [SendCancel(w)] + []);
    assert sent.channel[|s.channel|..] == [Cancel(w)];
    assert InChannel([Cancel(w)], w) == InCommand(Cancel(w), w) + InChannel([], w);
  }
}
