/**
 What becomes of a job. A submit that fits is admitted and buffered, one that does not fit
 or meets a shutdown leaves nothing behind; and while the worker serves, an admitted job
 that nobody cancels stays buffered, queued or running until a quantum of it has ended.
 */
module SchedulerJobs {
  import opened Wrappers
  import opened WorkQueue
  import opened Scheduler
  import opened SchedulerSafety
  import opened SchedulerCancel
  import opened SchedulerClasses
  import opened SchedulerTurn
  import opened SchedulerBatches

  // ------------------------------------------------------------------ submitting

  /** What is counted against the capacity: reservations in progress, buffered jobs and held leases. */
  ghost function Counted(s: State): nat {
    Reserved(s.pending) + Buffered(s.channel) + |s.held|
  }

  /** A reservation succeeds exactly when the batch fits beside all that is counted, in every reachable state. */
  lemma ReservedExactlyIfItFits(cfg: Config, before: seq<Action>, jobs: seq<Job>)
    requires IsRun(cfg, Init(), before) && jobs != []
    ensures var s := Final(cfg, Init(), before);
            && Enabled(cfg, s, Reserve(jobs))
            && var s1 := Next(cfg, s, Reserve(jobs));
               if Counted(s) + |jobs| <= cfg.capacity
               then s1 == s.(accepted := s1.accepted, pending := s.pending + [Submission(jobs, false)])
                    && s1.accepted == Counted(s) + |jobs|
               else s1 == s
  {
    hide DrainedFrom;
    InitInv(cfg);
    RunKeepsInv(cfg, Init(), before);
  }

  /** A submit that has reserved and then sees the shutdown flag is undone; otherwise it goes on. */
  lemma ShutdownUndoes(cfg: Config, before: seq<Action>, i: nat)
    requires IsRun(cfg, Init(), before)
    requires var s := Final(cfg, Init(), before);
             i < |s.pending| && !s.pending[i].checked
    ensures var s := Final(cfg, Init(), before);
            && Enabled(cfg, s, CheckShutdown(i))
            && var s1 := Next(cfg, s, CheckShutdown(i));
               if s.shutdown
               then s1 == s.(accepted := s1.accepted, pending := s.pending[..i] + s.pending[i + 1..])
                    && Counted(s1) == Counted(s) - |s.pending[i].jobs| == s1.accepted
               else s1 == s.(pending := s.pending[i := Submission(s.pending[i].jobs, true)])
  {
    hide DrainedFrom;
    InitInv(cfg);
    RunKeepsInv(cfg, Init(), before);
    ReservedAt(Final(cfg, Init(), before).pending, i);
  }

  /** A submit on its own: reserve, look for the shutdown flag, send. */
  function Submit(s: State, jobs: seq<Job>): seq<Action> {
    [Reserve(jobs), CheckShutdown(|s.pending|), Send(|s.pending|)]
  }

  /** In every reachable state short of shutdown, a submit that fits ends up last in the channel. */
  lemma SubmitThatFits(cfg: Config, before: seq<Action>, jobs: seq<Job>)
    requires IsRun(cfg, Init(), before) && jobs != []
    requires var s := Final(cfg, Init(), before);
             !s.shutdown && s.channelOpen && Counted(s) + |jobs| <= cfg.capacity
    ensures var s := Final(cfg, Init(), before);
            && IsRun(cfg, s, Submit(s, jobs))
            && var s1 := Final(cfg, s, Submit(s, jobs));
               && s1 == s.(accepted := s.accepted + |jobs|, channel := s.channel + [Batch(jobs)])
               && forall job | job in jobs :: Coming(s1, job)
  {
    hide DrainedFrom;
    InitInv(cfg);
    RunKeepsInv(cfg, Init(), before);
    var s := Final(cfg, Init(), before);
    SubmitRuns(cfg, s, jobs);
    var s1 := s.(accepted := s.accepted + |jobs|, channel := s.channel + [Batch(jobs)]);
    forall job | job in jobs ensures Coming(s1, job) {
      assert Carries(s1.channel[|s.channel|], job);
    }
  }

  lemma RunsThen(cfg: Config, s: State, a: Action, rest: seq<Action>)
    requires Enabled(cfg, s, a) && IsRun(cfg, Next(cfg, s, a), rest)
    ensures IsRun(cfg, s, [a] + rest)
    ensures Final(cfg, s, [a] + rest) == Final(cfg, Next(cfg, s, a), rest)
  {
    hide Next, Enabled;
    assert ([a] + rest)[1..] == rest;
  }

  lemma SubmitRuns(cfg: Config, s: State, jobs: seq<Job>)
    requires jobs != [] && !s.shutdown && s.channelOpen && s.accepted + |jobs| <= cfg.capacity
    ensures IsRun(cfg, s, Submit(s, jobs))
    ensures Final(cfg, s, Submit(s, jobs)) ==
            s.(accepted := s.accepted + |jobs|, channel := s.channel + [Batch(jobs)])
  {
    hide IsRun, Final, DrainedFrom;
    var i := |s.pending|;
    var s1 := s.(accepted := s.accepted + |jobs|, pending := s.pending + [Submission(jobs, false)]);
    var s2 := s1.(pending := s.pending + [Submission(jobs, true)]);
    var s3 := s.(accepted := s.accepted + |jobs|, channel := s.channel + [Batch(jobs)]);
    assert Next(cfg, s, Reserve(jobs)) == s1;
    assert s1.pending[i := Submission(jobs, true)] == s2.pending;
    assert Next(cfg, s1, CheckShutdown(i)) == s2;
    assert Without(s2.pending, i) == s.pending;
    assert Next(cfg, s2, Send(i)) == s3;
    NoSteps(cfg, s3);
    RunsThen(cfg, s2, Send(i), []);
    RunsThen(cfg, s1, CheckShutdown(i), [Send(i)] + []);
    RunsThen(cfg, s, Reserve(jobs), [CheckShutdown(i)] + ([Send(i)] + []));
    assert Submit(s, jobs) == [Reserve(jobs)] + ([CheckShutdown(i)] + ([Send(i)] + []));
  }

  lemma NoSteps(cfg: Config, s: State)
    ensures IsRun(cfg, s, []) && Final(cfg, s, []) == s
  {
  }

  // ------------------------------------------------------------------ nothing lost

  /** An unmarked task runs a quantum of the job. */
  ghost predicate Underway(s: State, job: Job) {
    exists t :: t in s.tasks && RunsIn(s, job, t)
  }

  predicate RunsIn(s: State, job: Job, t: nat)
    requires t in s.tasks
  {
    t !in s.cancelled && s.tasks[t].job.work == job.work && s.tasks[t].job.class_ == job.class_
  }

  /** The job is buffered, queued under its class or running. */
  ghost predicate Alive(s: State, job: Job) {
    Coming(s, job) || Underway(s, job)
  }

  /** The step joins a quantum of the work that has finished or failed. */
  predicate Ends(s: State, a: Action, w: nat) {
    a.Join? && a.id in s.tasks && s.tasks[a.id].job.work == w && !s.tasks[a.id].status.Continued?
  }

  lemma RunningAside(s: State, s1: State, job: Job)
    requires Underway(s, job) && SameTables(s, s1)
    ensures Underway(s1, job)
  {
    var t :| t in s.tasks && RunsIn(s, job, t);
    assert t in s1.tasks && RunsIn(s1, job, t);
  }

  lemma RunningQuantum(cfg: Config, s: State, a: Action, job: Job)
    requires Underway(s, job) && Enabled(cfg, s, a) && ByQuantum(a)
    ensures Underway(Next(cfg, s, a), job)
  {
    hide DrainedFrom;
    var t :| t in s.tasks && RunsIn(s, job, t);
    var s1 := Next(cfg, s, a);
    assert t in s1.tasks && RunsIn(s1, job, t);
  }

  lemma RunningReceive(s: State, command: Command, job: Job)
    requires Underway(s, job) && TablesAgree(s) && command != Cancel(job.work)
    ensures Underway(Handle(s, command), job)
  {
    hide DrainedFrom, Match, WithoutMatch;
    var t :| t in s.tasks && RunsIn(s, job, t);
    var s1 := Handle(s, command);
    HandleStage(s, command);
    MarksOfOthers(s, command);
    assert t in s1.tasks && RunsIn(s1, job, t);
  }

  /** A cancel marks no task but the one attempting its own work, and a batch marks none. */
  lemma MarksOfOthers(s: State, command: Command)
    requires TablesAgree(s)
    ensures forall t | t in Handle(s, command).cancelled && t !in s.cancelled ::
              t in s.tasks && command == Cancel(s.tasks[t].job.work)
  {
    hide DrainedFrom, Match, WithoutMatch;
    match command
    case Batch(jobs) => EnqueueLeases(s, jobs);
    case Cancel(v) =>
  }

  lemma AliveFold(cfg: Config, s: State, a: Action, job: Job)
    requires Inv(cfg, s) && Enabled(cfg, s, a) && Folds(a)
    requires Alive(s, job) && Cancel(job.work) !in s.channel
    ensures Alive(Next(cfg, s, a), job)
  {
    hide Coming, Underway, DrainedFrom;
    if Coming(s, job) {
      FoldStepKeepsComing(cfg, s, a, job);
    } else if BySubmitter(a) {
      TablesUntouched(cfg, s, a);
      RunningAside(s, Next(cfg, s, a), job);
    } else if ByQuantum(a) {
      RunningQuantum(cfg, s, a, job);
    } else {
      var s0 := s.(channel := s.channel[1..]);
      RunningAside(s, s0, job);
      RunningReceive(s0, s.channel[0], job);
    }
  }

  /** A pop takes the job, or leaves it queued. */
  lemma PopKeepsQueued(q: Queue<Accepted>, job: Job)
    requires Queued(q, job) && NextJob(q).Some?
    ensures Queued(Popped(q), job) || (NextJob(q).value.work == job.work && NextClass(q).value == job.class_)
  {
    hide FirstWaiting, Aged, BurstSpent;
    var b :| b in Jobs(q, job.class_) && b.work == job.work;
    var k :| 0 <= k < |Jobs(q, job.class_)| && Jobs(q, job.class_)[k] == b;
    var n := NextClass(q).value;
    assert Jobs(Popped(q), n) == Jobs(q, n)[1..];
    if n != job.class_ {
      assert b in Jobs(Popped(q), job.class_);
    } else if k > 0 {
      assert Jobs(Popped(q), n)[k - 1] == b;
    }
  }

  lemma AliveDispatch(cfg: Config, s: State, job: Job)
    requires Inv(cfg, s) && OwnClass(s.queue) && Enabled(cfg, s, Dispatch) && Alive(s, job)
    ensures Alive(Next(cfg, s, Dispatch), job)
  {
    hide DrainedFrom, Popped, NextJob, FirstWaiting, Queued, Carries;
    var next := NextJob(s.queue).value;
    var s1 := Next(cfg, s, Dispatch);
    assert s.nextTask !in s.tasks && s.nextTask !in s.cancelled;
    if Underway(s, job) {
      var t :| t in s.tasks && RunsIn(s, job, t);
      assert t in s1.tasks && RunsIn(s1, job, t);
    } else if Queued(s.queue, job) {
      PopKeepsQueued(s.queue, job);
      NextIsOfItsClass(s.queue);
      if !Queued(s1.queue, job) {
        assert s.nextTask in s1.tasks && RunsIn(s1, job, s.nextTask);
      }
    } else {
      var k :| 0 <= k < |s.channel| && Carries(s.channel[k], job);
      assert Carries(s1.channel[k], job);
    }
  }

  lemma NextIsOfItsClass(q: Queue<Accepted>)
    requires OwnClass(q) && NextJob(q).Some?
    ensures NextJob(q).value.class_ == NextClass(q).value
  {
    assert NextJob(q).value in Jobs(q, NextClass(q).value);
  }

  lemma AliveJoin(cfg: Config, s: State, id: nat, job: Job)
    requires Inv(cfg, s) && Enabled(cfg, s, Join(id)) && Alive(s, job) && !Ends(s, Join(id), job.work)
    ensures Alive(JoinServing(s, id), job)
  {
    hide DrainedFrom, Queued, Carries, Pushed;
    var s1 := JoinServing(s, id);
    JoinFrame(s, id);
    JoinTables(s, id);
    PushKeepsQueued(s.queue, s.tasks[id].job.class_, s.tasks[id].job, job);
    if Underway(s, job) {
      var t :| t in s.tasks && RunsIn(s, job, t);
      if t != id {
        assert t in s1.tasks && RunsIn(s1, job, t);
      }
    } else if !Queued(s.queue, job) {
      var k :| 0 <= k < |s.channel| && Carries(s.channel[k], job);
      assert Carries(s1.channel[k], job);
    }
  }

  lemma AliveStep(cfg: Config, s: State, a: Action, job: Job)
    requires Inv(cfg, s) && OwnClass(s.queue) && Enabled(cfg, s, a) && s.phase.Serving? && !a.Exit?
    requires Alive(s, job) && Cancel(job.work) !in s.channel && !Ends(s, a, job.work)
    ensures Alive(Next(cfg, s, a), job)
  {
    hide Alive, Inv, OwnClass, DrainedFrom;
    if Folds(a) {
      AliveFold(cfg, s, a, job);
    } else if a.Dispatch? {
      AliveDispatch(cfg, s, job);
    } else {
      AliveJoin(cfg, s, a.id, job);
    }
  }

  lemma NoNewCancel(cfg: Config, s: State, a: Action, w: nat)
    requires Enabled(cfg, s, a) && s.phase.Serving? && !a.Exit?
    requires Cancel(w) !in s.channel && a != SendCancel(w)
    ensures Cancel(w) !in Next(cfg, s, a).channel
    ensures Next(cfg, s, a).phase.Serving?
  {
    hide Next, Enabled;
    ServesOn(cfg, s, a);
    if BySubmitter(a) {
      SubmitterChannel(cfg, s, a);
    } else if a.Receive? {
      ChannelStep(cfg, s, a);
    } else {
      ServingKeepsChannel(cfg, s, a);
    }
  }

  lemma ServesOn(cfg: Config, s: State, a: Action)
    requires Enabled(cfg, s, a) && s.phase.Serving? && !a.Exit?
    ensures Next(cfg, s, a).phase.Serving?
  {
    hide DrainedFrom, Match, WithoutMatch, Popped, Pushed, NextJob;
    if a.Receive? {
      HandleStage(s.(channel := s.channel[1..]), s.channel[0]);
    }
  }

  /** No step of the run cancels the work, joins an ended quantum of it, or leaves the loop. */
  predicate Undisturbed(cfg: Config, s: State, run: seq<Action>, w: nat)
    requires IsRun(cfg, s, run)
    decreases |run|
  {
    run != [] ==>
      && run[0] != SendCancel(w) && !Ends(s, run[0], w) && !run[0].Exit?
      && Undisturbed(cfg, Next(cfg, s, run[0]), run[1..], w)
  }

  lemma {:induction false} AliveThroughout(cfg: Config, s: State, run: seq<Action>, job: Job)
    requires Inv(cfg, s) && OwnClass(s.queue) && s.phase.Serving?
    requires IsRun(cfg, s, run) && Undisturbed(cfg, s, run, job.work)
    requires Alive(s, job) && Cancel(job.work) !in s.channel
    ensures Alive(Final(cfg, s, run), job)
    decreases |run|
  {
    hide Alive, Inv, OwnClass, Next, Enabled, Ends;
    if run != [] {
      StepKeepsInv(cfg, s, run[0]);
      StepOwn(cfg, s, run[0]);
      AliveStep(cfg, s, run[0], job);
      NoNewCancel(cfg, s, run[0], job.work);
      AliveThroughout(cfg, Next(cfg, s, run[0]), run[1..], job);
    }
  }

  /**
   No admitted job is lost. From any reachable state in which the worker serves and the job
   is buffered, queued or running with no cancel of it buffered, whatever is submitted,
   refused, dispatched, requeued or cancelled of other work, the job stays buffered, queued
   under its class or running until a finished or failed quantum of it is joined.
   */
  lemma NoJobIsLost(cfg: Config, before: seq<Action>, after: seq<Action>, job: Job)
    requires IsRun(cfg, Init(), before)
    requires var s := Final(cfg, Init(), before);
             && s.phase.Serving? && Alive(s, job) && Cancel(job.work) !in s.channel
             && IsRun(cfg, s, after) && Undisturbed(cfg, s, after, job.work)
    ensures Alive(Final(cfg, Final(cfg, Init(), before), after), job)
  {
    hide Alive, Inv, OwnClass, Next, Enabled;
    InitInv(cfg);
    RunKeepsInv(cfg, Init(), before);
    JobsWaitUnderTheirClass(cfg, before);
    AliveThroughout(cfg, Final(cfg, Init(), before), after, job);
  }

  /** Joining a task takes its work out, except that an unmarked Continue puts it back in the queue. */
  lemma JoinAccounts(s: State, id: nat, w: nat)
    requires id in s.tasks
    ensures var again := s.tasks[id].status.Continued? && id !in s.cancelled;
            Occurrences(JoinServing(s, id), w) ==
            Occurrences(s, w) - (if s.tasks[id].job.work == w && !again then 1 else 0)
  {
    hide DrainedFrom, Pushed, InQueue;
    JoinFrame(s, id);
    ReapTasks(s.tasks, id, w);
    PushedOccurs(s.queue, s.tasks[id].job.class_, s.tasks[id].job, w);
    JoinQueue(s, id);
  }

  lemma JoinQueue(s: State, id: nat)
    requires id in s.tasks
    ensures var task := s.tasks[id];
            JoinServing(s, id).queue ==
            if task.status.Continued? && id !in s.cancelled then Pushed(s.queue, task.job.class_, task.job) else s.queue
  {
    hide DrainedFrom, Pushed;
  }

  // ---------------------------------------------------------------- capacity comes back

  /** A running quantum that nobody cancelled gives its slot back when it is about to commit. */
  lemma EarlyReleaseReturnsSlot(cfg: Config, before: seq<Action>, id: nat)
    requires IsRun(cfg, Init(), before)
    requires var s := Final(cfg, Init(), before);
             id in s.tasks && s.tasks[id].status.Running? && id !in s.cancelled
    ensures var s := Final(cfg, Init(), before);
            && Enabled(cfg, s, ReleaseEarly(id))
            && var s1 := Next(cfg, s, ReleaseEarly(id));
               s1.accepted == s.accepted - 1 && s1.held == s.held - {s.tasks[id].job.lease}
               && s1.tasks == s.tasks[id := Task(s.tasks[id].job, Committing)]
  {
    hide DrainedFrom;
    InitInv(cfg);
    RunKeepsInv(cfg, Init(), before);
  }

  /** After a task is joined its lease is held exactly if its job went back to the queue. */
  lemma JoinFreesSlot(cfg: Config, before: seq<Action>, id: nat)
    requires IsRun(cfg, Init(), before) && Enabled(cfg, Final(cfg, Init(), before), Join(id))
    ensures var s := Final(cfg, Init(), before);
            var s1 := Next(cfg, s, Join(id));
            var again := s.tasks[id].status.Continued? && id !in s.cancelled;
            && (s.tasks[id].job.lease in s1.held <==> again)
            && s1.held == s.held - (if again then {} else {s.tasks[id].job.lease})
            && s1.accepted == Counted(s1)
  {
    hide DrainedFrom, Pushed;
    InitInv(cfg);
    RunKeepsInv(cfg, Init(), before);
    var s := Final(cfg, Init(), before);
    JoinFrame(s, id);
    StepKeepsInv(cfg, s, Join(id));
    JoinHolds(s, id);
  }

  lemma JoinHolds(s: State, id: nat)
    requires id in s.tasks && Marked(s) && TablesAgree(s)
    ensures var again := s.tasks[id].status.Continued? && id !in s.cancelled;
            && (s.tasks[id].job.lease in JoinServing(s, id).held <==> again)
            && JoinServing(s, id).held == s.held - (if again then {} else {s.tasks[id].job.lease})
  {
    hide DrainedFrom, Pushed;
  }

  // ------------------------------------------------------- what a quantum comes back to

  /** The worker dispatches exactly while it serves, has a free place and a job waits; the job then runs. */
  lemma DispatchWhenRoom(cfg: Config, s: State)
    ensures Enabled(cfg, s, Dispatch) <==>
              s.phase.Serving? && |s.tasks| < cfg.maxConcurrency && All(s.queue) != []
    ensures Enabled(cfg, s, Dispatch) ==>
              && NextJob(s.queue).value in All(s.queue)
              && var s1 := Next(cfg, s, Dispatch);
                 && s1.tasks == s.tasks[s.nextTask := Task(NextJob(s.queue).value, Running)]
                 && s1.held == s.held && s1.channel == s.channel && s1.pending == s.pending
  {
    hide DrainedFrom, Popped, NextJob;
    PopConserves(s.queue);
  }

  lemma TwoSteps(cfg: Config, s: State, a: Action, b: Action)
    requires Enabled(cfg, s, a) && Enabled(cfg, Next(cfg, s, a), b)
    ensures IsRun(cfg, s, [a, b]) && Final(cfg, s, [a, b]) == Next(cfg, Next(cfg, s, a), b)
  {
    hide Next, Enabled;
    NoSteps(cfg, Next(cfg, Next(cfg, s, a), b));
    RunsThen(cfg, Next(cfg, s, a), b, []);
    RunsThen(cfg, s, a, [b] + []);
    assert [a, b] == [a] + ([b] + []);
  }

  /** A running quantum that returns Continue and is joined has its job put back behind its class, its slot kept. */
  lemma ContinueComesBack(cfg: Config, s: State, id: nat)
    requires s.phase.Serving? && id in s.tasks && s.tasks[id].status.Running? && id !in s.cancelled
    ensures var run := [Return(id, true), Join(id)];
            && IsRun(cfg, s, run)
            && var s1 := Final(cfg, s, run);
               var job := s.tasks[id].job;
               && id !in s1.tasks && s1.held == s.held && s1.accepted == s.accepted
               && Jobs(s1.queue, job.class_) == Jobs(s.queue, job.class_) + [job]
               && forall c: WorkClass | c != job.class_ :: Jobs(s1.queue, c) == Jobs(s.queue, c)
  {
    hide IsRun, Final, DrainedFrom, Pushed;
    TwoSteps(cfg, s, Return(id, true), Join(id));
    PushedJoins(s.queue, s.tasks[id].job);
  }

  lemma PushedJoins(q: Queue<Accepted>, job: Accepted)
    ensures Jobs(Pushed(q, job.class_, job), job.class_) == Jobs(q, job.class_) + [job]
    ensures forall c: WorkClass | c != job.class_ :: Jobs(Pushed(q, job.class_, job), c) == Jobs(q, c)
  {
  }

  /** One that finishes or fails and is joined is gone, its slot is free, and the queue is as it was. */
  lemma EndedIsGone(cfg: Config, before: seq<Action>, id: nat, ending: Action)
    requires ending == Return(id, false) || ending == Fail(id)
    requires IsRun(cfg, Init(), before)
    requires var s := Final(cfg, Init(), before);
             s.phase.Serving? && id in s.tasks && s.tasks[id].status.Running?
    ensures var s := Final(cfg, Init(), before);
            && IsRun(cfg, s, [ending, Join(id)])
            && var s1 := Final(cfg, s, [ending, Join(id)]);
               id !in s1.tasks && s1.queue == s.queue && s1.held == s.held - {s.tasks[id].job.lease}
  {
    hide Final, DrainedFrom, Pushed;
    InitInv(cfg);
    RunKeepsInv(cfg, Init(), before);
    EndedIsJoined(cfg, Final(cfg, Init(), before), id, ending);
  }

  lemma EndedIsJoined(cfg: Config, s: State, id: nat, ending: Action)
    requires ending == Return(id, false) || ending == Fail(id)
    requires TablesAgree(s) && s.phase.Serving? && id in s.tasks && s.tasks[id].status.Running?
    ensures IsRun(cfg, s, [ending, Join(id)])
    ensures var s1 := Final(cfg, s, [ending, Join(id)]);
            id !in s1.tasks && s1.queue == s.queue && s1.held == s.held - {s.tasks[id].job.lease}
  {
    hide IsRun, Final, DrainedFrom, Pushed;
    TwoSteps(cfg, s, ending, Join(id));
  }

  // ------------------------------------------------------------------ shutdown stays

  lemma ShutdownStep(cfg: Config, s: State, a: Action)
    requires Enabled(cfg, s, a) && s.shutdown
    ensures Next(cfg, s, a).shutdown
  {
    hide DrainedFrom, Match, WithoutMatch, Popped, Pushed, NextJob, Handle, JoinServing, JoinDraining, DropMatch;
    match a
    case Receive => HandleStage(s.(channel := s.channel[1..]), s.channel[0]);
    case Join(id) => JoinShutdown(s, id);
    case DrainJoin(id) =>
      if s.tasks != map[] {
        JoinShutdown(s, id);
      }
    case DrainQueued =>
      if Match(s.queue, AnyJob()).Some? {
        DropShutdown(s);
      }
    case _ =>
  }

  lemma JoinShutdown(s: State, id: nat)
    requires id in s.tasks
    ensures JoinServing(s, id).shutdown == s.shutdown && JoinDraining(s, id).shutdown == s.shutdown
  {
    hide DrainedFrom, Pushed;
  }

  lemma DropShutdown(s: State)
    requires Match(s.queue, AnyJob()).Some?
    ensures DropMatch(s, AnyJob()).shutdown == s.shutdown
  {
    hide DrainedFrom, Match, WithoutMatch;
  }

  lemma {:induction false} ShutdownStays(cfg: Config, s: State, run: seq<Action>)
    requires IsRun(cfg, s, run) && s.shutdown
    ensures Final(cfg, s, run).shutdown
    decreases |run|
  {
    hide Next, Enabled;
    if run != [] {
      ShutdownStep(cfg, s, run[0]);
      ShutdownStays(cfg, Next(cfg, s, run[0]), run[1..]);
    }
  }

  /** Once a shutdown has been requested, no submit that has not yet looked for it gets through, in any run. */
  lemma RequestedShutdownRefuses(cfg: Config, before: seq<Action>, after: seq<Action>, i: nat)
    requires IsRun(cfg, Init(), before)
    requires IsRun(cfg, Next(cfg, Final(cfg, Init(), before), RequestShutdown), after)
    requires var s := Final(cfg, Next(cfg, Final(cfg, Init(), before), RequestShutdown), after);
             i < |s.pending| && !s.pending[i].checked
    ensures var s := Final(cfg, Next(cfg, Final(cfg, Init(), before), RequestShutdown), after);
            && Enabled(cfg, s, CheckShutdown(i))
            && Next(cfg, s, CheckShutdown(i)).pending == s.pending[..i] + s.pending[i + 1..]
            && Next(cfg, s, CheckShutdown(i)).channel == s.channel
  {
    hide IsRun, Final, DrainedFrom;
    RequestSets(cfg, Final(cfg, Init(), before));
    ShutdownStays(cfg, Next(cfg, Final(cfg, Init(), before), RequestShutdown), after);
  }

  lemma RequestSets(cfg: Config, s: State)
    ensures Enabled(cfg, s, RequestShutdown) && Next(cfg, s, RequestShutdown) == s.(shutdown := true)
  {
  }
}
