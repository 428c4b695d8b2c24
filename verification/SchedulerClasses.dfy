/** Every job waits under its own class, in every reachable state of the scheduler. */
module SchedulerClasses {
  import opened Wrappers
  import opened WorkQueue
  import opened Scheduler
  import opened SchedulerSafety

  ghost predicate OwnClass(q: Queue<Accepted>) {
    forall c: WorkClass, job | job in Jobs(q, c) :: job.class_ == c
  }

  lemma PushedOwn(q: Queue<Accepted>, job: Accepted)
    requires OwnClass(q)
    ensures OwnClass(Pushed(q, job.class_, job))
  {
    forall c: WorkClass, j | j in Jobs(Pushed(q, job.class_, job), c) ensures j.class_ == c {
      assert j in Jobs(q, c) || (j == job && c == job.class_);
    }
  }

  lemma PoppedOwn(q: Queue<Accepted>)
    requires OwnClass(q)
    ensures OwnClass(Popped(q))
  {
    forall c: WorkClass, j | j in Jobs(Popped(q), c) ensures j.class_ == c {
      hide FirstWaiting, Aged;
      assert j in Jobs(q, c);
    }
  }

  lemma WithoutMatchOwn(q: Queue<Accepted>, matches: Accepted -> bool)
    requires OwnClass(q)
    ensures OwnClass(WithoutMatch(q, matches))
  {
    forall c: WorkClass, j | j in Jobs(WithoutMatch(q, matches), c) ensures j.class_ == c {
      assert j in Jobs(q, c);
    }
  }

  lemma {:induction false} EnqueueOwn(s: State, jobs: seq<Job>)
    requires OwnClass(s.queue)
    ensures OwnClass(Enqueue(s, jobs).queue)
    decreases |jobs|
  {
    hide OwnClass, Pushed;
    if jobs != [] {
      PushedOwn(s.queue, Accepted(jobs[0].work, jobs[0].class_, s.nextLease));
      EnqueueOwn(EnqueueOne(s, jobs[0]), jobs[1..]);
    }
  }

  lemma HandleOwn(s: State, command: Command)
    requires OwnClass(s.queue)
    ensures OwnClass(Handle(s, command).queue)
  {
    hide OwnClass, Match, WithoutMatch, Enqueue;
    match command
    case Batch(jobs) => EnqueueOwn(s, jobs);
    case Cancel(work) => WithoutMatchOwn(s.queue, Attempts(work));
  }

  lemma JoinOwn(s: State, id: nat)
    requires OwnClass(s.queue) && id in s.tasks
    ensures OwnClass(JoinServing(s, id).queue) && OwnClass(JoinDraining(s, id).queue)
  {
    hide OwnClass, Pushed;
    PushedOwn(s.queue, s.tasks[id].job);
  }

  lemma StepOwn(cfg: Config, s: State, a: Action)
    requires OwnClass(s.queue) && Enabled(cfg, s, a)
    ensures OwnClass(Next(cfg, s, a).queue)
  {
    hide OwnClass, Handle, Popped, NextJob, JoinServing, JoinDraining, WithoutMatch, Match, Undo;
    match a
    case Receive => HandleOwn(s.(channel := s.channel[1..]), s.channel[0]);
    case Dispatch => PoppedOwn(s.queue);
    case Join(id) => JoinOwn(s, id);
    case DrainQueued => WithoutMatchOwn(s.queue, AnyJob());
    case DrainJoin(id) => if id in s.tasks { JoinOwn(s, id); }
    case CheckShutdown(i) => UndoQueue(s, i);
    case Send(i) => UndoQueue(s, i);
    case _ =>
  }

  lemma UndoQueue(s: State, i: nat)
    requires i < |s.pending|
    ensures Undo(s, i).queue == s.queue
  {
  }

  lemma {:induction false} RunOwn(cfg: Config, s: State, run: seq<Action>)
    requires OwnClass(s.queue) && IsRun(cfg, s, run)
    ensures OwnClass(Final(cfg, s, run).queue)
    decreases |run|
  {
    hide OwnClass;
    if run != [] {
      StepOwn(cfg, s, run[0]);
      RunOwn(cfg, Next(cfg, s, run[0]), run[1..]);
    }
  }

  /** From start-up on, new, requeued and continued jobs alike wait under the class they were submitted with. */
  lemma JobsWaitUnderTheirClass(cfg: Config, run: seq<Action>)
    requires IsRun(cfg, Init(), run)
    ensures OwnClass(Final(cfg, Init(), run).queue)
  {
    assert OwnClass(Init().queue);
    RunOwn(cfg, Init(), run);
  }
}
