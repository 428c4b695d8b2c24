/**
 The order of a turn of the worker's loop: every command buffered when the turn starts
 is folded into the queue before anything is dispatched, so a continuation that has just
 come back never overtakes a more urgent job that was already buffered.
 */
module SchedulerTurn {
  import opened Wrappers
  import opened WorkQueue
  import opened Scheduler
  import opened SchedulerSafety

  /** The command one step puts into the channel, if any. */
  function SentBy(s: State, a: Action): seq<Command> {
    if !s.channelOpen then []
    else if a.Send? && a.i < |s.pending| then [Batch(s.pending[a.i].jobs)]
    else if a.SendCancel? then [Cancel(a.work)]
    else []
  }

  /** The commands a run puts into the channel, in order. */
  function SentIn(cfg: Config, s: State, run: seq<Action>): seq<Command>
    requires IsRun(cfg, s, run)
    decreases |run|
  {
    if run == [] then [] else SentBy(s, run[0]) + SentIn(cfg, Next(cfg, s, run[0]), run[1..])
  }

  function ReceivedIn(run: seq<Action>): nat {
    if run == [] then 0 else (if run[0].Receive? then 1 else 0) + ReceivedIn(run[1..])
  }

  /** What the worker does while folding: nothing but receive; others go on as they like. */
  predicate Folds(a: Action) {
    BySubmitter(a) || ByQuantum(a) || a.Receive?
  }

  predicate Folding(run: seq<Action>) {
    forall i | 0 <= i < |run| :: Folds(run[i])
  }

  lemma ChannelStep(cfg: Config, s: State, a: Action)
    requires Enabled(cfg, s, a) && (Folds(a) || a.Dispatch?)
    ensures var taken := if a.Receive? then 1 else 0;
            taken <= |s.channel| && Next(cfg, s, a).channel == s.channel[taken..] + SentBy(s, a)
    ensures Next(cfg, s, a).phase == s.phase
  {
    hide DrainedFrom, Handle;
    if a.Receive? {
      HandleStage(s.(channel := s.channel[1..]), s.channel[0]);
    }
  }

  /** The channel is first-in first-out: what was buffered and is sent, less what was received. */
  lemma {:induction false} ChannelIsFifo(cfg: Config, s: State, run: seq<Action>)
    requires IsRun(cfg, s, run) && Folding(run)
    ensures ReceivedIn(run) <= |s.channel + SentIn(cfg, s, run)|
    ensures Final(cfg, s, run).channel == (s.channel + SentIn(cfg, s, run))[ReceivedIn(run)..]
    decreases |run|
  {
    hide Next, Enabled, SentBy;
    if run == [] {
      assert s.channel + [] == s.channel;
    } else {
      assert Folds(run[0]);
      ChannelStep(cfg, s, run[0]);
      ChannelIsFifo(cfg, Next(cfg, s, run[0]), run[1..]);
      var taken := if run[0].Receive? then 1 else 0;
      var sent, later := SentBy(s, run[0]), SentIn(cfg, Next(cfg, s, run[0]), run[1..]);
      assert s.channel[taken..] + sent + later == (s.channel + (sent + later))[taken..];
    }
  }

  /**
   A fold that ends by finding the channel empty has handled every command buffered when
   it began and every command sent meanwhile; whatever is buffered at a later dispatch of
   the turn was sent after the fold.
   */
  lemma FoldedBeforeDispatch(cfg: Config, s: State, fold: seq<Action>, more: seq<Action>)
    requires IsRun(cfg, s, fold) && Folding(fold) && Final(cfg, s, fold).channel == []
    requires IsRun(cfg, Final(cfg, s, fold), more) && OnlyDispatches(more)
    ensures ReceivedIn(fold) == |s.channel| + |SentIn(cfg, s, fold)|
    ensures Final(cfg, Final(cfg, s, fold), more).channel == SentIn(cfg, Final(cfg, s, fold), more)
  {
    ChannelIsFifo(cfg, s, fold);
    SentSince(cfg, Final(cfg, s, fold), more);
  }

  /** What the rest of a turn is made of: dispatches, and steps of the other participants. */
  predicate OnlyDispatches(run: seq<Action>) {
    forall i | 0 <= i < |run| :: run[i].Dispatch? || BySubmitter(run[i]) || ByQuantum(run[i])
  }

  lemma {:induction false} SentSince(cfg: Config, s: State, run: seq<Action>)
    requires IsRun(cfg, s, run) && OnlyDispatches(run)
    ensures Final(cfg, s, run).channel == s.channel + SentIn(cfg, s, run)
    decreases |run|
  {
    hide Next, Enabled, SentBy;
    if run == [] {
      assert s.channel + [] == s.channel;
    } else {
      assert run[0].Dispatch? || BySubmitter(run[0]) || ByQuantum(run[0]);
      ChannelStep(cfg, s, run[0]);
      SentSince(cfg, Next(cfg, s, run[0]), run[1..]);
    }
  }

  // -------------------------------------------------- no overtaking of buffered jobs

  predicate Carries(command: Command, job: Job) {
    command.Batch? && job in command.jobs
  }

  predicate Queued(q: Queue<Accepted>, job: Job) {
    exists a :: a in Jobs(q, job.class_) && a.work == job.work
  }

  /** The job is buffered or queued. */
  ghost predicate Coming(s: State, job: Job) {
    Queued(s.queue, job) || exists k :: 0 <= k < |s.channel| && Carries(s.channel[k], job)
  }

  lemma PushKeepsQueued(q: Queue<Accepted>, c: WorkClass, a: Accepted, job: Job)
    ensures Queued(q, job) ==> Queued(Pushed(q, c, a), job)
    ensures a.work == job.work && c == job.class_ ==> Queued(Pushed(q, c, a), job)
  {
    var after := Pushed(q, c, a);
    if Queued(q, job) {
      var b :| b in Jobs(q, job.class_) && b.work == job.work;
      assert b in Jobs(after, job.class_);
    }
    if a.work == job.work && c == job.class_ {
      assert Jobs(after, c)[|Jobs(q, c)|] == a;
      assert a in Jobs(after, job.class_);
    }
  }

  lemma {:induction false} EnqueueQueues(s: State, jobs: seq<Job>, job: Job)
    requires Queued(s.queue, job) || job in jobs
    ensures Queued(Enqueue(s, jobs).queue, job)
    decreases |jobs|
  {
    hide Queued, Pushed, DrainedFrom;
    if jobs != [] {
      PushKeepsQueued(s.queue, jobs[0].class_, Accepted(jobs[0].work, jobs[0].class_, s.nextLease), job);
      EnqueueQueues(EnqueueOne(s, jobs[0]), jobs[1..], job);
    }
  }

  lemma MatchKeepsOthers(q: Queue<Accepted>, v: nat, job: Job)
    requires Queued(q, job) && v != job.work
    ensures Queued(WithoutMatch(q, Attempts(v)), job)
  {
    var b :| b in Jobs(q, job.class_) && b.work == job.work;
    var found := MatchClass(q, Attempts(v), 0);
    if found == Some(job.class_) {
      var jobs := Jobs(q, job.class_);
      var i := FirstMatch(jobs, Attempts(v)).value;
      assert Attempts(v)(jobs[i]);
      var k :| 0 <= k < |jobs| && jobs[k] == b;
      var left := jobs[..i] + jobs[i + 1..];
      assert left[if k < i then k else k - 1] == b;
      assert Jobs(WithoutMatch(q, Attempts(v)), job.class_) == left;
    } else {
      assert b in Jobs(WithoutMatch(q, Attempts(v)), job.class_);
    }
  }

  lemma HandleKeepsQueued(s: State, command: Command, job: Job)
    requires command != Cancel(job.work) && (Queued(s.queue, job) || Carries(command, job))
    ensures Queued(Handle(s, command).queue, job)
  {
    hide Queued, Match, WithoutMatch, DrainedFrom;
    match command
    case Batch(jobs) => EnqueueQueues(s, jobs, job);
    case Cancel(v) =>
      if Match(s.queue, Attempts(v)).Some? {
        MatchKeepsOthers(s.queue, v, job);
      }
  }

  lemma ReceiveKeepsComing(cfg: Config, s: State, job: Job)
    requires Enabled(cfg, s, Receive) && Coming(s, job) && Cancel(job.work) !in s.channel
    ensures Coming(Next(cfg, s, Receive), job)
  {
    hide Queued, Handle, Carries;
    var s0 := s.(channel := s.channel[1..]);
    HandleStage(s0, s.channel[0]);
    if Queued(s.queue, job) || Carries(s.channel[0], job) {
      HandleKeepsQueued(s0, s.channel[0], job);
    } else {
      var k :| 0 <= k < |s.channel| && Carries(s.channel[k], job);
      assert s0.channel[k - 1] == s.channel[k];
    }
  }

  lemma FoldStepKeepsComing(cfg: Config, s: State, a: Action, job: Job)
    requires Enabled(cfg, s, a) && Folds(a) && Coming(s, job) && Cancel(job.work) !in s.channel
    ensures Coming(Next(cfg, s, a), job)
  {
    if a.Receive? {
      ReceiveKeepsComing(cfg, s, job);
    } else {
      QueueKept(cfg, s, a);
      ChannelStep(cfg, s, a);
      hide Queued, Next, Enabled, Carries;
      if !Queued(s.queue, job) {
        var k :| 0 <= k < |s.channel| && Carries(s.channel[k], job);
        assert Next(cfg, s, a).channel[k] == s.channel[k];
      }
    }
  }

  lemma QueueKept(cfg: Config, s: State, a: Action)
    requires Enabled(cfg, s, a) && (BySubmitter(a) || ByQuantum(a))
    ensures Next(cfg, s, a).queue == s.queue
  {
    hide DrainedFrom;
  }

  /** A job buffered when a fold begins, whose work is not cancelled, is queued when the fold ends. */
  lemma {:induction false} BufferedGetsQueued(cfg: Config, s: State, fold: seq<Action>, job: Job)
    requires IsRun(cfg, s, fold) && Folding(fold)
    requires Coming(s, job) && Cancel(job.work) !in s.channel + SentIn(cfg, s, fold)
    ensures Coming(Final(cfg, s, fold), job)
    decreases |fold|
  {
    hide Next, Enabled, Coming, SentBy;
    if fold != [] {
      var a, s1 := fold[0], Next(cfg, s, fold[0]);
      assert Folds(a);
      FoldStepKeepsComing(cfg, s, a, job);
      ChannelStep(cfg, s, a);
      NotSent(s.channel, if a.Receive? then 1 else 0, SentBy(s, a), SentIn(cfg, s1, fold[1..]), Cancel(job.work));
      BufferedGetsQueued(cfg, s1, fold[1..], job);
    }
  }

  lemma NotSent(channel: seq<Command>, taken: nat, sent: seq<Command>, later: seq<Command>, command: Command)
    requires taken <= |channel| && command !in channel + (sent + later)
    ensures command !in channel && command !in (channel[taken..] + sent) + later
  {
    forall c | c in channel || c in sent || c in later ensures c in channel + (sent + later) {
    }
  }

  /** Between the fold and the first dispatch of a turn the others may act, and nothing else happens. */
  predicate Idle(run: seq<Action>) {
    forall i | 0 <= i < |run| :: BySubmitter(run[i]) || ByQuantum(run[i])
  }

  lemma {:induction false} IdleKeepsQueue(cfg: Config, s: State, run: seq<Action>)
    requires IsRun(cfg, s, run) && Idle(run)
    ensures Final(cfg, s, run).queue == s.queue
    decreases |run|
  {
    hide Next, Enabled;
    if run != [] {
      assert BySubmitter(run[0]) || ByQuantum(run[0]);
      QueueKept(cfg, s, run[0]);
      IdleKeepsQueue(cfg, Next(cfg, s, run[0]), run[1..]);
    }
  }

  /** A pop serves no class below a waiting one, unless the highest class has spent its burst. */
  lemma PopServesMostUrgent(q: Queue<Accepted>, job: Job)
    requires Queued(q, job)
    ensures NextClass(q).Some? && FirstWaiting(q, 0).Some?
    ensures NextClass(q).value <= job.class_ || BurstSpent(q, FirstWaiting(q, 0).value)
  {
    assert Jobs(q, job.class_) != [];
  }

  /**
   No overtaking. Let a turn of the loop begin with any commands buffered, fold until the
   channel is found empty while anyone submits, cancels or returns, and then dispatch.
   The first dispatch serves a class at least as urgent as every job that was buffered or
   queued at the start and whose work nobody cancels, unless the most urgent class has
   spent its burst.
   */
  lemma BufferedIsNotOvertaken(cfg: Config, s: State, fold: seq<Action>, idle: seq<Action>, job: Job)
    requires IsRun(cfg, s, fold) && Folding(fold) && Final(cfg, s, fold).channel == []
    requires IsRun(cfg, Final(cfg, s, fold), idle) && Idle(idle)
    requires Coming(s, job) && Cancel(job.work) !in s.channel + SentIn(cfg, s, fold)
    ensures var q := Final(cfg, Final(cfg, s, fold), idle).queue;
            && Queued(q, job)
            && NextClass(q).Some? && FirstWaiting(q, 0).Some?
            && (NextClass(q).value <= job.class_ || BurstSpent(q, FirstWaiting(q, 0).value))
  {
    hide Next, Enabled, Queued, NextClass, FirstWaiting, BurstSpent;
    var folded := Final(cfg, s, fold);
    BufferedGetsQueued(cfg, s, fold, job);
    IdleKeepsQueue(cfg, folded, idle);
    PopServesMostUrgent(folded.queue, job);
  }
}
