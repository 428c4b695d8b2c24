/**
 The background work scheduler as a step system. Submitters, the worker task, the
 spawned quanta and whoever requests shutdown take atomic steps in any order; each
 atomic counter update, channel operation and map update of the program is one step
 or part of one. Leases and task ids are numbered in creation order.
 */
module Scheduler {
  import opened Wrappers
  import opened WorkQueue

  /** A job as submitted: one cold-start pool, one discovery quantum or one slot patch. */
  datatype Job = Job(work: nat, class_: WorkClass)

  /** A command in the worker's channel; discovery and slot patches are batches of one. */
  datatype Command = Batch(jobs: seq<Job>) | Cancel(work: nat)

  /** A job the worker has taken from the channel, with its admission lease. */
  datatype Accepted = Accepted(work: nat, class_: WorkClass, lease: nat)

  /** Where a spawned quantum stands. Committing: it released its lease before a terminal commit. */
  datatype Status = Running | Committing | Continued | Finished | Failed

  datatype Task = Task(job: Accepted, status: Status)

  /** A submit that reserved capacity; `checked` once it has seen no shutdown. */
  datatype Submission = Submission(jobs: seq<Job>, checked: bool)

  datatype InFlight = InFlight(work: nat, lease: nat)

  datatype Abort = Abort(task: nat, lease: nat)

  datatype Phase = Serving | DrainingChannel | DrainingQueue | DrainingTasks | Stopped

  datatype Config = Config(capacity: nat, maxConcurrency: nat)

  datatype State = State(
    accepted: int,
    shutdown: bool,
    channelOpen: bool,
    pending: seq<Submission>,
    channel: seq<Command>,
    phase: Phase,
    queue: Queue<Accepted>,
    held: set<nat>,
    nextLease: nat,
    tasks: map<nat, Task>,
    nextTask: nat,
    inFlight: map<nat, InFlight>,
    abortByWork: map<nat, Abort>,
    cancelled: set<nat>)

  function Init(): State {
    State(0, false, true, [], [], Serving, EmptyQueue(), {}, 0, map[], 0, map[], map[], {})
  }

  // --------------------------------------------------------------- transitions

  /** AdmissionLease::release: only the first release of a lease returns its slot. */
  function Release(s: State, lease: nat): State {
    if lease in s.held then s.(held := s.held - {lease}, accepted := s.accepted - 1) else s
  }

  function EnqueueOne(s: State, job: Job): State {
    s.(queue := Pushed(s.queue, job.class_, Accepted(job.work, job.class_, s.nextLease)),
       held := s.held + {s.nextLease},
       nextLease := s.nextLease + 1)
  }

  function Enqueue(s: State, jobs: seq<Job>): State
    decreases |jobs|
  {
    if jobs == [] then s else Enqueue(EnqueueOne(s, jobs[0]), jobs[1..])
  }

  function Attempts(work: nat): Accepted -> bool {
    (job: Accepted) => job.work == work
  }

  function AnyJob(): Accepted -> bool {
    (job: Accepted) => true
  }

  /** Take the first matching job out of the queue and release its lease. */
  function DropMatch(s: State, matches: Accepted -> bool): State
    requires Match(s.queue, matches).Some?
  {
    Release(s.(queue := WithoutMatch(s.queue, matches)), Match(s.queue, matches).value.lease)
  }

  function CancelInFlight(s: State, work: nat): State {
    if work !in s.abortByWork then s else
      var abort := s.abortByWork[work];
      Release(s.(abortByWork := s.abortByWork - {work}, cancelled := s.cancelled + {abort.task}), abort.lease)
  }

  function Handle(s: State, command: Command): State {
    match command
    case Batch(jobs) => Enqueue(s, jobs)
    case Cancel(work) =>
      if Match(s.queue, Attempts(work)).Some? then DropMatch(s, Attempts(work)) else CancelInFlight(s, work)
  }

  function Spawn(s: State, job: Accepted): State {
    var id := s.nextTask;
    s.(tasks := s.tasks[id := Task(job, Running)],
       nextTask := id + 1,
       inFlight := s.inFlight[id := InFlight(job.work, job.lease)],
       abortByWork := s.abortByWork[job.work := Abort(id, job.lease)])
  }

  /** Forget a joined task; the caller then requeues, releases or drops its job. */
  function Reap(s: State, id: nat): State {
    var s1 := s.(tasks := s.tasks - {id}, cancelled := s.cancelled - {id});
    if id !in s.inFlight then s1
    else s1.(abortByWork := s.abortByWork - {s.inFlight[id].work}, inFlight := s.inFlight - {id})
  }

  function JoinServing(s: State, id: nat): State
    requires id in s.tasks
  {
    var task := s.tasks[id];
    var s1 := Reap(s, id);
    if task.status.Continued? then
      if id in s.cancelled then s1 else s1.(queue := Pushed(s1.queue, task.job.class_, task.job))
    else if id in s.inFlight then Release(s1, s.inFlight[id].lease)
    else s1
  }

  function JoinDraining(s: State, id: nat): State
    requires id in s.tasks
  {
    var task := s.tasks[id];
    var s1 := Reap(s, id);
    if task.status.Continued? then
      if id in s.cancelled then s1 else Release(s1, task.job.lease)
    else if id in s.inFlight then Release(s1, s.inFlight[id].lease)
    else s1
  }

  function WithStatus(s: State, id: nat, status: Status): State
    requires id in s.tasks
  {
    s.(tasks := s.tasks[id := s.tasks[id].(status := status)])
  }

  function JobCount(command: Command): nat {
    if command.Batch? then |command.jobs| else 0
  }

  function Without<T>(xs: seq<T>, i: nat): seq<T>
    requires i < |xs|
  {
    xs[..i] + xs[i + 1..]
  }

  datatype Action =
    | Reserve(jobs: seq<Job>)       // submit_command: the capacity test-and-add
    | CheckShutdown(i: nat)         // submit_command: the shutdown test, undoing on closed
    | Send(i: nat)                  // submit_command: the channel send, undoing on closed
    | SendCancel(work: nat)         // cancel
    | RequestShutdown
    | Receive                       // worker: handle_worker_command on the next command
    | Dispatch                      // worker: pop and spawn
    | Join(id: nat)                 // worker: join_next_with_id while serving
    | ReleaseEarly(id: nat)         // quantum: release before a terminal commit
    | Return(id: nat, again: bool)  // quantum: Continue or Finished
    | Fail(id: nat)                 // quantum: aborted or panicked
    | Exit                          // worker: leave the loop, close the channel
    | DrainCommand                  // worker: cancel one buffered command
    | DrainQueued                   // worker: cancel one queued job
    | DrainJoin(id: nat)            // worker: join one remaining task

  predicate Enabled(cfg: Config, s: State, a: Action) {
    match a
    case Reserve(jobs) => jobs != []
    case CheckShutdown(i) => i < |s.pending| && !s.pending[i].checked
    case Send(i) => i < |s.pending| && s.pending[i].checked
    case SendCancel(_) => true
    case RequestShutdown => true
    case Receive => s.phase.Serving? && s.channel != []
    case Dispatch => s.phase.Serving? && |s.tasks| < cfg.maxConcurrency && NextJob(s.queue).Some?
    case Join(id) => s.phase.Serving? && id in s.tasks && !Active(s.tasks[id].status)
    case ReleaseEarly(id) => id in s.tasks && s.tasks[id].status.Running?
    case Return(id, again) =>
      id in s.tasks && (s.tasks[id].status.Running? || (s.tasks[id].status.Committing? && !again))
    case Fail(id) => id in s.tasks && Active(s.tasks[id].status)
    case Exit => s.phase.Serving?
    case DrainCommand => s.phase.DrainingChannel?
    case DrainQueued => s.phase.DrainingQueue?
    case DrainJoin(id) =>
      s.phase.DrainingTasks? && (s.tasks == map[] || (id in s.tasks && !Active(s.tasks[id].status)))
  }

  predicate Active(status: Status) {
    status.Running? || status.Committing?
  }

  function Undo(s: State, i: nat): State
    requires i < |s.pending|
  {
    s.(accepted := s.accepted - |s.pending[i].jobs|, pending := Without(s.pending, i))
  }

  function Next(cfg: Config, s: State, a: Action): State
    requires Enabled(cfg, s, a)
  {
    match a
    case Reserve(jobs) =>
      if s.accepted + |jobs| <= cfg.capacity
      then s.(accepted := s.accepted + |jobs|, pending := s.pending + [Submission(jobs, false)])
      else s
    case CheckShutdown(i) =>
      if s.shutdown then Undo(s, i) else s.(pending := s.pending[i := s.pending[i].(checked := true)])
    case Send(i) =>
      if s.channelOpen
      then s.(channel := s.channel + [Batch(s.pending[i].jobs)], pending := Without(s.pending, i))
      else Undo(s, i)
    case SendCancel(work) => if s.channelOpen then s.(channel := s.channel + [Cancel(work)]) else s
    case RequestShutdown => s.(shutdown := true)
    case Receive => Handle(s.(channel := s.channel[1..]), s.channel[0])
    case Dispatch => Spawn(s.(queue := Popped(s.queue)), NextJob(s.queue).value)
    case Join(id) => JoinServing(s, id)
    case ReleaseEarly(id) => Release(WithStatus(s, id, Committing), s.tasks[id].job.lease)
    case Return(id, again) => WithStatus(s, id, if again then Continued else Finished)
    case Fail(id) => WithStatus(s, id, Failed)
    case Exit => s.(phase := DrainingChannel, channelOpen := false, shutdown := true)
    case DrainCommand =>
      if s.channel == [] then s.(phase := DrainingQueue)
      else s.(channel := s.channel[1..], accepted := s.accepted - JobCount(s.channel[0]))
    case DrainQueued =>
      if Match(s.queue, AnyJob()).None? then s.(phase := DrainingTasks) else DropMatch(s, AnyJob())
    case DrainJoin(id) => if s.tasks == map[] then s.(phase := Stopped) else JoinDraining(s, id)
  }

  // ----------------------------------------------------------------- invariant

  function Reserved(pending: seq<Submission>): nat {
    if pending == [] then 0 else |pending[0].jobs| + Reserved(pending[1..])
  }

  function Buffered(channel: seq<Command>): nat {
    if channel == [] then 0 else JobCount(channel[0]) + Buffered(channel[1..])
  }

  /** The counter is exactly the reservations in progress, the buffered jobs and the held leases. */
  predicate Balanced(s: State) {
    s.accepted == Reserved(s.pending) + Buffered(s.channel) + |s.held|
  }

  /** Every queued job holds its own lease; `waiting` lists the queued jobs. */
  ghost predicate QueueLeased(s: State, waiting: seq<Accepted>) {
    && (forall i | 0 <= i < |waiting| :: waiting[i].lease in s.held)
    && (forall i, j | 0 <= i < j < |waiting| :: waiting[i].lease != waiting[j].lease)
  }

  /** No task shares a lease with another task or with a queued job. */
  ghost predicate TasksLeased(s: State, waiting: seq<Accepted>) {
    && (forall t | t in s.tasks :: s.tasks[t].job.lease < s.nextLease && t < s.nextTask)
    && (forall t, u | t in s.tasks && u in s.tasks && t != u :: s.tasks[t].job.lease != s.tasks[u].job.lease)
    && (forall t, i | t in s.tasks && 0 <= i < |waiting| :: s.tasks[t].job.lease != waiting[i].lease)
  }

  ghost predicate QueueOwns(waiting: seq<Accepted>, lease: nat) {
    exists i :: 0 <= i < |waiting| && waiting[i].lease == lease
  }

  ghost predicate TaskOwns(s: State, lease: nat) {
    exists t :: t in s.tasks && s.tasks[t].job.lease == lease
  }

  /** A held lease always has a queued job or a task that will release it. */
  ghost predicate NoLeak(s: State, waiting: seq<Accepted>) {
    forall l | l in s.held :: l < s.nextLease && (QueueOwns(waiting, l) || TaskOwns(s, l))
  }

  /** What a task's status and its cancellation mark say about its lease. */
  predicate Marked(s: State) {
    && (forall t | t in s.tasks && t !in s.cancelled && (s.tasks[t].status.Running? || s.tasks[t].status.Continued?) ::
          s.tasks[t].job.lease in s.held)
    && (forall t | t in s.cancelled :: t in s.tasks && s.tasks[t].job.lease !in s.held)
  }

  /** The worker's tables describe the spawned tasks. */
  predicate TablesAgree(s: State) {
    && s.inFlight.Keys == s.tasks.Keys
    && (forall t | t in s.tasks :: s.inFlight[t] == InFlight(s.tasks[t].job.work, s.tasks[t].job.lease))
    && (forall w | w in s.abortByWork ::
          var t := s.abortByWork[w].task;
          t in s.tasks && t !in s.cancelled && s.tasks[t].job.work == w
              && s.tasks[t].job.lease == s.abortByWork[w].lease)
  }

  /** What each stage of the shutdown has finished with. */
  predicate Staged(s: State) {
    && (!s.phase.Serving? ==> !s.channelOpen && s.shutdown)
    && (s.phase.DrainingQueue? || s.phase.DrainingTasks? || s.phase.Stopped? ==> s.channel == [])
    && (s.phase.DrainingTasks? || s.phase.Stopped? ==> All(s.queue) == [])
    && (s.phase.Stopped? ==> s.tasks == map[])
  }

  /** The part of the invariant about leases, tasks and tables. */
  ghost predicate Leases(s: State, waiting: seq<Accepted>) {
    QueueLeased(s, waiting) && TasksLeased(s, waiting) && NoLeak(s, waiting) && Marked(s) && TablesAgree(s)
  }

  ghost predicate Inv(cfg: Config, s: State) {
    && Balanced(s)
    && s.accepted <= cfg.capacity
    && |s.tasks| <= cfg.maxConcurrency
    && Leases(s, All(s.queue))
    && Staged(s)
  }
}
