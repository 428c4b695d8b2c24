/**
 The worker task's own memory, updated in place: the priority queue, the join set, the
 in-flight and abort tables, the cancellation marks and the admission leases. Each
 method carries out one transition of the step system, whatever the submitters,
 channel and shutdown flag, given as `rest`, happen to be.
 */
module SchedulerWorker {
  import opened Wrappers
  import opened WorkQueue
  import opened Scheduler
  import opened SchedulerSafety
  import opened SchedulerBatches

  class Worker {
    const queued: PriorityQueue<Accepted>
    var acceptedJobs: int
    var held: set<nat>
    var nextLease: nat
    var children: map<nat, Task>
    var nextTask: nat
    var inFlight: map<nat, InFlight>
    var abortByWork: map<nat, Abort>
    var externallyCancelled: set<nat>

    /** The system state made of this worker's memory and the rest of the world. */
    ghost function View(rest: State): State
      reads this, queued
    {
      rest.(accepted := acceptedJobs, queue := queued.State(), held := held, nextLease := nextLease,
            tasks := children, nextTask := nextTask, inFlight := inFlight, abortByWork := abortByWork,
            cancelled := externallyCancelled)
    }

    constructor ()
      ensures View(Init()) == Init()
      ensures fresh(queued)
    {
      queued := new PriorityQueue();
      acceptedJobs, held, nextLease := 0, {}, 0;
      children, nextTask, inFlight, abortByWork, externallyCancelled := map[], 0, map[], map[], {};
    }

    method ReleaseLease(lease: nat, ghost rest: State)
      modifies this
      ensures View(rest) == Release(old(View(rest)), lease)
      ensures queued.State() == old(queued.State())
    {
      if lease in held {
        held := held - {lease};
        acceptedJobs := acceptedJobs - 1;
      }
    }

    /** enqueue_command: every job of a batch gets its own lease and joins its class. */
    method EnqueueCommand(jobs: seq<Job>, ghost rest: State)
      modifies this, queued
      ensures View(rest) == Enqueue(old(View(rest)), jobs)
      // every class keeps its jobs and gains the batch's, in batch order, with leases of their own
      ensures JoinsItsClasses(old(queued.State()), queued.State(), jobs, old(nextLease))
    {
      hide DrainedFrom, Pushed, JoinsItsClasses;
      ghost var start := View(rest);
      var i := 0;
      while i < |jobs|
        invariant 0 <= i <= |jobs|
        invariant Enqueue(View(rest), jobs[i..]) == Enqueue(start, jobs)
      {
        assert jobs[i..][1..] == jobs[i + 1..];
        queued.Push(jobs[i].class_, Accepted(jobs[i].work, jobs[i].class_, nextLease));
        held := held + {nextLease};
        nextLease := nextLease + 1;
        i := i + 1;
      }
      EnqueueJoinsAll(start, jobs);
    }

    /** handle_worker_command. */
    method HandleWorkerCommand(command: Command, ghost rest: State)
      modifies this, queued
      ensures View(rest) == Handle(old(View(rest)), command)
    {
      match command {
        case Batch(jobs) => EnqueueCommand(jobs, rest);
        case Cancel(work) =>
          var removed := queued.RemoveWhere(Attempts(work));
          if removed.Some? {
            ReleaseLease(removed.value.lease, rest);
          } else if work in abortByWork {
            var abort := abortByWork[work];
            abortByWork := abortByWork - {work};
            externallyCancelled := externallyCancelled + {abort.task};
            ReleaseLease(abort.lease, rest);
          }
      }
    }

    /** Pop the next job and spawn its quantum, if one waits. */
    method DispatchOne(ghost rest: State) returns (job: Option<Accepted>)
      modifies this, queued
      ensures job == old(NextJob(queued.State()))
      ensures job.None? ==> View(rest) == old(View(rest))
      ensures job.Some? ==>
                View(rest) == Spawn(old(View(rest)).(queue := Popped(old(queued.State()))), job.value)
    {
      hide DrainedFrom;
      job := queued.Pop();
      if job.Some? {
        var id := nextTask;
        children := children[id := Task(job.value, Running)];
        nextTask := id + 1;
        inFlight := inFlight[id := InFlight(job.value.work, job.value.lease)];
        abortByWork := abortByWork[job.value.work := Abort(id, job.value.lease)];
      }
    }

    /** The dispatch loop: pop and spawn until the join set is full or nothing waits. */
    method DispatchReady(cfg: Config, ghost rest: State) returns (ghost run: seq<Action>)
      requires rest.phase.Serving? && forall t | t in children :: t < nextTask
      modifies this, queued
      ensures old(IsRun(cfg, View(rest), run)) && old(Final(cfg, View(rest), run)) == View(rest)
      ensures forall i | 0 <= i < |run| :: run[i] == Dispatch
      ensures |children| >= cfg.maxConcurrency || NextJob(queued.State()).None?
    {
      hide DrainedFrom, Popped, NextJob;
      ghost var start := View(rest);
      run := [];
      while |children| < cfg.maxConcurrency
        invariant forall i | 0 <= i < |run| :: run[i] == Dispatch
        invariant IsRun(cfg, start, run) && Final(cfg, start, run) == View(rest)
        invariant View(rest).phase.Serving? && forall t | t in children :: t < nextTask
        decreases cfg.maxConcurrency - |children|
      {
        ghost var before := View(rest);
        var job := DispatchOne(rest);
        if job.None? {
          PopNothing(before.queue);
          return;
        }
        SpawnGrows(before.(queue := Popped(before.queue)), job.value);
        RunExtends(cfg, start, run, Dispatch);
        run := run + [Dispatch];
      }
    }

    /** One turn of the loop: fold every buffered command into the queue, then dispatch. */
    method Turn(cfg: Config, commands: seq<Command>, ghost rest: State) returns (ghost run: seq<Action>)
      requires rest.phase.Serving? && rest.channel == commands && forall t | t in children :: t < nextTask
      modifies this, queued
      ensures old(IsRun(cfg, View(rest), run)) && old(Final(cfg, View(rest), run)) == View(rest.(channel := []))
      ensures |commands| <= |run|
      ensures forall i | 0 <= i < |run| :: run[i] == if i < |commands| then Receive else Dispatch
      ensures |children| >= cfg.maxConcurrency || NextJob(queued.State()).None?
    {
      hide DrainedFrom, Handle, NextJob, Popped;
      ghost var start := View(rest);
      run := [];
      for i := 0 to |commands|
        invariant |run| == i && forall j | 0 <= j < i :: run[j] == Receive
        invariant IsRun(cfg, start, run) && Final(cfg, start, run) == View(rest.(channel := commands[i..]))
        invariant forall t | t in children :: t < nextTask
      {
        ghost var before := View(rest.(channel := commands[i..]));
        ghost var taken := rest.(channel := commands[i + 1..]);
        assert commands[i..][1..] == commands[i + 1..];
        HandleStage(View(taken), commands[i]);
        HandleWorkerCommand(commands[i], taken);
        RunExtends(cfg, start, run, Receive);
        run := run + [Receive];
      }
      assert commands[|commands|..] == [];
      ghost var folded := View(rest.(channel := []));
      ghost var more := DispatchReady(cfg, rest.(channel := []));
      RunsConcat(cfg, start, run, more);
      run := run + more;
    }

    /** join_next_with_id while the worker serves. */
    method JoinNext(id: nat, ghost rest: State)
      requires id in children
      modifies this, queued
      ensures View(rest) == JoinServing(old(View(rest)), id)
    {
      hide DrainedFrom, Pushed;
      var task := children[id];
      var entry := if id in inFlight then Some(inFlight[id]) else None;
      children := children - {id};
      if entry.Some? {
        inFlight := inFlight - {id};
        abortByWork := abortByWork - {entry.value.work};
      }
      if task.status.Continued? {
        if id !in externallyCancelled {
          queued.Push(task.job.class_, task.job);
        }
        externallyCancelled := externallyCancelled - {id};
      } else {
        externallyCancelled := externallyCancelled - {id};
        if entry.Some? {
          ReleaseLease(entry.value.lease, rest);
        }
      }
    }
  }

  lemma PopNothing(q: Queue<Accepted>)
    requires NextJob(q).None?
    ensures Popped(q) == q
  {
  }

  lemma {:induction false} RunsConcat(cfg: Config, s: State, run: seq<Action>, more: seq<Action>)
    requires IsRun(cfg, s, run) && IsRun(cfg, Final(cfg, s, run), more)
    ensures IsRun(cfg, s, run + more) && Final(cfg, s, run + more) == Final(cfg, Final(cfg, s, run), more)
    decreases |run|
  {
    hide Next, Enabled;
    if run == [] {
      assert run + more == more;
    } else {
      RunsConcat(cfg, Next(cfg, s, run[0]), run[1..], more);
      assert (run + more)[1..] == run[1..] + more;
    }
  }

  lemma SpawnGrows(s: State, job: Accepted)
    requires forall t | t in s.tasks :: t < s.nextTask
    ensures |Spawn(s, job).tasks| == |s.tasks| + 1
  {
    assert Spawn(s, job).tasks.Keys == s.tasks.Keys + {s.nextTask};
  }

  lemma {:induction false} RunExtends(cfg: Config, s: State, run: seq<Action>, a: Action)
    requires IsRun(cfg, s, run) && Enabled(cfg, Final(cfg, s, run), a)
    ensures IsRun(cfg, s, run + [a]) && Final(cfg, s, run + [a]) == Next(cfg, Final(cfg, s, run), a)
    decreases |run|
  {
    if run == [] {
      assert run + [a] == [a];
      assert Final(cfg, s, [a]) == Final(cfg, Next(cfg, s, a), []);
    } else {
      RunExtends(cfg, Next(cfg, s, run[0]), run[1..], a);
      assert (run + [a])[1..] == run[1..] + [a];
    }
  }
}
