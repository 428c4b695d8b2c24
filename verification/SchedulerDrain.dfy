/**
 The shutdown drain ends. Once the worker has left its loop, every drain step and every
 step of a quantum lowers one measure that no participant can raise, and until the
 worker has stopped one of those steps can be taken.
 */
module SchedulerDrain {
  import opened Wrappers
  import opened WorkQueue
  import opened Scheduler
  import opened SchedulerSafety

  ghost function Unreturned(tasks: map<nat, Task>): set<nat> {
    set t | t in tasks && Active(tasks[t].status)
  }

  ghost function Uncommitted(tasks: map<nat, Task>): set<nat> {
    set t | t in tasks && tasks[t].status.Running?
  }

  function StagesLeft(phase: Phase): nat {
    match phase
    case Serving => 4
    case DrainingChannel => 3
    case DrainingQueue => 2
    case DrainingTasks => 1
    case Stopped => 0
  }

  /** Steps a set of tasks can still take: start to commit, return, be joined. */
  ghost function TaskSteps(tasks: map<nat, Task>): nat {
    |tasks| + |Unreturned(tasks)| + |Uncommitted(tasks)|
  }

  /** A bound on the drain and quantum steps left before the worker has stopped. */
  ghost function StepsLeft(s: State): nat {
    StagesLeft(s.phase) + |s.channel| + |All(s.queue)| + TaskSteps(s.tasks)
  }

  predicate DrainsOrReturns(a: Action) {
    a.DrainCommand? || a.DrainQueued? || a.DrainJoin? || ByQuantum(a)
  }

  lemma StartsToCommit(tasks: map<nat, Task>, id: nat)
    requires id in tasks && tasks[id].status.Running?
    ensures TaskSteps(tasks[id := tasks[id].(status := Committing)]) < TaskSteps(tasks)
  {
    var after := tasks[id := tasks[id].(status := Committing)];
    assert after.Keys == tasks.Keys;
    assert Unreturned(after) == Unreturned(tasks);
    assert Uncommitted(after) == Uncommitted(tasks) - {id};
  }

  lemma Returns(tasks: map<nat, Task>, id: nat, status: Status)
    requires id in tasks && Active(tasks[id].status) && !Active(status)
    ensures TaskSteps(tasks[id := tasks[id].(status := status)]) < TaskSteps(tasks)
  {
    var after := tasks[id := tasks[id].(status := status)];
    assert after.Keys == tasks.Keys;
    assert Unreturned(after) == Unreturned(tasks) - {id};
    assert Uncommitted(after) == Uncommitted(tasks) - {id};
    SubsetSize(Uncommitted(after), Uncommitted(tasks));
  }

  lemma Joins(tasks: map<nat, Task>, id: nat)
    requires id in tasks
    ensures TaskSteps(tasks - {id}) < TaskSteps(tasks)
  {
    var after := tasks - {id};
    assert after.Keys == tasks.Keys - {id};
    SubsetSize(Unreturned(after), Unreturned(tasks));
    SubsetSize(Uncommitted(after), Uncommitted(tasks));
  }

  lemma QuantumLowers(cfg: Config, s: State, a: Action)
    requires Enabled(cfg, s, a) && ByQuantum(a)
    ensures StepsLeft(Next(cfg, s, a)) < StepsLeft(s)
  {
    hide TaskSteps, DrainedFrom;
    match a
    case ReleaseEarly(id) =>
      StartsToCommit(s.tasks, id);
      ReleaseStage(WithStatus(s, id, Committing), s.tasks[id].job.lease);
    case Return(id, again) => Returns(s.tasks, id, if again then Continued else Finished);
    case Fail(id) => Returns(s.tasks, id, Failed);
  }

  lemma ReleaseStage(s: State, lease: nat)
    ensures OnlyQueueMoves(s, Release(s, lease)) && Release(s, lease).queue == s.queue
  {
  }

  lemma DrainCommandLowers(cfg: Config, s: State)
    requires Enabled(cfg, s, DrainCommand)
    ensures StepsLeft(Next(cfg, s, DrainCommand)) < StepsLeft(s)
  {
    hide TaskSteps, DrainedFrom;
  }

  lemma DrainQueuedLowers(cfg: Config, s: State)
    requires Enabled(cfg, s, DrainQueued)
    ensures StepsLeft(Next(cfg, s, DrainQueued)) < StepsLeft(s)
  {
    hide TaskSteps, DrainedFrom, WithoutMatch;
    if Match(s.queue, AnyJob()).Some? {
      var before, after := MatchRemoves(s.queue, AnyJob());
      ReleaseStage(s.(queue := WithoutMatch(s.queue, AnyJob())), Match(s.queue, AnyJob()).value.lease);
    }
  }

  lemma JoinKeepsPhase(s: State, id: nat)
    requires id in s.tasks
    ensures JoinDraining(s, id).phase == s.phase
  {
  }

  lemma DrainJoinLowers(cfg: Config, s: State, id: nat)
    requires Enabled(cfg, s, DrainJoin(id))
    ensures StepsLeft(Next(cfg, s, DrainJoin(id))) < StepsLeft(s)
  {
    hide TaskSteps, DrainedFrom, JoinDraining;
    if s.tasks != map[] {
      JoinFrame(s, id);
      JoinKeepsPhase(s, id);
      Joins(s.tasks, id);
    }
  }

  /** Once the loop has been left, every step lowers the measure, except those of submitters, which keep it. */
  lemma StepsLeftFall(cfg: Config, s: State, a: Action)
    requires Staged(s) && !s.phase.Serving? && Enabled(cfg, s, a)
    ensures DrainsOrReturns(a) ==> StepsLeft(Next(cfg, s, a)) < StepsLeft(s)
    ensures !DrainsOrReturns(a) ==> StepsLeft(Next(cfg, s, a)) == StepsLeft(s)
    ensures !Next(cfg, s, a).phase.Serving?
  {
    hide StepsLeft;
    if ByQuantum(a) {
      QuantumLowers(cfg, s, a);
      StaysOut(cfg, s, a);
    } else if a.DrainCommand? {
      DrainCommandLowers(cfg, s);
    } else if a.DrainQueued? {
      DrainQueuedLowers(cfg, s);
      StaysOut(cfg, s, a);
    } else if a.DrainJoin? {
      DrainJoinLowers(cfg, s, a.id);
      StaysOut(cfg, s, a);
    } else {
      SubmittersKeep(cfg, s, a);
    }
  }

  lemma SubmittersKeep(cfg: Config, s: State, a: Action)
    requires Staged(s) && !s.phase.Serving? && Enabled(cfg, s, a) && !DrainsOrReturns(a)
    ensures StepsLeft(Next(cfg, s, a)) == StepsLeft(s) && Next(cfg, s, a).phase == s.phase
  {
    hide TaskSteps, DrainedFrom, Match, WithoutMatch;
  }

  lemma StaysOut(cfg: Config, s: State, a: Action)
    requires !s.phase.Serving? && Enabled(cfg, s, a) && (ByQuantum(a) || a.DrainQueued? || a.DrainJoin?)
    ensures !Next(cfg, s, a).phase.Serving?
  {
    hide DrainedFrom, Match, WithoutMatch, JoinDraining;
    if a.DrainJoin? && s.tasks != map[] {
      JoinKeepsPhase(s, a.id);
    }
  }

  /** How many drain and quantum steps a run takes. */
  function DrainSteps(run: seq<Action>): nat {
    if run == [] then 0 else (if DrainsOrReturns(run[0]) then 1 else 0) + DrainSteps(run[1..])
  }

  lemma {:induction false} DrainStepsBounded(cfg: Config, s: State, run: seq<Action>)
    requires Inv(cfg, s) && IsRun(cfg, s, run) && !s.phase.Serving?
    ensures DrainSteps(run) + StepsLeft(Final(cfg, s, run)) <= StepsLeft(s)
    ensures !Final(cfg, s, run).phase.Serving?
    decreases |run|
  {
    hide Next, Enabled, StepsLeft, Staged, DrainsOrReturns;
    if run != [] {
      StepKeepsInv(cfg, s, run[0]);
      StepsLeftFall(cfg, s, run[0]);
      DrainStepsBounded(cfg, Next(cfg, s, run[0]), run[1..]);
    }
  }

  /** Outside the loop and short of stopped, the drain can go on or a quantum can return. */
  lemma DrainGoesOn(cfg: Config, s: State) returns (a: Action)
    requires !s.phase.Serving? && !s.phase.Stopped?
    ensures DrainsOrReturns(a) && Enabled(cfg, s, a)
  {
    hide DrainedFrom, Match;
    match s.phase
    case DrainingChannel => a := DrainCommand;
    case DrainingQueue => a := DrainQueued;
    case DrainingTasks =>
      if s.tasks == map[] {
        a := DrainJoin(0);
      } else {
        var t :| t in s.tasks;
        a := if Active(s.tasks[t].status) then Fail(t) else DrainJoin(t);
      }
  }

  /**
   The drain ends. From any reachable state in which the worker leaves its loop, whatever
   is submitted or requested meanwhile, no run takes more drain and quantum steps than the
   buffered commands, queued jobs, three for each task and the three stages amount to; and a
   run that has taken as many as that has stopped the worker, since until it has stopped one
   of those steps can be taken.
   */
  lemma DrainEnds(cfg: Config, before: seq<Action>, after: seq<Action>)
    requires IsRun(cfg, Init(), before) && Final(cfg, Init(), before).phase.Serving?
    requires IsRun(cfg, Next(cfg, Final(cfg, Init(), before), Exit), after)
    ensures var s := Final(cfg, Init(), before);
            var end := Final(cfg, Next(cfg, s, Exit), after);
            var most := 3 + |s.channel| + |All(s.queue)| + 3 * |s.tasks|;
            && DrainSteps(after) <= most
            && (DrainSteps(after) == most ==> end.phase.Stopped?)
            && (!end.phase.Stopped? ==> exists a :: DrainsOrReturns(a) && Enabled(cfg, end, a))
  {
    hide Inv, Enabled, StagesLeft, DrainsOrReturns;
    InitInv(cfg);
    RunKeepsInv(cfg, Init(), before);
    var s := Final(cfg, Init(), before);
    ExitState(cfg, s);
    var s1 := Next(cfg, s, Exit);
    StepsLeftAtExit(s1);
    DrainStepsBounded(cfg, s1, after);
    var end := Final(cfg, s1, after);
    NothingLeft(end);
    if !end.phase.Stopped? {
      var a := DrainGoesOn(cfg, end);
    }
  }

  lemma ExitState(cfg: Config, s: State)
    requires Inv(cfg, s) && s.phase.Serving?
    ensures Enabled(cfg, s, Exit)
    ensures var s1 := Next(cfg, s, Exit);
            && Inv(cfg, s1) && s1.phase.DrainingChannel?
            && s1.channel == s.channel && s1.queue == s.queue && s1.tasks == s.tasks
  {
    hide Inv, DrainedFrom;
    StepKeepsInv(cfg, s, Exit);
  }

  lemma StepsLeftAtExit(s: State)
    requires s.phase.DrainingChannel?
    ensures StepsLeft(s) <= 3 + |s.channel| + |All(s.queue)| + 3 * |s.tasks|
  {
    hide DrainedFrom;
    SubsetSize(Unreturned(s.tasks), s.tasks.Keys);
    SubsetSize(Uncommitted(s.tasks), s.tasks.Keys);
  }

  lemma NothingLeft(s: State)
    ensures StepsLeft(s) == 0 ==> s.phase.Stopped?
  {
    hide DrainedFrom, TaskSteps;
  }
}
