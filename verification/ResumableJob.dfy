/**
 The resumable cold-start job. A planner object does not survive between quanta: each
 quantum builds a fresh planner, replays the stored transcript through it, checks every
 plan against the recorded one, and runs one more provider round. This module proves
 that doing so changes nothing: stepping the job is an uninterrupted run of one planner.
 */
module ResumableJob {
  import opened Wrappers
  import opened Words
  import opened ColdStartTypes

  /** How the planner leaves the pool when it finishes. */
  datatype Outcome =
    | Ready
    | ReadyWithDeferred(deferred: seq<nat>)
    | NeedsRepair
    | Unsupported

  datatype Phase = Accounts | Discover | ProbeRoots

  datatype Error =
    | InvalidRoundBudget
    | UnsupportedPool
    | UnsupportedPhase(phase: Phase)
    | RoundBudgetExceeded(maxRounds: nat)
    | StorageFetch
    | PlannerTranscriptDiverged
    | NotReady(outcome: Outcome)

  /** A planner as the functions its methods are: its object state is a value of P. */
  datatype Planner<!P, !R> = Planner(
    create: R -> Option<P>,
    initialPlan: (P, View) -> (P, Plan),
    onResults: (P, Results, View) -> (P, Decision),
    finish: (P, R, RunReport) -> (R, Outcome))

  /** What one storage round returns: a classification per request, and the values. */
  datatype Fetched = Fetched(fetched: seq<SlotOutcome>, probed: seq<SlotOutcome>, patch: seq<(Slot, Word)>)

  /**
   What a job is given and never changes. `fetch` is the provider: its answer to the
   verify and probe requests of the round with that number, or a failure.
   */
  datatype Setup<!P, !R> = Setup(
    planner: Planner<P, R>,
    pool: R,
    base: View,
    fetch: (nat, seq<Slot>, seq<Slot>) -> Option<Fetched>,
    maxRounds: nat)

  datatype Prepared<R> = Prepared(pool: R, storage: map<Slot, Word>, deferred: seq<nat>)

  datatype Round = Round(plan: Plan, results: Results, storage: map<Slot, Word>)

  datatype Step<R> = More(completed: nat, maxRounds: nat) | Finished(prepared: Prepared<R>)

  // ---------------------------------------------------------------- one round

  function SamePreparedPlan(left: Plan, right: Plan): bool {
    && left.verify == right.verify
    && left.probe == right.probe
    && left.probeRoots == right.probeRoots
    && left.accounts == right.accounts
    && |left.discover| == |right.discover|
    && forall i | 0 <= i < |left.discover| ::
         && left.discover[i].from == right.discover[i].from
         && left.discover[i].to == right.discover[i].to
         && left.discover[i].calldata == right.discover[i].calldata
         && left.discover[i].restrictTo == right.discover[i].restrictTo
  }

  /** The field-by-field comparison overlooks nothing a plan carries. */
  lemma SamePreparedPlanIsEquality(left: Plan, right: Plan)
    ensures SamePreparedPlan(left, right) <==> left == right
  {
    if SamePreparedPlan(left, right) {
      assert left.discover == right.discover;
    }
  }

  function RejectedPhase(plan: Plan): Option<Phase> {
    if plan.accounts != [] then Some(Accounts)
    else if plan.discover != [] then Some(Discover)
    else if plan.probeRoots != [] then Some(ProbeRoots)
    else None
  }

  /** Overlay and change list after the first values of a patch, in order. */
  function Patched(base: View, storage: map<Slot, Word>, patch: seq<(Slot, Word)>): (map<Slot, Word>, seq<SlotChange>) {
    if patch == [] then (storage, []) else
      var last := |patch| - 1;
      var (before, changes) := Patched(base, storage, patch[..last]);
      var (slot, value) := patch[last];
      var known := Overlay(base, before)(slot);
      var old_ := if known.Some? then known.value else 0;
      (before[slot := value], if old_ != value then changes + [SlotChange(slot, old_, value)] else changes)
  }

  function ValueAt(view: View, slot: Slot): Word {
    if view(slot).Some? then view(slot).value else 0
  }

  function LastChange(changes: seq<SlotChange>, slot: Slot): Option<Word> {
    if changes == [] then None
    else if changes[|changes| - 1].slot == slot then Some(changes[|changes| - 1].new_)
    else LastChange(changes[..|changes| - 1], slot)
  }

  /** A patch overlays exactly its slots, each with the last value it gives. */
  lemma {:induction false} PatchOverlays(base: View, storage: map<Slot, Word>, patch: seq<(Slot, Word)>, slot: Slot)
    ensures var after := Patched(base, storage, patch).0;
            match LastValue(patch, slot)
            case Some(value) => slot in after && after[slot] == value
            case None => (slot in after <==> slot in storage) && (slot in storage ==> after[slot] == storage[slot])
  {
    if patch != [] {
      PatchOverlays(base, storage, patch[..|patch| - 1], slot);
    }
  }

  lemma LastChangeAppend(changes: seq<SlotChange>, change: SlotChange, slot: Slot)
    ensures LastChange(changes + [change], slot) == if change.slot == slot then Some(change.new_)
            else LastChange(changes, slot)
  {
    assert (changes + [change])[..|changes|] == changes;
  }

  /** The change list explains the round: a slot's value is what its last change says, or what it was. */
  lemma {:induction false} ChangesExplain(base: View, storage: map<Slot, Word>, patch: seq<(Slot, Word)>, slot: Slot)
    ensures var (after, changes) := Patched(base, storage, patch);
            ValueAt(Overlay(base, after), slot) ==
            if LastChange(changes, slot).Some? then LastChange(changes, slot).value
                else ValueAt(Overlay(base, storage), slot)
  {
    if patch != [] {
      var last := |patch| - 1;
      ChangesExplain(base, storage, patch[..last], slot);
      var (before, changes) := Patched(base, storage, patch[..last]);
      var old_ := ValueAt(Overlay(base, before), patch[last].0);
      LastChangeAppend(changes, SlotChange(patch[last].0, old_, patch[last].1), slot);
    }
  }

  function RoundResults(base: View, storage: map<Slot, Word>, answer: Fetched): Results {
    Results(Patched(base, storage, answer.patch).1, answer.fetched, answer.probed, [])
  }

  function Failures(outcomes: seq<SlotOutcome>): nat {
    if outcomes == [] then 0
    else Failures(outcomes[..|outcomes| - 1]) + (if outcomes[|outcomes| - 1].fetch.FetchFailed? then 1 else 0)
  }

  function Absorbed(report: RunReport, plan: Plan, results: Results): RunReport {
    RunReport(
      report.rounds + 1,
      report.verifiedSlots + |plan.verify|,
      report.changedSlots + |results.verified|,
      report.failedSlots + Failures(results.fetched + results.probed))
  }

  // ------------------------------------------------------- the uninterrupted run

  /** Let one planner run on, round after round, from the moment it asks for `plan`. */
  function RunFrom<P, R>(
    job: Setup<P, R>, planner: P, plan: Plan, storage: map<Slot, Word>, report: RunReport, round: nat)
    : Result<Prepared<R>, Error>
    decreases job.maxRounds - round
  {
    if round >= job.maxRounds then Err(RoundBudgetExceeded(job.maxRounds))
    else if RejectedPhase(plan).Some? then Err(UnsupportedPhase(RejectedPhase(plan).value))
    else
      var answer := job.fetch(round, plan.verify, plan.probe);
      if answer.None? then Err(StorageFetch) else
        var results := RoundResults(job.base, storage, answer.value);
        var storage' := Patched(job.base, storage, answer.value.patch).0;
        var report' := Absorbed(report, plan, results);
        var (planner', decision) := job.planner.onResults(planner, results, Overlay(job.base, storage'));
        match decision
        case Continue(next) => RunFrom(job, planner', next, storage', report', round + 1)
        case Done => FinishedRun(job, planner', storage', report')
  }

  function FinishedRun<P, R>(job: Setup<P, R>, planner: P, storage: map<Slot, Word>, report: RunReport)
    : Result<Prepared<R>, Error>
  {
    var (pool, outcome) := job.planner.finish(planner, job.pool, report);
    match outcome
    case Ready => Ok(Prepared(pool, storage, []))
    case ReadyWithDeferred(deferred) => Ok(Prepared(pool, storage, deferred))
    case _ => Err(NotReady(outcome))
  }

  /** One planner, created once and never interrupted. */
  function Uninterrupted<P, R>(job: Setup<P, R>): Result<Prepared<R>, Error> {
    if job.maxRounds == 0 then Err(InvalidRoundBudget) else
      var created := job.planner.create(job.pool);
      if created.None? then Err(UnsupportedPool) else
        var (planner, plan) := job.planner.initialPlan(created.value, Overlay(job.base, map[]));
        RunFrom(job, planner, plan, map[], RunReport(0, 0, 0, 0), 0)
  }

  // ------------------------------------------------------------------ replaying

  /** A fresh planner fed the recorded rounds: its state and next plan, unless it strays or ends. */
  function Replayed<P, R>(job: Setup<P, R>, rounds: seq<Round>): Option<(P, Plan)>
    requires job.planner.create(job.pool).Some?
  {
    if rounds == [] then
      Some(job.planner.initialPlan(job.planner.create(job.pool).value, Overlay(job.base, map[])))
    else
      var last := |rounds| - 1;
      var before := Replayed(job, rounds[..last]);
      if before.None? || !SamePreparedPlan(before.value.1, rounds[last].plan) then None else
        var (planner, decision) :=
          job.planner.onResults(before.value.0, rounds[last].results, Overlay(job.base, rounds[last].storage));
        if decision.Done? then None else Some((planner, decision.plan))
  }

  function LastStorage(rounds: seq<Round>): map<Slot, Word> {
    if rounds == [] then map[] else rounds[|rounds| - 1].storage
  }

  /** Round `k` of the transcript is what the replayed planner asked for and the provider answered. */
  ghost predicate RoundRecorded<P, R>(job: Setup<P, R>, rounds: seq<Round>, k: nat)
    requires job.planner.create(job.pool).Some? && k < |rounds|
  {
    var before := Replayed(job, rounds[..k]);
    && before.Some?
    && before.value.1 == rounds[k].plan
    && RejectedPhase(rounds[k].plan).None?
    && var answer := job.fetch(k, rounds[k].plan.verify, rounds[k].plan.probe);
       && answer.Some?
       && rounds[k].results == RoundResults(job.base, LastStorage(rounds[..k]), answer.value)
       && rounds[k].storage == Patched(job.base, LastStorage(rounds[..k]), answer.value.patch).0
  }

  ghost predicate Recorded<P, R>(job: Setup<P, R>, rounds: seq<Round>) {
    && job.planner.create(job.pool).Some?
    && forall k: nat | k < |rounds| :: RoundRecorded(job, rounds, k)
  }

  function Counters(rounds: seq<Round>): RunReport {
    if rounds == [] then RunReport(0, 0, 0, 0) else
      var last := |rounds| - 1;
      Absorbed(Counters(rounds[..last]), rounds[last].plan, rounds[last].results)
  }

  /** What the uninterrupted run still has to yield after the recorded rounds. */
  ghost function Remaining<P, R>(job: Setup<P, R>, rounds: seq<Round>): Result<Prepared<R>, Error>
    requires job.planner.create(job.pool).Some?
  {
    if |rounds| >= job.maxRounds then Err(RoundBudgetExceeded(job.maxRounds)) else
      var now := Replayed(job, rounds);
      if now.None? then Err(PlannerTranscriptDiverged)
      else RunFrom(job, now.value.0, now.value.1, LastStorage(rounds), Counters(rounds), |rounds|)
  }

  lemma RecordedExtends<P, R>(job: Setup<P, R>, rounds: seq<Round>, round: Round)
    requires Recorded(job, rounds)
    requires RoundRecorded(job, rounds + [round], |rounds|)
    ensures Recorded(job, rounds + [round])
  {
    forall k: nat | k < |rounds| + 1 ensures RoundRecorded(job, rounds + [round], k) {
      if k < |rounds| {
        assert RoundRecorded(job, rounds, k);
        assert (rounds + [round])[..k] == rounds[..k];
      }
    }
  }

  lemma Appended(rounds: seq<Round>, round: Round)
    ensures (rounds + [round])[..|rounds|] == rounds
    ensures LastStorage(rounds + [round]) == round.storage
    ensures Counters(rounds + [round]) == Absorbed(Counters(rounds), round.plan, round.results)
  {
    assert (rounds + [round])[..|rounds|] == rounds;
  }

  /** The round a planner at `plan` runs when the provider gives `answer`. */
  function RoundOf<P, R>(job: Setup<P, R>, rounds: seq<Round>, plan: Plan, answer: Fetched): Round {
    Round(plan, RoundResults(job.base, LastStorage(rounds), answer),
          Patched(job.base, LastStorage(rounds), answer.patch).0)
  }

  /** Recording one more round moves the transcript one step along the uninterrupted run. */
  lemma RoundAdvances<P, R>(job: Setup<P, R>, rounds: seq<Round>, planner: P, plan: Plan, answer: Fetched)
    requires Recorded(job, rounds) && |rounds| < job.maxRounds
    requires Replayed(job, rounds) == Some((planner, plan)) && RejectedPhase(plan).None?
    requires job.fetch(|rounds|, plan.verify, plan.probe) == Some(answer)
    ensures var round := RoundOf(job, rounds, plan, answer);
            var (planner', decision) := job.planner.onResults(planner, round.results, Overlay(job.base, round.storage));
            && Recorded(job, rounds + [round])
            && (decision.Continue? ==>
                  && Replayed(job, rounds + [round]) == Some((planner', decision.plan))
                  && Remaining(job, rounds + [round]) == Remaining(job, rounds))
            && (decision.Done? ==>
                  && Replayed(job, rounds + [round]).None?
                  && Remaining(job, rounds) == FinishedRun(job, planner', round.storage, Counters(rounds + [round])))
  {
    hide Recorded, Replayed, Patched, Remaining, FinishedRun, Counters;
    FirstPlan(job, rounds);
    var round := RoundOf(job, rounds, plan, answer);
    RecordsRound(job, rounds, planner, plan, answer);
    RecordedExtends(job, rounds, round);
    ReplayAdvances(job, rounds, planner, round);
    RemainingAdvances(job, rounds, planner, plan, answer);
  }

  lemma RemainingAdvances<P, R>(job: Setup<P, R>, rounds: seq<Round>, planner: P, plan: Plan, answer: Fetched)
    requires job.planner.create(job.pool).Some? && |rounds| < job.maxRounds
    requires Replayed(job, rounds) == Some((planner, plan)) && RejectedPhase(plan).None?
    requires job.fetch(|rounds|, plan.verify, plan.probe) == Some(answer)
    ensures var round := RoundOf(job, rounds, plan, answer);
            var (planner', decision) := job.planner.onResults(planner, round.results, Overlay(job.base, round.storage));
            Remaining(job, rounds) ==
              if decision.Continue? then Remaining(job, rounds + [round])
              else FinishedRun(job, planner', round.storage, Counters(rounds + [round]))
  {
    hide Replayed, RunFrom, FinishedRun, Patched, Failures, Recorded, Counters, Absorbed, Overlay, RejectedPhase;
    var round := RoundOf(job, rounds, plan, answer);
    Appended(rounds, round);
    ReplayAdvances(job, rounds, planner, round);
    RunFromAdvances(job, planner, plan, LastStorage(rounds), Counters(rounds), |rounds|, answer);
    var (planner', decision) := job.planner.onResults(planner, round.results, Overlay(job.base, round.storage));
    if decision.Continue? && |rounds| + 1 == job.maxRounds {
      RunFromSpent(job, planner', decision.plan, round.storage, Counters(rounds + [round]));
    }
  }

  /** One round of the uninterrupted run. */
  lemma RunFromAdvances<P, R>(job: Setup<P, R>, planner: P, plan: Plan, storage: map<Slot, Word>, report: RunReport,
                              round: nat, answer: Fetched)
    requires round < job.maxRounds && RejectedPhase(plan).None?
    requires job.fetch(round, plan.verify, plan.probe) == Some(answer)
    ensures var results := RoundResults(job.base, storage, answer);
            var storage' := Patched(job.base, storage, answer.patch).0;
            var report' := Absorbed(report, plan, results);
            var (planner', decision) := job.planner.onResults(planner, results, Overlay(job.base, storage'));
            RunFrom(job, planner, plan, storage, report, round) ==
              if decision.Continue? then RunFrom(job, planner', decision.plan, storage', report', round + 1)
              else FinishedRun(job, planner', storage', report')
  {
    hide Patched, Failures, Absorbed, FinishedRun, RejectedPhase, Overlay;
  }

  lemma RunFromSpent<P, R>(job: Setup<P, R>, planner: P, plan: Plan, storage: map<Slot, Word>, report: RunReport)
    ensures RunFrom(job, planner, plan, storage, report, job.maxRounds) == Err(RoundBudgetExceeded(job.maxRounds))
  {
  }

  lemma RecordsRound<P, R>(job: Setup<P, R>, rounds: seq<Round>, planner: P, plan: Plan, answer: Fetched)
    requires job.planner.create(job.pool).Some?
    requires Replayed(job, rounds) == Some((planner, plan)) && RejectedPhase(plan).None?
    requires job.fetch(|rounds|, plan.verify, plan.probe) == Some(answer)
    ensures RoundRecorded(job, rounds + [RoundOf(job, rounds, plan, answer)], |rounds|)
  {
    hide Replayed, Patched;
    var round := RoundOf(job, rounds, plan, answer);
    assert (rounds + [round])[..|rounds|] == rounds;
    assert (rounds + [round])[|rounds|] == round;
  }

  lemma ReplayAdvances<P, R>(job: Setup<P, R>, rounds: seq<Round>, planner: P, round: Round)
    requires job.planner.create(job.pool).Some?
    requires Replayed(job, rounds) == Some((planner, round.plan))
    ensures var (planner', decision) := job.planner.onResults(planner, round.results, Overlay(job.base, round.storage));
            Replayed(job, rounds + [round]) == if decision.Done? then None else Some((planner', decision.plan))
  {
    SamePreparedPlanIsEquality(round.plan, round.plan);
    assert (rounds + [round])[..|rounds|] == rounds;
  }

  lemma FirstPlan<P, R>(job: Setup<P, R>, rounds: seq<Round>)
    requires Recorded(job, rounds)
    ensures job.planner.create(job.pool).Some?
    ensures Replayed(job, []) == Some(job.planner.initialPlan(job.planner.create(job.pool).value,
                                                              Overlay(job.base, map[])))
  {
  }

  lemma RemainingEnds<P, R>(job: Setup<P, R>, rounds: seq<Round>)
    requires job.planner.create(job.pool).Some?
    ensures |rounds| >= job.maxRounds ==> Remaining(job, rounds) == Err(RoundBudgetExceeded(job.maxRounds))
    ensures |rounds| < job.maxRounds && Replayed(job, rounds).None? ==>
              Remaining(job, rounds) == Err(PlannerTranscriptDiverged)
  {
  }

  lemma RemainingStops<P, R>(job: Setup<P, R>, rounds: seq<Round>, planner: P, plan: Plan)
    requires job.planner.create(job.pool).Some? && |rounds| < job.maxRounds
    requires Replayed(job, rounds) == Some((planner, plan))
    ensures RejectedPhase(plan).Some? ==> Remaining(job, rounds) == Err(UnsupportedPhase(RejectedPhase(plan).value))
    ensures RejectedPhase(plan).None? && job.fetch(|rounds|, plan.verify, plan.probe).None? ==>
              Remaining(job, rounds) == Err(StorageFetch)
    ensures Remaining(job, rounds) != Err(PlannerTranscriptDiverged)
  {
    RunFromNeverDiverges(job, planner, plan, LastStorage(rounds), Counters(rounds), |rounds|);
  }

  /** An uninterrupted run never sees its own transcript diverge. */
  lemma {:induction false} RunFromNeverDiverges<P, R>(
    job: Setup<P, R>, planner: P, plan: Plan, storage: map<Slot, Word>, report: RunReport, round: nat)
    ensures RunFrom(job, planner, plan, storage, report, round) != Err(PlannerTranscriptDiverged)
    decreases job.maxRounds - round
  {
    if round < job.maxRounds && RejectedPhase(plan).None? {
      var answer := job.fetch(round, plan.verify, plan.probe);
      if answer.Some? {
        var results := RoundResults(job.base, storage, answer.value);
        var storage' := Patched(job.base, storage, answer.value.patch).0;
        var (planner', decision) := job.planner.onResults(planner, results, Overlay(job.base, storage'));
        if decision.Continue? {
          RunFromNeverDiverges(job, planner', decision.plan, storage', Absorbed(report, plan, results), round + 1);
        }
      }
    }
  }

  class PreparedPoolJob<P, R> {
    const setup: Setup<P, R>
    var rounds: seq<Round>
    var report: RunReport
    var accumulated: map<Slot, Word>
    ghost var fetches: nat   // provider rounds asked for so far
    ghost var ended: bool    // a step has let the planner finish

    /** The job's bookkeeping is a faithful transcript of one planner's run. */
    ghost predicate Valid()
      reads this
    {
      && setup.maxRounds > 0
      && |rounds| <= setup.maxRounds
      && Recorded(setup, rounds)
      && (ended <==> Replayed(setup, rounds).None?)
      && accumulated == LastStorage(rounds)
      && report == Counters(rounds)
    }

    constructor (setup: Setup<P, R>)
      requires setup.maxRounds > 0 && setup.planner.create(setup.pool).Some?
      ensures Valid() && this.setup == setup && rounds == [] && fetches == 0 && !ended
      ensures Remaining(setup, rounds) == Uninterrupted(setup)
    {
      this.setup := setup;
      rounds, report, accumulated := [], RunReport(0, 0, 0, 0), map[];
      fetches, ended := 0, false;
    }

    /** Rebuild the planner and feed it the transcript, checking each plan on the way. */
    method Replay(planner: P, plan: Plan) returns (now: Option<(P, Plan)>)
      requires Valid()
      requires (planner, plan) == Replayed(setup, []).value
      ensures now == Replayed(setup, rounds)
    {
      now := Some((planner, plan));
      var i := 0;
      while i < |rounds|
        invariant 0 <= i <= |rounds|
        invariant now.Some? && now == Replayed(setup, rounds[..i])
      {
        assert RoundRecorded(setup, rounds, i);
        assert rounds[..i + 1][..i] == rounds[..i];
        if !SamePreparedPlan(now.value.1, rounds[i].plan) {
          assert false;  // a deterministic planner asks again for what it asked for before
        }
        assert i + 1 < |rounds| ==> RoundRecorded(setup, rounds, i + 1);
        var (p, decision) :=
          setup.planner.onResults(now.value.0, rounds[i].results, Overlay(setup.base, rounds[i].storage));
        if decision.Done? {
          assert Replayed(setup, rounds[..i + 1]).None?;
          assert rounds[..i + 1] == rounds;
          return None;
        }
        now := Some((p, decision.plan));
        i := i + 1;
      }
      assert rounds[..|rounds|] == rounds;
    }

    /** Apply the round's values to the overlay and to the accumulated writes, noting changes. */
    method Absorb(patch: seq<(Slot, Word)>) returns (storage: map<Slot, Word>, changed: seq<SlotChange>)
      requires Valid()
      modifies this`accumulated
      ensures (storage, changed) == Patched(setup.base, LastStorage(rounds), patch)
      ensures accumulated == storage
    {
      storage, changed := LastStorage(rounds), [];
      var i := 0;
      while i < |patch|
        invariant 0 <= i <= |patch|
        invariant (storage, changed) == Patched(setup.base, LastStorage(rounds), patch[..i])
        invariant accumulated == storage
      {
        assert patch[..i + 1][..i] == patch[..i];
        var (slot, value) := patch[i];
        var known := Overlay(setup.base, storage)(slot);
        var old_ := if known.Some? then known.value else 0;
        if old_ != value {
          changed := changed + [SlotChange(slot, old_, value)];
        }
        storage := storage[slot := value];
        accumulated := accumulated[slot := value];
        i := i + 1;
      }
      assert patch[..|patch|] == patch;
    }

    /** Execute exactly one provider round. */
    method Step() returns (r: Result<Step<R>, Error>)
      requires Valid()
      modifies this
      ensures Valid()
      // the next piece of the uninterrupted run, and nothing else
      ensures r.Ok? && r.value.More? ==>
                && Remaining(setup, rounds) == Remaining(setup, old(rounds))
                && |rounds| == |old(rounds)| + 1
                && r.value == More(|rounds|, setup.maxRounds)
                && ended == old(ended)
      ensures r.Ok? && r.value.Finished? ==> Remaining(setup, old(rounds)) == Ok(r.value.prepared)
      ensures r.Err? ==> Remaining(setup, old(rounds)) == Err(r.error)
      // divergence is reported exactly when an earlier step already ended the run
      ensures r == Err(PlannerTranscriptDiverged) <==> |old(rounds)| < setup.maxRounds && old(ended)
      ensures r.Ok? && r.value.Finished? ==> ended
      // at most one fetch, never past the budget, and only fetched rounds are recorded
      ensures fetches <= old(fetches) + 1
      ensures fetches != old(fetches) ==> |old(rounds)| < setup.maxRounds
      ensures |rounds| - |old(rounds)| <= fetches - old(fetches)
      ensures old(rounds) <= rounds
    {
      FirstPlan(setup, rounds);
      RemainingEnds(setup, rounds);
      hide Recorded, Replayed, RunFrom, Patched, Remaining, Failures;
      if |rounds| >= setup.maxRounds {
        return Err(RoundBudgetExceeded(setup.maxRounds));
      }
      var fresh_ := setup.planner.create(setup.pool).value;
      var (planner, plan) := setup.planner.initialPlan(fresh_, Overlay(setup.base, map[]));
      var now := Replay(planner, plan);
      if now.None? {
        return Err(PlannerTranscriptDiverged);
      }
      planner, plan := now.value.0, now.value.1;
      RemainingStops(setup, rounds, planner, plan);
      var rejected := RejectedPhase(plan);
      if rejected.Some? {
        return Err(UnsupportedPhase(rejected.value));
      }
      fetches := fetches + 1;
      var answer := setup.fetch(|rounds|, plan.verify, plan.probe);
      if answer.None? {
        return Err(StorageFetch);
      }
      r := Complete(planner, plan, answer.value);
    }

    /** Record the answered round and let the planner decide. */
    method Complete(planner: P, plan: Plan, answer: Fetched) returns (r: Result<Step<R>, Error>)
      requires Valid() && |rounds| < setup.maxRounds
      requires setup.planner.create(setup.pool).Some?
      requires Replayed(setup, rounds) == Some((planner, plan)) && RejectedPhase(plan).None?
      requires setup.fetch(|rounds|, plan.verify, plan.probe) == Some(answer)
      modifies this
      ensures Valid() && fetches == old(fetches)
      ensures rounds == old(rounds) + [RoundOf(setup, old(rounds), plan, answer)]
      ensures r.Ok? && r.value.More? ==>
                && Remaining(setup, rounds) == Remaining(setup, old(rounds))
                && r.value == More(|rounds|, setup.maxRounds)
                && !ended
      ensures r.Ok? && r.value.Finished? ==> Remaining(setup, old(rounds)) == Ok(r.value.prepared) && ended
      ensures r.Err? ==> Remaining(setup, old(rounds)) == Err(r.error) && r.error.NotReady?
    {
      RoundAdvances(setup, rounds, planner, plan, answer);
      hide Recorded, Replayed, RunFrom, Patched, Remaining, Failures;
      var storage, changed := Absorb(answer.patch);
      var results := Results(changed, answer.fetched, answer.probed, []);
      report := Absorbed(report, plan, results);
      var round := Round(plan, results, storage);
      Appended(rounds, round);
      rounds := rounds + [round];
      var (planner', decision) := setup.planner.onResults(planner, results, Overlay(setup.base, storage));
      if decision.Continue? {
        return Ok(More(|rounds|, setup.maxRounds));
      }
      ended := true;
      var (pool, outcome) := setup.planner.finish(planner', setup.pool, report);
      match outcome {
        case Ready => r := Ok(Finished(Prepared(pool, accumulated, [])));
        case ReadyWithDeferred(deferred) => r := Ok(Finished(Prepared(pool, accumulated, deferred)));
        case _ => r := Err(NotReady(outcome));
      }
    }
  }

  /** A job is accepted exactly when it has a round budget and the adapter plans for its pool. */
  method NewJob<P, R>(setup: Setup<P, R>) returns (r: Result<PreparedPoolJob<P, R>, Error>)
    ensures r.Ok? <==> setup.maxRounds > 0 && setup.planner.create(setup.pool).Some?
    ensures r.Err? ==> r.error == if setup.maxRounds == 0 then InvalidRoundBudget else UnsupportedPool
    ensures r.Err? ==> Uninterrupted(setup) == Err(r.error)
    ensures r.Ok? ==>
              && fresh(r.value) && r.value.Valid() && r.value.setup == setup
              && r.value.rounds == [] && r.value.fetches == 0 && !r.value.ended
              && Remaining(setup, r.value.rounds) == Uninterrupted(setup)
  {
    if setup.maxRounds == 0 {
      return Err(InvalidRoundBudget);
    }
    if setup.planner.create(setup.pool).None? {
      return Err(UnsupportedPool);
    }
    var job := new PreparedPoolJob(setup);
    r := Ok(job);
  }

  /**
   Drive a job to its end. Interrupting the planner after every round, dropping it and
   replaying it yields exactly what one planner left to run yields, within the budget.
   */
  method PrepareResumablePool<P, R>(setup: Setup<P, R>) returns (r: Result<Prepared<R>, Error>, ghost fetches: nat)
    ensures r == Uninterrupted(setup)
    ensures r != Err(PlannerTranscriptDiverged)
    ensures fetches <= setup.maxRounds
  {
    fetches := 0;
    var accepted := NewJob(setup);
    if accepted.Err? {
      return Err(accepted.error), 0;
    }
    var job := accepted.value;
    while true
      invariant fresh(job) && job.Valid() && job.setup == setup && !job.ended
      invariant Remaining(setup, job.rounds) == Uninterrupted(setup)
      invariant job.fetches == |job.rounds|
      decreases setup.maxRounds - |job.rounds|
    {
      var step := job.Step();
      match step {
        case Err(error) => return Err(error), job.fetches;
        case Ok(Finished(prepared)) => return Ok(prepared), job.fetches;
        case Ok(More(_, _)) =>
      }
    }
  }
}
