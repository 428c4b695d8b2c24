/**
 What a resumable cold start does, told as a history: which plan each round had, what the
 provider was asked and answered, what the planner was handed, which values the overlay
 holds afterwards, and how the history ends. Every field is stated on its own terms, and
 the result of the job is shown to be the result of exactly such a history.
 */
module ResumableHistory {
  import opened Wrappers
  import opened Words
  import opened Picks
  import opened ColdStartTypes
  import opened ResumableJob

  // ------------------------------------------------------------------- one patch

  /** The value of a slot just before entry `i` of a patch is applied: zero if nothing is known. */
  function PriorValue(base: View, before: map<Slot, Word>, patch: seq<(Slot, Word)>, i: nat): Word
    requires i < |patch|
  {
    var slot := patch[i].0;
    if LastValue(patch[..i], slot).Some? then LastValue(patch[..i], slot).value
    else if slot in before then before[slot]
    else if base(slot).Some? then base(slot).value
    else 0
  }

  /** Entry `i` gives its slot a value it did not have. */
  function ChangesValue(base: View, before: map<Slot, Word>, patch: seq<(Slot, Word)>): nat -> bool {
    (i: nat) => i < |patch| && PriorValue(base, before, patch, i) != patch[i].1
  }

  /** The list names the value-changing entries of the patch, at the positions `at`, in order. */
  ghost predicate ListsChanges(base: View, before: map<Slot, Word>, patch: seq<(Slot, Word)>,
                               verified: seq<SlotChange>, at: seq<nat>) {
    && Picked(at, |patch|, ChangesValue(base, before, patch))
    && |verified| == |at|
    && forall k | 0 <= k < |at| ::
         at[k] < |patch|
         && verified[k] == SlotChange(patch[at[k]].0, PriorValue(base, before, patch, at[k]), patch[at[k]].1)
  }

  /** Every slot of the patch has its last value there, and no other slot moves. */
  ghost predicate Overlays(before: map<Slot, Word>, patch: seq<(Slot, Word)>, after: map<Slot, Word>) {
    forall slot ::
      match LastValue(patch, slot)
      case Some(value) => slot in after && after[slot] == value
      case None => (slot in after <==> slot in before) && (slot in before ==> after[slot] == before[slot])
  }

  lemma PriorAgrees(base: View, before: map<Slot, Word>, front: seq<(Slot, Word)>, last: (Slot, Word), i: nat)
    requires i < |front|
    ensures PriorValue(base, before, front + [last], i) == PriorValue(base, before, front, i)
  {
    assert (front + [last])[..i] == front[..i];
  }

  lemma PriorOfLast(base: View, before: map<Slot, Word>, front: seq<(Slot, Word)>, last: (Slot, Word))
    ensures PriorValue(base, before, front + [last], |front|) ==
            ValueAt(Overlay(base, Patched(base, before, front).0), last.0)
  {
    assert (front + [last])[..|front|] == front;
    PatchOverlays(base, before, front, last.0);
  }

  /** The change list a round builds names exactly the entries that change a value, with the value replaced. */
  lemma {:induction false} PatchedListsChanges(base: View, before: map<Slot, Word>, patch: seq<(Slot, Word)>)
    returns (at: seq<nat>)
    ensures ListsChanges(base, before, patch, Patched(base, before, patch).1, at)
    decreases |patch|
  {
    if patch == [] {
      at := [];
    } else {
      var front, last := patch[..|patch| - 1], patch[|patch| - 1];
      assert patch == front + [last];
      at := PatchedListsChanges(base, before, front);
      PriorOfLast(base, before, front, last);
      at := ListOneMore(base, before, front, last, Patched(base, before, front).1, at);
      hide ListsChanges;
    }
  }

  lemma ListOneMore(base: View, before: map<Slot, Word>, front: seq<(Slot, Word)>, last: (Slot, Word),
                    verified: seq<SlotChange>, at: seq<nat>) returns (at': seq<nat>)
    requires ListsChanges(base, before, front, verified, at)
    ensures var patch := front + [last];
            var old_ := PriorValue(base, before, patch, |front|);
            ListsChanges(base, before, patch,
                         if old_ != last.1 then verified + [SlotChange(last.0, old_, last.1)] else verified, at')
  {
    hide Picked, PriorValue;
    var patch := front + [last];
    forall i | 0 <= i < |front|
      ensures PriorValue(base, before, patch, i) == PriorValue(base, before, front, i)
    {
      PriorAgrees(base, before, front, last, i);
    }
    PickedAgree(at, |front|, ChangesValue(base, before, front), ChangesValue(base, before, patch));
    PickOneMore(at, |front|, ChangesValue(base, before, patch));
    at' := if ChangesValue(base, before, patch)(|front|) then at + [|front|] else at;
  }

  lemma PatchedOverlays(base: View, before: map<Slot, Word>, patch: seq<(Slot, Word)>)
    ensures Overlays(before, patch, Patched(base, before, patch).0)
  {
    forall slot {
      PatchOverlays(base, before, patch, slot);
    }
  }

  ghost function FailedIn(outcomes: seq<SlotOutcome>): set<nat> {
    set i: nat | i < |outcomes| && outcomes[i].fetch.FetchFailed?
  }

  lemma {:induction false} FailuresCounts(outcomes: seq<SlotOutcome>)
    ensures Failures(outcomes) == |FailedIn(outcomes)|
  {
    if outcomes == [] {
      assert FailedIn(outcomes) == {};
    } else {
      var last := |outcomes| - 1;
      FailuresCounts(outcomes[..last]);
      assert FailedIn(outcomes) ==
             FailedIn(outcomes[..last]) + (if outcomes[last].fetch.FetchFailed? then {last} else {});
    }
  }

  lemma {:induction false} FailuresAdd(a: seq<SlotOutcome>, b: seq<SlotOutcome>)
    ensures Failures(a + b) == Failures(a) + Failures(b)
  {
    if b == [] {
      assert a + b == a;
    } else {
      FailuresAdd(a, b[..|b| - 1]);
      assert (a + b)[..|a + b| - 1] == a + b[..|b| - 1];
    }
  }

  // ------------------------------------------------------------------- one round

  /** One round of a history, with what it left behind. */
  datatype Turn<!P> = Turn(
    planner: P, plan: Plan, answer: Fetched, results: Results, storage: map<Slot, Word>, report: RunReport,
    next: P, decision: Decision, at: seq<nat>)

  /** What the planner is handed: the provider's classifications as they are, and the changes; nothing discovered. */
  ghost predicate Handed(base: View, before: map<Slot, Word>, answer: Fetched, results: Results, at: seq<nat>) {
    && results.fetched == answer.fetched
    && results.probed == answer.probed
    && results.discovered == []
    && ListsChanges(base, before, answer.patch, results.verified, at)
  }

  ghost predicate Counted(before: RunReport, plan: Plan, results: Results, after: RunReport) {
    && after.rounds == before.rounds + 1
    && after.verifiedSlots == before.verifiedSlots + |plan.verify|
    && after.changedSlots == before.changedSlots + |results.verified|
    && after.failedSlots == before.failedSlots + |FailedIn(results.fetched)| + |FailedIn(results.probed)|
  }

  /** Round `k`, from the overlay and counters before it. */
  ghost predicate TurnRight<P, R>(job: Setup<P, R>, k: nat, before: map<Slot, Word>, report: RunReport, turn: Turn<P>) {
    && turn.plan.accounts == [] && turn.plan.discover == [] && turn.plan.probeRoots == []
    && job.fetch(k, turn.plan.verify, turn.plan.probe) == Some(turn.answer)
    && Handed(job.base, before, turn.answer, turn.results, turn.at)
    && Overlays(before, turn.answer.patch, turn.storage)
    && Counted(report, turn.plan, turn.results, turn.report)
    && job.planner.onResults(turn.planner, turn.results, Overlay(job.base, turn.storage)) == (turn.next, turn.decision)
  }

  function StorageBefore<P>(turns: seq<Turn<P>>, k: nat): map<Slot, Word>
    requires k <= |turns|
  {
    if k == 0 then map[] else turns[k - 1].storage
  }

  function ReportBefore<P>(turns: seq<Turn<P>>, k: nat): RunReport
    requires k <= |turns|
  {
    if k == 0 then RunReport(0, 0, 0, 0) else turns[k - 1].report
  }

  /** The planner and its plan at the start of round `k`: fresh, or as the round before left it. */
  ghost predicate StandsAt<P, R>(job: Setup<P, R>, turns: seq<Turn<P>>, k: nat, planner: P, plan: Plan)
    requires job.planner.create(job.pool).Some? && k <= |turns|
  {
    if k == 0 then job.planner.initialPlan(job.planner.create(job.pool).value, Overlay(job.base, map[]))
        == (planner, plan)
    else turns[k - 1].next == planner && turns[k - 1].decision == Continue(plan)
  }

  ghost predicate History<P, R>(job: Setup<P, R>, turns: seq<Turn<P>>)
    requires job.planner.create(job.pool).Some?
  {
    && |turns| <= job.maxRounds
    && forall k: nat | k < |turns| ::
         && TurnRight(job, k, StorageBefore(turns, k), ReportBefore(turns, k), turns[k])
         && StandsAt(job, turns, k, turns[k].planner, turns[k].plan)
  }

  /** The planner was done and left the pool this way. */
  ghost predicate EndsDone<P, R>(job: Setup<P, R>, last: Turn<P>, r: Result<Prepared<R>, Error>) {
    var (pool, outcome) := job.planner.finish(last.next, job.pool, last.report);
    && last.decision.Done?
    && (outcome.Ready? ==> r == Ok(Prepared(pool, last.storage, [])))
    && (outcome.ReadyWithDeferred? ==> r == Ok(Prepared(pool, last.storage, outcome.deferred)))
    && (outcome.NeedsRepair? || outcome.Unsupported? ==> r == Err(NotReady(outcome)))
  }

  /** The planner still had a plan: the budget was spent, the plan asked for too much, or the fetch failed. */
  ghost predicate EndsShort<P, R>(job: Setup<P, R>, turns: seq<Turn<P>>, plan: Plan, r: Result<Prepared<R>, Error>) {
    r.Err? &&
    match r.error
    case RoundBudgetExceeded(n) => |turns| == job.maxRounds == n
    case UnsupportedPhase(Accounts) => |turns| < job.maxRounds && plan.accounts != []
    case UnsupportedPhase(Discover) => |turns| < job.maxRounds && plan.accounts == [] && plan.discover != []
    case UnsupportedPhase(ProbeRoots) =>
      |turns| < job.maxRounds && plan.accounts == [] && plan.discover == [] && plan.probeRoots != []
    case StorageFetch =>
      && |turns| < job.maxRounds && plan.accounts == [] && plan.discover == [] && plan.probeRoots == []
      && job.fetch(|turns|, plan.verify, plan.probe).None?
    case _ => false
  }

  ghost predicate Ends<P, R>(job: Setup<P, R>, turns: seq<Turn<P>>, planner: P, plan: Plan,
                             r: Result<Prepared<R>, Error>)
    requires job.planner.create(job.pool).Some?
  {
    || (turns != [] && EndsDone(job, turns[|turns| - 1], r))
    || (StandsAt(job, turns, |turns|, planner, plan) && EndsShort(job, turns, plan, r))
  }

  // ---------------------------------------------------------------- the whole run

  /** The round a planner runs from here. */
  lemma NextTurn<P, R>(job: Setup<P, R>, k: nat, planner: P, plan: Plan, before: map<Slot, Word>, report: RunReport,
                       answer: Fetched) returns (turn: Turn<P>)
    requires RejectedPhase(plan).None? && job.fetch(k, plan.verify, plan.probe) == Some(answer)
    ensures turn.planner == planner && turn.plan == plan && turn.answer == answer
    ensures turn.results == RoundResults(job.base, before, answer)
    ensures turn.storage == Patched(job.base, before, answer.patch).0
    ensures turn.report == Absorbed(report, plan, turn.results)
    ensures job.planner.onResults(planner, turn.results, Overlay(job.base, turn.storage)) == (turn.next, turn.decision)
    ensures TurnRight(job, k, before, report, turn)
  {
    var results := RoundResults(job.base, before, answer);
    var storage := Patched(job.base, before, answer.patch).0;
    var (next, decision) := job.planner.onResults(planner, results, Overlay(job.base, storage));
    var at := PatchedListsChanges(job.base, before, answer.patch);
    PatchedOverlays(job.base, before, answer.patch);
    FailuresAdd(results.fetched, results.probed);
    FailuresCounts(results.fetched);
    FailuresCounts(results.probed);
    hide Patched, Overlays, ListsChanges, Overlay, Failures;
    turn := Turn(planner, plan, answer, results, storage, Absorbed(report, plan, results), next, decision, at);
  }

  lemma HistoryGrows<P, R>(job: Setup<P, R>, turns: seq<Turn<P>>, turn: Turn<P>)
    requires job.planner.create(job.pool).Some? && History(job, turns) && |turns| < job.maxRounds
    requires StandsAt(job, turns, |turns|, turn.planner, turn.plan)
    requires TurnRight(job, |turns|, StorageBefore(turns, |turns|), ReportBefore(turns, |turns|), turn)
    ensures History(job, turns + [turn])
  {
    hide TurnRight;
    var more := turns + [turn];
    forall k: nat | k < |more|
      ensures TurnRight(job, k, StorageBefore(more, k), ReportBefore(more, k), more[k])
      ensures StandsAt(job, more, k, more[k].planner, more[k].plan)
    {
      if k < |turns| {
        assert TurnRight(job, k, StorageBefore(turns, k), ReportBefore(turns, k), turns[k]);
        assert StandsAt(job, turns, k, turns[k].planner, turns[k].plan);
      }
    }
  }

  lemma {:induction false} RunHasHistory<P, R>(job: Setup<P, R>, done: seq<Turn<P>>, planner: P, plan: Plan)
    returns (turns: seq<Turn<P>>, planner': P, plan': Plan)
    requires job.planner.create(job.pool).Some? && History(job, done) && StandsAt(job, done, |done|, planner, plan)
    ensures History(job, turns)
    ensures Ends(job, turns, planner', plan',
                 RunFrom(job, planner, plan, StorageBefore(done, |done|), ReportBefore(done, |done|), |done|))
    decreases job.maxRounds - |done|
  {
    hide History, TurnRight, Patched, Failures, Overlay;
    HistoryBudget(job, done);
    turns, planner', plan' := done, planner, plan;
    if |done| < job.maxRounds && RejectedPhase(plan).None? && job.fetch(|done|, plan.verify, plan.probe).Some? {
      var answer := job.fetch(|done|, plan.verify, plan.probe).value;
      var turn := NextTurn(job, |done|, planner, plan, StorageBefore(done, |done|), ReportBefore(done, |done|), answer);
      HistoryGrows(job, done, turn);
      if turn.decision.Continue? {
        turns, planner', plan' := RunHasHistory(job, done + [turn], turn.next, turn.decision.plan);
      } else {
        turns := done + [turn];
      }
    }
  }

  lemma HistoryBudget<P, R>(job: Setup<P, R>, turns: seq<Turn<P>>)
    requires job.planner.create(job.pool).Some? && History(job, turns)
    ensures |turns| <= job.maxRounds
  {
  }

  /**
   The result of a resumable job is that of a history, whatever the planner and the
   provider: in each round the provider is asked for the plan's verify and probe slots, the
   planner is handed the provider's own classifications and exactly the changed values,
   and it sees the overlay; the history ends when the planner is done, the budget is spent,
   a plan needs a phase a worker has not, or the fetch fails, with the result that fits.
   */
  lemma ResultHasHistory<P, R>(job: Setup<P, R>) returns (turns: seq<Turn<P>>, planner: P, plan: Plan)
    requires job.maxRounds > 0 && job.planner.create(job.pool).Some?
    ensures History(job, turns)
    ensures Ends(job, turns, planner, plan, Uninterrupted(job))
  {
    hide RunFrom;
    var (first, asked) := job.planner.initialPlan(job.planner.create(job.pool).value, Overlay(job.base, map[]));
    turns, planner, plan := RunHasHistory(job, [], first, asked);
  }

  /** The same of every round a job has recorded, read off its transcript. */
  lemma RecordedRoundIsHanded<P, R>(job: Setup<P, R>, rounds: seq<Round>, k: nat)
      returns (answer: Fetched, at: seq<nat>)
    requires Recorded(job, rounds) && k < |rounds|
    ensures job.fetch(k, rounds[k].plan.verify, rounds[k].plan.probe) == Some(answer)
    ensures Handed(job.base, LastStorage(rounds[..k]), answer, rounds[k].results, at)
    ensures Overlays(LastStorage(rounds[..k]), answer.patch, rounds[k].storage)
  {
    assert RoundRecorded(job, rounds, k);
    answer := job.fetch(k, rounds[k].plan.verify, rounds[k].plan.probe).value;
    at := PatchedListsChanges(job.base, LastStorage(rounds[..k]), answer.patch);
    PatchedOverlays(job.base, LastStorage(rounds[..k]), answer.patch);
  }
}
