/** Safety theorems about one job over arbitrary runs of transactions. */
module Guarantees {
  import opened Basics
  import opened Contracts
  import opened Journal
  import opened JournalInvariants

  // ---- fencing ---------------------------------------------------------------------

  predicate Holds(job: Job, fence: Fence) {
    FenceHeld(job.head, fence.runner, fence.epoch)
  }

  /** The fence was issued and no longer opens the job. */
  predicate Superseded(job: Job, fence: Fence) {
    fence.epoch < job.head.epoch || (fence.epoch == job.head.epoch && job.head.runner != Some(fence.runner))
  }

  lemma StepKeepsSuperseded(p: Platform, job: Job, step: JobStep, fence: Fence)
    requires Sound(job) && Superseded(job, fence)
    ensures Superseded(Apply(p, job, step), fence)
  {
    StepPlaced(p, job, step);
  }

  lemma {:induction false} RunKeepsSuperseded(p: Platform, job: Job, steps: seq<JobStep>, fence: Fence)
    requires Sound(job) && Superseded(job, fence)
    ensures Superseded(Run(p, job, steps), fence)
    decreases |steps|
  {
    if steps != [] {
      StepKeepsSuperseded(p, job, steps[0], fence);
      StepKeepsSound(p, job, steps[0]);
      RunKeepsSuperseded(p, Apply(p, job, steps[0]), steps[1..], fence);
    }
  }

  /** A fence that once held and then stopped holding never holds again. */
  lemma FenceNeverReturns(p: Platform, job: Job, first: seq<JobStep>, rest: seq<JobStep>, fence: Fence)
    requires Sound(job) && Holds(job, fence)
    requires !Holds(Run(p, job, first), fence)
    ensures !Holds(Run(p, Run(p, job, first), rest), fence)
  {
    RunSound(p, job, first);
    RunKeepsSuperseded(p, Run(p, job, first), rest, fence);
  }

  /** The kernel steps that end the ownership behind `fence`. */
  predicate Ends(step: JobStep, fence: Fence) {
    match step
    case DoFinish(f, _, _) => f == fence
    case DoFinishUnreadable(f, _, _) => f == fence
    case DoRecover(f, _) => f == fence
    case _ => false
  }

  lemma FenceKept(p: Platform, job: Job, step: JobStep, fence: Fence)
    requires Sound(job) && Holds(job, fence) && !Ends(step, fence)
    ensures Holds(Apply(p, job, step), fence)
  {
  }

  lemma {:induction false} FenceKeptByRun(p: Platform, job: Job, steps: seq<JobStep>, fence: Fence)
    requires Sound(job) && Holds(job, fence) && forall s :: s in steps ==> !Ends(s, fence)
    ensures Holds(Run(p, job, steps), fence)
    decreases |steps|
  {
    if steps != [] {
      assert steps[0] in steps;
      FenceKept(p, job, steps[0], fence);
      StepKeepsSound(p, job, steps[0]);
      FenceKeptByRun(p, Apply(p, job, steps[0]), steps[1..], fence);
    }
  }

  // ---- cancellation ------------------------------------------------------------------

  /** Nothing a worker produces gets in between `before` and `after`, and nothing starts. */
  ghost predicate Frozen(before: Job, after: Job) {
    && after.fragments == before.fragments
    && after.head.tokensReserved == before.head.tokensReserved
    && after.head.costReserved == before.head.costReserved
    && |after.rows| == |before.rows|
    && (forall i :: 0 <= i < |before.rows| ==>
          && after.rows[i].result == before.rows[i].result
          && after.rows[i].attempt == before.rows[i].attempt
          && (before.rows[i].state.Pending? <==> after.rows[i].state.Pending?)
          && (after.rows[i].state.InFlight? ==> before.rows[i].state.InFlight?))
    && (after.head.state.Cancelling? || after.head.state.Cancelled? || after.head.state.Interrupted?)
    && (after.head.state.Interrupted? ==> before.head.state.Interrupted? || SomeRow(before.rows, InFlight))
  }

  lemma CancelledStepFrozen(p: Platform, job: Job, step: JobStep)
    requires Sound(job) && job.head.cancelRequested
    ensures Frozen(job, Apply(p, job, step))
  {
    match step
    case DoRecover(fence, now) => assert SomeRow(job.rows, Uncertain) ==> job.head.state.Interrupted?;
    case _ =>
  }

  lemma {:induction false} CancelledRunFrozen(p: Platform, job: Job, steps: seq<JobStep>)
    requires Sound(job) && job.head.cancelRequested
    ensures Frozen(job, Run(p, job, steps)) && Run(p, job, steps).head.cancelRequested
    decreases |steps|
  {
    if steps != [] {
      var next := Apply(p, job, steps[0]);
      CancelledStepFrozen(p, job, steps[0]);
      StepPlaced(p, job, steps[0]);
      StepKeepsSound(p, job, steps[0]);
      CancelledRunFrozen(p, next, steps[1..]);
    }
  }

  /**
   Once `request_cancel` has answered true, in every continuation no stage starts
   or is skipped, no result or fragment is stored, and the job can only end
   cancelled, or interrupted when an attempt was in flight at that moment.
   */
  lemma CancellationDominates(p: Platform, job: Job, now: int, steps: seq<JobStep>)
    requires Sound(job)
    requires RequestCancel(job, now) == Accept(After(job, RequestCancel(job, now)), true)
    ensures Frozen(job, Run(p, After(job, RequestCancel(job, now)), steps))
  {
    var cancelled := Apply(p, job, DoCancel(now));
    StepKeepsSound(p, job, DoCancel(now));
    CancelledRunFrozen(p, cancelled, steps);
  }

  // ---- reservations ---------------------------------------------------------------------

  /** The weights of the stages that were ever claimed. */
  function Claimed(weight: Stage -> int, stages: seq<Stage>, rows: seq<StageRow>): int
    requires |rows| == |stages|
  {
    if rows == [] then 0
    else
      var n := |rows| - 1;
      Claimed(weight, stages[..n], rows[..n]) + (if rows[n].attempt.Some? then weight(stages[n]) else 0)
  }

  lemma {:induction false} ClaimedSame(weight: Stage -> int, stages: seq<Stage>, rows: seq<StageRow>,
                                       rows': seq<StageRow>)
    requires |rows| == |stages| == |rows'|
    requires forall i :: 0 <= i < |rows| ==> rows'[i].attempt.Some? == rows[i].attempt.Some?
    ensures Claimed(weight, stages, rows') == Claimed(weight, stages, rows)
  {
    if rows != [] {
      var n := |rows| - 1;
      ClaimedSame(weight, stages[..n], rows[..n], rows'[..n]);
    }
  }

  lemma {:induction false} ClaimedOneMore(weight: Stage -> int, stages: seq<Stage>, rows: seq<StageRow>, i: nat,
                                          row: StageRow)
    requires |rows| == |stages| && i < |rows|
    requires rows[i].attempt.None? && row.attempt.Some?
    ensures Claimed(weight, stages, rows[i := row]) == Claimed(weight, stages, rows) + weight(stages[i])
  {
    var n := |rows| - 1;
    if i == n {
      assert rows[i := row][..n] == rows[..n];
    } else {
      assert rows[i := row][..n] == rows[..n][i := row];
      ClaimedOneMore(weight, stages[..n], rows[..n], i, row);
    }
  }

  lemma {:induction false} ClaimedAtMost(weight: Stage -> int, stages: seq<Stage>, rows: seq<StageRow>)
    requires |rows| == |stages|
    requires forall i :: 0 <= i < |stages| ==> 0 <= weight(stages[i])
    ensures 0 <= Claimed(weight, stages, rows) <= Sum(weight, stages)
  {
    if rows != [] {
      var n := |rows| - 1;
      assert forall i :: 0 <= i < n ==> stages[..n][i] == stages[i];
      ClaimedAtMost(weight, stages[..n], rows[..n]);
    }
  }

  ghost predicate Charged(job: Job)
    requires Shaped(job)
  {
    && job.head.tokensReserved == Claimed(TOKENS, job.head.spec.stages, job.rows)
    && job.head.costReserved == Claimed(COST, job.head.spec.stages, job.rows)
  }

  lemma NewJobCharged(owner: string, idem: string, spec: Spec, now: int)
    requires WellFormed(spec)
    ensures Sound(NewJob(owner, idem, spec, now)) && Charged(NewJob(owner, idem, spec, now))
  {
    var job := NewJob(owner, idem, spec, now);
    NothingClaimed(TOKENS, spec.stages, job.rows);
    NothingClaimed(COST, spec.stages, job.rows);
  }

  lemma {:induction false} NothingClaimed(weight: Stage -> int, stages: seq<Stage>, rows: seq<StageRow>)
    requires |rows| == |stages| && forall i :: 0 <= i < |rows| ==> rows[i].attempt.None?
    ensures Claimed(weight, stages, rows) == 0
  {
    if rows != [] {
      NothingClaimed(weight, stages[..|rows| - 1], rows[..|rows| - 1]);
    }
  }

  lemma UnchargedStep(p: Platform, job: Job, step: JobStep)
    requires Sound(job) && Charged(job) && !step.DoClaim?
    ensures Charged(Apply(p, job, step))
  {
    var after := Apply(p, job, step);
    SameAttempts(p, job, step);
    ClaimedSame(TOKENS, job.head.spec.stages, job.rows, after.rows);
    ClaimedSame(COST, job.head.spec.stages, job.rows, after.rows);
  }

  lemma SameAttempts(p: Platform, job: Job, step: JobStep)
    requires Sound(job) && !step.DoClaim?
    ensures var after := Apply(p, job, step);
            && after.head.tokensReserved == job.head.tokensReserved
            && after.head.costReserved == job.head.costReserved
            && |after.rows| == |job.rows|
            && forall i :: 0 <= i < |job.rows| ==> after.rows[i].attempt.Some? == job.rows[i].attempt.Some?
  {
  }

  lemma ClaimCharged(job: Job, grant: Grant, fence: Fence, id: string, attempt: string, now: int)
    requires Sound(job) && Charged(job)
    ensures Charged(After(job, Claim(job, grant, fence, id, attempt, now)))
  {
    var reply := Claim(job, grant, fence, id, attempt, now);
    if reply.Accept? {
      var i := Find(job.head.spec.stages, id).value;
      var stages := job.head.spec.stages;
      var after := reply.job.rows;
      assert after == job.rows[i := after[i]];
      if after[i].attempt.Some? {
        ClaimedOneMore(TOKENS, stages, job.rows, i, after[i]);
        ClaimedOneMore(COST, stages, job.rows, i, after[i]);
      } else {
        ClaimedSame(TOKENS, stages, job.rows, after);
        ClaimedSame(COST, stages, job.rows, after);
      }
    }
  }

  /** The reservation guard inside `claim` never fires on an accepted snapshot. */
  lemma ReservationNeverRefused(job: Job, grant: Grant, fence: Fence, id: string, attempt: string, now: int)
    requires Sound(job) && Charged(job)
    ensures Claim(job, grant, fence, id, attempt, now) != Refuse(ReservationExceeded)
  {
    var stages := job.head.spec.stages;
    var found := Find(stages, id);
    if found.Some? && job.rows[found.value].state.Pending? {
      var i := found.value;
      var row := job.rows[i].(attempt := Some(attempt));
      ClaimedOneMore(TOKENS, stages, job.rows, i, row);
      ClaimedOneMore(COST, stages, job.rows, i, row);
      ClaimedAtMost(TOKENS, stages, job.rows[i := row]);
      ClaimedAtMost(COST, stages, job.rows[i := row]);
    }
  }

  lemma StepCharged(p: Platform, job: Job, step: JobStep)
    requires Sound(job) && Charged(job)
    ensures Charged(Apply(p, job, step))
  {
    match step
    case DoClaim(grant, fence, id, attempt, now) => ClaimCharged(job, grant, fence, id, attempt, now);
    case _ => UnchargedStep(p, job, step);
  }

  lemma {:induction false} RunCharged(p: Platform, job: Job, steps: seq<JobStep>)
    requires Sound(job) && Charged(job)
    ensures Charged(Run(p, job, steps))
    decreases |steps|
  {
    if steps != [] {
      StepCharged(p, job, steps[0]);
      StepKeepsSound(p, job, steps[0]);
      RunCharged(p, Apply(p, job, steps[0]), steps[1..]);
    }
  }

  /**
   After any run from creation, the two counters of the job row are the sums over
   the stages that ever started, and stay within the limits of the snapshot.
   */
  lemma BudgetIsExact(p: Platform, owner: string, idem: string, spec: Spec, created: int, steps: seq<JobStep>)
    requires WellFormed(spec)
    ensures var job := Run(p, NewJob(owner, idem, spec, created), steps);
            && job.head.tokensReserved == Claimed(TOKENS, spec.stages, job.rows) <= spec.limits.tokenLimit
            && job.head.costReserved == Claimed(COST, spec.stages, job.rows) <= spec.limits.costLimit
  {
    var start := NewJob(owner, idem, spec, created);
    var job := Run(p, start, steps);
    NewJobCharged(owner, idem, spec, created);
    RunCharged(p, start, steps);
    ClaimedAtMost(TOKENS, spec.stages, job.rows);
    ClaimedAtMost(COST, spec.stages, job.rows);
  }

  // ---- skipping -----------------------------------------------------------------------------

  /** Only a conditional stage, the debate round of an Ultra plan, is ever skipped. */
  ghost predicate SkipsConditional(job: Job)
    requires Shaped(job)
  {
    forall i :: 0 <= i < |job.rows| && job.rows[i].state.Skipped? ==> job.head.spec.stages[i].condition.Some?
  }

  lemma ClaimKeepsSkips(job: Job, grant: Grant, fence: Fence, id: string, attempt: string, now: int)
    requires Shaped(job) && SkipsConditional(job)
    ensures SkipsConditional(After(job, Claim(job, grant, fence, id, attempt, now)))
  {
  }

  lemma CompleteKeepsSkips(p: Platform, job: Job, fence: Fence, id: string, attempt: string, raw: RawResult, now: int)
    requires Shaped(job) && SkipsConditional(job)
    ensures SkipsConditional(After(job, Complete(p, job, fence, id, attempt, raw, now)))
  {
  }

  lemma StepKeepsSkips(p: Platform, job: Job, step: JobStep)
    requires Shaped(job) && SkipsConditional(job)
    ensures SkipsConditional(Apply(p, job, step))
  {
    match step
    case DoClaim(grant, fence, id, attempt, now) => ClaimKeepsSkips(job, grant, fence, id, attempt, now);
    case DoComplete(fence, id, attempt, raw, now) => CompleteKeepsSkips(p, job, fence, id, attempt, raw, now);
    case _ =>
  }

  lemma {:induction false} RunKeepsSkips(p: Platform, job: Job, steps: seq<JobStep>)
    requires Shaped(job) && SkipsConditional(job)
    ensures SkipsConditional(Run(p, job, steps))
    decreases |steps|
  {
    if steps != [] {
      StepKeepsSkips(p, job, steps[0]);
      RunKeepsSkips(p, Apply(p, job, steps[0]), steps[1..]);
    }
  }

  /** In every run from creation a skipped stage is the Ultra debate round. */
  lemma OnlyDebateSkipped(p: Platform, owner: string, idem: string, spec: Spec, created: int, steps: seq<JobStep>,
                          i: nat)
    requires WellFormed(spec) && i < |spec.stages|
    requires Run(p, NewJob(owner, idem, spec, created), steps).rows[i].state.Skipped?
    ensures spec.stages[i].id == DEBATE && spec.engine == Ultra
  {
    RunKeepsSkips(p, NewJob(owner, idem, spec, created), steps);
    assert StageMatchesOperation(spec, spec.stages[i], spec.operations[i]);
  }

  /** A plan whose final stage is unconditional never ends with that stage skipped. */
  lemma UnconditionalFinalNeverSkipped(p: Platform, owner: string, idem: string, spec: Spec, created: int,
                                       steps: seq<JobStep>)
    requires WellFormed(spec) && spec.stages[|spec.stages| - 1].condition.None?
    ensures !Run(p, NewJob(owner, idem, spec, created), steps).rows[|spec.stages| - 1].state.Skipped?
  {
    RunKeepsSkips(p, NewJob(owner, idem, spec, created), steps);
  }

  // ---- the deadline --------------------------------------------------------------------------

  function TimeOf(step: JobStep): int {
    match step
    case DoBegin(_, _, now) => now
    case DoClaim(_, _, _, _, now) => now
    case DoComplete(_, _, _, _, now) => now
    case DoFailStage(_, _, _, now) => now
    case DoPublish(_, _, _, _, _, now) => now
    case DoCancel(now) => now
    case DoFinish(_, _, now) => now
    case DoFinishUnreadable(_, _, now) => now
    case DoRecover(_, now) => now
  }

  /** Nothing new is owned, started, skipped, stored or published, and nothing newly succeeds. */
  ghost predicate Expiring(before: Job, after: Job) {
    && after.fragments == before.fragments
    && after.head.tokensReserved == before.head.tokensReserved
    && |after.rows| == |before.rows|
    && (forall i :: 0 <= i < |before.rows| ==>
          && after.rows[i].result == before.rows[i].result
          && after.rows[i].attempt == before.rows[i].attempt
          && (before.rows[i].state.Pending? <==> after.rows[i].state.Pending?))
    && (after.head.runner.Some? ==> after.head.runner == before.head.runner && after.head.epoch == before.head.epoch)
    && (after.head.state.Succeeded? ==> before.head.state.Succeeded?)
  }

  lemma LateStep(p: Platform, job: Job, step: JobStep)
    requires Sound(job) && job.head.spec.limits.deadline <= TimeOf(step)
    ensures Expiring(job, Apply(p, job, step))
  {
    match step
    case DoComplete(fence, id, attempt, raw, now) => LateComplete(p, job, fence, id, attempt, raw, now);
    case DoFinish(fence, asked, now) => LateFinish(job, fence, asked, now);
    case DoRecover(fence, now) => LateRecover(job, fence, now);
    case _ =>
  }

  lemma LateFinish(job: Job, fence: Fence, asked: JobState, now: int)
    requires Sound(job) && job.head.spec.limits.deadline <= now
    ensures Expiring(job, After(job, Finish(job, fence, asked, now)))
  {
  }

  lemma LateRecover(job: Job, fence: Fence, now: int)
    requires Sound(job) && job.head.spec.limits.deadline <= now
    ensures Expiring(job, After(job, Recover(job, fence, now)))
  {
  }

  lemma LateComplete(p: Platform, job: Job, fence: Fence, id: string, attempt: string, raw: RawResult, now: int)
    requires Sound(job) && job.head.spec.limits.deadline <= now
    ensures Expiring(job, After(job, Complete(p, job, fence, id, attempt, raw, now)))
  {
  }

  /** The original deadline is never renewed: from then on every run only winds the job down. */
  lemma {:induction false} DeadlineDominates(p: Platform, job: Job, steps: seq<JobStep>)
    requires Sound(job) && forall s :: s in steps ==> job.head.spec.limits.deadline <= TimeOf(s)
    ensures Expiring(job, Run(p, job, steps))
    decreases |steps|
  {
    if steps != [] {
      assert steps[0] in steps;
      LateStep(p, job, steps[0]);
      StepKeepsSound(p, job, steps[0]);
      DeadlineDominates(p, Apply(p, job, steps[0]), steps[1..]);
    }
  }

  // ---- parallel attempts --------------------------------------------------------------------------

  lemma {:induction false} InFlightUpdate(rows: seq<StageRow>, i: nat, row: StageRow)
    requires i < |rows|
    ensures InFlightCount(rows[i := row])
            == InFlightCount(rows) - (if rows[i].state.InFlight? then 1 else 0) + (if row.state.InFlight? then 1 else 0)
  {
    var n := |rows| - 1;
    if i == n {
      assert rows[i := row][..n] == rows[..n];
    } else {
      assert rows[i := row][..n] == rows[..n][i := row];
      InFlightUpdate(rows[..n], i, row);
    }
  }

  lemma {:induction false} InFlightFewer(rows: seq<StageRow>, rows': seq<StageRow>)
    requires |rows'| == |rows|
    requires forall i :: 0 <= i < |rows| && rows'[i].state.InFlight? ==> rows[i].state.InFlight?
    ensures InFlightCount(rows') <= InFlightCount(rows)
  {
    if rows != [] { InFlightFewer(rows[..|rows| - 1], rows'[..|rows| - 1]); }
  }

  predicate WithinWidth(job: Job) {
    InFlightCount(job.rows) <= job.head.spec.limits.maxParallel
  }

  lemma StepStartsOne(p: Platform, job: Job, step: JobStep)
    requires Sound(job) && !step.DoClaim?
    ensures var after := Apply(p, job, step);
            |after.rows| == |job.rows|
            && forall i :: 0 <= i < |job.rows| && after.rows[i].state.InFlight? ==> job.rows[i].state.InFlight?
  {
  }

  lemma ClaimWithinWidth(p: Platform, job: Job, step: JobStep)
    requires Sound(job) && WithinWidth(job) && step.DoClaim?
    ensures WithinWidth(Apply(p, job, step))
  {
    var reply := Claim(job, step.grant, step.fence, step.stageId, step.attempt, step.now);
    if reply.Accept? {
      var i := Find(job.head.spec.stages, step.stageId).value;
      assert reply.job.rows == job.rows[i := reply.job.rows[i]];
      InFlightUpdate(job.rows, i, reply.job.rows[i]);
    }
  }

  /** Whoever claims: never more than max_parallel attempts of a job are in flight. */
  lemma {:induction false} RunWithinWidth(p: Platform, job: Job, steps: seq<JobStep>)
    requires Sound(job) && WithinWidth(job)
    ensures WithinWidth(Run(p, job, steps))
    decreases |steps|
  {
    if steps != [] {
      if steps[0].DoClaim? {
        ClaimWithinWidth(p, job, steps[0]);
      } else {
        StepStartsOne(p, job, steps[0]);
        InFlightFewer(job.rows, Apply(p, job, steps[0]).rows);
      }
      StepKeepsSound(p, job, steps[0]);
      RunWithinWidth(p, Apply(p, job, steps[0]), steps[1..]);
    }
  }

  // ---- crash recovery -----------------------------------------------------------------------------

  /**
   Confirmed recovery makes a job resumable exactly when no attempt was in flight, nothing
   was cancelled and every stage is done or untouched; an attempt in flight interrupts the
   job for good, and none is left in flight.
   */
  lemma RecoveryExact(p: Platform, job: Job, fence: Fence, now: int)
    requires Sound(job) && Holds(job, fence)
    ensures var reply := Recover(job, fence, now);
            && reply.Accept? && NoneInFlight(reply.job.rows) && !Holds(reply.job, fence) && reply.job.head.runner.None?
            && (reply.value.Paused? <==> CleanFrontier(job.rows) && !job.head.cancelRequested)
            && (reply.value.Interrupted? <==> !NoneInFlight(job.rows))
            && (!reply.value.Paused? ==> reply.value.Terminal())
            && (NoneInFlight(job.rows) && !job.head.cancelRequested ==>
                  WorstRow(job.rows, reply.value))
            && (NoneInFlight(job.rows) && job.head.cancelRequested ==> reply.value.Cancelled?)
  {
    if CleanFrontier(job.rows) {
      forall s: StageState | !s.Done() && !s.Pending? ensures !SomeRow(job.rows, s) {}
    }
    RecoveredPaused(job);
  }

  /** The state of a job without attempts in flight, by its worst row. */
  predicate WorstRow(rows: seq<StageRow>, state: JobState) {
    var has := (s: StageState) => exists i :: 0 <= i < |rows| && rows[i].state == s;
    && (state == Cancelled <==> has(StageCancelled))
    && (state == Expired <==> has(StageExpired) && !has(StageCancelled))
    && (state == Failed <==> has(StageFailed) && !has(StageCancelled) && !has(StageExpired))
    && (state == WaitingTools <==>
          has(StageWaitingTools) && !has(StageCancelled) && !has(StageExpired) && !has(StageFailed))
  }

  lemma RecoveredPaused(job: Job)
    requires Sound(job)
    ensures RecoveredState(job).Paused? ==> CleanFrontier(job.rows)
  {
    if RecoveredState(job).Paused? {
      forall i | 0 <= i < |job.rows| ensures job.rows[i].state.Done() || job.rows[i].state.Pending? {
        var s := job.rows[i].state;
        assert SomeRow(job.rows, s);
      }
    }
  }
}
