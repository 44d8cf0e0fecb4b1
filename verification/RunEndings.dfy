/**
 The state in which a run leaves the job, decided by the stored rows: waiting for tools,
 expired or failed when that is what became of its stages, and cancelled whenever a
 cancellation was requested.
 */
module RunEndings {
  import opened Basics
  import opened Contracts
  import opened Journal
  import opened JournalInvariants
  import opened Guarantees
  import opened JobStore
  import opened Scheduling
  import opened StageThreads
  import opened Runner
  import T = Transactions

  // ---- a cancelled stage means a cancelled job -------------------------------------------------------

  predicate CancelMarked(job: Job) {
    HasRow(job.rows, StageCancelled) ==> job.head.cancelRequested
  }

  lemma StepMarks(p: Platform, job: Job, step: JobStep)
    requires Sound(job) && CancelMarked(job)
    ensures CancelMarked(Apply(p, job, step))
  {
    var after := Apply(p, job, step);
    MarkStays(p, job, step);
    if i :| 0 <= i < |after.rows| && after.rows[i].state == StageCancelled {
      if i < |job.rows| && job.rows[i].state == StageCancelled {
        assert HasRow(job.rows, StageCancelled);
      } else {
        CancelledOnArrival(p, job, step, i);
      }
    }
  }

  /** A stage is cancelled by a completion that comes after the job's cancellation. */
  lemma CancelledOnArrival(p: Platform, job: Job, step: JobStep, i: nat)
    requires Control(job) && i < |job.rows| && job.rows[i].state != StageCancelled
    requires Apply(p, job, step).rows[i].state == StageCancelled
    ensures job.head.cancelRequested
  {
    if step.DoComplete? {
      var k := Find(job.head.spec.stages, step.stageId).value;
      T.CompletionExact(p, job, step.fence, k, step.attempt, step.raw, step.now);
    }
  }

  lemma MarkStays(p: Platform, job: Job, step: JobStep)
    requires Sound(job)
    ensures job.head.cancelRequested ==> Apply(p, job, step).head.cancelRequested
  {
    if !step.DoCancel? { UncancelledStep(p, job, step); }
  }

  lemma {:induction false} RunMarks(p: Platform, job: Job, steps: seq<JobStep>)
    requires Sound(job) && CancelMarked(job)
    ensures CancelMarked(Run(p, job, steps))
    decreases |steps|
  {
    if steps != [] {
      StepMarks(p, job, steps[0]);
      StepKeepsSound(p, job, steps[0]);
      RunMarks(p, Apply(p, job, steps[0]), steps[1..]);
    }
  }

  lemma TakenMarks(p: Platform, x: Setting, before: Job, after: Job)
    requires Sound(before) && Granted(x, before).Some? && Reachable(p, before, after)
    ensures CancelMarked(after)
  {
    assert CleanFrontier(before.rows);
    var steps :| after == Run(p, before, steps);
    RunMarks(p, before, steps);
  }

  // ---- how it ends --------------------------------------------------------------------------------------

  /** The runner keeps its grant, and nobody cancels the job or recovers the runner. */
  ghost predicate Orderly(x: Setting, job: Job) {
    Steady(x.oracle, x.grant.owner, job.head.spec, x.first.clock) && Uncancelled(x.oracle)
      && Unrecovered(x.oracle, x.token)
  }

  /** No stage failed, and every stage that was submitted was claimed. */
  predicate NoneLost(before: Job, after: Job, started: nat) {
    && (forall i :: 0 <= i < |after.rows| ==> after.rows[i].state != StageFailed)
    && PendingCount(after.rows) + started <= PendingCount(before.rows)
  }

  lemma LostOrNot(before: Job, after: Job, started: nat)
    ensures LostSome(after.rows, started, PendingCount(before.rows)) <==> !NoneLost(before, after, started)
  {
  }

  /** A run that succeeded or paused lost nothing and left only finished and untouched stages. */
  lemma CleanEnding(before: Job, after: Job, maxStages: Option<nat>, started: nat)
    requires Sound(after) && Worked(maxStages, before, after, started)
    requires after.head.state == Succeeded || after.head.state == Paused
    ensures CleanFrontier(after.rows) && NoneLost(before, after, started)
  {
    if after.head.state == Succeeded { PendingZeroWhenDone(after.rows); }
  }

  /** An orderly run is released, unless all its stages are done and the last one was skipped. */
  lemma OrderlyReleased(p: Platform, x: Setting, before: Job, after: Job, answer: Answer<JobState>,
                        taken: Option<Fence>, released: bool, started: nat)
    requires Sound(before) && Ran(p, x, before, after, answer, taken, released, started)
    requires taken.Some? && Orderly(x, before)
    ensures released || (AllDone(after.rows) && NoneLost(before, after, started))
  {
    if !released { PendingZeroWhenDone(after.rows); }
  }

  predicate Closes(answer: Answer<JobState>, after: Job, state: JobState) {
    answer == Ok(state) && after.head.state == state && after.head.runner == None
  }

  lemma ReleasedCloses(p: Platform, x: Setting, before: Job, after: Job, answer: Answer<JobState>,
                       taken: Option<Fence>, released: bool, started: nat)
    requires Sound(before) && Ran(p, x, before, after, answer, taken, released, started) && released
    ensures Closes(answer, after, after.head.state)
    ensures after.head.state == Succeeded || after.head.state == Paused ==>
              CleanFrontier(after.rows) && NoneLost(before, after, started)
  {
    if after.head.state == Succeeded || after.head.state == Paused {
      CleanEnding(before, after, x.maxStages, started);
    }
  }

  /**
   Without recovery, cancellation, a lost grant or a deadline: if some stage waits for tools,
   no other one failed, and all that were submitted were claimed, the job is left waiting for
   tools, and so the caller is told.
   */
  lemma WaitingEnds(p: Platform, x: Setting, before: Job, after: Job, answer: Answer<JobState>, taken: Option<Fence>,
                    released: bool, started: nat)
    requires Sound(before) && Ran(p, x, before, after, answer, taken, released, started)
    requires taken.Some? && Orderly(x, before) && Timely(x.oracle, before.head.spec, LastMoment(x, before))
    requires HasRow(after.rows, StageWaitingTools) && NoneLost(before, after, started)
    requires !HasRow(after.rows, StageExpired)
    ensures Closes(answer, after, WaitingTools)
  {
    OrderlyReleased(p, x, before, after, answer, taken, released, started);
    ReleasedCloses(p, x, before, after, answer, taken, released, started);
    TakenMarks(p, x, before, after);
    LostOrNot(before, after, started);
  }

  /** The same with stages that expired, whatever the clocks: the job expires. */
  lemma ExpiredEnds(p: Platform, x: Setting, before: Job, after: Job, answer: Answer<JobState>, taken: Option<Fence>,
                    released: bool, started: nat)
    requires Sound(before) && Ran(p, x, before, after, answer, taken, released, started)
    requires taken.Some? && Orderly(x, before)
    requires HasRow(after.rows, StageExpired) && NoneLost(before, after, started)
    requires !HasRow(after.rows, StageWaitingTools)
    ensures Closes(answer, after, Expired)
  {
    OrderlyReleased(p, x, before, after, answer, taken, released, started);
    ReleasedCloses(p, x, before, after, answer, taken, released, started);
    TakenMarks(p, x, before, after);
    LostOrNot(before, after, started);
  }

  /** The same with a stage that failed, or was never claimed, and none that waits: the job fails. */
  lemma FailedEnds(p: Platform, x: Setting, before: Job, after: Job, answer: Answer<JobState>, taken: Option<Fence>,
                   released: bool, started: nat)
    requires Sound(before) && Ran(p, x, before, after, answer, taken, released, started)
    requires taken.Some? && Orderly(x, before) && Timely(x.oracle, before.head.spec, LastMoment(x, before))
    requires Tame(x.callback) && !NoneLost(before, after, started)
    requires !HasRow(after.rows, StageWaitingTools) && !HasRow(after.rows, StageExpired)
    ensures Closes(answer, after, Failed)
  {
    OrderlyReleased(p, x, before, after, answer, taken, released, started);
    ReleasedCloses(p, x, before, after, answer, taken, released, started);
    TakenMarks(p, x, before, after);
    LostOrNot(before, after, started);
  }

  /** A job whose cancellation was requested, or one of whose stages was cancelled, is closed as cancelled. */
  lemma CancelledEnds(p: Platform, x: Setting, before: Job, after: Job, answer: Answer<JobState>, taken: Option<Fence>,
                      released: bool, started: nat)
    requires Sound(before) && Ran(p, x, before, after, answer, taken, released, started) && released
    requires after.head.cancelRequested || HasRow(after.rows, StageCancelled)
    ensures Closes(answer, after, Cancelled)
  {
    TakenMarks(p, x, before, after);
    ReleasedCloses(p, x, before, after, answer, taken, released, started);
  }

  /** A released orderly run of a tame worker ends in one of these states, for these reasons only. */
  lemma EndingHasReason(p: Platform, x: Setting, before: Job, after: Job, answer: Answer<JobState>,
                        taken: Option<Fence>, released: bool, started: nat)
    requires Sound(before) && Ran(p, x, before, after, answer, taken, released, started) && released
    requires Orderly(x, before) && Timely(x.oracle, before.head.spec, LastMoment(x, before)) && Tame(x.callback)
    ensures match after.head.state
            case WaitingTools => HasRow(after.rows, StageWaitingTools)
            case Expired => HasRow(after.rows, StageExpired)
            case Failed => !NoneLost(before, after, started)
            case _ => (after.head.state == Succeeded || after.head.state == Paused)
                      && CleanFrontier(after.rows) && NoneLost(before, after, started)
  {
    ReleasedCloses(p, x, before, after, answer, taken, released, started);
    TakenMarks(p, x, before, after);
    LostOrNot(before, after, started);
  }
}
