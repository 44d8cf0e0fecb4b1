/**
 What every transaction keeps, hence what holds after any run of transactions by
 any mixture of runners, workers, supervisors and users: ownership, absorption,
 fencing, cancellation and the reservation of one attempt per stage.
 */
module JournalInvariants {
  import opened Basics
  import opened Contracts
  import opened Journal

  // ---- ownership and frontier ---------------------------------------------------

  ghost predicate Control(job: Job) {
    var head := job.head;
    && WellFormed(head.spec)
    && Shaped(job)
    && (head.runner.Some? <==> head.state.Running? || head.state.Cancelling?)
    && (head.state.Cancelling? ==> head.cancelRequested)
    && (head.cancelRequested ==> head.state.Cancelling? || head.state.Cancelled? || head.state.Interrupted?)
    && InFlightOwned(job)
    && (head.state.Queued? || head.state.Paused? ==> CleanFrontier(job.rows))
    && (forall i :: 0 <= i < |job.rows| && job.rows[i].state.Uncertain? ==> head.state.Interrupted?)
    && (head.state.Succeeded? ==> AllDone(job.rows) && job.rows[|job.rows| - 1].state.Completed?)
  }

  ghost predicate InFlightOwned(job: Job) {
    forall i :: 0 <= i < |job.rows| && job.rows[i].state.InFlight? ==>
      job.head.runner.Some? && job.rows[i].epoch == Some(job.head.epoch)
  }

  lemma NewJobControl(owner: string, idem: string, spec: Spec, now: int)
    requires WellFormed(spec)
    ensures Control(NewJob(owner, idem, spec, now))
  {
  }

  lemma ClaimKeepsControl(job: Job, grant: Grant, fence: Fence, id: string, attempt: string, now: int)
    requires Control(job)
    ensures Control(After(job, Claim(job, grant, fence, id, attempt, now)))
  {
  }

  lemma CompleteKeepsControl(p: Platform, job: Job, fence: Fence, id: string, attempt: string, raw: RawResult, now: int)
    requires Control(job)
    ensures Control(After(job, Complete(p, job, fence, id, attempt, raw, now)))
  {
  }

  lemma FinishKeepsControl(job: Job, fence: Fence, asked: JobState, now: int)
    requires Control(job)
    ensures Control(After(job, Finish(job, fence, asked, now)))
  {
  }

  lemma RecoverKeepsControl(job: Job, fence: Fence, now: int)
    requires Control(job)
    ensures Control(After(job, Recover(job, fence, now)))
  {
    var rows := job.rows;
    if RecoveredState(job).Paused? {
      forall i | 0 <= i < |rows|
        ensures rows[i].state.Done() || rows[i].state.Pending?
      {
        var s := rows[i].state;
        assert SomeRow(rows, s);
      }
    }
  }

  lemma StepKeepsControl(p: Platform, job: Job, step: JobStep)
    requires Control(job)
    ensures Control(Apply(p, job, step))
  {
    match step
    case DoClaim(grant, fence, id, attempt, now) => ClaimKeepsControl(job, grant, fence, id, attempt, now);
    case DoComplete(fence, id, attempt, raw, now) => CompleteKeepsControl(p, job, fence, id, attempt, raw, now);
    case DoFinish(fence, asked, now) => FinishKeepsControl(job, fence, asked, now);
    case DoRecover(fence, now) => RecoverKeepsControl(job, fence, now);
    case _ =>
  }

  lemma {:induction false} RunKeepsControl(p: Platform, job: Job, steps: seq<JobStep>)
    requires Control(job)
    ensures Control(Run(p, job, steps))
    decreases |steps|
  {
    if steps != [] {
      StepKeepsControl(p, job, steps[0]);
      RunKeepsControl(p, Apply(p, job, steps[0]), steps[1..]);
    }
  }

  // ---- what never changes back -----------------------------------------------------

  ghost predicate RowEvolves(before: StageRow, after: StageRow) {
    && (before.state.Done() ==> after == before)
    && (!before.state.Pending? ==> !after.state.Pending?)
    && (before.attempt.Some? ==> after.attempt == before.attempt)
    && (before.result.Some? ==> after.result == before.result)
  }

  ghost predicate Evolves(before: Job, after: Job) {
    && after.head.spec == before.head.spec
    && before.head.epoch <= after.head.epoch
    && (before.head.cancelRequested ==> after.head.cancelRequested)
    && (before.head.state.Terminal() ==> after == before)
    && |after.rows| == |before.rows|
    && (forall i :: 0 <= i < |before.rows| ==> RowEvolves(before.rows[i], after.rows[i]))
    && before.events <= after.events
    && before.fragments <= after.fragments
  }

  ghost predicate ResultsPlaced(job: Job) {
    forall i :: 0 <= i < |job.rows| ==>
      (job.rows[i].result.Some? <==> job.rows[i].state.Completed? || job.rows[i].state.StageWaitingTools?)
  }

  ghost predicate AttemptsPlaced(job: Job) {
    forall i :: 0 <= i < |job.rows| ==>
      (job.rows[i].attempt.Some? <==> !job.rows[i].state.Pending? && !job.rows[i].state.Skipped?)
  }

  /** The invariant every theorem below starts from. */
  ghost predicate Sound(job: Job) {
    Control(job) && Placed(job)
  }

  ghost predicate Placed(job: Job) {
    ResultsPlaced(job) && AttemptsPlaced(job)
  }

  /** The part of evolution that is not about rows. */
  ghost predicate HeadEvolves(before: Job, after: Job) {
    && after.head.spec == before.head.spec
    && before.head.epoch <= after.head.epoch
    && (before.head.cancelRequested ==> after.head.cancelRequested)
    && !before.head.state.Terminal()
    && before.events <= after.events
    && before.fragments <= after.fragments
  }

  ghost predicate RowPlaced(row: StageRow) {
    && (row.result.Some? <==> row.state.Completed? || row.state.StageWaitingTools?)
    && (row.attempt.Some? <==> !row.state.Pending? && !row.state.Skipped?)
  }

  /** One row moved. */
  lemma RowMoves(job: Job, after: Job, i: nat)
    requires Placed(job) && HeadEvolves(job, after)
    requires i < |job.rows| == |after.rows| && after.rows == job.rows[i := after.rows[i]]
    requires RowEvolves(job.rows[i], after.rows[i]) && RowPlaced(after.rows[i])
    ensures Placed(after) && Evolves(job, after)
  {
  }

  lemma SkipMovesOne(job: Job, i: nat, epoch: nat, attempt: string, now: int)
    requires Placed(job) && Shaped(job) && i < |job.rows| && !job.head.state.Terminal()
    requires var reply := ClaimAt(job, i, epoch, attempt, now); reply.Accept? && reply.value.None?
    ensures var after := ClaimAt(job, i, epoch, attempt, now).job; Placed(after) && Evolves(job, after)
  {
    assert RowPlaced(job.rows[i]);
    RowMoves(job, ClaimAt(job, i, epoch, attempt, now).job, i);
  }

  lemma StartMovesOne(job: Job, i: nat, epoch: nat, attempt: string, now: int)
    requires Placed(job) && Shaped(job) && i < |job.rows| && !job.head.state.Terminal()
    requires var reply := ClaimAt(job, i, epoch, attempt, now); reply.Accept? && reply.value.Some?
    ensures var after := ClaimAt(job, i, epoch, attempt, now).job; Placed(after) && Evolves(job, after)
  {
    assert RowPlaced(job.rows[i]);
    RowMoves(job, ClaimAt(job, i, epoch, attempt, now).job, i);
  }

  lemma ClaimPlaced(job: Job, grant: Grant, fence: Fence, id: string, attempt: string, now: int)
    requires Sound(job)
    ensures var after := After(job, Claim(job, grant, fence, id, attempt, now)); Placed(after) && Evolves(job, after)
  {
    var reply := Claim(job, grant, fence, id, attempt, now);
    if reply.Accept? {
      var i := Find(job.head.spec.stages, id).value;
      if reply.value.None? {
        SkipMovesOne(job, i, fence.epoch, attempt, now);
      } else {
        StartMovesOne(job, i, fence.epoch, attempt, now);
      }
    }
  }

  lemma CompletePlaced(p: Platform, job: Job, fence: Fence, id: string, attempt: string, raw: RawResult, now: int)
    requires Sound(job)
    ensures var after := After(job, Complete(p, job, fence, id, attempt, raw, now));
            Placed(after) && Evolves(job, after)
  {
  }

  lemma FailPlaced(job: Job, fence: Fence, id: string, attempt: string, now: int)
    requires Sound(job)
    ensures var after := After(job, FailStage(job, fence, id, attempt, now)); Placed(after) && Evolves(job, after)
  {
  }

  lemma PublishPlaced(p: Platform, job: Job, grant: Grant, fence: Fence, id: string, attempt: string,
                      text: string, now: int)
    requires Sound(job)
    ensures var after := After(job, Publish(p, job, grant, fence, id, attempt, text, now));
            Placed(after) && Evolves(job, after)
  {
  }

  lemma EndPlaced(job: Job, fence: Fence, asked: JobState, retainUntil: int, now: int)
    requires Sound(job)
    ensures var after := After(job, Finish(job, fence, asked, now)); Placed(after) && Evolves(job, after)
    ensures var after := After(job, FinishUnreadable(job, fence, retainUntil, now));
            Placed(after) && Evolves(job, after)
  {
  }

  lemma RecoverPlaced(job: Job, fence: Fence, now: int)
    requires Sound(job)
    ensures var after := After(job, Recover(job, fence, now)); Placed(after) && Evolves(job, after)
  {
  }

  lemma StepPlaced(p: Platform, job: Job, step: JobStep)
    requires Sound(job)
    ensures Placed(Apply(p, job, step)) && Evolves(job, Apply(p, job, step))
  {
    match step
    case DoClaim(grant, fence, id, attempt, now) => ClaimPlaced(job, grant, fence, id, attempt, now);
    case DoComplete(fence, id, attempt, raw, now) => CompletePlaced(p, job, fence, id, attempt, raw, now);
    case DoFailStage(fence, id, attempt, now) => FailPlaced(job, fence, id, attempt, now);
    case DoPublish(grant, fence, id, attempt, text, now) => PublishPlaced(p, job, grant, fence, id, attempt, text, now);
    case DoFinish(fence, asked, now) => EndPlaced(job, fence, asked, 0, now);
    case DoFinishUnreadable(fence, retainUntil, now) => EndPlaced(job, fence, Failed, retainUntil, now);
    case DoRecover(fence, now) => RecoverPlaced(job, fence, now);
    case _ =>
  }

  lemma StepKeepsSound(p: Platform, job: Job, step: JobStep)
    requires Sound(job)
    ensures Sound(Apply(p, job, step))
  {
    StepKeepsControl(p, job, step);
    StepPlaced(p, job, step);
  }

  lemma EvolvesTransitive(a: Job, b: Job, c: Job)
    requires Evolves(a, b) && Evolves(b, c)
    ensures Evolves(a, c)
  {
  }

  lemma {:induction false} RunSound(p: Platform, job: Job, steps: seq<JobStep>)
    requires Sound(job)
    ensures Sound(Run(p, job, steps)) && Evolves(job, Run(p, job, steps))
    decreases |steps|
  {
    if steps != [] {
      var next := Apply(p, job, steps[0]);
      StepKeepsSound(p, job, steps[0]);
      StepPlaced(p, job, steps[0]);
      RunSound(p, next, steps[1..]);
      EvolvesTransitive(job, next, Run(p, next, steps[1..]));
    }
  }

  // ---- composing runs ------------------------------------------------------------

  lemma RunOne(p: Platform, job: Job, step: JobStep)
    requires Shaped(job)
    ensures Run(p, job, [step]) == Apply(p, job, step)
  {
    assert Run(p, Apply(p, job, step), []) == Apply(p, job, step);
  }

  lemma {:induction false} RunAppend(p: Platform, job: Job, first: seq<JobStep>, rest: seq<JobStep>)
    requires Shaped(job)
    ensures Run(p, job, first + rest) == Run(p, Run(p, job, first), rest)
    decreases |first|
  {
    if first == [] {
      assert first + rest == rest;
    } else {
      assert (first + rest)[1..] == first[1..] + rest;
      RunAppend(p, Apply(p, job, first[0]), first[1..], rest);
    }
  }

  /** A set of jobs that no journal step leaves. */
  ghost predicate StepClosed(p: Platform, reach: iset<Job>) {
    forall job, step :: job in reach && Shaped(job) ==> Apply(p, job, step) in reach
  }

  /** Some run takes `job` to `after`. */
  ghost predicate Reachable(p: Platform, job: Job, after: Job)
    requires Shaped(job)
  {
    exists steps :: after == Run(p, job, steps)
  }

  ghost function Reach(p: Platform, job: Job): iset<Job>
    requires Shaped(job)
  {
    iset after | Reachable(p, job, after)
  }

  lemma ReachStarts(p: Platform, job: Job)
    requires Shaped(job)
    ensures job in Reach(p, job) && StepClosed(p, Reach(p, job))
  {
    assert Run(p, job, []) == job;
    forall after, step | after in Reach(p, job) && Shaped(after) ensures Apply(p, after, step) in Reach(p, job) {
      var steps :| after == Run(p, job, steps);
      RunAppend(p, job, steps, [step]);
      RunOne(p, after, step);
      assert Apply(p, after, step) == Run(p, job, steps + [step]);
    }
  }

  lemma {:induction false} RunInReach(p: Platform, reach: iset<Job>, job: Job, steps: seq<JobStep>)
    requires StepClosed(p, reach) && job in reach && Shaped(job)
    ensures Run(p, job, steps) in reach
    decreases |steps|
  {
    if steps != [] {
      RunInReach(p, reach, Apply(p, job, steps[0]), steps[1..]);
    }
  }
}
