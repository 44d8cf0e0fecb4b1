/**
 Why nothing goes wrong in an undisturbed run whose evaluation exists: a ready stage can be
 claimed, an answer of the worker completes its stage, and the finished job can be handed
 back as succeeded.
 */
module CalmRuns {
  import opened Basics
  import opened Contracts
  import opened Journal
  import opened JournalInvariants
  import opened Guarantees
  import opened ScheduleIndependence
  import opened Scheduling

  /** The evaluation of all stages, when it exists. */
  ghost predicate IsEvaluation(p: Platform, worker: Worker, stages: seq<Stage>, outcomes: seq<Outcome>) {
    Evaluate(p, worker, stages, |stages|) == Some(outcomes)
  }

  lemma {:induction false} EvaluatePrefix(p: Platform, worker: Worker, stages: seq<Stage>, n: nat, i: nat)
    requires i < n <= |stages| && Evaluate(p, worker, stages, n).Some?
    ensures var outcomes := Evaluate(p, worker, stages, n).value;
            && Evaluate(p, worker, stages, i) == Some(outcomes[..i])
            && EvaluateStage(p, worker, stages, outcomes[..i], stages[i]) == Some(outcomes[i])
    decreases n
  {
    var outcomes := Evaluate(p, worker, stages, n).value;
    var earlier := Evaluate(p, worker, stages, n - 1).value;
    assert outcomes == earlier + [outcomes[n - 1]];
    if i < n - 1 {
      EvaluatePrefix(p, worker, stages, n - 1, i);
      assert outcomes[..i] == earlier[..i];
    } else {
      assert outcomes[..i] == earlier;
    }
  }

  /** Rows that the worker computed, on the way to this evaluation. */
  ghost predicate OnTheWay(p: Platform, worker: Worker, job: Job, outcomes: seq<Outcome>) {
    && Sound(job)
    && (forall i :: 0 <= i < |job.rows| ==> RowGood(p, worker, job, i))
    && IsEvaluation(p, worker, job.head.spec.stages, outcomes)
  }

  ghost predicate RowMatches(row: StageRow, outcome: Outcome) {
    (row.state.Skipped? || row.result.Some?) && outcome == OutcomeOf(row)
  }

  /** What a stage may read is in the evaluation as it is in the rows. */
  lemma UsableInputs(p: Platform, worker: Worker, job: Job, outcomes: seq<Outcome>, i: nat)
    requires OnTheWay(p, worker, job, outcomes) && i < |job.rows|
    requires DependenciesUsable(job, job.head.spec.stages[i])
    requires forall k :: 0 <= k < i && job.rows[k].state.Done() ==> RowMatches(job.rows[k], outcomes[k])
    ensures Inputs(job.head.spec.stages, outcomes[..i], job.head.spec.stages[i])
            == Some(ArtifactsFor(job, job.head.spec.stages[i]))
  {
    var stages, stage := job.head.spec.stages, job.head.spec.stages[i];
    forall d | d in stage.dependencies ensures Input(stages, outcomes[..i], stage, d) == Some(ArtifactOf(job, d)) {
      DependencyEarlier(job.head.spec, i, d);
      assert DependencyUsable(job, stage, d);
      var k := Find(stages, d).value;
      assert RowMatches(job.rows[k], outcomes[k]);
    }
    var artifacts := map d | d in stage.dependencies :: Input(stages, outcomes[..i], stage, d).value;
    assert artifacts == ArtifactsFor(job, stage);
  }

  /** Whatever order the stages were done in, a done row holds its outcome. */
  lemma {:induction false} DoneMatches(p: Platform, worker: Worker, job: Job, outcomes: seq<Outcome>, i: nat)
    requires OnTheWay(p, worker, job, outcomes) && i < |job.rows| && job.rows[i].state.Done()
    ensures RowMatches(job.rows[i], outcomes[i])
    decreases i
  {
    assert RowGood(p, worker, job, i);
    forall k | 0 <= k < i && job.rows[k].state.Done() ensures RowMatches(job.rows[k], outcomes[k]) {
      DoneMatches(p, worker, job, outcomes, k);
    }
    UsableInputs(p, worker, job, outcomes, i);
    EvaluatePrefix(p, worker, job.head.spec.stages, |job.head.spec.stages|, i);
  }

  lemma AllMatch(p: Platform, worker: Worker, job: Job, outcomes: seq<Outcome>)
    requires OnTheWay(p, worker, job, outcomes)
    ensures forall k :: 0 <= k < |job.rows| && job.rows[k].state.Done() ==> RowMatches(job.rows[k], outcomes[k])
  {
    forall k | 0 <= k < |job.rows| && job.rows[k].state.Done() ensures RowMatches(job.rows[k], outcomes[k]) {
      DoneMatches(p, worker, job, outcomes, k);
    }
  }

  /** The store lets a ready stage read all that it depends on. */
  lemma ReadyUsable(p: Platform, worker: Worker, job: Job, outcomes: seq<Outcome>, i: nat)
    requires OnTheWay(p, worker, job, outcomes) && i < |job.rows| && IsReady(job.head.spec.stages, job.rows, i)
    ensures DependenciesUsable(job, job.head.spec.stages[i])
  {
    var stages, stage := job.head.spec.stages, job.head.spec.stages[i];
    AllMatch(p, worker, job, outcomes);
    EvaluatePrefix(p, worker, stages, |stages|, i);
    forall d | d in stage.dependencies ensures DependencyUsable(job, stage, d) {
      DependencyEarlier(job.head.spec, i, d);
      var k := Find(stages, d).value;
      assert Input(stages, outcomes[..i], stage, d).Some?;
      assert RowMatches(job.rows[k], outcomes[k]);
    }
  }

  /** A ready stage can be claimed, or skipped. */
  lemma ClaimGoes(p: Platform, worker: Worker, job: Job, outcomes: seq<Outcome>, grant: Grant, fence: Fence, i: nat,
                  attempt: string, now: int)
    requires OnTheWay(p, worker, job, outcomes) && Charged(job) && i < |job.rows|
    requires Find(job.head.spec.stages, job.head.spec.stages[i].id) == Some(i)
    requires IsReady(job.head.spec.stages, job.rows, i) && InFlightCount(job.rows) < job.head.spec.limits.maxParallel
    requires Holds(job, fence) && job.head.state.Running? && !job.head.cancelRequested
    requires job.head.spec.routeId in grant.routes && now < job.head.spec.limits.deadline
    ensures Claim(job, grant, fence, job.head.spec.stages[i].id, attempt, now).Accept?
  {
    var stages, stage := job.head.spec.stages, job.head.spec.stages[i];
    ReadyUsable(p, worker, job, outcomes, i);
    AllMatch(p, worker, job, outcomes);
    UsableInputs(p, worker, job, outcomes, i);
    EvaluatePrefix(p, worker, stages, |stages|, i);
    ReservationNeverRefused(job, grant, fence, stage.id, attempt, now);
  }

  /** The worker answered the order of a live attempt: the stage has an acceptable result. */
  lemma AnswerGood(p: Platform, worker: Worker, job: Job, outcomes: seq<Outcome>, order: Order, i: nat)
    requires OnTheWay(p, worker, job, outcomes) && i < |job.rows| && OrderGood(job, order)
    requires Find(job.head.spec.stages, order.stageId) == Some(i)
    ensures var raw := worker(job.head.spec.stages[i], order.artifacts);
            raw.toolCalls == [] && SafeResult(p, raw, job.head.spec.stages[i]).Some?
  {
    var stages, stage := job.head.spec.stages, job.head.spec.stages[i];
    AllMatch(p, worker, job, outcomes);
    UsableInputs(p, worker, job, outcomes, i);
    EvaluatePrefix(p, worker, stages, |stages|, i);
  }

  lemma CompleteGoes(p: Platform, worker: Worker, job: Job, outcomes: seq<Outcome>, order: Order, i: nat, now: int)
    requires OnTheWay(p, worker, job, outcomes) && i < |job.rows| && OrderGood(job, order)
    requires Find(job.head.spec.stages, order.stageId) == Some(i)
    requires Holds(job, order.fence) && job.head.state.Running? && !job.head.cancelRequested
    requires AttemptLive(job.rows[i], order.fence.epoch, order.attempt) && now < job.head.spec.limits.deadline
    ensures var raw := worker(job.head.spec.stages[i], order.artifacts);
            var reply := Complete(p, job, order.fence, order.stageId, order.attempt, raw, now);
            reply.Accept? && reply.value.Completed?
  {
    AnswerGood(p, worker, job, outcomes, order, i);
  }

  /** With every stage done, the final stage is completed exactly when its outcome is an answer. */
  lemma FinalCompleted(p: Platform, worker: Worker, job: Job, outcomes: seq<Outcome>)
    requires OnTheWay(p, worker, job, outcomes) && AllDone(job.rows)
    ensures var last := |job.rows| - 1;
            0 <= last && (job.rows[last].state.Completed? <==> outcomes[last].Produced?)
  {
    var last := |job.rows| - 1;
    assert job.rows[last].state.Done();
    DoneMatches(p, worker, job, outcomes, last);
  }
}
