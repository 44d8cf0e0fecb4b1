/**
 Where stored results come from.  In every run a row's result is what the sanitiser made of
 some delivered answer; with one worker behind the job, every finished row is explained by
 that worker's answer to the results stored for its dependencies.
 */
module Provenance {
  import opened Basics
  import opened Contracts
  import opened Journal
  import opened JournalInvariants
  import opened ScheduleIndependence
  import opened Transactions

  // ---- any run ------------------------------------------------------------------------------------

  /** `step` delivered the answer that row `i` holds. */
  predicate Delivered(p: Platform, job: Job, i: nat, step: JobStep)
    requires Shaped(job) && i < |job.rows|
  {
    && step.DoComplete? && step.stageId == job.head.spec.stages[i].id
    && Presentable(p, step.raw, job.head.spec.stages[i])
    && job.rows[i].result == Option.Some(Stored(p, step.raw))
  }

  lemma StepDelivers(p: Platform, job: Job, step: JobStep, i: nat)
    requires WellFormed(job.head.spec) && Shaped(job) && i < |job.rows|
    ensures var after := Apply(p, job, step);
            after.rows[i].result == job.rows[i].result || after.rows[i].result == None || Delivered(p, after, i, step)
  {
    if step.DoComplete? {
      var found := Find(job.head.spec.stages, step.stageId);
      if found.Some? {
        CompletionExact(p, job, step.fence, found.value, step.attempt, step.raw, step.now);
      }
    }
  }

  /** Whoever ran the job, a stored result was delivered by some completion of the run. */
  lemma {:induction false} ResultsDelivered(p: Platform, job: Job, steps: seq<JobStep>, i: nat)
    requires WellFormed(job.head.spec) && Shaped(job) && i < |job.rows|
    ensures var after := Run(p, job, steps);
            || after.rows[i].result == job.rows[i].result || after.rows[i].result == None
            || exists k :: 0 <= k < |steps| && Delivered(p, after, i, steps[k])
    decreases |steps|
  {
    if steps != [] {
      var next, rest := Apply(p, job, steps[0]), steps[1..];
      StepDelivers(p, job, steps[0], i);
      ResultsDelivered(p, next, rest, i);
      var after := Run(p, next, rest);
      if k :| 0 <= k < |rest| && Delivered(p, after, i, rest[k]) {
        assert Delivered(p, after, i, steps[k + 1]);
      } else if after.rows[i].result == next.rows[i].result && next.rows[i].result != job.rows[i].result {
        assert after.rows[i].result.Some? ==> Delivered(p, after, i, steps[0]);
      }
    }
  }

  /** From creation on, every result of every row was delivered. */
  lemma EveryResultDelivered(p: Platform, owner: string, idem: string, spec: Spec, created: int, steps: seq<JobStep>,
                             i: nat)
    requires WellFormed(spec) && i < |spec.stages|
    ensures var job := Run(p, NewJob(owner, idem, spec, created), steps);
            job.rows[i].result.Some? ==> exists k :: 0 <= k < |steps| && Delivered(p, job, i, steps[k])
  {
    ResultsDelivered(p, NewJob(owner, idem, spec, created), steps, i);
  }

  // ---- one worker ---------------------------------------------------------------------------------

  /** Row `i` holds the worker's answer to the stored results of its dependencies. */
  ghost predicate Answered(p: Platform, worker: Worker, job: Job, i: nat, artifacts: Artifacts)
    requires Shaped(job) && i < |job.rows|
  {
    var stage := job.head.spec.stages[i];
    var raw := worker(stage, artifacts);
    && InputsReady(job, stage) && Reads(job, stage, artifacts)
    && (stage.condition.Some? ==> JudgeSaid(job, stage, true))
    && raw.toolCalls == [] && Presentable(p, raw, stage)
    && job.rows[i].result == Option.Some(Stored(p, raw))
  }

  /** A completed row holds the worker's answer, and a skipped one was declined by the judge. */
  ghost predicate Explained(p: Platform, worker: Worker, job: Job, i: nat)
    requires Shaped(job) && i < |job.rows|
  {
    var stage := job.head.spec.stages[i];
    && (job.rows[i].state == Completed ==> exists artifacts :: Answered(p, worker, job, i, artifacts))
    && (job.rows[i].state == Skipped ==>
          stage.condition.Some? && InputsReady(job, stage) && JudgeSaid(job, stage, false))
  }

  lemma GoodExplained(p: Platform, worker: Worker, job: Job, i: nat)
    requires Sound(job) && i < |job.rows| && RowGood(p, worker, job, i)
    ensures Explained(p, worker, job, i)
  {
    var stage := job.head.spec.stages[i];
    var artifacts := ArtifactsFor(job, stage);
    ClaimReads(job, stage);
    ResultDecided(p, worker(stage, artifacts), stage);
    if job.rows[i].state == Completed {
      assert Answered(p, worker, job, i, artifacts);
    }
  }

  /** The result that the owner is shown is the sanitised answer of the worker to the final stage. */
  ghost predicate ShowsAnswer(p: Platform, worker: Worker, job: Job)
    requires Shaped(job) && job.rows != []
  {
    var last := |job.rows| - 1;
    && job.rows[last].state == Completed
    && exists artifacts ::
         && Answered(p, worker, job, last, artifacts)
         && var raw := worker(job.head.spec.stages[last], artifacts);
            PublicResult(job) == p.sanitize(raw.content, raw.toolCalls)
  }

  lemma ExplainedShown(p: Platform, worker: Worker, job: Job)
    requires Sound(job) && job.head.state == Succeeded
    requires Explained(p, worker, job, |job.rows| - 1)
    ensures ShowsAnswer(p, worker, job)
  {
    var last := |job.rows| - 1;
    var artifacts :| Answered(p, worker, job, last, artifacts);
    var raw := worker(job.head.spec.stages[last], artifacts);
    assert p.sanitize(raw.content, raw.toolCalls).Some?;
  }

  /**
   In every reachable world each finished row is explained by the worker's answers and the
   judge, in terms of the rows alone; a succeeded job has all its rows finished, and shows the
   sanitised answer to the final stage.
   */
  lemma EveryAnswerExplained(p: Platform, worker: Worker, owner: string, idem: string, spec: Spec, created: int,
                             steps: seq<WorldStep>)
    requires WellFormed(spec) && forall s :: s in steps ==> Allowed(s)
    ensures var job := Unfold(p, worker, World(NewJob(owner, idem, spec, created), {}), steps).job;
            && (forall i :: 0 <= i < |job.rows| ==> Explained(p, worker, job, i))
            && (job.head.state == Succeeded ==>
                  && (forall i :: 0 <= i < |job.rows| ==>
                        job.rows[i].state == Completed || job.rows[i].state == Skipped)
                  && ShowsAnswer(p, worker, job))
  {
    var start := World(NewJob(owner, idem, spec, created), {});
    NewJobControl(owner, idem, spec, created);
    UnfoldFaithful(p, worker, start, steps);
    var job := Unfold(p, worker, start, steps).job;
    forall i | 0 <= i < |job.rows| ensures Explained(p, worker, job, i) {
      GoodExplained(p, worker, job, i);
    }
    if job.head.state == Succeeded { ExplainedShown(p, worker, job); }
  }
}
