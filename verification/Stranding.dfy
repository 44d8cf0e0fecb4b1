/**
 Snapshots whose owner can be left with a finished job that the store refuses to take
 back: a run of the plan, and exactly which plans allow it.
 */
module Stranding {
  import opened Basics
  import opened Contracts
  import opened Journal
  import opened JournalInvariants
  import opened Guarantees
  import opened ScheduleIndependence
  import opened Completeness

  /**
   If the evaluation skips the final stage, a run gets to a point where every stage is done
   and its owner can never report success: the store refuses it until the deadline.
   */
  lemma SkippedFinalStrands(p: Platform, worker: Worker, owner: string, idem: string, spec: Spec, created: int,
                            grant: Grant, token: string, attempt: string, now: int) returns (steps: seq<WorldStep>)
    requires WellFormed(spec) && spec.routeId in grant.routes && now < spec.limits.deadline && token != ""
    requires Evaluate(p, worker, spec.stages, |spec.stages|).Some?
    requires Evaluate(p, worker, spec.stages, |spec.stages|).value[|spec.stages| - 1].Bypassed?
    ensures forall s :: s in steps ==> Allowed(s)
    ensures var job := Unfold(p, worker, World(NewJob(owner, idem, spec, created), {}), steps).job;
            && Holds(job, Fence(token, 1)) && AllDone(job.rows) && !job.head.cancelRequested
            && forall later :: later < spec.limits.deadline ==>
                 Finish(job, Fence(token, 1), JobState.Succeeded, later) == Refuse(FrontierNotFinal)
  {
    steps := WholeRun(p, worker, owner, idem, spec, created, grant, token, attempt, now);
    var job := Unfold(p, worker, World(NewJob(owner, idem, spec, created), {}), steps).job;
    var last := |spec.stages| - 1;
    assert job.rows[last].state.Done();
    assert Evaluate(p, worker, spec.stages, |spec.stages|).value[last] == OutcomeOf(job.rows[last]);
  }

  /** Such plans exist: the judge decides, and the conditional debate is the public last stage. */
  const DEBATE_LAST := Spec(
    "ultra", Ultra,
    [Operation(JUDGE, [], 1, 1, false, false, None, 0),
     Operation(DEBATE, [JUDGE], 1, 1, true, false, Some(DISAGREEMENT), 1)],
    [Stage(JUDGE, [], 1, 1, 1, false, false, None), Stage(DEBATE, [JUDGE], 1, 1, 1, true, false, Some(DISAGREEMENT))],
    Limits(1000, 4, 2, 1, 1.0), 2)

  lemma DebateLastAccepted()
    ensures WellFormed(DEBATE_LAST) && DEBATE_LAST.stages[1].condition.Some?
  {
    var stages := DEBATE_LAST.stages;
    assert StagePlaced(stages, 0);
    assert stages[0].id == JUDGE;
    assert HasIdBefore(stages, 1, JUDGE);
    assert StagePlaced(stages, 1);
    assert Sum(TOKENS, stages[..0]) == 0 && Sum(COST, stages[..0]) == 0;
    assert stages[..1][..0] == [] && stages[..2] == stages;
    assert Sum(TOKENS, stages[..1]) == 2 && Sum(COST, stages[..1]) == 1;
    assert Sum(TOKENS, stages) == 4 && Sum(COST, stages) == 2;
  }

  // ---- which plans ----------------------------------------------------------------------------

  /** A platform and a worker under which every stage answers and the judge asks for no debate. */
  const PLAIN: Platform := Platform((content, calls) => Some(("", [])), c => c)

  const TERSE: Worker :=
    (stage: Stage, artifacts: Artifacts) => RawResult(None, [], 1, 1, if stage.id == JUDGE then Some(false) else None)

  function Final(spec: Spec): Stage
    requires spec.stages != []
  {
    spec.stages[|spec.stages| - 1]
  }

  /** The final stage is conditional and reads the judge. */
  predicate MaySkipFinal(spec: Spec) {
    spec.stages != [] && Final(spec).condition.Some? && JUDGE in Final(spec).dependencies
  }

  ghost predicate AllAnswered(stages: seq<Stage>, done: seq<Outcome>) {
    && |done| <= |stages|
    && forall i :: 0 <= i < |done| ==>
      && done[i].Produced?
      && (stages[i].id == JUDGE ==> done[i].artifact.debateRequired == Some(false))
  }

  lemma NextAnswers(spec: Spec, done: seq<Outcome>)
    requires WellFormed(spec) && |done| < |spec.stages| && AllAnswered(spec.stages, done)
    requires spec.stages[|done|].condition.None?
    ensures var r := EvaluateStage(PLAIN, TERSE, spec.stages, done, spec.stages[|done|]);
            r.Some? && AllAnswered(spec.stages, done + [r.value])
  {
    var stage := spec.stages[|done|];
    assert StageMatchesOperation(spec, stage, spec.operations[|done|]);
    forall d | d in stage.dependencies ensures Input(spec.stages, done, stage, d).Some? {
      DependencyEarlier(spec, |done|, d);
    }
  }

  lemma {:induction false} StagesAnswer(spec: Spec, n: nat)
    requires WellFormed(spec) && n <= |spec.stages|
    requires forall i :: 0 <= i < n ==> spec.stages[i].condition.None?
    ensures var r := Evaluate(PLAIN, TERSE, spec.stages, n);
            r.Some? && AllAnswered(spec.stages, r.value)
  {
    if n > 0 {
      StagesAnswer(spec, n - 1);
      NextAnswers(spec, Evaluate(PLAIN, TERSE, spec.stages, n - 1).value);
    }
  }

  /** Only the debate round is conditional, so the stages before a conditional final stage are not. */
  lemma OnlyFinalConditional(spec: Spec, i: nat)
    requires WellFormed(spec) && MaySkipFinal(spec) && i < |spec.stages| - 1
    ensures spec.stages[i].condition.None?
  {
    var last := |spec.stages| - 1;
    assert StageMatchesOperation(spec, spec.stages[last], spec.operations[last]);
    assert StageMatchesOperation(spec, spec.stages[i], spec.operations[i]);
    DistinctIds(spec, i, last);
  }

  /** Under that worker the evaluation of such a plan skips its final stage. */
  lemma FinalBypassed(spec: Spec)
    requires WellFormed(spec) && MaySkipFinal(spec)
    ensures var r := Evaluate(PLAIN, TERSE, spec.stages, |spec.stages|);
            r.Some? && r.value[|spec.stages| - 1].Bypassed?
  {
    var last := |spec.stages| - 1;
    forall i | 0 <= i < last ensures spec.stages[i].condition.None? {
      OnlyFinalConditional(spec, i);
    }
    StagesAnswer(spec, last);
    var done := Evaluate(PLAIN, TERSE, spec.stages, last).value;
    var stage := spec.stages[last];
    forall d | d in stage.dependencies
      ensures Input(spec.stages, done, stage, d).Some?
      ensures d == JUDGE ==> Input(spec.stages, done, stage, d).value.Some?
      ensures d == JUDGE ==> Input(spec.stages, done, stage, d).value.value.debateRequired == Some(false)
    {
      DependencyEarlier(spec, last, d);
    }
  }

  /** An owner whose job is finished and who is refused success until the deadline. */
  ghost predicate Stranded(job: Job) {
    && AllDone(job.rows) && !job.head.cancelRequested
    && exists fence :: Holds(job, fence) && RefusedUntilDeadline(job, fence)
  }

  ghost predicate RefusedUntilDeadline(job: Job, fence: Fence) {
    forall later :: later < job.head.spec.limits.deadline ==> Finish(job, fence, JobState.Succeeded, later).Refuse?
  }

  ghost predicate Strands(p: Platform, worker: Worker, owner: string, idem: string, spec: Spec, created: int,
                          steps: seq<WorldStep>)
  {
    && (forall s :: s in steps ==> Allowed(s))
    && Stranded(Unfold(p, worker, World(NewJob(owner, idem, spec, created), {}), steps).job)
  }

  lemma StrandedSkipped(job: Job)
    requires Stranded(job) && job.rows != []
    ensures job.rows[|job.rows| - 1].state.Skipped?
  {
    var fence :| Holds(job, fence) && RefusedUntilDeadline(job, fence);
    assert Finish(job, fence, JobState.Succeeded, job.head.spec.limits.deadline - 1).Refuse?;
  }

  lemma StrandingNeedsJudge(p: Platform, worker: Worker, owner: string, idem: string, spec: Spec, created: int,
                            steps: seq<WorldStep>)
    requires WellFormed(spec) && Strands(p, worker, owner, idem, spec, created, steps)
    ensures MaySkipFinal(spec)
  {
    var start := World(NewJob(owner, idem, spec, created), {});
    NewJobControl(owner, idem, spec, created);
    UnfoldFaithful(p, worker, start, steps);
    var job := Unfold(p, worker, start, steps).job;
    StrandedSkipped(job);
    assert RowGood(p, worker, job, |job.rows| - 1);
  }

  /** Such a plan does strand. */
  lemma JudgeStrands(owner: string, idem: string, spec: Spec, created: int, grant: Grant, token: string,
                     attempt: string, now: int) returns (steps: seq<WorldStep>)
    requires WellFormed(spec) && MaySkipFinal(spec)
    requires spec.routeId in grant.routes && now < spec.limits.deadline && token != ""
    ensures Strands(PLAIN, TERSE, owner, idem, spec, created, steps)
  {
    FinalBypassed(spec);
    steps := SkippedFinalStrands(PLAIN, TERSE, owner, idem, spec, created, grant, token, attempt, now);
    var job := Unfold(PLAIN, TERSE, World(NewJob(owner, idem, spec, created), {}), steps).job;
    assert Holds(job, Fence(token, 1)) && RefusedUntilDeadline(job, Fence(token, 1));
  }

  /**
   Exactly the plans whose final stage is conditional and depends on the judge can leave
   an owner with a finished job that the store does not take back; the run that does it
   reads the clock of the job's creation, before its deadline.
   */
  lemma StrandingDecided(owner: string, idem: string, spec: Spec, created: int)
    requires WellFormed(spec) && 1 <= created < spec.limits.deadline
    ensures (exists p: Platform, worker: Worker, steps ::
               Strands(p, worker, owner, idem, spec, created, steps)) <==> MaySkipFinal(spec)
  {
    if MaySkipFinal(spec) {
      var steps := JudgeStrands(owner, idem, spec, created, Grant(owner, {spec.routeId}), "runner", "attempt",
                                created);
      assert Strands(PLAIN, TERSE, owner, idem, spec, created, steps);
    }
    forall p: Platform, worker: Worker, steps | Strands(p, worker, owner, idem, spec, created, steps)
      ensures MaySkipFinal(spec)
    {
      StrandingNeedsJudge(p, worker, owner, idem, spec, created, steps);
    }
  }

  /** The plan above, stranded by a run with a judge that asks for no debate. */
  lemma DebateLastStrands(owner: string, idem: string, created: int)
    requires 1 <= created < DEBATE_LAST.limits.deadline
    ensures exists steps :: Strands(PLAIN, TERSE, owner, idem, DEBATE_LAST, created, steps)
  {
    DebateLastAccepted();
    var steps := JudgeStrands(owner, idem, DEBATE_LAST, created, Grant(owner, {"ultra"}), "runner", "attempt", created);
  }
}
