/**
 The converse of schedule independence: whenever the in-order evaluation of a snapshot
 exists and its final stage produces an answer, an undisturbed run reaches `succeeded`.
 So success is possible exactly when the reference evaluation says so.
 */
module Completeness {
  import opened Basics
  import opened Contracts
  import opened Journal
  import opened JournalInvariants
  import opened Guarantees
  import opened ScheduleIndependence
  import opened Scheduling

  /** Rows of the first `n` stages hold the evaluation, the others are untouched. */
  ghost predicate RowsAt(job: Job, expected: seq<Outcome>, n: nat) {
    && Agrees(job, expected, n)
    && (forall i :: 0 <= i < n ==> job.rows[i].state.Done())
    && (forall i :: n <= i < |job.rows| ==> job.rows[i].state.Pending?)
  }

  /** The runner that holds `fence` has dealt with the first `n` stages. */
  ghost predicate Midway(job: Job, fence: Fence, expected: seq<Outcome>, n: nat) {
    && Sound(job) && Charged(job)
    && Holds(job, fence) && job.head.state.Running? && !job.head.cancelRequested
    && RowsAt(job, expected, n)
  }

  lemma UnfoldAppend(p: Platform, worker: Worker, w: World, first: seq<WorldStep>, rest: seq<WorldStep>)
    requires Shaped(w.job) && (forall s :: s in first ==> Allowed(s)) && (forall s :: s in rest ==> Allowed(s))
    ensures forall s :: s in first + rest ==> Allowed(s)
    ensures Unfold(p, worker, w, first + rest) == Unfold(p, worker, Unfold(p, worker, w, first), rest)
    decreases |first|
  {
    if first == [] {
      assert first + rest == rest;
    } else {
      assert first[0] in first;
      assert (first + rest)[1..] == first[1..] + rest;
      UnfoldAppend(p, worker, Advance(p, worker, w, first[0]), first[1..], rest);
    }
  }

  /** What the evaluation could read, the store lets the next stage read. */
  lemma NextUsable(job: Job, expected: seq<Outcome>, n: nat)
    requires Shaped(job) && WellFormed(job.head.spec) && n < |job.rows| && RowsAt(job, expected, n)
             && ResultsPlaced(job)
    requires Inputs(job.head.spec.stages, expected, job.head.spec.stages[n]).Some?
    ensures DependenciesUsable(job, job.head.spec.stages[n])
    ensures Inputs(job.head.spec.stages, expected, job.head.spec.stages[n])
            == Some(ArtifactsFor(job, job.head.spec.stages[n]))
  {
    var stages, stage := job.head.spec.stages, job.head.spec.stages[n];
    forall d | d in stage.dependencies ensures DependencyUsable(job, stage, d) {
      assert Input(stages, expected, stage, d).Some?;
      var k := Find(stages, d).value;
      assert expected[k] == OutcomeOf(job.rows[k]) && job.rows[k].state.Done();
    }
    InputsAgree(job, expected, n);
  }

  /** Nothing is in flight between two stages. */
  lemma NoneRunning(job: Job, expected: seq<Outcome>, n: nat)
    requires RowsAt(job, expected, n)
    ensures InFlightCount(job.rows) == 0
  {
    InFlightAtMost(job.rows, {});
  }

  /** The claim of the next stage is accepted, as a skip or with the evaluation's artifacts. */
  lemma NextClaim(p: Platform, worker: Worker, job: Job, grant: Grant, fence: Fence, expected: seq<Outcome>, n: nat,
                  attempt: string, now: int)
    requires Midway(job, fence, expected, n) && n < |job.rows|
    requires job.head.spec.routeId in grant.routes && now < job.head.spec.limits.deadline
    requires EvaluateStage(p, worker, job.head.spec.stages, expected, job.head.spec.stages[n]).Some?
    ensures var stage := job.head.spec.stages[n];
            var reply := Claim(job, grant, fence, stage.id, attempt, now);
            && reply.Accept? && Inputs(job.head.spec.stages, expected, stage).Some?
            && (reply.value.None? <==> EvaluateStage(p, worker, job.head.spec.stages, expected, stage).value.Bypassed?)
            && (reply.value.Some? ==>
                  reply.value.value == Ticket(attempt, Inputs(job.head.spec.stages, expected, stage).value))
  {
    var stage := job.head.spec.stages[n];
    FindIndex(job.head.spec, n);
    NextUsable(job, expected, n);
    NoneRunning(job, expected, n);
    ReservationNeverRefused(job, grant, fence, stage.id, attempt, now);
  }

  lemma RowsExtend(job: Job, after: Job, expected: seq<Outcome>, n: nat, outcome: Outcome)
    requires RowsAt(job, expected, n) && n < |job.rows| == |after.rows| && after.rows == job.rows[n := after.rows[n]]
    requires after.rows[n].state.Done() && (after.rows[n].state.Skipped? || after.rows[n].result.Some?)
    requires outcome == OutcomeOf(after.rows[n])
    ensures RowsAt(after, expected + [outcome], n + 1)
  {
  }

  /** A skipped stage: one accepted claim. */
  lemma SkipMoves(p: Platform, worker: Worker, job: Job, grant: Grant, fence: Fence, expected: seq<Outcome>, n: nat,
                  attempt: string, now: int)
    requires Midway(job, fence, expected, n) && n < |job.rows|
    requires Claim(job, grant, fence, job.head.spec.stages[n].id, attempt, now).Accept?
    requires Claim(job, grant, fence, job.head.spec.stages[n].id, attempt, now).value.None?
    ensures Midway(Apply(p, job, DoClaim(grant, fence, job.head.spec.stages[n].id, attempt, now)), fence,
                   expected + [Bypassed], n + 1)
  {
    var step := DoClaim(grant, fence, job.head.spec.stages[n].id, attempt, now);
    FindIndex(job.head.spec, n);
    StepKeepsSound(p, job, step);
    StepCharged(p, job, step);
    SkippedRows(job, grant, fence, expected, n, attempt, now);
  }

  lemma SkippedRows(job: Job, grant: Grant, fence: Fence, expected: seq<Outcome>, n: nat, attempt: string, now: int)
    requires Sound(job) && n < |job.rows| && RowsAt(job, expected, n)
    requires Find(job.head.spec.stages, job.head.spec.stages[n].id) == Some(n)
    requires Claim(job, grant, fence, job.head.spec.stages[n].id, attempt, now).Accept?
    requires Claim(job, grant, fence, job.head.spec.stages[n].id, attempt, now).value.None?
    ensures var after := Claim(job, grant, fence, job.head.spec.stages[n].id, attempt, now).job;
            && after.head.state == job.head.state && after.head.cancelRequested == job.head.cancelRequested
            && after.head.runner == job.head.runner && after.head.epoch == job.head.epoch
            && RowsAt(after, expected + [Bypassed], n + 1)
  {
    var after := Claim(job, grant, fence, job.head.spec.stages[n].id, attempt, now).job;
    ClaimedRow(job, grant, fence, job.head.spec.stages[n].id, attempt, now);
    ClaimKeepsHead(job, grant, fence, job.head.spec.stages[n].id, attempt, now);
    RowsExtend(job, after, expected, n, Bypassed);
  }

  /** A claim changes neither state nor ownership. */
  lemma ClaimKeepsHead(job: Job, grant: Grant, fence: Fence, id: string, attempt: string, now: int)
    requires Shaped(job)
    ensures var after := After(job, Claim(job, grant, fence, id, attempt, now));
            && after.head.state == job.head.state && after.head.cancelRequested == job.head.cancelRequested
            && after.head.runner == job.head.runner && after.head.epoch == job.head.epoch
            && |after.rows| == |job.rows|
  {
  }

  /** A started stage: its row is the only one in flight. */
  ghost predicate Started(job: Job, fence: Fence, expected: seq<Outcome>, n: nat, attempt: string) {
    && Sound(job) && Charged(job)
    && Holds(job, fence) && job.head.state.Running? && !job.head.cancelRequested
    && n < |job.rows| && AttemptLive(job.rows[n], fence.epoch, attempt)
    && RowsAt(job.(rows := job.rows[n := StageRow(Pending, None, None, None)]), expected, n)
  }

  lemma StartMoves(p: Platform, job: Job, grant: Grant, fence: Fence, expected: seq<Outcome>, n: nat, attempt: string,
                   now: int)
    requires Midway(job, fence, expected, n) && n < |job.rows|
    requires Claim(job, grant, fence, job.head.spec.stages[n].id, attempt, now).Accept?
    requires Claim(job, grant, fence, job.head.spec.stages[n].id, attempt, now).value.Some?
    ensures Started(Apply(p, job, DoClaim(grant, fence, job.head.spec.stages[n].id, attempt, now)), fence, expected, n,
                    attempt)
  {
    var step := DoClaim(grant, fence, job.head.spec.stages[n].id, attempt, now);
    FindIndex(job.head.spec, n);
    StepKeepsSound(p, job, step);
    StepCharged(p, job, step);
    StartedRows(job, grant, fence, expected, n, attempt, now);
  }

  lemma StartedRows(job: Job, grant: Grant, fence: Fence, expected: seq<Outcome>, n: nat, attempt: string, now: int)
    requires Sound(job) && n < |job.rows| && RowsAt(job, expected, n)
    requires Find(job.head.spec.stages, job.head.spec.stages[n].id) == Some(n)
    requires Claim(job, grant, fence, job.head.spec.stages[n].id, attempt, now).Accept?
    requires Claim(job, grant, fence, job.head.spec.stages[n].id, attempt, now).value.Some?
    ensures var after := Claim(job, grant, fence, job.head.spec.stages[n].id, attempt, now).job;
            && |after.rows| == |job.rows| && AttemptLive(after.rows[n], fence.epoch, attempt)
            && after.head.state == job.head.state && after.head.cancelRequested == job.head.cancelRequested
            && after.head.runner == job.head.runner && after.head.epoch == job.head.epoch
            && RowsAt(after.(rows := after.rows[n := StageRow(Pending, None, None, None)]), expected, n)
  {
    ClaimedRow(job, grant, fence, job.head.spec.stages[n].id, attempt, now);
  }

  /** The worker's answer completes the started stage with the evaluation's outcome. */
  lemma AnswerMoves(p: Platform, worker: Worker, job: Job, fence: Fence, expected: seq<Outcome>, n: nat,
                    attempt: string, raw: RawResult, now: int)
    requires Started(job, fence, expected, n, attempt) && now < job.head.spec.limits.deadline
    requires raw.toolCalls == [] && SafeResult(p, raw, job.head.spec.stages[n]).Some?
    ensures Midway(Apply(p, job, DoComplete(fence, job.head.spec.stages[n].id, attempt, raw, now)), fence,
                   expected + [Produced(SafeResult(p, raw, job.head.spec.stages[n]).value)], n + 1)
  {
    var step := DoComplete(fence, job.head.spec.stages[n].id, attempt, raw, now);
    FindIndex(job.head.spec, n);
    StepKeepsSound(p, job, step);
    StepCharged(p, job, step);
    AnsweredRows(p, job, fence, expected, n, attempt, raw, now);
  }

  lemma AnsweredRows(p: Platform, job: Job, fence: Fence, expected: seq<Outcome>, n: nat, attempt: string,
                     raw: RawResult, now: int)
    requires Sound(job) && n < |job.rows| && Holds(job, fence) && job.head.state.Running? && !job.head.cancelRequested
    requires AttemptLive(job.rows[n], fence.epoch, attempt) && now < job.head.spec.limits.deadline
    requires RowsAt(job.(rows := job.rows[n := StageRow(Pending, None, None, None)]), expected, n)
    requires Find(job.head.spec.stages, job.head.spec.stages[n].id) == Some(n)
    requires raw.toolCalls == [] && SafeResult(p, raw, job.head.spec.stages[n]).Some?
    ensures var reply := Complete(p, job, fence, job.head.spec.stages[n].id, attempt, raw, now);
            && reply.Accept?
            && reply.job.head.state == job.head.state && reply.job.head.cancelRequested == job.head.cancelRequested
            && reply.job.head.runner == job.head.runner && reply.job.head.epoch == job.head.epoch
            && RowsAt(reply.job, expected + [Produced(SafeResult(p, raw, job.head.spec.stages[n]).value)], n + 1)
  {
    var before := job.(rows := job.rows[n := StageRow(Pending, None, None, None)]);
    var after := Complete(p, job, fence, job.head.spec.stages[n].id, attempt, raw, now).job;
    CompletedRow(p, job, fence, job.head.spec.stages[n].id, attempt, raw, now);
    assert after.rows == before.rows[n := after.rows[n]];
    RowsExtend(before, after, expected, n, Produced(SafeResult(p, raw, job.head.spec.stages[n]).value));
  }

  /** One stage of the undisturbed run. */
  lemma OneStage(p: Platform, worker: Worker, w: World, grant: Grant, fence: Fence, expected: seq<Outcome>, n: nat,
                 attempt: string, now: int) returns (steps: seq<WorldStep>)
    requires Midway(w.job, fence, expected, n) && n < |w.job.rows|
    requires w.job.head.spec.routeId in grant.routes && now < w.job.head.spec.limits.deadline
    requires EvaluateStage(p, worker, w.job.head.spec.stages, expected, w.job.head.spec.stages[n]).Some?
    ensures forall s :: s in steps ==> Allowed(s)
    ensures var outcome := EvaluateStage(p, worker, w.job.head.spec.stages, expected, w.job.head.spec.stages[n]).value;
            Midway(Unfold(p, worker, w, steps).job, fence, expected + [outcome], n + 1)
  {
    var job, stage := w.job, w.job.head.spec.stages[n];
    var claim := DoClaim(grant, fence, stage.id, attempt, now);
    var reply := Claim(job, grant, fence, stage.id, attempt, now);
    NextClaim(p, worker, job, grant, fence, expected, n, attempt, now);
    var first := Transact(claim);
    var w1 := Advance(p, worker, w, first);
    if reply.value.None? {
      SkipMoves(p, worker, job, grant, fence, expected, n, attempt, now);
      steps := [first];
      assert Unfold(p, worker, w1, []) == w1;
    } else {
      StartMoves(p, job, grant, fence, expected, n, attempt, now);
      FindIndex(job.head.spec, n);
      var order := Order(fence, stage.id, attempt, reply.value.value.artifacts);
      var raw := worker(stage, order.artifacts);
      AnswerMoves(p, worker, w1.job, fence, expected, n, attempt, raw, now);
      var second := Deliver(order, now);
      assert order in w1.orders;
      steps := [first, second];
      var w2 := Advance(p, worker, w1, second);
      assert steps[1..] == [second];
      assert Unfold(p, worker, w2, []) == w2 && Unfold(p, worker, w1, [second]) == w2;
    }
  }

  /** The undisturbed run of the first `n` stages, one after another. */
  lemma {:induction false} AllStages(p: Platform, worker: Worker, w: World, grant: Grant, fence: Fence, n: nat,
                                     attempt: string, now: int) returns (steps: seq<WorldStep>)
    requires Midway(w.job, fence, [], 0) && n <= |w.job.rows|
    requires w.job.head.spec.routeId in grant.routes && now < w.job.head.spec.limits.deadline
    requires Evaluate(p, worker, w.job.head.spec.stages, n).Some?
    ensures forall s :: s in steps ==> Allowed(s)
    ensures Midway(Unfold(p, worker, w, steps).job, fence, Evaluate(p, worker, w.job.head.spec.stages, n).value, n)
    decreases n
  {
    if n == 0 {
      steps := [];
    } else {
      var first := AllStages(p, worker, w, grant, fence, n - 1, attempt, now);
      var reached := Unfold(p, worker, w, first);
      var expected := Evaluate(p, worker, w.job.head.spec.stages, n - 1).value;
      var rest := OneStage(p, worker, reached, grant, fence, expected, n - 1, attempt, now);
      UnfoldAppend(p, worker, w, first, rest);
      steps := first + rest;
    }
  }

  lemma BeginMoves(p: Platform, owner: string, idem: string, spec: Spec, created: int, grant: Grant, token: string,
                   now: int)
    requires WellFormed(spec) && spec.routeId in grant.routes && now < spec.limits.deadline && token != ""
    ensures Midway(Apply(p, NewJob(owner, idem, spec, created), DoBegin(grant, token, now)), Fence(token, 1), [], 0)
  {
    var job := NewJob(owner, idem, spec, created);
    NewJobCharged(owner, idem, spec, created);
    StepKeepsSound(p, job, DoBegin(grant, token, now));
    StepCharged(p, job, DoBegin(grant, token, now));
  }

  lemma FinishMoves(p: Platform, job: Job, fence: Fence, expected: seq<Outcome>, now: int)
    requires Midway(job, fence, expected, |job.rows|) && job.rows != [] && expected[|job.rows| - 1].Produced?
    requires now < job.head.spec.limits.deadline
    ensures Apply(p, job, DoFinish(fence, JobState.Succeeded, now)).head.state.Succeeded?
  {
    var last := |job.rows| - 1;
    assert job.rows[last].state.Done() && expected[last] == OutcomeOf(job.rows[last]);
    assert Finish(job, fence, JobState.Succeeded, now).Accept?;
  }

  /**
   If the in-order evaluation exists and its final stage answers, there is a run from
   creation that succeeds; with `SucceededIsEvaluation`, the evaluation decides exactly
   which snapshots can succeed.
   */
  lemma SuccessIsPossible(p: Platform, worker: Worker, owner: string, idem: string, spec: Spec, created: int,
                          grant: Grant, token: string, attempt: string, now: int) returns (steps: seq<WorldStep>)
    requires WellFormed(spec) && spec.routeId in grant.routes && now < spec.limits.deadline && token != ""
    requires Evaluate(p, worker, spec.stages, |spec.stages|).Some?
    requires Evaluate(p, worker, spec.stages, |spec.stages|).value[|spec.stages| - 1].Produced?
    ensures forall s :: s in steps ==> Allowed(s)
    ensures Unfold(p, worker, World(NewJob(owner, idem, spec, created), {}), steps).job.head.state.Succeeded?
  {
    var start := World(NewJob(owner, idem, spec, created), {});
    var fence := Fence(token, 1);
    var whole := WholeRun(p, worker, owner, idem, spec, created, grant, token, attempt, now);
    var done := Unfold(p, worker, start, whole);
    FinishMoves(p, done.job, fence, Evaluate(p, worker, spec.stages, |spec.stages|).value, now);
    var finish := Transact(DoFinish(fence, JobState.Succeeded, now));
    UnfoldOne(p, worker, done, finish);
    UnfoldAppend(p, worker, start, whole, [finish]);
    steps := whole + [finish];
  }

  /** The undisturbed run from creation up to the last stage. */
  lemma WholeRun(p: Platform, worker: Worker, owner: string, idem: string, spec: Spec, created: int, grant: Grant,
                 token: string, attempt: string, now: int) returns (steps: seq<WorldStep>)
    requires WellFormed(spec) && spec.routeId in grant.routes && now < spec.limits.deadline && token != ""
    requires Evaluate(p, worker, spec.stages, |spec.stages|).Some?
    ensures forall s :: s in steps ==> Allowed(s)
    ensures Midway(Unfold(p, worker, World(NewJob(owner, idem, spec, created), {}), steps).job, Fence(token, 1),
                   Evaluate(p, worker, spec.stages, |spec.stages|).value, |spec.stages|)
  {
    var start := World(NewJob(owner, idem, spec, created), {});
    var begin := Transact(DoBegin(grant, token, now));
    var begun := Advance(p, worker, start, begin);
    BeginMoves(p, owner, idem, spec, created, grant, token, now);
    var middle := AllStages(p, worker, begun, grant, Fence(token, 1), |spec.stages|, attempt, now);
    UnfoldOne(p, worker, start, begin);
    UnfoldAppend(p, worker, start, [begin], middle);
    steps := [begin] + middle;
  }

  lemma UnfoldOne(p: Platform, worker: Worker, w: World, step: WorldStep)
    requires Shaped(w.job) && Allowed(step)
    ensures Unfold(p, worker, w, [step]) == Advance(p, worker, w, step)
  {
    var after := Advance(p, worker, w, step);
    assert Unfold(p, worker, after, []) == after;
  }

  /** Succeeding is possible if and only if the evaluation exists and its final stage answers. */
  lemma SuccessDecided(p: Platform, worker: Worker, owner: string, idem: string, spec: Spec, created: int, grant: Grant,
                       token: string, attempt: string, now: int)
    requires WellFormed(spec) && spec.routeId in grant.routes && now < spec.limits.deadline && token != ""
    ensures (exists steps :: (forall s :: s in steps ==> Allowed(s))
                             && Unfold(p, worker, World(NewJob(owner, idem, spec, created), {}),
                                       steps).job.head.state.Succeeded?)
            <==> Evaluate(p, worker, spec.stages, |spec.stages|).Some?
                 && Evaluate(p, worker, spec.stages, |spec.stages|).value[|spec.stages| - 1].Produced?
  {
    var r := Evaluate(p, worker, spec.stages, |spec.stages|);
    if r.Some? && r.value[|spec.stages| - 1].Produced? {
      var steps := SuccessIsPossible(p, worker, owner, idem, spec, created, grant, token, attempt, now);
    }
    forall steps | (forall s :: s in steps ==> Allowed(s))
                   && Unfold(p, worker, World(NewJob(owner, idem, spec, created), {}), steps).job.head.state.Succeeded?
      ensures r.Some? && r.value[|spec.stages| - 1].Produced?
    {
      SucceededIsEvaluation(p, worker, owner, idem, spec, created, steps);
    }
  }
}
