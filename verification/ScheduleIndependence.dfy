/**
 Schedule independence.  `Evaluate` is a plain in-order evaluation of the stage
 graph.  Whatever runners, slices, pauses, recoveries, cancellations and clocks do
 to a job, if it reaches `succeeded` then its rows are that evaluation.

 Hypothesis: the worker is a function of the stage and the artifacts it was handed.
 */
module ScheduleIndependence {
  import opened Basics
  import opened Contracts
  import opened Journal
  import opened JournalInvariants

  type Worker = (Stage, Artifacts) -> RawResult

  // ---- the reference evaluation ------------------------------------------------------------

  datatype Outcome = Produced(artifact: Artifact) | Bypassed

  /** A dependency as the evaluation sees it: None when it may not be read. */
  function Input(stages: seq<Stage>, done: seq<Outcome>, reader: Stage, dependency: string): Option<Option<Artifact>> {
    match Find(stages, dependency)
    case None => None
    case Some(k) =>
      if |done| <= k then None
      else if done[k].Produced? then Some(Some(done[k].artifact))
      else if reader.id == SYNTHESIS && dependency == DEBATE then Some(None)
      else None
  }

  function Inputs(stages: seq<Stage>, done: seq<Outcome>, reader: Stage): Option<Artifacts> {
    if forall d | d in reader.dependencies :: Input(stages, done, reader, d).Some?
    then Some(map d | d in reader.dependencies :: Input(stages, done, reader, d).value)
    else None
  }

  function EvaluateStage(p: Platform, worker: Worker, stages: seq<Stage>, done: seq<Outcome>,
                         stage: Stage): Option<Outcome>
  {
    match Inputs(stages, done, stage)
    case None => None
    case Some(artifacts) =>
      if stage.condition.Some? && Decision(artifacts).None? then None
      else if stage.condition.Some? && !Decision(artifacts).value then Some(Bypassed)
      else
        var raw := worker(stage, artifacts);
        var safe := SafeResult(p, raw, stage);
        if safe.None? || raw.toolCalls != [] then None else Some(Produced(safe.value))
  }

  /** The first `n` stages evaluated in order; None when one of them cannot complete. */
  function Evaluate(p: Platform, worker: Worker, stages: seq<Stage>, n: nat): (r: Option<seq<Outcome>>)
    requires n <= |stages|
    ensures r.Some? ==> |r.value| == n
  {
    if n == 0 then Some([])
    else
      match Evaluate(p, worker, stages, n - 1)
      case None => None
      case Some(done) =>
        match EvaluateStage(p, worker, stages, done, stages[n - 1])
        case None => None
        case Some(outcome) => Some(done + [outcome])
  }

  // ---- runs in which every result comes from the worker ----------------------------------------

  /** A claim handed out and not yet answered. */
  datatype Order = Order(fence: Fence, stageId: string, attempt: string, artifacts: Artifacts)

  datatype World = World(job: Job, orders: set<Order>)

  /**
   `Deliver` answers an outstanding order with the worker's result, at any later
   time and any number of times; every other transaction is free.
   */
  datatype WorldStep =
    | Transact(step: JobStep)
    | Deliver(order: Order, now: int)

  predicate Allowed(step: WorldStep) {
    step.Transact? ==> !step.step.DoComplete?
  }

  function Advance(p: Platform, worker: Worker, w: World, step: WorldStep): (after: World)
    requires Shaped(w.job) && Allowed(step)
    ensures Shaped(after.job) && after.job.head.spec == w.job.head.spec
  {
    match step
    case Transact(s) =>
      var next := Apply(p, w.job, s);
      World(next, w.orders + NewOrders(w.job, s))
    case Deliver(order, now) =>
      if order !in w.orders then w
      else
        var found := Find(w.job.head.spec.stages, order.stageId);
        if found.None? then w
        else
          var raw := worker(w.job.head.spec.stages[found.value], order.artifacts);
          w.(job := Apply(p, w.job, DoComplete(order.fence, order.stageId, order.attempt, raw, now)))
  }

  function NewOrders(job: Job, s: JobStep): set<Order>
    requires Shaped(job)
  {
    match s
    case DoClaim(grant, fence, id, attempt, now) =>
      (match Claim(job, grant, fence, id, attempt, now)
       case Accept(_, Some(ticket)) => {Order(fence, id, ticket.attempt, ticket.artifacts)}
       case _ => {})
    case _ => {}
  }

  function Unfold(p: Platform, worker: Worker, w: World, steps: seq<WorldStep>): (after: World)
    requires Shaped(w.job)
    requires forall s :: s in steps ==> Allowed(s)
    ensures Shaped(after.job) && after.job.head.spec == w.job.head.spec
    decreases |steps|
  {
    if steps == [] then w
    else
      assert steps[0] in steps;
      Unfold(p, worker, Advance(p, worker, w, steps[0]), steps[1..])
  }

  // ---- the invariant -----------------------------------------------------------------------------

  /** Orders were handed out with the artifacts that the rows still hold. */
  ghost predicate OrderGood(job: Job, order: Order)
    requires Shaped(job)
  {
    var found := Find(job.head.spec.stages, order.stageId);
    && found.Some?
    && DependenciesUsable(job, job.head.spec.stages[found.value])
    && order.artifacts == ArtifactsFor(job, job.head.spec.stages[found.value])
    && ConditionMet(job, job.head.spec.stages[found.value])
  }

  predicate ConditionMet(job: Job, stage: Stage)
    requires Shaped(job)
  {
    stage.condition.Some? ==> Decision(ArtifactsFor(job, stage)) == Some(true)
  }

  /** Row `i` agrees with the worker, given what its dependencies hold. */
  ghost predicate RowGood(p: Platform, worker: Worker, job: Job, i: nat)
    requires Shaped(job) && i < |job.rows|
  {
    var stage := job.head.spec.stages[i];
    var raw := worker(stage, ArtifactsFor(job, stage));
    && (job.rows[i].state.Skipped? ==>
          && DependenciesUsable(job, stage)
          && stage.condition.Some?
          && Decision(ArtifactsFor(job, stage)) == Some(false))
    && (job.rows[i].state.Completed? ==>
          && DependenciesUsable(job, stage)
          && ConditionMet(job, stage)
          && raw.toolCalls == []
          && SafeResult(p, raw, stage).Some?
          && job.rows[i].result == SafeResult(p, raw, stage))
  }

  ghost predicate Faithful(p: Platform, worker: Worker, w: World) {
    && Sound(w.job)
    && (forall o :: o in w.orders ==> OrderGood(w.job, o))
    && (forall i :: 0 <= i < |w.job.rows| ==> RowGood(p, worker, w.job, i))
  }

  // ---- stability: done rows never change, so neither does what was read from them ---------------

  lemma UsableStable(before: Job, after: Job, stage: Stage)
    requires Shaped(before) && Shaped(after) && Evolves(before, after)
    requires DependenciesUsable(before, stage)
    ensures DependenciesUsable(after, stage)
    ensures ArtifactsFor(after, stage) == ArtifactsFor(before, stage)
  {
    forall d | d in stage.dependencies
      ensures DependencyUsable(after, stage, d) && ArtifactOf(after, d) == ArtifactOf(before, d)
    {
      assert DependencyUsable(before, stage, d);
    }
  }

  lemma OrderStable(before: Job, after: Job, order: Order)
    requires Shaped(before) && Shaped(after) && Evolves(before, after) && OrderGood(before, order)
    ensures OrderGood(after, order)
  {
    var found := Find(before.head.spec.stages, order.stageId);
    UsableStable(before, after, before.head.spec.stages[found.value]);
  }

  /** A row that is done before a step is as good after it. */
  lemma RowStable(p: Platform, worker: Worker, before: Job, after: Job, i: nat)
    requires Shaped(before) && Shaped(after) && Evolves(before, after) && i < |before.rows|
    requires RowGood(p, worker, before, i) && before.rows[i].state.Done()
    ensures RowGood(p, worker, after, i)
  {
    UsableStable(before, after, before.head.spec.stages[i]);
  }

  // ---- each step keeps it ------------------------------------------------------------------------

  /** Steps other than claim and complete finish no row. */
  lemma NoNewDone(p: Platform, job: Job, step: JobStep)
    requires Sound(job) && !step.DoClaim? && !step.DoComplete?
    ensures var after := Apply(p, job, step);
            forall i :: 0 <= i < |job.rows| && after.rows[i].state.Done() ==> job.rows[i].state.Done()
  {
  }

  lemma ClaimedRow(job: Job, grant: Grant, fence: Fence, id: string, attempt: string, now: int)
    requires Sound(job) && Claim(job, grant, fence, id, attempt, now).Accept?
    ensures var reply := Claim(job, grant, fence, id, attempt, now);
            var k := Find(job.head.spec.stages, id).value;
            var stage := job.head.spec.stages[k];
            && DependenciesUsable(job, stage)
            && reply.job.rows == job.rows[k := reply.job.rows[k]]
            && (reply.value.None? ==>
                  reply.job.rows[k].state.Skipped? && stage.condition.Some?
                  && Decision(ArtifactsFor(job, stage)) == Some(false))
            && (reply.value.Some? ==>
                  reply.job.rows[k].state.InFlight? && ConditionMet(job, stage)
                  && reply.value.value == Ticket(attempt, ArtifactsFor(job, stage)))
  {
  }

  lemma ClaimFaithful(p: Platform, worker: Worker, w: World, step: JobStep)
    requires Faithful(p, worker, w) && step.DoClaim?
    ensures Faithful(p, worker, Advance(p, worker, w, Transact(step)))
  {
    var after := Advance(p, worker, w, Transact(step));
    var job := w.job;
    StepKeepsSound(p, job, step);
    StepPlaced(p, job, step);
    var reply := Claim(job, step.grant, step.fence, step.stageId, step.attempt, step.now);
    if reply.Accept? {
      ClaimedRow(job, step.grant, step.fence, step.stageId, step.attempt, step.now);
      var k := Find(job.head.spec.stages, step.stageId).value;
      UsableStable(job, after.job, job.head.spec.stages[k]);
      forall i | 0 <= i < |job.rows| ensures RowGood(p, worker, after.job, i) {
        if i != k && job.rows[i].state.Done() {
          RowStable(p, worker, job, after.job, i);
        }
      }
      forall o | o in after.orders ensures OrderGood(after.job, o) {
        if o in w.orders {
          OrderStable(job, after.job, o);
        }
      }
    }
  }

  lemma QuietFaithful(p: Platform, worker: Worker, w: World, step: JobStep)
    requires Faithful(p, worker, w) && !step.DoClaim? && !step.DoComplete?
    ensures Faithful(p, worker, Advance(p, worker, w, Transact(step)))
  {
    var after := Apply(p, w.job, step);
    StepKeepsSound(p, w.job, step);
    StepPlaced(p, w.job, step);
    NoNewDone(p, w.job, step);
    forall i | 0 <= i < |w.job.rows| ensures RowGood(p, worker, after, i) {
      if after.rows[i].state.Done() {
        RowStable(p, worker, w.job, after, i);
      }
    }
    forall o | o in w.orders ensures OrderGood(after, o) {
      OrderStable(w.job, after, o);
    }
  }

  lemma CompletedRow(p: Platform, job: Job, fence: Fence, id: string, attempt: string, raw: RawResult, now: int)
    requires Sound(job) && Complete(p, job, fence, id, attempt, raw, now).Accept?
    ensures var after := Complete(p, job, fence, id, attempt, raw, now).job;
            var k := Find(job.head.spec.stages, id).value;
            && after.rows == job.rows[k := after.rows[k]]
            && !after.rows[k].state.Skipped?
            && (after.rows[k].state.Completed? ==>
                  && raw.toolCalls == []
                  && SafeResult(p, raw, job.head.spec.stages[k]).Some?
                  && after.rows[k].result == SafeResult(p, raw, job.head.spec.stages[k]))
  {
  }

  lemma DeliverFaithful(p: Platform, worker: Worker, w: World, order: Order, now: int)
    requires Faithful(p, worker, w)
    ensures Faithful(p, worker, Advance(p, worker, w, Deliver(order, now)))
  {
    var job := w.job;
    var found := Find(job.head.spec.stages, order.stageId);
    if order in w.orders && found.Some? {
      var k := found.value;
      var stage := job.head.spec.stages[k];
      var raw := worker(stage, order.artifacts);
      var step := DoComplete(order.fence, order.stageId, order.attempt, raw, now);
      var after := Apply(p, job, step);
      StepKeepsSound(p, job, step);
      StepPlaced(p, job, step);
      UsableStable(job, after, stage);
      if Complete(p, job, order.fence, order.stageId, order.attempt, raw, now).Accept? {
        CompletedRow(p, job, order.fence, order.stageId, order.attempt, raw, now);
        forall i | 0 <= i < |job.rows| ensures RowGood(p, worker, after, i) {
          if i != k && job.rows[i].state.Done() {
            RowStable(p, worker, job, after, i);
          }
        }
      }
      forall o | o in w.orders ensures OrderGood(after, o) {
        OrderStable(job, after, o);
      }
    }
  }

  lemma AdvanceFaithful(p: Platform, worker: Worker, w: World, step: WorldStep)
    requires Faithful(p, worker, w) && Allowed(step)
    ensures Faithful(p, worker, Advance(p, worker, w, step))
  {
    match step
    case Transact(s) =>
      if s.DoClaim? { ClaimFaithful(p, worker, w, s); } else { QuietFaithful(p, worker, w, s); }
    case Deliver(order, now) => DeliverFaithful(p, worker, w, order, now);
  }

  lemma {:induction false} UnfoldFaithful(p: Platform, worker: Worker, w: World, steps: seq<WorldStep>)
    requires Faithful(p, worker, w)
    requires forall s :: s in steps ==> Allowed(s)
    ensures Faithful(p, worker, Unfold(p, worker, w, steps))
    decreases |steps|
  {
    if steps != [] {
      assert steps[0] in steps;
      AdvanceFaithful(p, worker, w, steps[0]);
      UnfoldFaithful(p, worker, Advance(p, worker, w, steps[0]), steps[1..]);
    }
  }

  // ---- succeeded jobs hold the evaluation --------------------------------------------------------

  function OutcomeOf(row: StageRow): Outcome
    requires row.state.Skipped? || row.result.Some?
  {
    if row.state.Skipped? then Bypassed else Produced(row.result.value)
  }

  /** The rows say what the evaluation of the first `n` stages says. */
  ghost predicate Agrees(job: Job, outcomes: seq<Outcome>, n: nat) {
    && n <= |job.rows| && |outcomes| == n
    && forall i :: 0 <= i < n ==>
         (job.rows[i].state.Skipped? || job.rows[i].result.Some?) && outcomes[i] == OutcomeOf(job.rows[i])
  }

  lemma InputAgrees(job: Job, outcomes: seq<Outcome>, n: nat, reader: Stage, d: string)
    requires Shaped(job) && n < |job.rows| && Agrees(job, outcomes, n)
    requires Find(job.head.spec.stages, d).Some? && Find(job.head.spec.stages, d).value < n
    requires DependencyUsable(job, reader, d)
    ensures Input(job.head.spec.stages, outcomes, reader, d) == Some(ArtifactOf(job, d))
  {
    var k := Find(job.head.spec.stages, d).value;
    assert outcomes[k] == OutcomeOf(job.rows[k]);
  }

  lemma InputsAgree(job: Job, outcomes: seq<Outcome>, n: nat)
    requires Shaped(job) && WellFormed(job.head.spec) && n < |job.rows| && Agrees(job, outcomes, n)
    requires DependenciesUsable(job, job.head.spec.stages[n])
    ensures Inputs(job.head.spec.stages, outcomes, job.head.spec.stages[n])
            == Some(ArtifactsFor(job, job.head.spec.stages[n]))
  {
    var stages := job.head.spec.stages;
    var stage := stages[n];
    forall d | d in stage.dependencies
      ensures Input(stages, outcomes, stage, d) == Some(ArtifactOf(job, d))
    {
      DependencyEarlier(job.head.spec, n, d);
      InputAgrees(job, outcomes, n, stage, d);
    }
    var artifacts := map d | d in stage.dependencies :: Input(stages, outcomes, stage, d).value;
    assert artifacts == ArtifactsFor(job, stage);
  }

  lemma StageAgrees(p: Platform, worker: Worker, job: Job, done: seq<Outcome>, n: nat)
    requires Shaped(job) && n < |job.rows| && job.rows[n].state.Done() && RowGood(p, worker, job, n)
    requires Inputs(job.head.spec.stages, done, job.head.spec.stages[n])
             == Some(ArtifactsFor(job, job.head.spec.stages[n]))
    ensures job.rows[n].state.Skipped? || job.rows[n].result.Some?
    ensures EvaluateStage(p, worker, job.head.spec.stages, done, job.head.spec.stages[n])
            == Some(OutcomeOf(job.rows[n]))
  {
  }

  ghost predicate AllGood(p: Platform, worker: Worker, job: Job) {
    && Shaped(job)
    && AllDone(job.rows)
    && forall i :: 0 <= i < |job.rows| ==> RowGood(p, worker, job, i)
  }

  lemma {:induction false} EvaluationAgrees(p: Platform, worker: Worker, job: Job, n: nat)
    requires WellFormed(job.head.spec) && AllGood(p, worker, job) && n <= |job.rows|
    ensures var r := Evaluate(p, worker, job.head.spec.stages, n);
            r.Some? && Agrees(job, r.value, n)
  {
    if n > 0 {
      EvaluationAgrees(p, worker, job, n - 1);
      var done := Evaluate(p, worker, job.head.spec.stages, n - 1).value;
      NextAgrees(p, worker, job, done, n - 1);
      assert Evaluate(p, worker, job.head.spec.stages, n) == Some(done + [OutcomeOf(job.rows[n - 1])]);
    }
  }

  lemma NextAgrees(p: Platform, worker: Worker, job: Job, done: seq<Outcome>, n: nat)
    requires WellFormed(job.head.spec) && AllGood(p, worker, job) && n < |job.rows| && Agrees(job, done, n)
    ensures job.rows[n].state.Skipped? || job.rows[n].result.Some?
    ensures EvaluateStage(p, worker, job.head.spec.stages, done, job.head.spec.stages[n])
            == Some(OutcomeOf(job.rows[n]))
    ensures Agrees(job, done + [OutcomeOf(job.rows[n])], n + 1)
  {
    assert RowGood(p, worker, job, n);
    assert job.rows[n].state.Done();
    InputsAgree(job, done, n);
    StageAgrees(p, worker, job, done, n);
  }

  /** `result`: available only when succeeded, and then the last stage's stored content and tool calls. */
  function PublicResult(job: Job): Option<(string, seq<string>)>
    requires Shaped(job) && job.rows != []
  {
    var last := job.rows[|job.rows| - 1];
    if job.head.state.Succeeded? && last.result.Some?
    then Some((last.result.value.content, last.result.value.toolCalls)) else None
  }

  /**
   Every run from creation that reaches `succeeded` leaves exactly the results of the
   in-order evaluation, debate skip included, and `result` is its last entry.
   */
  lemma SucceededIsEvaluation(p: Platform, worker: Worker, owner: string, idem: string, spec: Spec, created: int,
                              steps: seq<WorldStep>)
    requires WellFormed(spec)
    requires forall s :: s in steps ==> Allowed(s)
    ensures var n := |spec.stages|;
            var job := Unfold(p, worker, World(NewJob(owner, idem, spec, created), {}), steps).job;
            var expected := Evaluate(p, worker, spec.stages, n);
            job.head.state.Succeeded? ==>
              && expected.Some?
              && Agrees(job, expected.value, n)
              && expected.value[n - 1].Produced?
              && PublicResult(job) ==
                   Some((expected.value[n - 1].artifact.content, expected.value[n - 1].artifact.toolCalls))
  {
    var start := World(NewJob(owner, idem, spec, created), {});
    NewJobControl(owner, idem, spec, created);
    UnfoldFaithful(p, worker, start, steps);
    var w := Unfold(p, worker, start, steps);
    if w.job.head.state.Succeeded? {
      EvaluationAgrees(p, worker, w.job, |spec.stages|);
    }
  }

  /** Two successful runs of the same snapshot hold the same results, whoever scheduled them. */
  lemma ScheduleIndependent(p: Platform, worker: Worker, owner: string, idem: string, spec: Spec,
                            created1: int, steps1: seq<WorldStep>, created2: int, steps2: seq<WorldStep>)
    requires WellFormed(spec)
    requires (forall s :: s in steps1 ==> Allowed(s)) && (forall s :: s in steps2 ==> Allowed(s))
    ensures var a := Unfold(p, worker, World(NewJob(owner, idem, spec, created1), {}), steps1).job;
            var b := Unfold(p, worker, World(NewJob(owner, idem, spec, created2), {}), steps2).job;
            a.head.state.Succeeded? && b.head.state.Succeeded? ==>
              && PublicResult(a) == PublicResult(b)
              && (forall i :: 0 <= i < |spec.stages| ==>
                    a.rows[i].state == b.rows[i].state && a.rows[i].result == b.rows[i].result)
  {
    SucceededIsEvaluation(p, worker, owner, idem, spec, created1, steps1);
    SucceededIsEvaluation(p, worker, owner, idem, spec, created2, steps2);
    var a := Unfold(p, worker, World(NewJob(owner, idem, spec, created1), {}), steps1).job;
    var b := Unfold(p, worker, World(NewJob(owner, idem, spec, created2), {}), steps2).job;
    if a.head.state.Succeeded? && b.head.state.Succeeded? {
      SameOutcomes(p, worker, owner, idem, spec, created1, steps1, a);
      SameOutcomes(p, worker, owner, idem, spec, created2, steps2, b);
    }
  }

  lemma SameOutcomes(p: Platform, worker: Worker, owner: string, idem: string, spec: Spec, created: int,
                     steps: seq<WorldStep>, job: Job)
    requires WellFormed(spec) && forall s :: s in steps ==> Allowed(s)
    requires job == Unfold(p, worker, World(NewJob(owner, idem, spec, created), {}), steps).job
    requires job.head.state.Succeeded?
    ensures Sound(job)
  {
    NewJobControl(owner, idem, spec, created);
    UnfoldFaithful(p, worker, World(NewJob(owner, idem, spec, created), {}), steps);
  }

  // ---- one job at a time ------------------------------------------------------------------------

  /** Every finished row holds what the worker makes of the artifacts in the rows before it. */
  ghost predicate Computed(p: Platform, worker: Worker, job: Job) {
    Faithful(p, worker, World(job, {}))
  }

  lemma NewJobComputed(p: Platform, worker: Worker, owner: string, idem: string, spec: Spec, created: int)
    requires WellFormed(spec)
    ensures Computed(p, worker, NewJob(owner, idem, spec, created))
  {
    NewJobControl(owner, idem, spec, created);
  }

  /** A set of worlds that no step of an honest worker leaves, nor forgetting an order. */
  ghost predicate WorldsClosed(p: Platform, worker: Worker, worlds: iset<World>) {
    && (forall w, step :: w in worlds && Shaped(w.job) && Allowed(step) ==> Advance(p, worker, w, step) in worlds)
    && (forall w, orders :: w in worlds && orders <= w.orders ==> w.(orders := orders) in worlds)
  }

  /** The worlds that are faithful if `start` was computed by the worker. */
  ghost function WorldsFrom(p: Platform, worker: Worker, start: Job): iset<World> {
    iset w | Computed(p, worker, start) ==> Faithful(p, worker, w)
  }

  lemma WorldsFromClosed(p: Platform, worker: Worker, start: Job)
    ensures World(start, {}) in WorldsFrom(p, worker, start)
    ensures WorldsClosed(p, worker, WorldsFrom(p, worker, start))
  {
    var worlds := WorldsFrom(p, worker, start);
    forall w, step | w in worlds && Shaped(w.job) && Allowed(step) ensures Advance(p, worker, w, step) in worlds {
      if Computed(p, worker, start) { AdvanceFaithful(p, worker, w, step); }
    }
  }

  lemma WorldComputed(p: Platform, worker: Worker, start: Job, w: World)
    requires w in WorldsFrom(p, worker, start) && Computed(p, worker, start)
    ensures Computed(p, worker, w.job)
  {
  }

  /** The rows are the whole in-order evaluation, and `result` is its last entry. */
  ghost predicate Evaluated(p: Platform, worker: Worker, job: Job)
    requires Shaped(job) && job.rows != []
  {
    var n := |job.rows|;
    var expected := Evaluate(p, worker, job.head.spec.stages, n);
    && expected.Some? && Agrees(job, expected.value, n) && expected.value[n - 1].Produced?
    && PublicResult(job) == Some((expected.value[n - 1].artifact.content, expected.value[n - 1].artifact.toolCalls))
  }

  lemma ComputedSuccess(p: Platform, worker: Worker, job: Job)
    requires Computed(p, worker, job) && job.head.state.Succeeded?
    ensures Evaluated(p, worker, job)
  {
    EvaluationAgrees(p, worker, job, |job.rows|);
  }

  /** Anything but a completion keeps a job computed. */
  lemma {:induction false} QuietRunComputed(p: Platform, worker: Worker, job: Job, steps: seq<JobStep>)
    requires Computed(p, worker, job) && forall s :: s in steps ==> !s.DoComplete?
    ensures Computed(p, worker, Run(p, job, steps))
    decreases |steps|
  {
    if steps != [] {
      assert steps[0] in steps;
      AdvanceFaithful(p, worker, World(job, {}), Transact(steps[0]));
      QuietRunComputed(p, worker, Apply(p, job, steps[0]), steps[1..]);
    }
  }
}
