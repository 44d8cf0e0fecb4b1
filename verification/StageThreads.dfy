/**
 The stage threads of the batch scheduler (execution/runner.py `perform`).  Each started
 stage is a thread that moves one store transaction at a time; an oracle decides which
 thread moves next, when the main loop polls, what the clocks and grants say, and which
 transactions other parties commit in between.  All results are for every oracle.
 */
module StageThreads {
  import opened Basics
  import opened Contracts
  import opened Journal
  import opened JournalInvariants
  import opened Guarantees
  import opened ScheduleIndependence
  import opened Scheduling

  /** The exception classes `run` tells apart. */
  datatype Failure = Expiry | Cancellation | Other

  datatype Ending = Returned(raw: RawResult) | Threw(cause: Failure)

  /** What the worker does for a stage: publish some provider fragments, then return or raise. */
  datatype Script = Script(fragments: seq<string>, ending: Ending)

  type Callback = (Stage, Artifacts) -> Script

  /** The worker's answers as a function of the stage and its artifacts. */
  function WorkerOf(callback: Callback): Worker {
    (stage, artifacts) =>
      match callback(stage, artifacts).ending
      case Returned(raw) => raw
      case Threw(_) => RawResult(None, [], 0, 0, None)
  }

  /** `persist` cuts a provider fragment at the journal's per-row bound. */
  function Pieces(fragment: string): (pieces: seq<string>)
    ensures Join(pieces) == fragment
    ensures forall i :: 0 <= i < |pieces| ==> |pieces[i]| <= MAX_FRAGMENT_CHARS
    ensures fragment != "" ==> forall i :: 0 <= i < |pieces| ==> pieces[i] != ""
    decreases |fragment|
  {
    if |fragment| <= MAX_FRAGMENT_CHARS then [fragment]
    else
      var rest := Pieces(fragment[MAX_FRAGMENT_CHARS..]);
      JoinAppend([fragment[..MAX_FRAGMENT_CHARS]], rest);
      assert fragment == fragment[..MAX_FRAGMENT_CHARS] + fragment[MAX_FRAGMENT_CHARS..];
      [fragment[..MAX_FRAGMENT_CHARS]] + rest
  }

  function AllPieces(fragments: seq<string>): seq<string> {
    if fragments == [] then [] else Pieces(fragments[0]) + AllPieces(fragments[1..])
  }

  /** Cutting loses nothing: the pieces of an answer spell the answer. */
  lemma {:induction false} PiecesSpell(fragments: seq<string>)
    ensures Join(AllPieces(fragments)) == Join(fragments)
  {
    if fragments != [] {
      PiecesSpell(fragments[1..]);
      JoinAppend(Pieces(fragments[0]), AllPieces(fragments[1..]));
    }
  }

  /** One observation of the outside world, taken before each transaction. */
  datatype Moment = Moment(
    others: seq<JobStep>,
    grant: Grant,
    clock: real,
    wall: int,
    now: int,
    attempt: string,
    pick: nat,
    poll: bool
  )

  /** Anyone else's step: it does not use this runner's secret token, except to recover it. */
  predicate Foreign(step: JobStep, token: string) {
    match step
    case DoBegin(_, runner, _) => runner != token
    case DoClaim(_, fence, _, _, _) => fence.runner != token
    case DoComplete(fence, _, _, _, _) => fence.runner != token
    case DoFailStage(fence, _, _, _) => fence.runner != token
    case DoPublish(_, fence, _, _, _, _) => fence.runner != token
    case DoCancel(_) => true
    case DoFinish(fence, _, _) => fence.runner != token
    case DoFinishUnreadable(fence, _, _) => fence.runner != token
    case DoRecover(_, _) => true
  }

  ghost predicate Discreet(oracle: nat -> Moment, token: string) {
    forall i: nat, s :: s in oracle(i).others ==> Foreign(s, token)
  }

  /** Nobody else completes stages while this runner is at work. */
  ghost predicate Alone(oracle: nat -> Moment) {
    forall i: nat, s :: s in oracle(i).others ==> !s.DoComplete?
  }

  /**
   Nobody interferes, the grant stays good, and every clock reads a time before every
   deadline: the job's, the run's, and that of any stage whenever it was claimed.
   */
  ghost predicate Undisturbed(oracle: nat -> Moment, owner: string, spec: Spec, startedClock: real, deadline: real) {
    && (forall i: nat :: oracle(i).others == [])
    && Steady(oracle, owner, spec, startedClock) && Timely(oracle, spec, deadline)
  }

  /** The grant stays good and the clock does not run backwards past the start. */
  ghost predicate Steady(oracle: nat -> Moment, owner: string, spec: Spec, startedClock: real) {
    forall i: nat ::
      && oracle(i).grant.owner == owner && spec.routeId in oracle(i).grant.routes
      && startedClock <= oracle(i).clock
  }

  /** No deadline is ever reached: the job's, the run's, or that of a stage whenever it was claimed. */
  ghost predicate Timely(oracle: nat -> Moment, spec: Spec, deadline: real) {
    && (forall i: nat ::
          && oracle(i).clock < deadline
          && oracle(i).wall < spec.limits.deadline && oracle(i).now < spec.limits.deadline)
    && (forall i: nat, j: nat :: oracle(i).clock < oracle(j).clock + spec.limits.stageTimeout)
  }

  /** Nobody requests cancellation meanwhile. */
  ghost predicate Uncancelled(oracle: nat -> Moment) {
    forall i: nat, s :: s in oracle(i).others ==> !s.DoCancel?
  }

  /** The worker never raises an expiry or a cancellation of its own. */
  ghost predicate Tame(callback: Callback) {
    forall stage, artifacts :: callback(stage, artifacts).ending.Threw? ==>
        callback(stage, artifacts).ending.cause.Other?
  }

  /** Nobody confirms that this runner crashed. */
  ghost predicate Unrecovered(oracle: nat -> Moment, token: string) {
    forall i: nat, s :: s in oracle(i).others ==> !Recovers(s, token)
  }

  predicate Recovers(step: JobStep, token: string) {
    step.DoRecover? && step.fence.runner == token
  }

  /** The only thing that happens is that this runner is recovered, and at once. */
  ghost predicate RecoveredAtOnce(oracle: nat -> Moment, fence: Fence) {
    && oracle(0).others != []
    && forall i: nat, s :: s in oracle(i).others ==> s.DoRecover? && s.fence == fence
  }

  /** While the fence holds, the rows are what this runner last made them. */
  ghost predicate Known(job: Job, fence: Fence, view: seq<StageRow>) {
    && Sound(job)
    && fence.runner != "" && fence.epoch <= job.head.epoch
    && |view| == |job.rows|
    && (Holds(job, fence) ==> job.rows == view)
  }

  lemma ForeignStep(p: Platform, job: Job, step: JobStep, fence: Fence)
    requires Sound(job) && Foreign(step, fence.runner) && Holds(job, fence)
    ensures Holds(Apply(p, job, step), fence) ==> Apply(p, job, step).rows == job.rows
  {
  }

  lemma ForeignStepKnown(p: Platform, job: Job, step: JobStep, fence: Fence, view: seq<StageRow>)
    requires Known(job, fence, view) && Foreign(step, fence.runner)
    ensures Known(Apply(p, job, step), fence, view)
    ensures Holds(Apply(p, job, step), fence) ==> Holds(job, fence)
  {
    StepKeepsSound(p, job, step);
    StepPlaced(p, job, step);
    if Holds(job, fence) {
      ForeignStep(p, job, step, fence);
    } else {
      StepKeepsSuperseded(p, job, step, fence);
    }
  }

  lemma {:induction false} ForeignRunKnown(p: Platform, job: Job, steps: seq<JobStep>, fence: Fence,
                                           view: seq<StageRow>)
    requires Known(job, fence, view) && forall s :: s in steps ==> Foreign(s, fence.runner)
    ensures Known(Run(p, job, steps), fence, view)
    ensures Holds(Run(p, job, steps), fence) ==> Holds(job, fence)
    ensures Run(p, job, steps).head.owner == job.head.owner
    decreases |steps|
  {
    if steps != [] {
      assert steps[0] in steps;
      ForeignStepKnown(p, job, steps[0], fence, view);
      ForeignRunKnown(p, Apply(p, job, steps[0]), steps[1..], fence, view);
    }
  }

  /** Exactly a recovery of the fence takes it from its owner. */
  lemma {:induction false} FenceLostExactly(p: Platform, job: Job, steps: seq<JobStep>, fence: Fence)
    requires Sound(job) && Holds(job, fence) && forall s :: s in steps ==> Foreign(s, fence.runner)
    ensures Holds(Run(p, job, steps), fence) <==> forall s :: s in steps ==> !(s.DoRecover? && s.fence == fence)
    decreases |steps|
  {
    if steps != [] {
      var next := Apply(p, job, steps[0]);
      assert steps[0] in steps && steps == [steps[0]] + steps[1..];
      StepKeepsSound(p, job, steps[0]);
      if steps[0].DoRecover? && steps[0].fence == fence {
        StepPlaced(p, job, steps[0]);
        RunKeepsSuperseded(p, next, steps[1..], fence);
      } else {
        FenceKept(p, job, steps[0], fence);
        FenceLostExactly(p, next, steps[1..], fence);
      }
    }
  }

  lemma {:induction false} UncancelledRun(p: Platform, job: Job, steps: seq<JobStep>)
    requires Shaped(job) && forall s :: s in steps ==> !s.DoCancel?
    ensures Run(p, job, steps).head.cancelRequested == job.head.cancelRequested
    decreases |steps|
  {
    if steps != [] {
      assert steps[0] in steps;
      UncancelledStep(p, job, steps[0]);
      UncancelledRun(p, Apply(p, job, steps[0]), steps[1..]);
    }
  }

  lemma UncancelledStep(p: Platform, job: Job, step: JobStep)
    requires Shaped(job) && !step.DoCancel?
    ensures Apply(p, job, step).head.cancelRequested == job.head.cancelRequested
  {
  }

  /** A running job with a clean frontier is paused by its recovery, and then stays so. */
  lemma {:induction false} RecoveredPauses(p: Platform, job: Job, steps: seq<JobStep>, fence: Fence)
    requires Sound(job) && forall s :: s in steps ==> s.DoRecover? && s.fence == fence
    requires (Holds(job, fence) && CleanFrontier(job.rows) && !job.head.cancelRequested)
             || (job.head.runner.None? && job.head.state.Paused?)
    ensures var after := Run(p, job, steps);
            && after.rows == job.rows && after.head.cancelRequested == job.head.cancelRequested
            && (steps != [] || job.head.runner.None? ==> after.head.runner.None? && after.head.state.Paused?)
    decreases |steps|
  {
    if steps != [] {
      assert steps[0] in steps;
      RecoveredOnce(p, job, steps[0], fence);
      StepKeepsSound(p, job, steps[0]);
      RecoveredPauses(p, Apply(p, job, steps[0]), steps[1..], fence);
    }
  }

  lemma RecoveredOnce(p: Platform, job: Job, step: JobStep, fence: Fence)
    requires Sound(job) && step.DoRecover? && step.fence == fence
    requires (Holds(job, fence) && CleanFrontier(job.rows) && !job.head.cancelRequested)
             || (job.head.runner.None? && job.head.state.Paused?)
    ensures var after := Apply(p, job, step);
            && after.rows == job.rows && after.head.cancelRequested == job.head.cancelRequested
            && after.head.runner.None? && after.head.state.Paused?
  {
    if Holds(job, fence) {
      assert Quarantined(job.rows) == job.rows;
    }
  }

  /** Nothing that others do changes the answer text while the fence holds. */
  lemma {:induction false} ForeignRunSilent(p: Platform, job: Job, steps: seq<JobStep>, fence: Fence,
                                            view: seq<StageRow>)
    requires Known(job, fence, view) && forall s :: s in steps ==> Foreign(s, fence.runner)
    ensures Holds(Run(p, job, steps), fence) ==> Run(p, job, steps).fragments == job.fragments
    decreases |steps|
  {
    if steps != [] {
      assert steps[0] in steps;
      ForeignStepKnown(p, job, steps[0], fence, view);
      ForeignRunSilent(p, Apply(p, job, steps[0]), steps[1..], fence, view);
      ForeignRunKnown(p, Apply(p, job, steps[0]), steps[1..], fence, view);
    }
  }

  /** What others may have made of the job when the runner looks again. */
  lemma OthersCommit(p: Platform, job: Job, steps: seq<JobStep>, fence: Fence, view: seq<StageRow>, reach: iset<Job>,
                     after: Job)
    requires Known(job, fence, view) && forall s :: s in steps ==> Foreign(s, fence.runner)
    requires StepClosed(p, reach) && job in reach && after == Run(p, job, steps)
    ensures Known(after, fence, view) && after.head.owner == job.head.owner && after.head.spec == job.head.spec
    ensures after.rows != [] && after in reach
    ensures Holds(after, fence) ==> Holds(job, fence) && after.fragments == job.fragments
    ensures Holds(job, fence) && (forall s :: s in steps ==> !Recovers(s, fence.runner)) ==> Holds(after, fence)
  {
    ForeignRunKnown(p, job, steps, fence, view);
    ForeignRunSilent(p, job, steps, fence, view);
    RunInReach(p, reach, job, steps);
    if Holds(job, fence) { FenceLostExactly(p, job, steps, fence); }
  }

  /** Steps of the runner itself that leave the rows alone. */
  lemma ForwardStep(p: Platform, job: Job, step: JobStep, fence: Fence, view: seq<StageRow>)
    requires Known(job, fence, view) && step.DoPublish?
    ensures Known(Apply(p, job, step), fence, view)
    ensures Holds(Apply(p, job, step), fence) <==> Holds(job, fence)
  {
    StepKeepsSound(p, job, step);
  }

  lemma ClaimObserved(p: Platform, job: Job, grant: Grant, fence: Fence, i: nat, attempt: string, now: int)
    requires Sound(job) && i < |job.rows| && Find(job.head.spec.stages, job.head.spec.stages[i].id) == Some(i)
    ensures var reply := Claim(job, grant, fence, job.head.spec.stages[i].id, attempt, now);
            reply.Accept? ==>
              && Sound(reply.job) && Holds(job, fence) && Holds(reply.job, fence)
              && reply.job.rows == job.rows[i := reply.job.rows[i]]
              && (reply.value.None? ==> reply.job.rows[i].state.Skipped?)
              && (reply.value.Some? ==>
                    reply.value.value.attempt == attempt && AttemptLive(reply.job.rows[i], fence.epoch, attempt))
  {
    StepKeepsSound(p, job, DoClaim(grant, fence, job.head.spec.stages[i].id, attempt, now));
  }

  lemma CompleteObserved(p: Platform, job: Job, fence: Fence, i: nat, attempt: string, raw: RawResult, now: int)
    requires Sound(job) && i < |job.rows| && Find(job.head.spec.stages, job.head.spec.stages[i].id) == Some(i)
    ensures var reply := Complete(p, job, fence, job.head.spec.stages[i].id, attempt, raw, now);
            reply.Accept? ==>
              && Sound(reply.job) && Holds(job, fence) && Holds(reply.job, fence)
              && reply.job.rows == job.rows[i := reply.job.rows[i]]
              && reply.job.rows[i].state == reply.value && !reply.value.InFlight?
  {
    StepKeepsSound(p, job, DoComplete(fence, job.head.spec.stages[i].id, attempt, raw, now));
  }

  lemma FailObserved(p: Platform, job: Job, fence: Fence, i: nat, attempt: string, now: int)
    requires Sound(job) && i < |job.rows| && Find(job.head.spec.stages, job.head.spec.stages[i].id) == Some(i)
    ensures var reply := FailStage(job, fence, job.head.spec.stages[i].id, attempt, now);
            && (reply.Accept? ==>
              && Sound(reply.job) && Holds(job, fence) && Holds(reply.job, fence)
              && reply.job.rows == job.rows[i := reply.job.rows[i]]
              && reply.job.rows[i].state.StageFailed?)
            && (Holds(job, fence) && AttemptLive(job.rows[i], fence.epoch, attempt) ==> reply.Accept?)
  {
    StepKeepsSound(p, job, DoFailStage(fence, job.head.spec.stages[i].id, attempt, now));
  }

  /**
   Others change nothing that the worker's answers depend on, as long as the fence holds
   or nobody else completes stages.
   */
  lemma ForeignStepWorld(p: Platform, worker: Worker, worlds: iset<World>, job: Job, step: JobStep, fence: Fence,
                         orders: set<Order>)
    requires Shaped(job) && Foreign(step, fence.runner) && (Holds(job, fence) || !step.DoComplete?)
    requires WorldsClosed(p, worker, worlds) && World(job, orders) in worlds
    ensures World(Apply(p, job, step), orders) in worlds
  {
    if step.DoComplete? {
      assert Apply(p, job, step) == job;
    } else {
      var next := Advance(p, worker, World(job, orders), Transact(step));
      assert next in worlds && orders <= next.orders;
      assert next.(orders := orders) in worlds;
    }
  }

  lemma {:induction false} ForeignRunWorld(p: Platform, worker: Worker, worlds: iset<World>, job: Job,
                                           steps: seq<JobStep>, fence: Fence, view: seq<StageRow>,
                                           orders: set<Order>, alone: bool)
    requires Known(job, fence, view) && forall s :: s in steps ==>
               Foreign(s, fence.runner) && (alone ==> !s.DoComplete?)
    requires WorldsClosed(p, worker, worlds) && (alone || Holds(job, fence) ==> World(job, orders) in worlds)
    ensures alone || Holds(Run(p, job, steps), fence) ==> World(Run(p, job, steps), orders) in worlds
    decreases |steps|
  {
    if steps != [] {
      assert steps[0] in steps;
      ForeignStepKnown(p, job, steps[0], fence, view);
      if alone || Holds(job, fence) { ForeignStepWorld(p, worker, worlds, job, steps[0], fence, orders); }
      ForeignRunWorld(p, worker, worlds, Apply(p, job, steps[0]), steps[1..], fence, view, orders, alone);
    }
  }

  /** A transaction of the runner itself, other than a completion. */
  lemma OwnStepWorld(p: Platform, worker: Worker, worlds: iset<World>, job: Job, step: JobStep, orders: set<Order>)
    requires Shaped(job) && !step.DoComplete?
    requires WorldsClosed(p, worker, worlds) && World(job, orders) in worlds
    ensures World(Apply(p, job, step), orders + NewOrders(job, step)) in worlds
  {
    assert Advance(p, worker, World(job, orders), Transact(step)) in worlds;
  }

  /** The completion of an order with the worker's answer. */
  lemma DeliveryWorld(p: Platform, worker: Worker, worlds: iset<World>, job: Job, i: nat, order: Order, raw: RawResult,
                      orders: set<Order>, now: int)
    requires Shaped(job) && i < |job.rows| && Find(job.head.spec.stages, order.stageId) == Some(i)
    requires order in orders && raw == worker(job.head.spec.stages[i], order.artifacts)
    requires WorldsClosed(p, worker, worlds) && World(job, orders) in worlds
    ensures World(Apply(p, job, DoComplete(order.fence, order.stageId, order.attempt, raw, now)), orders) in worlds
  {
    assert Advance(p, worker, World(job, orders), Deliver(order, now)) in worlds;
  }

  // ---- threads -----------------------------------------------------------------------------

  datatype Result = Outcome(state: StageState) | Raised(cause: Failure)

  datatype Phase =
    | Submitted
    | Cleared
    | Claimed(ticket: Ticket, limit: real)
    | Streaming(ticket: Ticket, limit: real, pieces: seq<string>, ending: Ending)
    | Answered(ticket: Ticket, limit: real, raw: RawResult)
    | Verified(ticket: Ticket, raw: RawResult)
    | Failing(ticket: Ticket, cause: Failure)
    | Finished(result: Result)
  {
    predicate HasTicket() {
      Claimed? || Streaming? || Answered? || Verified? || Failing?
    }
  }

  /** What a claim or a completion can end in. */
  predicate Concludes(state: StageState) {
    state.Completed? || state.Skipped? || state.StageWaitingTools? || state.StageCancelled? || state.StageExpired?
  }

  /** What a thread's phase says about its row, as long as the fence holds. */
  predicate Fits(row: StageRow, phase: Phase, epoch: nat) {
    match phase
    case Submitted => row.state.Pending?
    case Cleared => row.state.Pending?
    case Finished(Outcome(state)) => row.state == state && Concludes(state)
    case Finished(Raised(_)) => row.state.Pending? || row.state.StageFailed?
    case _ => AttemptLive(row, epoch, phase.ticket.attempt)
  }

  /** The rows during a batch: members follow their threads, the others rest. */
  ghost predicate Batched(base: seq<StageRow>, view: seq<StageRow>, batch: seq<nat>, phases: seq<Phase>, epoch: nat) {
    && |view| == |base| && |phases| == |batch|
    && CleanFrontier(base)
    && (forall k :: 0 <= k < |batch| ==> batch[k] < |base| && base[batch[k]].state.Pending?)
    && (forall j, k :: 0 <= j < k < |batch| ==> batch[j] != batch[k])
    && (forall k :: 0 <= k < |batch| ==> Fits(view[batch[k]], phases[k], epoch))
    && (forall i :: 0 <= i < |base| && i !in batch ==> view[i] == base[i])
  }

  /** The first ready stages, all just submitted. */
  lemma FreshBatch(stages: seq<Stage>, rows: seq<StageRow>, n: nat, epoch: nat)
    requires |rows| == |stages| && CleanFrontier(rows) && n <= |ReadyUpTo(stages, rows, |rows|)|
    ensures Batched(rows, rows, ReadyUpTo(stages, rows, |rows|)[..n], seq(n, k => Submitted), epoch)
  {
    var ready := ReadyUpTo(stages, rows, |rows|);
    forall k | 0 <= k < n ensures ready[k] < |rows| && rows[ready[k]].state.Pending? {
      assert IsReady(stages, rows, ready[k]);
    }
  }

  /** The batch that is cut from the ready stages of an unfinished frontier. */
  lemma FirstBatch(spec: Spec, rows: seq<StageRow>, width: nat, epoch: nat, batch: seq<nat>)
    requires WellFormed(spec) && |rows| == |spec.stages| && CleanFrontier(rows) && !AllDone(rows) && 0 < width
    requires var ready := ReadyUpTo(spec.stages, rows, |rows|); batch == ready[..Min(width, |ready|)]
    ensures 0 < |batch| <= width
    ensures Batched(rows, rows, batch, seq(|batch|, k => Submitted), epoch)
    ensures forall k :: 0 <= k < |batch| ==> batch[k] < |spec.stages| && IsReady(spec.stages, rows, batch[k])
  {
    ReadyStageExists(spec, rows);
    FreshBatch(spec.stages, rows, |batch|, epoch);
  }

  /** The batch is the first `width` ready stages in the order of the plan, or all of them. */
  ghost predicate FirstReady(stages: seq<Stage>, rows: seq<StageRow>, batch: seq<nat>, width: nat) {
    && |rows| == |stages|
    && (forall k :: 0 <= k < |batch| ==> batch[k] < |rows|)
    && (forall j, k :: 0 <= j < k < |batch| ==> batch[j] < batch[k])
    && forall i :: 0 <= i < |rows| && i !in batch && rows[i].state.Pending? && DependenciesDone(stages, rows, i) ==>
         |batch| == width && forall k :: 0 <= k < |batch| ==> batch[k] < i
  }

  /** Every stage that `i` depends on is completed or skipped. */
  predicate DependenciesDone(stages: seq<Stage>, rows: seq<StageRow>, i: nat)
    requires i < |stages| == |rows|
  {
    forall d | d in stages[i].dependencies ::
      exists k :: 0 <= k < |stages| && stages[k].id == d && (rows[k].state.Completed? || rows[k].state.Skipped?)
  }

  lemma ReadyDone(spec: Spec, rows: seq<StageRow>, i: nat)
    requires WellFormed(spec) && i < |spec.stages| == |rows| && rows[i].state.Pending?
    ensures DependenciesDone(spec.stages, rows, i) <==> IsReady(spec.stages, rows, i)
  {
    forall k | 0 <= k < |spec.stages| ensures Find(spec.stages, spec.stages[k].id) == Some(k) {
      FindIndex(spec, k);
    }
  }

  lemma FirstOnes(spec: Spec, rows: seq<StageRow>, width: nat, batch: seq<nat>)
    requires WellFormed(spec) && |rows| == |spec.stages|
    requires var ready := ReadyUpTo(spec.stages, rows, |rows|); batch == ready[..Min(width, |ready|)]
    ensures FirstReady(spec.stages, rows, batch, width)
  {
    var ready := ReadyUpTo(spec.stages, rows, |rows|);
    forall i | 0 <= i < |rows| && i !in batch && rows[i].state.Pending? && DependenciesDone(spec.stages, rows, i)
      ensures |batch| == width && forall k :: 0 <= k < |batch| ==> batch[k] < i
    {
      ReadyDone(spec, rows, i);
      BehindFirst(ready, batch, i);
    }
  }

  lemma BehindFirst(ready: seq<nat>, batch: seq<nat>, i: nat)
    requires batch <= ready && i in ready && i !in batch
    requires forall j, k :: 0 <= j < k < |ready| ==> ready[j] < ready[k]
    ensures |batch| < |ready| && forall k :: 0 <= k < |batch| ==> batch[k] < i
  {
    var j :| 0 <= j < |ready| && ready[j] == i;
    assert forall k :: 0 <= k < |batch| ==> batch[k] == ready[k];
  }

  lemma ThreadMoves(base: seq<StageRow>, view: seq<StageRow>, batch: seq<nat>, phases: seq<Phase>, epoch: nat,
                    k: nat, row: StageRow, phase: Phase)
    requires Batched(base, view, batch, phases, epoch) && k < |batch| && Fits(row, phase, epoch)
    ensures batch[k] < |view|
    ensures Batched(base, view[batch[k] := row], batch, phases[k := phase], epoch)
  {
  }

  /** A batch member that is still pending is still ready. */
  lemma ReadyStill(spec: Spec, base: seq<StageRow>, view: seq<StageRow>, batch: seq<nat>, phases: seq<Phase>,
                   epoch: nat, k: nat)
    requires Batched(base, view, batch, phases, epoch) && |base| == |spec.stages| && k < |batch|
    requires IsReady(spec.stages, base, batch[k]) && view[batch[k]].state.Pending?
    ensures IsReady(spec.stages, view, batch[k])
  {
  }

  /** The store's parallel limit is never what stops a batch member. */
  lemma BatchFits(base: seq<StageRow>, view: seq<StageRow>, batch: seq<nat>, phases: seq<Phase>, epoch: nat, k: nat)
    requires Batched(base, view, batch, phases, epoch) && k < |batch| && view[batch[k]].state.Pending?
    ensures InFlightCount(view) < |batch|
  {
    var all := set j | 0 <= j < |batch| :: batch[j];
    BatchSize(batch);
    forall i | 0 <= i < |view| && i !in batch
      ensures !view[i].state.InFlight?
    {
      assert view[i] == base[i];
    }
    assert forall i :: i in batch ==> i in all;
    InFlightAtMost(view, all - {batch[k]});
  }

  lemma {:induction false} BatchSize(batch: seq<nat>)
    ensures |set j | 0 <= j < |batch| :: batch[j]| <= |batch|
  {
    if batch != [] {
      var n := |batch| - 1;
      BatchSize(batch[..n]);
      var fewer := set j | 0 <= j < n :: batch[..n][j];
      assert (set j | 0 <= j < |batch| :: batch[j]) == fewer + {batch[n]};
    }
  }

  /** The thread returned that its stage is completed or skipped. */
  predicate EndedWell(phase: Phase) {
    phase == Finished(Outcome(Completed)) || phase == Finished(Outcome(Skipped))
  }

  predicate AllSucceeded(phases: seq<Phase>) {
    forall k :: 0 <= k < |phases| ==> EndedWell(phases[k])
  }

  /** A drained batch holds no attempt any more. */
  lemma BatchDrained(base: seq<StageRow>, view: seq<StageRow>, batch: seq<nat>, phases: seq<Phase>, epoch: nat)
    requires Batched(base, view, batch, phases, epoch) && forall k :: 0 <= k < |phases| ==> phases[k].Finished?
    ensures NoneInFlight(view)
  {
    forall i | 0 <= i < |view| ensures !view[i].state.InFlight? {
      if i in batch {
        var k :| 0 <= k < |batch| && batch[k] == i;
        assert Fits(view[batch[k]], phases[k], epoch);
      } else {
        assert view[i] == base[i];
      }
    }
  }

  /** A batch without failure leaves a clean frontier with exactly its members moved. */
  lemma BatchDone(base: seq<StageRow>, view: seq<StageRow>, batch: seq<nat>, phases: seq<Phase>, epoch: nat)
    requires Batched(base, view, batch, phases, epoch) && AllSucceeded(phases)
    ensures CleanFrontier(view) && PendingCount(view) == PendingCount(base) - |batch|
  {
    forall k | 0 <= k < |batch| ensures view[batch[k]].state.Done() {
      assert Fits(view[batch[k]], phases[k], epoch);
    }
    forall i | 0 <= i < |view| ensures view[i].state.Done() || view[i].state.Pending? {
      if i !in batch { assert view[i] == base[i]; }
    }
    PendingAfterBatch(base, view, batch);
  }

  /** All the threads of a batch. */
  function Everyone(n: nat): (waiting: seq<nat>)
    ensures |waiting| == n
    ensures forall j :: 0 <= j < |waiting| ==> waiting[j] < n
    ensures forall k: nat :: k < n ==> k in waiting
  {
    if n == 0 then [] else Everyone(n - 1) + [n - 1]
  }

  /** Taking one future out of the list loses no other. */
  lemma WithoutOne(waiting: seq<nat>, w: nat)
    requires w < |waiting|
    ensures var rest := waiting[..w] + waiting[w + 1..];
            && (forall k :: k in waiting ==> k in rest || k == waiting[w])
            && (forall j :: 0 <= j < |rest| ==> rest[j] in waiting)
  {
    var rest := waiting[..w] + waiting[w + 1..];
    forall k | k in waiting ensures k in rest || k == waiting[w] {
      var j :| 0 <= j < |waiting| && waiting[j] == k;
      assert j < w ==> rest[j] == k;
      assert w < j ==> rest[j - 1] == k;
    }
  }

  predicate HasRow(rows: seq<StageRow>, state: StageState) {
    exists i :: 0 <= i < |rows| && rows[i].state == state
  }

  /** Some thread returned that its stage is in `state`. */
  ghost predicate SomeEnded(phases: seq<Phase>, state: StageState) {
    exists k :: 0 <= k < |phases| && phases[k] == Finished(Outcome(state))
  }

  ghost predicate SomeRaised(phases: seq<Phase>) {
    exists k :: 0 <= k < |phases| && phases[k].Finished? && phases[k].result.Raised?
  }

  /** A stage has failed, or of the `launched` stages that were submitted some was never claimed. */
  predicate LostSome(rows: seq<StageRow>, launched: nat, pendingBefore: nat) {
    HasRow(rows, StageFailed) || pendingBefore < PendingCount(rows) + launched
  }

  /** How the threads of a drained batch ended can be read off the rows. */
  lemma BatchTraces(base: seq<StageRow>, view: seq<StageRow>, batch: seq<nat>, phases: seq<Phase>, epoch: nat)
    requires Batched(base, view, batch, phases, epoch) && forall k :: 0 <= k < |phases| ==> phases[k].Finished?
    ensures forall state :: SomeEnded(phases, state) ==> HasRow(view, state)
    ensures SomeRaised(phases) ==> LostSome(view, |batch|, PendingCount(base))
  {
    forall state | SomeEnded(phases, state) ensures HasRow(view, state) {
      var k :| 0 <= k < |phases| && phases[k] == Finished(Outcome(state));
      assert Fits(view[batch[k]], phases[k], epoch);
    }
    if SomeRaised(phases) {
      var k :| 0 <= k < |phases| && phases[k].Finished? && phases[k].result.Raised?;
      assert Fits(view[batch[k]], phases[k], epoch);
      if view[batch[k]].state.Pending? { PendingLeftOver(base, view, batch, k); }
    }
  }

  /** What a drained batch leaves behind, with or without failures. */
  lemma BatchOutcome(base: seq<StageRow>, view: seq<StageRow>, batch: seq<nat>, phases: seq<Phase>, epoch: nat)
    requires Batched(base, view, batch, phases, epoch) && forall k :: 0 <= k < |phases| ==> phases[k].Finished?
    ensures NoneInFlight(view)
    ensures AllSucceeded(phases) ==> CleanFrontier(view) && PendingCount(view) + |batch| == PendingCount(base)
    ensures forall k :: 0 <= k < |phases| && phases[k] == Finished(Outcome(StageWaitingTools)) ==>
              exists i :: 0 <= i < |view| && view[i].state.StageWaitingTools?
  {
    BatchDrained(base, view, batch, phases, epoch);
    if AllSucceeded(phases) { BatchDone(base, view, batch, phases, epoch); }
    forall k | 0 <= k < |phases| && phases[k] == Finished(Outcome(StageWaitingTools))
      ensures exists i :: 0 <= i < |view| && view[i].state.StageWaitingTools?
    {
      assert Fits(view[batch[k]], phases[k], epoch);
    }
  }

  // ---- termination: threads only move forward -----------------------------------------------

  function Unclaimed(phase: Phase): nat {
    match phase
    case Submitted => 2
    case Cleared => 1
    case _ => 0
  }

  /** Steps left once claimed. */
  function Remaining(callback: Callback, stage: Stage, phase: Phase): nat {
    match phase
    case Claimed(ticket, _) => |AllPieces(callback(stage, ticket.artifacts).fragments)| + 5
    case Streaming(_, _, pieces, _) => |pieces| + 4
    case Answered(_, _, _) => 3
    case Verified(_, _) => 2
    case Failing(_, _) => 1
    case _ => 0
  }

  /** Threads never go back. */
  predicate Forward(callback: Callback, stage: Stage, before: Phase, after: Phase) {
    || Unclaimed(after) < Unclaimed(before)
    || (Unclaimed(after) == Unclaimed(before) && Remaining(callback, stage, after) < Remaining(callback, stage, before))
  }

  function SumUnclaimed(phases: seq<Phase>): nat {
    if phases == [] then 0 else SumUnclaimed(phases[..|phases| - 1]) + Unclaimed(phases[|phases| - 1])
  }

  function SumRemaining(callback: Callback, stages: seq<Stage>, batch: seq<nat>, phases: seq<Phase>): nat
    requires |batch| == |phases| && forall k :: 0 <= k < |batch| ==> batch[k] < |stages|
  {
    if phases == [] then 0
    else
      var n := |phases| - 1;
      SumRemaining(callback, stages, batch[..n], phases[..n]) + Remaining(callback, stages[batch[n]], phases[n])
  }

  lemma {:induction false} UnclaimedMoves(phases: seq<Phase>, k: nat, phase: Phase)
    requires k < |phases|
    ensures SumUnclaimed(phases[k := phase]) == SumUnclaimed(phases) - Unclaimed(phases[k]) + Unclaimed(phase)
    ensures SumUnclaimed(phases) >= Unclaimed(phases[k])
  {
    var n := |phases| - 1;
    if k == n {
      assert phases[k := phase][..n] == phases[..n];
    } else {
      assert phases[k := phase][..n] == phases[..n][k := phase];
      UnclaimedMoves(phases[..n], k, phase);
    }
  }

  lemma {:induction false} RemainingMoves(callback: Callback, stages: seq<Stage>, batch: seq<nat>, phases: seq<Phase>,
                                          k: nat, phase: Phase)
    requires |batch| == |phases| && (forall j :: 0 <= j < |batch| ==> batch[j] < |stages|) && k < |phases|
    ensures SumRemaining(callback, stages, batch, phases[k := phase])
            == SumRemaining(callback, stages, batch, phases)
               - Remaining(callback, stages[batch[k]], phases[k]) + Remaining(callback, stages[batch[k]], phase)
    ensures SumRemaining(callback, stages, batch, phases) >= Remaining(callback, stages[batch[k]], phases[k])
  {
    var n := |phases| - 1;
    if k == n {
      assert phases[k := phase][..n] == phases[..n];
    } else {
      assert phases[k := phase][..n] == phases[..n][k := phase];
      RemainingMoves(callback, stages, batch[..n], phases[..n], k, phase);
    }
  }

  /** A forward move of one thread lowers the measure of the batch. */
  lemma MeasureDrops(callback: Callback, stages: seq<Stage>, batch: seq<nat>, phases: seq<Phase>, k: nat, phase: Phase)
    requires |batch| == |phases| && (forall j :: 0 <= j < |batch| ==> batch[j] < |stages|) && k < |phases|
    requires Forward(callback, stages[batch[k]], phases[k], phase)
    ensures var moved := phases[k := phase];
            || SumUnclaimed(moved) < SumUnclaimed(phases)
            || (SumUnclaimed(moved) == SumUnclaimed(phases)
                && SumRemaining(callback, stages, batch, moved) < SumRemaining(callback, stages, batch, phases))
  {
    UnclaimedMoves(phases, k, phase);
    RemainingMoves(callback, stages, batch, phases, k, phase);
  }

  // ---- slices ---------------------------------------------------------------------------------------

  lemma {:induction false} PendingOnlyFalls(rows: seq<StageRow>, rows': seq<StageRow>)
    requires |rows'| == |rows| && forall i :: 0 <= i < |rows| ==> RowEvolves(rows[i], rows'[i])
    ensures PendingCount(rows') <= PendingCount(rows)
  {
    if rows != [] {
      PendingOnlyFalls(rows[..|rows| - 1], rows'[..|rows| - 1]);
    }
  }

  /** Between two slices, whatever anyone does, no stage becomes pending again. */
  lemma PendingNeverGrows(p: Platform, job: Job, steps: seq<JobStep>)
    requires Sound(job)
    ensures PendingCount(Run(p, job, steps).rows) <= PendingCount(job.rows)
  {
    RunSound(p, job, steps);
    PendingOnlyFalls(job.rows, Run(p, job, steps).rows);
  }

  lemma PendingInReach(p: Platform, job: Job, after: Job)
    requires Sound(job) && Reachable(p, job, after)
    ensures PendingCount(after.rows) <= PendingCount(job.rows)
  {
    var steps :| after == Run(p, job, steps);
    PendingNeverGrows(p, job, steps);
  }

  // ---- handing the job back ---------------------------------------------------------------------

  /** What the rows show whenever the runner asks for `asked`. */
  ghost predicate Justified(asked: JobState, rows: seq<StageRow>) {
    && (asked.Terminal() || asked.Paused?)
    && NoneInFlight(rows)
    && (asked.Succeeded? ==> AllDone(rows))
    && (asked.WaitingTools? ==> exists i :: 0 <= i < |rows| && rows[i].state.StageWaitingTools?)
    && (asked.Paused? ==> CleanFrontier(rows))
  }

  /** Success asked for a job whose final stage was skipped: the store refuses it. */
  predicate FinalSkipped(asked: JobState, rows: seq<StageRow>) {
    asked.Succeeded? && rows != [] && rows[|rows| - 1].state.Skipped?
  }

  /**
   The store takes a drained job back from its owner, with one exception: success asked for
   a job whose final stage was skipped, while neither a cancellation nor the deadline
   overrides it.
   */
  lemma FinishObserved(p: Platform, job: Job, fence: Fence, asked: JobState, now: int)
    requires Sound(job) && (Holds(job, fence) ==> Justified(asked, job.rows))
    requires asked.Terminal() || asked.Paused?
    ensures var reply := Finish(job, fence, asked, now);
            && (reply.Refuse? <==>
                  !Holds(job, fence)
                  || (FinalSkipped(asked, job.rows) && !job.head.cancelRequested
                      && now < job.head.spec.limits.deadline))
            && (reply.Accept? ==>
                  && Sound(reply.job)
                  && fence.epoch <= reply.job.head.epoch && !Holds(reply.job, fence)
                  && reply.job.head.state == reply.value && reply.job.rows == job.rows
                  && (reply.value == asked || reply.value.Cancelled? || reply.value.Expired?))
  {
    StepKeepsSound(p, job, DoFinish(fence, asked, now));
  }
}
