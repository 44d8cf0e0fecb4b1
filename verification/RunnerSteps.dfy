/**
 What each transaction of the batch scheduler does to the things a run is accountable for:
 the rows it last saw, the orders it handed to the worker, the text it published.
 */
module RunnerSteps {
  import opened Basics
  import opened Contracts
  import opened Journal
  import opened JournalInvariants
  import opened Guarantees
  import opened ScheduleIndependence
  import opened Scheduling
  import opened StageThreads
  import opened StreamFilter
  import opened CalmRuns

  // ---- the fixed facts of a run ------------------------------------------------------------------

  datatype Basis = Basis(
    p: Platform,
    callback: Callback,
    worker: Worker,
    persist: bool,
    oracle: nat -> Moment,
    owner: string,
    spec: Spec,
    fence: Fence,
    startedClock: real,
    deadline: real,
    origin: Job,
    outcomes: seq<Outcome>,
    reach: iset<Job>,
    worlds: iset<World>,
    alone: bool,
    unrecovered: bool,
    doomed: bool,
    unsaid: bool,
    calm: bool,
    steady: bool,
    timely: bool,
    uncancelled: bool,
    tame: bool
  )

  function LastRow(job: Job): StageRow
    requires job.rows != []
  {
    job.rows[|job.rows| - 1]
  }

  function LastStage(spec: Spec): Stage
    requires spec.stages != []
  {
    spec.stages[|spec.stages| - 1]
  }

  /** What the provider says for the final stage, given the outcomes of the others. */
  ghost function SaidFor(callback: Callback, stages: seq<Stage>, outcomes: seq<Outcome>): seq<string>
    requires stages != [] && |outcomes| == |stages|
  {
    var last := |stages| - 1;
    var inputs := Inputs(stages, outcomes[..last], stages[last]);
    if inputs.None? then [] else callback(stages[last], inputs.value).fragments
  }

  /** The provider fragments of the evaluation's final answer. */
  ghost function FinalFragments(c: Basis): seq<string>
    requires c.spec.stages != [] && |c.outcomes| == |c.spec.stages|
  {
    SaidFor(c.callback, c.spec.stages, c.outcomes)
  }

  /** An answer that the store takes whole, however the provider cuts it. */
  ghost predicate Publishable(p: Platform, fragments: seq<string>) {
    && NonEmpty(fragments) && MarkerFree(p, Join(fragments))
    && |Join(fragments)| <= MAX_PUBLIC_ANSWER_CHARS && |AllPieces(fragments)| <= MAX_FRAGMENTS_PER_JOB
  }

  /** Nobody disturbs the run, it starts from rows the worker computed, and the evaluation exists. */
  ghost predicate Sheltered(c: Basis)
    requires Sound(c.origin) && c.origin.head.spec == c.spec
  {
    && c.unrecovered && Charged(c.origin) && Computed(c.p, c.worker, c.origin)
    && IsEvaluation(c.p, c.worker, c.spec.stages, c.outcomes)
    && Undisturbed(c.oracle, c.owner, c.spec, c.startedClock, c.deadline)
    && (c.persist && LastRow(c.origin).state.Pending? ==> c.unsaid && Publishable(c.p, FinalFragments(c)))
  }

  ghost predicate Grounded(c: Basis) {
    && Sound(c.origin) && c.origin.head.spec == c.spec && c.origin.head.owner == c.owner && c.fence.runner != ""
    && c.worker == WorkerOf(c.callback)
    && c.reach == Reach(c.p, c.origin) && c.worlds == WorldsFrom(c.p, c.worker, c.origin)
    && Discreet(c.oracle, c.fence.runner)
    && (c.alone ==> Alone(c.oracle)) && (c.unrecovered ==> Unrecovered(c.oracle, c.fence.runner))
    && (c.doomed ==> RecoveredAtOnce(c.oracle, c.fence))
    && (c.unsaid ==> LastRow(c.origin).state.Pending? && c.origin.fragments == [])
    && (c.calm ==> Sheltered(c) && c.steady && c.timely && c.uncancelled)
    && (c.steady ==> Steady(c.oracle, c.owner, c.spec, c.startedClock))
    && (c.timely ==> Timely(c.oracle, c.spec, c.deadline))
    && (c.uncancelled ==> Uncancelled(c.oracle))
    && (c.tame ==> Tame(c.callback))
  }

  /** `Grounded`, behind `d` unfoldings, so that it is looked at only where it is needed. */
  ghost predicate Sealed(d: nat, c: Basis) {
    if d == 0 then Grounded(c) else Sealed(d - 1, c)
  }

  lemma Unseal(d: nat, c: Basis)
    requires d == 1
    ensures Sealed(d, c) <==> Grounded(c)
  {
    assert Sealed(d, c) == Sealed(d - 1, c);
  }

  // ---- what a run keeps track of -------------------------------------------------------------------

  /** Orders handed out, text published, and the order whose answer it was. */
  datatype Trail = Trail(orders: set<Order>, published: seq<Fragment>, told: Option<Order>)

  function OrderOf(c: Basis, stage: Stage, ticket: Ticket): Order {
    Order(c.fence, stage.id, ticket.attempt, ticket.artifacts)
  }

  /** The published text is what the provider said for the final stage. */
  ghost predicate Spelled(c: Basis, trail: Trail) {
    && c.spec.stages != [] && trail.told.Some? && trail.told.value in trail.orders
    && trail.told.value.stageId == LastStage(c.spec).id
    && Join(Texts(trail.published)) == Join(c.callback(LastStage(c.spec), trail.told.value.artifacts).fragments)
  }

  /** Nothing is published before the final stage starts, and all of it once that stage is completed. */
  ghost predicate Said(c: Basis, view: seq<StageRow>, trail: Trail) {
    view != [] &&
    var last := view[|view| - 1];
    && (!c.persist ==> trail.published == c.origin.fragments)
    && (c.unsaid && last.state.Pending? ==> trail.published == [])
    && (c.unsaid && c.persist && last.state.Completed? ==> Spelled(c, trail))
    && (c.calm && c.persist && last.state.Pending? ==> c.unsaid)
  }

  ghost predicate Tracked(c: Basis, job: Job, view: seq<StageRow>, trail: Trail, kept: bool) {
    && Known(job, c.fence, view) && job.head.owner == c.owner && job.head.spec == c.spec
    && job in c.reach
    && (c.alone || Holds(job, c.fence) ==> World(job, trail.orders) in c.worlds)
    && (Holds(job, c.fence) ==> job.fragments == trail.published)
    && (kept ==> Holds(job, c.fence) && c.unrecovered)
    && (c.calm && kept ==> job.head.state.Running? && !job.head.cancelRequested)
    && (c.uncancelled && Holds(job, c.fence) ==> !job.head.cancelRequested)
    && Said(c, view, trail)
  }

  /** How far a public thread has told its answer. */
  ghost predicate Telling(c: Basis, stage: Stage, phase: Phase, published: seq<Fragment>) {
    match phase
    case Submitted => published == []
    case Cleared => published == []
    case Claimed(_, _) => published == []
    case Streaming(ticket, _, pieces, _) =>
      Join(Texts(published)) + Join(pieces) == Join(c.callback(stage, ticket.artifacts).fragments)
    case Answered(ticket, _, _) => Join(Texts(published)) == Join(c.callback(stage, ticket.artifacts).fragments)
    case Verified(ticket, _) => Join(Texts(published)) == Join(c.callback(stage, ticket.artifacts).fragments)
    case _ => true
  }

  ghost predicate NeverReached(c: Basis, limit: real) {
    forall i: nat :: c.oracle(i).clock < limit
  }

  /** Pieces that the store has room for. */
  ghost predicate Sayable(published: seq<Fragment>, pieces: seq<string>) {
    && NonEmpty(Texts(published)) && |published| + |pieces| <= MAX_FRAGMENTS_PER_JOB
    && forall i :: 0 <= i < |pieces| ==> 0 < |pieces[i]| <= MAX_FRAGMENT_CHARS
  }

  /** Nothing has gone wrong for a thread, and its stage deadline is never reached. */
  ghost predicate Untroubled(c: Basis, stage: Stage, phase: Phase, published: seq<Fragment>) {
    && !phase.Failing? && (phase.Finished? ==> EndedWell(phase))
    && (c.persist && stage.isPublic ==> c.unsaid && (phase.Streaming? ==> Sayable(published, phase.pieces)))
  }

  /** Why a thread is failing, or raised. */
  function CauseOf(phase: Phase): Option<Failure> {
    match phase
    case Failing(_, cause) => Some(cause)
    case Finished(Raised(cause)) => Some(cause)
    case _ => None
  }

  /** As long as nothing has stopped the siblings, only a cancellation or the worker itself cancels a thread. */
  ghost predicate Undaunted(c: Basis, phases: seq<Phase>, stopped: bool) {
    !stopped && c.uncancelled && c.tame ==> forall k :: 0 <= k < |phases| ==> CauseOf(phases[k]) != Some(Cancellation)
  }

  /** What a thread works with was ordered by its claim, and answered by the worker. */
  ghost predicate Backed(c: Basis, stage: Stage, phase: Phase, trail: Trail, kept: bool) {
    && (phase.HasTicket() ==> OrderOf(c, stage, phase.ticket) in trail.orders)
    && (CauseOf(phase) == Some(Expiry) ==> !c.timely || !c.tame)
    && (c.timely && (phase.Claimed? || phase.Streaming? || phase.Answered?) ==> NeverReached(c, phase.limit))
    && (phase.Streaming? ==> phase.ending == c.callback(stage, phase.ticket.artifacts).ending)
    && (phase.Answered? || phase.Verified? ==> phase.raw == c.worker(stage, phase.ticket.artifacts))
    && (c.unsaid && c.persist && stage.isPublic ==> Telling(c, stage, phase, trail.published))
    && (c.calm && kept ==> Untroubled(c, stage, phase, trail.published))
  }

  ghost predicate AllBacked(c: Basis, batch: seq<nat>, phases: seq<Phase>, trail: Trail, kept: bool) {
    && |batch| == |phases|
    && forall k :: 0 <= k < |phases| ==>
         batch[k] < |c.spec.stages| && Backed(c, c.spec.stages[batch[k]], phases[k], trail, kept)
  }

  // ---- what others do ------------------------------------------------------------------------------

  /** Others commit what they commit at moment `i`. */
  lemma OthersStep(d: nat, c: Basis, i: nat, job: Job, view: seq<StageRow>, trail: Trail, kept: bool, after: Job)
    requires d == 1 && Sealed(d, c) && Tracked(c, job, view, trail, kept)
    requires after == Run(c.p, job, c.oracle(i).others)
    ensures Tracked(c, after, view, trail, kept) && after.rows != []
    ensures Holds(after, c.fence) ==> Holds(job, c.fence)
    ensures c.calm && kept ==> Fine(c, c.oracle(i))
    ensures c.steady ==> OnDuty(c, c.oracle(i))
    ensures c.timely ==> InTime(c, c.oracle(i))
  {
    Unseal(d, c);
    if c.uncancelled { UncancelledRun(c.p, job, c.oracle(i).others); }
    ReachStarts(c.p, c.origin);
    WorldsFromClosed(c.p, c.worker, c.origin);
    var others := c.oracle(i).others;
    OthersCommit(c.p, job, others, c.fence, view, c.reach, after);
    ForeignRunWorld(c.p, c.worker, c.worlds, job, others, c.fence, view, trail.orders, c.alone);
  }

  /** A moment of an undisturbed run. */
  ghost predicate Fine(c: Basis, m: Moment) {
    m.others == [] && OnDuty(c, m) && InTime(c, m)
  }

  predicate OnDuty(c: Basis, m: Moment) {
    m.grant.owner == c.owner && c.spec.routeId in m.grant.routes && c.startedClock <= m.clock
  }

  ghost predicate InTime(c: Basis, m: Moment) {
    && m.clock < c.deadline && m.wall < c.spec.limits.deadline && m.now < c.spec.limits.deadline
    && NeverReached(c, c.deadline) && NeverReached(c, m.clock + c.spec.limits.stageTimeout)
  }

  // ---- what the runner's own transactions do ---------------------------------------------------------

  /** A step of the runner that is not a completion keeps what does not depend on rows or text. */
  lemma OwnStep(d: nat, c: Basis, job: Job, step: JobStep, view: seq<StageRow>, trail: Trail, kept: bool, after: Job)
    requires d == 1 && Sealed(d, c) && Tracked(c, job, view, trail, kept) && !step.DoComplete?
    requires Holds(job, c.fence) && after == Apply(c.p, job, step)
    ensures Sound(after) && after in c.reach && |after.rows| == |job.rows|
    ensures World(after, trail.orders + NewOrders(job, step)) in c.worlds
    ensures after.head.owner == c.owner && after.head.spec == c.spec
    ensures !step.DoCancel? ==> after.head.cancelRequested == job.head.cancelRequested
  {
    Unseal(d, c);
    ReachStarts(c.p, c.origin);
    WorldsFromClosed(c.p, c.worker, c.origin);
    OwnKept(c.p, job, step, after);
    OwnStepWorld(c.p, c.worker, c.worlds, job, step, trail.orders);
  }

  lemma OwnKept(p: Platform, job: Job, step: JobStep, after: Job)
    requires Sound(job) && after == Apply(p, job, step)
    ensures Sound(after) && |after.rows| == |job.rows|
    ensures !step.DoCancel? ==> after.head.cancelRequested == job.head.cancelRequested
  {
    StepKeepsSound(p, job, step);
    if !step.DoCancel? { UncancelledStep(p, job, step); }
  }

  /** What is known of the job in a calm run. */
  lemma CalmJob(d: nat, c: Basis, job: Job, view: seq<StageRow>, trail: Trail)
    requires d == 1 && Sealed(d, c) && c.calm && Tracked(c, job, view, trail, true)
    ensures OnTheWay(c.p, c.worker, job, c.outcomes) && Charged(job)
    ensures forall order :: order in trail.orders ==> OrderGood(job, order)
  {
    Unseal(d, c);
    assert Reachable(c.p, c.origin, job);
    var steps :| job == Run(c.p, c.origin, steps);
    RunCharged(c.p, c.origin, steps);
    assert World(job, trail.orders) in c.worlds;
  }

  /** A ready stage with room for it, in a calm run. */
  ghost predicate Claimable(c: Basis, view: seq<StageRow>, kept: bool, grant: Grant, i: nat, now: int)
    requires i < |view| == |c.spec.stages|
  {
    && c.calm && kept && c.spec.routeId in grant.routes && now < c.spec.limits.deadline
    && InFlightCount(view) < c.spec.limits.maxParallel && IsReady(c.spec.stages, view, i)
  }

  function AfterClaim(trail: Trail, job: Job, step: JobStep): Trail
    requires Shaped(job)
  {
    trail.(orders := trail.orders + NewOrders(job, step))
  }

  lemma ClaimStep(d: nat, c: Basis, job: Job, view: seq<StageRow>, trail: Trail, kept: bool, grant: Grant, i: nat,
                  attempt: string, now: int)
    requires d == 1 && Sealed(d, c) && Tracked(c, job, view, trail, kept) && i < |view|
    ensures var stage := c.spec.stages[i];
            var reply := Claim(job, grant, c.fence, stage.id, attempt, now);
            && (InFlightCount(view) < c.spec.limits.maxParallel ==> reply != Refuse(ParallelLimit))
            && (Claimable(c, view, kept, grant, i, now) ==> reply.Accept?)
            && (reply.Accept? ==>
                  var row := reply.job.rows[i];
                  var next := AfterClaim(trail, job, DoClaim(grant, c.fence, stage.id, attempt, now));
                  && Holds(job, c.fence) && Tracked(c, reply.job, view[i := row], next, kept)
                  && (reply.value.None? ==> row.state.Skipped?)
                  && (reply.value.Some? ==>
                        && AttemptLive(row, c.fence.epoch, reply.value.value.attempt)
                        && OrderOf(c, stage, reply.value.value) in next.orders))
  {
    FindIndex(c.spec, i);
    var step := DoClaim(grant, c.fence, c.spec.stages[i].id, attempt, now);
    ClaimObserved(c.p, job, grant, c.fence, i, attempt, now);
    if Claimable(c, view, kept, grant, i, now) {
      CalmJob(d, c, job, view, trail);
      ClaimGoes(c.p, c.worker, job, c.outcomes, grant, c.fence, i, attempt, now);
    }
    var reply := Claim(job, grant, c.fence, c.spec.stages[i].id, attempt, now);
    if reply.Accept? {
      OwnStep(d, c, job, step, view, trail, kept, reply.job);
      ClaimMovesRow(c, job, view, trail, grant, i, attempt, now);
      TracksOn(c, job, view, trail, kept, reply.job, view[i := reply.job.rows[i]], AfterClaim(trail, job, step));
    }
  }

  /** An accepted claim: the row is in flight or skipped, nothing is published, the job runs on. */
  lemma ClaimMovesRow(c: Basis, job: Job, view: seq<StageRow>, trail: Trail, grant: Grant, i: nat, attempt: string,
                      now: int)
    requires Said(c, view, trail) && i < |view| && Shaped(job) && job.rows == view
    requires Find(job.head.spec.stages, job.head.spec.stages[i].id) == Some(i)
    requires Claim(job, grant, c.fence, job.head.spec.stages[i].id, attempt, now).Accept?
    ensures var step := DoClaim(grant, c.fence, job.head.spec.stages[i].id, attempt, now);
            var reply := Claim(job, grant, c.fence, job.head.spec.stages[i].id, attempt, now);
            && Said(c, view[i := reply.job.rows[i]], AfterClaim(trail, job, step))
            && reply.job.fragments == job.fragments
            && reply.job.head.state == job.head.state && reply.job.head.cancelRequested == job.head.cancelRequested
  {
  }

  function AfterComplete(c: Basis, trail: Trail, stage: Stage, ticket: Ticket): Trail {
    if stage.isPublic then trail.(told := Some(OrderOf(c, stage, ticket))) else trail
  }

  /** In a calm run the answer to a live attempt completes its stage. */
  lemma CalmComplete(d: nat, c: Basis, job: Job, view: seq<StageRow>, trail: Trail, i: nat, order: Order, now: int)
    requires d == 1 && Sealed(d, c) && c.calm && Tracked(c, job, view, trail, true) && i < |view|
    requires order in trail.orders && order.fence == c.fence && Find(c.spec.stages, order.stageId) == Some(i)
    requires AttemptLive(view[i], c.fence.epoch, order.attempt) && now < c.spec.limits.deadline
    ensures var raw := c.worker(c.spec.stages[i], order.artifacts);
            var reply := Complete(c.p, job, c.fence, order.stageId, order.attempt, raw, now);
            reply.Accept? && reply.value.Completed?
  {
    CalmJob(d, c, job, view, trail);
    CompleteGoes(c.p, c.worker, job, c.outcomes, order, i, now);
  }

  lemma CalmDelivery(d: nat, c: Basis, job: Job, view: seq<StageRow>, trail: Trail, i: nat, ticket: Ticket,
                     raw: RawResult, now: int)
    requires d == 1 && Sealed(d, c) && c.calm && Tracked(c, job, view, trail, true) && i < |view|
    requires Backed(c, c.spec.stages[i], Verified(ticket, raw), trail, true)
    requires AttemptLive(view[i], c.fence.epoch, ticket.attempt) && now < c.spec.limits.deadline
    ensures var reply := Complete(c.p, job, c.fence, c.spec.stages[i].id, ticket.attempt, raw, now);
            reply.Accept? && reply.value.Completed?
  {
    FindIndex(c.spec, i);
    CalmComplete(d, c, job, view, trail, i, OrderOf(c, c.spec.stages[i], ticket), now);
  }

  lemma CompleteStep(d: nat, c: Basis, job: Job, view: seq<StageRow>, trail: Trail, kept: bool, i: nat, ticket: Ticket,
                     raw: RawResult, now: int)
    requires d == 1 && Sealed(d, c) && Tracked(c, job, view, trail, kept) && i < |view|
    requires Backed(c, c.spec.stages[i], Verified(ticket, raw), trail, kept)
    ensures var stage := c.spec.stages[i];
            var reply := Complete(c.p, job, c.fence, stage.id, ticket.attempt, raw, now);
            && (reply.Accept? ==>
                  && Holds(job, c.fence)
                  && Tracked(c, reply.job, view[i := reply.job.rows[i]], AfterComplete(c, trail, stage, ticket), kept)
                  && reply.job.rows[i].state == reply.value && Concludes(reply.value))
  {
    FindIndex(c.spec, i);
    var stage := c.spec.stages[i];
    var order := OrderOf(c, stage, ticket);
    CompleteObserved(c.p, job, c.fence, i, ticket.attempt, raw, now);
    var reply := Complete(c.p, job, c.fence, stage.id, ticket.attempt, raw, now);
    if reply.Accept? {
      Delivered(d, c, job, view, trail, kept, i, order, raw, now, reply.job);
      CompleteMovesRow(c, job, view, trail, i, ticket, raw, now);
      TracksOn(c, job, view, trail, kept, reply.job, view[i := reply.job.rows[i]],
               AfterComplete(c, trail, stage, ticket));
    }
  }

  /** What a transaction of the runner has to keep for the run to be tracked on. */
  lemma TracksOn(c: Basis, job: Job, view: seq<StageRow>, trail: Trail, kept: bool, after: Job, next: seq<StageRow>,
                 later: Trail)
    requires Tracked(c, job, view, trail, kept) && Holds(job, c.fence) && Holds(after, c.fence)
    requires Known(after, c.fence, next) && Said(c, next, later)
    requires after.head.owner == c.owner && after.head.spec == c.spec && after in c.reach
    requires World(after, later.orders) in c.worlds && after.fragments == later.published
    requires after.head.state == job.head.state && after.head.cancelRequested == job.head.cancelRequested
    ensures Tracked(c, after, next, later, kept)
  {
  }

  lemma Delivered(d: nat, c: Basis, job: Job, view: seq<StageRow>, trail: Trail, kept: bool, i: nat, order: Order,
                  raw: RawResult, now: int, after: Job)
    requires d == 1 && Sealed(d, c) && Tracked(c, job, view, trail, kept) && Holds(job, c.fence) && i < |view|
    requires order in trail.orders && order.fence == c.fence && Find(c.spec.stages, order.stageId) == Some(i)
    requires raw == c.worker(c.spec.stages[i], order.artifacts)
    requires after == Apply(c.p, job, DoComplete(c.fence, order.stageId, order.attempt, raw, now))
    ensures after in c.reach && World(after, trail.orders) in c.worlds
    ensures after.head.owner == c.owner && after.head.spec == c.spec
  {
    Unseal(d, c);
    ReachStarts(c.p, c.origin);
    WorldsFromClosed(c.p, c.worker, c.origin);
    DeliveryWorld(c.p, c.worker, c.worlds, job, i, order, raw, trail.orders, now);
  }

  /** An accepted completion publishes nothing; a completed final stage has been told in full. */
  lemma CompleteMovesRow(c: Basis, job: Job, view: seq<StageRow>, trail: Trail, i: nat, ticket: Ticket, raw: RawResult,
                         now: int)
    requires Said(c, view, trail) && i < |view| && Shaped(job) && job.rows == view && WellFormed(c.spec)
    requires job.head.spec == c.spec && Find(c.spec.stages, c.spec.stages[i].id) == Some(i)
    requires Backed(c, c.spec.stages[i], Verified(ticket, raw), trail, false)
    requires Complete(c.p, job, c.fence, c.spec.stages[i].id, ticket.attempt, raw, now).Accept?
    ensures var reply := Complete(c.p, job, c.fence, c.spec.stages[i].id, ticket.attempt, raw, now);
            && Said(c, view[i := reply.job.rows[i]], AfterComplete(c, trail, c.spec.stages[i], ticket))
            && reply.job.fragments == job.fragments && Concludes(reply.value)
            && reply.job.head.state == job.head.state && reply.job.head.cancelRequested == job.head.cancelRequested
  {
  }

  lemma FailStep(d: nat, c: Basis, job: Job, view: seq<StageRow>, trail: Trail, kept: bool, i: nat, attempt: string,
                 now: int)
    requires d == 1 && Sealed(d, c) && Tracked(c, job, view, trail, kept) && i < |view|
    requires AttemptLive(view[i], c.fence.epoch, attempt)
    ensures var reply := FailStage(job, c.fence, c.spec.stages[i].id, attempt, now);
            && (reply.Accept? ==>
                  && Holds(job, c.fence) && Tracked(c, reply.job, view[i := reply.job.rows[i]], trail, kept)
                  && reply.job.rows[i].state.StageFailed?)
            && (reply.Refuse? ==> Tracked(c, job, view[i := view[i].(state := StageFailed)], trail, kept))
  {
    FindIndex(c.spec, i);
    FailObserved(c.p, job, c.fence, i, attempt, now);
    var step := DoFailStage(c.fence, c.spec.stages[i].id, attempt, now);
    var reply := FailStage(job, c.fence, c.spec.stages[i].id, attempt, now);
    if reply.Accept? {
      OwnStep(d, c, job, step, view, trail, kept, reply.job);
      assert trail.orders + NewOrders(job, step) == trail.orders;
      FailMovesRow(c, job, view, trail, i, attempt, now);
    }
    FailedSaid(c, view, trail, i);
  }

  lemma FailMovesRow(c: Basis, job: Job, view: seq<StageRow>, trail: Trail, i: nat, attempt: string, now: int)
    requires Shaped(job) && job.rows == view && i < |view| && job.head.spec == c.spec
    requires Find(c.spec.stages, c.spec.stages[i].id) == Some(i)
    requires FailStage(job, c.fence, c.spec.stages[i].id, attempt, now).Accept?
    ensures var reply := FailStage(job, c.fence, c.spec.stages[i].id, attempt, now);
            && reply.job.rows[i] == view[i].(state := StageFailed) && reply.job.fragments == job.fragments
            && reply.job.head.state == job.head.state
  {
  }

  lemma FailedSaid(c: Basis, view: seq<StageRow>, trail: Trail, i: nat)
    requires Said(c, view, trail) && i < |view|
    ensures Said(c, view[i := view[i].(state := StageFailed)], trail)
  {
  }

  function AfterPublish(trail: Trail, after: Job): Trail {
    trail.(published := after.fragments)
  }

  lemma PublishStep(d: nat, c: Basis, job: Job, view: seq<StageRow>, trail: Trail, kept: bool, grant: Grant, id: string,
                    attempt: string, piece: string, now: int)
    requires d == 1 && Sealed(d, c) && Tracked(c, job, view, trail, kept) && c.persist
    ensures var reply := Publish(c.p, job, grant, c.fence, id, attempt, piece, now);
            reply.Accept? ==>
              && Holds(job, c.fence) && Tracked(c, reply.job, view, AfterPublish(trail, reply.job), kept)
              && Texts(reply.job.fragments) == Texts(trail.published) + [piece]
              && |reply.job.fragments| == |trail.published| + 1
  {
    var step := DoPublish(grant, c.fence, id, attempt, piece, now);
    var reply := Publish(c.p, job, grant, c.fence, id, attempt, piece, now);
    if reply.Accept? {
      ForwardStep(c.p, job, step, c.fence, view);
      OwnStep(d, c, job, step, view, trail, kept, reply.job);
      assert trail.orders + NewOrders(job, step) == trail.orders;
    }
  }

  /** What an undisturbed run may ask for at its end. */
  ghost predicate Grantable(c: Basis, kept: bool, asked: JobState, now: int) {
    c.calm && kept && now < c.spec.limits.deadline && (asked.Paused? || (asked.Succeeded? && EndsInAnswer(c)))
  }

  /** The job is back in the store, as the run that asked for `asked` last made it. */
  ghost predicate HandedBack(c: Basis, after: Job, view: seq<StageRow>, trail: Trail, asked: JobState,
                             state: JobState)
  {
    && !Holds(after, c.fence) && after.head.state == state && after.rows == view
    && (after.head.cancelRequested ==> state.Cancelled?)
    && (!after.head.cancelRequested ==> state == asked || (state.Expired? && !c.timely))
    && (c.uncancelled ==> !after.head.cancelRequested)
    && World(after, trail.orders) in c.worlds && after.fragments == trail.published
  }

  lemma FinishStep(d: nat, c: Basis, job: Job, view: seq<StageRow>, trail: Trail, kept: bool, asked: JobState, now: int)
    requires d == 1 && Sealed(d, c) && Tracked(c, job, view, trail, kept) && Justified(asked, view)
    requires c.timely ==> now < c.spec.limits.deadline
    ensures var reply := Finish(job, c.fence, asked, now);
            && (reply.Refuse? ==> !Holds(job, c.fence) || FinalSkipped(asked, view))
            && (Grantable(c, kept, asked, now) ==> reply.Accept? && reply.value == asked)
            && (reply.Accept? ==>
                  && Holds(job, c.fence) && Tracked(c, reply.job, view, trail, false)
                  && HandedBack(c, reply.job, view, trail, asked, reply.value))
  {
    FinishObserved(c.p, job, c.fence, asked, now);
    if Grantable(c, kept, asked, now) { CalmFinish(d, c, job, view, trail, asked, now); }
    var step := DoFinish(c.fence, asked, now);
    var reply := Finish(job, c.fence, asked, now);
    if reply.Accept? {
      OwnStep(d, c, job, step, view, trail, kept, reply.job);
      assert trail.orders + NewOrders(job, step) == trail.orders;
    }
  }

  /** The evaluation ends in an answer, not in a skipped debate. */
  ghost predicate EndsInAnswer(c: Basis) {
    c.outcomes != [] && c.outcomes[|c.outcomes| - 1].Produced?
  }

  lemma CalmFinish(d: nat, c: Basis, job: Job, view: seq<StageRow>, trail: Trail, asked: JobState, now: int)
    requires d == 1 && Sealed(d, c) && c.calm && Tracked(c, job, view, trail, true) && Justified(asked, view)
    requires now < c.spec.limits.deadline && (asked.Paused? || (asked.Succeeded? && EndsInAnswer(c)))
    ensures Finish(job, c.fence, asked, now).Accept? && Finish(job, c.fence, asked, now).value == asked
  {
    CalmJob(d, c, job, view, trail);
    if asked.Succeeded? { FinalCompleted(c.p, c.worker, job, c.outcomes); }
  }

  // ---- telling the answer ------------------------------------------------------------------------------

  lemma {:induction false} PiecesBounded(fragments: seq<string>)
    requires NonEmpty(fragments)
    ensures forall i :: 0 <= i < |AllPieces(fragments)| ==> 0 < |AllPieces(fragments)[i]| <= MAX_FRAGMENT_CHARS
  {
    if fragments != [] {
      assert fragments[0] != "";
      PiecesBounded(fragments[1..]);
    }
  }

  /** In a calm run the final stage is handed what the evaluation hands it. */
  lemma FinalInputs(d: nat, c: Basis, job: Job, view: seq<StageRow>, trail: Trail, ticket: Ticket)
    requires d == 1 && Sealed(d, c) && c.calm && Tracked(c, job, view, trail, true)
    requires c.spec.stages != [] && OrderOf(c, LastStage(c.spec), ticket) in trail.orders
    ensures |c.outcomes| == |c.spec.stages|
    ensures FinalFragments(c) == c.callback(LastStage(c.spec), ticket.artifacts).fragments
  {
    var last := |c.spec.stages| - 1;
    CalmJob(d, c, job, view, trail);
    FindIndex(c.spec, last);
    AllMatch(c.p, c.worker, job, c.outcomes);
    UsableInputs(c.p, c.worker, job, c.outcomes, last);
  }

  lemma AnswerPublishable(d: nat, c: Basis)
    requires d == 1 && Sealed(d, c) && c.calm && c.persist && c.unsaid
    ensures c.spec.stages != [] && |c.outcomes| == |c.spec.stages| && Publishable(c.p, FinalFragments(c))
  {
    Unseal(d, c);
  }

  /** The worker has been called: its fragments are cut, and nothing of them is said yet. */
  lemma TellingStarts(d: nat, c: Basis, job: Job, view: seq<StageRow>, trail: Trail, kept: bool, i: nat, phase: Phase,
                      next: Phase)
    requires d == 1 && Sealed(d, c) && Tracked(c, job, view, trail, kept) && i < |view| && phase.Claimed?
    requires Backed(c, c.spec.stages[i], phase, trail, kept)
    requires var script := c.callback(c.spec.stages[i], phase.ticket.artifacts);
             next == Streaming(phase.ticket, phase.limit, AllPieces(script.fragments), script.ending)
    ensures Backed(c, c.spec.stages[i], next, trail, kept)
  {
    var stage := c.spec.stages[i];
    var fragments := c.callback(stage, phase.ticket.artifacts).fragments;
    PiecesSpell(fragments);
    if c.calm && kept && c.persist && stage.isPublic {
      assert stage == LastStage(c.spec);
      FinalInputs(d, c, job, view, trail, phase.ticket);
      AnswerPublishable(d, c);
      PiecesBounded(fragments);
      assert Texts(trail.published) == [];
    }
  }

  /** One piece has been said. */
  lemma TellingGoesOn(c: Basis, stage: Stage, phase: Phase, next: Phase, trail: Trail, after: Trail, kept: bool)
    requires Backed(c, stage, phase, trail, kept) && phase.Streaming? && phase.pieces != []
    requires next == Streaming(phase.ticket, phase.limit, phase.pieces[1..], phase.ending)
    requires after.orders == trail.orders && Texts(after.published) == Texts(trail.published) + [phase.pieces[0]]
    requires |after.published| == |trail.published| + 1
    ensures Backed(c, stage, next, after, kept)
  {
    var pieces := phase.pieces;
    JoinSnoc(Texts(trail.published), pieces[0]);
    assert Join(pieces) == pieces[0] + Join(pieces[1..]);
    assert (Join(Texts(trail.published)) + pieces[0]) + Join(pieces[1..])
           == Join(Texts(trail.published)) + Join(pieces);
  }

  function Onward(phase: Phase): Phase
    requires phase.Streaming? && phase.pieces != []
  {
    phase.(pieces := phase.pieces[1..])
  }

  /** The thread that spoke goes on; the others, which are not public, do not notice. */
  lemma SaidOne(c: Basis, batch: seq<nat>, phases: seq<Phase>, trail: Trail, after: Trail, kept: bool, k: nat)
    requires WellFormed(c.spec) && AllBacked(c, batch, phases, trail, kept) && k < |phases|
    requires forall i, j :: 0 <= i < j < |batch| ==> batch[i] != batch[j]
    requires phases[k].Streaming? && phases[k].pieces != [] && c.spec.stages[batch[k]].isPublic
    requires after.orders == trail.orders && Texts(after.published) == Texts(trail.published) + [phases[k].pieces[0]]
    requires |after.published| == |trail.published| + 1
    ensures BackedBut(c, batch, phases, after, kept, k)
    ensures Backed(c, c.spec.stages[batch[k]], Onward(phases[k]), after, kept)
  {
    OthersUntold(c, batch, phases, trail, after, kept, k);
    TellingGoesOn(c, c.spec.stages[batch[k]], phases[k], Onward(phases[k]), trail, after, kept);
  }

  /** What others work with does not depend on the text. */
  lemma OthersUntold(c: Basis, batch: seq<nat>, phases: seq<Phase>, trail: Trail, after: Trail, kept: bool, k: nat)
    requires WellFormed(c.spec) && AllBacked(c, batch, phases, trail, kept) && after.orders == trail.orders
    requires k < |batch| && c.spec.stages[batch[k]].isPublic
    requires forall i, j :: 0 <= i < j < |batch| ==> batch[i] != batch[j]
    ensures forall j :: 0 <= j < |phases| && j != k ==> Backed(c, c.spec.stages[batch[j]], phases[j], after, kept)
  {
    forall j | 0 <= j < |phases| && j != k ensures Backed(c, c.spec.stages[batch[j]], phases[j], after, kept) {
      assert batch[j] != batch[k];
      assert Backed(c, c.spec.stages[batch[j]], phases[j], trail, kept);
    }
  }

  /** In a calm run every piece is taken. */
  lemma CalmPublish(d: nat, c: Basis, job: Job, view: seq<StageRow>, trail: Trail, i: nat, phase: Phase, grant: Grant,
                    now: int)
    requires d == 1 && Sealed(d, c) && c.calm && c.persist && Tracked(c, job, view, trail, true) && i < |view|
    requires phase.Streaming? && phase.pieces != [] && Backed(c, c.spec.stages[i], phase, trail, true)
    requires c.spec.stages[i].isPublic && AttemptLive(view[i], c.fence.epoch, phase.ticket.attempt)
    requires c.spec.routeId in grant.routes && now < c.spec.limits.deadline
    ensures Publish(c.p, job, grant, c.fence, c.spec.stages[i].id, phase.ticket.attempt, phase.pieces[0], now).Accept?
  {
    var stage, pieces := c.spec.stages[i], phase.pieces;
    assert stage == LastStage(c.spec);
    FinalInputs(d, c, job, view, trail, phase.ticket);
    AnswerPublishable(d, c);
    PieceFits(c.p, trail.published, pieces, FinalFragments(c));
    FilterDecides(c.p, job, grant, c.fence, stage.id, phase.ticket.attempt, pieces[0], now);
  }

  lemma PieceFits(p: Platform, published: seq<Fragment>, pieces: seq<string>, fragments: seq<string>)
    requires pieces != [] && Publishable(p, fragments) && Sayable(published, pieces)
    requires Join(Texts(published)) + Join(pieces) == Join(fragments)
    ensures MarkerFree(p, Join(Texts(published))) && MarkerFree(p, Join(Texts(published)) + pieces[0])
    ensures |Join(Texts(published))| + |pieces[0]| <= MAX_PUBLIC_ANSWER_CHARS && |published| < MAX_FRAGMENTS_PER_JOB
  {
    var text := Join(Texts(published));
    assert Join(pieces) == pieces[0] + Join(pieces[1..]);
    assert (text + pieces[0]) + Join(pieces[1..]) == Join(fragments);
    MarkerFreePrefix(p, text + pieces[0], Join(pieces[1..]));
    MarkerFreePrefix(p, text, pieces[0]);
  }

  /** In a calm run the worker does not raise. */
  lemma CalmReturns(d: nat, c: Basis, job: Job, view: seq<StageRow>, trail: Trail, i: nat, phase: Phase)
    requires d == 1 && Sealed(d, c) && c.calm && Tracked(c, job, view, trail, true) && i < |view|
    requires phase.Streaming? && Backed(c, c.spec.stages[i], phase, trail, true)
    ensures phase.ending.Returned?
  {
    Unseal(d, c);
    CalmJob(d, c, job, view, trail);
    FindIndex(c.spec, i);
    AnswerGood(c.p, c.worker, job, c.outcomes, OrderOf(c, c.spec.stages[i], phase.ticket), i);
  }

  /** What the worker returned is its answer to the order. */
  lemma ReturnedAnswer(d: nat, c: Basis, stage: Stage, ticket: Ticket)
    requires d == 1 && Sealed(d, c)
    ensures var ending := c.callback(stage, ticket.artifacts).ending;
            && (ending.Returned? ==> ending.raw == c.worker(stage, ticket.artifacts))
            && (c.tame && ending.Threw? ==> ending.cause.Other?)
  {
    Unseal(d, c);
  }

  // ---- the batch -----------------------------------------------------------------------------------------

  ghost predicate AllReady(spec: Spec, base: seq<StageRow>, batch: seq<nat>) {
    forall k :: 0 <= k < |batch| ==> batch[k] < |base| == |spec.stages| && IsReady(spec.stages, base, batch[k])
  }

  /** Every thread but the `k`-th. */
  ghost predicate BackedBut(c: Basis, batch: seq<nat>, phases: seq<Phase>, trail: Trail, kept: bool, k: nat) {
    && |batch| == |phases|
    && forall j :: 0 <= j < |phases| ==>
         batch[j] < |c.spec.stages| && (j != k ==> Backed(c, c.spec.stages[batch[j]], phases[j], trail, kept))
  }

  /** The threads of a batch, their rows, and what they work with. */
  ghost predicate ThreadsOf(c: Basis, base: seq<StageRow>, view: seq<StageRow>, batch: seq<nat>, phases: seq<Phase>,
                            trail: Trail, kept: bool)
  {
    && Batched(base, view, batch, phases, c.fence.epoch) && |batch| <= c.spec.limits.maxParallel
    && AllReady(c.spec, base, batch)
    && AllBacked(c, batch, phases, trail, kept)
  }

  /** A batch member that is still pending is still ready, and there is room for it. */
  lemma StillClaimable(c: Basis, base: seq<StageRow>, view: seq<StageRow>, batch: seq<nat>, phases: seq<Phase>,
                       trail: Trail, kept: bool, k: nat)
    requires ThreadsOf(c, base, view, batch, phases, trail, kept) && k < |batch| && view[batch[k]].state.Pending?
    ensures |view| == |c.spec.stages| && IsReady(c.spec.stages, view, batch[k])
    ensures InFlightCount(view) < c.spec.limits.maxParallel
  {
    BatchFits(base, view, batch, phases, c.fence.epoch, k);
    ReadyStill(c.spec, base, view, batch, phases, c.fence.epoch, k);
  }

  /** Thread `k` moves, perhaps with its row and with what is tracked. */
  lemma ThreadPut(c: Basis, base: seq<StageRow>, view: seq<StageRow>, batch: seq<nat>, phases: seq<Phase>,
                  before: Trail, trail: Trail, kept: bool, k: nat, row: StageRow, phase: Phase)
    requires ThreadsOf(c, base, view, batch, phases, before, kept) && k < |phases|
    requires Fits(row, phase, c.fence.epoch) && BackedBut(c, batch, phases, trail, kept, k)
    requires Backed(c, c.spec.stages[batch[k]], phase, trail, kept)
    ensures ThreadsOf(c, base, view[batch[k] := row], batch, phases[k := phase], trail, kept)
  {
    ThreadMoves(base, view, batch, phases, c.fence.epoch, k, row, phase);
  }

  /** The row of thread `k` stays. */
  lemma ThreadStays(c: Basis, base: seq<StageRow>, view: seq<StageRow>, batch: seq<nat>, phases: seq<Phase>,
                    before: Trail, trail: Trail, kept: bool, k: nat, phase: Phase)
    requires ThreadsOf(c, base, view, batch, phases, before, kept) && k < |phases|
    requires Fits(view[batch[k]], phase, c.fence.epoch) && BackedBut(c, batch, phases, trail, kept, k)
    requires Backed(c, c.spec.stages[batch[k]], phase, trail, kept)
    ensures ThreadsOf(c, base, view, batch, phases[k := phase], trail, kept)
  {
    ThreadPut(c, base, view, batch, phases, before, trail, kept, k, view[batch[k]], phase);
    assert view[batch[k] := view[batch[k]]] == view;
  }

  // ---- how a run ends ----------------------------------------------------------------------------------------

  /** The stage state behind a final state. */
  function StageOf(state: JobState): StageState {
    match state
    case WaitingTools => StageWaitingTools
    case Cancelled => StageCancelled
    case Expired => StageExpired
    case _ => StageFailed
  }

  /** The final state and the failure have a cause: what some thread ended in, or what the main loop met. */
  ghost predicate BlamedOn(c: Basis, kept: bool, failure: Option<Failure>, final: JobState, phases: seq<Phase>) {
    && (final.Failed? || final.WaitingTools? || final.Cancelled? || final.Expired?)
    && (!final.Failed? ==> failure == Some(Other) && SomeEnded(phases, StageOf(final)))
    && (failure == Some(Other) && final.Failed? ==> SomeRaised(phases) || !c.steady || !kept)
    && (failure == Some(Expiry) ==> !c.timely || (!c.tame && SomeRaised(phases)))
    && (failure == Some(Cancellation) ==> !c.uncancelled || (!c.tame && SomeRaised(phases)))
  }

  /** The state that a failed run asks for. */
  function AskedFor(failure: Failure, final: JobState): JobState {
    match failure
    case Expiry => Expired
    case Cancellation => Cancelled
    case Other => final
  }

  /** What the rows, or else what happened meanwhile, say for the state that a run asks for. */
  ghost predicate Accounted(c: Basis, kept: bool, asked: JobState, rows: seq<StageRow>, raised: bool) {
    && (asked.Terminal() || asked.Paused?) && !asked.Interrupted?
    && (asked.WaitingTools? ==> HasRow(rows, StageWaitingTools))
    && (asked.Cancelled? ==> HasRow(rows, StageCancelled) || !c.uncancelled || (!c.tame && raised))
    && (asked.Expired? ==> HasRow(rows, StageExpired) || !c.timely || (!c.tame && raised))
    && (asked.Failed? ==> raised || !c.steady || !kept)
  }

  /** How a released job is closed: a cancellation wins, and any other state is accounted for. */
  ghost predicate Closes(c: Basis, kept: bool, after: Job, lost: bool) {
    && (after.head.cancelRequested ==> after.head.state.Cancelled?)
    && (c.uncancelled ==> !after.head.cancelRequested)
    && (!after.head.cancelRequested ==>
          (after.head.state.Expired? && !c.timely) || Accounted(c, kept, after.head.state, after.rows, lost))
  }

  /** A failed batch: the state it asks for is justified and accounted for. */
  ghost predicate Concluded(c: Basis, kept: bool, failure: Failure, final: JobState, base: seq<StageRow>,
                            view: seq<StageRow>, launched: nat)
  {
    var asked := AskedFor(failure, final);
    Justified(asked, view) && Accounted(c, kept, asked, view, LostSome(view, launched, PendingCount(base)))
  }

  lemma BatchConcluded(c: Basis, kept: bool, failure: Option<Failure>, final: JobState, base: seq<StageRow>,
                       view: seq<StageRow>, batch: seq<nat>, phases: seq<Phase>)
    requires Batched(base, view, batch, phases, c.fence.epoch) && BlamedOn(c, kept, failure, final, phases)
    requires forall k :: 0 <= k < |phases| ==> phases[k].Finished?
    ensures NoneInFlight(view)
    ensures AllSucceeded(phases) ==> CleanFrontier(view) && PendingCount(view) + |batch| == PendingCount(base)
    ensures failure.Some? ==> Concluded(c, kept, failure.value, final, base, view, |batch|)
  {
    BatchOutcome(base, view, batch, phases, c.fence.epoch);
    BatchTraces(base, view, batch, phases, c.fence.epoch);
  }

  lemma MoreOrders(c: Basis, batch: seq<nat>, phases: seq<Phase>, trail: Trail, after: Trail, kept: bool, k: nat)
    requires AllBacked(c, batch, phases, trail, kept)
    requires trail.orders <= after.orders && after.published == trail.published
    ensures BackedBut(c, batch, phases, after, kept, k)
  {
    forall j | 0 <= j < |phases| ensures Backed(c, c.spec.stages[batch[j]], phases[j], after, kept) {
      assert Backed(c, c.spec.stages[batch[j]], phases[j], trail, kept);
    }
  }

  /** The batch that is cut from the ready stages, all of it just submitted. */
  lemma FirstThreads(c: Basis, view: seq<StageRow>, width: nat, batch: seq<nat>, trail: Trail, kept: bool)
    requires Said(c, view, trail) && WellFormed(c.spec) && |view| == |c.spec.stages|
    requires CleanFrontier(view) && !AllDone(view) && 0 < width <= c.spec.limits.maxParallel
    requires var ready := ReadyUpTo(c.spec.stages, view, |view|); batch == ready[..Min(width, |ready|)]
    ensures 0 < |batch| <= width
    ensures ThreadsOf(c, view, view, batch, seq(|batch|, k => Submitted), trail, kept)
  {
    FirstBatch(c.spec, view, width, c.fence.epoch, batch);
    FirstBacked(c, view, batch, trail, kept);
  }

  /** A batch just submitted: of its stages nothing has been said. */
  lemma FirstBacked(c: Basis, view: seq<StageRow>, batch: seq<nat>, trail: Trail, kept: bool)
    requires Said(c, view, trail) && WellFormed(c.spec) && AllReady(c.spec, view, batch)
    ensures AllBacked(c, batch, seq(|batch|, k => Submitted), trail, kept)
  {
  }

  function FirstTrail(job: Job): Trail {
    Trail({}, job.fragments, None)
  }

  /** A job that is recovered at once, at moment `i`. */
  lemma DoomedStep(d: nat, c: Basis, i: nat, job: Job, view: seq<StageRow>)
    requires d == 1 && Sealed(d, c) && c.doomed && Sound(job)
    requires if i == 0 then Holds(job, c.fence) && CleanFrontier(job.rows) && !job.head.cancelRequested
             else job.head.runner.None? && job.head.state.Paused?
    ensures var after := Run(c.p, job, c.oracle(i).others);
            after.head.runner.None? && after.head.state.Paused? && after.rows == job.rows
  {
    Unseal(d, c);
    RecoveredPauses(c.p, job, c.oracle(i).others, c.fence);
  }
}
