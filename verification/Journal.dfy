/**
 The journal of one job (execution/store.py and the overrides of
 execution/private_store.py): the job row, its stage rows, its events and its
 answer fragments, with one function per public transaction.  A refused
 transaction rolls back, so `After` leaves the job as it was.
 */
module Journal {
  import opened Basics
  import opened Contracts

  const MAX_FRAGMENT_CHARS: nat := 8192
  const MAX_FRAGMENTS_PER_JOB: nat := 4096
  const MAX_PUBLIC_ANSWER_CHARS: nat := 250_000
  const MAX_ARTIFACT_CHARS: nat := 250_000
  const FORBIDDEN_MARKERS: seq<string> := ["<think", "</think>"]
  const MARKER_TAIL_CHARS: nat := 7

  datatype JobState =
    | Queued | Running | Cancelling | Paused
    | Succeeded | Failed | Cancelled | Expired | Interrupted | WaitingTools
  {
    predicate Terminal() {
      Succeeded? || Failed? || Cancelled? || Expired? || Interrupted? || WaitingTools?
    }
  }

  datatype StageState =
    | Pending | InFlight | Completed | Skipped
    | StageFailed | StageCancelled | StageExpired | StageWaitingTools | Uncertain
  {
    predicate Done() {
      Completed? || Skipped?
    }
  }

  datatype EventKind =
    | JobCreated | JobResumed | JobCancelRequested | JobEnded(state: JobState)
    | StageStarted | StageFinished | StageSkipped | StageBroken | AnswerFragment

  /** What a worker hands back, before sanitising. */
  datatype RawResult = RawResult(
    content: Option<string>,
    toolCalls: seq<string>,
    inputTokens: int,
    outputTokens: int,
    debateRequired: Option<bool>
  )

  /** What the journal stores for a stage. */
  datatype Artifact = Artifact(
    content: string,
    toolCalls: seq<string>,
    inputTokens: int,
    outputTokens: int,
    debateRequired: Option<bool>
  )

  type Artifacts = map<string, Option<Artifact>>

  /**
   Trusted callbacks: the engine-response sanitiser, a partial function, and the
   lower-casing of one character.
   */
  datatype Platform = Platform(
    sanitize: (Option<string>, seq<string>) -> Option<(string, seq<string>)>,
    lower: char -> char
  )

  datatype Grant = Grant(owner: string, routes: set<string>)

  datatype Head = Head(
    owner: string,
    idem: string,
    spec: Spec,
    state: JobState,
    runner: Option<string>,
    epoch: nat,
    cancelRequested: bool,
    tokensReserved: int,
    costReserved: int,
    sequence: nat
  )

  datatype StageRow = StageRow(
    state: StageState,
    attempt: Option<string>,
    epoch: Option<nat>,
    result: Option<Artifact>
  )

  datatype Event = Event(sequence: nat, kind: EventKind, stage: Option<string>, occurred: int)

  datatype Fragment = Fragment(sequence: nat, stage: string, attempt: string, text: string)

  datatype Job = Job(head: Head, rows: seq<StageRow>, events: seq<Event>, fragments: seq<Fragment>)

  datatype Fence = Fence(runner: string, epoch: nat)

  datatype Ticket = Ticket(attempt: string, artifacts: Artifacts)

  datatype Error =
    | NotFound | Blocked | Busy | NotResumable | StaleFence | NotRunning | DeadlineElapsed | UnknownStage
    | NotRepeatable | ParallelLimit | DependenciesUnready | DecisionMissing | ReservationExceeded
    | StaleAttempt | InvalidResult | StillInFlight | InvalidFinalState | FrontierNotFinal
    | PrivateStage | FragmentLimit | InvalidFragment | NotExpired

  datatype Reply<+T> = Accept(job: Job, value: T) | Refuse(error: Error)

  function After<T>(job: Job, reply: Reply<T>): Job {
    if reply.Accept? then reply.job else job
  }

  predicate FenceHeld(head: Head, runner: string, epoch: nat) {
    runner != "" && head.runner == Some(runner) && head.epoch == epoch
  }

  function Logged(job: Job, kind: EventKind, stage: Option<string>, now: int): Job {
    var next := job.head.sequence + 1;
    job.(head := job.head.(sequence := next), events := job.events + [Event(next, kind, stage, now)])
  }

  function WithState(job: Job, state: JobState): Job {
    job.(head := job.head.(state := state))
  }

  /** The terminal and pause transitions: new state, ownership dropped, one event. */
  function Closed(job: Job, state: JobState, now: int): Job {
    Logged(job.(head := job.head.(state := state, runner := None)), JobEnded(state), None, now)
  }

  function WithRow(job: Job, i: nat, row: StageRow): Job
    requires i < |job.rows|
  {
    job.(rows := job.rows[i := row])
  }

  function NewJob(owner: string, idem: string, spec: Spec, now: int): Job {
    Logged(
      Job(Head(owner, idem, spec, Queued, None, 0, false, 0, 0, 0),
          seq(|spec.stages|, i => StageRow(Pending, None, None, None)), [], []),
      JobCreated, None, now)
  }

  /** Rows mirror the stages of the snapshot, by ordinal. */
  predicate Shaped(job: Job) {
    |job.rows| == |job.head.spec.stages|
  }

  // ---- begin ---------------------------------------------------------------

  function Begin(job: Job, grant: Grant, runner: string, now: int): Reply<Option<Fence>> {
    var head := job.head;
    if head.spec.routeId !in grant.routes then Refuse(Blocked)
    else if head.runner.Some? then Refuse(Busy)
    else if !(head.state.Queued? || head.state.Paused?) then Refuse(NotResumable)
    else if head.spec.limits.deadline <= now then
      Accept(Logged(WithState(job, Expired), JobEnded(Expired), None, now), None)
    else
      var owned := job.(head := head.(runner := Some(runner), epoch := head.epoch + 1, state := Running));
      Accept(Logged(owned, JobResumed, None, now), Some(Fence(runner, head.epoch + 1)))
  }

  // ---- claim ---------------------------------------------------------------

  function InFlightCount(rows: seq<StageRow>): nat {
    if rows == [] then 0
    else InFlightCount(rows[..|rows| - 1]) + (if rows[|rows| - 1].state.InFlight? then 1 else 0)
  }

  /** A dependency that may be read by `stage`: completed, or the skipped debate read by synthesis. */
  predicate DependencyUsable(job: Job, stage: Stage, dependency: string)
    requires Shaped(job)
  {
    match Find(job.head.spec.stages, dependency)
    case None => false
    case Some(k) =>
      if job.rows[k].state.Skipped? then stage.id == SYNTHESIS && dependency == DEBATE
      else job.rows[k].state.Completed? && job.rows[k].result.Some?
  }

  predicate DependenciesUsable(job: Job, stage: Stage)
    requires Shaped(job)
  {
    forall d | d in stage.dependencies :: DependencyUsable(job, stage, d)
  }

  function ArtifactOf(job: Job, dependency: string): Option<Artifact>
    requires Shaped(job)
  {
    match Find(job.head.spec.stages, dependency)
    case None => None
    case Some(k) => if job.rows[k].state.Skipped? then None else job.rows[k].result
  }

  function ArtifactsFor(job: Job, stage: Stage): Artifacts
    requires Shaped(job)
  {
    map d | d in stage.dependencies :: ArtifactOf(job, d)
  }

  /** The judge's boolean among the artifacts of a conditional stage. */
  function Decision(artifacts: Artifacts): Option<bool> {
    if JUDGE in artifacts && artifacts[JUDGE].Some? then artifacts[JUDGE].value.debateRequired else None
  }

  function Claim(job: Job, grant: Grant, fence: Fence, stageId: string, attempt: string, now: int)
    : Reply<Option<Ticket>>
    requires Shaped(job)
  {
    var head := job.head;
    var found := Find(head.spec.stages, stageId);
    if !FenceHeld(head, fence.runner, fence.epoch) then Refuse(StaleFence)
    else if head.spec.routeId !in grant.routes then Refuse(Blocked)
    else if !head.state.Running? || head.cancelRequested then Refuse(NotRunning)
    else if head.spec.limits.deadline <= now then Refuse(DeadlineElapsed)
    else if found.None? then Refuse(UnknownStage)
    else ClaimAt(job, found.value, fence.epoch, attempt, now)
  }

  function ClaimAt(job: Job, i: nat, epoch: nat, attempt: string, now: int): Reply<Option<Ticket>>
    requires Shaped(job) && i < |job.rows|
  {
    var head := job.head;
    var stage := head.spec.stages[i];
    var artifacts := ArtifactsFor(job, stage);
    if !job.rows[i].state.Pending? then Refuse(NotRepeatable)
    else if head.spec.limits.maxParallel <= InFlightCount(job.rows) then Refuse(ParallelLimit)
    else if !DependenciesUsable(job, stage) then Refuse(DependenciesUnready)
    else if stage.condition.Some? && Decision(artifacts).None? then Refuse(DecisionMissing)
    else if stage.condition.Some? && !Decision(artifacts).value then
      Accept(Logged(WithRow(job, i, job.rows[i].(state := Skipped)), EventKind.StageSkipped, Some(stage.id), now), None)
    else
      var tokens := head.tokensReserved + stage.TokenReservation();
      var cost := head.costReserved + stage.costCap;
      if head.spec.limits.tokenLimit < tokens || head.spec.limits.costLimit < cost then Refuse(ReservationExceeded)
      else
        var row := job.rows[i].(state := InFlight, attempt := Some(attempt), epoch := Some(epoch));
        var charged := WithRow(job, i, row).(head := head.(tokensReserved := tokens, costReserved := cost));
        Accept(Logged(charged, StageStarted, Some(stage.id), now), Some(Ticket(attempt, artifacts)))
  }

  // ---- complete and fail_stage -----------------------------------------------

  /** `_safe_result`: shape and budget checks, then the partial sanitiser. */
  function SafeResult(p: Platform, raw: RawResult, stage: Stage): Option<Artifact> {
    if (raw.debateRequired.Some? <==> stage.id == JUDGE)
       && 0 < raw.inputTokens <= stage.maximumInputTokens
       && 0 < raw.outputTokens <= stage.maximumOutputTokens
       && (raw.content.Some? ==> |raw.content.value| <= MAX_ARTIFACT_CHARS)
    then
      match p.sanitize(raw.content, raw.toolCalls)
      case None => None
      case Some((content, calls)) =>
        Some(Artifact(content, calls, raw.inputTokens, raw.outputTokens, raw.debateRequired))
    else None
  }

  predicate AttemptLive(row: StageRow, epoch: nat, attempt: string) {
    row.state.InFlight? && row.attempt == Some(attempt) && row.epoch == Some(epoch)
  }

  /** Cancellation and expiry beat a late success. */
  function CompletionState(head: Head, raw: RawResult, now: int): StageState {
    if head.cancelRequested || !head.state.Running? then StageCancelled
    else if head.spec.limits.deadline <= now then StageExpired
    else if raw.toolCalls != [] then StageWaitingTools
    else Completed
  }

  function Complete(p: Platform, job: Job, fence: Fence, stageId: string, attempt: string, raw: RawResult, now: int)
    : Reply<StageState>
    requires Shaped(job)
  {
    var found := Find(job.head.spec.stages, stageId);
    if !FenceHeld(job.head, fence.runner, fence.epoch) then Refuse(StaleFence)
    else if found.None? then Refuse(UnknownStage)
    else if !AttemptLive(job.rows[found.value], fence.epoch, attempt) then Refuse(StaleAttempt)
    else
      var i := found.value;
      var safe := SafeResult(p, raw, job.head.spec.stages[i]);
      if safe.None? then Refuse(InvalidResult)
      else
        var state := CompletionState(job.head, raw, now);
        var keep := state.Completed? || state.StageWaitingTools?;
        var row := job.rows[i].(state := state, result := if keep then safe else None);
        var kind := if state.Completed? then StageFinished else StageBroken;
        Accept(Logged(WithRow(job, i, row), kind, Some(stageId), now), state)
  }

  function FailStage(job: Job, fence: Fence, stageId: string, attempt: string, now: int): Reply<()>
    requires Shaped(job)
  {
    var found := Find(job.head.spec.stages, stageId);
    if !FenceHeld(job.head, fence.runner, fence.epoch) then Refuse(StaleFence)
    else if found.None? || !AttemptLive(job.rows[found.value], fence.epoch, attempt) then Refuse(StaleAttempt)
    else
      var i := found.value;
      Accept(Logged(WithRow(job, i, job.rows[i].(state := StageFailed)), StageBroken, Some(stageId), now), ())
  }

  // ---- append_public_delta -----------------------------------------------------

  function LowerAll(p: Platform, text: string): string {
    seq(|text|, i requires 0 <= i < |text| => p.lower(text[i]))
  }

  predicate MarkerFree(p: Platform, text: string) {
    forall m | m in FORBIDDEN_MARKERS :: !Contains(LowerAll(p, text), m)
  }

  /** Python's `s[-n:]` for positive n. */
  function LastN<T>(s: seq<T>, n: nat): seq<T> {
    if |s| <= n then s else s[|s| - n..]
  }

  function Texts(fragments: seq<Fragment>): seq<string> {
    seq(|fragments|, i requires 0 <= i < |fragments| => fragments[i].text)
  }

  function Characters(fragments: seq<Fragment>): nat {
    |Join(Texts(fragments))|
  }

  /** The last seven characters, read back from the last seven fragments only. */
  function Tail(fragments: seq<Fragment>): string {
    LastN(Join(Texts(LastN(fragments, MARKER_TAIL_CHARS))), MARKER_TAIL_CHARS)
  }

  function Publish(p: Platform, job: Job, grant: Grant, fence: Fence, stageId: string, attempt: string,
                   fragment: string, now: int): Reply<nat>
    requires Shaped(job)
  {
    var head := job.head;
    var last := |job.rows| - 1;
    if !(0 < |fragment| <= MAX_FRAGMENT_CHARS) then Refuse(InvalidFragment)
    else if !FenceHeld(head, fence.runner, fence.epoch) then Refuse(StaleFence)
    else if head.spec.routeId !in grant.routes then Refuse(Blocked)
    else if !head.state.Running? || head.cancelRequested || head.spec.limits.deadline <= now then Refuse(NotRunning)
    else if last < 0 || !head.spec.stages[last].isPublic || head.spec.stages[last].id != stageId
      then Refuse(PrivateStage)
    else if !AttemptLive(job.rows[last], fence.epoch, attempt) then Refuse(StaleAttempt)
    else if MAX_FRAGMENTS_PER_JOB <= |job.fragments|
            || MAX_PUBLIC_ANSWER_CHARS < Characters(job.fragments) + |fragment| then Refuse(FragmentLimit)
    else if !MarkerFree(p, Tail(job.fragments) + fragment) then Refuse(InvalidFragment)
    else
      var logged := Logged(job, AnswerFragment, Some(stageId), now);
      var row := Fragment(logged.head.sequence, stageId, attempt, fragment);
      Accept(logged.(fragments := job.fragments + [row]), row.sequence)
  }

  // ---- request_cancel, finish, recover_abandoned ---------------------------------

  function RequestCancel(job: Job, now: int): Reply<bool> {
    var head := job.head;
    if head.state.Terminal() || head.cancelRequested then Accept(job, false)
    else
      var state := if head.runner.Some? then Cancelling else Cancelled;
      var marked := Logged(job.(head := head.(cancelRequested := true, state := state)), JobCancelRequested, None, now);
      Accept(if state.Cancelled? then Logged(marked, JobEnded(Cancelled), None, now) else marked, true)
  }

  /** Cancellation first, then the deadline, override what the runner asked for. */
  function FinalState(head: Head, asked: JobState, now: int): JobState {
    if head.cancelRequested then Cancelled
    else if head.spec.limits.deadline <= now then Expired
    else asked
  }

  predicate AllDone(rows: seq<StageRow>) {
    forall i :: 0 <= i < |rows| ==> rows[i].state.Done()
  }

  predicate CleanFrontier(rows: seq<StageRow>) {
    forall i :: 0 <= i < |rows| ==> rows[i].state.Done() || rows[i].state.Pending?
  }

  predicate NoneInFlight(rows: seq<StageRow>) {
    forall i :: 0 <= i < |rows| ==> !rows[i].state.InFlight?
  }

  predicate FinalAllowed(rows: seq<StageRow>, state: JobState) {
    && (state.Succeeded? ==> AllDone(rows) && rows != [] && rows[|rows| - 1].state.Completed?)
    && (state.WaitingTools? ==> exists i :: 0 <= i < |rows| && rows[i].state.StageWaitingTools?)
    && (state.Paused? ==> CleanFrontier(rows))
  }

  function Finish(job: Job, fence: Fence, asked: JobState, now: int): Reply<JobState> {
    var state := FinalState(job.head, asked, now);
    if !asked.Terminal() && !asked.Paused? then Refuse(InvalidFinalState)
    else if !FenceHeld(job.head, fence.runner, fence.epoch) then Refuse(StaleFence)
    else if !NoneInFlight(job.rows) then Refuse(StillInFlight)
    else if !FinalAllowed(job.rows, state) then Refuse(FrontierNotFinal)
    else Accept(Closed(job, state, now), state)
  }

  /** The private store's fallback when the snapshot can no longer be opened. */
  function FinishUnreadable(job: Job, fence: Fence, retainUntil: int, now: int): Reply<JobState> {
    var state := if job.head.cancelRequested then Cancelled else Expired;
    if !FenceHeld(job.head, fence.runner, fence.epoch) then Refuse(StaleFence)
    else if now < retainUntil then Refuse(NotExpired)
    else if !NoneInFlight(job.rows) then Refuse(StillInFlight)
    else Accept(Closed(job, state, now), state)
  }

  predicate SomeRow(rows: seq<StageRow>, state: StageState) {
    exists i :: 0 <= i < |rows| && rows[i].state == state
  }

  function RecoveredState(job: Job): JobState {
    if SomeRow(job.rows, InFlight) || SomeRow(job.rows, Uncertain) then Interrupted
    else if job.head.cancelRequested || SomeRow(job.rows, StageCancelled) then Cancelled
    else if SomeRow(job.rows, StageExpired) then Expired
    else if SomeRow(job.rows, StageFailed) then Failed
    else if SomeRow(job.rows, StageWaitingTools) then WaitingTools
    else Paused
  }

  function Quarantined(rows: seq<StageRow>): seq<StageRow> {
    seq(|rows|, i requires 0 <= i < |rows| =>
      if rows[i].state.InFlight? then rows[i].(state := Uncertain) else rows[i])
  }

  function Recover(job: Job, fence: Fence, now: int): Reply<JobState> {
    if !FenceHeld(job.head, fence.runner, fence.epoch) then Refuse(StaleFence)
    else
      var state := RecoveredState(job);
      var fenced := job.(head := job.head.(epoch := job.head.epoch + 1), rows := Quarantined(job.rows));
      Accept(Closed(fenced, state, now), state)
  }

  // ---- runs ------------------------------------------------------------------

  datatype JobStep =
    | DoBegin(grant: Grant, runner: string, now: int)
    | DoClaim(grant: Grant, fence: Fence, stageId: string, attempt: string, now: int)
    | DoComplete(fence: Fence, stageId: string, attempt: string, raw: RawResult, now: int)
    | DoFailStage(fence: Fence, stageId: string, attempt: string, now: int)
    | DoPublish(grant: Grant, fence: Fence, stageId: string, attempt: string, text: string, now: int)
    | DoCancel(now: int)
    | DoFinish(fence: Fence, asked: JobState, now: int)
    | DoFinishUnreadable(fence: Fence, retainUntil: int, now: int)
    | DoRecover(fence: Fence, now: int)

  function Apply(p: Platform, job: Job, step: JobStep): (after: Job)
    requires Shaped(job)
    ensures Shaped(after) && after.head.spec == job.head.spec
    ensures after.head.owner == job.head.owner && after.head.idem == job.head.idem
  {
    match step
    case DoBegin(grant, runner, now) => After(job, Begin(job, grant, runner, now))
    case DoClaim(grant, fence, id, attempt, now) => After(job, Claim(job, grant, fence, id, attempt, now))
    case DoComplete(fence, id, attempt, raw, now) => After(job, Complete(p, job, fence, id, attempt, raw, now))
    case DoFailStage(fence, id, attempt, now) => After(job, FailStage(job, fence, id, attempt, now))
    case DoPublish(grant, fence, id, attempt, text, now) =>
      After(job, Publish(p, job, grant, fence, id, attempt, text, now))
    case DoCancel(now) => After(job, RequestCancel(job, now))
    case DoFinish(fence, asked, now) => After(job, Finish(job, fence, asked, now))
    case DoFinishUnreadable(fence, retainUntil, now) => After(job, FinishUnreadable(job, fence, retainUntil, now))
    case DoRecover(fence, now) => After(job, Recover(job, fence, now))
  }

  function Run(p: Platform, job: Job, steps: seq<JobStep>): (after: Job)
    requires Shaped(job)
    ensures Shaped(after) && after.head.spec == job.head.spec
    decreases |steps|
  {
    if steps == [] then job else Run(p, Apply(p, job, steps[0]), steps[1..])
  }
}
