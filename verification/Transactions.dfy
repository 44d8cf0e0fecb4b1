/**
 What every kernel transaction needs and does, in terms of the tables alone: who owns the
 job, the state of its rows, the numbers of its snapshot.  Each lemma says when the
 transaction is accepted, for all inputs, and gives every field of the job it leaves.
 */
module Transactions {
  import opened Basics
  import opened Contracts
  import opened Journal

  predicate Owns(job: Job, fence: Fence) {
    fence.runner != "" && job.head.runner == Some(fence.runner) && job.head.epoch == fence.epoch
  }

  /** Stage `i` is the one called `id`. */
  predicate Names(job: Job, i: nat, id: string) {
    |job.rows| == |job.head.spec.stages| && i < |job.rows| && job.head.spec.stages[i].id == id
  }

  predicate Unknown(job: Job, id: string) {
    forall i :: 0 <= i < |job.head.spec.stages| ==> job.head.spec.stages[i].id != id
  }

  /** The log with one more event, the next in number. */
  function WithEvent(job: Job, kind: EventKind, stage: Option<string>, now: int): Job {
    job.(head := job.head.(sequence := job.head.sequence + 1),
         events := job.events + [Event(job.head.sequence + 1, kind, stage, now)])
  }

  /** A new job is queued, untouched and uncharged, and its creation is the first event. */
  lemma NewJobExact(owner: string, idem: string, spec: Spec, now: int)
    ensures NewJob(owner, idem, spec, now)
            == Job(Head(owner, idem, spec, Queued, None, 0, false, 0, 0, 1),
                   seq(|spec.stages|, i => StageRow(Pending, None, None, None)), [Event(1, JobCreated, None, now)], [])
  {
  }

  lemma BeginExact(job: Job, grant: Grant, runner: string, now: int)
    ensures var reply := Begin(job, grant, runner, now);
            var late := job.head.spec.limits.deadline <= now;
            && (reply.Accept? <==>
                  && job.head.spec.routeId in grant.routes && job.head.runner == None
                  && (job.head.state == Queued || job.head.state == Paused))
            && (reply.Accept? && late ==>
                  && reply.value == None
                  && reply.job == WithEvent(job.(head := job.head.(state := Expired)), JobEnded(Expired), None, now))
            && (reply.Accept? && !late ==>
                  && reply.value == Some(Fence(runner, job.head.epoch + 1))
                  && reply.job == WithEvent(
                       job.(head := job.head.(runner := Some(runner), epoch := job.head.epoch + 1, state := Running)),
                       JobResumed, None, now))
  {
  }

  // ---- claim -------------------------------------------------------------------------------------

  function Flying(rows: seq<StageRow>): set<nat> {
    set i: nat | i < |rows| && rows[i].state == InFlight
  }

  lemma {:induction false} FlyingCounted(rows: seq<StageRow>)
    ensures InFlightCount(rows) == |Flying(rows)|
  {
    if rows == [] {
      assert Flying(rows) == {};
    } else {
      var n := |rows| - 1;
      FlyingCounted(rows[..n]);
      if rows[n].state.InFlight? {
        assert Flying(rows) == Flying(rows[..n]) + {n};
      } else {
        assert Flying(rows) == Flying(rows[..n]);
      }
    }
  }

  /** Stage `k` may be read by `stage`: it has a result, or is the debate that the synthesis may miss. */
  predicate MayRead(job: Job, stage: Stage, k: nat)
    requires |job.rows| == |job.head.spec.stages| && k < |job.rows|
  {
    || (job.rows[k].state == Completed && job.rows[k].result.Some?)
    || (job.rows[k].state == Skipped && stage.id == "synthesis" && job.head.spec.stages[k].id == "debate-round-1")
  }

  /** All that `stage` depends on may be read. */
  ghost predicate InputsReady(job: Job, stage: Stage) {
    forall d :: d in stage.dependencies ==> exists k: nat :: Names(job, k, d) && MayRead(job, stage, k)
  }

  /** `artifacts` are the stored results of what `stage` depends on, and none for a skipped stage. */
  ghost predicate Reads(job: Job, stage: Stage, artifacts: Artifacts) {
    && (forall d :: d in artifacts <==> d in stage.dependencies)
    && forall k: nat, d :: d in artifacts && Names(job, k, d) ==>
         artifacts[d] == if job.rows[k].state == Skipped then None else job.rows[k].result
  }

  /** The judge, read by `stage`, has given its decision. */
  ghost predicate JudgeSaid(job: Job, stage: Stage, debate: bool) {
    && "judge" in stage.dependencies
    && exists k: nat :: Names(job, k, "judge") && job.rows[k].state == Completed && job.rows[k].result.Some?
                        && job.rows[k].result.value.debateRequired == Some(debate)
  }

  lemma FindNamed(job: Job, i: nat)
    requires WellFormed(job.head.spec) && |job.rows| == |job.head.spec.stages| && i < |job.rows|
    ensures forall k: nat :: Names(job, k, job.head.spec.stages[i].id) <==> k == i
    ensures Find(job.head.spec.stages, job.head.spec.stages[i].id) == Some(i)
  {
    FindIndex(job.head.spec, i);
    forall k: nat | Names(job, k, job.head.spec.stages[i].id) ensures k == i {
      FindIndex(job.head.spec, k);
    }
  }

  lemma InputsUsable(job: Job, stage: Stage)
    requires WellFormed(job.head.spec) && Shaped(job)
    ensures DependenciesUsable(job, stage) <==> InputsReady(job, stage)
  {
    forall d | d in stage.dependencies
      ensures DependencyUsable(job, stage, d) <==> exists k: nat :: Names(job, k, d) && MayRead(job, stage, k)
    {
      match Find(job.head.spec.stages, d)
      case None =>
      case Some(k) =>
        FindNamed(job, k);
        assert Names(job, k, d);
    }
  }

  lemma InputsRead(job: Job, stage: Stage)
    requires WellFormed(job.head.spec) && Shaped(job)
    ensures Reads(job, stage, ArtifactsFor(job, stage))
  {
    forall k: nat, d | d in stage.dependencies && Names(job, k, d)
      ensures ArtifactOf(job, d) == if job.rows[k].state == Skipped then None else job.rows[k].result
    {
      FindNamed(job, k);
    }
  }

  lemma DecisionRead(job: Job, stage: Stage, debate: bool)
    requires WellFormed(job.head.spec) && Shaped(job) && InputsReady(job, stage)
    ensures Decision(ArtifactsFor(job, stage)) == Some(debate) <==> JudgeSaid(job, stage, debate)
  {
    if "judge" in stage.dependencies {
      var k: nat :| Names(job, k, "judge") && MayRead(job, stage, k);
      FindNamed(job, k);
      assert Find(job.head.spec.stages, "judge") == Some(k);
    }
  }

  /** Everything `claim` asks for besides a pending row. */
  ghost predicate Claimable(job: Job, grant: Grant, fence: Fence, stage: Stage, now: int) {
    && Owns(job, fence) && job.head.spec.routeId in grant.routes
    && job.head.state == Running && !job.head.cancelRequested && now < job.head.spec.limits.deadline
    && |Flying(job.rows)| < job.head.spec.limits.maxParallel
    && InputsReady(job, stage)
    && (stage.condition.Some? ==> JudgeSaid(job, stage, true) || JudgeSaid(job, stage, false))
  }

  predicate Affordable(job: Job, stage: Stage) {
    && job.head.tokensReserved + stage.maximumInputTokens + stage.maximumOutputTokens <= job.head.spec.limits.tokenLimit
    && job.head.costReserved + stage.costCap <= job.head.spec.limits.costLimit
  }

  /** The job after stage `i` was started, or skipped. */
  function StartedJob(job: Job, i: nat, fence: Fence, attempt: string, now: int): Job
    requires |job.rows| == |job.head.spec.stages| && i < |job.rows|
  {
    var stage := job.head.spec.stages[i];
    WithEvent(job.(rows := job.rows[i := StageRow(InFlight, Some(attempt), Some(fence.epoch), job.rows[i].result)],
                   head := job.head.(tokensReserved := job.head.tokensReserved + stage.maximumInputTokens
                                                       + stage.maximumOutputTokens,
                                     costReserved := job.head.costReserved + stage.costCap)),
              EventKind.StageStarted, Some(stage.id), now)
  }

  function SkippedJob(job: Job, i: nat, now: int): Job
    requires |job.rows| == |job.head.spec.stages| && i < |job.rows|
  {
    WithEvent(job.(rows := job.rows[i := job.rows[i].(state := Skipped)]),
              EventKind.StageSkipped, Some(job.head.spec.stages[i].id), now)
  }

  /** The artifacts that `claim` reads, and the judge's decision among them. */
  lemma ClaimReads(job: Job, stage: Stage)
    requires WellFormed(job.head.spec) && Shaped(job)
    ensures DependenciesUsable(job, stage) <==> InputsReady(job, stage)
    ensures Reads(job, stage, ArtifactsFor(job, stage))
    ensures InputsReady(job, stage) ==>
              var decision := Decision(ArtifactsFor(job, stage));
              && (decision == Some(true) <==> JudgeSaid(job, stage, true))
              && (decision == Some(false) <==> JudgeSaid(job, stage, false))
  {
    InputsUsable(job, stage);
    InputsRead(job, stage);
    if InputsReady(job, stage) {
      DecisionRead(job, stage, true);
      DecisionRead(job, stage, false);
    }
  }

  /** A stage is claimed exactly when everything is in order. */
  lemma ClaimDecided(job: Job, grant: Grant, fence: Fence, i: nat, attempt: string, now: int)
    requires WellFormed(job.head.spec) && |job.rows| == |job.head.spec.stages| && i < |job.rows|
    ensures var stage := job.head.spec.stages[i];
            Claim(job, grant, fence, stage.id, attempt, now).Accept? <==>
              && job.rows[i].state == Pending && Claimable(job, grant, fence, stage, now)
              && ((stage.condition.Some? && JudgeSaid(job, stage, false)) || Affordable(job, stage))
  {
    FindNamed(job, i);
    FlyingCounted(job.rows);
    ClaimReads(job, job.head.spec.stages[i]);
  }

  /** A claimed conditional stage is skipped when the judge said no. */
  lemma ClaimSkips(job: Job, grant: Grant, fence: Fence, i: nat, attempt: string, now: int)
    requires WellFormed(job.head.spec) && |job.rows| == |job.head.spec.stages| && i < |job.rows|
    requires Claim(job, grant, fence, job.head.spec.stages[i].id, attempt, now).Accept?
    requires job.head.spec.stages[i].condition.Some? && JudgeSaid(job, job.head.spec.stages[i], false)
    ensures var reply := Claim(job, grant, fence, job.head.spec.stages[i].id, attempt, now);
            reply.value == None && reply.job == SkippedJob(job, i, now)
  {
    var stage := job.head.spec.stages[i];
    FindNamed(job, i);
    assert DependenciesUsable(job, stage);
    InputsUsable(job, stage);
    DecisionRead(job, stage, false);
    ClaimAtSkips(job, i, fence.epoch, attempt, now);
  }

  lemma ClaimAtSkips(job: Job, i: nat, epoch: nat, attempt: string, now: int)
    requires Shaped(job) && i < |job.rows| && ClaimAt(job, i, epoch, attempt, now).Accept?
    requires job.head.spec.stages[i].condition.Some?
    requires Decision(ArtifactsFor(job, job.head.spec.stages[i])) == Option.Some(false)
    ensures ClaimAt(job, i, epoch, attempt, now) == Accept(SkippedJob(job, i, now), None)
  {
  }

  /** Any other claimed stage starts, charged in full, with the stored results of its dependencies. */
  lemma ClaimStarts(job: Job, grant: Grant, fence: Fence, i: nat, attempt: string, now: int)
    requires WellFormed(job.head.spec) && |job.rows| == |job.head.spec.stages| && i < |job.rows|
    requires Claim(job, grant, fence, job.head.spec.stages[i].id, attempt, now).Accept?
    requires !(job.head.spec.stages[i].condition.Some? && JudgeSaid(job, job.head.spec.stages[i], false))
    ensures var stage := job.head.spec.stages[i];
            var reply := Claim(job, grant, fence, stage.id, attempt, now);
            && reply.job == StartedJob(job, i, fence, attempt, now)
            && reply.value.Some? && reply.value.value.attempt == attempt
            && Reads(job, stage, reply.value.value.artifacts)
  {
    FindNamed(job, i);
    ClaimReads(job, job.head.spec.stages[i]);
  }

  lemma ClaimUnknown(job: Job, grant: Grant, fence: Fence, id: string, attempt: string, now: int)
    requires Shaped(job) && Unknown(job, id)
    ensures Claim(job, grant, fence, id, attempt, now).Refuse?
  {
  }

  // ---- complete and fail_stage ---------------------------------------------------------------------

  predicate Working(job: Job, i: nat, fence: Fence, attempt: string) {
    && i < |job.rows| && Owns(job, fence)
    && job.rows[i].state == InFlight && job.rows[i].attempt == Some(attempt) && job.rows[i].epoch == Some(fence.epoch)
  }

  /** What a worker's answer must be like for its stage. */
  predicate Presentable(p: Platform, raw: RawResult, stage: Stage) {
    && 1 <= raw.inputTokens <= stage.maximumInputTokens
    && 1 <= raw.outputTokens <= stage.maximumOutputTokens
    && (stage.id == "judge" ==> raw.debateRequired.Some?)
    && (stage.id != "judge" ==> raw.debateRequired == None)
    && (raw.content.Some? ==> |raw.content.value| <= 250000)
    && p.sanitize(raw.content, raw.toolCalls).Some?
  }

  /** The answer as the sanitiser returned it, with the counts and the decision of the worker. */
  function Stored(p: Platform, raw: RawResult): Artifact
    requires p.sanitize(raw.content, raw.toolCalls).Some?
  {
    var clean := p.sanitize(raw.content, raw.toolCalls).value;
    Artifact(clean.0, clean.1, raw.inputTokens, raw.outputTokens, raw.debateRequired)
  }

  /** The result check passes exactly the presentable answers, and stores what the sanitiser returned. */
  lemma ResultDecided(p: Platform, raw: RawResult, stage: Stage)
    ensures SafeResult(p, raw, stage) == if Presentable(p, raw, stage) then Some(Stored(p, raw)) else None
  {
  }

  /** Cancellation first, then the deadline, then tool calls. */
  function StateOnArrival(job: Job, raw: RawResult, now: int): StageState {
    if job.head.cancelRequested || job.head.state != Running then StageCancelled
    else if job.head.spec.limits.deadline <= now then StageExpired
    else if |raw.toolCalls| != 0 then StageWaitingTools
    else Completed
  }

  /**
   An answer is accepted exactly for the live attempt and if it is presentable.  A completed
   stage, and one that waits for tools, holds what the sanitiser returned; a cancelled or
   expired one holds nothing.
   */
  lemma CompletionExact(p: Platform, job: Job, fence: Fence, i: nat, attempt: string, raw: RawResult, now: int)
    requires WellFormed(job.head.spec) && |job.rows| == |job.head.spec.stages| && i < |job.rows|
    ensures var stage := job.head.spec.stages[i];
            var reply := Complete(p, job, fence, stage.id, attempt, raw, now);
            var state := StateOnArrival(job, raw, now);
            && (reply.Accept? <==> Working(job, i, fence, attempt) && Presentable(p, raw, stage))
            && (reply.Accept? ==>
                  var result := if state == Completed || state == StageWaitingTools then Some(Stored(p, raw)) else None;
                  && reply.value == state
                  && reply.job == WithEvent(
                       job.(rows := job.rows[i := StageRow(state, Some(attempt), Some(fence.epoch), result)]),
                       if state == Completed then StageFinished else StageBroken, Some(stage.id), now))
  {
    FindNamed(job, i);
    ResultDecided(p, raw, job.head.spec.stages[i]);
  }

  lemma CompletionUnknown(p: Platform, job: Job, fence: Fence, id: string, attempt: string, raw: RawResult, now: int)
    requires Shaped(job) && Unknown(job, id)
    ensures Complete(p, job, fence, id, attempt, raw, now).Refuse?
    ensures FailStage(job, fence, id, attempt, now).Refuse?
  {
  }

  lemma FailExact(job: Job, fence: Fence, i: nat, attempt: string, now: int)
    requires WellFormed(job.head.spec) && |job.rows| == |job.head.spec.stages| && i < |job.rows|
    ensures var stage := job.head.spec.stages[i];
            var reply := FailStage(job, fence, stage.id, attempt, now);
            && (reply.Accept? <==> Working(job, i, fence, attempt))
            && (reply.Accept? ==>
                  reply.job == WithEvent(job.(rows := job.rows[i := job.rows[i].(state := StageFailed)]), StageBroken,
                                         Some(stage.id), now))
  {
    FindNamed(job, i);
  }

  // ---- append_public_delta ---------------------------------------------------------------------------

  /** The part of the check on a fragment that does not look at the text said before. */
  predicate Speakable(job: Job, grant: Grant, fence: Fence, id: string, attempt: string, text: string, now: int) {
    && 1 <= |text| <= 8192
    && Owns(job, fence) && job.head.spec.routeId in grant.routes
    && job.head.state == Running && !job.head.cancelRequested && now < job.head.spec.limits.deadline
    && |job.rows| == |job.head.spec.stages| && job.rows != []
    && |job.fragments| < 4096 && |Join(Texts(job.fragments))| + |text| <= 250000
    && var last := |job.rows| - 1;
       && Names(job, last, id) && job.head.spec.stages[last].isPublic
       && job.rows[last].state == InFlight && job.rows[last].attempt == Some(attempt)
       && job.rows[last].epoch == Some(fence.epoch)
  }

  /** A fragment is stored exactly if it may be said and the window shows no marker; nothing else changes. */
  lemma PublicationExact(p: Platform, job: Job, grant: Grant, fence: Fence, id: string, attempt: string, text: string,
                         now: int)
    requires Shaped(job)
    ensures var reply := Publish(p, job, grant, fence, id, attempt, text, now);
            && (reply.Accept? <==>
                  Speakable(job, grant, fence, id, attempt, text, now) && MarkerFree(p, Tail(job.fragments) + text))
            && (reply.Accept? ==>
                  && reply.value == job.head.sequence + 1
                  && reply.job == WithEvent(
                       job.(fragments := job.fragments + [Fragment(job.head.sequence + 1, id, attempt, text)]),
                       AnswerFragment, Some(id), now))
  {
  }

  // ---- request_cancel, finish, recover_abandoned ---------------------------------------------------------

  predicate Over(state: JobState) {
    state in {Succeeded, Failed, Cancelled, Expired, Interrupted, WaitingTools}
  }

  lemma CancelExact(job: Job, now: int)
    ensures var reply := RequestCancel(job, now);
            var marks := !Over(job.head.state) && !job.head.cancelRequested;
            var head := job.head.(cancelRequested := true,
                                  state := if job.head.runner == None then Cancelled else Cancelling);
            var marked := WithEvent(job.(head := head), JobCancelRequested, None, now);
            && reply.Accept? && reply.value == marks
            && reply.job == if !marks then job
                            else if job.head.runner == None then WithEvent(marked, JobEnded(Cancelled), None, now)
                            else marked
  {
  }

  /** The job given back in `state`. */
  function GivenBack(job: Job, state: JobState, now: int): Job {
    WithEvent(job.(head := job.head.(state := state, runner := None)), JobEnded(state), None, now)
  }

  /** Success needs a completed final stage and all others done, waiting a stage that waits, a pause no loose end. */
  predicate Supported(rows: seq<StageRow>, state: JobState) {
    && (state == Succeeded ==>
          && (forall i :: 0 <= i < |rows| ==> rows[i].state == Completed || rows[i].state == Skipped)
          && rows != [] && rows[|rows| - 1].state == Completed)
    && (state == WaitingTools ==> exists i :: 0 <= i < |rows| && rows[i].state == StageWaitingTools)
    && (state == Paused ==>
          forall i :: 0 <= i < |rows| ==>
              rows[i].state in {StageState.Completed, StageState.Skipped, StageState.Pending})
  }

  lemma FinishExact(job: Job, fence: Fence, asked: JobState, now: int)
    ensures var reply := Finish(job, fence, asked, now);
            var state := if job.head.cancelRequested then Cancelled
                         else if job.head.spec.limits.deadline <= now then Expired else asked;
            && (reply.Accept? <==>
                  && (Over(asked) || asked == Paused) && Owns(job, fence)
                  && (forall i :: 0 <= i < |job.rows| ==> job.rows[i].state != InFlight)
                  && Supported(job.rows, state))
            && (reply.Accept? ==> reply.value == state && reply.job == GivenBack(job, state, now))
  {
  }

  lemma UnreadableExact(job: Job, fence: Fence, retainUntil: int, now: int)
    ensures var reply := FinishUnreadable(job, fence, retainUntil, now);
            var state := if job.head.cancelRequested then Cancelled else Expired;
            && (reply.Accept? <==>
                  && Owns(job, fence) && retainUntil <= now
                  && (forall i :: 0 <= i < |job.rows| ==> job.rows[i].state != InFlight))
            && (reply.Accept? ==> reply.value == state && reply.job == GivenBack(job, state, now))
  {
  }

  predicate AnyRow(rows: seq<StageRow>, state: StageState) {
    exists i :: 0 <= i < |rows| && rows[i].state == state
  }

  /** Attempts in flight become uncertain; every other row stays. */
  predicate Quarantines(before: seq<StageRow>, after: seq<StageRow>) {
    && |after| == |before|
    && forall i :: 0 <= i < |before| ==>
         after[i] == if before[i].state == InFlight then before[i].(state := Uncertain) else before[i]
  }

  /**
   Recovery closes the job of the fence: interrupted if an attempt may have had an effect,
   otherwise by the worst row: cancelled, expired, failed, waiting for tools, or else paused.
   */
  lemma RecoveryDecided(job: Job, fence: Fence, now: int)
    ensures var reply := Recover(job, fence, now);
            var lost := AnyRow(job.rows, InFlight) || AnyRow(job.rows, Uncertain);
            var cancelled := job.head.cancelRequested || AnyRow(job.rows, StageCancelled);
            var expired, failed := AnyRow(job.rows, StageExpired), AnyRow(job.rows, StageFailed);
            var waiting := AnyRow(job.rows, StageWaitingTools);
            && (reply.Accept? <==> Owns(job, fence))
            && (reply.Accept? ==>
                  && Quarantines(job.rows, reply.job.rows)
                  && reply.job
                     == GivenBack(job.(rows := reply.job.rows, head := job.head.(epoch := job.head.epoch + 1)),
                                            reply.value, now)
                  && (reply.value == Interrupted <==> lost)
                  && (reply.value == Cancelled <==> !lost && cancelled)
                  && (reply.value == Expired <==> !lost && !cancelled && expired)
                  && (reply.value == Failed <==> !lost && !cancelled && !expired && failed)
                  && (reply.value == WaitingTools <==> !lost && !cancelled && !expired && !failed && waiting)
                  && (reply.value == Paused <==> !lost && !cancelled && !expired && !failed && !waiting))
  {
    forall state: StageState ensures SomeRow(job.rows, state) <==> AnyRow(job.rows, state) {}
  }
}
