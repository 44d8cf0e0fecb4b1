/**
 The journal as the store keeps it: the rows of every job, updated one statement at a
 time inside one transaction per method (execution/store.py).  Every method is proved to
 do to the tables what the corresponding function of `Journal` does to the job.
 */
module JobStore {
  import opened Basics
  import opened Contracts
  import opened Journal
  import Replay

  datatype Answer<+T> = Ok(value: T) | Rejected(error: Error)

  type Table = map<string, Job>

  lemma PutTwice(t: Table, id: string, first: Job, second: Job)
    ensures t[id := first][id := second] == t[id := second]
  {
  }

  /** The answer and the new table of a transaction whose effect on one job is `reply`. */
  ghost predicate Settled<T(!new)>(before: Table, id: string, reply: Reply<T>, after: Table, answer: Answer<T>) {
    match reply
    case Accept(job, value) => after == before[id := job] && answer == Ok(value)
    case Refuse(error) => after == before && answer == Rejected(error)
  }

  /** The rows of every table, grouped by the job that owns them. */
  class LocalJobStore {
    const platform: Platform
    var jobs: Table

    ghost predicate Valid()
      reads this
    {
      forall id :: id in jobs ==> Shaped(jobs[id]) && jobs[id].rows != []
    }

    constructor (platform: Platform)
      ensures Valid() && jobs == map[] && this.platform == platform
    {
      this.platform := platform;
      jobs := map[];
    }

    /** `_owned`: a job is visible to its owner only. */
    predicate Owned(owner: string, id: string)
      reads this
    {
      id in jobs && jobs[id].head.owner == owner
    }

    // The UPDATE and INSERT statements of the source, one method each.

    method SetHead(id: string, head: Head)
      requires Valid() && id in jobs && head.spec == jobs[id].head.spec
      modifies this
      ensures Valid() && jobs == old(jobs)[id := old(jobs[id]).(head := head)]
    {
      jobs := jobs[id := jobs[id].(head := head)];
    }

    method SetRow(id: string, i: nat, row: StageRow)
      requires Valid() && id in jobs && i < |jobs[id].rows|
      modifies this
      ensures Valid() && jobs == old(jobs)[id := WithRow(old(jobs[id]), i, row)]
    {
      jobs := jobs[id := jobs[id].(rows := jobs[id].rows[i := row])];
    }

    /** `_event`: bump the counter, then insert the row it numbers. */
    method LogEvent(id: string, kind: EventKind, stage: Option<string>, now: int)
      requires Valid() && id in jobs
      modifies this
      ensures Valid() && jobs == old(jobs)[id := Logged(old(jobs[id]), kind, stage, now)]
    {
      var job := jobs[id];
      job := job.(head := job.head.(sequence := job.head.sequence + 1));
      job := job.(events := job.events + [Event(job.head.sequence, kind, stage, now)]);
      jobs := jobs[id := job];
    }

    method AddFragment(id: string, row: Fragment)
      requires Valid() && id in jobs
      modifies this
      ensures Valid() && jobs == old(jobs)[id := old(jobs[id]).(fragments := old(jobs[id]).fragments + [row])]
    {
      jobs := jobs[id := jobs[id].(fragments := jobs[id].fragments + [row])];
    }

    /** Inserts a queued job; `newId` is the new random identifier. */
    method Insert(owner: string, idem: string, spec: Spec, newId: string, now: int)
      requires Valid() && WellFormed(spec) && newId !in jobs
      modifies this
      ensures Valid() && jobs == old(jobs)[newId := NewJob(owner, idem, spec, now)]
    {
      ghost var before := jobs;
      var rows: seq<StageRow> := [];
      for ordinal := 0 to |spec.stages|
        invariant rows == seq(ordinal, i => StageRow(Pending, None, None, None))
      {
        rows := rows + [StageRow(Pending, None, None, None)];
      }
      var queued := Job(Head(owner, idem, spec, Queued, None, 0, false, 0, 0, 0), rows, [], []);
      jobs := jobs[newId := queued];
      LogEvent(newId, JobCreated, None, now);
      PutTwice(before, newId, queued, NewJob(owner, idem, spec, now));
    }

    method Begin(grant: Grant, id: string, token: string, now: int) returns (answer: Answer<Option<Fence>>)
      requires Valid()
      modifies this
      ensures Valid()
      ensures !old(Owned(grant.owner, id)) ==> answer == Rejected(NotFound) && jobs == old(jobs)
      ensures old(Owned(grant.owner, id)) ==>
                Settled(old(jobs), id, Journal.Begin(old(jobs[id]), grant, token, now), jobs, answer)
    {
      if !Owned(grant.owner, id) { return Rejected(NotFound); }
      answer := BeginOwned(grant, id, token, now);
    }

    method BeginOwned(grant: Grant, id: string, token: string, now: int) returns (answer: Answer<Option<Fence>>)
      requires Valid() && id in jobs
      modifies this
      ensures Valid()
      ensures Settled(old(jobs), id, Journal.Begin(old(jobs[id]), grant, token, now), jobs, answer)
    {
      ghost var before := jobs;
      var head := jobs[id].head;
      if head.spec.routeId !in grant.routes { return Rejected(Blocked); }
      if head.runner.Some? { return Rejected(Busy); }
      if !head.state.Queued? && !head.state.Paused? { return Rejected(NotResumable); }
      if head.spec.limits.deadline <= now {
        SetHead(id, head.(state := Expired));
        ghost var expired := jobs[id];
        LogEvent(id, JobEnded(Expired), None, now);
        PutTwice(before, id, expired, jobs[id]);
        return Ok(None);
      }
      SetHead(id, head.(runner := Some(token), epoch := head.epoch + 1, state := Running));
      ghost var owned := jobs[id];
      LogEvent(id, JobResumed, None, now);
      PutTwice(before, id, owned, jobs[id]);
      return Ok(Some(Fence(token, head.epoch + 1)));
    }

    /** What `stage` may read of one dependency: None when it is unusable. */
    method ReadArtifact(id: string, stage: Stage, dependency: string) returns (artifact: Option<Option<Artifact>>)
      requires Valid() && id in jobs
      ensures artifact == if DependencyUsable(jobs[id], stage, dependency) then Some(ArtifactOf(jobs[id], dependency))
              else None
    {
      var found := Find(jobs[id].head.spec.stages, dependency);
      if found.None? { return None; }
      var row := jobs[id].rows[found.value];
      if row.state.Skipped? {
        if stage.id != SYNTHESIS || dependency != DEBATE { return None; }
        return Some(None);
      }
      if !row.state.Completed? || row.result.None? { return None; }
      return Some(row.result);
    }

    /** Reads the artifacts of a stage one dependency at a time; None as soon as one is unusable. */
    method ReadArtifacts(id: string, stage: Stage) returns (artifacts: Option<Artifacts>)
      requires Valid() && id in jobs
      ensures artifacts == if DependenciesUsable(jobs[id], stage) then Some(ArtifactsFor(jobs[id], stage)) else None
    {
      var read: Artifacts := map[];
      ghost var job := jobs[id];
      for k := 0 to |stage.dependencies|
        invariant forall i :: 0 <= i < k ==> DependencyUsable(job, stage, stage.dependencies[i])
        invariant read == map d | d in stage.dependencies[..k] :: ArtifactOf(job, d)
      {
        var dependency := stage.dependencies[k];
        var artifact := ReadArtifact(id, stage, dependency);
        if artifact.None? {
          assert !DependencyUsable(job, stage, dependency);
          return None;
        }
        read := read[dependency := artifact.value];
        assert stage.dependencies[..k + 1] == stage.dependencies[..k] + [dependency];
      }
      assert stage.dependencies[..|stage.dependencies|] == stage.dependencies;
      return Some(read);
    }

    method CountInFlight(id: string) returns (n: nat)
      requires Valid() && id in jobs
      ensures n == InFlightCount(jobs[id].rows)
    {
      n := 0;
      var rows := jobs[id].rows;
      for k := 0 to |rows|
        invariant n == InFlightCount(rows[..k])
      {
        assert rows[..k + 1][..k] == rows[..k];
        if rows[k].state.InFlight? { n := n + 1; }
      }
      assert rows[..|rows|] == rows;
    }

    method Claim(grant: Grant, id: string, fence: Fence, stageId: string, attempt: string, now: int)
      returns (answer: Answer<Option<Ticket>>)
      requires Valid()
      modifies this
      ensures Valid()
      ensures !old(Owned(grant.owner, id)) ==> answer == Rejected(NotFound) && jobs == old(jobs)
      ensures old(Owned(grant.owner, id)) ==>
                Settled(old(jobs), id, Journal.Claim(old(jobs[id]), grant, fence, stageId, attempt, now), jobs, answer)
    {
      if !Owned(grant.owner, id) { return Rejected(NotFound); }
      var head := jobs[id].head;
      if !FenceHeld(head, fence.runner, fence.epoch) { return Rejected(StaleFence); }
      if head.spec.routeId !in grant.routes { return Rejected(Blocked); }
      if !head.state.Running? || head.cancelRequested { return Rejected(NotRunning); }
      if head.spec.limits.deadline <= now { return Rejected(DeadlineElapsed); }
      var found := Find(head.spec.stages, stageId);
      if found.None? { return Rejected(UnknownStage); }
      answer := ClaimRow(id, found.value, fence.epoch, attempt, now);
    }

    method ClaimRow(id: string, i: nat, epoch: nat, attempt: string, now: int) returns (answer: Answer<Option<Ticket>>)
      requires Valid() && id in jobs && i < |jobs[id].rows|
      modifies this
      ensures Valid()
      ensures Settled(old(jobs), id, ClaimAt(old(jobs[id]), i, epoch, attempt, now), jobs, answer)
    {
      ghost var before := jobs;
      var head, stage, row := jobs[id].head, jobs[id].head.spec.stages[i], jobs[id].rows[i];
      if !row.state.Pending? { return Rejected(NotRepeatable); }
      var running := CountInFlight(id);
      if head.spec.limits.maxParallel <= running { return Rejected(ParallelLimit); }
      var artifacts := ReadArtifacts(id, stage);
      if artifacts.None? { return Rejected(DependenciesUnready); }
      if stage.condition.Some? {
        var decision := Decision(artifacts.value);
        if decision.None? { return Rejected(DecisionMissing); }
        if !decision.value {
          SetRow(id, i, row.(state := Skipped));
          ghost var skipped := jobs[id];
          LogEvent(id, EventKind.StageSkipped, Some(stage.id), now);
          PutTwice(before, id, skipped, jobs[id]);
          return Ok(None);
        }
      }
      answer := ChargeAndStart(id, i, epoch, attempt, artifacts.value, now);
    }

    method ChargeAndStart(id: string, i: nat, epoch: nat, attempt: string, artifacts: Artifacts, now: int)
      returns (answer: Answer<Option<Ticket>>)
      requires Valid() && id in jobs && i < |jobs[id].rows|
      requires var job := jobs[id]; var stage := job.head.spec.stages[i];
               && job.rows[i].state.Pending? && InFlightCount(job.rows) < job.head.spec.limits.maxParallel
               && DependenciesUsable(job, stage) && artifacts == ArtifactsFor(job, stage)
               && (stage.condition.Some? ==> Decision(artifacts) == Some(true))
      modifies this
      ensures Valid()
      ensures Settled(old(jobs), id, ClaimAt(old(jobs[id]), i, epoch, attempt, now), jobs, answer)
    {
      ghost var before := jobs;
      var head, stage, row := jobs[id].head, jobs[id].head.spec.stages[i], jobs[id].rows[i];
      var tokens := head.tokensReserved + stage.TokenReservation();
      var cost := head.costReserved + stage.costCap;
      if head.spec.limits.tokenLimit < tokens || head.spec.limits.costLimit < cost {
        return Rejected(ReservationExceeded);
      }
      SetHead(id, head.(tokensReserved := tokens, costReserved := cost));
      ghost var charged := jobs[id];
      SetRow(id, i, row.(state := InFlight, attempt := Some(attempt), epoch := Some(epoch)));
      ghost var started := jobs[id];
      LogEvent(id, StageStarted, Some(stage.id), now);
      PutTwice(before, id, charged, started);
      PutTwice(before, id, started, jobs[id]);
      return Ok(Some(Ticket(attempt, artifacts)));
    }

    method Complete(owner: string, id: string, fence: Fence, stageId: string, attempt: string, raw: RawResult, now: int)
      returns (answer: Answer<StageState>)
      requires Valid()
      modifies this
      ensures Valid()
      ensures !old(Owned(owner, id)) ==> answer == Rejected(NotFound) && jobs == old(jobs)
      ensures old(Owned(owner, id)) ==>
                Settled(old(jobs), id, Journal.Complete(platform, old(jobs[id]), fence, stageId, attempt, raw, now),
                        jobs, answer)
    {
      ghost var before := jobs;
      if !Owned(owner, id) { return Rejected(NotFound); }
      var head := jobs[id].head;
      if !FenceHeld(head, fence.runner, fence.epoch) { return Rejected(StaleFence); }
      var found := Find(head.spec.stages, stageId);
      if found.None? { return Rejected(UnknownStage); }
      var i := found.value;
      var row := jobs[id].rows[i];
      if !AttemptLive(row, fence.epoch, attempt) { return Rejected(StaleAttempt); }
      var safe := SafeResult(platform, raw, head.spec.stages[i]);
      if safe.None? { return Rejected(InvalidResult); }
      var state := Completed;
      if head.cancelRequested || !head.state.Running? {
        state := StageCancelled;
      } else if head.spec.limits.deadline <= now {
        state := StageExpired;
      } else if raw.toolCalls != [] {
        state := StageWaitingTools;
      }
      var keep := state.Completed? || state.StageWaitingTools?;
      SetRow(id, i, row.(state := state, result := if keep then safe else None));
      ghost var stored := jobs[id];
      LogEvent(id, if state.Completed? then StageFinished else StageBroken, Some(stageId), now);
      PutTwice(before, id, stored, jobs[id]);
      return Ok(state);
    }

    method FailStage(owner: string, id: string, fence: Fence, stageId: string, attempt: string, now: int)
      returns (answer: Answer<()>)
      requires Valid()
      modifies this
      ensures Valid()
      ensures !old(Owned(owner, id)) ==> answer == Rejected(NotFound) && jobs == old(jobs)
      ensures old(Owned(owner, id)) ==>
                Settled(old(jobs), id, Journal.FailStage(old(jobs[id]), fence, stageId, attempt, now), jobs, answer)
    {
      ghost var before := jobs;
      if !Owned(owner, id) { return Rejected(NotFound); }
      if !FenceHeld(jobs[id].head, fence.runner, fence.epoch) { return Rejected(StaleFence); }
      var found := Find(jobs[id].head.spec.stages, stageId);
      if found.None? || !AttemptLive(jobs[id].rows[found.value], fence.epoch, attempt) {
        return Rejected(StaleAttempt);
      }
      SetRow(id, found.value, jobs[id].rows[found.value].(state := StageFailed));
      ghost var failed := jobs[id];
      LogEvent(id, StageBroken, Some(stageId), now);
      PutTwice(before, id, failed, jobs[id]);
      return Ok(());
    }

    method AppendPublicDelta(grant: Grant, id: string, fence: Fence, stageId: string, attempt: string, text: string,
                             now: int) returns (answer: Answer<nat>)
      requires Valid()
      modifies this
      ensures Valid()
      ensures !old(Owned(grant.owner, id)) && 0 < |text| <= MAX_FRAGMENT_CHARS ==>
                answer == Rejected(NotFound) && jobs == old(jobs)
      ensures !old(Owned(grant.owner, id)) ==> answer.Rejected? && jobs == old(jobs)
      ensures old(Owned(grant.owner, id)) ==>
                Settled(old(jobs), id,
                        Journal.Publish(platform, old(jobs[id]), grant, fence, stageId, attempt, text, now),
                        jobs, answer)
    {
      ghost var before := jobs;
      if !(0 < |text| <= MAX_FRAGMENT_CHARS) { return Rejected(InvalidFragment); }
      if !Owned(grant.owner, id) { return Rejected(NotFound); }
      var head := jobs[id].head;
      if !FenceHeld(head, fence.runner, fence.epoch) { return Rejected(StaleFence); }
      if head.spec.routeId !in grant.routes { return Rejected(Blocked); }
      if !head.state.Running? || head.cancelRequested || head.spec.limits.deadline <= now {
        return Rejected(NotRunning);
      }
      var last := |jobs[id].rows| - 1;
      var stage := head.spec.stages[last];
      if !stage.isPublic || stage.id != stageId { return Rejected(PrivateStage); }
      if !AttemptLive(jobs[id].rows[last], fence.epoch, attempt) { return Rejected(StaleAttempt); }
      if MAX_FRAGMENTS_PER_JOB <= |jobs[id].fragments|
         || MAX_PUBLIC_ANSWER_CHARS < Characters(jobs[id].fragments) + |text| { return Rejected(FragmentLimit); }
      if !MarkerFree(platform, Tail(jobs[id].fragments) + text) { return Rejected(InvalidFragment); }
      LogEvent(id, AnswerFragment, Some(stageId), now);
      ghost var logged := jobs[id];
      AddFragment(id, Fragment(jobs[id].head.sequence, stageId, attempt, text));
      PutTwice(before, id, logged, jobs[id]);
      return Ok(jobs[id].head.sequence);
    }

    method RequestCancel(owner: string, id: string, now: int) returns (answer: Answer<bool>)
      requires Valid()
      modifies this
      ensures Valid()
      ensures !old(Owned(owner, id)) ==> answer == Rejected(NotFound) && jobs == old(jobs)
      ensures old(Owned(owner, id)) ==>
                Settled(old(jobs), id, Journal.RequestCancel(old(jobs[id]), now), jobs, answer)
    {
      ghost var before := jobs;
      if !Owned(owner, id) { return Rejected(NotFound); }
      var head := jobs[id].head;
      if head.state.Terminal() || head.cancelRequested { return Ok(false); }
      var state := if head.runner.Some? then Cancelling else Cancelled;
      SetHead(id, head.(cancelRequested := true, state := state));
      ghost var marked := jobs[id];
      LogEvent(id, JobCancelRequested, None, now);
      PutTwice(before, id, marked, jobs[id]);
      if state.Cancelled? {
        ghost var requested := jobs[id];
        LogEvent(id, JobEnded(Cancelled), None, now);
        PutTwice(before, id, requested, jobs[id]);
      }
      return Ok(true);
    }

    /** The shared tail of every ending: state, ownership and one event. */
    method Close(id: string, state: JobState, now: int)
      requires Valid() && id in jobs
      modifies this
      ensures Valid() && jobs == old(jobs)[id := Closed(old(jobs[id]), state, now)]
    {
      ghost var before := jobs;
      SetHead(id, jobs[id].head.(state := state, runner := None));
      ghost var released := jobs[id];
      LogEvent(id, JobEnded(state), None, now);
      PutTwice(before, id, released, jobs[id]);
    }

    method Finish(owner: string, id: string, fence: Fence, asked: JobState, now: int) returns (answer: Answer<JobState>)
      requires Valid()
      modifies this
      ensures Valid()
      ensures !asked.Terminal() && !asked.Paused? ==> answer == Rejected(InvalidFinalState) && jobs == old(jobs)
      ensures (asked.Terminal() || asked.Paused?) && !old(Owned(owner, id)) ==>
                answer == Rejected(NotFound) && jobs == old(jobs)
      ensures old(Owned(owner, id)) ==>
                Settled(old(jobs), id, Journal.Finish(old(jobs[id]), fence, asked, now), jobs, answer)
    {
      if !asked.Terminal() && !asked.Paused? { return Rejected(InvalidFinalState); }
      if !Owned(owner, id) { return Rejected(NotFound); }
      answer := FinishOwned(id, fence, asked, now);
    }

    method FinishOwned(id: string, fence: Fence, asked: JobState, now: int) returns (answer: Answer<JobState>)
      requires Valid() && id in jobs && (asked.Terminal() || asked.Paused?)
      modifies this
      ensures Valid()
      ensures Settled(old(jobs), id, Journal.Finish(old(jobs[id]), fence, asked, now), jobs, answer)
    {
      var head, rows := jobs[id].head, jobs[id].rows;
      if !FenceHeld(head, fence.runner, fence.epoch) { return Rejected(StaleFence); }
      if !NoneInFlight(rows) { return Rejected(StillInFlight); }
      var state := asked;
      if head.cancelRequested {
        state := Cancelled;
      } else if head.spec.limits.deadline <= now {
        state := Expired;
      }
      if state.Succeeded? && !(AllDone(rows) && rows[|rows| - 1].state.Completed?) {
        return Rejected(FrontierNotFinal);
      }
      if state.WaitingTools? && !(exists i :: 0 <= i < |rows| && rows[i].state.StageWaitingTools?) {
        return Rejected(FrontierNotFinal);
      }
      if state.Paused? && !CleanFrontier(rows) { return Rejected(FrontierNotFinal); }
      Close(id, state, now);
      return Ok(state);
    }

    /** The private store's path when the retention of the snapshot has elapsed. */
    method FinishUnreadable(owner: string, id: string, fence: Fence, retainUntil: int, now: int)
      returns (answer: Answer<JobState>)
      requires Valid()
      modifies this
      ensures Valid()
      ensures !old(Owned(owner, id)) ==> answer == Rejected(NotFound) && jobs == old(jobs)
      ensures old(Owned(owner, id)) ==>
                Settled(old(jobs), id, Journal.FinishUnreadable(old(jobs[id]), fence, retainUntil, now), jobs, answer)
    {
      if !Owned(owner, id) { return Rejected(NotFound); }
      if !FenceHeld(jobs[id].head, fence.runner, fence.epoch) { return Rejected(StaleFence); }
      if now < retainUntil { return Rejected(NotExpired); }
      if !NoneInFlight(jobs[id].rows) { return Rejected(StillInFlight); }
      var final := if jobs[id].head.cancelRequested then Cancelled else Expired;
      Close(id, final, now);
      return Ok(final);
    }

    method RecoverAbandoned(owner: string, id: string, fence: Fence, now: int) returns (answer: Answer<JobState>)
      requires Valid()
      modifies this
      ensures Valid()
      ensures !old(Owned(owner, id)) ==> answer == Rejected(NotFound) && jobs == old(jobs)
      ensures old(Owned(owner, id)) ==>
                Settled(old(jobs), id, Journal.Recover(old(jobs[id]), fence, now), jobs, answer)
    {
      ghost var before := jobs;
      if !Owned(owner, id) { return Rejected(NotFound); }
      if !FenceHeld(jobs[id].head, fence.runner, fence.epoch) { return Rejected(StaleFence); }
      var state := RecoveredState(jobs[id]);
      Quarantine(id);
      ghost var quarantined := jobs[id];
      SetHead(id, jobs[id].head.(epoch := jobs[id].head.epoch + 1));
      ghost var fenced := jobs[id];
      Close(id, state, now);
      PutTwice(before, id, quarantined, fenced);
      PutTwice(before, id, fenced, jobs[id]);
      return Ok(state);
    }

    /** Every stage that was in flight becomes uncertain: nobody knows whether it took effect. */
    method Quarantine(id: string)
      requires Valid() && id in jobs
      modifies this
      ensures Valid() && jobs == old(jobs)[id := old(jobs[id]).(rows := Quarantined(old(jobs[id]).rows))]
    {
      var rows := jobs[id].rows;
      ghost var was := rows;
      for k := 0 to |rows|
        invariant |rows| == |was|
        invariant forall i :: 0 <= i < k ==> rows[i] == Quarantined(was)[i]
        invariant forall i :: k <= i < |rows| ==> rows[i] == was[i]
      {
        if rows[k].state.InFlight? {
          rows := rows[k := rows[k].(state := Uncertain)];
        }
      }
      assert rows == Quarantined(was);
      jobs := jobs[id := jobs[id].(rows := rows)];
    }

    /** `control_state`: the fenced view of an active worker. */
    method ControlState(owner: string, id: string, fence: Fence) returns (answer: Answer<(JobState, bool)>)
      requires Valid()
      ensures answer == if !Owned(owner, id) then Rejected(NotFound)
                        else if !FenceHeld(jobs[id].head, fence.runner, fence.epoch) then Rejected(StaleFence)
                        else Ok((jobs[id].head.state, jobs[id].head.cancelRequested))
    {
      if !Owned(owner, id) { return Rejected(NotFound); }
      if !FenceHeld(jobs[id].head, fence.runner, fence.epoch) { return Rejected(StaleFence); }
      return Ok((jobs[id].head.state, jobs[id].head.cancelRequested));
    }

    /** `frontier`: the fenced runner's view of the stage rows, by ordinal. */
    method Frontier(owner: string, id: string, fence: Fence) returns (answer: Answer<seq<StageRow>>)
      requires Valid()
      ensures answer == if !Owned(owner, id) then Rejected(NotFound)
                        else if !FenceHeld(jobs[id].head, fence.runner, fence.epoch) then Rejected(StaleFence)
                        else Ok(jobs[id].rows)
    {
      if !Owned(owner, id) { return Rejected(NotFound); }
      if !FenceHeld(jobs[id].head, fence.runner, fence.epoch) { return Rejected(StaleFence); }
      return Ok(jobs[id].rows);
    }

    /** One page of `replay`: select, check for gaps, then describe row by row. */
    method ReplayEvents(owner: string, id: string, after: nat, limit: nat) returns (page: Option<Replay.Page>)
      requires Valid()
      ensures page == if Owned(owner, id) then Replay.ReplayPage(jobs[id], after, limit) else None
    {
      if !(1 <= limit <= Replay.MAX_PAGE) || !Owned(owner, id) { return None; }
      if jobs[id].head.sequence < after { return None; }
      var rows := Replay.Limited(Replay.Newer(jobs[id].events, after), limit);
      if |rows| != Min(jobs[id].head.sequence - after, limit) || !Replay.Gapless(rows, after) { return None; }
      var told: seq<Replay.PublicEvent> := [];
      for k := 0 to |rows|
        invariant Replay.DescribeAll(jobs[id], rows[..k]) == Some(told)
      {
        assert rows[..k + 1][..k] == rows[..k];
        var row := Replay.Describe(jobs[id], rows[k]);
        if row.None? {
          DescribeFails(jobs[id], rows, k);
          return None;
        }
        told := told + row.value;
      }
      assert rows[..|rows|] == rows;
      return Some(Replay.Page(told, if rows == [] then after else rows[|rows| - 1].sequence));
    }
  }

  lemma {:induction false} DescribeFails(job: Job, rows: seq<Event>, k: nat)
    requires Shaped(job) && job.rows != [] && k < |rows| && Replay.Describe(job, rows[k]).None?
    ensures Replay.DescribeAll(job, rows).None?
  {
    if k < |rows| - 1 {
      DescribeFails(job, rows[..|rows| - 1], k);
    }
  }
}
