/**
 The batch scheduler itself (execution/runner.py `LocalRunner.run`): claim a batch of
 ready stages, drain it, and go on until the job is done, a slice is used up or something
 failed; then hand the job back.
 */
module Runner {
  import opened Basics
  import opened Contracts
  import opened Journal
  import opened JournalInvariants
  import opened Guarantees
  import opened JobStore
  import opened ScheduleIndependence
  import opened Scheduling
  import opened StageThreads
  import opened RunnerSteps

  // ---- the runner's own transactions, on the store ------------------------------------------------

  /** What a committed claim leaves behind: a skipped row, or a live attempt and its order. */
  ghost predicate Claims(c: Basis, i: nat, row: StageRow, ticket: Option<Ticket>, trail: Trail) {
    && (ticket.None? ==> row.state.Skipped?)
    && (ticket.Some? ==>
          && i < |c.spec.stages| && AttemptLive(row, c.fence.epoch, ticket.value.attempt)
          && OrderOf(c, c.spec.stages[i], ticket.value) in trail.orders)
  }

  /** `claim`, and what it does to what is tracked. */
  method ClaimTracked(store: LocalJobStore, id: string, ghost d: nat, ghost c: Basis, ghost view: seq<StageRow>,
                      ghost trail: Trail, ghost kept: bool, spec: Spec, fence: Fence, grant: Grant, i: nat,
                      attempt: string, now: int)
    returns (answer: Answer<Option<Ticket>>, ghost row: StageRow, ghost next: Trail)
    requires store.Valid() && id in store.jobs && store.platform == c.p && spec == c.spec && fence == c.fence
    requires d == 1 && Sealed(d, c) && Tracked(c, store.jobs[id], view, trail, kept) && i < |view|
    requires grant.owner == c.owner
    modifies store
    ensures store.Valid() && id in store.jobs && (Holds(store.jobs[id], fence) ==> old(Holds(store.jobs[id], fence)))
    ensures trail.orders <= next.orders && next.published == trail.published
    ensures answer.Rejected? ==> store.jobs == old(store.jobs) && next == trail
    ensures InFlightCount(view) < spec.limits.maxParallel ==> answer != Rejected(ParallelLimit)
    ensures Claimable(c, view, kept, grant, i, now) ==> answer.Ok?
    ensures answer.Ok? ==> old(Holds(store.jobs[id], fence)) && Tracked(c, store.jobs[id], view[i := row], next, kept)
    ensures answer.Ok? ==> Claims(c, i, row, answer.value, next)
  {
    ghost var before := store.jobs[id];
    ClaimStep(d, c, before, view, trail, kept, grant, i, attempt, now);
    answer := store.Claim(grant, id, fence, spec.stages[i].id, attempt, now);
    row := store.jobs[id].rows[i];
    next := if answer.Ok? then AfterClaim(trail, before, DoClaim(grant, fence, spec.stages[i].id, attempt, now))
      else trail;
  }

  /** `complete`, and what it does to what is tracked. */
  method CompleteTracked(store: LocalJobStore, id: string, ghost d: nat, ghost c: Basis, ghost view: seq<StageRow>,
                         ghost trail: Trail, ghost kept: bool, spec: Spec, fence: Fence, i: nat, ticket: Ticket,
                         raw: RawResult, now: int)
    returns (answer: Answer<StageState>, ghost row: StageRow)
    requires store.Valid() && id in store.jobs && store.platform == c.p && spec == c.spec && fence == c.fence
    requires d == 1 && Sealed(d, c) && Tracked(c, store.jobs[id], view, trail, kept) && i < |view|
    requires Backed(c, spec.stages[i], Verified(ticket, raw), trail, kept)
    modifies store
    ensures store.Valid() && id in store.jobs && (Holds(store.jobs[id], fence) ==> old(Holds(store.jobs[id], fence)))
    ensures answer.Rejected? ==> store.jobs == old(store.jobs)
    ensures answer.Ok? ==>
              && Tracked(c, store.jobs[id], view[i := row], AfterComplete(c, trail, spec.stages[i], ticket), kept)
              && old(Holds(store.jobs[id], fence)) && row.state == answer.value && Concludes(row.state)
    ensures c.calm && kept && AttemptLive(view[i], fence.epoch, ticket.attempt) && now < spec.limits.deadline ==>
              answer == Ok(Completed)
  {
    CompleteStep(d, c, store.jobs[id], view, trail, kept, i, ticket, raw, now);
    if c.calm && kept && AttemptLive(view[i], fence.epoch, ticket.attempt) && now < spec.limits.deadline {
      CalmDelivery(d, c, store.jobs[id], view, trail, i, ticket, raw, now);
    }
    answer := store.Complete(store.jobs[id].head.owner, id, fence, spec.stages[i].id, ticket.attempt, raw, now);
    row := store.jobs[id].rows[i];
  }

  /** `finish`, and what it does to what is tracked. */
  method FinishTracked(store: LocalJobStore, id: string, ghost d: nat, ghost c: Basis, ghost view: seq<StageRow>,
                       ghost trail: Trail, ghost kept: bool, fence: Fence, asked: JobState, now: int)
    returns (answer: Answer<JobState>)
    requires store.Valid() && id in store.jobs && store.platform == c.p && fence == c.fence
    requires d == 1 && Sealed(d, c) && Tracked(c, store.jobs[id], view, trail, kept) && Justified(asked, view)
    requires c.timely ==> now < c.spec.limits.deadline
    modifies store
    ensures store.Valid() && id in store.jobs
    ensures answer.Rejected? ==>
              store.jobs == old(store.jobs) && (!Holds(store.jobs[id], fence) || FinalSkipped(asked, view))
    ensures answer.Ok? ==>
              && old(Holds(store.jobs[id], fence)) && Tracked(c, store.jobs[id], view, trail, false)
              && HandedBack(c, store.jobs[id], view, trail, asked, answer.value)
    ensures Grantable(c, kept, asked, now) ==> answer == Ok(asked)
  {
    FinishStep(d, c, store.jobs[id], view, trail, kept, asked, now);
    answer := store.Finish(store.jobs[id].head.owner, id, fence, asked, now);
  }

  // ---- one run of the scheduler ----------------------------------------------------------------------

  /** The batch to submit: the first ready stages in the order of the plan, as many as the width allows. */
  method PickBatch(spec: Spec, rows: seq<StageRow>, width: nat) returns (batch: seq<nat>)
    requires |rows| == |spec.stages|
    ensures var ready := ReadyUpTo(spec.stages, rows, |rows|); batch == ready[..Min(width, |ready|)]
  {
    var ready := ReadyUpTo(spec.stages, rows, |rows|);
    batch := ready[..Min(width, |ready|)];
  }

  class LocalRunner {
    const store: LocalJobStore
    const owner: string
    const id: string
    const fence: Fence
    const spec: Spec
    const callback: Callback
    const persist: bool
    const oracle: nat -> Moment
    const startedClock: real
    const deadline: real

    var tick: nat
    var batch: seq<nat>
    var phases: seq<Phase>
    var stopped: bool
    var failure: Option<Failure>
    var final: JobState
    ghost const basis: Basis
    ghost const seal: nat
    ghost var trail: Trail
    ghost var kept: bool
    ghost var base: seq<StageRow>
    ghost var view: seq<StageRow>

    /** The fixed facts of this run. */
    ghost predicate Grounding() {
      && seal == 1 && Sealed(seal, basis)
      && basis.p == store.platform && basis.callback == callback && basis.persist == persist && basis.oracle == oracle
      && basis.owner == owner && basis.spec == spec && basis.fence == fence
      && basis.startedClock == startedClock && basis.deadline == deadline
      && (basis.calm ==> basis.steady && basis.timely && basis.uncancelled)
    }

    /** An undisturbed run, as long as it owns the job. */
    ghost predicate Smooth()
      reads this`kept
    {
      basis.calm && kept
    }

    /** A runner that is recovered at once has lost its job when it first looks. */
    ghost predicate Doomed()
      reads this, store
      requires id in store.jobs
    {
      var head := store.jobs[id].head;
      if tick == 0 then Ours() && CleanFrontier(view) && !head.cancelRequested
      else head.runner.None? && head.state.Paused? && store.jobs[id].rows == view
    }

    ghost predicate Inv()
      reads this, store
    {
      && store.Valid() && id in store.jobs
      && Grounding()
      && Tracked(basis, store.jobs[id], view, trail, kept)
      && (basis.doomed ==> Doomed())
      && (Smooth() ==> !stopped && failure.None?)
    }

    ghost predicate Threads()
      reads this`batch, this`phases, this`base, this`view, this`trail, this`kept, this`stopped
    {
      ThreadsOf(basis, base, view, batch, phases, trail, kept) && Undaunted(basis, phases, stopped)
    }

    ghost predicate BatchInv()
      reads this, store
    {
      Inv() && !basis.doomed && Threads()
    }

    /** Nothing has gone wrong yet. */
    predicate Quiet()
      reads this
    {
      !stopped && failure.None? && final.Failed?
    }

    predicate Ours()
      reads store
      requires id in store.jobs
    {
      Holds(store.jobs[id], fence)
    }

    constructor (store: LocalJobStore, owner: string, id: string, fence: Fence, callback: Callback, persist: bool,
                 oracle: nat -> Moment, startedClock: real, deadline: real, ghost basis: Basis)
      requires store.Valid() && store.Owned(owner, id)
      requires CleanFrontier(store.jobs[id].rows) && !store.jobs[id].head.cancelRequested
               && Holds(store.jobs[id], fence)
      requires Grounded(basis)
      requires Tracked(basis, store.jobs[id], store.jobs[id].rows, FirstTrail(store.jobs[id]), basis.unrecovered)
      requires basis.p == store.platform && basis.callback == callback && basis.persist == persist
               && basis.oracle == oracle
      requires basis.owner == owner && basis.spec == store.jobs[id].head.spec && basis.fence == fence
      requires basis.startedClock == startedClock && basis.deadline == deadline
      ensures Inv() && Quiet() && view == store.jobs[id].rows && CleanFrontier(view)
      ensures this.store == store && this.id == id && this.fence == fence && this.basis == basis
              && kept == basis.unrecovered
    {
      this.store, this.owner, this.id, this.fence := store, owner, id, fence;
      this.spec, this.callback, this.persist := store.jobs[id].head.spec, callback, persist;
      this.oracle, this.startedClock, this.deadline := oracle, startedClock, deadline;
      tick, batch, phases := 0, [], [];
      stopped, failure, final := false, None, Failed;
      this.basis, seal := basis, 1;
      base, view := store.jobs[id].rows, store.jobs[id].rows;
      trail, kept := FirstTrail(store.jobs[id]), basis.unrecovered;
      Unseal(1, basis);
    }

    /** Other parties commit whatever they commit; then the clocks and the grant are read. */
    method Wait() returns (m: Moment)
      requires Inv()
      modifies this`tick, store
      ensures Inv() && m == oracle(old(tick)) && tick == old(tick) + 1
      ensures Ours() ==> old(Ours())
      ensures Smooth() ==> Fine(basis, m)
      ensures (basis.steady ==> OnDuty(basis, m)) && (basis.timely ==> InTime(basis, m))
    {
      m := oracle(tick);
      var after := Run(store.platform, store.jobs[id], m.others);
      OthersStep(seal, basis, tick, store.jobs[id], view, trail, kept, after);
      if basis.doomed { DoomedStep(seal, basis, tick, store.jobs[id], view); }
      tick := tick + 1;
      store.jobs := store.jobs[id := after];
    }

    predicate Entitled(grant: Grant) {
      grant.owner == owner && spec.routeId in grant.routes
    }

    /** What `global_check` asks of the moment and the job, plus the stage deadline when there is one. */
    predicate Passes(m: Moment, job: Job, limit: Option<real>) {
      && Entitled(m.grant)
      && Holds(job, fence) && job.head.state.Running? && !job.head.cancelRequested
      && startedClock <= m.clock < deadline && m.wall < spec.limits.deadline
      && (limit.Some? ==> m.clock < limit.value)
    }

    /** `global_check`. */
    method Check(limit: Option<real>) returns (failure: Option<Failure>)
      requires Inv()
      modifies this`tick, store
      ensures Inv() && (stopped || tick == old(tick) + 1)
      ensures failure.None? <==> !stopped && Passes(oracle(old(tick)), store.jobs[id], limit)
      ensures Smooth() && (limit.Some? ==> NeverReached(basis, limit.value)) ==> failure.None?
      // Why it fails, apart from what the moment and the job show.
      ensures failure == Some(Expiry) && (limit.Some? ==> NeverReached(basis, limit.value)) ==> !basis.timely
      ensures failure == Some(Cancellation) ==> stopped || !basis.uncancelled
      ensures failure == Some(Other) ==> !basis.steady || !kept
      ensures Ours() ==> old(Ours())
    {
      if stopped { return Some(Cancellation); }
      var m := Wait();
      if !Entitled(m.grant) { return Some(Other); }
      var control := store.ControlState(owner, id, fence);
      if control.Rejected? { return Some(Other); }
      var (state, cancelled) := control.value;
      if cancelled || state.Cancelling? { return Some(Cancellation); }
      if !state.Running? || m.clock < startedClock { return Some(Other); }
      if deadline <= m.clock || spec.limits.deadline <= m.wall { return Some(Expiry); }
      if limit.Some? && limit.value <= m.clock { return Some(Expiry); }
      return None;
    }

    /** A thread is cancelled for a reason only. */
    ghost predicate Dares(phase: Phase)
      reads this`stopped
    {
      CauseOf(phase) == Some(Cancellation) ==> stopped || !basis.uncancelled || !basis.tame
    }

    /** Thread `k` enters `phase`; its row did not change. */
    method Enter(k: nat, phase: Phase)
      requires BatchInv() && k < |phases| && Fits(view[batch[k]], phase, fence.epoch)
      requires Backed(basis, spec.stages[batch[k]], phase, trail, kept) && Dares(phase)
      modifies this`phases
      ensures BatchInv() && phases == old(phases)[k := phase]
    {
      ThreadStays(basis, base, view, batch, phases, trail, trail, kept, k, phase);
      phases := phases[k := phase];
    }

    /** What the runner still knows after one of its own transactions moved row `i` to `row`. */
    ghost predicate Moved(i: nat, row: StageRow)
      reads this, store
    {
      && store.Valid() && id in store.jobs
      && Grounding() && !basis.doomed
      && i < |view| && Tracked(basis, store.jobs[id], view[i := row], trail, kept)
      && (Smooth() ==> !stopped && failure.None?)
    }

    /** The store accepted a transaction of thread `k`: its row and its phase moved together. */
    method Record(k: nat, ghost before: Trail, ghost row: StageRow, phase: Phase)
      requires ThreadsOf(basis, base, view, batch, phases, before, kept)
      requires k < |phases| && Fits(row, phase, basis.fence.epoch) && Moved(batch[k], row)
      requires BackedBut(basis, batch, phases, trail, kept, k)
      requires Backed(basis, basis.spec.stages[batch[k]], phase, trail, kept)
      requires Undaunted(basis, phases, stopped) && Dares(phase)
      modifies this`phases, this`view
      ensures BatchInv() && phases == old(phases)[k := phase]
    {
      ThreadPut(basis, base, view, batch, phases, before, trail, kept, k, row, phase);
      view := view[batch[k] := row];
      phases := phases[k := phase];
    }

    /** One transaction of thread `k`. */
    method Advance(k: nat)
      requires BatchInv() && k < |phases| && !phases[k].Finished?
      modifies this`tick, this`trail, this`phases, this`view, store
      ensures BatchInv() && |phases| == |old(phases)|
      ensures phases == old(phases)[k := phases[k]]
      ensures Forward(callback, spec.stages[batch[k]], old(phases)[k], phases[k])
      ensures Ours() ==> old(Ours())
    {
      if phases[k].Answered? || phases[k].Verified? || phases[k].Failing? {
        Conclude(k);
        return;
      }
      match phases[k]
      case Submitted =>
        var passed := Pass(k, None, Cleared);
      case Cleared => ClaimStage(k);
      case Claimed(ticket, limit) => CallWorker(k);
      case Streaming(ticket, limit, pieces, ending) => Stream(k);
    }

    /** The worker has returned or raised. */
    method Conclude(k: nat)
      requires BatchInv() && k < |phases| && (phases[k].Answered? || phases[k].Verified? || phases[k].Failing?)
      modifies this`tick, this`trail, this`phases, this`view, store
      ensures BatchInv() && |phases| == |old(phases)|
      ensures phases == old(phases)[k := phases[k]]
      ensures Forward(callback, spec.stages[batch[k]], old(phases)[k], phases[k])
      ensures Ours() ==> old(Ours())
    {
      match phases[k]
      case Answered(ticket, limit, raw) => CheckAnswer(k);
      case Verified(ticket, raw) => CompleteStage(k);
      case Failing(ticket, cause) => AbandonStage(k);
    }

    /** The worker is called with the artifacts of the claim. */
    method CallWorker(k: nat)
      requires BatchInv() && k < |phases| && phases[k].Claimed?
      modifies this`tick, this`phases, store
      ensures BatchInv() && phases == old(phases)[k := phases[k]]
      // Only after a control check within the stage deadline.
      ensures phases[k].Streaming? ==> Passes(oracle(old(tick)), store.jobs[id], Some(old(phases)[k].limit))
      ensures Forward(callback, spec.stages[batch[k]], old(phases)[k], phases[k])
      ensures Ours() ==> old(Ours())
    {
      var Claimed(ticket, limit) := phases[k];
      var script := callback(spec.stages[batch[k]], ticket.artifacts);
      var next := Streaming(ticket, limit, AllPieces(script.fragments), script.ending);
      TellingStarts(seal, basis, store.jobs[id], view, trail, kept, batch[k], phases[k], next);
      var passed := Pass(k, Some(limit), next);
    }

    /** The worker has returned: one more control check. */
    method CheckAnswer(k: nat)
      requires BatchInv() && k < |phases| && phases[k].Answered?
      modifies this`tick, this`phases, store
      ensures BatchInv() && phases == old(phases)[k := phases[k]]
      // Only after a control check within the stage deadline.
      ensures phases[k].Verified? ==> Passes(oracle(old(tick)), store.jobs[id], Some(old(phases)[k].limit))
      ensures Forward(callback, spec.stages[batch[k]], old(phases)[k], phases[k])
      ensures Ours() ==> old(Ours())
    {
      var Answered(ticket, limit, raw) := phases[k];
      var passed := Pass(k, Some(limit), Verified(ticket, raw));
    }

    /** Enter `next` if the control check passes; otherwise raise, failing the attempt if there is one. */
    method Pass(k: nat, limit: Option<real>, next: Phase) returns (passed: bool)
      requires BatchInv() && k < |phases| && Fits(view[batch[k]], next, fence.epoch)
      requires Backed(basis, spec.stages[batch[k]], next, trail, kept)
      requires phases[k].Submitted? || phases[k].HasTicket()
      requires basis.timely && limit.Some? ==> NeverReached(basis, limit.value)
      requires CauseOf(next).None?
      modifies this`tick, this`phases, store
      ensures BatchInv() && phases == old(phases)[k := phases[k]]
      ensures passed ==> phases[k] == next && Passes(oracle(old(tick)), store.jobs[id], limit)
      ensures !passed ==> if old(phases)[k].Submitted? then phases[k].Finished? else phases[k].Failing?
      ensures Ours() ==> old(Ours())
    {
      var failure := Check(limit);
      passed := failure.None?;
      if passed {
        Enter(k, next);
      } else {
        Balk(k, failure.value);
      }
    }

    /** A failed control check is raised, failing the attempt if there is one. */
    method Balk(k: nat, cause: Failure)
      requires BatchInv() && k < |phases| && (phases[k].Submitted? || phases[k].HasTicket())
      requires !Smooth() && (cause == Expiry ==> !basis.timely)
      requires cause == Cancellation ==> stopped || !basis.uncancelled
      modifies this`phases
      ensures BatchInv() && phases == old(phases)[k := phases[k]]
      ensures if old(phases)[k].Submitted? then phases[k].Finished? else phases[k].Failing?
    {
      if phases[k].Submitted? {
        Enter(k, Finished(Raised(cause)));
      } else {
        Enter(k, Failing(phases[k].ticket, cause));
      }
    }

    // ---- the runner's transactions ---------------------------------------------------------

    method TryClaim(i: nat, m: Moment) returns (answer: Answer<Option<Ticket>>, ghost row: StageRow)
      requires Inv() && !basis.doomed && i < |view| && Entitled(m.grant)
      modifies this`trail, store
      ensures old(trail).orders <= trail.orders && trail.published == old(trail).published
      ensures answer.Rejected? ==> Inv() && trail == old(trail)
      ensures InFlightCount(view) < spec.limits.maxParallel ==> answer != Rejected(ParallelLimit)
      ensures Claimable(basis, view, kept, m.grant, i, m.now) ==> answer.Ok?
      ensures answer.Ok? ==> Moved(i, row) && Claims(basis, i, row, answer.value, trail)
      ensures Ours() ==> old(Ours())
    {
      answer, row, trail :=
        ClaimTracked(store, id, seal, basis, view, trail, kept, spec, fence, m.grant, i, m.attempt, m.now);
    }

    method TryComplete(i: nat, ticket: Ticket, raw: RawResult, now: int)
      returns (answer: Answer<StageState>, ghost row: StageRow)
      requires Inv() && !basis.doomed && i < |view| && Backed(basis, spec.stages[i], Verified(ticket, raw), trail, kept)
      modifies this`trail, store
      ensures trail.orders == old(trail).orders && trail.published == old(trail).published
      ensures answer.Rejected? ==> Inv() && trail == old(trail)
      ensures answer.Ok? ==> Moved(i, row) && row.state == answer.value && Concludes(row.state)
      ensures Smooth() && AttemptLive(view[i], fence.epoch, ticket.attempt) && now < spec.limits.deadline ==>
                answer == Ok(Completed)
      ensures Ours() ==> old(Ours())
    {
      answer, row := CompleteTracked(store, id, seal, basis, view, trail, kept, spec, fence, i, ticket, raw, now);
      if answer.Ok? { trail := AfterComplete(basis, trail, spec.stages[i], ticket); }
    }

    /** `fail_stage`; a refusal means that someone else fenced this runner, and is ignored. */
    method TryFail(i: nat, attempt: string, now: int) returns (ghost row: StageRow)
      requires Inv() && !basis.doomed && i < |view| && AttemptLive(view[i], fence.epoch, attempt)
      modifies store
      ensures Moved(i, row) && row.state.StageFailed?
      ensures Ours() ==> old(Ours())
    {
      FailStep(seal, basis, store.jobs[id], view, trail, kept, i, attempt, now);
      var answer := store.FailStage(owner, id, fence, spec.stages[i].id, attempt, now);
      row := if answer.Ok? then store.jobs[id].rows[i] else view[i].(state := StageFailed);
    }

    /** `append_public_delta` of the next piece of a public stage. */
    method TryPublish(i: nat, phase: Phase, m: Moment) returns (answer: Answer<nat>)
      requires Inv() && !basis.doomed && Entitled(m.grant) && (Smooth() ==> Fine(basis, m))
      requires i < |view| && phase.Streaming? && phase.pieces != [] && Backed(basis, spec.stages[i], phase, trail, kept)
      requires persist && spec.stages[i].isPublic && AttemptLive(view[i], fence.epoch, phase.ticket.attempt)
      modifies this`trail, store
      ensures Inv() && trail.orders == old(trail).orders
      ensures answer.Rejected? ==> trail == old(trail)
      ensures answer.Ok? ==>
                && Texts(trail.published) == Texts(old(trail).published) + [phase.pieces[0]]
                && |trail.published| == |old(trail).published| + 1
      ensures Smooth() ==> answer.Ok?
      ensures Ours() ==> old(Ours())
    {
      var stage, attempt, piece := spec.stages[i], phase.ticket.attempt, phase.pieces[0];
      if Smooth() { CalmPublish(seal, basis, store.jobs[id], view, trail, i, phase, m.grant, m.now); }
      PublishStep(seal, basis, store.jobs[id], view, trail, kept, m.grant, stage.id, attempt, piece, m.now);
      answer := store.AppendPublicDelta(m.grant, id, fence, stage.id, attempt, piece, m.now);
      if answer.Ok? { trail := AfterPublish(trail, store.jobs[id]); }
    }

    // ---- the steps of a thread ----------------------------------------------------------------

    /** A claimed stage has its own deadline; a skipped one is over. */
    function ClaimedPhase(ticket: Option<Ticket>, clock: real): Phase {
      if ticket.None? then Finished(Outcome(Skipped)) else Claimed(ticket.value, StageDeadline(clock))
    }

    /** The stage timeout from the claim on, or the run's own deadline if that is earlier. */
    function StageDeadline(clock: real): (limit: real)
      ensures limit <= deadline && limit <= clock + spec.limits.stageTimeout
      ensures limit < deadline ==> limit - clock == spec.limits.stageTimeout
    {
      if deadline < clock + spec.limits.stageTimeout then deadline else clock + spec.limits.stageTimeout
    }

    method ClaimStage(k: nat)
      requires BatchInv() && k < |phases| && phases[k].Cleared?
      modifies this`tick, this`trail, this`phases, this`view, store
      ensures BatchInv() && phases == old(phases)[k := phases[k]]
      ensures phases[k].Claimed? || phases[k].Finished?
      // The stage deadline: its own timeout from the moment of the claim, or the run's deadline if that is earlier.
      ensures phases[k].Claimed? ==> phases[k].limit == StageDeadline(oracle(old(tick)).clock)
      ensures Forward(callback, spec.stages[batch[k]], old(phases)[k], phases[k])
      ensures Ours() ==> old(Ours())
    {
      var m := Wait();
      if !Entitled(m.grant) {
        Enter(k, Finished(Raised(Other)));
      } else {
        ClaimEntitled(k, m);
      }
    }

    /** `claim`, and the stage deadline that starts with it. */
    method ClaimEntitled(k: nat, m: Moment)
      requires BatchInv() && k < |phases| && phases[k].Cleared? && Entitled(m.grant)
      requires (Smooth() ==> Fine(basis, m)) && (basis.timely ==> InTime(basis, m))
      modifies this`trail, this`phases, this`view, store
      ensures BatchInv() && phases == old(phases)[k := phases[k]]
      ensures phases[k].Finished? || (phases[k].Claimed? && phases[k].limit == StageDeadline(m.clock))
      ensures Ours() ==> old(Ours())
    {
      ghost var before := trail;
      ghost var row;
      var answer;
      answer, row := ClaimBatched(k, m);
      if answer.Rejected? {
        Enter(k, Finished(Raised(Other)));
        return;
      }
      StartWork(k, before, row, answer.value, m.clock);
    }

    /** A batch never exceeds the parallel limit, so that is never why a claim is refused. */
    method ClaimBatched(k: nat, m: Moment) returns (answer: Answer<Option<Ticket>>, ghost row: StageRow)
      requires BatchInv() && k < |phases| && phases[k].Cleared? && Entitled(m.grant)
      requires Smooth() ==> Fine(basis, m)
      modifies this`trail, store
      ensures answer != Rejected(ParallelLimit) && (Smooth() ==> answer.Ok?)
      ensures old(trail).orders <= trail.orders && trail.published == old(trail).published
      ensures answer.Rejected? ==> Inv() && trail == old(trail)
      ensures answer.Ok? ==> Moved(batch[k], row) && Claims(basis, batch[k], row, answer.value, trail)
      ensures Ours() ==> old(Ours())
    {
      StillClaimable(basis, base, view, batch, phases, trail, kept, k);
      answer, row := TryClaim(batch[k], m);
    }

    /** The claim is committed: the thread goes to work, or is over if its stage was skipped. */
    method StartWork(k: nat, ghost before: Trail, ghost row: StageRow, ticket: Option<Ticket>, clock: real)
      requires ThreadsOf(basis, base, view, batch, phases, before, kept) && k < |phases| && Moved(batch[k], row)
      requires before.orders <= trail.orders && trail.published == before.published
      requires phases[k].Cleared? && (basis.timely ==> NeverReached(basis, deadline))
      requires (basis.timely ==> NeverReached(basis, clock + spec.limits.stageTimeout))
               && Undaunted(basis, phases, stopped)
      requires Claims(basis, batch[k], row, ticket, trail)
      modifies this`phases, this`view
      ensures BatchInv() && phases == old(phases)[k := ClaimedPhase(ticket, clock)]
    {
      MoreOrders(basis, batch, phases, before, trail, kept, k);
      Record(k, before, row, ClaimedPhase(ticket, clock));
    }

    /** The next piece of a public answer, or the end of the worker call. */
    method Stream(k: nat)
      requires BatchInv() && k < |phases| && phases[k].Streaming?
      modifies this`tick, this`trail, this`phases, store
      ensures BatchInv() && phases == old(phases)[k := phases[k]]
      ensures Forward(callback, spec.stages[batch[k]], old(phases)[k], phases[k])
      // One piece more is stored if the thread streams on, and nothing otherwise.
      ensures Texts(trail.published)
              == Texts(old(trail).published) + (if phases[k].Streaming? then [old(phases)[k].pieces[0]] else [])
      ensures Ours() ==> old(Ours())
    {
      if phases[k].pieces == [] || !persist || !spec.stages[batch[k]].isPublic {
        EndStream(k);
      } else {
        SayNext(k);
      }
    }

    /** `persist` of one piece: the control check, the grant, the append. */
    method SayNext(k: nat)
      requires BatchInv() && k < |phases| && phases[k].Streaming? && phases[k].pieces != []
      requires persist && spec.stages[batch[k]].isPublic
      modifies this`tick, this`trail, this`phases, store
      ensures BatchInv() && phases == old(phases)[k := phases[k]]
      ensures phases[k].Failing? || phases[k] == Onward(old(phases)[k])
      ensures Texts(trail.published)
              == Texts(old(trail).published) + (if phases[k].Streaming? then [old(phases)[k].pieces[0]] else [])
      ensures Ours() ==> old(Ours())
    {
      var failure := Check(Some(phases[k].limit));
      if failure.Some? {
        Enter(k, Failing(phases[k].ticket, failure.value));
        return;
      }
      SayChecked(k);
    }

    /** The grant is read again, and the piece appended if it is entitled. */
    method SayChecked(k: nat)
      requires BatchInv() && k < |phases| && phases[k].Streaming? && phases[k].pieces != []
      requires persist && spec.stages[batch[k]].isPublic
      modifies this`tick, this`trail, this`phases, store
      ensures BatchInv() && phases == old(phases)[k := phases[k]]
      ensures phases[k].Failing? || phases[k] == Onward(old(phases)[k])
      ensures Texts(trail.published)
              == Texts(old(trail).published) + (if phases[k].Streaming? then [old(phases)[k].pieces[0]] else [])
      ensures Ours() ==> old(Ours())
    {
      var m := Wait();
      if Entitled(m.grant) {
        Say(k, m);
      } else {
        Enter(k, Failing(phases[k].ticket, Other));
      }
    }

    /** The worker has returned or raised. */
    method EndStream(k: nat)
      requires BatchInv() && k < |phases| && phases[k].Streaming?
      requires phases[k].pieces == [] || !persist || !spec.stages[batch[k]].isPublic
      modifies this`phases
      ensures BatchInv() && phases == old(phases)[k := phases[k]]
      ensures phases[k].Answered? || phases[k].Failing?
    {
      var Streaming(ticket, limit, pieces, ending) := phases[k];
      if Smooth() { CalmReturns(seal, basis, store.jobs[id], view, trail, batch[k], phases[k]); }
      ReturnedAnswer(seal, basis, spec.stages[batch[k]], ticket);
      match ending
      case Returned(raw) => Enter(k, Answered(ticket, limit, raw));
      case Threw(cause) => Enter(k, Failing(ticket, cause));
    }

    /** `append_public_delta` of one piece. */
    method Say(k: nat, m: Moment)
      requires BatchInv() && k < |phases| && phases[k].Streaming? && phases[k].pieces != []
      requires persist && spec.stages[batch[k]].isPublic && Entitled(m.grant) && (Smooth() ==> Fine(basis, m))
      modifies this`trail, this`phases, store
      ensures BatchInv() && phases == old(phases)[k := phases[k]]
      ensures phases[k].Failing? || phases[k] == Onward(old(phases)[k])
      ensures Texts(trail.published)
              == Texts(old(trail).published) + (if phases[k].Streaming? then [old(phases)[k].pieces[0]] else [])
      ensures Ours() ==> old(Ours())
    {
      ghost var before := trail;
      var answer := TryPublish(batch[k], phases[k], m);
      if answer.Rejected? {
        Enter(k, Failing(phases[k].ticket, Other));
        return;
      }
      Tell(k, before);
    }

    /** The text moved on, and thread `k` with it; its row did not change. */
    method Tell(k: nat, ghost before: Trail)
      requires Inv() && !basis.doomed && ThreadsOf(basis, base, view, batch, phases, before, kept)
      requires k < |phases| && phases[k].Streaming? && phases[k].pieces != [] && spec.stages[batch[k]].isPublic
      requires trail.orders == before.orders && |trail.published| == |before.published| + 1
      requires Undaunted(basis, phases, stopped)
      requires Texts(trail.published) == Texts(before.published) + [phases[k].pieces[0]]
      modifies this`phases
      ensures BatchInv() && phases == old(phases)[k := Onward(old(phases)[k])]
    {
      SaidOne(basis, batch, phases, before, trail, kept, k);
      ThreadStays(basis, base, view, batch, phases, before, trail, kept, k, Onward(phases[k]));
      phases := phases[k := Onward(phases[k])];
    }

    method CompleteStage(k: nat)
      requires BatchInv() && k < |phases| && phases[k].Verified?
      modifies this`tick, this`trail, this`phases, this`view, store
      ensures BatchInv() && phases == old(phases)[k := phases[k]]
      ensures phases[k].Failing? || phases[k].Finished?
      ensures Ours() ==> old(Ours())
    {
      var m := Wait();
      Deliver(k, m.now);
    }

    /** `complete`: the thread's outcome is the state the store recorded. */
    method Deliver(k: nat, now: int)
      requires BatchInv() && k < |phases| && phases[k].Verified? && (Smooth() ==> now < spec.limits.deadline)
      modifies this`trail, this`phases, this`view, store
      ensures BatchInv() && phases == old(phases)[k := phases[k]]
      ensures phases[k].Failing? || phases[k].Finished?
      ensures Ours() ==> old(Ours())
    {
      var Verified(ticket, raw) := phases[k];
      ghost var before := trail;
      ghost var row;
      var answer;
      answer, row := TryComplete(batch[k], ticket, raw, now);
      if answer.Rejected? {
        Enter(k, Failing(ticket, Other));
        return;
      }
      Return(k, before, row, answer.value);
    }

    /** The completion is committed: the thread returns the recorded state. */
    method Return(k: nat, ghost before: Trail, ghost row: StageRow, state: StageState)
      requires ThreadsOf(basis, base, view, batch, phases, before, kept) && k < |phases| && Moved(batch[k], row)
      requires before.orders <= trail.orders && trail.published == before.published
      requires row.state == state && Concludes(state) && Undaunted(basis, phases, stopped)
      requires Smooth() ==> state.Completed?
      modifies this`phases, this`view
      ensures BatchInv() && phases == old(phases)[k := Finished(Outcome(state))]
    {
      MoreOrders(basis, batch, phases, before, trail, kept, k);
      Record(k, before, row, Finished(Outcome(state)));
    }

    method AbandonStage(k: nat)
      requires BatchInv() && k < |phases| && phases[k].Failing?
      modifies this`tick, this`phases, this`view, store
      ensures BatchInv() && phases == old(phases)[k := phases[k]]
      ensures phases[k].Finished?
      ensures Forward(callback, spec.stages[batch[k]], old(phases)[k], phases[k])
      ensures Ours() ==> old(Ours())
    {
      var Failing(ticket, cause) := phases[k];
      var m := Wait();
      ghost var row := TryFail(batch[k], ticket.attempt, m.now);
      Record(k, trail, row, Finished(Raised(cause)));
    }

    // ---- draining a batch ------------------------------------------------------------------

    /** What the collected futures have left behind; `waiting` are the others. */
    ghost predicate Drained(waiting: seq<nat>)
      reads this
    {
      && (forall j :: 0 <= j < |waiting| ==> waiting[j] < |phases|)
      && (forall k :: 0 <= k < |phases| && k !in waiting ==> phases[k].Finished?)
      && (failure.None? ==> forall k :: 0 <= k < |phases| && k !in waiting ==> EndedWell(phases[k]))
      && (stopped <==> failure.Some?)
      && (failure.None? ==> final.Failed?)
      && Blamed(phases)
    }

    /** The final state and the failure have a cause: what some thread ended in, or what the main loop met. */
    ghost predicate Blamed(phases: seq<Phase>)
      reads this`final, this`failure, this`kept
    {
      BlamedOn(basis, kept, failure, final, phases)
    }

    /** What can make the main loop's own check fail. */
    ghost predicate Met(cause: Failure)
      reads this`kept
    {
      match cause
      case Expiry => !basis.timely
      case Cancellation => !basis.uncancelled
      case Other => !basis.steady || !kept
    }

    /** The main loop's own control check; the first failure stops the siblings. */
    method Poll()
      requires Inv()
      modifies this`tick, this`failure, this`stopped, store
      ensures Inv() && (old(stopped) || old(failure).Some? || tick == old(tick) + 1)
      ensures failure.None? ==> Ours() && (old(failure).None? ==> Passes(oracle(old(tick)), store.jobs[id], None))
      ensures old(failure).Some? ==> failure == old(failure) && stopped == old(stopped)
      ensures old(failure).None? ==> (failure.None? && stopped == old(stopped)) || (failure.Some? && stopped)
      ensures old(failure).None? && !old(stopped) && failure.Some? ==> Met(failure.value)
    {
      if failure.None? {
        failure := Check(None);
        stopped := stopped || failure.Some?;
      }
    }

    /** The outcome of thread `k` is collected: the first bad one decides. */
    method Collect(k: nat)
      requires k < |phases| && phases[k].Finished? && Blamed(phases) && (stopped <==> failure.Some?)
      requires Smooth() ==> failure.None? && EndedWell(phases[k])
      requires Undaunted(basis, phases, stopped)
      requires CauseOf(phases[k]) == Some(Expiry) ==> !basis.timely || !basis.tame
      requires phases[k].result.Outcome? ==> Concludes(phases[k].result.state)
      modifies this`failure, this`final, this`stopped
      ensures Smooth() ==> failure.None?
      ensures Blamed(phases) && (stopped <==> failure.Some?)
      ensures old(failure).Some? ==> failure == old(failure)
      ensures failure.None? ==> EndedWell(phases[k]) && final == old(final)
    {
      if failure.Some? { return; }
      match phases[k].result
      case Outcome(state) =>
        if !state.Done() {
          final := match state
            case StageWaitingTools => WaitingTools
            case StageCancelled => Cancelled
            case StageExpired => Expired
            case _ => Failed;
          failure, stopped := Some(Other), true;
        }
      case Raised(cause) =>
        failure, stopped := Some(cause), true;
    }

    /** The main loop's own control check while futures are outstanding. */
    method PollBatch(waiting: seq<nat>)
      requires BatchInv() && Drained(waiting)
      modifies this`tick, this`failure, this`stopped, store
      ensures BatchInv() && Drained(waiting)
      ensures failure.None? ==> Passes(oracle(old(tick)), store.jobs[id], None)
    {
      Poll();
    }

    /** One future is done: poll if `wait` had just returned, then look at its outcome. */
    method Gather(waiting: seq<nat>, w: nat, poll: bool) returns (rest: seq<nat>)
      requires BatchInv() && Drained(waiting) && w < |waiting| && phases[waiting[w]].Finished?
      modifies this`tick, this`failure, this`final, this`stopped, store
      ensures BatchInv() && Drained(rest) && |rest| < |waiting|
    {
      if poll { PollBatch(waiting); }
      rest := Take(waiting, w);
    }

    /** The outcome of a finished thread is collected, and the thread waited for no longer. */
    method Take(waiting: seq<nat>, w: nat) returns (rest: seq<nat>)
      requires BatchInv() && Drained(waiting) && w < |waiting| && phases[waiting[w]].Finished?
      modifies this`failure, this`final, this`stopped
      ensures BatchInv() && Drained(rest) && |rest| < |waiting|
    {
      Collect(waiting[w]);
      rest := waiting[..w] + waiting[w + 1..];
      WithoutOne(waiting, w);
    }

    /** The measure of a batch: transactions the threads may still make. */
    ghost function Unfinished(): (nat, nat)
      requires |batch| == |phases| && forall k :: 0 <= k < |batch| ==> batch[k] < |spec.stages|
      reads this
    {
      (SumUnclaimed(phases), SumRemaining(callback, spec.stages, batch, phases))
    }

    /** One thread makes one transaction. */
    method Turn(k: nat, waiting: seq<nat>)
      requires BatchInv() && Drained(waiting) && k < |phases| && !phases[k].Finished?
      modifies this`tick, this`trail, this`phases, this`view, store
      ensures BatchInv() && Drained(waiting)
      ensures Unfinished().0 < old(Unfinished()).0
              || (Unfinished().0 == old(Unfinished()).0 && Unfinished().1 < old(Unfinished()).1)
    {
      ghost var before := phases;
      AdvanceOne(k, waiting);
      MeasureDrops(callback, spec.stages, batch, before, k, phases[k]);
    }

    /** The futures already collected do not see it. */
    method AdvanceOne(k: nat, waiting: seq<nat>)
      requires BatchInv() && Drained(waiting) && k < |phases| && !phases[k].Finished?
      modifies this`tick, this`trail, this`phases, this`view, store
      ensures BatchInv() && Drained(waiting)
      ensures phases == old(phases)[k := phases[k]]
      ensures Forward(callback, spec.stages[batch[k]], old(phases)[k], phases[k])
    {
      ghost var before := phases;
      Advance(k);
      forall j | 0 <= j < |phases| && before[j].Finished? ensures phases[j] == before[j] {
        assert j != k;
      }
    }

    /** The operating system's choice of who moves next. */
    method Choose(waiting: seq<nat>) returns (w: nat, poll: bool)
      requires BatchInv() && Drained(waiting) && waiting != []
      modifies this`tick
      ensures BatchInv() && Drained(waiting) && w < |waiting|
    {
      var m := oracle(tick);
      tick := tick + 1;
      w, poll := m.pick % |waiting|, m.poll;
    }

    /** Wait for every started thread; `patience` bounds the idle polls. */
    method RunBatch(patience: nat)
      requires BatchInv() && Quiet()
      modifies this`tick, this`trail, this`phases, this`view, this`failure, this`final, this`stopped, store
      ensures BatchInv() && Blamed(phases) && (stopped <==> failure.Some?)
      ensures forall k :: 0 <= k < |phases| ==> phases[k].Finished?
      ensures failure.None? ==> AllSucceeded(phases) && final.Failed?
    {
      var waiting := Everyone(|batch|);
      var idle := patience;
      while waiting != []
        invariant BatchInv() && Drained(waiting)
        decreases Unfinished().0, Unfinished().1, |waiting|, idle
      {
        waiting, idle := Round(waiting, idle);
      }
    }

    /** A future is collected, the main loop polls, or a thread moves. */
    method Round(waiting: seq<nat>, idle: nat) returns (rest: seq<nat>, left: nat)
      requires BatchInv() && Drained(waiting) && waiting != []
      modifies this`tick, this`trail, this`phases, this`view, this`failure, this`final, this`stopped, store
      ensures BatchInv() && Drained(rest)
      ensures Unfinished().0 < old(Unfinished()).0
              || (Unfinished().0 == old(Unfinished()).0
                  && (Unfinished().1 < old(Unfinished()).1
                      || (Unfinished().1 == old(Unfinished()).1
                          && (|rest| < |waiting| || (|rest| == |waiting| && left < idle)))))
    {
      rest, left := waiting, idle;
      var w, poll := Choose(waiting);
      if phases[waiting[w]].Finished? {
        rest := Gather(waiting, w, poll);
      } else if poll && 0 < idle {
        PollBatch(waiting);
        left := idle - 1;
      } else {
        Turn(waiting[w], waiting);
      }
    }

    // ---- the main loop ------------------------------------------------------------------------

    /** The first `width` ready stages are submitted to the pool. */
    method Launch(rows: seq<StageRow>, width: nat)
      requires Inv() && !basis.doomed && rows == view && CleanFrontier(view) && !AllDone(view)
      requires 0 < width <= spec.limits.maxParallel
      modifies this`batch, this`phases, this`base
      ensures BatchInv() && base == view && 0 < |batch| <= width
    {
      batch := PickBatch(spec, rows, width);
      FirstThreads(basis, rows, width, batch, trail, kept);
      phases := seq(|batch|, k => Submitted);
      base := view;
    }

    /** The fenced frontier, if the control check passes. */
    method Look() returns (rows: Option<seq<StageRow>>)
      requires Inv() && Quiet()
      modifies this`tick, this`failure, this`stopped, this`final, store
      ensures Inv() && 0 < tick
      ensures rows.Some? ==> rows.value == view && Ours() && Quiet() && !basis.doomed
      ensures rows.None? ==> failure.Some? && stopped && final.Failed? && Met(failure.value)
    {
      Poll();
      if failure.Some? { return None; }
      var m := Wait();
      var answer := store.Frontier(owner, id, fence);
      if answer.Rejected? {
        failure, stopped := Some(Other), true;
        return None;
      }
      return Some(answer.value);
    }

    /** The state a failed run asks for. */
    method Classify() returns (asked: JobState)
      requires failure.Some?
      ensures asked == AskedFor(failure.value, final)
    {
      match failure.value
      case Expiry => asked := Expired;
      case Cancellation => asked := Cancelled;
      case Other => asked := final;
    }

    /** Drain a batch; without failure exactly its members moved. */
    method Cycle(rows: seq<StageRow>, width: nat, patience: nat)
      returns (ended: Option<JobState>, launched: nat)
      requires Inv() && !basis.doomed && Quiet() && rows == view && CleanFrontier(view) && !AllDone(view)
      requires 0 < width <= spec.limits.maxParallel
      modifies this, store
      ensures Inv() && kept == old(kept) && NoneInFlight(view) && 0 < launched <= width
      ensures ended.None? ==> Quiet() && CleanFrontier(view) && PendingCount(view) + launched == PendingCount(rows)
      ensures ended.Some? ==>
                && !Smooth() && !ended.value.Succeeded? && !ended.value.Paused? && Justified(ended.value, view)
                && Accounted(basis, kept, ended.value, view, LostSome(view, launched, PendingCount(rows)))
    {
      Launch(rows, width);
      launched := |batch|;
      ended := Drain(patience);
    }

    /** The submitted batch is drained; its failure, if any, decides the state to ask for. */
    method Drain(patience: nat) returns (ended: Option<JobState>)
      requires BatchInv() && Quiet()
      modifies this`tick, this`trail, this`phases, this`view, this`failure, this`final, this`stopped, store
      ensures Inv() && NoneInFlight(view)
      ensures ended.None? ==> Quiet() && CleanFrontier(view) && PendingCount(view) + |batch| == PendingCount(base)
      ensures ended.Some? ==>
                && !Smooth() && !ended.value.Succeeded? && !ended.value.Paused? && Justified(ended.value, view)
                && Accounted(basis, kept, ended.value, view, LostSome(view, |batch|, PendingCount(base)))
    {
      RunBatch(patience);
      ended := Verdict();
    }

    /** What a drained batch comes to. */
    method Verdict() returns (ended: Option<JobState>)
      requires BatchInv() && Blamed(phases) && (stopped <==> failure.Some?)
      requires forall k :: 0 <= k < |phases| ==> phases[k].Finished?
      requires failure.None? ==> AllSucceeded(phases) && final.Failed?
      ensures NoneInFlight(view)
      ensures ended.None? ==> Quiet() && CleanFrontier(view) && PendingCount(view) + |batch| == PendingCount(base)
      ensures ended.Some? ==>
                && !Smooth() && !ended.value.Succeeded? && !ended.value.Paused? && Justified(ended.value, view)
                && Accounted(basis, kept, ended.value, view, LostSome(view, |batch|, PendingCount(base)))
    {
      BatchConcluded(basis, kept, failure, final, base, view, batch, phases);
      if failure.None? { return None; }
      var asked := Classify();
      return Some(asked);
    }

    /**
     One round of the main loop: the state to ask for if it ends here, or a batch more.
     `all` stages were pending when the run began; `total` have been submitted afterwards.
     */
    method Next(maxStages: Option<nat>, started: nat, ghost all: nat, patience: nat)
      returns (ended: Option<JobState>, total: nat)
      requires Inv() && Quiet() && CleanFrontier(view) && (maxStages.Some? ==> started <= maxStages.value)
      requires PendingCount(view) + started == all
      modifies this, store
      ensures Inv() && kept == old(kept) && started <= total && (maxStages.Some? ==> total <= maxStages.value)
      ensures ended.None? ==>
                && Quiet() && CleanFrontier(view) && !basis.doomed && started < total
                && PendingCount(view) + total == all
      ensures ended.Some? ==>
                Justified(ended.value, view) && (basis.doomed ==> 0 < tick && total == started && view == old(view))
      ensures ended.Some? ==> Accounted(basis, kept, ended.value, view, LostSome(view, total, all))
      ensures ended == Some(Succeeded) || ended == Some(Paused) ==> PendingCount(view) + total == all
      ensures ended == Some(Paused) ==> maxStages == Some(total) && 0 < PendingCount(view)
      ensures Smooth() ==> ended.None? || ended == Some(Succeeded) || ended == Some(Paused)
    {
      var rows := Look();
      if rows.None? {
        var asked := Classify();
        return Some(asked), started;
      }
      ended, total := Proceed(rows.value, maxStages, started, all, patience);
    }

    /** The frontier has been seen: all is done, the slice is used up, or one more batch. */
    method Proceed(rows: seq<StageRow>, maxStages: Option<nat>, started: nat, ghost all: nat, patience: nat)
      returns (ended: Option<JobState>, total: nat)
      requires Inv() && Quiet() && !basis.doomed && rows == view && CleanFrontier(view)
      requires (maxStages.Some? ==> started <= maxStages.value) && PendingCount(view) + started == all
      modifies this, store
      ensures Inv() && kept == old(kept) && started <= total && (maxStages.Some? ==> total <= maxStages.value)
      ensures ended.None? ==> Quiet() && CleanFrontier(view) && started < total && PendingCount(view) + total == all
      ensures ended.Some? ==>
                Justified(ended.value, view) && Accounted(basis, kept, ended.value, view, LostSome(view, total, all))
      ensures ended == Some(Succeeded) || ended == Some(Paused) ==> PendingCount(view) + total == all
      ensures ended == Some(Paused) ==> maxStages == Some(total) && 0 < PendingCount(view)
      ensures Smooth() ==> ended.None? || ended == Some(Succeeded) || ended == Some(Paused)
    {
      if AllDone(rows) { return Some(Succeeded), started; }
      PendingLeft(view);
      if maxStages.Some? && maxStages.value <= started { return Some(Paused), started; }
      var width := spec.limits.maxParallel;
      if maxStages.Some? { width := Min(width, maxStages.value - started); }
      var launched;
      ended, launched := Cycle(rows, width, patience);
      total := started + launched;
    }

    /** Batch after batch, until all stages are done, the slice is used up or something failed. */
    method Drive(maxStages: Option<nat>, patience: nat) returns (asked: JobState, started: nat)
      requires Inv() && Quiet() && CleanFrontier(view) && (maxStages.Some? ==> 0 < maxStages.value)
      modifies this, store
      ensures Inv() && kept == old(kept) && Justified(asked, view)
      ensures Accounted(basis, kept, asked, view, LostSome(view, started, old(PendingCount(view))))
      ensures basis.doomed ==> 0 < tick && started == 0 && view == old(view)
      ensures maxStages.Some? ==> started <= maxStages.value
      ensures asked.Succeeded? || asked.Paused? ==> PendingCount(view) + started == old(PendingCount(view))
      ensures asked.Paused? ==> maxStages == Some(started) && 0 < PendingCount(view)
      ensures Smooth() ==> asked.Succeeded? || asked.Paused?
    {
      started := 0;
      ghost var all := PendingCount(view);
      var ended: Option<JobState> := None;
      while ended.None?
        invariant Inv() && kept == old(kept)
        invariant ended.None? ==> Quiet() && CleanFrontier(view)
        invariant ended.Some? ==> Justified(ended.value, view) && (basis.doomed ==> 0 < tick)
        invariant ended.Some? ==> Accounted(basis, kept, ended.value, view, LostSome(view, started, all))
        invariant basis.doomed ==> started == 0 && view == old(view)
        invariant ended.None? || ended == Some(Succeeded) || ended == Some(Paused) ==>
                    PendingCount(view) + started == all
        invariant Smooth() ==> ended.None? || ended == Some(Succeeded) || ended == Some(Paused)
        invariant ended == Some(Paused) ==> maxStages == Some(started) && 0 < PendingCount(view)
        invariant maxStages.Some? ==> started <= maxStages.value
        decreases ended.None?, PendingCount(view)
      {
        ended, started := Next(maxStages, started, all, patience);
      }
      asked := ended.value;
    }

    /** `finish`: whoever still owns the job gives it back. */
    method Release(asked: JobState) returns (answer: Answer<JobState>)
      requires Inv() && (basis.doomed ==> 0 < tick) && Justified(asked, view)
      modifies this`tick, this`kept, store
      ensures Inv() && 0 < tick
      ensures answer.Ok? ==> Released(asked, answer.value)
      ensures answer.Rejected? ==> kept == old(kept) && (!Ours() || FinalSkipped(asked, view))
      ensures basis.doomed ==> answer.Rejected?
      ensures old(Smooth()) && (asked.Paused? || (asked.Succeeded? && EndsInAnswer(basis))) ==> answer == Ok(asked)
    {
      var m := Wait();
      answer := TryFinish(asked, m.now);
    }

    /** The job is back in the store, as this run last made it. */
    ghost predicate Released(asked: JobState, state: JobState)
      reads this, store
    {
      id in store.jobs && HandedBack(basis, store.jobs[id], view, trail, asked, state)
    }

    method TryFinish(asked: JobState, now: int) returns (answer: Answer<JobState>)
      requires Inv() && (basis.doomed ==> 0 < tick) && Justified(asked, view)
      requires basis.timely ==> now < spec.limits.deadline
      modifies this`kept, store
      ensures Inv()
      ensures answer.Ok? ==> Released(asked, answer.value)
      ensures answer.Rejected? ==> kept == old(kept) && (!Ours() || FinalSkipped(asked, view))
      ensures basis.doomed ==> answer.Rejected?
      ensures old(Smooth()) && now < spec.limits.deadline
              && (asked.Paused? || (asked.Succeeded? && EndsInAnswer(basis))) ==>
                answer == Ok(asked)
    {
      answer := FinishTracked(store, id, seal, basis, view, trail, kept, fence, asked, now);
      if answer.Ok? { kept := false; }
    }

    /** Everything after `begin`: the loop, `finish`, and the status that is reported. */
    method DriveAndRelease(maxStages: Option<nat>, patience: nat)
      returns (answer: Answer<JobState>, released: bool, started: nat)
      requires Inv() && Quiet() && CleanFrontier(view) && (maxStages.Some? ==> 0 < maxStages.value)
      modifies this, store
      ensures Inv() && (maxStages.Some? ==> started <= maxStages.value)
      ensures Ours() ==> AllDone(view) && FinalSkipped(Succeeded, view) && started == old(PendingCount(view))
      ensures released ==> Closes(basis, old(kept), store.jobs[id], LostSome(view, started, old(PendingCount(view))))
      ensures released ==> answer == Ok(store.jobs[id].head.state) && store.jobs[id].rows == view
      ensures released ==>
                World(store.jobs[id], trail.orders) in basis.worlds && store.jobs[id].fragments == trail.published
      ensures released && answer == Ok(Paused) ==>
                && maxStages == Some(started) && 0 < PendingCount(view)
                && PendingCount(view) + started == old(PendingCount(view))
      ensures released && answer == Ok(Succeeded) ==> AllDone(view) && started == old(PendingCount(view))
      ensures old(kept) && !released ==> answer.Rejected? && Ours()
      ensures !released ==> Unreleased(store.jobs[id], answer)
      ensures basis.doomed ==>
                && answer == Ok(Paused) && store.jobs[id].head.state.Paused? && !released
                && started == 0 && store.jobs[id].rows == old(view)
      ensures old(Smooth()) && EndsInAnswer(basis) ==>
                released && (answer == Ok(Succeeded) || (maxStages.Some? && answer == Ok(Paused)))
    {
      var asked;
      asked, started := Drive(maxStages, patience);
      PendingZeroWhenDone(view);
      var finish := Release(asked);
      released := finish.Ok?;
      var state := store.jobs[id].head.state;
      if finish.Ok? || state.Interrupted? || state.Paused? || state.Cancelled? {
        answer := Ok(state);
      } else {
        answer := Rejected(finish.error);
      }
    }
  }

  /** The job's deadline on the runner's own clock, which may run from any origin; never before the start. */
  function DeadlineAt(limits: Limits, startedClock: real, wall: int): real {
    startedClock + (if limits.deadline <= wall then 0.0 else (limits.deadline - wall) as real / 1000.0)
  }

  /** Without a release of its own the run reports how others interrupted, paused or cancelled the job. */
  predicate Unreleased(after: Job, answer: Answer<JobState>) {
    if after.head.state in {Interrupted, Paused, Cancelled} then answer == Ok(after.head.state) else answer.Rejected?
  }

  /** On the runner's clock the deadline is as far off as on the wall clock, and not before the start. */
  lemma DeadlineExact(limits: Limits, startedClock: real, wall: int)
    ensures wall < limits.deadline ==>
              (DeadlineAt(limits, startedClock, wall) - startedClock) * 1000.0 == (limits.deadline - wall) as real
    ensures limits.deadline <= wall ==> DeadlineAt(limits, startedClock, wall) == startedClock
  {
  }

  /** How the main loop and the release leave a job that the runner took as `begun`. */
  ghost predicate RunEnded(c: Basis, maxStages: Option<nat>, begun: Job, after: Job, view: seq<StageRow>, trail: Trail,
                           answer: Answer<JobState>, released: bool, started: nat)
  {
    && (maxStages.Some? ==> started <= maxStages.value)
    && (Holds(after, c.fence) ==>
          AllDone(view) && FinalSkipped(Succeeded, view) && started == PendingCount(begun.rows))
    && (!released ==> Unreleased(after, answer))
    && (released ==> Closes(c, c.unrecovered, after, LostSome(view, started, PendingCount(begun.rows))))
    && (released ==>
          && answer == Ok(after.head.state) && after.rows == view && after.fragments == trail.published
          && World(after, trail.orders) in c.worlds)
    && (released && answer == Ok(Paused) ==>
          && maxStages == Some(started) && 0 < PendingCount(view)
          && PendingCount(view) + started == PendingCount(begun.rows))
    && (released && answer == Ok(Succeeded) ==> AllDone(view) && started == PendingCount(begun.rows))
    && (c.unrecovered && !released ==> answer.Rejected? && Holds(after, c.fence))
    && (c.doomed ==>
          && answer == Ok(Paused) && after.head.state.Paused? && !released
          && started == 0 && after.rows == begun.rows)
    && (c.calm && EndsInAnswer(c) ==>
          released && (answer == Ok(Succeeded) || (maxStages.Some? && answer == Ok(Paused))))
  }

  /** What surrounds a run: its worker, its slice, the token it draws and everything that happens meanwhile. */
  datatype Setting = Setting(
    grant: Grant,
    callback: Callback,
    persist: bool,
    maxStages: Option<nat>,
    token: string,
    first: Moment,
    oracle: nat -> Moment
  )

  /** A run that can begin, and that nothing disturbs afterwards. */
  ghost predicate Calmly(p: Platform, x: Setting, job: Job) {
    var spec := job.head.spec;
    && job.head.runner.None? && (job.head.state.Queued? || job.head.state.Paused?) && job.head.owner == x.grant.owner
    && spec.routeId in x.grant.routes && x.first.now < spec.limits.deadline
    && Undisturbed(x.oracle, x.grant.owner, spec, x.first.clock, DeadlineAt(spec.limits, x.first.clock, x.first.wall))
    && Sound(job) && Charged(job) && Computed(p, WorkerOf(x.callback), job)
    && (x.persist && LastRow(job).state.Pending? ==> Tellable(p, x, job))
  }

  /** The answer can be streamed whole: nothing of it is said yet, it is clean and within the limits. */
  ghost predicate Tellable(p: Platform, x: Setting, job: Job)
    requires Sound(job)
  {
    var stages := job.head.spec.stages;
    var outcomes := Evaluate(p, WorkerOf(x.callback), stages, |stages|);
    job.fragments == [] && (outcomes.Some? ==> Publishable(p, SaidFor(x.callback, stages, outcomes.value)))
  }

  /** The in-order evaluation exists and ends in an answer. */
  ghost predicate Answered(p: Platform, worker: Worker, stages: seq<Stage>) {
    && stages != [] && Evaluate(p, worker, stages, |stages|).Some?
    && Evaluate(p, worker, stages, |stages|).value[|stages| - 1].Produced?
  }

  /**
   What a run does to the job it was called for.  `taken` is the fence obtained from
   `begin`, `released` says that this run's own `finish` was accepted.
   */
  ghost predicate Ran(p: Platform, x: Setting, before: Job, after: Job, answer: Answer<JobState>, taken: Option<Fence>,
                      released: bool, started: nat)
    requires Sound(before)
  {
    // Everything the scheduler and the others did is a run of the journal, so its theorems hold of it.
    && Reachable(p, before, after) && Sound(after)
    && PendingCount(after.rows) <= PendingCount(before.rows)
    // The run owns the job exactly if `begin` grants it.
    && taken == Granted(x, before)
    && (taken.None? ==> Declined(x, before, after, answer))
    && (taken.Some? && !released ==> Unreleased(after, answer))
    // A run that is not asked to stream stores no text.
    && (released && !x.persist ==> after.fragments == before.fragments)
    // Nobody is left owning the job through this run's fence, unless success was refused.
    && (taken.Some? && Holds(after, taken.value) ==> AllDone(after.rows) && FinalSkipped(Succeeded, after.rows))
    && (released ==> taken.Some? && answer == Ok(after.head.state))
    && (released ==> Worked(x.maxStages, before, after, started))
    // The state in which it closes the job is accounted for by the rows, or by what happened meanwhile.
    && (released ==> Ending(x, before, after, LostSome(after.rows, started, PendingCount(before.rows))))
    // The scheduler computes the in-order evaluation, whatever the interleaving.
    && (released || Alone(x.oracle) ==> Computes(p, x.callback, before, after))
    && (x.maxStages.Some? ==> started <= x.maxStages.value)
    // A run that nobody recovers hands the job back itself, unless success was refused.
    && (Unrecovered(x.oracle, x.token) ==> HandsBack(x.maxStages, before, after, answer, taken, released, started))
    // A run that is recovered at once reports a pause without having moved a stage.
    && (taken.Some? && RecoveredAtOnce(x.oracle, taken.value) ==>
          && answer == Ok(Paused) && after.head.state.Paused? && !released
          && started == 0 && after.rows == before.rows)
    // The reader of a streamed success gets what the provider said, in whatever pieces it was stored.
    && (released && after.head.state.Succeeded? && Untold(x, before) && Computed(p, WorkerOf(x.callback), before) ==>
          ToldInFull(x.callback, after))
    // An undisturbed run succeeds, or pauses after its slice, if the evaluation ends in an answer.
    && (Calmly(p, x, before) && Answered(p, WorkerOf(x.callback), before.head.spec.stages) ==>
          released && (answer == Ok(Succeeded) || (x.maxStages.Some? && answer == Ok(Paused))))
  }

  /** What a run that does not get the job answers; only one that has expired is changed by it. */
  ghost predicate Declined(x: Setting, before: Job, after: Job, answer: Answer<JobState>) {
    if before.head.owner != x.grant.owner then answer == Rejected(NotFound) && after == before
    else if before.head.spec.routeId !in x.grant.routes then answer == Rejected(Blocked) && after == before
    else if before.head.state.Terminal() then answer == Ok(before.head.state) && after == before
    else if before.head.runner.Some? then answer == Rejected(Busy) && after == before
    else answer == Ok(Expired) && after.head.state == Expired && before.head.spec.limits.deadline <= x.first.now
  }

  /** The fence that `begin` hands to this run: for its owner, and for a job that can be resumed. */
  function Granted(x: Setting, job: Job): Option<Fence> {
    if job.head.owner != x.grant.owner then None
    else
      match Begin(job, x.grant, x.token, x.first.now)
      case Accept(_, fence) => fence
      case Refuse(_) => None
  }

  /** The run streams the whole answer: the final stage has not started, and nothing of it is said. */
  predicate Untold(x: Setting, job: Job) {
    x.persist && job.rows != [] && LastRow(job).state.Pending? && job.fragments == []
  }

  /** The stored text spells the provider's fragments for the final stage. */
  ghost predicate ToldInFull(callback: Callback, job: Job)
    requires Shaped(job) && job.rows != []
  {
    var stage := LastStage(job.head.spec);
    Join(Texts(job.fragments)) == Join(callback(stage, ArtifactsFor(job, stage)).fragments)
  }

  ghost predicate HandsBack(maxStages: Option<nat>, before: Job, after: Job, answer: Answer<JobState>,
                            taken: Option<Fence>, released: bool, started: nat)
  {
    && (taken.Some? ==>
          || released
          || (answer.Rejected? && AllDone(after.rows) && FinalSkipped(Succeeded, after.rows)
              && started == PendingCount(before.rows)))
    && (answer == Ok(Paused) ==> after.head.state.Paused? && Worked(maxStages, before, after, started))
  }

  /** The time at which this run's clock has reached the job's deadline. */
  function LastMoment(x: Setting, job: Job): real {
    DeadlineAt(job.head.spec.limits, x.first.clock, x.first.wall)
  }

  /**
   Why a run that gave the job back ended it as it did.  `lost`: a stage failed, or was
   submitted and never claimed.
   */
  ghost predicate Ending(x: Setting, before: Job, after: Job, lost: bool) {
    var spec, state, tame := before.head.spec, after.head.state, Tame(x.callback);
    && (after.head.cancelRequested ==> state == Cancelled)
    && (Uncancelled(x.oracle) ==> !after.head.cancelRequested)
    && (state.Terminal() || state == Paused) && state != Interrupted
    && (state == WaitingTools ==> HasRow(after.rows, StageWaitingTools))
    && (state == Cancelled ==>
          after.head.cancelRequested || HasRow(after.rows, StageCancelled) || !Uncancelled(x.oracle) || (!tame && lost))
    && (state == Expired ==>
          HasRow(after.rows, StageExpired) || !Timely(x.oracle, spec, LastMoment(x, before)) || (!tame && lost))
    && (state == Failed ==>
          lost || !Steady(x.oracle, x.grant.owner, spec, x.first.clock) || !Unrecovered(x.oracle, x.token))
  }

  /** What a run that gave the job back itself has achieved. */
  ghost predicate Worked(maxStages: Option<nat>, before: Job, after: Job, started: nat) {
    // A slice that ends paused moved exactly its stages and left some pending.
    && (after.head.state.Paused? ==>
          && maxStages == Some(started) && 0 < PendingCount(after.rows)
          && PendingCount(after.rows) + started == PendingCount(before.rows))
    && (after.head.state.Succeeded? ==> AllDone(after.rows) && started == PendingCount(before.rows))
  }

  /** Rows that agree with the worker go on to do so, and success is the whole evaluation. */
  ghost predicate Computes(p: Platform, callback: Callback, before: Job, after: Job) {
    Computed(p, WorkerOf(callback), before) ==>
      && Computed(p, WorkerOf(callback), after)
      && (after.head.state.Succeeded? ==> Evaluated(p, WorkerOf(callback), after))
  }

  lemma WorldComputes(p: Platform, callback: Callback, before: Job, after: Job, orders: set<Order>)
    requires World(after, orders) in WorldsFrom(p, WorkerOf(callback), before)
    ensures Computes(p, callback, before, after)
  {
    if Computed(p, WorkerOf(callback), before) {
      WorldComputed(p, WorkerOf(callback), before, World(after, orders));
      if after.head.state.Succeeded? { ComputedSuccess(p, WorkerOf(callback), after); }
    }
  }

  /** A run that did not take the job, which stayed as it was or expired. */
  lemma NotTaken(p: Platform, x: Setting, before: Job, after: Job, answer: Answer<JobState>)
    requires Sound(before) && Sound(after) && after.rows == before.rows && Reachable(p, before, after)
    requires World(after, {}) in WorldsFrom(p, WorkerOf(x.callback), before)
    requires Granted(x, before).None? && !Calmly(p, x, before) && Declined(x, before, after, answer)
    ensures Ran(p, x, before, after, answer, None, false, 0)
  {
    WorldComputes(p, x.callback, before, after, {});
  }

  lemma Untouched(p: Platform, x: Setting, job: Job, answer: Answer<JobState>)
    requires Sound(job) && Declined(x, job, job, answer)
    requires job.head.owner != x.grant.owner || job.head.spec.routeId !in x.grant.routes || job.head.state.Terminal()
    ensures Ran(p, x, job, job, answer, None, false, 0)
  {
    ReachStarts(p, job);
    WorldsFromClosed(p, WorkerOf(x.callback), job);
    NotTaken(p, x, job, job, answer);
  }

  ghost function BasisOf(p: Platform, x: Setting, job: Job, fence: Fence): Basis
    requires Sound(job)
  {
    var spec, worker := job.head.spec, WorkerOf(x.callback);
    var outcomes := Evaluate(p, worker, spec.stages, |spec.stages|);
    Basis(p, x.callback, worker, x.persist, x.oracle, x.grant.owner, spec, fence, x.first.clock,
          DeadlineAt(spec.limits, x.first.clock, x.first.wall), job, if outcomes.Some? then outcomes.value else [],
          Reach(p, job), WorldsFrom(p, worker, job), Alone(x.oracle), Unrecovered(x.oracle, x.token),
          RecoveredAtOnce(x.oracle, fence), LastRow(job).state.Pending? && job.fragments == [],
          Calmly(p, x, job) && outcomes.Some?, Steady(x.oracle, x.grant.owner, spec, x.first.clock),
          Timely(x.oracle, spec, DeadlineAt(spec.limits, x.first.clock, x.first.wall)), Uncancelled(x.oracle),
          Tame(x.callback))
  }

  lemma BasisGrounded(p: Platform, x: Setting, job: Job, fence: Fence)
    requires Sound(job) && job.head.owner == x.grant.owner && fence.runner == x.token != ""
             && Discreet(x.oracle, x.token)
    ensures Grounded(BasisOf(p, x, job, fence))
  {
    var c := BasisOf(p, x, job, fence);
    if c.calm {
      assert Unrecovered(x.oracle, x.token);
    }
  }

  /** What the basis of a run has to do with what surrounds it. */
  ghost predicate IsBasis(c: Basis, p: Platform, x: Setting, job: Job, fence: Fence)
    requires Sound(job)
  {
    && c.p == p && c.callback == x.callback && c.persist == x.persist && c.oracle == x.oracle
       && c.owner == x.grant.owner
    && c.spec == job.head.spec && c.fence == fence && c.startedClock == x.first.clock
    && c.deadline == DeadlineAt(job.head.spec.limits, x.first.clock, x.first.wall)
    && c.worker == WorkerOf(x.callback) && c.origin == job && c.reach == Reach(p, job)
       && c.worlds == WorldsFrom(p, WorkerOf(x.callback), job)
    && c.alone == Alone(x.oracle) && c.unrecovered == Unrecovered(x.oracle, x.token)
    && c.doomed == RecoveredAtOnce(x.oracle, fence)
    && c.steady == Steady(x.oracle, x.grant.owner, job.head.spec, x.first.clock)
    && c.timely == Timely(x.oracle, job.head.spec, LastMoment(x, job))
    && c.uncancelled == Uncancelled(x.oracle) && c.tame == Tame(x.callback)
    && (Untold(x, job) ==> c.unsaid)
    && (Calmly(p, x, job) && Answered(p, WorkerOf(x.callback), job.head.spec.stages) ==> c.calm && EndsInAnswer(c))
  }

  lemma MakeBasis(p: Platform, x: Setting, job: Job, fence: Fence, after: Job) returns (c: Basis)
    requires Sound(job) && job.head.owner == x.grant.owner && fence.runner == x.token != ""
             && Discreet(x.oracle, x.token)
    requires Begun(p, x, job, after, fence)
    ensures Grounded(c) && Tracked(c, after, after.rows, FirstTrail(after), c.unrecovered)
    ensures IsBasis(c, p, x, job, fence)
  {
    c := BasisOf(p, x, job, fence);
    BasisGrounded(p, x, job, fence);
    BasisMatches(p, x, job, fence);
    BeginTracked(p, x, job, fence, after);
  }

  lemma BasisMatches(p: Platform, x: Setting, job: Job, fence: Fence)
    requires Sound(job) && job.head.owner == x.grant.owner
    ensures IsBasis(BasisOf(p, x, job, fence), p, x, job, fence)
  {
  }

  /** A job just taken with `fence`. */
  ghost predicate Begun(p: Platform, x: Setting, job: Job, after: Job, fence: Fence)
    requires Sound(job)
  {
    && Granted(x, job) == Some(fence)
    && Sound(after) && after.rows == job.rows && after.head.spec == job.head.spec && after.head.owner == job.head.owner
    && Reachable(p, job, after) && World(after, {}) in WorldsFrom(p, WorkerOf(x.callback), job)
    && fence.runner == x.token && Holds(after, fence) && after.head.state.Running? && !after.head.cancelRequested
    && after.fragments == job.fragments && CleanFrontier(after.rows)
  }

  /** What `begin` leaves to the runner. */
  lemma BeginObserved(p: Platform, x: Setting, job: Job)
    requires Sound(job) && x.token != "" && job.head.owner == x.grant.owner
    requires job.head.spec.routeId in x.grant.routes && !job.head.state.Terminal()
    ensures var reply := Journal.Begin(job, x.grant, x.token, x.first.now);
            var after := After(job, reply);
            && Sound(after) && after.rows == job.rows && after.head.spec == job.head.spec
               && after.head.owner == job.head.owner
            && Reachable(p, job, after) && World(after, {}) in WorldsFrom(p, WorkerOf(x.callback), job)
            && (reply.Refuse? || reply.value.None? ==>
                  && Granted(x, job).None? && !Calmly(p, x, job)
                  && Declined(x, job, after, if reply.Refuse? then Rejected(reply.error) else Ok(after.head.state)))
            && (reply.Accept? && reply.value.Some? ==> Begun(p, x, job, after, reply.value.value))
  {
    var worker, step := WorkerOf(x.callback), DoBegin(x.grant, x.token, x.first.now);
    StepKeepsSound(p, job, step);
    ReachStarts(p, job);
    WorldsFromClosed(p, worker, job);
    assert Apply(p, job, step) in Reach(p, job);
    OwnStepWorld(p, worker, WorldsFrom(p, worker, job), job, step, {});
  }

  /** The runner starts with everything in order. */
  lemma BeginTracked(p: Platform, x: Setting, job: Job, fence: Fence, after: Job)
    requires Sound(job) && job.head.owner == x.grant.owner && x.token != "" && Begun(p, x, job, after, fence)
    ensures var c := BasisOf(p, x, job, fence); Tracked(c, after, after.rows, FirstTrail(after), c.unrecovered)
  {
  }

  /** Released with success, the told answer is that of the artifacts in the rows. */
  lemma AnswerTold(c: Basis, after: Job, view: seq<StageRow>, trail: Trail, kept: bool)
    requires Tracked(c, after, view, trail, kept) && after.rows == view && after.head.state.Succeeded?
    requires c.unsaid && c.persist && after.fragments == trail.published
    requires World(after, trail.orders) in c.worlds && c.worlds == WorldsFrom(c.p, c.worker, c.origin)
    requires Computed(c.p, c.worker, c.origin)
    ensures ToldInFull(c.callback, after)
  {
    var last := |after.rows| - 1;
    assert view[last].state.Completed?;
    FindIndex(c.spec, last);
    assert OrderGood(after, trail.told.value);
  }

  /** From what the main loop ends with to what the run as a whole has done. */
  lemma RunEnds(p: Platform, x: Setting, before: Job, c: Basis, after: Job, view: seq<StageRow>, trail: Trail,
                kept: bool, answer: Answer<JobState>, released: bool, started: nat)
    requires Sound(before) && IsBasis(c, p, x, before, c.fence) && Granted(x, before) == Some(c.fence)
    requires Tracked(c, after, view, trail, kept)
    requires RunEnded(c, x.maxStages, before, after, view, trail, answer, released, started)
    ensures Ran(p, x, before, after, answer, Some(c.fence), released, started)
  {
    PendingInReach(p, before, after);
    if released || c.alone { WorldComputes(p, x.callback, before, after, trail.orders); }
    if released && after.head.state.Succeeded? && Untold(x, before) && Computed(p, c.worker, before) {
      AnswerTold(c, after, view, trail, kept);
    }
  }

  /** `run` once the job is seen to be the caller's and not ended: take it, drive it, give it back. */
  method RunOwned(store: LocalJobStore, grant: Grant, id: string, token: string, callback: Callback, persist: bool,
                  oracle: nat -> Moment, first: Moment, maxStages: Option<nat>, patience: nat)
    returns (answer: Answer<JobState>, taken: Option<Fence>, released: bool, started: nat)
    requires store.Valid() && store.Owned(grant.owner, id) && Sound(store.jobs[id])
    requires store.jobs[id].head.spec.routeId in grant.routes && !store.jobs[id].head.state.Terminal()
    requires token != "" && Discreet(oracle, token) && (maxStages.Some? ==> 0 < maxStages.value)
    modifies store
    ensures store.Valid() && id in store.jobs
    ensures Ran(store.platform, Setting(grant, callback, persist, maxStages, token, first, oracle), old(store.jobs[id]),
                store.jobs[id], answer, taken, released, started)
  {
    taken, released, started := None, false, 0;
    var before := store.jobs[id];
    var x := Setting(grant, callback, persist, maxStages, token, first, oracle);
    var begun := store.Begin(grant, id, token, first.now);
    BeginObserved(store.platform, x, before);
    if begun.Rejected? || begun.value.None? {
      answer := if begun.Rejected? then Rejected(begun.error) else Ok(store.jobs[id].head.state);
      NotTaken(store.platform, x, before, store.jobs[id], answer);
      return;
    }
    taken := begun.value;
    answer, released, started := RunBegun(store, id, taken.value, x, before, patience);
  }

  /** `run` once `begin` has granted the fence. */
  method RunBegun(store: LocalJobStore, id: string, fence: Fence, x: Setting, ghost before: Job, patience: nat)
    returns (answer: Answer<JobState>, released: bool, started: nat)
    requires store.Valid() && id in store.jobs && Sound(before) && (x.maxStages.Some? ==> 0 < x.maxStages.value)
    requires x.token != "" && Discreet(x.oracle, x.token) && before.head.owner == x.grant.owner
    requires Begun(store.platform, x, before, store.jobs[id], fence)
    modifies store
    ensures store.Valid() && id in store.jobs
    ensures Ran(store.platform, x, before, store.jobs[id], answer, Some(fence), released, started)
  {
    ghost var basis := MakeBasis(store.platform, x, before, fence, store.jobs[id]);
    var deadline := DeadlineAt(store.jobs[id].head.spec.limits, x.first.clock, x.first.wall);
    ghost var view, trail, kept;
    answer, released, started, view, trail, kept :=
      RunTaken(store, id, fence, x.callback, x.persist, x.oracle, x.first.clock, deadline, basis, x.maxStages,
               patience);
    RunEnds(store.platform, x, before, basis, store.jobs[id], view, trail, kept, answer, released, started);
  }

  /** `run` from an accepted begin on: drive the job and give it back. */
  method RunTaken(store: LocalJobStore, id: string, fence: Fence, callback: Callback, persist: bool,
                  oracle: nat -> Moment, startedClock: real, deadline: real, ghost c: Basis, maxStages: Option<nat>,
                  patience: nat)
    returns (answer: Answer<JobState>, released: bool, started: nat, ghost view: seq<StageRow>, ghost trail: Trail,
             ghost kept: bool)
    requires store.Valid() && id in store.jobs && (maxStages.Some? ==> 0 < maxStages.value)
    requires CleanFrontier(store.jobs[id].rows) && !store.jobs[id].head.cancelRequested && Holds(store.jobs[id], fence)
    requires Grounded(c) && Tracked(c, store.jobs[id], store.jobs[id].rows, FirstTrail(store.jobs[id]), c.unrecovered)
    requires c.p == store.platform && c.callback == callback && c.persist == persist && c.oracle == oracle
    requires c.spec == store.jobs[id].head.spec && c.owner == store.jobs[id].head.owner && c.fence == fence
    requires c.startedClock == startedClock && c.deadline == deadline
    modifies store
    ensures store.Valid() && id in store.jobs && Tracked(c, store.jobs[id], view, trail, kept)
    ensures RunEnded(c, maxStages, old(store.jobs[id]), store.jobs[id], view, trail, answer, released, started)
  {
    var runner := new LocalRunner(store, store.jobs[id].head.owner, id, fence, callback, persist, oracle, startedClock,
                                  deadline, c);
    answer, released, started := runner.DriveAndRelease(maxStages, patience);
    view, trail, kept := runner.view, runner.trail, runner.kept;
  }

  /** `run`: drive the job if it is the caller's and has not ended, and report its status. */
  method RunJob(store: LocalJobStore, grant: Grant, id: string, token: string, callback: Callback, persist: bool,
                oracle: nat -> Moment, first: Moment, maxStages: Option<nat>, patience: nat)
    returns (answer: Answer<JobState>, taken: Option<Fence>, released: bool, started: nat)
    requires store.Valid() && (id in store.jobs ==> Sound(store.jobs[id]))
    requires token != "" && Discreet(oracle, token) && (maxStages.Some? ==> 0 < maxStages.value)
    modifies store
    ensures store.Valid()
    ensures old(id in store.jobs) ==>
              && id in store.jobs
              && Ran(store.platform, Setting(grant, callback, persist, maxStages, token, first, oracle),
                     old(store.jobs[id]), store.jobs[id], answer, taken, released, started)
    ensures taken.Some? ==> old(store.Owned(grant.owner, id))
    ensures !old(store.Owned(grant.owner, id)) ==> answer == Rejected(NotFound) && store.jobs == old(store.jobs)
  {
    answer, taken, released, started := Rejected(NotFound), None, false, 0;
    ghost var x := Setting(grant, callback, persist, maxStages, token, first, oracle);
    if !store.Owned(grant.owner, id) {
      if id in store.jobs { Untouched(store.platform, x, store.jobs[id], answer); }
      return;
    }
    var head := store.jobs[id].head;
    if head.spec.routeId !in grant.routes || head.state.Terminal() {
      answer := if head.spec.routeId in grant.routes then Ok(head.state) else Rejected(Blocked);
      Untouched(store.platform, x, store.jobs[id], answer);
      return;
    }
    answer, taken, released, started :=
      RunOwned(store, grant, id, token, callback, persist, oracle, first, maxStages, patience);
  }

  /** An undisturbed run without a slice succeeds exactly if the in-order evaluation ends in an answer. */
  lemma CalmDecided(p: Platform, x: Setting, before: Job, after: Job, answer: Answer<JobState>, taken: Option<Fence>,
                    released: bool, started: nat)
    requires Sound(before) && Ran(p, x, before, after, answer, taken, released, started)
    requires Calmly(p, x, before) && x.maxStages.None?
    ensures released && answer == Ok(Succeeded) <==> Answered(p, WorkerOf(x.callback), before.head.spec.stages)
  {
    if released && answer == Ok(Succeeded) {
      assert Evaluated(p, WorkerOf(x.callback), after);
      ReachedSpec(p, before, after);
    }
  }

  lemma ReachedSpec(p: Platform, before: Job, after: Job)
    requires Sound(before) && Reachable(p, before, after)
    ensures after.head.spec == before.head.spec
  {
    var steps :| after == Run(p, before, steps);
    RunSound(p, before, steps);
  }

  // ---- slice after slice ----------------------------------------------------------------------

  /** One call of `run`, and what anyone does to the job until the next one. */
  datatype Visit = Visit(
    grant: Grant,
    token: string,
    callback: Callback,
    persist: bool,
    oracle: nat -> Moment,
    first: Moment,
    patience: nat,
    later: seq<JobStep>
  )

  ghost predicate Honest(v: Visit) {
    v.token != "" && Discreet(v.oracle, v.token)
  }

  /** ceil(n / k). */
  function Slices(n: nat, k: nat): nat
    requires 0 < k
  {
    (n + k - 1) / k
  }

  lemma FewPauses(pauses: nat, k: nat, n: nat)
    requires 0 < k && pauses * k < n
    ensures pauses <= Slices(n, k) - 1
  {
    assert n <= Slices(n, k) * k;
    assert 0 < (Slices(n, k) - pauses) * k;
  }

  /** The worker behind `callback` is the only one at work, in every visit and between them. */
  ghost predicate SoleWorker(callback: Callback, visits: seq<Visit>) {
    forall v :: v in visits ==> Sole(callback, v)
  }

  ghost predicate Sole(callback: Callback, v: Visit) {
    v.callback == callback && Alone(v.oracle) && forall s :: s in v.later ==> !s.DoComplete?
  }

  lemma LaterComputes(p: Platform, callback: Callback, start: Job, before: Job, middle: Job, later: seq<JobStep>)
    requires Computes(p, callback, before, middle) && Shaped(middle) && forall s :: s in later ==> !s.DoComplete?
    ensures Computes(p, callback, start, before) ==> Computes(p, callback, start, Run(p, middle, later))
  {
    if Computed(p, WorkerOf(callback), before) {
      QuietRunComputed(p, WorkerOf(callback), middle, later);
      if Run(p, middle, later).head.state.Succeeded? {
        ComputedSuccess(p, WorkerOf(callback), Run(p, middle, later));
      }
    }
  }

  /** What a run with a slice has left to do, and that nobody adds to it afterwards. */
  lemma SliceEnds(p: Platform, x: Setting, before: Job, after: Job, answer: Answer<JobState>, taken: Option<Fence>,
                  released: bool, started: nat, later: seq<JobStep>)
    requires Sound(before) && Ran(p, x, before, after, answer, taken, released, started) && x.maxStages.Some?
    ensures Sound(Run(p, after, later)) && Run(p, after, later).head.spec == before.head.spec
    ensures PendingCount(Run(p, after, later).rows) <= PendingCount(before.rows)
    ensures released && answer == Ok(Paused) ==>
              && PendingCount(Run(p, after, later).rows) + x.maxStages.value <= PendingCount(before.rows)
              && x.maxStages.value < PendingCount(before.rows)
  {
    PendingNeverGrows(p, after, later);
    RunSound(p, after, later);
    ReachedSpec(p, before, after);
  }

  /** One visit with slice `k`, and what happens after it; `paused` if the run paused the job. */
  method RunSlice(store: LocalJobStore, id: string, k: nat, v: Visit, ghost callback: Callback, ghost start: Job)
    returns (paused: bool)
    requires store.Valid() && id in store.jobs && Sound(store.jobs[id]) && 0 < k && Honest(v)
    modifies store
    ensures store.Valid() && id in store.jobs && Sound(store.jobs[id])
    ensures store.jobs[id].head.spec == old(store.jobs[id].head.spec)
    ensures PendingCount(store.jobs[id].rows) + (if paused then k else 0) <= PendingCount(old(store.jobs[id].rows))
    ensures paused ==> k < PendingCount(old(store.jobs[id].rows))
    ensures Sole(callback, v) && Computes(store.platform, callback, start, old(store.jobs[id])) ==>
              Computes(store.platform, callback, start, store.jobs[id])
  {
    ghost var before := store.jobs[id];
    var answer, taken, released, started :=
      RunJob(store, v.grant, id, v.token, v.callback, v.persist, v.oracle, v.first, Some(k), v.patience);
    paused := released && answer == Ok(Paused);
    SliceEnds(store.platform, Setting(v.grant, v.callback, v.persist, Some(k), v.token, v.first, v.oracle), before,
              store.jobs[id], answer, taken, released, started, v.later);
    if Sole(callback, v) { LaterComputes(store.platform, callback, start, before, store.jobs[id], v.later); }
    store.jobs := store.jobs[id := Run(store.platform, store.jobs[id], v.later)];
  }

  /**
   A job that is run in slices of `k` stages, by any runners, with any interleavings,
   failures, refusals and recoveries, and anything happening between two calls: the runs
   pause it at most ceil(n / k) - 1 times.  If one worker is behind all of them, then
   whatever the pauses, recoveries and cancellations were, success is its in-order
   evaluation.
   */
  method RunSlices(store: LocalJobStore, id: string, k: nat, visits: seq<Visit>, ghost callback: Callback)
    returns (pauses: nat)
    requires store.Valid() && id in store.jobs && Sound(store.jobs[id]) && 0 < k
    requires forall v :: v in visits ==> Honest(v)
    modifies store
    ensures store.Valid() && id in store.jobs && Sound(store.jobs[id])
    ensures store.jobs[id].head.spec == old(store.jobs[id].head.spec)
    ensures pauses * k + PendingCount(store.jobs[id].rows) <= |old(store.jobs[id].rows)|
    ensures pauses <= Slices(|old(store.jobs[id].rows)|, k) - 1
    ensures SoleWorker(callback, visits) ==> Computes(store.platform, callback, old(store.jobs[id]), store.jobs[id])
  {
    pauses := 0;
    ghost var before := store.jobs[id];
    PendingAtMost(before.rows);
    SelfComputes(store.platform, callback, before);
    for i := 0 to |visits|
      invariant store.Valid() && id in store.jobs && Sound(store.jobs[id])
      invariant store.jobs[id].head.spec == before.head.spec
      invariant pauses * k + PendingCount(store.jobs[id].rows) <= |before.rows|
      invariant pauses * k < |before.rows|
      invariant SoleWorker(callback, visits) ==> Computes(store.platform, callback, before, store.jobs[id])
    {
      assert visits[i] in visits;
      var paused := RunSlice(store, id, k, visits[i], callback, before);
      OneMore(pauses, k);
      if paused { pauses := pauses + 1; }
    }
    FewPauses(pauses, k, |before.rows|);
  }

  /**
   From its creation on: a job that is inserted and then run in slices, by runners that all
   call one worker.  If it ends in success, its rows and its answer are the worker's
   in-order evaluation of the plan.
   */
  method RunFromCreation(store: LocalJobStore, owner: string, idem: string, spec: Spec, id: string, now: int, k: nat,
                         visits: seq<Visit>, ghost callback: Callback) returns (pauses: nat)
    requires store.Valid() && WellFormed(spec) && id !in store.jobs && 0 < k
    requires forall v :: v in visits ==> Honest(v)
    modifies store
    ensures store.Valid() && id in store.jobs && Sound(store.jobs[id]) && store.jobs[id].head.spec == spec
    ensures pauses <= Slices(|spec.stages|, k) - 1
    ensures SoleWorker(callback, visits) && store.jobs[id].head.state.Succeeded? ==>
              Evaluated(store.platform, WorkerOf(callback), store.jobs[id])
  {
    store.Insert(owner, idem, spec, id, now);
    NewJobControl(owner, idem, spec, now);
    NewJobComputed(store.platform, WorkerOf(callback), owner, idem, spec, now);
    pauses := RunSlices(store, id, k, visits, callback);
  }

  lemma SelfComputes(p: Platform, callback: Callback, job: Job)
    requires Sound(job)
    ensures Computes(p, callback, job, job)
  {
    if Computed(p, WorkerOf(callback), job) && job.head.state.Succeeded? {
      ComputedSuccess(p, WorkerOf(callback), job);
    }
  }

  lemma OneMore(pauses: nat, k: nat)
    ensures (pauses + 1) * k == pauses * k + k
  {
  }

  lemma {:induction false} PendingAtMost(rows: seq<StageRow>)
    ensures PendingCount(rows) <= |rows|
  {
    if rows != [] { PendingAtMost(rows[..|rows| - 1]); }
  }
}
