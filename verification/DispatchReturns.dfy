/**
 Giving a dispatched job back: when the dispatcher takes it, and what can never happen to
 the claim and the job afterwards.
 */
module DispatchReturns {
  import opened Basics
  import opened Journal
  import opened Dispatch
  import opened DispatchSafety
  import opened DispatchGuarantees
  import A = Admission
  import S = AdmissionSafety
  import T = StageThreads
  import G = Guarantees

  // ---- the claim is over for good -----------------------------------------------------------

  /** `claim` was accepted by `acknowledge` or by confirmed recovery. */
  ghost predicate GivesBack(s: System, step: Step, claim: DispatchClaim) {
    match step
    case DoAcknowledge(c, allowed) => c == claim && Acknowledge(s, c, allowed).Agreed?
    case DoRecoverStopped(c, receipt, stopped, now) => c == claim && RecoverStopped(s, c, receipt, stopped, now).Agreed?
    case _ => false
  }

  lemma StepGivesBack(p: Platform, s: System, step: Step, claim: DispatchClaim)
    requires Linked(s) && GivesBack(s, step, claim)
    ensures Linked(Perform(p, s, step)) && GivenBack(Perform(p, s, step), claim)
    ensures DispatchGuarantees.Superseded(Perform(p, s, step), claim)
  {
    StepKeepsLinked(p, s, step);
    StepSupersedes(p, s, step, claim);
    match step
    case DoAcknowledge(c, allowed) => AcknowledgeGivesBack(s, c, allowed);
    case DoRecoverStopped(c, receipt, stopped, now) => RecoverGivesBack(s, c, receipt, stopped, now);
    case _ =>
  }

  /** Whatever runs on: no begin, acknowledgement or recovery is accepted under a claim given back. */
  lemma ReturnedClaimIsDead(p: Platform, s: System, step: Step, claim: DispatchClaim, rest: seq<Step>,
                            grant: Grant, id: string, token: string, receipt: string, now: int)
    requires Linked(s) && GivesBack(s, step, claim)
    requires Linked(Perform(p, s, step)) && Lawful(p, Perform(p, s, step), rest)
    ensures var after := PerformAll(p, Perform(p, s, step), rest);
            && BeginClaimed(after, claim, true, grant, id, token, now) == Turned(NotAllowed)
            && Acknowledge(after, claim, true) == Turned(NotAllowed)
            && RecoverStopped(after, claim, receipt, true, now) == Turned(NotAllowed)
  {
    StepGivesBack(p, s, step, claim);
    RunSupersedes(p, Perform(p, s, step), rest, claim);
  }

  // ---- an ended job is never dispatched again --------------------------------------------------

  /** The job has ended and its row is out of the queue, or both are deleted. */
  ghost predicate AtRest(s: System, id: string) {
    if id in s.queue then
      && id in s.book.jobs && s.book.jobs[id].head.state.Terminal()
      && !s.queue[id].state.Waiting? && !s.queue[id].state.Claimed?
    else Gone(s, id)
  }

  lemma {:induction false} ScanLeaves(s: System, ids: seq<string>, worker: string, grants: string -> Option<Grant>,
                                      token: string, now: int, id: string)
    requires Scannable(s, ids) && ToScan(s, ids) && id !in ids
    ensures var next := Scan(s, ids, worker, grants, token, now).0;
            id in s.queue ==> id in next.queue && next.queue[id] == s.queue[id]
    decreases |ids|
  {
    if ids != [] {
      var head := ids[0];
      match Judge(s, head, grants, now)
      case Finish =>
        ToScanRest(s, ids, Done);
        ScanLeaves(Put(s, head, Done), ids[1..], worker, grants, token, now, id);
      case Hold =>
        ToScanRest(s, ids, Held);
        ScanLeaves(Put(s, head, Held), ids[1..], worker, grants, token, now, id);
      case Take =>
    }
  }

  lemma ClaimOneRests(s: System, ids: seq<string>, worker: string, allowed: bool, grants: string -> Option<Grant>,
                      token: string, now: int, id: string)
    requires AtRest(s, id) && ToScan(s, ids)
    ensures AtRest(Outcome(s, ClaimOne(s, ids, worker, allowed, grants, token, now)), id)
  {
    ClaimOneAges(s, ids, worker, allowed, grants, token, now);
    if id in s.queue {
      forall i | 0 <= i < |ids| ensures ids[i] != id {
        assert IsWaiting(s.queue, ids[i]);
      }
      ScanLeaves(s, ids, worker, grants, token, now, id);
    }
  }

  lemma EnqueueRests(s: System, grant: Grant, other: string, now: int, id: string)
    requires AtRest(s, id)
    ensures AtRest(Outcome(s, Enqueue(s, grant, other, now)), id)
  {
  }

  lemma BeginRests(s: System, claim: DispatchClaim, allowed: bool, grant: Grant, other: string, token: string, now: int,
                   id: string)
    requires AtRest(s, id)
    ensures AtRest(Outcome(s, BeginClaimed(s, claim, allowed, grant, other, token, now)), id)
  {
    BeginRemovesNothing(s, claim, allowed, grant, other, token, now, id);
    if BeginClaimed(s, claim, allowed, grant, other, token, now).Agreed? {
      BeginShape(s.book, grant, other, token, now);
    }
  }

  lemma AcknowledgeRests(s: System, claim: DispatchClaim, allowed: bool, id: string)
    requires AtRest(s, id)
    ensures AtRest(Outcome(s, Acknowledge(s, claim, allowed)), id)
  {
  }

  lemma RecoverRests(s: System, claim: DispatchClaim, receipt: string, stopped: bool, now: int, id: string)
    requires AtRest(s, id)
    ensures AtRest(Outcome(s, RecoverStopped(s, claim, receipt, stopped, now)), id)
  {
    RecoverRemovesNothing(s, claim, receipt, stopped, now, id);
    if RecoverStopped(s, claim, receipt, stopped, now).Agreed? {
      RecoverRunnerShape(s, claim, now);
    }
  }

  lemma StoreRests(p: Platform, s: System, step: A.Step, id: string)
    requires Linked(s) && Legal(s, DoStore(step)) && AtRest(s, id)
    ensures AtRest(Perform(p, s, DoStore(step)), id)
  {
    StoreRemoves(p, s, step, id);
    StoreMild(p, s.book, step);
  }

  lemma StepRests(p: Platform, s: System, step: Step, id: string)
    requires Linked(s) && Legal(s, step) && AtRest(s, id)
    ensures AtRest(Perform(p, s, step), id)
  {
    match step
    case DoStore(inner) => StoreRests(p, s, inner, id);
    case DoEnqueue(grant, other, now) => EnqueueRests(s, grant, other, now, id);
    case DoClaimOne(ids, worker, allowed, grants, token, now) =>
      SelectedToScan(s, ids);
      ClaimOneRests(s, ids, worker, allowed, grants, token, now, id);
    case DoDispatchBegin(claim, allowed, grant, other, token, now) =>
      BeginRests(s, claim, allowed, grant, other, token, now, id);
    case DoAcknowledge(claim, allowed) => AcknowledgeRests(s, claim, allowed, id);
    case DoRecoverStopped(claim, receipt, stopped, now) => RecoverRests(s, claim, receipt, stopped, now, id);
  }

  lemma {:induction false} RunRests(p: Platform, s: System, steps: seq<Step>, id: string)
    requires Linked(s) && Lawful(p, s, steps) && AtRest(s, id)
    ensures AtRest(PerformAll(p, s, steps), id)
    decreases |steps|
  {
    if steps != [] {
      StepRests(p, s, steps[0], id);
      StepKeepsLinked(p, s, steps[0]);
      RunRests(p, Perform(p, s, steps[0]), steps[1..], id);
    }
  }

  /**
   A job that has ended when it is given back is never waiting or claimed again, by
   whatever enqueueing, scanning, recovering and deleting goes on; a job that is given
   back otherwise waits exactly when it can be resumed.
   */
  lemma EndedNeverDispatched(p: Platform, s: System, step: Step, claim: DispatchClaim, rest: seq<Step>)
    requires Linked(s) && GivesBack(s, step, claim)
    requires Linked(Perform(p, s, step)) && Lawful(p, Perform(p, s, step), rest)
    ensures var returned := Perform(p, s, step);
            var after := PerformAll(p, returned, rest);
            && GivenBack(returned, claim)
            && (returned.book.jobs[claim.job].head.state.Terminal() && claim.job in after.queue ==>
                  && !after.queue[claim.job].state.Waiting? && !after.queue[claim.job].state.Claimed?
                  && after.book.jobs[claim.job].head.state.Terminal())
  {
    StepGivesBack(p, s, step, claim);
    var returned := Perform(p, s, step);
    if returned.book.jobs[claim.job].head.state.Terminal() {
      ReturnedRests(p, s, step, claim);
      RunRests(p, returned, rest, claim.job);
    }
  }

  lemma ReturnedRests(p: Platform, s: System, step: Step, claim: DispatchClaim)
    requires A.Tables(s.book) && GivesBack(s, step, claim) && GivenBack(Perform(p, s, step), claim)
    requires Perform(p, s, step).book.jobs[claim.job].head.state.Terminal()
    ensures AtRest(Perform(p, s, step), claim.job)
  {
    if step.DoRecoverStopped? {
      RecoverRunnerShape(s, claim, step.now);
    }
  }

  // ---- a finished run can be acknowledged ---------------------------------------------------------

  /** Every job has its retention date. */
  ghost predicate AllRetained(b: A.Book) {
    b.jobs.Keys <= b.retain.Keys
  }

  lemma TransactRetains(p: Platform, b: A.Book, owner: string, id: string, step: JobStep)
    requires A.Tables(b) && AllRetained(b)
    ensures AllRetained(A.Transact(p, b, owner, id, step))
  {
    var release := S.TransactShape(p, b, owner, id, step);
  }

  lemma StoreRetains(p: Platform, b: A.Book, step: A.Step)
    requires A.Tables(b) && AllRetained(b)
    ensures AllRetained(A.Perform(p, b, step))
  {
    if step.DoTransact? { TransactRetains(p, b, step.owner, step.id, step.step); }
  }

  lemma ClaimOneKeepsBook(s: System, ids: seq<string>, worker: string, allowed: bool, grants: string -> Option<Grant>,
                          token: string, now: int)
    ensures Outcome(s, ClaimOne(s, ids, worker, allowed, grants, token, now)).book == s.book
  {
    if allowed && Scannable(s, ids) { ScanBook(s, ids, worker, grants, token, now); }
  }

  lemma BeginRetains(s: System, claim: DispatchClaim, allowed: bool, grant: Grant, id: string, token: string, now: int)
    requires AllRetained(s.book)
    ensures AllRetained(Outcome(s, BeginClaimed(s, claim, allowed, grant, id, token, now)).book)
  {
  }

  lemma RecoverRetains(s: System, claim: DispatchClaim, receipt: string, stopped: bool, now: int)
    requires AllRetained(s.book)
    ensures AllRetained(Outcome(s, RecoverStopped(s, claim, receipt, stopped, now)).book)
  {
  }

  lemma StepRetains(p: Platform, s: System, step: Step)
    requires A.Tables(s.book) && AllRetained(s.book)
    ensures AllRetained(Perform(p, s, step).book)
  {
    match step
    case DoStore(inner) => StoreRetains(p, s.book, inner);
    case DoClaimOne(ids, worker, allowed, grants, token, now) =>
      ClaimOneKeepsBook(s, ids, worker, allowed, grants, token, now);
    case DoDispatchBegin(claim, allowed, grant, id, token, now) =>
      BeginRetains(s, claim, allowed, grant, id, token, now);
    case DoRecoverStopped(claim, receipt, stopped, now) => RecoverRetains(s, claim, receipt, stopped, now);
    case _ =>
  }

  lemma {:induction false} RunRetains(p: Platform, s: System, steps: seq<Step>)
    requires Linked(s) && Lawful(p, s, steps) && AllRetained(s.book)
    ensures AllRetained(PerformAll(p, s, steps).book)
    decreases |steps|
  {
    if steps != [] {
      StepRetains(p, s, steps[0]);
      StepKeepsLinked(p, s, steps[0]);
      RunRetains(p, Perform(p, s, steps[0]), steps[1..]);
    }
  }

  /** Success asked for a skipped final stage, and nothing turns it into another end. */
  ghost predicate Unfinishable(b: A.Book, id: string, asked: JobState, now: int)
    requires id in b.jobs
  {
    var job := b.jobs[id];
    && T.FinalSkipped(asked, job.rows) && A.Admitted(b, job.head.owner, id, now) && A.Retained(b, id, now)
    && !job.head.cancelRequested && now < job.head.spec.limits.deadline
  }

  lemma FinishDecided(b: A.Book, owner: string, id: string, fence: Fence, asked: JobState, now: int)
    requires A.Owned(b, owner, id) && id in b.retain && S.Healthy(b.jobs[id])
    requires G.Holds(b.jobs[id], fence) && T.Justified(asked, b.jobs[id].rows)
    ensures var reply := A.FinishReply(b, owner, id, fence, asked, now);
            && (reply.Refuse? <==> Unfinishable(b, id, asked, now))
            && (reply.Accept? ==>
                  && reply.job.head.owner == owner && reply.job.head.runner.None?
                  && (reply.job.head.state.Terminal() || reply.job.head.state.Paused?))
  {
  }

  lemma FinishMoves(p: Platform, b: A.Book, owner: string, id: string, fence: Fence, asked: JobState, now: int)
    requires A.Tables(b) && A.Owned(b, owner, id)
    ensures var after := A.Transact(p, b, owner, id, DoFinish(fence, asked, now));
            && after.jobs.Keys == b.jobs.Keys
            && after.jobs[id] == After(b.jobs[id], A.FinishReply(b, owner, id, fence, asked, now))
  {
  }

  /** The step of the account store, and the queue behind it. */
  lemma StoreFinish(p: Platform, s: System, owner: string, id: string, fence: Fence, asked: JobState, now: int)
    requires A.Tables(s.book)
    ensures var book := A.Transact(p, s.book, owner, id, DoFinish(fence, asked, now));
            Perform(p, s, DoStore(A.DoTransact(owner, id, DoFinish(fence, asked, now))))
              == System(book, Cascade(book, s.queue))
  {
  }

  lemma FinishThenAcknowledge(p: Platform, s: System, claim: DispatchClaim, fence: Fence, asked: JobState, now: int,
                              book: A.Book)
    requires A.Tables(s.book) && Matches(s.queue, claim) && A.Owned(s.book, claim.owner, claim.job)
    requires claim.job in s.book.retain && S.Healthy(s.book.jobs[claim.job])
    requires G.Holds(s.book.jobs[claim.job], fence) && T.Justified(asked, s.book.jobs[claim.job].rows)
    requires book == A.Transact(p, s.book, claim.owner, claim.job, DoFinish(fence, asked, now))
    ensures Acknowledge(System(book, Cascade(book, s.queue)), claim, true).Agreed?
            <==> !Unfinishable(s.book, claim.job, asked, now)
  {
    FinishDecided(s.book, claim.owner, claim.job, fence, asked, now);
    FinishMoves(p, s.book, claim.owner, claim.job, fence, asked, now);
  }

  lemma ReachedRetained(p: Platform, steps: seq<Step>, s: System)
    requires LawfulFromStart(p, steps) && s == FromStart(p, steps)
    ensures Linked(s) && AllRetained(s.book)
  {
    EmptyLinked();
    RunRetains(p, START, steps);
  }

  lemma ClaimedOwned(s: System, claim: DispatchClaim)
    requires Linked(s) && Matches(s.queue, claim)
    ensures A.Owned(s.book, claim.owner, claim.job) && S.Healthy(s.book.jobs[claim.job])
  {
    assert RowAgrees(s.queue[claim.job], s.book.jobs[claim.job].head);
  }

  /**
   In every reachable state, under the current claim of a job whose runner has drained it:
   the runner's last `finish` is followed by an accepted `acknowledge`, unless success is
   asked for a skipped final stage that neither the account, a cancellation, the deadline
   nor the retention date ends otherwise.
   */
  lemma FinishedIsAcknowledged(p: Platform, steps: seq<Step>, s: System, claim: DispatchClaim, fence: Fence,
                               asked: JobState, now: int, after: System)
    requires LawfulFromStart(p, steps) && s == FromStart(p, steps)
    requires Matches(s.queue, claim) && claim.job in s.book.jobs && G.Holds(s.book.jobs[claim.job], fence)
    requires T.Justified(asked, s.book.jobs[claim.job].rows)
    requires A.Tables(s.book)
    requires after == Perform(p, s, DoStore(A.DoTransact(claim.owner, claim.job, DoFinish(fence, asked, now))))
    ensures Acknowledge(after, claim, true).Agreed? <==> !Unfinishable(s.book, claim.job, asked, now)
  {
    ReachedRetained(p, steps, s);
    ClaimedOwned(s, claim);
    StoreFinish(p, s, claim.owner, claim.job, fence, asked, now);
    FinishThenAcknowledge(p, s, claim, fence, asked, now,
                          A.Transact(p, s.book, claim.owner, claim.job, DoFinish(fence, asked, now)));
  }
}
