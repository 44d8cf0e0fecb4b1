/**
 Who holds a dispatched job, and until when: from an accepted begin, nobody but the runner
 itself or a confirmed recovery takes the job, its dispatch row or its slot away.
 */
module Custody {
  import opened Basics
  import opened Contracts
  import opened Journal
  import opened Dispatch
  import opened DispatchSafety
  import opened DispatchGuarantees
  import opened DispatchReturns
  import A = Admission
  import S = AdmissionSafety
  import J = JournalInvariants
  import H = Guarantees
  import N = AccountGuarantees
  import T = StageThreads

  /** A kernel step under `fence`. */
  predicate Uses(step: JobStep, fence: Fence) {
    match step
    case DoClaim(_, f, _, _, _) => f == fence
    case DoComplete(f, _, _, _, _) => f == fence
    case DoFailStage(f, _, _, _) => f == fence
    case DoPublish(_, f, _, _, _, _) => f == fence
    case _ => H.Ends(step, fence)
  }

  // ---- the whole system ------------------------------------------------------------------------

  /** The job is owned through `fence`, under the current claim, and kept until `until`. */
  ghost predicate Held(s: System, claim: DispatchClaim, fence: Fence, until: int) {
    && claim.job in s.book.jobs && H.Holds(s.book.jobs[claim.job], fence)
    && claim.job in s.book.retain && s.book.retain[claim.job] == until
    && Matches(s.queue, claim)
  }

  /** Nobody ends the ownership; recovery is tried only once the job can no longer be opened. */
  predicate Spares(step: Step, claim: DispatchClaim, fence: Fence, until: int) {
    match step
    case DoStore(inner) => inner.DoTransact? && inner.id == claim.job ==> !H.Ends(inner.step, fence)
    case DoRecoverStopped(c, _, stopped, now) => c.job == claim.job && stopped ==> until <= now
    case _ => true
  }

  lemma KernelSpares(b: A.Book, owner: string, id: string, step: JobStep, fence: Fence)
    requires id in b.jobs && !H.Ends(step, fence)
    ensures !H.Ends(S.Kernel(b, owner, id, step), fence)
  {
  }

  lemma TransactHeld(p: Platform, b: A.Book, owner: string, other: string, kernel: JobStep, id: string, fence: Fence)
    requires A.Tables(b) && id in b.jobs && J.Sound(b.jobs[id]) && H.Holds(b.jobs[id], fence)
    requires other == id ==> !H.Ends(kernel, fence)
    ensures var after := A.Transact(p, b, owner, other, kernel);
            id in after.jobs && H.Holds(after.jobs[id], fence) && after.retain == b.retain
  {
    var release := S.TransactShape(p, b, owner, other, kernel);
    if other == id {
      KernelSpares(b, owner, id, kernel, fence);
      H.FenceKept(p, b.jobs[id], S.Kernel(b, owner, id, kernel), fence);
    }
  }

  /** An owned job is not deleted, and its identifier is not given out again. */
  lemma StoreHeld(p: Platform, b: A.Book, step: A.Step, id: string, fence: Fence)
    requires S.Consistent(b) && A.Tables(b) && A.Legal(b, step)
    requires id in b.jobs && H.Holds(b.jobs[id], fence) && id in b.retain
    requires step.DoTransact? && step.id == id ==> !H.Ends(step.step, fence)
    ensures var after := A.Perform(p, b, step);
            && id in after.jobs && H.Holds(after.jobs[id], fence)
            && id in after.retain && after.retain[id] == b.retain[id]
  {
    if step.DoCreate? {
      CreateHeld(b, step.grant, step.idem, step.spec, step.expiry, step.newId, step.now, id);
    } else {
      SoundJob(b.jobs, id);
      OthersHeld(p, b, step, id, fence);
    }
  }

  lemma SoundJob(jobs: S.Jobs, id: string)
    requires S.JobsHealthy(jobs) && id in jobs
    ensures J.Sound(jobs[id])
  {
    assert S.Healthy(jobs[id]);
  }

  lemma OthersHeld(p: Platform, b: A.Book, step: A.Step, id: string, fence: Fence)
    requires A.Tables(b) && !step.DoCreate?
    requires id in b.jobs && J.Sound(b.jobs[id]) && H.Holds(b.jobs[id], fence) && id in b.retain
    requires step.DoTransact? && step.id == id ==> !H.Ends(step.step, fence)
    ensures var after := A.Perform(p, b, step);
            && id in after.jobs && H.Holds(after.jobs[id], fence)
            && id in after.retain && after.retain[id] == b.retain[id]
  {
    if step.DoTransact? {
      TransactHeld(p, b, step.owner, step.id, step.step, id, fence);
    } else {
      AdministrationHeld(p, b, step, id, fence);
    }
  }

  lemma CreateHeld(b: A.Book, grant: Grant, idem: string, spec: Spec, expiry: int, newId: string, now: int, id: string)
    requires S.Consistent(b) && A.RowOf(b.reservations, newId).None? && id in b.jobs && id in b.retain
    ensures var after := A.Settle(b, A.Create(b, grant, idem, spec, expiry, newId, now));
            && id in after.jobs && after.jobs[id] == b.jobs[id]
            && id in after.retain && after.retain[id] == b.retain[id]
  {
    N.CreateKeepsJob(b, grant, idem, spec, expiry, newId, now, id);
    assert A.RowOf(b.reservations, id).Some?;
    CreateRetains(b, grant, idem, spec, expiry, newId, now, id);
  }

  lemma CreateRetains(b: A.Book, grant: Grant, idem: string, spec: Spec, expiry: int, newId: string, now: int,
                      id: string)
    requires id in b.retain && id != newId
    ensures var after := A.Settle(b, A.Create(b, grant, idem, spec, expiry, newId, now));
            id in after.retain && after.retain[id] == b.retain[id]
  {
  }

  lemma AdministrationHeld(p: Platform, b: A.Book, step: A.Step, id: string, fence: Fence)
    requires A.Tables(b) && !step.DoTransact? && !step.DoCreate?
    requires id in b.jobs && J.Sound(b.jobs[id]) && H.Holds(b.jobs[id], fence) && id in b.retain
    ensures var after := A.Perform(p, b, step);
            && id in after.jobs && after.jobs[id] == b.jobs[id]
            && id in after.retain && after.retain[id] == b.retain[id]
  {
  }

  lemma BeginHeld(s: System, c: DispatchClaim, allowed: bool, grant: Grant, id: string, token: string, now: int,
                  claim: DispatchClaim, fence: Fence, until: int)
    requires Held(s, claim, fence, until)
    ensures Held(Outcome(s, BeginClaimed(s, c, allowed, grant, id, token, now)), claim, fence, until)
  {
    if BeginClaimed(s, c, allowed, grant, id, token, now).Agreed? {
      BeginShape(s.book, grant, id, token, now);
      BeginKeepsRetain(s.book, grant, id, token, now);
    }
  }

  lemma BeginKeepsRetain(b: A.Book, grant: Grant, id: string, token: string, now: int)
    requires A.Begin(b, grant, id, token, now).Granted?
    ensures A.Begin(b, grant, id, token, now).book.retain == b.retain && b.jobs[id].head.runner.None?
  {
  }

  lemma ClaimOneHeld(s: System, ids: seq<string>, worker: string, allowed: bool, grants: string -> Option<Grant>,
                     token: string, now: int, claim: DispatchClaim, fence: Fence, until: int)
    requires Held(s, claim, fence, until) && ToScan(s, ids)
    ensures Held(Outcome(s, ClaimOne(s, ids, worker, allowed, grants, token, now)), claim, fence, until)
  {
    ClaimOneAges(s, ids, worker, allowed, grants, token, now);
    forall i | 0 <= i < |ids| ensures ids[i] != claim.job {
      assert IsWaiting(s.queue, ids[i]);
    }
    ScanLeaves(s, ids, worker, grants, token, now, claim.job);
  }

  lemma RecoverHeld(s: System, c: DispatchClaim, receipt: string, stopped: bool, now: int, claim: DispatchClaim,
                    fence: Fence, until: int)
    requires Held(s, claim, fence, until) && (c.job == claim.job && stopped ==> until <= now)
    ensures Held(Outcome(s, RecoverStopped(s, c, receipt, stopped, now)), claim, fence, until)
  {
    if c.job == claim.job {
      assert stopped ==> !A.Retained(s.book, claim.job, now);
    } else if RecoverStopped(s, c, receipt, stopped, now).Agreed? {
      RecoverRunnerShape(s, c, now);
      RecoverKeepsRetain(s, c, now);
    }
  }

  lemma RecoverKeepsRetain(s: System, c: DispatchClaim, now: int)
    requires c.job in s.queue && c.job in s.book.jobs && RecoverRunner(s, c, now).Agreed?
    ensures RecoverRunner(s, c, now).system.book.retain == s.book.retain
  {
  }

  lemma EnqueueHeld(s: System, grant: Grant, id: string, now: int, claim: DispatchClaim, fence: Fence, until: int)
    requires Held(s, claim, fence, until)
    ensures Held(Outcome(s, Enqueue(s, grant, id, now)), claim, fence, until)
  {
  }

  lemma AcknowledgeHeld(s: System, c: DispatchClaim, allowed: bool, claim: DispatchClaim, fence: Fence, until: int)
    requires Held(s, claim, fence, until)
    ensures Held(Outcome(s, Acknowledge(s, c, allowed)), claim, fence, until)
  {
  }

  lemma StoreStepHeld(p: Platform, s: System, inner: A.Step, claim: DispatchClaim, fence: Fence, until: int)
    requires S.Consistent(s.book) && A.Tables(s.book) && A.Legal(s.book, inner) && Held(s, claim, fence, until)
    requires inner.DoTransact? && inner.id == claim.job ==> !H.Ends(inner.step, fence)
    ensures Held(Perform(p, s, DoStore(inner)), claim, fence, until)
  {
    StoreHeld(p, s.book, inner, claim.job, fence);
    var book := A.Perform(p, s.book, inner);
    assert Cascade(book, s.queue)[claim.job] == s.queue[claim.job];
  }

  lemma StepHeld(p: Platform, s: System, step: Step, claim: DispatchClaim, fence: Fence, until: int)
    requires Linked(s) && Legal(s, step) && Held(s, claim, fence, until) && Spares(step, claim, fence, until)
    ensures Held(Perform(p, s, step), claim, fence, until)
  {
    match step
    case DoStore(inner) => StoreStepHeld(p, s, inner, claim, fence, until);
    case DoEnqueue(grant, id, now) => EnqueueHeld(s, grant, id, now, claim, fence, until);
    case DoClaimOne(ids, worker, allowed, grants, token, now) =>
      SelectedToScan(s, ids);
      ClaimOneHeld(s, ids, worker, allowed, grants, token, now, claim, fence, until);
    case DoDispatchBegin(c, allowed, grant, id, token, now) =>
      BeginHeld(s, c, allowed, grant, id, token, now, claim, fence, until);
    case DoAcknowledge(c, allowed) => AcknowledgeHeld(s, c, allowed, claim, fence, until);
    case DoRecoverStopped(c, receipt, stopped, now) => RecoverHeld(s, c, receipt, stopped, now, claim, fence, until);
  }

  lemma {:induction false} RunHeld(p: Platform, s: System, steps: seq<Step>, claim: DispatchClaim, fence: Fence,
                                   until: int)
    requires Linked(s) && Lawful(p, s, steps) && Held(s, claim, fence, until)
    requires forall step :: step in steps ==> Spares(step, claim, fence, until)
    ensures Held(PerformAll(p, s, steps), claim, fence, until)
    decreases |steps|
  {
    if steps != [] {
      assert steps[0] in steps;
      StepHeld(p, s, steps[0], claim, fence, until);
      StepKeepsLinked(p, s, steps[0]);
      RunHeld(p, Perform(p, s, steps[0]), steps[1..], claim, fence, until);
    }
  }

  // ---- a crashed worker past retention -----------------------------------------------------------

  /** A step of anyone else, at a time when the job can no longer be opened. */
  predicate Apart(step: Step, claim: DispatchClaim, fence: Fence, until: int) {
    match step
    case DoStore(inner) => inner.DoTransact? && inner.id == claim.job ==> !Uses(inner.step, fence)
    case DoRecoverStopped(_, _, _, now) => until <= now
    case _ => true
  }

  /**
   Once the retention date of a crashed runner's job has passed, then as long as nobody uses
   the dead runner's fence the job keeps its runner, its row stays claimed under the same
   claim, its slot stays held, and confirmed recovery is refused.
   */
  lemma CrashedPastRetention(p: Platform, s: System, steps: seq<Step>, claim: DispatchClaim, fence: Fence, until: int,
                             receipt: string, now: int)
    requires Linked(s) && Lawful(p, s, steps) && Held(s, claim, fence, until) && until <= now
    requires forall step :: step in steps ==> Apart(step, claim, fence, until)
    ensures var after := PerformAll(p, s, steps);
            && Held(after, claim, fence, until)
            && (Identifier(receipt) ==>
                  RecoverStopped(after, claim, receipt, true, now) == Turned(Store(A.Unprotected)))
            && var k := A.RowOf(after.book.reservations, claim.job);
               k.Some? && after.book.reservations[k.value].held
  {
    forall step | step in steps ensures Spares(step, claim, fence, until) {
      assert Apart(step, claim, fence, until);
    }
    RunHeld(p, s, steps, claim, fence, until);
    CrashedRefused(PerformAll(p, s, steps), claim, fence, until, receipt, now);
  }

  lemma CrashedRefused(s: System, claim: DispatchClaim, fence: Fence, until: int, receipt: string, now: int)
    requires Linked(s) && Held(s, claim, fence, until) && until <= now
    ensures Identifier(receipt) ==> RecoverStopped(s, claim, receipt, true, now) == Turned(Store(A.Unprotected))
    ensures var k := A.RowOf(s.book.reservations, claim.job); k.Some? && s.book.reservations[k.value].held
  {
    ClaimedOwned(s, claim);
    assert RowAgrees(s.queue[claim.job], s.book.jobs[claim.job].head);
    PastRetention(s, claim, fence, until, receipt, now);
    SlotStays(s.book, claim.job, fence);
  }

  lemma PastRetention(s: System, claim: DispatchClaim, fence: Fence, until: int, receipt: string, now: int)
    requires Held(s, claim, fence, until) && until <= now && A.Owned(s.book, claim.owner, claim.job)
    requires RowAgrees(s.queue[claim.job], s.book.jobs[claim.job].head)
    ensures Identifier(receipt) ==> RecoverStopped(s, claim, receipt, true, now) == Turned(Store(A.Unprotected))
  {
  }

  lemma SlotStays(b: A.Book, id: string, fence: Fence)
    requires S.Consistent(b) && id in b.jobs && H.Holds(b.jobs[id], fence)
    ensures var k := A.RowOf(b.reservations, id); k.Some? && b.reservations[k.value].held
  {
    OwnedAlive(b.jobs[id], fence);
    N.AliveHolds(b, b.jobs[id].head.owner, id);
  }

  lemma OwnedAlive(job: Job, fence: Fence)
    requires S.Healthy(job) && H.Holds(job, fence)
    ensures !job.head.state.Terminal()
  {
  }

  // ---- claim, run, acknowledge ---------------------------------------------------------------------

  lemma BegunHeld(s: System, claim: DispatchClaim, grant: Grant, token: string, now: int, fence: Fence)
    requires claim.job in s.book.retain && token != ""
    requires var r := BeginClaimed(s, claim, true, grant, claim.job, token, now); r.Agreed? && r.value == Some(fence)
    ensures Held(BeginClaimed(s, claim, true, grant, claim.job, token, now).system, claim, fence,
                 s.book.retain[claim.job])
  {
    BeginShape(s.book, grant, claim.job, token, now);
    BeginKeepsRetain(s.book, grant, claim.job, token, now);
  }

  /** The retention date of a job. */
  function KeptUntil(b: A.Book, id: string): int {
    if id in b.retain then b.retain[id] else 0
  }

  lemma BeginKnown(s: System, claim: DispatchClaim, grant: Grant, token: string, now: int)
    requires BeginClaimed(s, claim, true, grant, claim.job, token, now).Agreed?
    ensures claim.job in s.book.jobs
  {
  }

  /**
   A dispatched run as a whole.  From an accepted begin under the current claim, whatever
   this runner and everyone else do until its last `finish` or a recovery, the claim stays
   current and the job owned through its fence; and when the runner has drained the job, its
   `finish` is followed by an accepted `acknowledge` unless success is asked for a skipped
   final stage that nothing ends otherwise.
   */
  lemma DispatchedRun(p: Platform, first: seq<Step>, claim: DispatchClaim, grant: Grant, token: string, start: int,
                      fence: Fence, rest: seq<Step>, asked: JobState, now: int)
    requires LawfulFromStart(p, first) && token != ""
    requires var r := BeginClaimed(FromStart(p, first), claim, true, grant, claim.job, token, start);
             r.Agreed? && r.value == Some(fence) && Linked(r.system) && Lawful(p, r.system, rest)
    requires forall step :: step in rest ==> Spares(step, claim, fence, KeptUntil(FromStart(p, first).book, claim.job))
    ensures var begun := BeginClaimed(FromStart(p, first), claim, true, grant, claim.job, token, start).system;
            var s := PerformAll(p, begun, rest);
            && Matches(s.queue, claim) && claim.job in s.book.jobs && H.Holds(s.book.jobs[claim.job], fence)
            && (T.Justified(asked, s.book.jobs[claim.job].rows) ==>
                  var book := A.Transact(p, s.book, claim.owner, claim.job, DoFinish(fence, asked, now));
                  Acknowledge(System(book, Cascade(book, s.queue)), claim, true).Agreed?
                  <==> !Unfinishable(s.book, claim.job, asked, now))
  {
    var s0 := FromStart(p, first);
    ReachedRetained(p, first, s0);
    BeginKnown(s0, claim, grant, token, start);
    var begun := BeginClaimed(s0, claim, true, grant, claim.job, token, start).system;
    BegunHeld(s0, claim, grant, token, start, fence);
    RunHeld(p, begun, rest, claim, fence, s0.book.retain[claim.job]);
    var s := PerformAll(p, begun, rest);
    ClaimedOwned(s, claim);
    if T.Justified(asked, s.book.jobs[claim.job].rows) {
      FinishThenAcknowledge(p, s, claim, fence, asked, now,
                            A.Transact(p, s.book, claim.owner, claim.job, DoFinish(fence, asked, now)));
    }
  }
}
