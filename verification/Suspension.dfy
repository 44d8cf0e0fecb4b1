/**
 A disabled account, and one outside its period: from a configuration that disables it until
 the next one that is granted, nothing is admitted, begun, claimed or completed for it, and
 nothing of it ends in success.
 */
module Suspension {
  import opened Basics
  import opened Contracts
  import opened Journal
  import opened JournalInvariants
  import opened Admission
  import opened AdmissionSafety
  import opened AdmissionRules
  import K = Transactions

  /** The time a step reads. */
  function TimeOf(step: Step): int {
    match step
    case DoConfigure(_, _, _, now) => now
    case DoCreate(_, _, _, _, _, now) => now
    case DoTransact(_, _, kernel) => KernelTime(kernel)
    case DoQuiesce(_, _, _, _) => 0
    case DoDelete(_, _, _, _, _, now) => now
  }

  function KernelTime(step: JobStep): int {
    match step
    case DoBegin(_, _, now) => now
    case DoClaim(_, _, _, _, now) => now
    case DoComplete(_, _, _, _, now) => now
    case DoFailStage(_, _, _, now) => now
    case DoPublish(_, _, _, _, _, now) => now
    case DoCancel(now) => now
    case DoFinish(_, _, now) => now
    case DoFinishUnreadable(_, _, now) => now
    case DoRecover(_, now) => now
  }

  /** Only losses: a row may have failed or become uncertain, and the job may have ended, but not in success. */
  predicate OnlyLoses(before: Job, after: Job) {
    && after.head.spec == before.head.spec && |after.rows| == |before.rows|
    && after.head.tokensReserved == before.head.tokensReserved && after.head.costReserved == before.head.costReserved
    && (after.head.state == Succeeded ==> before.head.state == Succeeded)
    && (after.head.state == Running ==> before.head.state == Running)
    && (forall i :: 0 <= i < |before.rows| ==>
          after.rows[i] == before.rows[i]
          || after.rows[i] == before.rows[i].(state := StageFailed)
             || after.rows[i] == before.rows[i].(state := Uncertain))
  }

  predicate JobsOnlyLose(before: Book, after: Book, owner: string) {
    forall id :: id in after.jobs && after.jobs[id].head.owner == owner ==>
      id in before.jobs && before.jobs[id].head.owner == owner && OnlyLoses(before.jobs[id], after.jobs[id])
  }

  predicate Works(step: JobStep) {
    step.DoBegin? || step.DoClaim? || step.DoComplete?
  }

  // ---- one step ------------------------------------------------------------------------------------

  /** Kernel steps that pass no gate only lose. */
  lemma KernelOnlyLoses(p: Platform, job: Job, step: JobStep)
    requires Control(job) && !Works(step) && (step.DoFinish? ==> step.asked != Succeeded)
    ensures OnlyLoses(job, Apply(p, job, step))
  {
    match step
    case DoFailStage(fence, id, attempt, now) =>
      var found := Find(job.head.spec.stages, id);
      if found.Some? { K.FailExact(job, fence, found.value, attempt, now); }
      else { K.CompletionUnknown(p, job, fence, id, attempt, RawResult(None, [], 0, 0, None), now); }
    case DoCancel(now) => K.CancelExact(job, now);
    case DoFinish(fence, asked, now) => K.FinishExact(job, fence, asked, now);
    case DoFinishUnreadable(fence, until, now) => K.UnreadableExact(job, fence, until, now);
    case DoRecover(fence, now) => K.RecoveryDecided(job, fence, now);
    case DoPublish(grant, fence, id, attempt, text, now) =>
      K.PublicationExact(p, job, grant, fence, id, attempt, text, now);
  }

  /** Job `id` has only lost, and nothing else of the jobs and accounts has changed. */
  predicate LosesOne(b: Book, after: Book, id: string) {
    && id in b.jobs && after.accounts == b.accounts
    && id in after.jobs && after.jobs == b.jobs[id := after.jobs[id]]
    && after.jobs[id].head.owner == b.jobs[id].head.owner && OnlyLoses(b.jobs[id], after.jobs[id])
  }

  lemma KernelLosesOne(p: Platform, b: Book, id: string, step: JobStep, after: Book)
    requires Tables(b) && id in b.jobs && Control(b.jobs[id]) && !Works(step)
    requires step.DoFinish? ==> step.asked != Succeeded
    requires after.accounts == b.accounts && after.jobs == b.jobs[id := Apply(p, b.jobs[id], step)]
    ensures LosesOne(b, after, id)
  {
    KernelOnlyLoses(p, b.jobs[id], step);
  }

  lemma WorkRefused(p: Platform, b: Book, owner: string, actor: string, id: string, step: JobStep)
    requires Booked(b) && Tables(b) && !Accepting(b, owner, KernelTime(step)) && Works(step)
    requires id in b.jobs && b.jobs[id].head.owner == owner
    ensures Transact(p, b, actor, id, step) == b
  {
    match step
    case DoBegin(grant, token, now) => BeginGated(b, grant, id, token, now);
    case DoClaim(grant, fence, stage, attempt, now) => ClaimGated(b, grant, id, fence, stage, attempt, now);
    case DoComplete(fence, stage, attempt, raw, now) => CompleteGated(p, b, actor, id, fence, stage, attempt, raw, now);
  }

  lemma RestLoses(p: Platform, b: Book, actor: string, id: string, step: JobStep, after: Book)
    requires Tables(b) && id in b.jobs && Control(b.jobs[id])
    requires step.DoFailStage? || step.DoPublish? || step.DoRecover? || step.DoFinishUnreadable?
    requires after == Transact(p, b, actor, id, step)
    ensures after == b || LosesOne(b, after, id)
  {
    if after != b { KernelLosesOne(p, b, id, step, after); }
  }

  lemma CancelLoses(p: Platform, b: Book, actor: string, id: string, now: int, after: Book)
    requires Booked(b) && Tables(b) && id in b.jobs && Control(b.jobs[id])
    requires after == Transact(p, b, actor, id, DoCancel(now))
    ensures after == b || LosesOne(b, after, id)
  {
    if actor == b.jobs[id].head.owner {
      ReleaseLeaves(b, actor, id, Journal.RequestCancel(b.jobs[id], now).job);
      KernelLosesOne(p, b, id, DoCancel(now), after);
    }
  }

  lemma FinishLoses(p: Platform, b: Book, actor: string, id: string, fence: Fence, asked: JobState, now: int,
                    after: Book)
    requires Booked(b) && Tables(b) && id in b.jobs && Control(b.jobs[id])
    requires !Accepting(b, b.jobs[id].head.owner, now)
    requires after == Transact(p, b, actor, id, DoFinish(fence, asked, now))
    ensures after == b || LosesOne(b, after, id)
  {
    if actor == b.jobs[id].head.owner && after != b {
      FinishGated(b, actor, id, fence, asked, now);
      var wanted := if asked == Succeeded then Failed else asked;
      if Opens(b, actor, id, now) || !(K.Over(asked) || asked == Paused) {
        KernelLosesOne(p, b, id, DoFinish(fence, wanted, now), after);
      } else {
        KernelLosesOne(p, b, id, DoFinishUnreadable(fence, now, now), after);
      }
    }
  }

  /** A kernel transaction of anyone on a job of an account that takes no work. */
  lemma TransactLoses(p: Platform, b: Book, actor: string, id: string, step: JobStep, after: Book)
    requires Booked(b) && Tables(b) && id in b.jobs && Control(b.jobs[id])
    requires !Accepting(b, b.jobs[id].head.owner, KernelTime(step))
    requires after == Transact(p, b, actor, id, step)
    ensures after == b || (!Works(step) && LosesOne(b, after, id))
  {
    if Works(step) {
      WorkRefused(p, b, b.jobs[id].head.owner, actor, id, step);
    } else if step.DoCancel? {
      CancelLoses(p, b, actor, id, step.now, after);
    } else if step.DoFinish? {
      FinishLoses(p, b, actor, id, step.fence, step.asked, step.now, after);
    } else {
      RestLoses(p, b, actor, id, step, after);
    }
  }

  lemma SameJobs(b: Book, after: Book, owner: string)
    requires forall id :: id in after.jobs ==> id in b.jobs && after.jobs[id] == b.jobs[id]
    ensures JobsOnlyLose(b, after, owner)
  {
  }

  lemma OneLost(b: Book, after: Book, id: string, owner: string)
    requires LosesOne(b, after, id)
    ensures JobsOnlyLose(b, after, owner)
  {
  }

  lemma OtherMoves(b: Book, after: Book, id: string, job: Job, owner: string)
    requires id in b.jobs && after.jobs == b.jobs[id := job] && job.head.owner == b.jobs[id].head.owner != owner
    ensures JobsOnlyLose(b, after, owner)
  {
  }

  lemma TransactKept(p: Platform, b: Book, step: Step, owner: string, after: Book)
    requires Consistent(b) && Tables(b) && step.DoTransact? && !Accepting(b, owner, TimeOf(step))
    requires after == Perform(p, b, step)
    ensures JobsOnlyLose(b, after, owner) && after.accounts == b.accounts
    ensures Works(step.step) && step.id in b.jobs && b.jobs[step.id].head.owner == owner ==> after == b
  {
    ConsistentBooked(b);
    if step.id in b.jobs && b.jobs[step.id].head.owner == owner {
      assert Healthy(b.jobs[step.id]);
      TransactLoses(p, b, step.owner, step.id, step.step, after);
      if after != b { OneLost(b, after, step.id, owner); } else { SameJobs(b, after, owner); }
    } else {
      OthersMove(p, b, step.owner, step.id, step.step, owner, after);
    }
  }

  lemma OthersMove(p: Platform, b: Book, actor: string, id: string, step: JobStep, owner: string, after: Book)
    requires Tables(b) && (id in b.jobs ==> b.jobs[id].head.owner != owner)
    requires after == Transact(p, b, actor, id, step)
    ensures JobsOnlyLose(b, after, owner) && after.accounts == b.accounts
  {
    var release := TransactShape(p, b, actor, id, step);
    if after != b {
      OtherMoves(b, after, id, after.jobs[id], owner);
    } else {
      SameJobs(b, after, owner);
    }
  }

  lemma CreateKept(b: Book, step: Step, owner: string, after: Book)
    requires Consistent(b) && Legal(b, step) && step.DoCreate? && !Accepting(b, owner, TimeOf(step))
    requires after == Settle(b, Create(b, step.grant, step.idem, step.spec, step.expiry, step.newId, step.now))
    ensures JobsOnlyLose(b, after, owner) && after.accounts == b.accounts
    ensures step.grant.owner == owner ==> after == b
  {
    CreateDecided(b, step.grant, step.idem, step.spec, step.expiry, step.newId, step.now);
    if after == b { SameJobs(b, after, owner); } else { NewElsewhere(b, after, step.newId, owner); }
  }

  lemma NewElsewhere(b: Book, after: Book, id: string, owner: string)
    requires id in after.jobs && after.jobs == b.jobs[id := after.jobs[id]] && after.jobs[id].head.owner != owner
    ensures JobsOnlyLose(b, after, owner)
  {
  }

  /** Configuring, confirming and deleting leave the jobs that remain as they were. */
  lemma OfficeKept(p: Platform, b: Book, step: Step, owner: string, after: Book)
    requires Tables(b) && (step.DoConfigure? || step.DoQuiesce? || step.DoDelete?) && after == Perform(p, b, step)
    ensures JobsOnlyLose(b, after, owner) && (!step.DoConfigure? ==> after.accounts == b.accounts)
  {
    SameJobs(b, after, owner);
  }

  /** A step at a time when the account takes no work. */
  lemma StepLoses(p: Platform, b: Book, step: Step, owner: string, after: Book)
    requires Consistent(b) && Tables(b) && Legal(b, step) && !Accepting(b, owner, TimeOf(step))
    requires after == Perform(p, b, step)
    ensures JobsOnlyLose(b, after, owner) && (!step.DoConfigure? ==> after.accounts == b.accounts)
    ensures step.DoCreate? && step.grant.owner == owner ==> after == b
    ensures step.DoTransact? && Works(step.step) && step.id in b.jobs && b.jobs[step.id].head.owner == owner ==>
              after == b
  {
    if step.DoTransact? {
      TransactKept(p, b, step, owner, after);
    } else if step.DoCreate? {
      CreateKept(b, step, owner, after);
    } else {
      OfficeKept(p, b, step, owner, after);
    }
  }

  // ---- runs --------------------------------------------------------------------------------------------

  lemma LossesAdd(before: Book, middle: Book, after: Book, owner: string)
    requires JobsOnlyLose(before, middle, owner) && JobsOnlyLose(middle, after, owner)
    ensures JobsOnlyLose(before, after, owner)
  {
    forall id | id in after.jobs && after.jobs[id].head.owner == owner
      ensures id in before.jobs && before.jobs[id].head.owner == owner && OnlyLoses(before.jobs[id], after.jobs[id])
    {
      assert OnlyLoses(middle.jobs[id], after.jobs[id]) && OnlyLoses(before.jobs[id], middle.jobs[id]);
    }
  }

  /** A configuration of this account is granted. */
  predicate Reconfigures(b: Book, step: Step, owner: string) {
    && step.DoConfigure? && step.policy.owner == owner
    && Configure(b, step.policy, step.expected, step.authorized, step.now).Granted?
  }

  ghost predicate NeverReconfigured(p: Platform, b: Book, steps: seq<Step>, owner: string)
    requires Consistent(b) && Tables(b) && Lawful(p, b, steps)
    decreases |steps|
  {
    steps == [] ||
    (StepKeepsConsistent(p, b, steps[0]);
     !Reconfigures(b, steps[0], owner) && NeverReconfigured(p, Perform(p, b, steps[0]), steps[1..], owner))
  }

  predicate Disabled(b: Book, owner: string) {
    owner in b.accounts && !b.accounts[owner].policy.enabled
  }

  /** Granting a policy that is not enabled disables its account. */
  lemma DisabledBy(b: Book, policy: Policy, expected: nat, authorized: bool, now: int)
    requires !policy.enabled && Configure(b, policy, expected, authorized, now).Granted?
    ensures Disabled(Configure(b, policy, expected, authorized, now).book, policy.owner)
  {
    ConfigurationDecided(b, policy, expected, authorized, now);
  }

  lemma StaysDisabled(p: Platform, b: Book, step: Step, owner: string)
    requires Consistent(b) && Tables(b) && Legal(b, step) && Disabled(b, owner) && !Reconfigures(b, step, owner)
    ensures Disabled(Perform(p, b, step), owner)
  {
    StepLoses(p, b, step, owner, Perform(p, b, step));
  }

  /**
   As long as no configuration of a disabled account is granted it stays disabled, and
   whatever anyone does no job of it appears, starts, completes a stage or ends in success.
   */
  lemma {:induction false} DisabledLoses(p: Platform, b: Book, steps: seq<Step>, owner: string)
    requires Consistent(b) && Tables(b) && Lawful(p, b, steps)
    requires Disabled(b, owner) && NeverReconfigured(p, b, steps, owner)
    ensures var after := PerformAll(p, b, steps); Disabled(after, owner) && JobsOnlyLose(b, after, owner)
    decreases |steps|
  {
    if steps != [] {
      StepLoses(p, b, steps[0], owner, Perform(p, b, steps[0]));
      StaysDisabled(p, b, steps[0], owner);
      StepKeepsConsistent(p, b, steps[0]);
      DisabledLoses(p, Perform(p, b, steps[0]), steps[1..], owner);
      LossesAdd(b, Perform(p, b, steps[0]), PerformAll(p, b, steps), owner);
    }
  }
}
