/** Agreement of the two fences, and what becomes of enqueued jobs and of old claims. */
module DispatchSafety {
  import opened Basics
  import opened Contracts
  import opened Journal
  import opened JournalInvariants
  import opened Dispatch
  import A = Admission
  import S = AdmissionSafety
  import G = AccountGuarantees

  // ---- the invariant ----------------------------------------------------------------------

  /** What a dispatch row says about its job. */
  ghost predicate RowAgrees(row: DispatchRow, head: Head) {
    && row.owner == head.owner
    && (head.runner.Some? ==>
          row.state.Claimed? && row.runner == Some(Fence(head.runner.value, head.epoch)) && head.runner.value != "")
    && (row.state.Done? || row.state.Broken? ==> head.state.Terminal())
  }

  ghost predicate RowsAgree(jobs: S.Jobs, queue: Queue) {
    forall id :: id in queue ==> id in jobs && RowAgrees(queue[id], jobs[id].head)
  }

  /** Only dispatched jobs have a runner. */
  ghost predicate RunnersDispatched(jobs: S.Jobs, queue: Queue) {
    forall id :: id in jobs && jobs[id].head.runner.Some? ==> id in queue
  }

  ghost predicate Linked(s: System) {
    && S.Consistent(s.book) && A.Tables(s.book)
    && RowsAgree(s.book.jobs, s.queue)
    && RunnersDispatched(s.book.jobs, s.queue)
  }

  lemma EmptyLinked()
    ensures Linked(System(A.EMPTY, map[]))
  {
  }

  // ---- one job or one row changes -------------------------------------------------------------

  /** A journal step other than begin never takes ownership, and leaves terminal jobs alone. */
  ghost predicate Milder(before: Head, after: Head) {
    && after.owner == before.owner
    && (after.runner.Some? ==> after.runner == before.runner && after.epoch == before.epoch)
    && (before.state.Terminal() ==> after.state == before.state)
  }

  lemma StepMilder(p: Platform, job: Job, step: JobStep)
    requires Sound(job) && !step.DoBegin?
    ensures Milder(job.head, Apply(p, job, step).head)
  {
    StepPlaced(p, job, step);
  }

  lemma MilderAgrees(row: DispatchRow, before: Head, after: Head)
    requires RowAgrees(row, before) && Milder(before, after)
    ensures RowAgrees(row, after)
  {
  }

  /** The store changed jobs only in mild ways, and perhaps deleted or created some. */
  ghost predicate MildBook(before: S.Jobs, after: S.Jobs) {
    forall id :: id in after ==>
      if id in before then Milder(before[id].head, after[id].head) else after[id].head.runner.None?
  }

  lemma MildKeeps(before: S.Jobs, after: A.Book, queue: Queue)
    requires RowsAgree(before, queue) && RunnersDispatched(before, queue) && MildBook(before, after.jobs)
    ensures RowsAgree(after.jobs, Cascade(after, queue)) && RunnersDispatched(after.jobs, Cascade(after, queue))
  {
    forall id | id in Cascade(after, queue) ensures RowAgrees(queue[id], after.jobs[id].head) {
      MilderAgrees(queue[id], before[id].head, after.jobs[id].head);
    }
  }

  lemma ProgressMild(b: A.Book, id: string, job: Job, release: bool)
    requires id in b.jobs && Milder(b.jobs[id].head, job.head)
    ensures MildBook(b.jobs, S.Progress(b, id, job, release).jobs)
  {
  }

  lemma TransactMild(p: Platform, b: A.Book, owner: string, id: string, step: JobStep)
    requires A.Tables(b) && !step.DoBegin? && (id in b.jobs ==> Sound(b.jobs[id]))
    ensures MildBook(b.jobs, A.Transact(p, b, owner, id, step).jobs)
  {
    var release := S.TransactShape(p, b, owner, id, step);
    if id in b.jobs {
      StepMilder(p, b.jobs[id], S.Kernel(b, owner, id, step));
      ProgressMild(b, id, Apply(p, b.jobs[id], S.Kernel(b, owner, id, step)), release);
    }
  }

  lemma CreateMild(b: A.Book, grant: Grant, idem: string, spec: Spec, expiry: int, newId: string, now: int)
    ensures MildBook(b.jobs, A.Settle(b, A.Create(b, grant, idem, spec, expiry, newId, now)).jobs)
  {
  }

  lemma StoreMild(p: Platform, b: A.Book, step: A.Step)
    requires S.Consistent(b) && A.Tables(b) && A.Legal(b, step)
    requires !(step.DoTransact? && step.step.DoBegin?)
    ensures MildBook(b.jobs, A.Perform(p, b, step).jobs)
  {
    if step.DoTransact? {
      assert step.id in b.jobs ==> S.Healthy(b.jobs[step.id]);
      TransactMild(p, b, step.owner, step.id, step.step);
    } else if step.DoCreate? {
      CreateMild(b, step.grant, step.idem, step.spec, step.expiry, step.newId, step.now);
    } else {
      G.AdministrationKeepsRows(p, b, step);
    }
  }

  /** One dispatch row is rewritten in agreement with its job. */
  lemma RowRewritten(jobs: S.Jobs, queue: Queue, id: string, row: DispatchRow)
    requires RowsAgree(jobs, queue) && RunnersDispatched(jobs, queue)
    requires id in jobs && RowAgrees(row, jobs[id].head)
    ensures RowsAgree(jobs, queue[id := row]) && RunnersDispatched(jobs, queue[id := row])
  {
  }

  // ---- each step -------------------------------------------------------------------------------

  lemma StoreKeepsLinked(p: Platform, s: System, step: A.Step)
    requires Linked(s) && Legal(s, DoStore(step))
    ensures Linked(Perform(p, s, DoStore(step)))
  {
    S.StepKeepsConsistent(p, s.book, step);
    StoreMild(p, s.book, step);
    MildKeeps(s.book.jobs, A.Perform(p, s.book, step), s.queue);
  }

  lemma EnqueueKeepsLinked(s: System, grant: Grant, id: string, now: int)
    requires Linked(s)
    ensures Linked(Outcome(s, Enqueue(s, grant, id, now)))
  {
    var r := Enqueue(s, grant, id, now);
    if r.Agreed? {
      RowRewritten(s.book.jobs, s.queue, id, r.system.queue[id]);
    }
  }

  /** The rows still to be scanned are pending, each listed once. */
  ghost predicate ToScan(s: System, ids: seq<string>) {
    && Scannable(s, ids)
    && (forall i :: 0 <= i < |ids| ==> IsWaiting(s.queue, ids[i]))
    && (forall i, j :: 0 <= i < j < |ids| ==> ids[i] != ids[j])
  }

  lemma ToScanRest(s: System, ids: seq<string>, state: RowState)
    requires ToScan(s, ids) && ids != []
    ensures ToScan(Put(s, ids[0], state), ids[1..])
  {
    var next := Put(s, ids[0], state);
    forall i | 0 <= i < |ids[1..]| ensures IsWaiting(next.queue, ids[1..][i]) {
      assert IsWaiting(s.queue, ids[i + 1]);
    }
  }

  /** A pending row never hides a running job, so the scan may finish, hold or take it. */
  lemma JudgedAgrees(s: System, id: string, grants: string -> Option<Grant>, now: int)
    requires RowsAgree(s.book.jobs, s.queue) && RunnersDispatched(s.book.jobs, s.queue) && IsWaiting(s.queue, id)
    ensures s.book.jobs[id].head.runner.None?
    ensures Judge(s, id, grants, now).Finish? ==>
              RowsAgree(s.book.jobs, Put(s, id, Done).queue) && RunnersDispatched(s.book.jobs, Put(s, id, Done).queue)
    ensures RowsAgree(s.book.jobs, Put(s, id, Held).queue) && RunnersDispatched(s.book.jobs, Put(s, id, Held).queue)
  {
    assert RowAgrees(s.queue[id], s.book.jobs[id].head);
    RowRewritten(s.book.jobs, s.queue, id, s.queue[id].(state := Held));
    if Judge(s, id, grants, now).Finish? {
      RowRewritten(s.book.jobs, s.queue, id, s.queue[id].(state := Done));
    }
  }

  lemma {:induction false} ScanKeepsLinked(s: System, ids: seq<string>, worker: string, grants: string -> Option<Grant>,
                                           token: string, now: int)
    requires Linked(s) && ToScan(s, ids)
    ensures var (next, claim) := Scan(s, ids, worker, grants, token, now); Linked(next) && next.book == s.book
    decreases |ids|
  {
    if ids != [] {
      var id := ids[0];
      JudgedAgrees(s, id, grants, now);
      match Judge(s, id, grants, now)
      case Finish =>
        ToScanRest(s, ids, Done);
        ScanKeepsLinked(Put(s, id, Done), ids[1..], worker, grants, token, now);
      case Hold =>
        ToScanRest(s, ids, Held);
        ScanKeepsLinked(Put(s, id, Held), ids[1..], worker, grants, token, now);
      case Take =>
        RowRewritten(s.book.jobs, s.queue, id, TakeRow(s.queue[id], worker, token));
    }
  }

  lemma SelectedToScan(s: System, ids: seq<string>)
    requires Linked(s) && Selected(s.queue, ids)
    ensures ToScan(s, ids)
  {
    forall i, j | 0 <= i < j < |ids| ensures ids[i] != ids[j] {
      assert Before(s.queue, ids[i], ids[j]);
      if LexLess(ids[i], ids[j]) { LexAsymmetric(ids[i], ids[j]); }
    }
    forall id | id in ids ensures id in s.queue && A.Owned(s.book, s.queue[id].owner, id) {
      assert IsWaiting(s.queue, id);
      assert RowAgrees(s.queue[id], s.book.jobs[id].head);
    }
  }

  lemma ClaimOneKeepsLinked(s: System, ids: seq<string>, worker: string, allowed: bool, grants: string -> Option<Grant>,
                            token: string, now: int)
    requires Linked(s) && Selected(s.queue, ids)
    ensures Linked(Outcome(s, ClaimOne(s, ids, worker, allowed, grants, token, now)))
  {
    SelectedToScan(s, ids);
    ScanKeepsLinked(s, ids, worker, grants, token, now);
  }

  /** `begin` of the store: the new fence, if any, is this token with the next epoch. */
  lemma BeginShape(b: A.Book, grant: Grant, id: string, token: string, now: int)
    requires A.Begin(b, grant, id, token, now).Granted?
    ensures var v := A.Begin(b, grant, id, token, now);
            && id in b.jobs && b.jobs[id].head.runner.None?
            && OneJobMoved(b.jobs, v.book.jobs, id)
            && (v.value.Some? ==>
                  && v.book.jobs[id].head.runner == Some(token)
                  && v.value == Some(Fence(token, v.book.jobs[id].head.epoch))
                  && v.book.jobs[id].head.state.Running?)
            && (v.value.None? ==> v.book.jobs[id].head.runner.None? && v.book.jobs[id].head.state.Terminal())
  {
  }

  /** The jobs are the same but for `id`, which keeps its owner. */
  ghost predicate OneJobMoved(before: S.Jobs, after: S.Jobs, id: string) {
    && id in before && after.Keys == before.Keys
    && (forall other :: other in before && other != id ==> after[other] == before[other])
    && after[id].head.owner == before[id].head.owner
  }

  lemma MovedTogether(before: S.Jobs, after: S.Jobs, queue: Queue, id: string, row: DispatchRow)
    requires RowsAgree(before, queue) && RunnersDispatched(before, queue)
    requires OneJobMoved(before, after, id) && RowAgrees(row, after[id].head)
    ensures RowsAgree(after, queue[id := row]) && RunnersDispatched(after, queue[id := row])
  {
  }

  lemma BeginKeepsLinked(p: Platform, s: System, claim: DispatchClaim, allowed: bool, grant: Grant, id: string,
                         token: string, now: int)
    requires Linked(s) && token != ""
    ensures Linked(Outcome(s, BeginClaimed(s, claim, allowed, grant, id, token, now)))
  {
    var r := BeginClaimed(s, claim, allowed, grant, id, token, now);
    if r.Agreed? {
      BeginConsistent(p, s.book, grant, id, token, now);
      BeginAgrees(s.book.jobs, s.queue, s.book, claim, grant, id, token, now);
    }
  }

  lemma BeginAgrees(jobs: S.Jobs, queue: Queue, b: A.Book, claim: DispatchClaim, grant: Grant, id: string,
                    token: string, now: int)
    requires RowsAgree(jobs, queue) && RunnersDispatched(jobs, queue) && jobs == b.jobs && token != ""
    requires id == claim.job && Matches(queue, claim) && A.Begin(b, grant, id, token, now).Granted?
    ensures var v := A.Begin(b, grant, id, token, now);
            var next := if v.value.Some? then queue[id := queue[id].(runner := v.value)] else queue;
            RowsAgree(v.book.jobs, next) && RunnersDispatched(v.book.jobs, next)
  {
    BeginShape(b, grant, id, token, now);
    var v := A.Begin(b, grant, id, token, now);
    assert RowAgrees(queue[id], jobs[id].head);
    var row := if v.value.Some? then queue[id].(runner := v.value) else queue[id];
    assert queue[id := queue[id]] == queue;
    MovedTogether(jobs, v.book.jobs, queue, id, row);
  }

  lemma BeginConsistent(p: Platform, b: A.Book, grant: Grant, id: string, token: string, now: int)
    requires S.Consistent(b) && A.Tables(b) && A.Begin(b, grant, id, token, now).Granted?
    ensures var after := A.Begin(b, grant, id, token, now).book; S.Consistent(after) && A.Tables(after)
  {
    S.TransactKeeps(p, b, grant.owner, id, DoBegin(grant, token, now));
    S.HealthyTables(A.Transact(p, b, grant.owner, id, DoBegin(grant, token, now)));
  }

  /** A job without a runner is not running, so acknowledging rests its row correctly. */
  lemma AcknowledgeKeepsLinked(s: System, claim: DispatchClaim, allowed: bool)
    requires Linked(s)
    ensures Linked(Outcome(s, Acknowledge(s, claim, allowed)))
  {
    var r := Acknowledge(s, claim, allowed);
    if r.Agreed? {
      RowRewritten(s.book.jobs, s.queue, claim.job, r.system.queue[claim.job]);
    }
  }

  // ---- recovery --------------------------------------------------------------------------------

  /** Recovery never meets a runner other than the one recorded next to the claim. */
  lemma RecoveryFenceAgrees(s: System, claim: DispatchClaim, receipt: string, stopped: bool, now: int)
    requires RowsAgree(s.book.jobs, s.queue)
    ensures RecoverStopped(s, claim, receipt, stopped, now) != Turned(FenceMismatch)
    ensures Matches(s.queue, claim) && A.Owned(s.book, claim.owner, claim.job) ==>
              RecoverRunner(s, claim, now) != Turned(Store(A.Underlying(StaleFence)))
  {
    if claim.job in s.queue {
      assert RowAgrees(s.queue[claim.job], s.book.jobs[claim.job].head);
    }
  }

  lemma RecoverShape(b: A.Book, owner: string, id: string, fence: Fence, now: int)
    requires A.Recover(b, owner, id, fence, now).Granted?
    ensures var v := A.Recover(b, owner, id, fence, now);
            OneJobMoved(b.jobs, v.book.jobs, id) && v.book.jobs[id].head.runner.None?
  {
  }

  lemma TransactRecovers(p: Platform, b: A.Book, owner: string, id: string, fence: Fence, now: int)
    requires A.Tables(b)
    ensures A.Transact(p, b, owner, id, DoRecover(fence, now)) == A.Settle(b, A.Recover(b, owner, id, fence, now))
  {
  }

  lemma TransactKeepsBoth(p: Platform, b: A.Book, owner: string, id: string, step: JobStep, after: A.Book)
    requires S.Consistent(b) && A.Tables(b) && after == A.Transact(p, b, owner, id, step)
    ensures S.Consistent(after) && A.Tables(after)
  {
    S.TransactKeeps(p, b, owner, id, step);
    S.HealthyTables(after);
  }

  lemma RecoverConsistent(p: Platform, b: A.Book, owner: string, id: string, fence: Fence, now: int, after: A.Book)
    requires S.Consistent(b) && A.Tables(b) && after == A.Settle(b, A.Recover(b, owner, id, fence, now))
    ensures S.Consistent(after) && A.Tables(after)
  {
    TransactRecovers(p, b, owner, id, fence, now);
    TransactKeepsBoth(p, b, owner, id, DoRecover(fence, now), after);
  }

  /** After the kernel half of a recovery the job has no runner, and nothing else moved. */
  lemma RecoverRunnerShape(s: System, claim: DispatchClaim, now: int)
    requires claim.job in s.queue && claim.job in s.book.jobs && RecoverRunner(s, claim, now).Agreed?
    ensures var next := RecoverRunner(s, claim, now).system;
            && next.queue == s.queue && OneJobMoved(s.book.jobs, next.book.jobs, claim.job)
            && next.book.jobs[claim.job].head.runner.None?
  {
    var head := s.book.jobs[claim.job].head;
    if head.runner.Some? {
      RecoverShape(s.book, claim.owner, claim.job, Fence(head.runner.value, head.epoch), now);
    }
  }

  lemma RecoverRunnerBook(s: System, claim: DispatchClaim, now: int)
    requires claim.job in s.queue && claim.job in s.book.jobs && RecoverRunner(s, claim, now).Agreed?
    ensures var head := s.book.jobs[claim.job].head;
            var next := RecoverRunner(s, claim, now).system.book;
            if head.runner.None? then next == s.book
            else
              var fence := Fence(head.runner.value, head.epoch);
              next == A.Settle(s.book, A.Recover(s.book, claim.owner, claim.job, fence, now))
  {
  }

  lemma RecoverRunnerConsistent(p: Platform, s: System, claim: DispatchClaim, now: int, after: A.Book)
    requires S.Consistent(s.book) && A.Tables(s.book)
    requires claim.job in s.queue && claim.job in s.book.jobs && RecoverRunner(s, claim, now).Agreed?
    requires after == RecoverRunner(s, claim, now).system.book
    ensures S.Consistent(after) && A.Tables(after)
  {
    var head := s.book.jobs[claim.job].head;
    RecoverRunnerBook(s, claim, now);
    if head.runner.Some? {
      RecoverConsistent(p, s.book, claim.owner, claim.job, Fence(head.runner.value, head.epoch), now, after);
    }
  }

  lemma RestedAgrees(row: DispatchRow, job: Job, generation: nat, receipt: string)
    requires S.Healthy(job) && job.head.runner.None? && row.owner == job.head.owner
    ensures RowAgrees(Rested(row, StateAfterRecovery(job.head)).(generation := generation, receipt := Some(receipt)),
                      job.head)
  {
  }

  lemma RecoverKeepsLinked(p: Platform, s: System, claim: DispatchClaim, receipt: string, stopped: bool, now: int)
    requires Linked(s)
    ensures Linked(Outcome(s, RecoverStopped(s, claim, receipt, stopped, now)))
  {
    var r := RecoverStopped(s, claim, receipt, stopped, now);
    if r.Agreed? {
      var next := RecoverRunner(s, claim, now).system;
      RecoverRunnerConsistent(p, s, claim, now, next.book);
      assert S.Healthy(next.book.jobs[claim.job]);
      RecoverAgrees(s, claim, receipt, stopped, now);
    }
  }

  lemma RecoverAgrees(s: System, claim: DispatchClaim, receipt: string, stopped: bool, now: int)
    requires RowsAgree(s.book.jobs, s.queue) && RunnersDispatched(s.book.jobs, s.queue)
    requires RecoverStopped(s, claim, receipt, stopped, now).Agreed?
    requires var next := RecoverRunner(s, claim, now).system;
             claim.job in next.book.jobs && S.Healthy(next.book.jobs[claim.job])
    ensures var after := RecoverStopped(s, claim, receipt, stopped, now).system;
            RowsAgree(after.book.jobs, after.queue) && RunnersDispatched(after.book.jobs, after.queue)
  {
    RecoverRunnerShape(s, claim, now);
    var next := RecoverRunner(s, claim, now).system;
    var row := s.queue[claim.job];
    assert RowAgrees(row, s.book.jobs[claim.job].head);
    RestedAgrees(row, next.book.jobs[claim.job], row.generation + 1, receipt);
    var rested := Rested(row, StateAfterRecovery(next.book.jobs[claim.job].head));
    MovedTogether(s.book.jobs, next.book.jobs, s.queue, claim.job,
                  rested.(generation := row.generation + 1, receipt := Some(receipt)));
  }

  lemma StepKeepsLinked(p: Platform, s: System, step: Step)
    requires Linked(s) && Legal(s, step)
    ensures Linked(Perform(p, s, step))
  {
    match step
    case DoStore(inner) => StoreKeepsLinked(p, s, inner);
    case DoEnqueue(grant, id, now) => EnqueueKeepsLinked(s, grant, id, now);
    case DoClaimOne(ids, worker, allowed, grants, token, now) =>
      ClaimOneKeepsLinked(s, ids, worker, allowed, grants, token, now);
    case DoDispatchBegin(claim, allowed, grant, id, token, now) =>
      BeginKeepsLinked(p, s, claim, allowed, grant, id, token, now);
    case DoAcknowledge(claim, allowed) => AcknowledgeKeepsLinked(s, claim, allowed);
    case DoRecoverStopped(claim, receipt, stopped, now) => RecoverKeepsLinked(p, s, claim, receipt, stopped, now);
  }
}
