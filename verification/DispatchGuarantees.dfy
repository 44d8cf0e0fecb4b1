/** Dispatcher theorems over whole runs. */
module DispatchGuarantees {
  import opened Basics
  import opened Contracts
  import opened Journal
  import opened Dispatch
  import opened DispatchSafety
  import A = Admission
  import G = AccountGuarantees

  // ---- runs ---------------------------------------------------------------------------------

  ghost predicate Lawful(p: Platform, s: System, steps: seq<Step>)
    requires Linked(s)
    decreases |steps|
  {
    steps == [] ||
    (Legal(s, steps[0]) &&
     (StepKeepsLinked(p, s, steps[0]);
      Lawful(p, Perform(p, s, steps[0]), steps[1..])))
  }

  ghost function PerformAll(p: Platform, s: System, steps: seq<Step>): (after: System)
    requires Linked(s) && Lawful(p, s, steps)
    ensures Linked(after)
    decreases |steps|
  {
    if steps == [] then s
    else
      StepKeepsLinked(p, s, steps[0]);
      PerformAll(p, Perform(p, s, steps[0]), steps[1..])
  }

  const START: System := System(A.EMPTY, map[])

  /** Every step is legal where it is taken. */
  ghost predicate LawfulFromStart(p: Platform, steps: seq<Step>) {
    EmptyLinked();
    Lawful(p, START, steps)
  }

  /** The system that a run from an empty schema reaches. */
  ghost function FromStart(p: Platform, steps: seq<Step>): (s: System)
    requires LawfulFromStart(p, steps)
  {
    EmptyLinked();
    PerformAll(p, START, steps)
  }

  /**
   From an empty schema, whatever dispatchers, workers, administrators and users do: a job
   that has a runner has a claimed row that records exactly its fence; an enqueued job that
   has not ended is waiting, claimed or held, never lost in `finished` or `interrupted`.
   */
  lemma FencesAgree(p: Platform, steps: seq<Step>, id: string)
    requires LawfulFromStart(p, steps)
    ensures var s := FromStart(p, steps);
            id in s.book.jobs ==>
              var head := s.book.jobs[id].head;
              && (head.runner.Some? ==>
                    id in s.queue && s.queue[id].state.Claimed?
                    && s.queue[id].runner == Some(Fence(head.runner.value, head.epoch)))
              && (id in s.queue && !head.state.Terminal() ==>
                    s.queue[id].state.Waiting? || s.queue[id].state.Claimed? || s.queue[id].state.Held?)
  {
    var s := FromStart(p, steps);
    if id in s.queue {
      assert RowAgrees(s.queue[id], s.book.jobs[id].head);
    }
  }

  // ---- claims --------------------------------------------------------------------------------

  /** Generations only grow, and a row is claimed again only with a new generation. */
  predicate RowAges(before: DispatchRow, after: DispatchRow) {
    && after.owner == before.owner
    && before.generation <= after.generation
    && (after.generation == before.generation && after.state.Claimed? ==>
          before.state.Claimed? && after.token == before.token && after.worker == before.worker)
  }

  ghost predicate QueueAges(before: Queue, after: Queue) {
    forall id :: id in before && id in after ==> RowAges(before[id], after[id])
  }

  lemma {:induction false} ScanAges(s: System, ids: seq<string>, worker: string, grants: string -> Option<Grant>,
                                    token: string, now: int)
    requires Scannable(s, ids) && ToScan(s, ids)
    ensures var (next, claim) := Scan(s, ids, worker, grants, token, now);
            next.queue.Keys == s.queue.Keys && QueueAges(s.queue, next.queue)
    decreases |ids|
  {
    if ids != [] {
      var id := ids[0];
      assert IsWaiting(s.queue, id);
      match Judge(s, id, grants, now)
      case Finish =>
        ToScanRest(s, ids, Done);
        ScanAges(Put(s, id, Done), ids[1..], worker, grants, token, now);
      case Hold =>
        ToScanRest(s, ids, Held);
        ScanAges(Put(s, id, Held), ids[1..], worker, grants, token, now);
      case Take =>
    }
  }

  lemma {:induction false} ScanBook(s: System, ids: seq<string>, worker: string, grants: string -> Option<Grant>,
                                    token: string, now: int)
    requires Scannable(s, ids)
    ensures Scan(s, ids, worker, grants, token, now).0.book == s.book
    decreases |ids|
  {
    if ids != [] {
      match Judge(s, ids[0], grants, now)
      case Finish => ScanBook(Put(s, ids[0], Done), ids[1..], worker, grants, token, now);
      case Hold => ScanBook(Put(s, ids[0], Held), ids[1..], worker, grants, token, now);
      case Take =>
    }
  }

  lemma ClaimOneAges(s: System, ids: seq<string>, worker: string, allowed: bool, grants: string -> Option<Grant>,
                     token: string, now: int)
    requires ToScan(s, ids)
    ensures QueueAges(s.queue, Outcome(s, ClaimOne(s, ids, worker, allowed, grants, token, now)).queue)
    ensures Outcome(s, ClaimOne(s, ids, worker, allowed, grants, token, now)).queue.Keys == s.queue.Keys
    ensures Outcome(s, ClaimOne(s, ids, worker, allowed, grants, token, now)).book == s.book
  {
    ScanBook(s, ids, worker, grants, token, now);
    ScanAges(s, ids, worker, grants, token, now);
  }

  lemma RecoverAges(s: System, claim: DispatchClaim, receipt: string, stopped: bool, now: int)
    ensures QueueAges(s.queue, Outcome(s, RecoverStopped(s, claim, receipt, stopped, now)).queue)
  {
  }

  lemma BeginAges(s: System, claim: DispatchClaim, allowed: bool, grant: Grant, id: string, token: string, now: int)
    ensures QueueAges(s.queue, Outcome(s, BeginClaimed(s, claim, allowed, grant, id, token, now)).queue)
  {
  }

  lemma AcknowledgeAges(s: System, claim: DispatchClaim, allowed: bool)
    ensures QueueAges(s.queue, Outcome(s, Acknowledge(s, claim, allowed)).queue)
  {
  }

  lemma EnqueueAges(s: System, grant: Grant, id: string, now: int)
    ensures QueueAges(s.queue, Outcome(s, Enqueue(s, grant, id, now)).queue)
  {
  }

  lemma StepAges(p: Platform, s: System, step: Step)
    requires A.Tables(s.book) && (step.DoClaimOne? ==> ToScan(s, step.ids))
    ensures QueueAges(s.queue, Perform(p, s, step).queue)
  {
    match step
    case DoStore(inner) =>
    case DoEnqueue(grant, id, now) => EnqueueAges(s, grant, id, now);
    case DoClaimOne(ids, worker, allowed, grants, token, now) =>
      ClaimOneAges(s, ids, worker, allowed, grants, token, now);
    case DoDispatchBegin(claim, allowed, grant, id, token, now) => BeginAges(s, claim, allowed, grant, id, token, now);
    case DoAcknowledge(claim, allowed) => AcknowledgeAges(s, claim, allowed);
    case DoRecoverStopped(claim, receipt, stopped, now) => RecoverAges(s, claim, receipt, stopped, now);
  }

  /** The job was deleted; its reservation remains. */
  ghost predicate Gone(s: System, id: string) {
    id !in s.book.jobs && A.RowOf(s.book.reservations, id).Some?
  }

  /** The claim was issued once and is no longer the current one. */
  ghost predicate Superseded(s: System, claim: DispatchClaim) {
    if claim.job in s.queue then
      var row := s.queue[claim.job];
      claim.generation < row.generation || (claim.generation == row.generation && !Matches(s.queue, claim))
    else Gone(s, claim.job)
  }

  lemma StoreRemoves(p: Platform, s: System, step: A.Step, id: string)
    requires Linked(s) && Legal(s, DoStore(step)) && (id in s.queue || Gone(s, id))
    ensures var after := Perform(p, s, DoStore(step));
            if id in after.queue then id in s.queue && after.queue[id] == s.queue[id] else Gone(after, id)
  {
    G.StepKeepsRows(p, s.book, step);
    G.StillReserved(s.book.reservations, A.Perform(p, s.book, step).reservations, id);
    if Gone(s, id) {
      G.StepKeepsGone(p, s.book, step, id);
    }
  }

  /** `after` has the rows of `s`, and what was gone is gone. */
  ghost predicate Removed(s: System, after: System, id: string) {
    && (id in s.queue ==> id in after.queue)
    && (Gone(s, id) && id !in s.queue ==> Gone(after, id) && id !in after.queue)
  }

  lemma BeginRemovesNothing(s: System, claim: DispatchClaim, allowed: bool, grant: Grant, other: string, token: string,
                            now: int, id: string)
    ensures Removed(s, Outcome(s, BeginClaimed(s, claim, allowed, grant, other, token, now)), id)
  {
    if BeginClaimed(s, claim, allowed, grant, other, token, now).Agreed? {
      BeginShape(s.book, grant, other, token, now);
      BeginKeepsReservations(s.book, grant, other, token, now, id);
    }
  }

  lemma RecoverRemovesNothing(s: System, claim: DispatchClaim, receipt: string, stopped: bool, now: int, id: string)
    ensures Removed(s, Outcome(s, RecoverStopped(s, claim, receipt, stopped, now)), id)
  {
    if RecoverStopped(s, claim, receipt, stopped, now).Agreed? {
      RecoverRunnerShape(s, claim, now);
      RecoverKeepsReservations(s, claim, now);
    }
  }

  /** Dispatcher steps add no job, remove no row and touch no reservation of a deleted job. */
  lemma DispatcherRemovesNothing(p: Platform, s: System, step: Step, id: string)
    requires A.Tables(s.book) && !step.DoStore? && (step.DoClaimOne? ==> ToScan(s, step.ids))
    ensures Removed(s, Perform(p, s, step), id)
  {
    match step
    case DoClaimOne(ids, worker, allowed, grants, token, now) =>
      ClaimOneAges(s, ids, worker, allowed, grants, token, now);
    case DoDispatchBegin(claim, allowed, grant, other, token, now) =>
      BeginRemovesNothing(s, claim, allowed, grant, other, token, now, id);
    case DoRecoverStopped(claim, receipt, stopped, now) => RecoverRemovesNothing(s, claim, receipt, stopped, now, id);
    case _ =>
  }

  lemma BeginKeepsReservations(b: A.Book, grant: Grant, id: string, token: string, now: int, other: string)
    requires A.Begin(b, grant, id, token, now).Granted?
    ensures A.RowOf(b.reservations, other).Some? ==>
              A.RowOf(A.Begin(b, grant, id, token, now).book.reservations, other).Some?
  {
    var rows := A.Begin(b, grant, id, token, now).book.reservations;
    var k := A.RowOf(b.reservations, other);
    assert k.Some? ==> rows[k.value].job == other;
  }

  lemma RecoverKeepsReservations(s: System, claim: DispatchClaim, now: int)
    requires claim.job in s.queue && claim.job in s.book.jobs && RecoverRunner(s, claim, now).Agreed?
    ensures RecoverRunner(s, claim, now).system.book.reservations == s.book.reservations
  {
  }

  lemma StepSupersedes(p: Platform, s: System, step: Step, claim: DispatchClaim)
    requires Linked(s) && Legal(s, step) && (Matches(s.queue, claim) || Superseded(s, claim))
    ensures Matches(Perform(p, s, step).queue, claim) || Superseded(Perform(p, s, step), claim)
    ensures Superseded(s, claim) ==> Superseded(Perform(p, s, step), claim)
  {
    if step.DoClaimOne? { SelectedToScan(s, step.ids); }
    StepAges(p, s, step);
    if step.DoStore? {
      StoreRemoves(p, s, step.step, claim.job);
    } else {
      DispatcherRemovesNothing(p, s, step, claim.job);
      assert claim.job !in s.queue ==> Gone(s, claim.job);
    }
    Aged(s, Perform(p, s, step), claim);
  }

  lemma Aged(s: System, after: System, claim: DispatchClaim)
    requires Matches(s.queue, claim) || Superseded(s, claim)
    requires QueueAges(s.queue, after.queue)
    requires claim.job in after.queue ==> claim.job in s.queue
    requires claim.job !in after.queue ==> Gone(after, claim.job)
    ensures Matches(after.queue, claim) || Superseded(after, claim)
    ensures Superseded(s, claim) ==> Superseded(after, claim)
  {
    if claim.job in after.queue {
      assert RowAges(s.queue[claim.job], after.queue[claim.job]);
    }
  }

  lemma {:induction false} RunSupersedes(p: Platform, s: System, steps: seq<Step>, claim: DispatchClaim)
    requires Linked(s) && Lawful(p, s, steps) && (Matches(s.queue, claim) || Superseded(s, claim))
    ensures Matches(PerformAll(p, s, steps).queue, claim) || Superseded(PerformAll(p, s, steps), claim)
    ensures Superseded(s, claim) ==> Superseded(PerformAll(p, s, steps), claim)
    decreases |steps|
  {
    if steps != [] {
      StepSupersedes(p, s, steps[0], claim);
      StepKeepsLinked(p, s, steps[0]);
      RunSupersedes(p, Perform(p, s, steps[0]), steps[1..], claim);
    }
  }

  /** A dispatch claim that was current and stopped being current is never accepted again. */
  lemma ClaimNeverReturns(p: Platform, s: System, first: seq<Step>, rest: seq<Step>, claim: DispatchClaim)
    requires Linked(s) && Lawful(p, s, first) && Matches(s.queue, claim)
    requires !Matches(PerformAll(p, s, first).queue, claim) && Lawful(p, PerformAll(p, s, first), rest)
    ensures !Matches(PerformAll(p, PerformAll(p, s, first), rest).queue, claim)
  {
    RunSupersedes(p, s, first, claim);
    RunSupersedes(p, PerformAll(p, s, first), rest, claim);
  }

  /** Confirmed recovery, in every reachable state, is never stopped by the kernel fence. */
  lemma RecoveryNeverMismatches(p: Platform, steps: seq<Step>, claim: DispatchClaim, receipt: string, stopped: bool,
                                now: int)
    requires LawfulFromStart(p, steps)
    ensures RecoverStopped(FromStart(p, steps), claim, receipt, stopped, now) != Turned(FenceMismatch)
  {
    RecoveryFenceAgrees(FromStart(p, steps), claim, receipt, stopped, now);
  }

  /**
   Exactly when confirmed recovery goes through in a reachable state: under the current
   claim, with a receipt and the crash confirmed, if the job has no runner or can still be
   opened.  A crashed job past its retention is refused and its row stays claimed.
   */
  lemma RecoveryDecided(p: Platform, steps: seq<Step>, claim: DispatchClaim, receipt: string, stopped: bool, now: int)
    requires LawfulFromStart(p, steps)
    ensures var s := FromStart(p, steps);
            RecoverStopped(s, claim, receipt, stopped, now).Agreed? <==>
              && Identifier(receipt) && stopped && Matches(s.queue, claim)
              && claim.job in s.book.jobs
              && (s.book.jobs[claim.job].head.runner.None? || A.Retained(s.book, claim.job, now))
  {
    var s := FromStart(p, steps);
    if Matches(s.queue, claim) {
      assert RowAgrees(s.queue[claim.job], s.book.jobs[claim.job].head);
      RunnerRecovered(s, claim, now);
    }
  }

  lemma RunnerRecovered(s: System, claim: DispatchClaim, now: int)
    requires claim.job in s.queue && A.Owned(s.book, claim.owner, claim.job)
    requires RowAgrees(s.queue[claim.job], s.book.jobs[claim.job].head)
    ensures RecoverRunner(s, claim, now).Agreed? <==>
              s.book.jobs[claim.job].head.runner.None? || A.Retained(s.book, claim.job, now)
    ensures RecoverRunner(s, claim, now).Agreed? ==> claim.job in RecoverRunner(s, claim, now).system.book.jobs
  {
  }

  // ---- who is claimed ---------------------------------------------------------------------------

  lemma {:induction false} FirstTaken(s: System, ids: seq<string>, worker: string, grants: string -> Option<Grant>,
                                      token: string, now: int) returns (j: nat)
    requires Scannable(s, ids) && ToScan(s, ids)
    ensures j <= |ids| && forall i :: 0 <= i < j ==> !Judge(s, ids[i], grants, now).Take?
    ensures var (next, claim) := Scan(s, ids, worker, grants, token, now);
            && (claim.None? <==> j == |ids|)
            && (claim.Some? ==>
                  Judge(s, ids[j], grants, now).Take? && claim.value.job == ids[j] && Matches(next.queue, claim.value))
    decreases |ids|
  {
    j := 0;
    if ids != [] && !Judge(s, ids[0], grants, now).Take? {
      var state := if Judge(s, ids[0], grants, now).Finish? then Done else Held;
      var next := Put(s, ids[0], state);
      ToScanRest(s, ids, state);
      SameJudgements(s, ids, state, grants, now);
      var k := FirstTaken(next, ids[1..], worker, grants, token, now);
      j := k + 1;
      forall i | 0 <= i < j ensures !Judge(s, ids[i], grants, now).Take? {
        if i > 0 { assert ids[1..][i - 1] == ids[i]; }
      }
    }
  }

  /** Moving one row does not change what the scan thinks of the others. */
  lemma SameJudgements(s: System, ids: seq<string>, state: RowState, grants: string -> Option<Grant>, now: int)
    requires ids != [] && forall id :: id in ids ==> id in s.queue && id in s.book.jobs
    ensures forall i :: 0 <= i < |ids| ==>
              Judge(Put(s, ids[0], state), ids[i], grants, now) == Judge(s, ids[i], grants, now)
  {
  }

  /** A pending row whose job could be dispatched at this moment. */
  predicate MayRun(s: System, id: string, grants: string -> Option<Grant>, now: int) {
    IsWaiting(s.queue, id) && id in s.book.jobs && Judge(s, id, grants, now).Take?
  }

  /**
   `claim_one` takes the earliest pending job that may run now, its claim is current from
   then on, and it comes back empty only when none of the 32 rows it looked at may run.
   */
  lemma ClaimsEarliest(s: System, ids: seq<string>, worker: string, grants: string -> Option<Grant>, token: string,
                       now: int)
    requires Linked(s) && Selected(s.queue, ids) && Scannable(s, ids)
    ensures var (next, claim) := Scan(s, ids, worker, grants, token, now);
            && (claim.Some? ==>
                  && IsWaiting(s.queue, claim.value.job) && Matches(next.queue, claim.value)
                  && Judge(s, claim.value.job, grants, now).Take?
                  && forall id :: MayRun(s, id, grants, now) && id != claim.value.job ==>
                       Before(s.queue, claim.value.job, id))
            && (claim.None? ==> forall i :: 0 <= i < |ids| ==> !Judge(s, ids[i], grants, now).Take?)
  {
    SelectedToScan(s, ids);
    var j := FirstTaken(s, ids, worker, grants, token, now);
    if j < |ids| {
      forall id | MayRun(s, id, grants, now) && id != ids[j] ensures Before(s.queue, ids[j], id) {
        EarlierThan(s, ids, j, id, grants, now);
      }
    }
  }

  lemma EarlierThan(s: System, ids: seq<string>, j: nat, id: string, grants: string -> Option<Grant>, now: int)
    requires j < |ids| && Selected(s.queue, ids) && MayRun(s, id, grants, now) && id != ids[j]
    requires Scannable(s, ids) && forall i :: 0 <= i < j ==> !Judge(s, ids[i], grants, now).Take?
    ensures Before(s.queue, ids[j], id)
  {
    if id in ids {
      var i :| 0 <= i < |ids| && ids[i] == id;
      assert j < i;
      assert Before(s.queue, ids[j], ids[i]);
    }
  }

  // ---- giving a claim back ------------------------------------------------------------------------

  /** The claim is over, and the row waits again exactly when its job can be resumed. */
  ghost predicate GivenBack(after: System, claim: DispatchClaim) {
    && claim.job in after.queue && claim.job in after.book.jobs && !Matches(after.queue, claim)
    && after.book.jobs[claim.job].head.runner.None?
    && (after.queue[claim.job].state.Waiting? <==> Resumable(after.book.jobs[claim.job]))
    && (after.queue[claim.job].state.Held? <==> after.book.jobs[claim.job].head.state.WaitingTools?)
  }

  lemma AcknowledgeGivesBack(s: System, claim: DispatchClaim, allowed: bool)
    requires Acknowledge(s, claim, allowed).Agreed?
    ensures GivenBack(Acknowledge(s, claim, allowed).system, claim)
  {
  }

  lemma RecoverGivesBack(s: System, claim: DispatchClaim, receipt: string, stopped: bool, now: int)
    requires RecoverStopped(s, claim, receipt, stopped, now).Agreed?
    ensures GivenBack(RecoverStopped(s, claim, receipt, stopped, now).system, claim)
    ensures claim.generation < RecoverStopped(s, claim, receipt, stopped, now).system.queue[claim.job].generation
  {
    RecoverRunnerShape(s, claim, now);
  }
}
