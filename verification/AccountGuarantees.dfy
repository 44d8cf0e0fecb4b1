/** What the account store promises over whole runs, from an empty schema onwards. */
module AccountGuarantees {
  import opened Basics
  import opened Contracts
  import opened Journal
  import opened JournalInvariants
  import opened Guarantees
  import opened Admission
  import opened AdmissionSafety

  // ---- two-level budget -------------------------------------------------------------------

  const SPENT_TOKENS: Job -> int := (job: Job) => job.head.tokensReserved
  const SPENT_COST: Job -> int := (job: Job) => job.head.costReserved

  function SpentBy(charge: Job -> int, jobs: Jobs, r: Reservation): int {
    if r.job in jobs then charge(jobs[r.job]) else 0
  }

  /** What started stages of one account and period have really reserved. */
  function Spent(charge: Job -> int, jobs: Jobs, rows: seq<Reservation>, owner: string, period: string): int {
    if rows == [] then 0
    else
      var n := |rows| - 1;
      Spent(charge, jobs, rows[..n], owner, period)
      + (if rows[n].owner == owner && rows[n].period == period then SpentBy(charge, jobs, rows[n]) else 0)
  }

  lemma JobWithinLimits(job: Job)
    requires Healthy(job)
    ensures 0 <= job.head.tokensReserved <= job.head.spec.limits.tokenLimit
    ensures 0 <= job.head.costReserved <= job.head.spec.limits.costLimit
  {
    ClaimedAtMost(TOKENS, job.head.spec.stages, job.rows);
    ClaimedAtMost(COST, job.head.spec.stages, job.rows);
  }

  lemma RowAffords(jobs: Jobs, tombstones: set<Key>, r: Reservation)
    requires JobsHealthy(jobs) && RowBacked(jobs, tombstones, r)
    ensures 0 <= SpentBy(SPENT_TOKENS, jobs, r) <= RESERVED_TOKENS(r)
    ensures 0 <= SpentBy(SPENT_COST, jobs, r) <= RESERVED_COST(r)
  {
    if r.job in jobs { JobWithinLimits(jobs[r.job]); }
  }

  lemma {:induction false} SpentAtMostReserved(jobs: Jobs, tombstones: set<Key>, rows: seq<Reservation>, owner: string,
                                               period: string)
    requires JobsHealthy(jobs) && RowsBacked(jobs, tombstones, rows)
    ensures 0 <= Spent(SPENT_TOKENS, jobs, rows, owner, period) <= Total(RESERVED_TOKENS, rows, owner, period)
    ensures 0 <= Spent(SPENT_COST, jobs, rows, owner, period) <= Total(RESERVED_COST, rows, owner, period)
  {
    if rows != [] {
      var n := |rows| - 1;
      assert RowBacked(jobs, tombstones, rows[n]);
      SpentAtMostReserved(jobs, tombstones, rows[..n], owner, period);
      RowAffords(jobs, tombstones, rows[n]);
    }
  }

  /**
   After any sequence of configurations, creations, kernel transactions, recoveries and
   deletions: what the jobs of an account's current period have spent is at most what was
   reserved for them, which is within both caps of the account.
   */
  lemma BudgetHolds(p: Platform, steps: seq<Step>, owner: string)
    requires LawfulFromEmpty(p, steps)
    ensures var b := FromEmpty(p, steps);
            owner in b.accounts ==>
              var policy := b.accounts[owner].policy;
              && 0 <= Spent(SPENT_TOKENS, b.jobs, b.reservations, owner, policy.period)
                 <= Total(RESERVED_TOKENS, b.reservations, owner, policy.period) <= policy.tokenCap
              && 0 <= Spent(SPENT_COST, b.jobs, b.reservations, owner, policy.period)
                 <= Total(RESERVED_COST, b.reservations, owner, policy.period) <= policy.costCap
  {
    var b := FromEmpty(p, steps);
    if owner in b.accounts {
      SpentAtMostReserved(b.jobs, b.tombstones, b.reservations, owner, b.accounts[owner].policy.period);
    }
  }

  // ---- reservations are never refunded --------------------------------------------------------

  /** Every old row is still there, its slot perhaps freed, never taken again. */
  ghost predicate RowsKept(before: seq<Reservation>, after: seq<Reservation>) {
    && |before| <= |after|
    && forall i :: 0 <= i < |before| ==>
         && SlotUpdate(before[i], after[i])
         && (!before[i].held ==> !after[i].held)
  }

  lemma ProgressKeepsRows(b: Book, id: string, job: Job, release: bool)
    ensures RowsKept(b.reservations, Progress(b, id, job, release).reservations)
  {
  }

  lemma TransactKeepsRows(p: Platform, b: Book, owner: string, id: string, step: JobStep)
    requires Tables(b)
    ensures RowsKept(b.reservations, Transact(p, b, owner, id, step).reservations)
  {
    var release := TransactShape(p, b, owner, id, step);
    if id in b.jobs {
      ProgressKeepsRows(b, id, Apply(p, b.jobs[id], Kernel(b, owner, id, step)), release);
    }
  }

  lemma CreateKeepsRows(b: Book, grant: Grant, idem: string, spec: Spec, expiry: int, newId: string, now: int)
    requires Consistent(b) && RowOf(b.reservations, newId).None?
    ensures RowsKept(b.reservations, Settle(b, Create(b, grant, idem, spec, expiry, newId, now)).reservations)
  {
    CreateShape(b, grant, idem, spec, expiry, newId, now);
  }

  lemma StepKeepsRows(p: Platform, b: Book, step: Step)
    requires Consistent(b) && Tables(b) && Legal(b, step)
    ensures RowsKept(b.reservations, Perform(p, b, step).reservations)
  {
    if step.DoTransact? {
      TransactKeepsRows(p, b, step.owner, step.id, step.step);
    } else if step.DoCreate? {
      CreateKeepsRows(b, step.grant, step.idem, step.spec, step.expiry, step.newId, step.now);
    } else {
      AdministrationKeepsRows(p, b, step);
    }
  }

  /** configure_account, confirm_quiescence and delete_job. */
  lemma AdministrationKeepsRows(p: Platform, b: Book, step: Step)
    requires Tables(b) && !step.DoTransact? && !step.DoCreate?
    ensures RowsKept(b.reservations, Perform(p, b, step).reservations)
    ensures forall id :: id in Perform(p, b, step).jobs ==> id in b.jobs && Perform(p, b, step).jobs[id] == b.jobs[id]
  {
  }

  lemma {:induction false} RunKeepsRows(p: Platform, b: Book, steps: seq<Step>)
    requires Consistent(b) && Tables(b) && Lawful(p, b, steps)
    ensures RowsKept(b.reservations, PerformAll(p, b, steps).reservations)
    decreases |steps|
  {
    if steps != [] {
      StepKeepsRows(p, b, steps[0]);
      StepKeepsConsistent(p, b, steps[0]);
      RunKeepsRows(p, Perform(p, b, steps[0]), steps[1..]);
    }
  }

  /**
   One charge per (owner, idempotency key), for ever: however the run goes on, deletion of
   the job included, the reservation stays and no second one is made for the same key.
   */
  lemma ChargedOnce(p: Platform, b: Book, steps: seq<Step>, k: nat, j: nat)
    requires Consistent(b) && Tables(b) && Lawful(p, b, steps)
    requires k < |b.reservations| && j < |PerformAll(p, b, steps).reservations|
    ensures var rows := PerformAll(p, b, steps).reservations;
            var r := b.reservations[k];
            && k < |rows| && rows[k] == r.(held := rows[k].held, receipt := rows[k].receipt)
            && ((rows[j].owner, rows[j].idem) == (r.owner, r.idem) <==> j == k)
  {
    RunKeepsRows(p, b, steps);
    var rows := PerformAll(p, b, steps).reservations;
    assert DistinctRows(rows);
    assert SlotUpdate(b.reservations[k], rows[k]);
  }

  // ---- jobs of the account store are runs of the journal ----------------------------------------

  /** What one transaction does to job `id`: nothing, or one journal step. */
  function Acts(p: Platform, b: Book, step: Step, id: string): seq<JobStep>
    requires Tables(b) && id in b.jobs
  {
    if step.DoTransact? && step.id == id && Transact(p, b, step.owner, id, step.step) != b
    then [Kernel(b, step.owner, id, step.step)] else []
  }

  lemma TransactOnJob(p: Platform, b: Book, owner: string, other: string, step: JobStep, id: string)
    requires Tables(b) && id in b.jobs
    ensures var after := Transact(p, b, owner, other, step);
            && id in after.jobs
            && (after == b || id != other ==> after.jobs[id] == b.jobs[id])
            && (after != b && id == other ==> after.jobs[id] == Run(p, b.jobs[id], [Kernel(b, owner, id, step)]))
  {
    var release := TransactShape(p, b, owner, other, step);
    RunOne(p, b.jobs[id], Kernel(b, owner, id, step));
  }

  lemma StepOnJob(p: Platform, b: Book, step: Step, id: string)
    requires Consistent(b) && Tables(b) && Legal(b, step) && id in b.jobs
    ensures var after := Perform(p, b, step);
            id in after.jobs ==> after.jobs[id] == Run(p, b.jobs[id], Acts(p, b, step, id))
  {
    if step.DoTransact? {
      TransactOnJob(p, b, step.owner, step.id, step.step, id);
    } else if step.DoCreate? {
      CreateKeepsJob(b, step.grant, step.idem, step.spec, step.expiry, step.newId, step.now, id);
    } else {
      AdministrationKeepsRows(p, b, step);
    }
  }

  lemma CreateKeepsJob(b: Book, grant: Grant, idem: string, spec: Spec, expiry: int, newId: string, now: int,
                       id: string)
    requires Consistent(b) && RowOf(b.reservations, newId).None? && id in b.jobs
    ensures var after := Settle(b, Create(b, grant, idem, spec, expiry, newId, now));
            id in after.jobs && after.jobs[id] == b.jobs[id]
  {
    CreateShape(b, grant, idem, spec, expiry, newId, now);
  }

  /** Deleted identifiers do not come back. */
  lemma StepKeepsGone(p: Platform, b: Book, step: Step, id: string)
    requires Consistent(b) && Tables(b) && Legal(b, step) && id !in b.jobs && RowOf(b.reservations, id).Some?
    ensures var after := Perform(p, b, step); id !in after.jobs && RowOf(after.reservations, id).Some?
  {
    StepKeepsRows(p, b, step);
    StillReserved(b.reservations, Perform(p, b, step).reservations, id);
    if step.DoTransact? {
      var release := TransactShape(p, b, step.owner, step.id, step.step);
    } else if step.DoCreate? {
      CreateShape(b, step.grant, step.idem, step.spec, step.expiry, step.newId, step.now);
    } else {
      AdministrationKeepsRows(p, b, step);
    }
  }

  lemma StillReserved(rows: seq<Reservation>, after: seq<Reservation>, id: string)
    requires RowsKept(rows, after) && RowOf(rows, id).Some?
    ensures RowOf(after, id).Some?
  {
    var k := RowOf(rows, id).value;
    assert SlotUpdate(rows[k], after[k]);
    assert after[k].job == id;
  }

  lemma {:induction false} RunKeepsGone(p: Platform, b: Book, steps: seq<Step>, id: string)
    requires Consistent(b) && Tables(b) && Lawful(p, b, steps) && id !in b.jobs && RowOf(b.reservations, id).Some?
    ensures id !in PerformAll(p, b, steps).jobs
    decreases |steps|
  {
    if steps != [] {
      StepKeepsGone(p, b, steps[0], id);
      StepKeepsConsistent(p, b, steps[0]);
      RunKeepsGone(p, Perform(p, b, steps[0]), steps[1..], id);
    }
  }

  ghost function Trace(p: Platform, b: Book, steps: seq<Step>, id: string): seq<JobStep>
    requires Consistent(b) && Tables(b) && Lawful(p, b, steps)
    decreases |steps|
  {
    if steps == [] || id !in b.jobs then []
    else
      StepKeepsConsistent(p, b, steps[0]);
      Acts(p, b, steps[0], id) + Trace(p, Perform(p, b, steps[0]), steps[1..], id)
  }

  /**
   Refinement: over any run of the account store, a job that is still there has gone
   through a run of the kernel journal, so every kernel theorem holds of it.
   */
  lemma {:induction false} JobsAreJournalRuns(p: Platform, b: Book, steps: seq<Step>, id: string)
    requires Consistent(b) && Tables(b) && Lawful(p, b, steps) && id in b.jobs
    ensures var after := PerformAll(p, b, steps);
            id in after.jobs ==> after.jobs[id] == Run(p, b.jobs[id], Trace(p, b, steps, id))
    decreases |steps|
  {
    if steps != [] {
      var next := Perform(p, b, steps[0]);
      StepKeepsConsistent(p, b, steps[0]);
      StepOnJob(p, b, steps[0], id);
      if id in next.jobs {
        JobsAreJournalRuns(p, next, steps[1..], id);
        RunAppend(p, b.jobs[id], Acts(p, b, steps[0], id), Trace(p, next, steps[1..], id));
      } else {
        StepKeepsRows(p, b, steps[0]);
        StillReserved(b.reservations, next.reservations, id);
        RunKeepsGone(p, next, steps[1..], id);
      }
    }
  }

  /**
   Cancellation dominates in the whole system: after `request_cancel` answered true, no
   admission check, downgrade, recovery, completion or expiry lets anything of the job
   start or be stored, and it can only end cancelled or interrupted.
   */
  lemma CancellationDominatesEverywhere(p: Platform, b: Book, owner: string, id: string, now: int, steps: seq<Step>)
    requires Consistent(b) && Tables(b) && Owned(b, owner, id)
    requires !b.jobs[id].head.state.Terminal() && !b.jobs[id].head.cancelRequested
    requires Lawful(p, b, [DoTransact(owner, id, DoCancel(now))] + steps)
    ensures var after := PerformAll(p, b, [DoTransact(owner, id, DoCancel(now))] + steps);
            id in after.jobs ==> Frozen(b.jobs[id], after.jobs[id])
  {
    var cancel := DoTransact(owner, id, DoCancel(now));
    assert ([cancel] + steps)[1..] == steps;
    StepKeepsConsistent(p, b, cancel);
    CancelMarks(p, b, owner, id, now);
    var cancelled := Perform(p, b, cancel);
    if id in PerformAll(p, cancelled, steps).jobs {
      JobsAreJournalRuns(p, cancelled, steps, id);
      assert Healthy(b.jobs[id]);
      CancellationDominates(p, b.jobs[id], now, Trace(p, cancelled, steps, id));
    }
  }

  lemma CancelMarks(p: Platform, b: Book, owner: string, id: string, now: int)
    requires Tables(b) && Owned(b, owner, id)
    ensures var after := Transact(p, b, owner, id, DoCancel(now));
            id in after.jobs && after.jobs[id] == After(b.jobs[id], Journal.RequestCancel(b.jobs[id], now))
  {
  }

  // ---- slots ------------------------------------------------------------------------------------------

  /** The jobs of an account that have not ended. */
  ghost function Alive(jobs: Jobs, owner: string): set<string> {
    set id | id in jobs && jobs[id].head.owner == owner && !jobs[id].head.state.Terminal()
  }

  lemma {:induction false} HoldersCounted(rows: seq<Reservation>, owner: string, ids: set<string>)
    requires forall id :: id in ids ==>
               exists i :: 0 <= i < |rows| && rows[i].job == id && rows[i].owner == owner && rows[i].held
    ensures |ids| <= Slots(rows, owner)
  {
    if rows == [] {
      assert ids == {};
    } else {
      var n := |rows| - 1;
      var fewer := if rows[n].owner == owner && rows[n].held then ids - {rows[n].job} else ids;
      forall id | id in fewer
        ensures exists i :: 0 <= i < n && rows[..n][i].job == id && rows[..n][i].owner == owner && rows[..n][i].held
      {
        var i :| 0 <= i < |rows| && rows[i].job == id && rows[i].owner == owner && rows[i].held;
        assert i < n && rows[..n][i] == rows[i];
      }
      HoldersCounted(rows[..n], owner, fewer);
    }
  }

  /** The reservation of a job that has not ended still holds its slot. */
  lemma AliveHolds(b: Book, owner: string, id: string)
    requires Consistent(b) && id in Alive(b.jobs, owner)
    ensures var k := RowOf(b.reservations, id);
            k.Some? && b.reservations[k.value].owner == owner && b.reservations[k.value].held
  {
    var k := RowOf(b.reservations, id).value;
    assert RowBacked(b.jobs, b.tombstones, b.reservations[k]);
    assert !b.reservations[k].held ==> FreeForGood(b.jobs, b.reservations[k]);
  }

  /** In every reachable state the jobs that may still run are at most the slots held. */
  lemma AliveAtMostSlots(b: Book, owner: string)
    requires Consistent(b)
    ensures |Alive(b.jobs, owner)| <= Slots(b.reservations, owner)
  {
    forall id | id in Alive(b.jobs, owner)
      ensures exists i :: 0 <= i < |b.reservations|
                && b.reservations[i].job == id && b.reservations[i].owner == owner && b.reservations[i].held
    {
      AliveHolds(b, owner, id);
      var i := RowOf(b.reservations, id).value;
      assert b.reservations[i].job == id;
    }
    HoldersCounted(b.reservations, owner, Alive(b.jobs, owner));
  }

  /** A job admitted by `create` takes one free slot and leaves the account within its maximum. */
  lemma CreateWithinMaximum(b: Book, grant: Grant, idem: string, spec: Spec, expiry: int, newId: string, now: int)
    requires Consistent(b) && WellFormed(spec) && RowOf(b.reservations, newId).None?
    ensures var v := Create(b, grant, idem, spec, expiry, newId, now);
            v.Granted? && v.book != b ==>
              var slots := Slots(v.book.reservations, grant.owner);
              && grant.owner in b.accounts
              && slots == Slots(b.reservations, grant.owner) + 1 <= b.accounts[grant.owner].policy.maximumJobs
              && |Alive(v.book.jobs, grant.owner)| <= slots
  {
    CreateShape(b, grant, idem, spec, expiry, newId, now);
    var v := Create(b, grant, idem, spec, expiry, newId, now);
    if v.Granted? && v.book != b {
      var owner := grant.owner;
      SlotsSnoc(b.reservations, Reserve(owner, b.accounts[owner].policy, idem, spec, newId), owner);
      CreateKeeps(b, grant, idem, spec, expiry, newId, now);
      AliveAtMostSlots(v.book, owner);
    }
  }

  lemma {:induction false} EndedUnchanged(p: Platform, job: Job, steps: seq<JobStep>)
    requires Sound(job) && job.head.state.Terminal()
    ensures Run(p, job, steps) == job
    decreases |steps|
  {
    RunSound(p, job, steps);
  }

  /**
   A freed slot is free for good: whatever happens later, the job behind it stays exactly
   as it was (ended, unowned) until it is deleted, and the slot is never taken again.
   */
  lemma FreedNeverRuns(p: Platform, b: Book, steps: seq<Step>, k: nat)
    requires Consistent(b) && Tables(b) && Lawful(p, b, steps) && k < |b.reservations| && !b.reservations[k].held
    ensures var after := PerformAll(p, b, steps);
            var id := b.reservations[k].job;
            && k < |after.reservations| && after.reservations[k].job == id && !after.reservations[k].held
            && (id in after.jobs ==> id in b.jobs && after.jobs[id] == b.jobs[id] && Ended(b.jobs[id]))
  {
    RunKeepsRows(p, b, steps);
    var id := b.reservations[k].job;
    assert SlotUpdate(b.reservations[k], PerformAll(p, b, steps).reservations[k]);
    assert FreeForGood(b.jobs, b.reservations[k]);
    if id in b.jobs {
      JobsAreJournalRuns(p, b, steps, id);
      assert Healthy(b.jobs[id]);
      EndedUnchanged(p, b.jobs[id], Trace(p, b, steps, id));
    } else {
      RunKeepsGone(p, b, steps, id);
    }
  }

  // ---- idempotency and deletion --------------------------------------------------------------------

  /** Asking again with the same key: the same job, no second charge; another request is refused. */
  lemma CreateIdempotent(b: Book, grant: Grant, idem: string, spec: Spec, expiry: int, id: string, now: int,
                         again: Spec, expiry': int, id': string, later: int)
    requires Consistent(b) && WellFormed(spec) && RowOf(b.reservations, id).None?
    requires Create(b, grant, idem, spec, expiry, id, now).Granted?
    ensures var first := Create(b, grant, idem, spec, expiry, id, now);
            var second := Create(first.book, grant, idem, again, expiry', id', later);
            && (second.Granted? ==> again == spec && second.book == first.book && second.value == first.value)
            && (again == spec && Open(b.accounts[grant.owner].policy, later) && Retained(first.book, first.value, later)
                ==> second.Granted?)
  {
    var first := Create(b, grant, idem, spec, expiry, id, now);
    FirstCreate(b, grant, idem, spec, expiry, id, now, first.book, first.value);
    SecondCreate(first.book, grant, idem, spec, first.value, again, expiry', id', later);
  }

  /** What the second request finds: the job under its key, reserved, and the same accounts. */
  lemma FirstCreate(b: Book, grant: Grant, idem: string, spec: Spec, expiry: int, newId: string, now: int, next: Book,
                    id: string)
    requires Consistent(b) && WellFormed(spec) && RowOf(b.reservations, newId).None?
    requires Create(b, grant, idem, spec, expiry, newId, now) == Granted(next, id)
    ensures id in next.jobs && next.jobs[id].head.spec == spec
    ensures var key := (grant.owner, idem);
            key in next.index && next.index[key] == id && key !in next.tombstones
    ensures var k := RowOf(next.reservations, id);
            k.Some? && next.reservations[k.value].owner == grant.owner && next.reservations[k.value].spec == spec
    ensures next.accounts == b.accounts && CreateOpen(b, grant, idem, spec)
  {
    GrantedOpen(b, grant, idem, spec, expiry, newId, now, next, id);
    FirstJob(b, grant, idem, spec, expiry, newId, now, next, id);
    CreateKeeps(b, grant, idem, spec, expiry, newId, now);
    KeyedJob(next, id);
  }

  lemma GrantedOpen(b: Book, grant: Grant, idem: string, spec: Spec, expiry: int, newId: string, now: int, next: Book,
                    id: string)
    requires Create(b, grant, idem, spec, expiry, newId, now) == Granted(next, id)
    ensures next.accounts == b.accounts && CreateOpen(b, grant, idem, spec)
  {
  }

  lemma FirstJob(b: Book, grant: Grant, idem: string, spec: Spec, expiry: int, newId: string, now: int, next: Book,
                 id: string)
    requires Consistent(b) && RowOf(b.reservations, newId).None?
    requires Create(b, grant, idem, spec, expiry, newId, now) == Granted(next, id)
    ensures id in next.jobs && KeyOf(next.jobs[id]) == (grant.owner, idem) && next.jobs[id].head.spec == spec
  {
    CreateShape(b, grant, idem, spec, expiry, newId, now);
  }

  /** What every granted request has passed. */
  predicate CreateOpen(b: Book, grant: Grant, idem: string, spec: Spec) {
    && grant.owner in b.accounts && spec.routeId in grant.routes && Identifier(idem)
    && spec.limits.deadline <= b.accounts[grant.owner].policy.ends
  }

  lemma SecondCreate(b: Book, grant: Grant, idem: string, spec: Spec, id: string, again: Spec, expiry: int,
                     newId: string, now: int)
    requires id in b.jobs && b.jobs[id].head.spec == spec
    requires (grant.owner, idem) in b.index && b.index[(grant.owner, idem)] == id
             && (grant.owner, idem) !in b.tombstones
    requires var k := RowOf(b.reservations, id);
             k.Some? && b.reservations[k.value].owner == grant.owner && b.reservations[k.value].spec == spec
    requires CreateOpen(b, grant, idem, spec)
    ensures var second := Create(b, grant, idem, again, expiry, newId, now);
            && (second.Granted? ==> again == spec && second.book == b && second.value == id)
            && (again == spec && Open(b.accounts[grant.owner].policy, now) && Retained(b, id, now) ==> second.Granted?)
  {
  }

  /** What the invariant says about a job found by its key. */
  lemma KeyedJob(b: Book, id: string)
    requires Consistent(b) && id in b.jobs
    ensures var key, k := KeyOf(b.jobs[id]), RowOf(b.reservations, id);
            && key in b.index && b.index[key] == id && key !in b.tombstones
            && k.Some? && b.reservations[k.value].owner == key.0 && b.reservations[k.value].spec == b.jobs[id].head.spec
  {
    var k := RowOf(b.reservations, id).value;
    assert RowBacked(b.jobs, b.tombstones, b.reservations[k]);
  }

  lemma StepKeepsTombstones(p: Platform, b: Book, step: Step)
    requires Consistent(b) && Tables(b) && Legal(b, step)
    ensures b.tombstones <= Perform(p, b, step).tombstones
  {
    if step.DoTransact? {
      var release := TransactShape(p, b, step.owner, step.id, step.step);
    } else if step.DoCreate? {
      CreateShape(b, step.grant, step.idem, step.spec, step.expiry, step.newId, step.now);
    }
  }

  lemma {:induction false} RunKeepsTombstones(p: Platform, b: Book, steps: seq<Step>)
    requires Consistent(b) && Tables(b) && Lawful(p, b, steps)
    ensures b.tombstones <= PerformAll(p, b, steps).tombstones
    decreases |steps|
  {
    if steps != [] {
      StepKeepsTombstones(p, b, steps[0]);
      StepKeepsConsistent(p, b, steps[0]);
      RunKeepsTombstones(p, Perform(p, b, steps[0]), steps[1..]);
    }
  }

  /** A deleted request is never admitted again: its tombstone refuses the key for ever. */
  lemma DeletionIsFinal(p: Platform, b: Book, owner: string, id: string, reason: Reason, receipt: Option<string>,
                        allowed: bool, now: int, steps: seq<Step>, grant: Grant, spec: Spec, expiry: int,
                        newId: string, later: int)
    requires Consistent(b) && Tables(b) && DeleteJob(b, owner, id, reason, receipt, allowed, now).Granted?
    requires grant.owner == owner
    requires Lawful(p, b, [DoDelete(owner, id, reason, receipt, allowed, now)] + steps)
    ensures var after := PerformAll(p, b, [DoDelete(owner, id, reason, receipt, allowed, now)] + steps);
            && id in b.jobs && id !in after.jobs
            && Create(after, grant, b.jobs[id].head.idem, spec, expiry, newId, later).Denied?
  {
    var delete := DoDelete(owner, id, reason, receipt, allowed, now);
    assert ([delete] + steps)[1..] == steps;
    StepKeepsConsistent(p, b, delete);
    Erases(p, b, delete);
    RunKeepsTombstones(p, Perform(p, b, delete), steps);
    RunKeepsGone(p, Perform(p, b, delete), steps, id);
    var after := PerformAll(p, Perform(p, b, delete), steps);
    assert after == PerformAll(p, b, [delete] + steps);
    TombstoneRefuses(after, grant, b.jobs[id].head.idem, spec, expiry, newId, later);
  }

  lemma TombstoneRefuses(b: Book, grant: Grant, idem: string, spec: Spec, expiry: int, newId: string, now: int)
    requires (grant.owner, idem) in b.tombstones
    ensures Create(b, grant, idem, spec, expiry, newId, now).Denied?
  {
  }

  lemma Erases(p: Platform, b: Book, step: Step)
    requires Tables(b) && step.DoDelete?
    requires DeleteJob(b, step.owner, step.id, step.reason, step.clearance, step.allowed, step.now).Granted?
    ensures var after := Perform(p, b, step);
            && step.id in b.jobs && step.id !in after.jobs && after.reservations == b.reservations
            && (step.owner, b.jobs[step.id].head.idem) in after.tombstones
            && RowOf(b.reservations, step.id).Some?
  {
  }

  // ---- policy revisions -----------------------------------------------------------------------------

  function Revision(b: Book, owner: string): nat {
    if owner in b.accounts then b.accounts[owner].revision else 0
  }

  lemma StepKeepsRevision(p: Platform, b: Book, step: Step, owner: string)
    requires Consistent(b) && Tables(b) && Legal(b, step)
    ensures Revision(b, owner) <= Revision(Perform(p, b, step), owner)
  {
    if step.DoTransact? {
      var release := TransactShape(p, b, step.owner, step.id, step.step);
    } else if step.DoCreate? {
      CreateShape(b, step.grant, step.idem, step.spec, step.expiry, step.newId, step.now);
    }
  }

  lemma {:induction false} RunKeepsRevision(p: Platform, b: Book, steps: seq<Step>, owner: string)
    requires Consistent(b) && Tables(b) && Lawful(p, b, steps)
    ensures Revision(b, owner) <= Revision(PerformAll(p, b, steps), owner)
    decreases |steps|
  {
    if steps != [] {
      StepKeepsRevision(p, b, steps[0], owner);
      StepKeepsConsistent(p, b, steps[0]);
      RunKeepsRevision(p, Perform(p, b, steps[0]), steps[1..], owner);
    }
  }

  /** Of two administrators who read the same revision only one can change the policy. */
  lemma OneConfigurationPerRevision(p: Platform, b: Book, policy: Policy, expected: nat, now: int, steps: seq<Step>,
                                    other: Policy, later: int)
    requires Consistent(b) && Tables(b) && Configure(b, policy, expected, true, now).Granted?
    requires other.owner == policy.owner
    requires Lawful(p, b, [DoConfigure(policy, expected, true, now)] + steps)
    ensures var after := PerformAll(p, b, [DoConfigure(policy, expected, true, now)] + steps);
            Configure(after, other, expected, true, later).Denied?
  {
    var configure := DoConfigure(policy, expected, true, now);
    assert ([configure] + steps)[1..] == steps;
    StepKeepsConsistent(p, b, configure);
    RunKeepsRevision(p, Perform(p, b, configure), steps, policy.owner);
  }

  /** A new period starts empty, after the old one has ended, so no two periods overlap. */
  lemma PeriodsDisjoint(b: Book, policy: Policy, expected: nat, now: int)
    requires Consistent(b) && policy.owner in b.accounts && Configure(b, policy, expected, true, now).Granted?
    ensures var before := b.accounts[policy.owner].policy;
            if policy.period == before.period then policy.starts == before.starts && policy.ends == before.ends
            else before.ends <= policy.starts && before.ends <= now
                 && Total(RESERVED_TOKENS, b.reservations, policy.owner, policy.period) == 0
                 && Total(RESERVED_COST, b.reservations, policy.owner, policy.period) == 0
  {
    if policy.period != b.accounts[policy.owner].policy.period {
      UnusedTotals(RESERVED_TOKENS, b.reservations, policy.owner, policy.period);
      UnusedTotals(RESERVED_COST, b.reservations, policy.owner, policy.period);
    }
  }

  lemma {:induction false} UnusedTotals(weight: Reservation -> int, rows: seq<Reservation>, owner: string,
                                        period: string)
    requires PeriodUnused(rows, owner, period)
    ensures Total(weight, rows, owner, period) == 0
  {
    if rows != [] { UnusedTotals(weight, rows[..|rows| - 1], owner, period); }
  }

  /** `later` is the same period as `earlier`, or starts when that has ended. */
  predicate Successive(earlier: Policy, later: Policy) {
    || (later.period == earlier.period && later.starts == earlier.starts && later.ends == earlier.ends)
    || earlier.ends <= later.starts
  }

  ghost predicate PoliciesValid(b: Book) {
    forall owner :: owner in b.accounts ==> ValidPolicy(b.accounts[owner].policy)
  }

  /** Accounts stay, and their policies move on only in time. */
  ghost predicate PoliciesMove(before: Book, after: Book) {
    forall owner :: owner in before.accounts ==>
      && owner in after.accounts
      && Successive(before.accounts[owner].policy, after.accounts[owner].policy)
  }

  lemma ConfigureMoves(b: Book, policy: Policy, expected: nat, authorized: bool, now: int)
    requires PoliciesValid(b)
    ensures var after := Settle(b, Configure(b, policy, expected, authorized, now));
            PoliciesValid(after) && PoliciesMove(b, after)
  {
  }

  lemma StepMovesPolicies(p: Platform, b: Book, step: Step)
    requires Tables(b) && PoliciesValid(b)
    ensures PoliciesValid(Perform(p, b, step)) && PoliciesMove(b, Perform(p, b, step))
  {
    if step.DoConfigure? {
      ConfigureMoves(b, step.policy, step.expected, step.authorized, step.now);
    } else {
      PoliciesStay(p, b, step);
    }
  }

  /** Only `configure_account` changes an account. */
  lemma PoliciesStay(p: Platform, b: Book, step: Step)
    requires Tables(b) && !step.DoConfigure?
    ensures Perform(p, b, step).accounts == b.accounts
  {
    match step
    case DoTransact(owner, id, kernel) =>
      var release := TransactShape(p, b, owner, id, kernel);
    case _ =>
  }

  lemma {:induction false} RunMovesPolicies(p: Platform, b: Book, steps: seq<Step>)
    requires Consistent(b) && Tables(b) && Lawful(p, b, steps) && PoliciesValid(b)
    ensures PoliciesValid(PerformAll(p, b, steps)) && PoliciesMove(b, PerformAll(p, b, steps))
    decreases |steps|
  {
    if steps != [] {
      var next := Perform(p, b, steps[0]);
      StepMovesPolicies(p, b, steps[0]);
      StepKeepsConsistent(p, b, steps[0]);
      RunMovesPolicies(p, next, steps[1..]);
      forall owner | owner in b.accounts
        ensures Successive(b.accounts[owner].policy, PerformAll(p, next, steps[1..]).accounts[owner].policy)
      {
        SuccessiveTransitive(b.accounts[owner].policy, next.accounts[owner].policy,
                             PerformAll(p, next, steps[1..]).accounts[owner].policy);
      }
    }
  }

  lemma SuccessiveTransitive(a: Policy, b: Policy, c: Policy)
    requires Successive(a, b) && Successive(b, c) && ValidPolicy(b)
    ensures Successive(a, c)
  {
  }

  /**
   The policies an account has at any two moments of a run, however often it was changed
   in between, are of the same period or of periods that do not overlap: no moment is
   charged to two periods.
   */
  lemma PeriodsNeverOverlap(p: Platform, first: seq<Step>, rest: seq<Step>, owner: string, moment: int)
    requires LawfulFromEmpty(p, first) && Lawful(p, FromEmpty(p, first), rest)
    requires owner in FromEmpty(p, first).accounts
    ensures var after := PerformAll(p, FromEmpty(p, first), rest);
            && owner in after.accounts
            && var earlier, later := FromEmpty(p, first).accounts[owner].policy, after.accounts[owner].policy;
               Successive(earlier, later)
               && (earlier.starts <= moment < earlier.ends && later.starts <= moment < later.ends ==>
                     earlier.period == later.period && earlier.starts == later.starts && earlier.ends == later.ends)
  {
    EmptyConsistent();
    RunMovesPolicies(p, EMPTY, first);
    RunMovesPolicies(p, FromEmpty(p, first), rest);
  }
}
