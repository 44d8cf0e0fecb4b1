/**
 Account admission over the private journal (execution/postgres_admission.py and the
 create, finish and delete of execution/private_store.py).  A `Book` is the whole
 database; every public method is one transaction on it.
 */
module Admission {
  import opened Basics
  import opened Contracts
  import opened Journal

  datatype Policy = Policy(
    owner: string,
    period: string,
    starts: int,
    ends: int,
    tokenCap: int,
    costCap: int,
    maximumJobs: int,
    enabled: bool
  )

  predicate ValidPolicy(p: Policy) {
    && Identifier(p.owner) && Identifier(p.period)
    && PositiveInteger(p.starts, MAX_SAFE_INTEGER) && PositiveInteger(p.ends, MAX_SAFE_INTEGER)
    && PositiveInteger(p.tokenCap, MAX_SAFE_INTEGER) && PositiveInteger(p.costCap, MAX_SAFE_INTEGER)
    && PositiveInteger(p.maximumJobs, MAX_SAFE_INTEGER)
    && p.starts < p.ends
  }

  datatype Account = Account(policy: Policy, revision: nat)

  /** One row of the reservation table; `idem` is a history field the table does not hold. */
  datatype Reservation = Reservation(
    job: string,
    owner: string,
    idem: string,
    period: string,
    spec: Spec,
    tokens: int,
    cost: int,
    held: bool,
    receipt: Option<string>
  )

  type Key = (string, string)

  /** `index` is the UNIQUE(owner, idem) index of the jobs table. */
  datatype Book = Book(
    jobs: map<string, Job>,
    index: map<Key, string>,
    retain: map<string, int>,
    tombstones: set<Key>,
    accounts: map<string, Account>,
    reservations: seq<Reservation>
  )

  datatype Refusal = NotAdmitted | Unprotected | Underlying(error: Error)

  datatype Verdict<+T> = Granted(book: Book, value: T) | Denied(why: Refusal)

  function Settle<T>(b: Book, v: Verdict<T>): Book {
    if v.Granted? then v.book else b
  }

  ghost predicate Tables(b: Book) {
    forall id :: id in b.jobs ==> Shaped(b.jobs[id]) && b.jobs[id].rows != []
  }

  predicate Owned(b: Book, owner: string, id: string) {
    id in b.jobs && b.jobs[id].head.owner == owner
  }

  /** The snapshot can still be opened. */
  predicate Retained(b: Book, id: string, now: int) {
    id in b.retain && now < b.retain[id]
  }

  // ---- the reservation table ------------------------------------------------------------

  function RowOf(rows: seq<Reservation>, job: string): (r: Option<nat>)
    ensures r.Some? ==> r.value < |rows| && rows[r.value].job == job
    ensures r.None? <==> forall i :: 0 <= i < |rows| ==> rows[i].job != job
  {
    if rows == [] then None
    else
      var n := |rows| - 1;
      match RowOf(rows[..n], job)
      case Some(i) => Some(i)
      case None => if rows[n].job == job then Some(n) else None
  }

  const RESERVED_TOKENS: Reservation -> int := (r: Reservation) => r.tokens
  const RESERVED_COST: Reservation -> int := (r: Reservation) => r.cost

  /** Reserved in one period of one account. */
  function Total(weight: Reservation -> int, rows: seq<Reservation>, owner: string, period: string): int {
    if rows == [] then 0
    else
      var n := |rows| - 1;
      Total(weight, rows[..n], owner, period)
      + (if rows[n].owner == owner && rows[n].period == period then weight(rows[n]) else 0)
  }

  /** Slots held by one account, whatever the period. */
  function Slots(rows: seq<Reservation>, owner: string): nat {
    if rows == [] then 0
    else
      var n := |rows| - 1;
      Slots(rows[..n], owner) + (if rows[n].owner == owner && rows[n].held then 1 else 0)
  }

  predicate WithinCaps(rows: seq<Reservation>, owner: string, p: Policy) {
    && Total(RESERVED_TOKENS, rows, owner, p.period) <= p.tokenCap
    && Total(RESERVED_COST, rows, owner, p.period) <= p.costCap
  }

  // ---- configure_account ------------------------------------------------------------------

  predicate PeriodUnused(rows: seq<Reservation>, owner: string, period: string) {
    forall i :: 0 <= i < |rows| ==> !(rows[i].owner == owner && rows[i].period == period)
  }

  predicate PeriodMayChange(b: Book, existing: Policy, p: Policy, now: int) {
    if existing.period == p.period then existing.starts == p.starts && existing.ends == p.ends
    else existing.ends <= now && existing.ends <= p.starts && PeriodUnused(b.reservations, p.owner, p.period)
  }

  function Configure(b: Book, p: Policy, expected: nat, authorized: bool, now: int): Verdict<nat> {
    var revision := if p.owner in b.accounts then b.accounts[p.owner].revision else 0;
    if !authorized || !ValidPolicy(p) || revision != expected then Denied(NotAdmitted)
    else if p.owner in b.accounts && !PeriodMayChange(b, b.accounts[p.owner].policy, p, now) then Denied(NotAdmitted)
    else if p.ends <= now || !WithinCaps(b.reservations, p.owner, p) then Denied(NotAdmitted)
    else Granted(b.(accounts := b.accounts[p.owner := Account(p, expected + 1)]), expected + 1)
  }

  // ---- create -------------------------------------------------------------------------------

  predicate Open(p: Policy, now: int) {
    p.enabled && p.starts <= now < p.ends
  }

  /** `PrivateJobStore.create`: tombstone, idempotent answer, or a new queued job. */
  function CreatePrivate(b: Book, grant: Grant, idem: string, spec: Spec, expiry: int, newId: string, now: int)
    : Verdict<string>
  {
    var key := (grant.owner, idem);
    if spec.routeId !in grant.routes || !Identifier(idem) then Denied(Underlying(Blocked))
    else if key in b.tombstones then Denied(Unprotected)
    else if key in b.index then
      var id := b.index[key];
      if id !in b.jobs || !Retained(b, id, now) then Denied(Unprotected)
      else if b.jobs[id].head.spec != spec then Denied(Underlying(Blocked))
      else Granted(b, id)
    else if spec.limits.deadline <= now then Denied(Underlying(DeadlineElapsed))
    else if !(spec.limits.deadline <= expiry <= MAX_SAFE_INTEGER) || newId in b.jobs then Denied(Unprotected)
    else Granted(Inserted(b, grant.owner, idem, spec, expiry, newId, now), newId)
  }

  function Inserted(b: Book, owner: string, idem: string, spec: Spec, expiry: int, newId: string, now: int): Book {
    b.(jobs := b.jobs[newId := NewJob(owner, idem, spec, now)],
       index := b.index[(owner, idem) := newId],
       retain := b.retain[newId := expiry])
  }

  function Reserve(owner: string, p: Policy, idem: string, spec: Spec, job: string): Reservation {
    Reservation(job, owner, idem, p.period, spec, spec.limits.tokenLimit, spec.limits.costLimit, true, None)
  }

  /** A new reservation fits the account: both caps and a free slot. */
  predicate Fits(rows: seq<Reservation>, owner: string, p: Policy, limits: Limits) {
    && Total(RESERVED_TOKENS, rows, owner, p.period) + limits.tokenLimit <= p.tokenCap
    && Total(RESERVED_COST, rows, owner, p.period) + limits.costLimit <= p.costCap
    && Slots(rows, owner) < p.maximumJobs
  }

  function Create(b: Book, grant: Grant, idem: string, spec: Spec, expiry: int, newId: string, now: int)
    : Verdict<string>
  {
    if grant.owner !in b.accounts then Denied(NotAdmitted)
    else
      var p := b.accounts[grant.owner].policy;
      if !Open(p, now) || p.ends < spec.limits.deadline then Denied(NotAdmitted)
      else
        match CreatePrivate(b, grant, idem, spec, expiry, newId, now)
        case Denied(why) => Denied(why)
        case Granted(next, id) => Charge(next, p, grant.owner, idem, spec, id)
  }

  /** An existing reservation is confirmed; otherwise one is made if it fits. */
  function Charge(b: Book, p: Policy, owner: string, idem: string, spec: Spec, id: string): Verdict<string> {
    match RowOf(b.reservations, id)
    case Some(k) =>
      if b.reservations[k].owner == owner && b.reservations[k].spec == spec then Granted(b, id) else Denied(NotAdmitted)
    case None =>
      if Fits(b.reservations, owner, p, spec.limits)
      then Granted(b.(reservations := b.reservations + [Reserve(owner, p, idem, spec, id)]), id)
      else Denied(NotAdmitted)
  }

  // ---- gated transactions ---------------------------------------------------------------------

  /** `_check_job_admission`, once the job is known to be the owner's. */
  predicate Admitted(b: Book, owner: string, id: string, now: int)
    requires id in b.jobs
  {
    owner in b.accounts && AdmittedUnder(b, b.accounts[owner].policy, owner, id, now)
  }

  predicate AdmittedUnder(b: Book, p: Policy, owner: string, id: string, now: int)
    requires id in b.jobs
  {
    var k := RowOf(b.reservations, id);
    && k.Some?
    && b.reservations[k.value].owner == owner
    && b.reservations[k.value].spec == b.jobs[id].head.spec
    && b.reservations[k.value].period == p.period
    && b.reservations[k.value].held
    && Open(p, now)
    && WithinCaps(b.reservations, owner, p)
  }

  function OnJob<T>(b: Book, id: string, reply: Reply<T>): Verdict<T> {
    match reply
    case Accept(job, value) => Granted(b.(jobs := b.jobs[id := job]), value)
    case Refuse(error) => Denied(Underlying(error))
  }

  /** Nothing of this job can still be running anywhere. */
  predicate SafeToRelease(job: Job) {
    job.head.runner.None? && job.head.state.Terminal() && (job.head.state.Succeeded? || job.head.tokensReserved == 0)
  }

  /** `_release_if_safe`. */
  function Released(b: Book, owner: string, id: string): Book {
    var k := RowOf(b.reservations, id);
    if Owned(b, owner, id) && SafeToRelease(b.jobs[id]) && k.Some? && b.reservations[k.value].owner == owner
    then b.(reservations := b.reservations[k.value := b.reservations[k.value].(held := false)])
    else b
  }

  function Begin(b: Book, grant: Grant, id: string, token: string, now: int): Verdict<Option<Fence>> {
    if !Owned(b, grant.owner, id) then Denied(Underlying(NotFound))
    else if !Admitted(b, grant.owner, id, now) then Denied(NotAdmitted)
    else if !Retained(b, id, now) then Denied(Unprotected)
    else
      match OnJob(b, id, Journal.Begin(b.jobs[id], grant, token, now))
      case Denied(why) => Denied(why)
      case Granted(next, fence) => Granted(if fence.None? then Released(next, grant.owner, id) else next, fence)
  }

  function Claim(b: Book, grant: Grant, id: string, fence: Fence, stageId: string, attempt: string, now: int)
    : Verdict<Option<Ticket>>
    requires Tables(b)
  {
    if !Owned(b, grant.owner, id) then Denied(Underlying(NotFound))
    else if !Admitted(b, grant.owner, id, now) then Denied(NotAdmitted)
    else if !Retained(b, id, now) then Denied(Unprotected)
    else OnJob(b, id, Journal.Claim(b.jobs[id], grant, fence, stageId, attempt, now))
  }

  function Complete(p: Platform, b: Book, owner: string, id: string, fence: Fence, stageId: string, attempt: string,
                    raw: RawResult, now: int): Verdict<StageState>
    requires Tables(b)
  {
    if !Owned(b, owner, id) then Denied(Underlying(NotFound))
    else if !Admitted(b, owner, id, now) then Denied(NotAdmitted)
    else if !Retained(b, id, now) then Denied(Unprotected)
    else OnJob(b, id, Journal.Complete(p, b.jobs[id], fence, stageId, attempt, raw, now))
  }

  function FailStage(b: Book, owner: string, id: string, fence: Fence, stageId: string, attempt: string, now: int)
    : Verdict<()>
    requires Tables(b)
  {
    if !Owned(b, owner, id) then Denied(Underlying(NotFound))
    else OnJob(b, id, Journal.FailStage(b.jobs[id], fence, stageId, attempt, now))
  }

  function Publish(p: Platform, b: Book, grant: Grant, id: string, fence: Fence, stageId: string, attempt: string,
                   text: string, now: int): Verdict<nat>
    requires Tables(b)
  {
    if !Owned(b, grant.owner, id) then Denied(Underlying(NotFound))
    else if !Retained(b, id, now) then Denied(Unprotected)
    else OnJob(b, id, Journal.Publish(p, b.jobs[id], grant, fence, stageId, attempt, text, now))
  }

  /** What `finish` passes on: success is downgraded when the account no longer admits the job. */
  function Wanted(b: Book, owner: string, id: string, asked: JobState, now: int): JobState
    requires id in b.jobs
  {
    if asked.Succeeded? && !Admitted(b, owner, id, now) then Failed else asked
  }

  function FinishReply(b: Book, owner: string, id: string, fence: Fence, asked: JobState, now: int): Reply<JobState>
    requires id in b.jobs
  {
    var job := b.jobs[id];
    if Retained(b, id, now) || !(asked.Terminal() || asked.Paused?)
    then Journal.Finish(job, fence, Wanted(b, owner, id, asked, now), now)
    else FinishUnreadable(job, fence, if id in b.retain then b.retain[id] else now + 1, now)
  }

  function Finish(b: Book, owner: string, id: string, fence: Fence, asked: JobState, now: int): Verdict<JobState> {
    if !Owned(b, owner, id) then Denied(Underlying(NotFound))
    else
      match OnJob(b, id, FinishReply(b, owner, id, fence, asked, now))
      case Denied(why) => Denied(why)
      case Granted(next, state) => Granted(Released(next, owner, id), state)
  }

  function RequestCancel(b: Book, owner: string, id: string, now: int): Verdict<bool> {
    if !Owned(b, owner, id) then Denied(Underlying(NotFound))
    else
      match OnJob(b, id, Journal.RequestCancel(b.jobs[id], now))
      case Denied(why) => Denied(why)
      case Granted(next, marked) => Granted(Released(next, owner, id), marked)
  }

  function Recover(b: Book, owner: string, id: string, fence: Fence, now: int): Verdict<JobState> {
    if !Owned(b, owner, id) then Denied(Underlying(NotFound))
    else if !Retained(b, id, now) then Denied(Unprotected)
    else OnJob(b, id, Journal.Recover(b.jobs[id], fence, now))
  }

  // ---- confirm_quiescence and delete_job --------------------------------------------------------

  predicate Ended(job: Job) {
    job.head.state.Terminal() && job.head.runner.None?
  }

  function ConfirmQuiescence(b: Book, owner: string, id: string, receipt: string, approved: bool): Verdict<()> {
    var k := RowOf(b.reservations, id);
    if !Identifier(receipt) || !Owned(b, owner, id) then Denied(Underlying(NotFound))
    else if !Ended(b.jobs[id]) || !approved || k.None? then Denied(NotAdmitted)
    else
      var row := b.reservations[k.value];
      if row.owner != owner || (row.receipt.Some? && row.receipt.value != receipt) then Denied(NotAdmitted)
      else Granted(b.(reservations := b.reservations[k.value := row.(held := false, receipt := Some(receipt))]), ())
  }

  datatype Reason = OwnerRequest | RetentionElapsed

  /** Started work that did not succeed needs a receipt before its payload may go. */
  predicate DeletionCovered(job: Job, receipt: Option<string>) {
    job.head.tokensReserved > 0 && !job.head.state.Succeeded? ==> receipt.Some? && Identifier(receipt.value)
  }

  function DeletePrivate(b: Book, owner: string, id: string, reason: Reason, receipt: Option<string>, allowed: bool,
                         now: int)
    : Verdict<()>
  {
    if !Owned(b, owner, id) then Denied(Underlying(NotFound))
    else
      var job := b.jobs[id];
      if !Ended(job) || (reason.RetentionElapsed? && Retained(b, id, now)) then Denied(Unprotected)
      else if !DeletionCovered(job, receipt) || !allowed || (owner, job.head.idem) in b.tombstones
        then Denied(Unprotected)
      else Granted(Erased(b, owner, job.head.idem, id), ())
  }

  /** The cascading DELETE, leaving a tombstone. */
  function Erased(b: Book, owner: string, idem: string, id: string): Book {
    b.(jobs := b.jobs - {id}, index := b.index - {(owner, idem)}, retain := b.retain - {id},
       tombstones := b.tombstones + {(owner, idem)})
  }

  function DeleteJob(b: Book, owner: string, id: string, reason: Reason, receipt: Option<string>, allowed: bool,
                     now: int)
    : Verdict<()>
  {
    var k := RowOf(b.reservations, id);
    if k.None? || b.reservations[k.value].owner != owner || b.reservations[k.value].held then Denied(NotAdmitted)
    else DeletePrivate(b, owner, id, reason, receipt, allowed, now)
  }

  // ---- runs --------------------------------------------------------------------------------------

  datatype Step =
    | DoConfigure(policy: Policy, expected: nat, authorized: bool, now: int)
    | DoCreate(grant: Grant, idem: string, spec: Spec, expiry: int, newId: string, now: int)
    | DoTransact(owner: string, id: string, step: JobStep)
    | DoQuiesce(owner: string, id: string, receipt: string, approved: bool)
    | DoDelete(owner: string, id: string, reason: Reason, clearance: Option<string>, allowed: bool, now: int)

  /** A kernel transaction as the account store exposes it. */
  function Transact(p: Platform, b: Book, owner: string, id: string, step: JobStep): Book
    requires Tables(b)
  {
    match step
    case DoBegin(grant, token, now) => Settle(b, Begin(b, grant, id, token, now))
    case DoClaim(grant, fence, stage, attempt, now) => Settle(b, Claim(b, grant, id, fence, stage, attempt, now))
    case DoComplete(fence, stage, attempt, raw, now) =>
      Settle(b, Complete(p, b, owner, id, fence, stage, attempt, raw, now))
    case DoFailStage(fence, stage, attempt, now) => Settle(b, FailStage(b, owner, id, fence, stage, attempt, now))
    case DoPublish(grant, fence, stage, attempt, text, now) =>
      Settle(b, Publish(p, b, grant, id, fence, stage, attempt, text, now))
    case DoCancel(now) => Settle(b, RequestCancel(b, owner, id, now))
    case DoFinish(fence, asked, now) => Settle(b, Finish(b, owner, id, fence, asked, now))
    case DoFinishUnreadable(_, _, _) => b
    case DoRecover(fence, now) => Settle(b, Recover(b, owner, id, fence, now))
  }

  /** `create` takes accepted snapshots only, and its random identifiers are new. */
  ghost predicate Legal(b: Book, step: Step) {
    step.DoCreate? ==> WellFormed(step.spec) && RowOf(b.reservations, step.newId).None?
  }

  function Perform(p: Platform, b: Book, step: Step): Book
    requires Tables(b)
  {
    match step
    case DoConfigure(policy, expected, authorized, now) => Settle(b, Configure(b, policy, expected, authorized, now))
    case DoCreate(grant, idem, spec, expiry, newId, now) => Settle(b, Create(b, grant, idem, spec, expiry, newId, now))
    case DoTransact(owner, id, kernel) => Transact(p, b, owner, id, kernel)
    case DoQuiesce(owner, id, receipt, approved) => Settle(b, ConfirmQuiescence(b, owner, id, receipt, approved))
    case DoDelete(owner, id, reason, receipt, allowed, now) =>
      Settle(b, DeleteJob(b, owner, id, reason, receipt, allowed, now))
  }

  const EMPTY: Book := Book(map[], map[], map[], {}, map[], [])
}
