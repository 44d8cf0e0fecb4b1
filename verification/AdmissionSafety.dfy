/**
 What every transaction of the account store keeps, over all jobs of all accounts:
 budgets on two levels, slots, and one charge per idempotency key.
 */
module AdmissionSafety {
  import opened Basics
  import opened Contracts
  import opened Journal
  import opened JournalInvariants
  import opened Guarantees
  import opened Admission

  // ---- the invariant -------------------------------------------------------------------

  /** A job as any run of kernel transactions leaves it. */
  ghost predicate Healthy(job: Job) {
    Sound(job) && Charged(job)
  }

  type Jobs = map<string, Job>

  ghost predicate JobsHealthy(jobs: Jobs) {
    forall id :: id in jobs ==> Healthy(jobs[id])
  }

  function KeyOf(job: Job): Key {
    (job.head.owner, job.head.idem)
  }

  /** The unique index is exact, and deleted keys are gone from it. */
  ghost predicate IndexExact(jobs: Jobs, index: map<Key, string>, tombstones: set<Key>) {
    && (forall id :: id in jobs ==> KeyOf(jobs[id]) in index && index[KeyOf(jobs[id])] == id)
    && (forall key :: key in index ==> index[key] in jobs && KeyOf(jobs[index[key]]) == key)
    && (forall key :: key in tombstones ==> key !in index)
  }

  /** Row `r` was made for job `r.job`, which lives on or has left its tombstone. */
  ghost predicate RowBacked(jobs: Jobs, tombstones: set<Key>, r: Reservation) {
    && r.tokens == r.spec.limits.tokenLimit && r.cost == r.spec.limits.costLimit
    && 0 < r.tokens && 0 < r.cost
    && (r.job in jobs ==> KeyOf(jobs[r.job]) == (r.owner, r.idem) && jobs[r.job].head.spec == r.spec)
    && (r.job !in jobs ==> (r.owner, r.idem) in tombstones)
  }

  ghost predicate DistinctRows(rows: seq<Reservation>) {
    forall i, j :: 0 <= i < j < |rows| ==>
      rows[i].job != rows[j].job && (rows[i].owner, rows[i].idem) != (rows[j].owner, rows[j].idem)
  }

  ghost predicate RowsBacked(jobs: Jobs, tombstones: set<Key>, rows: seq<Reservation>) {
    forall i :: 0 <= i < |rows| ==> RowBacked(jobs, tombstones, rows[i])
  }

  ghost predicate JobsReserved(jobs: Jobs, rows: seq<Reservation>) {
    forall id :: id in jobs ==> RowOf(rows, id).Some?
  }

  ghost predicate Capped(accounts: map<string, Account>, rows: seq<Reservation>) {
    forall o :: o in accounts ==> WithinCaps(rows, o, accounts[o].policy)
  }

  /** Why a slot may be free: the job is deleted, or it ended and nothing of it can still run. */
  ghost predicate FreeForGood(jobs: Jobs, r: Reservation) {
    r.job in jobs ==>
      && Ended(jobs[r.job])
      && (jobs[r.job].head.state.Succeeded? || jobs[r.job].head.tokensReserved == 0 || r.receipt.Some?)
  }

  ghost predicate SlotsSafe(jobs: Jobs, rows: seq<Reservation>) {
    forall i :: 0 <= i < |rows| && !rows[i].held ==> FreeForGood(jobs, rows[i])
  }

  ghost predicate Consistent(b: Book) {
    && JobsHealthy(b.jobs)
    && IndexExact(b.jobs, b.index, b.tombstones)
    && DistinctRows(b.reservations)
    && RowsBacked(b.jobs, b.tombstones, b.reservations)
    && JobsReserved(b.jobs, b.reservations)
    && Capped(b.accounts, b.reservations)
    && SlotsSafe(b.jobs, b.reservations)
  }

  lemma EmptyConsistent()
    ensures Consistent(EMPTY) && Tables(EMPTY)
  {
  }

  lemma HealthyTables(b: Book)
    requires JobsHealthy(b.jobs)
    ensures Tables(b)
  {
    forall id | id in b.jobs ensures Shaped(b.jobs[id]) && b.jobs[id].rows != [] {
      assert Healthy(b.jobs[id]);
    }
  }

  // ---- sums over the table ----------------------------------------------------------------

  lemma {:induction false} TotalUpdate(weight: Reservation -> int, rows: seq<Reservation>, i: nat, row: Reservation,
                                       owner: string, period: string)
    requires i < |rows| && row.owner == rows[i].owner && row.period == rows[i].period && weight(row) == weight(rows[i])
    ensures Total(weight, rows[i := row], owner, period) == Total(weight, rows, owner, period)
  {
    var n := |rows| - 1;
    if i == n {
      assert rows[i := row][..n] == rows[..n];
    } else {
      assert rows[i := row][..n] == rows[..n][i := row];
      TotalUpdate(weight, rows[..n], i, row, owner, period);
    }
  }

  lemma TotalSnoc(weight: Reservation -> int, rows: seq<Reservation>, row: Reservation, owner: string, period: string)
    ensures Total(weight, rows + [row], owner, period)
            == Total(weight, rows, owner, period)
               + (if row.owner == owner && row.period == period then weight(row) else 0)
  {
    assert (rows + [row])[..|rows|] == rows;
  }

  lemma SlotsSnoc(rows: seq<Reservation>, row: Reservation, owner: string)
    ensures Slots(rows + [row], owner) == Slots(rows, owner) + (if row.owner == owner && row.held then 1 else 0)
  {
    assert (rows + [row])[..|rows|] == rows;
  }

  // ---- one row of the reservation table changes its slot ------------------------------------

  /** `row` differs from the row it replaces in slot and receipt only. */
  predicate SlotUpdate(before: Reservation, row: Reservation) {
    row == before.(held := row.held, receipt := row.receipt)
  }

  lemma CappedUpdate(accounts: map<string, Account>, rows: seq<Reservation>, k: nat, row: Reservation)
    requires k < |rows| && SlotUpdate(rows[k], row) && Capped(accounts, rows)
    ensures Capped(accounts, rows[k := row])
  {
    forall o | o in accounts ensures WithinCaps(rows[k := row], o, accounts[o].policy) {
      var p := accounts[o].policy;
      assert WithinCaps(rows, o, p);
      TotalUpdate(RESERVED_TOKENS, rows, k, row, o, p.period);
      TotalUpdate(RESERVED_COST, rows, k, row, o, p.period);
    }
  }

  lemma JobsReservedUpdate(jobs: Jobs, rows: seq<Reservation>, k: nat, row: Reservation)
    requires k < |rows| && SlotUpdate(rows[k], row) && JobsReserved(jobs, rows)
    ensures JobsReserved(jobs, rows[k := row])
  {
    forall id | id in jobs ensures RowOf(rows[k := row], id).Some? {
      var i := RowOf(rows, id).value;
      assert rows[k := row][i].job == id;
    }
  }

  lemma SlotUpdateKeeps(b: Book, k: nat, row: Reservation)
    requires Consistent(b) && k < |b.reservations| && SlotUpdate(b.reservations[k], row)
    requires FreeForGood(b.jobs, row)
    ensures Consistent(b.(reservations := b.reservations[k := row]))
  {
    CappedUpdate(b.accounts, b.reservations, k, row);
    JobsReservedUpdate(b.jobs, b.reservations, k, row);
    BackedUpdate(b.jobs, b.tombstones, b.reservations, k, row);
  }

  lemma BackedUpdate(jobs: Jobs, tombstones: set<Key>, rows: seq<Reservation>, k: nat, row: Reservation)
    requires k < |rows| && SlotUpdate(rows[k], row) && FreeForGood(jobs, row)
    requires RowsBacked(jobs, tombstones, rows) && SlotsSafe(jobs, rows) && DistinctRows(rows)
    ensures RowsBacked(jobs, tombstones, rows[k := row]) && SlotsSafe(jobs, rows[k := row])
            && DistinctRows(rows[k := row])
  {
    assert RowBacked(jobs, tombstones, rows[k]);
  }

  // ---- kernel transactions ------------------------------------------------------------------

  /** The journal step that a kernel transaction of the account store amounts to. */
  function Kernel(b: Book, owner: string, id: string, step: JobStep): JobStep
    requires id in b.jobs
  {
    match step
    case DoFinish(fence, asked, now) =>
      if Retained(b, id, now) || !(asked.Terminal() || asked.Paused?)
      then DoFinish(fence, Wanted(b, owner, id, asked, now), now)
      else DoFinishUnreadable(fence, if id in b.retain then b.retain[id] else now + 1, now)
    case _ => step
  }

  /** One job moves; its slot may be released with it. */
  function Progress(b: Book, id: string, job: Job, release: bool): Book {
    var k := RowOf(b.reservations, id);
    var next := b.(jobs := b.jobs[id := job]);
    if release && k.Some?
    then next.(reservations := b.reservations[k.value := b.reservations[k.value].(held := false)])
    else next
  }

  predicate Releases(step: JobStep) {
    step.DoBegin? || step.DoCancel? || step.DoFinish?
  }

  function Actor(owner: string, step: JobStep): string {
    if step.DoBegin? then step.grant.owner else owner
  }

  /** Every kernel transaction is refused, or is one journal step on one job plus a safe release. */
  lemma TransactShape(p: Platform, b: Book, owner: string, id: string, step: JobStep) returns (release: bool)
    requires Tables(b)
    ensures Transact(p, b, owner, id, step) == b
            || (&& id in b.jobs
                && var job := Apply(p, b.jobs[id], Kernel(b, owner, id, step));
                   && Transact(p, b, owner, id, step) == Progress(b, id, job, release)
                   && (release ==> SafeToRelease(job)))
  {
    release := false;
    if id in b.jobs && Releases(step) {
      release := ReleaseShape(p, b, owner, id, step);
    }
  }

  lemma ReleaseShape(p: Platform, b: Book, owner: string, id: string, step: JobStep) returns (release: bool)
    requires Tables(b) && id in b.jobs && Releases(step)
    ensures Transact(p, b, owner, id, step) == b
            || (&& var job := Apply(p, b.jobs[id], Kernel(b, owner, id, step));
                   && Transact(p, b, owner, id, step) == Progress(b, id, job, release)
                   && (release ==> SafeToRelease(job)))
  {
    var moved := b.(jobs := b.jobs[id := Apply(p, b.jobs[id], Kernel(b, owner, id, step))]);
    release := Released(moved, Actor(owner, step), id) != moved;
  }

  lemma JobMoves(p: Platform, b: Book, id: string, step: JobStep)
    requires Consistent(b) && id in b.jobs
    ensures Consistent(b.(jobs := b.jobs[id := Apply(p, b.jobs[id], step)]))
  {
    var job := b.jobs[id];
    var next := Apply(p, job, step);
    assert Healthy(job);
    StepKeepsSound(p, job, step);
    StepCharged(p, job, step);
    StepPlaced(p, job, step);
    JobReplaced(b, id, next);
  }

  /** Any healthy successor with the same identity, equal if the job had ended, will do. */
  lemma JobReplaced(b: Book, id: string, next: Job)
    requires Consistent(b) && id in b.jobs && Healthy(next)
    requires KeyOf(next) == KeyOf(b.jobs[id]) && next.head.spec == b.jobs[id].head.spec
    requires b.jobs[id].head.state.Terminal() ==> next == b.jobs[id]
    ensures Consistent(b.(jobs := b.jobs[id := next]))
  {
    IndexReplaced(b, id, next);
    BackedReplaced(b.jobs, b.tombstones, b.reservations, id, next);
    SlotsReplaced(b.jobs, b.reservations, id, next);
  }

  lemma IndexReplaced(b: Book, id: string, next: Job)
    requires JobsHealthy(b.jobs) && IndexExact(b.jobs, b.index, b.tombstones) && JobsReserved(b.jobs, b.reservations)
    requires id in b.jobs && Healthy(next) && KeyOf(next) == KeyOf(b.jobs[id])
    ensures var jobs := b.jobs[id := next];
            JobsHealthy(jobs) && IndexExact(jobs, b.index, b.tombstones) && JobsReserved(jobs, b.reservations)
  {
  }

  lemma SlotsReplaced(jobs: Jobs, rows: seq<Reservation>, id: string, next: Job)
    requires id in jobs && SlotsSafe(jobs, rows) && (jobs[id].head.state.Terminal() ==> next == jobs[id])
    ensures SlotsSafe(jobs[id := next], rows)
  {
    forall i | 0 <= i < |rows| && !rows[i].held ensures FreeForGood(jobs[id := next], rows[i]) {
      assert FreeForGood(jobs, rows[i]);
    }
  }

  lemma BackedReplaced(jobs: Jobs, tombstones: set<Key>, rows: seq<Reservation>, id: string, next: Job)
    requires id in jobs && KeyOf(next) == KeyOf(jobs[id]) && next.head.spec == jobs[id].head.spec
    requires RowsBacked(jobs, tombstones, rows)
    ensures RowsBacked(jobs[id := next], tombstones, rows)
  {
    forall i | 0 <= i < |rows| ensures RowBacked(jobs[id := next], tombstones, rows[i]) {
      assert RowBacked(jobs, tombstones, rows[i]);
    }
  }

  lemma ProgressKeeps(p: Platform, b: Book, id: string, step: JobStep, release: bool)
    requires Consistent(b) && id in b.jobs
    requires release ==> SafeToRelease(Apply(p, b.jobs[id], step))
    ensures Consistent(Progress(b, id, Apply(p, b.jobs[id], step), release))
  {
    var moved := b.(jobs := b.jobs[id := Apply(p, b.jobs[id], step)]);
    JobMoves(p, b, id, step);
    var k := RowOf(b.reservations, id);
    if release && k.Some? {
      SlotUpdateKeeps(moved, k.value, b.reservations[k.value].(held := false));
    }
  }

  lemma TransactKeeps(p: Platform, b: Book, owner: string, id: string, step: JobStep)
    requires Consistent(b) && Tables(b)
    ensures Consistent(Transact(p, b, owner, id, step))
  {
    var release := TransactShape(p, b, owner, id, step);
    if Transact(p, b, owner, id, step) != b {
      ProgressKeeps(p, b, id, Kernel(b, owner, id, step), release);
    }
  }

  // ---- the other transactions ---------------------------------------------------------------------

  lemma ConfigureKeeps(b: Book, policy: Policy, expected: nat, authorized: bool, now: int)
    requires Consistent(b)
    ensures Consistent(Settle(b, Configure(b, policy, expected, authorized, now)))
  {
  }

  lemma QuiesceKeeps(b: Book, owner: string, id: string, receipt: string, approved: bool)
    requires Consistent(b)
    ensures Consistent(Settle(b, ConfirmQuiescence(b, owner, id, receipt, approved)))
  {
    var v := ConfirmQuiescence(b, owner, id, receipt, approved);
    if v.Granted? {
      var k := RowOf(b.reservations, id).value;
      SlotUpdateKeeps(b, k, v.book.reservations[k]);
    }
  }

  lemma EraseKeeps(b: Book, owner: string, id: string)
    requires Consistent(b) && Owned(b, owner, id)
    ensures Consistent(Erased(b, owner, b.jobs[id].head.idem, id))
  {
    ErasedIndex(b, id);
    ErasedRows(b.jobs, b.tombstones, b.reservations, id);
    ErasedSlots(b.jobs, b.reservations, id);
  }

  lemma ErasedRows(jobs: Jobs, tombstones: set<Key>, rows: seq<Reservation>, id: string)
    requires id in jobs && RowsBacked(jobs, tombstones, rows)
    ensures RowsBacked(jobs - {id}, tombstones + {KeyOf(jobs[id])}, rows)
  {
    forall i | 0 <= i < |rows| ensures RowBacked(jobs - {id}, tombstones + {KeyOf(jobs[id])}, rows[i]) {
      assert RowBacked(jobs, tombstones, rows[i]);
    }
  }

  lemma ErasedSlots(jobs: Jobs, rows: seq<Reservation>, id: string)
    requires SlotsSafe(jobs, rows)
    ensures SlotsSafe(jobs - {id}, rows)
  {
    forall i | 0 <= i < |rows| && !rows[i].held ensures FreeForGood(jobs - {id}, rows[i]) {
      assert FreeForGood(jobs, rows[i]);
    }
  }

  lemma ErasedIndex(b: Book, id: string)
    requires JobsHealthy(b.jobs) && IndexExact(b.jobs, b.index, b.tombstones) && id in b.jobs
    ensures var key := KeyOf(b.jobs[id]);
            IndexExact(b.jobs - {id}, b.index - {key}, b.tombstones + {key}) && JobsHealthy(b.jobs - {id})
  {
  }

  // ---- create ---------------------------------------------------------------------------------------

  /** A new job together with its reservation. */
  function Admit(b: Book, owner: string, idem: string, spec: Spec, expiry: int, newId: string, now: int): Book
    requires owner in b.accounts
  {
    var next := Inserted(b, owner, idem, spec, expiry, newId, now);
    next.(reservations := b.reservations + [Reserve(owner, b.accounts[owner].policy, idem, spec, newId)])
  }

  /** `create` answers with the existing job, or admits exactly one new one that fits the account. */
  lemma CreateShape(b: Book, grant: Grant, idem: string, spec: Spec, expiry: int, newId: string, now: int)
    requires Consistent(b) && RowOf(b.reservations, newId).None?
    ensures var v := Create(b, grant, idem, spec, expiry, newId, now);
            var owner := grant.owner;
            v.Granted? && v.book != b ==>
              && v.value == newId && newId !in b.jobs && owner in b.accounts
              && (owner, idem) !in b.index && (owner, idem) !in b.tombstones
              && Fits(b.reservations, owner, b.accounts[owner].policy, spec.limits)
              && v.book == Admit(b, owner, idem, spec, expiry, newId, now)
    ensures var v := Create(b, grant, idem, spec, expiry, newId, now);
            v.Granted? && v.book == b ==>
              v.value in b.jobs && KeyOf(b.jobs[v.value]) == (grant.owner, idem) && b.jobs[v.value].head.spec == spec
  {
    var key := (grant.owner, idem);
    if key in b.index {
      assert RowOf(b.reservations, b.index[key]).Some?;
    }
  }

  lemma FreshKey(b: Book, key: Key)
    requires IndexExact(b.jobs, b.index, b.tombstones) && RowsBacked(b.jobs, b.tombstones, b.reservations)
    requires key !in b.index && key !in b.tombstones
    ensures forall i :: 0 <= i < |b.reservations| ==> (b.reservations[i].owner, b.reservations[i].idem) != key
  {
    forall i | 0 <= i < |b.reservations| ensures (b.reservations[i].owner, b.reservations[i].idem) != key {
      assert RowBacked(b.jobs, b.tombstones, b.reservations[i]);
    }
  }

  lemma AdmitIndex(b: Book, owner: string, idem: string, spec: Spec, newId: string, now: int)
    requires JobsHealthy(b.jobs) && IndexExact(b.jobs, b.index, b.tombstones) && WellFormed(spec)
    requires newId !in b.jobs && (owner, idem) !in b.index && (owner, idem) !in b.tombstones
    ensures var jobs := b.jobs[newId := NewJob(owner, idem, spec, now)];
            JobsHealthy(jobs) && IndexExact(jobs, b.index[(owner, idem) := newId], b.tombstones)
  {
    NewJobCharged(owner, idem, spec, now);
  }

  lemma AdmitRows(jobs: Jobs, tombstones: set<Key>, rows: seq<Reservation>, newId: string, job: Job, row: Reservation)
    requires RowsBacked(jobs, tombstones, rows) && JobsReserved(jobs, rows) && SlotsSafe(jobs, rows)
    requires newId !in jobs && RowOf(rows, newId).None?
    requires row.job == newId && row.held && RowBacked(jobs[newId := job], tombstones, row)
    ensures RowsBacked(jobs[newId := job], tombstones, rows + [row])
    ensures JobsReserved(jobs[newId := job], rows + [row])
    ensures SlotsSafe(jobs[newId := job], rows + [row])
  {
    forall i | 0 <= i < |rows| + 1 ensures RowBacked(jobs[newId := job], tombstones, (rows + [row])[i]) {
      if i < |rows| { assert RowBacked(jobs, tombstones, rows[i]); }
    }
    forall id | id in jobs[newId := job] ensures RowOf(rows + [row], id).Some? {
      if id == newId {
        assert (rows + [row])[|rows|].job == id;
      } else {
        var i := RowOf(rows, id).value;
        assert (rows + [row])[i].job == id;
      }
    }
    forall i | 0 <= i < |rows| + 1 && !(rows + [row])[i].held
      ensures FreeForGood(jobs[newId := job], (rows + [row])[i])
    {
      if i < |rows| { assert FreeForGood(jobs, rows[i]); }
    }
  }

  lemma DistinctSnoc(rows: seq<Reservation>, row: Reservation)
    requires DistinctRows(rows) && RowOf(rows, row.job).None?
    requires forall i :: 0 <= i < |rows| ==> (rows[i].owner, rows[i].idem) != (row.owner, row.idem)
    ensures DistinctRows(rows + [row])
  {
  }

  lemma AdmitCapped(accounts: map<string, Account>, rows: seq<Reservation>, row: Reservation)
    requires Capped(accounts, rows) && row.owner in accounts && row.period == accounts[row.owner].policy.period
    requires var p := accounts[row.owner].policy;
             && Total(RESERVED_TOKENS, rows, row.owner, p.period) + row.tokens <= p.tokenCap
             && Total(RESERVED_COST, rows, row.owner, p.period) + row.cost <= p.costCap
    ensures Capped(accounts, rows + [row])
  {
    forall o | o in accounts ensures WithinCaps(rows + [row], o, accounts[o].policy) {
      assert WithinCaps(rows, o, accounts[o].policy);
      TotalSnoc(RESERVED_TOKENS, rows, row, o, accounts[o].policy.period);
      TotalSnoc(RESERVED_COST, rows, row, o, accounts[o].policy.period);
    }
  }

  lemma AdmitKeeps(b: Book, owner: string, idem: string, spec: Spec, expiry: int, newId: string, now: int)
    requires Consistent(b) && WellFormed(spec) && owner in b.accounts
    requires newId !in b.jobs && RowOf(b.reservations, newId).None?
    requires (owner, idem) !in b.index && (owner, idem) !in b.tombstones
    requires Fits(b.reservations, owner, b.accounts[owner].policy, spec.limits)
    ensures Consistent(Admit(b, owner, idem, spec, expiry, newId, now))
  {
    var row := Reserve(owner, b.accounts[owner].policy, idem, spec, newId);
    FreshKey(b, (owner, idem));
    DistinctSnoc(b.reservations, row);
    AdmitIndex(b, owner, idem, spec, newId, now);
    AdmitRows(b.jobs, b.tombstones, b.reservations, newId, NewJob(owner, idem, spec, now), row);
    AdmitCapped(b.accounts, b.reservations, row);
  }

  lemma CreateKeeps(b: Book, grant: Grant, idem: string, spec: Spec, expiry: int, newId: string, now: int)
    requires Consistent(b) && WellFormed(spec) && RowOf(b.reservations, newId).None?
    ensures Consistent(Settle(b, Create(b, grant, idem, spec, expiry, newId, now)))
  {
    CreateShape(b, grant, idem, spec, expiry, newId, now);
    var v := Create(b, grant, idem, spec, expiry, newId, now);
    if v.Granted? && v.book != b {
      AdmitKeeps(b, grant.owner, idem, spec, expiry, newId, now);
    }
  }

  lemma DeleteKeeps(b: Book, owner: string, id: string, reason: Reason, receipt: Option<string>, allowed: bool,
                    now: int)
    requires Consistent(b)
    ensures Consistent(Settle(b, DeleteJob(b, owner, id, reason, receipt, allowed, now)))
  {
    if DeleteJob(b, owner, id, reason, receipt, allowed, now).Granted? {
      EraseKeeps(b, owner, id);
    }
  }

  lemma StepKeepsConsistent(p: Platform, b: Book, step: Step)
    requires Consistent(b) && Tables(b) && Legal(b, step)
    ensures Consistent(Perform(p, b, step)) && Tables(Perform(p, b, step))
  {
    match step {
      case DoConfigure(policy, expected, authorized, now) => ConfigureKeeps(b, policy, expected, authorized, now);
      case DoCreate(grant, idem, spec, expiry, newId, now) => CreateKeeps(b, grant, idem, spec, expiry, newId, now);
      case DoTransact(owner, id, kernel) => TransactKeeps(p, b, owner, id, kernel);
      case DoQuiesce(owner, id, receipt, approved) => QuiesceKeeps(b, owner, id, receipt, approved);
      case DoDelete(owner, id, reason, receipt, allowed, now) =>
        DeleteKeeps(b, owner, id, reason, receipt, allowed, now);
    }
    HealthyTables(Perform(p, b, step));
  }

  // ---- runs -------------------------------------------------------------------------------------------

  ghost predicate Lawful(p: Platform, b: Book, steps: seq<Step>)
    requires Consistent(b) && Tables(b)
    decreases |steps|
  {
    steps == [] ||
    (Legal(b, steps[0]) &&
     (StepKeepsConsistent(p, b, steps[0]);
      Lawful(p, Perform(p, b, steps[0]), steps[1..])))
  }

  ghost function PerformAll(p: Platform, b: Book, steps: seq<Step>): (after: Book)
    requires Consistent(b) && Tables(b) && Lawful(p, b, steps)
    ensures Consistent(after) && Tables(after)
    decreases |steps|
  {
    if steps == [] then b
    else
      StepKeepsConsistent(p, b, steps[0]);
      PerformAll(p, Perform(p, b, steps[0]), steps[1..])
  }

  /** Every step is legal where it is taken. */
  ghost predicate LawfulFromEmpty(p: Platform, steps: seq<Step>) {
    EmptyConsistent();
    Lawful(p, EMPTY, steps)
  }

  /** The database that a run from an empty schema reaches. */
  ghost function FromEmpty(p: Platform, steps: seq<Step>): (b: Book)
    requires LawfulFromEmpty(p, steps)
    ensures Consistent(b) && Tables(b)
  {
    EmptyConsistent();
    PerformAll(p, EMPTY, steps)
  }
}
