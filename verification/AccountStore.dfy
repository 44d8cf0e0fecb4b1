/**
 The account store as the source has it: one method per public transaction, updating the
 account, reservation and tombstone tables around the inherited journal store
 (execution/postgres_admission.py, execution/private_store.py).  Every method is proved to
 change the database as the function of the same name in `Admission` says.
 */
module AccountStore {
  import opened Basics
  import opened Contracts
  import opened Journal
  import opened JobStore
  import A = Admission

  datatype Response<+T> = Done(value: T) | Refused(why: A.Refusal)

  /** The answer and the database after a transaction that should end in `verdict`. */
  ghost predicate Committed<T(!new)>(before: A.Book, verdict: A.Verdict<T>, after: A.Book, response: Response<T>) {
    match verdict
    case Granted(book, value) => after == book && response == Done(value)
    case Denied(why) => after == before && response == Refused(why)
  }

  function FromJournal<T>(answer: Answer<T>): Response<T> {
    match answer
    case Ok(value) => Done(value)
    case Rejected(error) => Refused(A.Underlying(error))
  }

  class AccountPostgresStore {
    const journal: LocalJobStore
    var index: map<A.Key, string>
    var retain: map<string, int>
    var tombstones: set<A.Key>
    var accounts: map<string, A.Account>
    var reservations: seq<A.Reservation>

    ghost predicate Valid()
      reads this, journal
    {
      journal.Valid()
    }

    /** The whole database. */
    function Database(): A.Book
      reads this, journal
    {
      A.Book(journal.jobs, index, retain, tombstones, accounts, reservations)
    }

    constructor (journal: LocalJobStore)
      requires journal.Valid() && journal.jobs == map[]
      ensures Valid() && this.journal == journal && Database() == A.EMPTY
    {
      this.journal := journal;
      index, retain, tombstones, accounts, reservations := map[], map[], {}, map[], [];
    }

    /** `_totals`: one aggregate query over the reservations of an owner. */
    method Totals(owner: string, period: string) returns (tokens: int, cost: int, slots: nat)
      ensures tokens == A.Total(A.RESERVED_TOKENS, reservations, owner, period)
      ensures cost == A.Total(A.RESERVED_COST, reservations, owner, period)
      ensures slots == A.Slots(reservations, owner)
    {
      tokens, cost, slots := 0, 0, 0;
      for i := 0 to |reservations|
        invariant tokens == A.Total(A.RESERVED_TOKENS, reservations[..i], owner, period)
        invariant cost == A.Total(A.RESERVED_COST, reservations[..i], owner, period)
        invariant slots == A.Slots(reservations[..i], owner)
      {
        assert reservations[..i + 1][..i] == reservations[..i];
        var row := reservations[i];
        if row.owner == owner {
          if row.period == period {
            tokens, cost := tokens + row.tokens, cost + row.cost;
          }
          if row.held {
            slots := slots + 1;
          }
        }
      }
      assert reservations[..|reservations|] == reservations;
    }

    method ConfigureAccount(policy: A.Policy, expected: nat, authorized: bool, now: int) returns (r: Response<nat>)
      requires Valid()
      modifies this
      ensures Valid()
      ensures Committed(old(Database()), A.Configure(old(Database()), policy, expected, authorized, now), Database(), r)
    {
      if !authorized || !A.ValidPolicy(policy) { return Refused(A.NotAdmitted); }
      var revision := 0;
      if policy.owner in accounts {
        var existing := accounts[policy.owner];
        revision := existing.revision;
        if revision != expected { return Refused(A.NotAdmitted); }
        if existing.policy.period == policy.period {
          if existing.policy.starts != policy.starts || existing.policy.ends != policy.ends {
            return Refused(A.NotAdmitted);
          }
        } else {
          if now < existing.policy.ends || policy.starts < existing.policy.ends { return Refused(A.NotAdmitted); }
          if !A.PeriodUnused(reservations, policy.owner, policy.period) { return Refused(A.NotAdmitted); }
        }
      }
      if revision != expected || policy.ends <= now { return Refused(A.NotAdmitted); }
      var tokens, cost, _ := Totals(policy.owner, policy.period);
      if policy.tokenCap < tokens || policy.costCap < cost { return Refused(A.NotAdmitted); }
      accounts := accounts[policy.owner := A.Account(policy, expected + 1)];
      return Done(expected + 1);
    }

    /** `PrivateJobStore.create`, inside the account store's transaction. */
    method CreatePrivate(grant: Grant, idem: string, spec: Spec, expiry: int, newId: string, now: int)
      returns (r: Response<string>)
      requires Valid() && WellFormed(spec)
      modifies this, journal
      ensures Valid()
      ensures Committed(old(Database()), A.CreatePrivate(old(Database()), grant, idem, spec, expiry, newId, now),
                        Database(), r)
    {
      var key := (grant.owner, idem);
      if spec.routeId !in grant.routes || !Identifier(idem) { return Refused(A.Underlying(Blocked)); }
      if key in tombstones { return Refused(A.Unprotected); }
      if key in index {
        var id := index[key];
        if id !in journal.jobs || !A.Retained(Database(), id, now) { return Refused(A.Unprotected); }
        if journal.jobs[id].head.spec != spec { return Refused(A.Underlying(Blocked)); }
        return Done(id);
      }
      if spec.limits.deadline <= now { return Refused(A.Underlying(DeadlineElapsed)); }
      if !(spec.limits.deadline <= expiry <= MAX_SAFE_INTEGER) || newId in journal.jobs {
        return Refused(A.Unprotected);
      }
      journal.Insert(grant.owner, idem, spec, newId, now);
      retain := retain[newId := expiry];
      index := index[key := newId];
      return Done(newId);
    }

    /** Undo everything since `saved`, as the outer transaction does when an exception leaves it. */
    method Rollback(saved: A.Book)
      requires A.Tables(saved)
      modifies this, journal
      ensures Valid() && Database() == saved
    {
      journal.jobs := saved.jobs;
      index, retain, tombstones := saved.index, saved.retain, saved.tombstones;
      accounts, reservations := saved.accounts, saved.reservations;
    }

    method Create(grant: Grant, idem: string, spec: Spec, expiry: int, newId: string, now: int)
      returns (r: Response<string>)
      requires Valid() && WellFormed(spec)
      modifies this, journal
      ensures Valid()
      ensures Committed(old(Database()), A.Create(old(Database()), grant, idem, spec, expiry, newId, now), Database(),
                        r)
    {
      var saved := Database();
      if grant.owner !in accounts { return Refused(A.NotAdmitted); }
      var policy := accounts[grant.owner].policy;
      if !A.Open(policy, now) || policy.ends < spec.limits.deadline { return Refused(A.NotAdmitted); }
      r := CreatePrivate(grant, idem, spec, expiry, newId, now);
      if r.Refused? { return; }
      var charged := Reserve(grant.owner, policy, idem, spec, r.value);
      if !charged {
        Rollback(saved);
        return Refused(A.NotAdmitted);
      }
    }

    /** The reservation half of `create`. */
    method Reserve(owner: string, policy: A.Policy, idem: string, spec: Spec, id: string) returns (charged: bool)
      requires Valid()
      modifies this`reservations
      ensures Valid()
      ensures A.Charge(old(Database()), policy, owner, idem, spec, id)
              == if charged then A.Granted(Database(), id) else A.Denied(A.NotAdmitted)
    {
      var k := A.RowOf(reservations, id);
      if k.Some? {
        var existing := reservations[k.value];
        return existing.owner == owner && existing.spec == spec;
      }
      var tokens, cost, slots := Totals(owner, policy.period);
      if policy.tokenCap < tokens + spec.limits.tokenLimit || policy.costCap < cost + spec.limits.costLimit
         || policy.maximumJobs <= slots {
        return false;
      }
      reservations := reservations + [A.Reserve(owner, policy, idem, spec, id)];
      return true;
    }

    /** `_check_job_admission`. */
    method CheckJobAdmission(owner: string, id: string, now: int) returns (refusal: Option<A.Refusal>)
      requires Valid()
      ensures refusal == if !A.Owned(Database(), owner, id) then Some(A.Underlying(NotFound))
                         else if !A.Admitted(Database(), owner, id, now) then Some(A.NotAdmitted)
                         else None
    {
      if !journal.Owned(owner, id) { return Some(A.Underlying(NotFound)); }
      if owner !in accounts { return Some(A.NotAdmitted); }
      var policy := accounts[owner].policy;
      var k := A.RowOf(reservations, id);
      if k.None? { return Some(A.NotAdmitted); }
      var row := reservations[k.value];
      if row.owner != owner || row.spec != journal.jobs[id].head.spec || row.period != policy.period || !row.held {
        return Some(A.NotAdmitted);
      }
      if !A.Open(policy, now) { return Some(A.NotAdmitted); }
      var tokens, cost, _ := Totals(owner, policy.period);
      if policy.tokenCap < tokens || policy.costCap < cost { return Some(A.NotAdmitted); }
      return None;
    }

    /** `_release_if_safe`. */
    method ReleaseIfSafe(owner: string, id: string)
      requires Valid() && A.Owned(Database(), owner, id)
      modifies this`reservations
      ensures Valid() && Database() == A.Released(old(Database()), owner, id)
    {
      var head := journal.jobs[id].head;
      var k := A.RowOf(reservations, id);
      if head.runner.None? && head.state.Terminal() && (head.state.Succeeded? || head.tokensReserved == 0)
         && k.Some? && reservations[k.value].owner == owner {
        reservations := reservations[k.value := reservations[k.value].(held := false)];
      }
    }

    method Begin(grant: Grant, id: string, token: string, now: int) returns (r: Response<Option<Fence>>)
      requires Valid()
      modifies this`reservations, journal
      ensures Valid()
      ensures Committed(old(Database()), A.Begin(old(Database()), grant, id, token, now), Database(), r)
    {
      var refusal := CheckJobAdmission(grant.owner, id, now);
      if refusal.Some? { return Refused(refusal.value); }
      if !A.Retained(Database(), id, now) { return Refused(A.Unprotected); }
      var answer := journal.Begin(grant, id, token, now);
      if answer == Ok(None) {
        ReleaseIfSafe(grant.owner, id);
      }
      return FromJournal(answer);
    }

    method Claim(grant: Grant, id: string, fence: Fence, stageId: string, attempt: string, now: int)
      returns (r: Response<Option<Ticket>>)
      requires Valid()
      modifies journal
      ensures Valid()
      ensures Committed(old(Database()), A.Claim(old(Database()), grant, id, fence, stageId, attempt, now), Database(),
                        r)
    {
      var refusal := CheckJobAdmission(grant.owner, id, now);
      if refusal.Some? { return Refused(refusal.value); }
      if !A.Retained(Database(), id, now) { return Refused(A.Unprotected); }
      var answer := journal.Claim(grant, id, fence, stageId, attempt, now);
      return FromJournal(answer);
    }

    method Complete(owner: string, id: string, fence: Fence, stageId: string, attempt: string, raw: RawResult, now: int)
      returns (r: Response<StageState>)
      requires Valid()
      modifies journal
      ensures Valid()
      ensures Committed(old(Database()),
                        A.Complete(journal.platform, old(Database()), owner, id, fence, stageId, attempt, raw, now),
                        Database(), r)
    {
      var refusal := CheckJobAdmission(owner, id, now);
      if refusal.Some? { return Refused(refusal.value); }
      if !A.Retained(Database(), id, now) { return Refused(A.Unprotected); }
      var answer := journal.Complete(owner, id, fence, stageId, attempt, raw, now);
      return FromJournal(answer);
    }

    /** Success needs current admission; an expired snapshot is closed without opening it. */
    method Finish(owner: string, id: string, fence: Fence, asked: JobState, now: int) returns (r: Response<JobState>)
      requires Valid()
      modifies this`reservations, journal
      ensures Valid()
      ensures Committed(old(Database()), A.Finish(old(Database()), owner, id, fence, asked, now), Database(), r)
    {
      if !journal.Owned(owner, id) { return Refused(A.Underlying(NotFound)); }
      var wanted := asked;
      if asked.Succeeded? {
        var refusal := CheckJobAdmission(owner, id, now);
        if refusal.Some? { wanted := Failed; }
      }
      r := FinishAndRelease(owner, id, fence, asked, wanted, now);
    }

    method FinishAndRelease(owner: string, id: string, fence: Fence, asked: JobState, wanted: JobState, now: int)
      returns (r: Response<JobState>)
      requires Valid() && A.Owned(Database(), owner, id) && wanted == A.Wanted(Database(), owner, id, asked, now)
      modifies this`reservations, journal
      ensures Valid()
      ensures Committed(old(Database()), A.Finish(old(Database()), owner, id, fence, asked, now), Database(), r)
    {
      r := FinishPrivate(owner, id, fence, asked, wanted, now);
      if r.Done? {
        ReleaseIfSafe(owner, id);
      }
    }

    method FinishPrivate(owner: string, id: string, fence: Fence, asked: JobState, wanted: JobState, now: int)
      returns (r: Response<JobState>)
      requires Valid() && A.Owned(Database(), owner, id) && wanted == A.Wanted(Database(), owner, id, asked, now)
      modifies journal
      ensures Valid()
      ensures Committed(old(Database()),
                        A.OnJob(old(Database()), id, A.FinishReply(old(Database()), owner, id, fence, asked, now)),
                        Database(), r)
    {
      var answer;
      if A.Retained(Database(), id, now) || !(asked.Terminal() || asked.Paused?) {
        answer := journal.Finish(owner, id, fence, wanted, now);
      } else {
        answer := journal.FinishUnreadable(owner, id, fence, if id in retain then retain[id] else now + 1, now);
      }
      return FromJournal(answer);
    }

    method RequestCancel(owner: string, id: string, now: int) returns (r: Response<bool>)
      requires Valid()
      modifies this`reservations, journal
      ensures Valid()
      ensures Committed(old(Database()), A.RequestCancel(old(Database()), owner, id, now), Database(), r)
    {
      var answer := journal.RequestCancel(owner, id, now);
      if answer.Ok? {
        ReleaseIfSafe(owner, id);
      }
      return FromJournal(answer);
    }

    /** Inherited, ungated: recovery needs the snapshot but no admission. */
    method RecoverAbandoned(owner: string, id: string, fence: Fence, now: int) returns (r: Response<JobState>)
      requires Valid()
      modifies journal
      ensures Valid()
      ensures Committed(old(Database()), A.Recover(old(Database()), owner, id, fence, now), Database(), r)
    {
      if !journal.Owned(owner, id) { return Refused(A.Underlying(NotFound)); }
      if !A.Retained(Database(), id, now) { return Refused(A.Unprotected); }
      var answer := journal.RecoverAbandoned(owner, id, fence, now);
      return FromJournal(answer);
    }

    method ConfirmQuiescence(owner: string, id: string, receipt: string, approved: bool) returns (r: Response<()>)
      requires Valid()
      modifies this`reservations
      ensures Valid()
      ensures Committed(old(Database()), A.ConfirmQuiescence(old(Database()), owner, id, receipt, approved), Database(),
                        r)
    {
      if !Identifier(receipt) || !journal.Owned(owner, id) { return Refused(A.Underlying(NotFound)); }
      var head := journal.jobs[id].head;
      if !head.state.Terminal() || head.runner.Some? || !approved { return Refused(A.NotAdmitted); }
      var k := A.RowOf(reservations, id);
      if k.None? { return Refused(A.NotAdmitted); }
      var row := reservations[k.value];
      if row.owner != owner || (row.receipt.Some? && row.receipt.value != receipt) { return Refused(A.NotAdmitted); }
      reservations := reservations[k.value := row.(held := false, receipt := Some(receipt))];
      return Done(());
    }

    method DeleteJob(owner: string, id: string, reason: A.Reason, receipt: Option<string>, allowed: bool, now: int)
      returns (r: Response<()>)
      requires Valid()
      modifies this, journal
      ensures Valid()
      ensures Committed(old(Database()), A.DeleteJob(old(Database()), owner, id, reason, receipt, allowed, now),
                        Database(), r)
    {
      var k := A.RowOf(reservations, id);
      if k.None? || reservations[k.value].owner != owner || reservations[k.value].held {
        return Refused(A.NotAdmitted);
      }
      if !journal.Owned(owner, id) { return Refused(A.Underlying(NotFound)); }
      var job := journal.jobs[id];
      if !job.head.state.Terminal() || job.head.runner.Some? { return Refused(A.Unprotected); }
      if reason.RetentionElapsed? && A.Retained(Database(), id, now) { return Refused(A.Unprotected); }
      if !A.DeletionCovered(job, receipt) || !allowed { return Refused(A.Unprotected); }
      if (owner, job.head.idem) in tombstones { return Refused(A.Unprotected); }
      tombstones := tombstones + {(owner, job.head.idem)};
      journal.jobs := journal.jobs - {id};
      index, retain := index - {(owner, job.head.idem)}, retain - {id};
      return Done(());
    }
  }
}
