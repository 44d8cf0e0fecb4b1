/**
 When the account store lets a transaction through, in terms of the policy, the reservation
 rows and the tables alone; and what a disabled or closed account can still do, over runs.
 */
module AdmissionRules {
  import opened Basics
  import opened Contracts
  import opened Journal
  import opened JournalInvariants
  import opened Admission
  import opened AdmissionSafety
  import K = Transactions

  /** The account takes work at this time. */
  predicate Accepting(b: Book, owner: string, now: int) {
    && owner in b.accounts
    && b.accounts[owner].policy.enabled
    && b.accounts[owner].policy.starts <= now < b.accounts[owner].policy.ends
  }

  /** What the account has reserved in its period stays within its caps. */
  predicate WithinBudget(b: Book, owner: string, tokens: int, cost: int) {
    && owner in b.accounts
    && var p := b.accounts[owner].policy;
       && Total(RESERVED_TOKENS, b.reservations, owner, p.period) + tokens <= p.tokenCap
       && Total(RESERVED_COST, b.reservations, owner, p.period) + cost <= p.costCap
  }

  /** Row `k` reserves for job `id` of `owner`, in the current period, and its slot is held. */
  predicate Reserves(b: Book, owner: string, id: string, k: nat) {
    && k < |b.reservations| && id in b.jobs && owner in b.accounts
    && var row := b.reservations[k];
       && row.job == id && row.owner == owner && row.spec == b.jobs[id].head.spec
       && row.period == b.accounts[owner].policy.period && row.held
  }

  ghost predicate Gate(b: Book, owner: string, id: string, now: int) {
    Accepting(b, owner, now) && WithinBudget(b, owner, 0, 0) && exists k: nat :: Reserves(b, owner, id, k)
  }

  /** What every reachable book keeps of its reservations: one row a job, for its owner and its snapshot. */
  predicate Booked(b: Book) {
    && (forall i, j :: 0 <= i < j < |b.reservations| ==> b.reservations[i].job != b.reservations[j].job)
    && forall i :: 0 <= i < |b.reservations| && b.reservations[i].job in b.jobs ==>
         var job := b.jobs[b.reservations[i].job];
         b.reservations[i].owner == job.head.owner && b.reservations[i].spec == job.head.spec
  }

  lemma ConsistentBooked(b: Book)
    requires Consistent(b)
    ensures Booked(b)
  {
  }

  lemma RowIs(b: Book, k: nat)
    requires Booked(b) && k < |b.reservations|
    ensures RowOf(b.reservations, b.reservations[k].job) == Some(k)
  {
  }

  /** The gate of begin, claim, complete and success passes exactly so. */
  lemma AdmittedDecided(b: Book, owner: string, id: string, now: int)
    requires Booked(b) && id in b.jobs
    ensures Admitted(b, owner, id, now) <==> Gate(b, owner, id, now)
  {
    var found := RowOf(b.reservations, id);
    forall k: nat | Reserves(b, owner, id, k) ensures found == Some(k) { RowIs(b, k); }
    if Admitted(b, owner, id, now) { assert Reserves(b, owner, id, found.value); }
  }

  // ---- create ---------------------------------------------------------------------------------------

  /** What `create` asks of every request. */
  predicate MayAsk(b: Book, grant: Grant, idem: string, spec: Spec, now: int) {
    && Accepting(b, grant.owner, now) && spec.limits.deadline <= b.accounts[grant.owner].policy.ends
    && spec.routeId in grant.routes && Identifier(idem) && (grant.owner, idem) !in b.tombstones
  }

  /** The key has been used for this snapshot, and the job can still be opened. */
  predicate Repeats(b: Book, owner: string, idem: string, spec: Spec, now: int) {
    && (owner, idem) in b.index && b.index[(owner, idem)] in b.jobs
    && b.index[(owner, idem)] in b.retain && now < b.retain[b.index[(owner, idem)]]
    && b.jobs[b.index[(owner, idem)]].head.spec == spec
  }

  /** The key is new, and the account has room for the job. */
  predicate HasRoom(b: Book, owner: string, idem: string, spec: Spec, expiry: int, newId: string, now: int) {
    && (owner, idem) !in b.index && newId !in b.jobs
    && now < spec.limits.deadline <= expiry <= 9007199254740991
    && WithinBudget(b, owner, spec.limits.tokenLimit, spec.limits.costLimit)
    && Slots(b.reservations, owner) < b.accounts[owner].policy.maximumJobs
  }

  /** The book with the new job, its index entry, its retention date and its reservation. */
  function Admitting(b: Book, owner: string, idem: string, spec: Spec, expiry: int, newId: string, now: int): Book
    requires owner in b.accounts
  {
    var head := Head(owner, idem, spec, Queued, None, 0, false, 0, 0, 1);
    var rows := seq(|spec.stages|, i => StageRow(Pending, None, None, None));
    b.(jobs := b.jobs[newId := Job(head, rows, [Event(1, JobCreated, None, now)], [])],
       index := b.index[(owner, idem) := newId],
       retain := b.retain[newId := expiry],
       reservations := b.reservations
         + [Reservation(newId, owner, idem, b.accounts[owner].policy.period, spec, spec.limits.tokenLimit,
                        spec.limits.costLimit, true, None)])
  }

  /**
   `create` answers exactly the requests that may ask and either repeat an earlier one, which
   changes nothing, or find room, which adds the job and its full reservation and nothing else.
   */
  lemma CreateDecided(b: Book, grant: Grant, idem: string, spec: Spec, expiry: int, newId: string, now: int)
    requires Consistent(b) && RowOf(b.reservations, newId).None?
    ensures var v := Create(b, grant, idem, spec, expiry, newId, now);
            var repeats := Repeats(b, grant.owner, idem, spec, now);
            && (v.Granted? <==>
                  && MayAsk(b, grant, idem, spec, now)
                  && (repeats || HasRoom(b, grant.owner, idem, spec, expiry, newId, now)))
            && (v.Granted? && repeats ==> v.book == b && v.value == b.index[(grant.owner, idem)])
            && (v.Granted? && !repeats ==>
                  v.value == newId && v.book == Admitting(b, grant.owner, idem, spec, expiry, newId, now))
  {
    if (grant.owner, idem) in b.index && b.index[(grant.owner, idem)] in b.jobs {
      KnownReserved(b, grant.owner, idem);
    }
    CreateCases(b, grant, idem, spec, expiry, newId, now);
  }

  lemma CreateCases(b: Book, grant: Grant, idem: string, spec: Spec, expiry: int, newId: string, now: int)
    requires RowOf(b.reservations, newId).None?
    requires (grant.owner, idem) in b.index && b.index[(grant.owner, idem)] in b.jobs ==>
               var k := RowOf(b.reservations, b.index[(grant.owner, idem)]);
               && k.Some? && b.reservations[k.value].owner == grant.owner
               && b.reservations[k.value].spec == b.jobs[b.index[(grant.owner, idem)]].head.spec
    ensures var v := Create(b, grant, idem, spec, expiry, newId, now);
            var repeats := Repeats(b, grant.owner, idem, spec, now);
            && (v.Granted? <==>
                  && MayAsk(b, grant, idem, spec, now)
                  && (repeats || HasRoom(b, grant.owner, idem, spec, expiry, newId, now)))
            && (v.Granted? && repeats ==> v.book == b && v.value == b.index[(grant.owner, idem)])
            && (v.Granted? && !repeats ==>
                  v.value == newId && v.book == Admitting(b, grant.owner, idem, spec, expiry, newId, now))
  {
    K.NewJobExact(grant.owner, idem, spec, now);
  }

  /** The job of a key has a reservation for its owner and its snapshot. */
  lemma KnownReserved(b: Book, owner: string, idem: string)
    requires Consistent(b) && (owner, idem) in b.index && b.index[(owner, idem)] in b.jobs
    ensures var id := b.index[(owner, idem)];
            var k := RowOf(b.reservations, id);
            k.Some? && b.reservations[k.value].owner == owner && b.reservations[k.value].spec == b.jobs[id].head.spec
  {
  }

  // ---- gated transactions ----------------------------------------------------------------------------

  predicate Opens(b: Book, owner: string, id: string, now: int) {
    id in b.jobs && b.jobs[id].head.owner == owner && id in b.retain && now < b.retain[id]
  }

  /** The slot of a job is free again: every reservation stays, but that of the job is not held. */
  predicate Frees(before: seq<Reservation>, after: seq<Reservation>, id: string) {
    && |after| == |before|
    && forall i :: 0 <= i < |before| ==>
         after[i] == if before[i].job == id then before[i].(held := false) else before[i]
  }

  /** Nothing of the job can still be at work: it ended without a runner, in success or before it started anything. */
  predicate AtRest(job: Job) {
    && job.head.runner == None && K.Over(job.head.state)
    && (job.head.state == Succeeded || job.head.tokensReserved == 0)
  }

  /** The transaction leaves `job`, and frees its slot exactly if it is at rest. */
  predicate Leaves(before: Book, after: Book, id: string, job: Job) {
    && after == before.(jobs := before.jobs[id := job], reservations := after.reservations)
    && (if AtRest(job) then Frees(before.reservations, after.reservations, id)
        else after.reservations == before.reservations)
  }

  lemma ReleaseLeaves(b: Book, owner: string, id: string, job: Job)
    requires Booked(b) && id in b.jobs && b.jobs[id].head.owner == job.head.owner == owner
    ensures Leaves(b, Released(b.(jobs := b.jobs[id := job]), owner, id), id, job)
  {
    var k := RowOf(b.reservations, id);
    forall i | 0 <= i < |b.reservations| && b.reservations[i].job == id ensures k == Some(i) { RowIs(b, i); }
  }

  /** `begin` needs the gate and the kernel; a job that turns out expired gives its slot back. */
  lemma BeginGated(b: Book, grant: Grant, id: string, token: string, now: int)
    requires Booked(b)
    ensures var v := Admission.Begin(b, grant, id, token, now);
            && (v.Granted? <==>
                  && Opens(b, grant.owner, id, now) && Gate(b, grant.owner, id, now)
                  && Journal.Begin(b.jobs[id], grant, token, now).Accept?)
            && (v.Granted? ==>
                  var reply := Journal.Begin(b.jobs[id], grant, token, now);
                  v.value == reply.value && Leaves(b, v.book, id, reply.job))
  {
    if id in b.jobs {
      AdmittedDecided(b, grant.owner, id, now);
      var reply := Journal.Begin(b.jobs[id], grant, token, now);
      if reply.Accept? && b.jobs[id].head.owner == grant.owner { ReleaseLeaves(b, grant.owner, id, reply.job); }
    }
  }

  lemma ClaimGated(b: Book, grant: Grant, id: string, fence: Fence, stageId: string, attempt: string, now: int)
    requires Booked(b) && Tables(b)
    ensures var v := Admission.Claim(b, grant, id, fence, stageId, attempt, now);
            && (v.Granted? <==>
                  && Opens(b, grant.owner, id, now) && Gate(b, grant.owner, id, now)
                  && Journal.Claim(b.jobs[id], grant, fence, stageId, attempt, now).Accept?)
            && (v.Granted? ==>
                  var reply := Journal.Claim(b.jobs[id], grant, fence, stageId, attempt, now);
                  v.value == reply.value && v.book == b.(jobs := b.jobs[id := reply.job]))
  {
    if id in b.jobs { AdmittedDecided(b, grant.owner, id, now); }
  }

  lemma CompleteGated(p: Platform, b: Book, owner: string, id: string, fence: Fence, stageId: string, attempt: string,
                      raw: RawResult, now: int)
    requires Booked(b) && Tables(b)
    ensures var v := Admission.Complete(p, b, owner, id, fence, stageId, attempt, raw, now);
            && (v.Granted? <==>
                  && Opens(b, owner, id, now) && Gate(b, owner, id, now)
                  && Journal.Complete(p, b.jobs[id], fence, stageId, attempt, raw, now).Accept?)
            && (v.Granted? ==>
                  var reply := Journal.Complete(p, b.jobs[id], fence, stageId, attempt, raw, now);
                  v.value == reply.value && v.book == b.(jobs := b.jobs[id := reply.job]))
  {
    if id in b.jobs { AdmittedDecided(b, owner, id, now); }
  }

  /** What an owner may always do: fail an attempt, publish, cancel and recover pass no account gate. */
  lemma UngatedDecided(p: Platform, b: Book, owner: string, grant: Grant, id: string, fence: Fence, stageId: string,
                       attempt: string, text: string, now: int)
    requires Booked(b) && Tables(b) && id in b.jobs && b.jobs[id].head.owner == owner == grant.owner
    ensures Admission.FailStage(b, owner, id, fence, stageId, attempt, now)
            == OnJob(b, id, Journal.FailStage(b.jobs[id], fence, stageId, attempt, now))
    ensures var v := Admission.Publish(p, b, grant, id, fence, stageId, attempt, text, now);
            && (v.Granted? <==> Opens(b, owner, id, now)
                                && Journal.Publish(p, b.jobs[id], grant, fence, stageId, attempt, text, now).Accept?)
            && (v.Granted? ==>
                  v.book == b.(jobs := b.jobs[id := Journal.Publish(p, b.jobs[id], grant, fence, stageId, attempt, text,
                                                                    now).job]))
    ensures var v := Admission.Recover(b, owner, id, fence, now);
            && (v.Granted? <==> Opens(b, owner, id, now) && Journal.Recover(b.jobs[id], fence, now).Accept?)
            && (v.Granted? ==> v.book == b.(jobs := b.jobs[id := Journal.Recover(b.jobs[id], fence, now).job]))
    ensures var v := Admission.RequestCancel(b, owner, id, now);
            v.Granted? && Leaves(b, v.book, id, Journal.RequestCancel(b.jobs[id], now).job)
  {
    ReleaseLeaves(b, owner, id, Journal.RequestCancel(b.jobs[id], now).job);
  }

  /** A stranger's transactions do nothing. */
  lemma StrangersRefused(p: Platform, b: Book, owner: string, grant: Grant, id: string, fence: Fence, stageId: string,
                         attempt: string, text: string, asked: JobState, now: int)
    requires Tables(b) && owner == grant.owner && (id in b.jobs ==> b.jobs[id].head.owner != owner)
    ensures Admission.FailStage(b, owner, id, fence, stageId, attempt, now).Denied?
    ensures Admission.Publish(p, b, grant, id, fence, stageId, attempt, text, now).Denied?
    ensures Admission.Recover(b, owner, id, fence, now).Denied? && Admission.RequestCancel(b, owner, id, now).Denied?
    ensures Admission.Finish(b, owner, id, fence, asked, now).Denied?
  {
  }

  /**
   `finish` asks the kernel for what the runner asked for, but never for a success that the
   gate does not admit; past the retention date it closes the job without opening it.
   */
  lemma FinishGated(b: Book, owner: string, id: string, fence: Fence, asked: JobState, now: int)
    requires Booked(b) && id in b.jobs && b.jobs[id].head.owner == owner
    ensures var v := Admission.Finish(b, owner, id, fence, asked, now);
            var opens := Opens(b, owner, id, now) || !(K.Over(asked) || asked == Paused);
            var wanted := if asked == Succeeded && !Gate(b, owner, id, now) then Failed else asked;
            var reply := if opens then Journal.Finish(b.jobs[id], fence, wanted, now)
                         else FinishUnreadable(b.jobs[id], fence, now, now);
            && (v.Granted? <==> reply.Accept? && (!opens ==> id in b.retain))
            && (v.Granted? ==> v.value == reply.value && Leaves(b, v.book, id, reply.job))
  {
    AdmittedDecided(b, owner, id, now);
    var reply := FinishReply(b, owner, id, fence, asked, now);
    if reply.Accept? { ReleaseLeaves(b, owner, id, reply.job); }
  }

  // ---- confirm_quiescence and delete_job ------------------------------------------------------------------

  predicate Rests(b: Book, owner: string, id: string) {
    && id in b.jobs && b.jobs[id].head.owner == owner
    && K.Over(b.jobs[id].head.state) && b.jobs[id].head.runner == None
  }

  /** An ended job's slot is freed under an approved receipt, always the same one. */
  lemma QuiescenceDecided(b: Book, owner: string, id: string, receipt: string, approved: bool, k: nat)
    requires Booked(b) && k < |b.reservations| && b.reservations[k].job == id
    ensures var v := ConfirmQuiescence(b, owner, id, receipt, approved);
            && (v.Granted? <==>
                  && approved && Identifier(receipt) && Rests(b, owner, id)
                  && (b.reservations[k].receipt == None || b.reservations[k].receipt == Some(receipt)))
            && (v.Granted? ==>
                  v.book == b.(reservations :=
                                 b.reservations[k := b.reservations[k].(held := false, receipt := Some(receipt))]))
  {
    RowIs(b, k);
  }

  /** A job goes only ended, with a free slot, and with a receipt if it started work without success. */
  lemma DeletionDecided(b: Book, owner: string, id: string, reason: Reason, receipt: Option<string>, allowed: bool,
                        now: int, k: nat)
    requires Booked(b) && k < |b.reservations| && b.reservations[k].job == id
    ensures var v := DeleteJob(b, owner, id, reason, receipt, allowed, now);
            && (v.Granted? <==>
                  && allowed && Rests(b, owner, id) && !b.reservations[k].held
                  && (reason == RetentionElapsed ==> !Opens(b, owner, id, now))
                  && (b.jobs[id].head.tokensReserved > 0 && b.jobs[id].head.state != Succeeded ==>
                        receipt.Some? && Identifier(receipt.value))
                  && (owner, b.jobs[id].head.idem) !in b.tombstones)
            && (v.Granted? ==>
                  && v.book.jobs == b.jobs - {id} && v.book.retain == b.retain - {id}
                  && v.book.index == b.index - {(owner, b.jobs[id].head.idem)}
                  && v.book.tombstones == b.tombstones + {(owner, b.jobs[id].head.idem)}
                  && v.book.accounts == b.accounts && v.book.reservations == b.reservations)
  {
    RowIs(b, k);
  }

  // ---- configure_account -------------------------------------------------------------------------------------

  predicate Positive(value: int) {
    1 <= value <= 9007199254740991
  }

  /** A policy with identifiers, positive numbers and a period that is not empty. */
  predicate Sensible(p: Policy) {
    && Identifier(p.owner) && Identifier(p.period) && Positive(p.starts) && Positive(p.ends)
    && Positive(p.tokenCap) && Positive(p.costCap) && Positive(p.maximumJobs) && p.starts < p.ends
  }

  /** The policy that a change replaces allows it: the same period with the same dates, or a later, unused one. */
  predicate Replaces(b: Book, current: Policy, p: Policy, now: int) {
    || (p.period == current.period && p.starts == current.starts && p.ends == current.ends)
    || (p.period != current.period && current.ends <= now && current.ends <= p.starts
        && forall i :: 0 <= i < |b.reservations| ==>
             b.reservations[i].owner != p.owner || b.reservations[i].period != p.period)
  }

  /** A configuration is taken exactly for the current revision, if it is sensible and covers what is reserved. */
  lemma ConfigurationDecided(b: Book, p: Policy, expected: nat, authorized: bool, now: int)
    ensures var v := Configure(b, p, expected, authorized, now);
            && (v.Granted? <==>
                  && authorized && Sensible(p) && now < p.ends
                  && expected == (if p.owner in b.accounts then b.accounts[p.owner].revision else 0)
                  && (p.owner in b.accounts ==> Replaces(b, b.accounts[p.owner].policy, p, now))
                  && Total(RESERVED_TOKENS, b.reservations, p.owner, p.period) <= p.tokenCap
                  && Total(RESERVED_COST, b.reservations, p.owner, p.period) <= p.costCap)
            && (v.Granted? ==>
                  && v.value == expected + 1
                  && v.book == b.(accounts := b.accounts[p.owner := Account(p, expected + 1)]))
  {
  }
}
