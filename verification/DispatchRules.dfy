/**
 When a dispatch transaction is accepted and what it leaves in the queue, row by row, in terms
 of the rows, the jobs and the account rules alone.
 */
module DispatchRules {
  import opened Basics
  import opened Contracts
  import opened Journal
  import opened Dispatch
  import A = Admission
  import R = AdmissionRules
  import K = Transactions

  /** The owner's job can be taken up and opened, and its account admits it. */
  ghost predicate MayRun(s: System, grant: Grant, id: string, now: int) {
    && R.Opens(s.book, grant.owner, id, now) && R.Gate(s.book, grant.owner, id, now)
    && s.book.jobs[id].head.spec.routeId in grant.routes && Idle(s.book.jobs[id])
  }

  predicate Idle(job: Job) {
    job.head.runner == None && (job.head.state == Queued || job.head.state == Paused)
  }

  // ---- enqueue ----------------------------------------------------------------------------------------

  /** A new row waits from now on; a waiting or held row of the same owner waits again, in its old place. */
  lemma EnqueueDecided(s: System, grant: Grant, id: string, now: int)
    requires R.Booked(s.book)
    ensures var r := Enqueue(s, grant, id, now);
            && (r.Agreed? <==>
                  && MayRun(s, grant, id, now)
                  && (id in s.queue ==>
                        s.queue[id].owner == grant.owner
                          && (s.queue[id].state == Waiting || s.queue[id].state == Held)))
            && (r.Agreed? ==>
                  && r.value == (id !in s.queue)
                  && r.system == System(s.book, s.queue[id :=
                       if id in s.queue then s.queue[id].(state := Waiting)
                       else DispatchRow(grant.owner, Waiting, now, 0, None, None, None, None)]))
  {
    if id in s.book.jobs { R.AdmittedDecided(s.book, grant.owner, id, now); }
  }

  // ---- claim_one -----------------------------------------------------------------------------------------

  /** The query order is total: first by the time of queueing, then by the job's identifier. */
  lemma QueryOrder(queue: Queue, a: string, b: string)
    requires a in queue && b in queue && a != b
    ensures queue[a].enqueued < queue[b].enqueued ==> Before(queue, a, b)
    ensures queue[a].enqueued == queue[b].enqueued ==> (Before(queue, a, b) <==> LexLess(a, b))
    ensures Before(queue, a, b) <==> !Before(queue, b, a)
  {
    LexTotal(a, b);
    if LexLess(a, b) { LexAsymmetric(a, b); }
    if LexLess(b, a) { LexAsymmetric(b, a); }
  }

  /** What the scan makes of a waiting row: it is done with an ended job, and takes one that may run. */
  lemma JudgeDecided(s: System, id: string, grants: string -> Option<Grant>, now: int)
    requires R.Booked(s.book) && id in s.queue && A.Owned(s.book, s.queue[id].owner, id)
    requires s.book.jobs[id].head.runner == None ==> Idle(s.book.jobs[id]) || K.Over(s.book.jobs[id].head.state)
    ensures var owner, grant := s.queue[id].owner, grants(s.queue[id].owner);
            && (Judge(s, id, grants, now) == Finish <==> K.Over(s.book.jobs[id].head.state))
            && (Judge(s, id, grants, now) == Take <==>
                  grant.Some? && grant.value.owner == owner && MayRun(s, grant.value, id, now))
  {
    R.AdmittedDecided(s.book, s.queue[id].owner, id, now);
  }

  /** The first rows of a scan: those of ended jobs are done, the others held; the rest of the queue stays. */
  ghost predicate Passed(s: System, next: System, ids: seq<string>, n: nat, grants: string -> Option<Grant>, now: int)
    requires n <= |ids| && Scannable(s, ids)
  {
    && next.book == s.book && next.queue.Keys == s.queue.Keys
    && (forall i :: 0 <= i < n ==>
          next.queue[ids[i]] ==
          s.queue[ids[i]].(state := if K.Over(s.book.jobs[ids[i]].head.state) then Done else Held))
    && (forall id :: id in s.queue && id !in ids[..n] ==> next.queue[id] == s.queue[id])
  }

  lemma JudgeSteady(s: System, t: System, id: string, grants: string -> Option<Grant>, now: int)
    requires id in s.queue && id in t.queue && A.Owned(s.book, s.queue[id].owner, id)
    requires t.book == s.book && t.queue[id] == s.queue[id]
    ensures Judge(t, id, grants, now) == Judge(s, id, grants, now)
  {
  }

  /** The scan would take row `i`. */
  predicate Takes(s: System, ids: seq<string>, i: nat, grants: string -> Option<Grant>, now: int)
    requires i < |ids| && Scannable(s, ids)
  {
    assert ids[i] in ids;
    Judge(s, ids[i], grants, now).Take?
  }

  /** The scan passed `n` rows, and took the next one if there is one. */
  ghost predicate Scanned(s: System, next: System, claim: Option<DispatchClaim>, ids: seq<string>, n: nat,
                          worker: string, grants: string -> Option<Grant>, token: string, now: int)
    requires n <= |ids| && Scannable(s, ids)
  {
    if n == |ids| then claim == None && Passed(s, next, ids, n, grants, now)
    else
      var id := ids[n];
      && id in ids && id in next.queue
      && claim == Some(DispatchClaim(id, s.queue[id].owner, worker, s.queue[id].generation + 1, token))
      && next.queue[id] == s.queue[id].(state := Claimed, worker := Some(worker), token := Some(token),
                                        generation := s.queue[id].generation + 1, runner := None)
      && Passed(s, next.(queue := next.queue[id := s.queue[id]]), ids, n, grants, now)
  }

  /** The scan passes rows in order until one may be taken, and then stops. */
  lemma {:induction false} ScanDecided(s: System, ids: seq<string>, worker: string, grants: string -> Option<Grant>,
                                       token: string, now: int, n: nat)
    requires Scannable(s, ids) && n <= |ids| && forall i, j :: 0 <= i < j < |ids| ==> ids[i] != ids[j]
    requires forall i :: 0 <= i < n ==> !Takes(s, ids, i, grants, now)
    requires n < |ids| ==> Takes(s, ids, n, grants, now)
    ensures var (next, claim) := Scan(s, ids, worker, grants, token, now);
            Scanned(s, next, claim, ids, n, worker, grants, token, now)
    decreases |ids|
  {
    if n > 0 {
      var id, rest := ids[0], ids[1..];
      assert id in ids && !Takes(s, ids, 0, grants, now);
      var t := Put(s, id, if K.Over(s.book.jobs[id].head.state) then Done else Held);
      forall i | 0 <= i < |rest| ensures Takes(t, rest, i, grants, now) == Takes(s, ids, i + 1, grants, now) {
        assert rest[i] == ids[i + 1] && rest[i] in ids;
        JudgeSteady(s, t, rest[i], grants, now);
      }
      ScanDecided(t, rest, worker, grants, token, now, n - 1);
      var (next, claim) := Scan(t, rest, worker, grants, token, now);
      assert Scan(s, ids, worker, grants, token, now) == (next, claim);
      ScannedOneMore(s, t, next, claim, ids, n, worker, grants, token, now);
    } else if ids != [] {
      assert ids[0] in ids;
      var (next, claim) := Scan(s, ids, worker, grants, token, now);
      assert next.queue[ids[0] := s.queue[ids[0]]] == s.queue;
    }
  }

  lemma ScannedOneMore(s: System, t: System, next: System, claim: Option<DispatchClaim>, ids: seq<string>, n: nat,
                       worker: string, grants: string -> Option<Grant>, token: string, now: int)
    requires 0 < n <= |ids| && Scannable(s, ids) && forall i, j :: 0 <= i < j < |ids| ==> ids[i] != ids[j]
    requires ids[0] in ids && t == Put(s, ids[0], if K.Over(s.book.jobs[ids[0]].head.state) then Done else Held)
    requires Scannable(t, ids[1..]) && Scanned(t, next, claim, ids[1..], n - 1, worker, grants, token, now)
    ensures Scanned(s, next, claim, ids, n, worker, grants, token, now)
  {
    if n == |ids| {
      PassedOneMore(s, t, next, ids, n, grants, now);
    } else {
      assert ids[1..][n - 1] == ids[n] && ids[n] in ids;
      PassedOneMore(s, t, next.(queue := next.queue[ids[n] := s.queue[ids[n]]]), ids, n, grants, now);
    }
  }

  lemma PassedOneMore(s: System, t: System, next: System, ids: seq<string>, n: nat, grants: string -> Option<Grant>,
                      now: int)
    requires 0 < n <= |ids| && Scannable(s, ids) && forall i, j :: 0 <= i < j < |ids| ==> ids[i] != ids[j]
    requires ids[0] in ids
    requires t == Put(s, ids[0], if K.Over(s.book.jobs[ids[0]].head.state) then Done else Held)
    requires Scannable(t, ids[1..]) && Passed(t, next, ids[1..], n - 1, grants, now)
    ensures Passed(s, next, ids, n, grants, now)
  {
    var rest := ids[1..];
    assert ids[..n] == [ids[0]] + rest[..n - 1];
    FirstPassed(s, t, next, ids, n);
    forall i | 0 <= i < n
      ensures next.queue[ids[i]] ==
              s.queue[ids[i]].(state := if K.Over(s.book.jobs[ids[i]].head.state) then Done else Held)
    {
      if i > 0 {
        assert rest[i - 1] == ids[i] && ids[i] in ids;
        assert next.queue[rest[i - 1]] ==
               t.queue[rest[i - 1]].(state := if K.Over(t.book.jobs[rest[i - 1]].head.state) then Done else Held);
      }
    }
  }

  lemma FirstPassed(s: System, t: System, next: System, ids: seq<string>, n: nat)
    requires 0 < n <= |ids| && forall i, j :: 0 <= i < j < |ids| ==> ids[i] != ids[j]
    requires ids[0] in s.queue && ids[0] in t.queue && ids[0] in next.queue
    requires ids[0] !in ids[1..][..n - 1] ==> next.queue[ids[0]] == t.queue[ids[0]]
    ensures next.queue[ids[0]] == t.queue[ids[0]]
  {
    var front := ids[1..][..n - 1];
    forall i | 0 <= i < |front| ensures front[i] != ids[0] {
      assert front[i] == ids[i + 1];
    }
  }

  /** A worker with an identifier that is allowed to may scan; what it gets is the outcome of the scan. */
  lemma ClaimOneDecided(s: System, ids: seq<string>, worker: string, allowed: bool, grants: string -> Option<Grant>,
                        token: string, now: int)
    ensures var r := ClaimOne(s, ids, worker, allowed, grants, token, now);
            && (r.Agreed? <==>
                  && allowed && Identifier(worker)
                  && forall id :: id in ids ==>
                       id in s.queue && id in s.book.jobs && s.book.jobs[id].head.owner == s.queue[id].owner)
            && (r.Agreed? ==> Scannable(s, ids) && (r.system, r.value) == Scan(s, ids, worker, grants, token, now))
  {
  }

  // ---- under a claim -----------------------------------------------------------------------------------------

  /** The claim is the current one of its row. */
  predicate Current(queue: Queue, claim: DispatchClaim) {
    && claim.job in queue && queue[claim.job].state == Claimed
    && queue[claim.job].owner == claim.owner && queue[claim.job].generation == claim.generation
    && queue[claim.job].worker == Some(claim.worker) && queue[claim.job].token == Some(claim.token)
  }

  /** A run begins for the job of the current claim only, through the account gate, and its fence is recorded. */
  lemma BeginDecided(s: System, claim: DispatchClaim, allowed: bool, grant: Grant, id: string, token: string, now: int)
    ensures var r := BeginClaimed(s, claim, allowed, grant, id, token, now);
            var v := A.Begin(s.book, grant, id, token, now);
            && (r.Agreed? <==>
                  && allowed && id == claim.job && grant.owner == claim.owner && Current(s.queue, claim) && v.Granted?)
            && (r.Agreed? ==>
                  && r.value == v.value && r.system.book == v.book
                  && r.system.queue == if v.value == None then s.queue
                                       else s.queue[id := s.queue[id].(runner := v.value)])
  {
  }

  /** The row after its claim was given back: nobody's, in the state that the job asks for. */
  function Released(row: DispatchRow, state: RowState): DispatchRow {
    DispatchRow(row.owner, state, row.enqueued, row.generation, None, None, None, row.receipt)
  }

  /** A claim is given back exactly for a job that no runner owns and that has ended or paused. */
  lemma AcknowledgementDecided(s: System, claim: DispatchClaim, allowed: bool)
    ensures var r := Acknowledge(s, claim, allowed);
            && (r.Agreed? <==>
                  && allowed && Current(s.queue, claim)
                  && claim.job in s.book.jobs && s.book.jobs[claim.job].head.owner == claim.owner
                  && s.book.jobs[claim.job].head.runner == None
                  && (K.Over(s.book.jobs[claim.job].head.state) || s.book.jobs[claim.job].head.state == Paused))
            && (r.Agreed? ==>
                  var state := s.book.jobs[claim.job].head.state;
                  r.system == System(s.book, s.queue[claim.job := Released(s.queue[claim.job],
                    if state == Paused then Waiting else if state == WaitingTools then Held else Done)]))
  {
  }

  /** What a stopped worker's row becomes, by the state of its job. */
  predicate RestsAs(state: JobState, row: RowState) {
    && (row == Waiting <==> state == Queued || state == Paused)
    && (row == Broken <==> state == Interrupted)
    && (row == Held <==> state == WaitingTools)
    && (row == Done <==> state !in {Queued, Paused, Interrupted, WaitingTools})
  }

  /**
   A stopped worker is recovered under its current claim: a runner that still owns the job is
   fenced off by the kernel, and the row starts a new generation without any owner.
   */
  lemma RecoveryExact(s: System, claim: DispatchClaim, receipt: string, stopped: bool, now: int)
    requires RecoverStopped(s, claim, receipt, stopped, now).Agreed?
    ensures stopped && Identifier(receipt) && Current(s.queue, claim)
    ensures claim.job in s.book.jobs && s.book.jobs[claim.job].head.owner == claim.owner
    ensures var r := RecoverStopped(s, claim, receipt, stopped, now);
            && FencedOff(s, claim, now, r.system.book)
            && claim.job in r.system.book.jobs && RestsAs(r.system.book.jobs[claim.job].head.state, r.value)
            && r.system.queue == s.queue[claim.job :=
                 Released(s.queue[claim.job], r.value).(generation := s.queue[claim.job].generation + 1,
                                                        receipt := Some(receipt))]
  {
    RunnerFencedOff(s, claim, now);
  }

  /** The kernel has recovered from the recorded runner if one still owned the job, and otherwise has not moved. */
  predicate FencedOff(s: System, claim: DispatchClaim, now: int, book: A.Book)
    requires claim.job in s.queue && claim.job in s.book.jobs
  {
    var head := s.book.jobs[claim.job].head;
    if head.runner == None then book == s.book
    else
      var fence := Fence(head.runner.value, head.epoch);
      var v := A.Recover(s.book, claim.owner, claim.job, fence, now);
      s.queue[claim.job].runner == Some(fence) && v.Granted? && book == v.book
  }

  lemma RunnerFencedOff(s: System, claim: DispatchClaim, now: int)
    requires claim.job in s.queue && claim.job in s.book.jobs && RecoverRunner(s, claim, now).Agreed?
    ensures var next := RecoverRunner(s, claim, now).system;
            FencedOff(s, claim, now, next.book) && next.queue == s.queue
  {
  }
}
