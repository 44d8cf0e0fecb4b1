/**
 The dispatch queue (execution/postgres_supervisor.py): a second fence, made of a worker,
 a token and a generation, around jobs whose kernel fence is the journal's.
 */
module Dispatch {
  import opened Basics
  import opened Contracts
  import opened Journal
  import A = Admission

  const SCAN_LIMIT: nat := 32

  datatype RowState = Waiting | Claimed | Held | Done | Broken

  /** `Waiting`, `Done` and `Broken` are the source's pending, finished and interrupted. */
  datatype DispatchRow = DispatchRow(
    owner: string,
    state: RowState,
    enqueued: int,
    generation: nat,
    worker: Option<string>,
    token: Option<string>,
    runner: Option<Fence>,
    receipt: Option<string>
  )

  datatype DispatchClaim = DispatchClaim(job: string, owner: string, worker: string, generation: nat, token: string)

  type Queue = map<string, DispatchRow>

  datatype System = System(book: A.Book, queue: Queue)

  datatype Fault = NotAllowed | FenceMismatch | Store(why: A.Refusal)

  datatype Result<+T> = Agreed(system: System, value: T) | Turned(fault: Fault)

  function Outcome<T>(s: System, r: Result<T>): System {
    if r.Agreed? then r.system else s
  }

  // ---- enqueue ------------------------------------------------------------------------------

  predicate Resumable(job: Job) {
    job.head.runner.None? && (job.head.state.Queued? || job.head.state.Paused?)
  }

  function Enqueue(s: System, grant: Grant, id: string, now: int): Result<bool> {
    if !A.Owned(s.book, grant.owner, id) then Turned(Store(A.Underlying(NotFound)))
    else
      var job := s.book.jobs[id];
      if !A.Retained(s.book, id, now) then Turned(Store(A.Unprotected))
      else if job.head.spec.routeId !in grant.routes then Turned(Store(A.Underlying(Blocked)))
      else if !Resumable(job) then Turned(NotAllowed)
      else if !A.Admitted(s.book, grant.owner, id, now) then Turned(Store(A.NotAdmitted))
      else if id in s.queue then
        var row := s.queue[id];
        if row.owner != grant.owner || !(row.state.Waiting? || row.state.Held?) then Turned(NotAllowed)
        else Agreed(s.(queue := s.queue[id := row.(state := Waiting)]), false)
      else Agreed(s.(queue := s.queue[id := DispatchRow(grant.owner, Waiting, now, 0, None, None, None, None)]), true)
  }

  // ---- claim_one ------------------------------------------------------------------------------

  /** ORDER BY enqueued_ms, job. */
  predicate Before(queue: Queue, a: string, b: string)
    requires a in queue && b in queue
  {
    queue[a].enqueued < queue[b].enqueued || (queue[a].enqueued == queue[b].enqueued && LexLess(a, b))
  }

  predicate IsWaiting(queue: Queue, id: string) {
    id in queue && queue[id].state.Waiting?
  }

  /** `ids` is the answer to the query for pending rows, in order, at most 32 of them. */
  ghost predicate Selected(queue: Queue, ids: seq<string>) {
    && |ids| <= SCAN_LIMIT
    && (forall i :: 0 <= i < |ids| ==> IsWaiting(queue, ids[i]))
    && (forall i, j :: 0 <= i < j < |ids| ==> Before(queue, ids[i], ids[j]))
    && (forall id :: IsWaiting(queue, id) && id !in ids ==>
          |ids| == SCAN_LIMIT && forall i :: 0 <= i < |ids| ==> Before(queue, ids[i], id))
  }

  datatype Disposition = Finish | Hold | Take

  /** What the scan does with a pending row. */
  function Judge(s: System, id: string, grants: string -> Option<Grant>, now: int): Disposition
    requires id in s.book.jobs && id in s.queue
  {
    var job, owner := s.book.jobs[id], s.queue[id].owner;
    var grant := grants(owner);
    if job.head.state.Terminal() then Finish
    else if job.head.runner.Some? then Hold
    else if grant.None? || grant.value.owner != owner then Hold
    else if !A.Retained(s.book, id, now) || job.head.spec.routeId !in grant.value.routes then Hold
    else if !A.Admitted(s.book, owner, id, now) then Hold
    else Take
  }

  function Put(s: System, id: string, state: RowState): System
    requires id in s.queue
  {
    s.(queue := s.queue[id := s.queue[id].(state := state)])
  }

  function TakeRow(row: DispatchRow, worker: string, token: string): DispatchRow {
    row.(state := Claimed, worker := Some(worker), token := Some(token), generation := row.generation + 1,
         runner := None)
  }

  function ClaimOf(id: string, row: DispatchRow, worker: string, token: string): DispatchClaim {
    DispatchClaim(id, row.owner, worker, row.generation + 1, token)
  }

  predicate Scannable(s: System, ids: seq<string>) {
    forall id | id in ids :: id in s.queue && A.Owned(s.book, s.queue[id].owner, id)
  }

  function Scan(s: System, ids: seq<string>, worker: string, grants: string -> Option<Grant>, token: string, now: int)
    : (System, Option<DispatchClaim>)
    requires Scannable(s, ids)
    decreases |ids|
  {
    if ids == [] then (s, None)
    else
      var id, rest := ids[0], ids[1..];
      match Judge(s, id, grants, now)
      case Finish => Scan(Put(s, id, Done), rest, worker, grants, token, now)
      case Hold => Scan(Put(s, id, Held), rest, worker, grants, token, now)
      case Take =>
        (s.(queue := s.queue[id := TakeRow(s.queue[id], worker, token)]), Some(ClaimOf(id, s.queue[id], worker, token)))
  }

  function ClaimOne(s: System, ids: seq<string>, worker: string, allowed: bool, grants: string -> Option<Grant>,
                    token: string, now: int): Result<Option<DispatchClaim>>
  {
    if !allowed || !Identifier(worker) then Turned(NotAllowed)
    else if !Scannable(s, ids) then Turned(Store(A.Underlying(NotFound)))
    else
      var (next, claim) := Scan(s, ids, worker, grants, token, now);
      Agreed(next, claim)
  }

  // ---- under a claim ------------------------------------------------------------------------------

  predicate Matches(queue: Queue, claim: DispatchClaim) {
    && claim.job in queue
    && var row := queue[claim.job];
       && row.owner == claim.owner && row.state.Claimed?
       && row.token == Some(claim.token) && row.worker == Some(claim.worker) && row.generation == claim.generation
  }

  /** `_DispatchStore.begin`: the kernel fence is recorded next to the claim. */
  function BeginClaimed(s: System, claim: DispatchClaim, allowed: bool, grant: Grant, id: string, token: string,
                        now: int)
    : Result<Option<Fence>>
  {
    if id != claim.job || grant.owner != claim.owner || !allowed || !Matches(s.queue, claim) then Turned(NotAllowed)
    else
      match A.Begin(s.book, grant, id, token, now)
      case Denied(why) => Turned(Store(why))
      case Granted(book, fence) =>
        var row := s.queue[id];
        Agreed(System(book, if fence.Some? then s.queue[id := row.(runner := fence)] else s.queue), fence)
  }

  function Rested(row: DispatchRow, state: RowState): DispatchRow {
    row.(state := state, token := None, worker := None, runner := None)
  }

  function Acknowledge(s: System, claim: DispatchClaim, allowed: bool): Result<()> {
    if !allowed || !Matches(s.queue, claim) then Turned(NotAllowed)
    else if !A.Owned(s.book, claim.owner, claim.job) then Turned(Store(A.Underlying(NotFound)))
    else
      var head := s.book.jobs[claim.job].head;
      if head.runner.Some? || !(head.state.Terminal() || head.state.Paused?) then Turned(NotAllowed)
      else
        var state := if head.state.Paused? then Waiting else if head.state.WaitingTools? then Held else Done;
        Agreed(s.(queue := s.queue[claim.job := Rested(s.queue[claim.job], state)]), ())
  }

  function StateAfterRecovery(head: Head): RowState {
    if head.state.Queued? || head.state.Paused? then Waiting
    else if head.state.Interrupted? then Broken
    else if head.state.WaitingTools? then Held
    else Done
  }

  /** The kernel half of `recover_stopped_worker`. */
  function RecoverRunner(s: System, claim: DispatchClaim, now: int): Result<()>
    requires claim.job in s.queue && claim.job in s.book.jobs
  {
    var head := s.book.jobs[claim.job].head;
    if head.runner.None? then Agreed(s, ())
    else if s.queue[claim.job].runner != Some(Fence(head.runner.value, head.epoch)) then Turned(FenceMismatch)
    else
      match A.Recover(s.book, claim.owner, claim.job, Fence(head.runner.value, head.epoch), now)
      case Denied(why) => Turned(Store(why))
      case Granted(book, _) => Agreed(s.(book := book), ())
  }

  function RecoverStopped(s: System, claim: DispatchClaim, receipt: string, stopped: bool, now: int): Result<RowState> {
    if !Identifier(receipt) || !stopped || !Matches(s.queue, claim) then Turned(NotAllowed)
    else if !A.Owned(s.book, claim.owner, claim.job) then Turned(Store(A.Underlying(NotFound)))
    else
      match RecoverRunner(s, claim, now)
      case Turned(fault) => Turned(fault)
      case Agreed(next, _) =>
        if claim.job !in next.book.jobs then Turned(Store(A.Underlying(NotFound)))
        else
          var state := StateAfterRecovery(next.book.jobs[claim.job].head);
          var row := Rested(s.queue[claim.job], state).(generation := s.queue[claim.job].generation + 1,
                                                        receipt := Some(receipt));
          Agreed(next.(queue := s.queue[claim.job := row]), state)
  }

  // ---- runs ----------------------------------------------------------------------------------------

  datatype Step =
    | DoStore(step: A.Step)
    | DoEnqueue(grant: Grant, id: string, now: int)
    | DoClaimOne(ids: seq<string>, worker: string, allowed: bool, grants: string -> Option<Grant>, secret: string,
                 now: int)
    | DoDispatchBegin(claim: DispatchClaim, allowed: bool, grant: Grant, id: string, secret: string, now: int)
    | DoAcknowledge(claim: DispatchClaim, allowed: bool)
    | DoRecoverStopped(claim: DispatchClaim, receipt: string, stopped: bool, now: int)

  /** Deleting a job deletes its dispatch row. */
  function Cascade(book: A.Book, queue: Queue): Queue {
    map id | id in queue && id in book.jobs :: queue[id]
  }

  function Perform(p: Platform, s: System, step: Step): System
    requires A.Tables(s.book)
  {
    match step
    case DoStore(inner) =>
      var book := A.Perform(p, s.book, inner);
      System(book, Cascade(book, s.queue))
    case DoEnqueue(grant, id, now) => Outcome(s, Enqueue(s, grant, id, now))
    case DoClaimOne(ids, worker, allowed, grants, token, now) =>
      Outcome(s, ClaimOne(s, ids, worker, allowed, grants, token, now))
    case DoDispatchBegin(claim, allowed, grant, id, token, now) =>
      Outcome(s, BeginClaimed(s, claim, allowed, grant, id, token, now))
    case DoAcknowledge(claim, allowed) => Outcome(s, Acknowledge(s, claim, allowed))
    case DoRecoverStopped(claim, receipt, stopped, now) => Outcome(s, RecoverStopped(s, claim, receipt, stopped, now))
  }

  /** Every begin goes through the dispatcher; queries answer truthfully. */
  ghost predicate Legal(s: System, step: Step) {
    && (step.DoStore? ==>
          A.Legal(s.book, step.step) && !(step.step.DoTransact? && step.step.step.DoBegin?))
    && (step.DoClaimOne? ==> Selected(s.queue, step.ids))
    && (step.DoDispatchBegin? ==> step.secret != "")
  }
}
