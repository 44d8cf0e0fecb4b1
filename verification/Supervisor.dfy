/**
 The supervisor as the source has it: dispatch rows updated in place next to the account
 store (execution/postgres_supervisor.py).  Every method is proved to change the system as
 the function of the same name in `Dispatch` says.
 */
module Supervisor {
  import opened Basics
  import opened Contracts
  import opened Journal
  import T = AccountStore
  import A = Admission
  import D = Dispatch

  datatype Reply<+V> = Yielded(value: V) | Turned(fault: D.Fault)

  ghost predicate Committed<V(!new)>(before: D.System, result: D.Result<V>, after: D.System, reply: Reply<V>) {
    match result
    case Agreed(system, value) => after == system && reply == Yielded(value)
    case Turned(fault) => after == before && reply == Turned(fault)
  }

  class PostgresSupervisor {
    const store: T.AccountPostgresStore
    var queue: D.Queue

    ghost predicate Valid()
      reads this, store, store.journal
    {
      store.Valid()
    }

    function State(): D.System
      reads this, store, store.journal
    {
      D.System(store.Database(), queue)
    }

    constructor (store: T.AccountPostgresStore)
      requires store.Valid()
      ensures Valid() && this.store == store && queue == map[]
    {
      this.store := store;
      queue := map[];
    }

    method SetRow(id: string, row: D.DispatchRow)
      requires Valid()
      modifies this
      ensures Valid() && State() == old(State()).(queue := old(queue)[id := row])
    {
      queue := queue[id := row];
    }

    method Enqueue(grant: Grant, id: string, now: int) returns (r: Reply<bool>)
      requires Valid()
      modifies this
      ensures Valid()
      ensures Committed(old(State()), D.Enqueue(old(State()), grant, id, now), State(), r)
    {
      if !store.journal.Owned(grant.owner, id) { return Turned(D.Store(A.Underlying(NotFound))); }
      var head := store.journal.jobs[id].head;
      if !A.Retained(store.Database(), id, now) { return Turned(D.Store(A.Unprotected)); }
      if head.spec.routeId !in grant.routes { return Turned(D.Store(A.Underlying(Blocked))); }
      if head.runner.Some? || !(head.state.Queued? || head.state.Paused?) { return Turned(D.NotAllowed); }
      var refusal := store.CheckJobAdmission(grant.owner, id, now);
      if refusal.Some? { return Turned(D.Store(refusal.value)); }
      if id in queue {
        var row := queue[id];
        if row.owner != grant.owner || !(row.state.Waiting? || row.state.Held?) { return Turned(D.NotAllowed); }
        SetRow(id, row.(state := D.Waiting));
        return Yielded(false);
      }
      SetRow(id, D.DispatchRow(grant.owner, D.Waiting, now, 0, None, None, None, None));
      return Yielded(true);
    }

    /** What the scan does with one row: finish it, hold it, or take it. */
    method Inspect(id: string, grants: string -> Option<Grant>, now: int) returns (d: D.Disposition)
      requires Valid() && id in queue && A.Owned(store.Database(), queue[id].owner, id)
      ensures d == D.Judge(State(), id, grants, now)
    {
      var head, owner := store.journal.jobs[id].head, queue[id].owner;
      if head.state.Terminal() { return D.Finish; }
      if head.runner.Some? { return D.Hold; }
      var grant := grants(owner);
      if grant.None? || grant.value.owner != owner { return D.Hold; }
      if !A.Retained(store.Database(), id, now) || head.spec.routeId !in grant.value.routes { return D.Hold; }
      var refusal := store.CheckJobAdmission(owner, id, now);
      return if refusal.Some? then D.Hold else D.Take;
    }

    /** `ids` is what the ordered, limited query for pending rows returned. */
    method ClaimOne(ids: seq<string>, worker: string, allowed: bool, grants: string -> Option<Grant>, token: string,
                    now: int)
      returns (r: Reply<Option<D.DispatchClaim>>)
      requires Valid() && D.Selected(queue, ids) && D.Scannable(State(), ids)
      modifies this
      ensures Valid()
      ensures Committed(old(State()), D.ClaimOne(old(State()), ids, worker, allowed, grants, token, now), State(), r)
    {
      if !allowed || !Identifier(worker) { return Turned(D.NotAllowed); }
      ghost var expected := D.Scan(State(), ids, worker, grants, token, now);
      for i := 0 to |ids|
        invariant Valid() && store.Database() == old(store.Database())
        invariant D.Scannable(State(), ids[i..])
        invariant D.Scan(State(), ids[i..], worker, grants, token, now) == expected
      {
        var id := ids[i];
        assert ids[i..][0] == id && ids[i..][1..] == ids[i + 1..];
        var row := queue[id];
        var judgement := Inspect(id, grants, now);
        match judgement
        case Finish => SetRow(id, row.(state := D.Done));
        case Hold => SetRow(id, row.(state := D.Held));
        case Take =>
          SetRow(id, D.TakeRow(row, worker, token));
          return Yielded(Some(D.ClaimOf(id, row, worker, token)));
      }
      return Yielded(None);
    }

    /** `_check_claim`. */
    predicate Current(claim: D.DispatchClaim, allowed: bool)
      reads this
    {
      allowed && D.Matches(queue, claim)
    }

    /** `_DispatchStore.begin`. */
    method Begin(claim: D.DispatchClaim, allowed: bool, grant: Grant, id: string, token: string, now: int)
      returns (r: Reply<Option<Fence>>)
      requires Valid()
      modifies this, store`reservations, store.journal
      ensures Valid()
      ensures Committed(old(State()), D.BeginClaimed(old(State()), claim, allowed, grant, id, token, now), State(), r)
    {
      if id != claim.job || grant.owner != claim.owner || !Current(claim, allowed) { return Turned(D.NotAllowed); }
      var response := store.Begin(grant, id, token, now);
      if response.Refused? { return Turned(D.Store(response.why)); }
      if response.value.Some? {
        SetRow(id, queue[id].(runner := response.value));
      }
      return Yielded(response.value);
    }

    method Acknowledge(claim: D.DispatchClaim, allowed: bool) returns (r: Reply<()>)
      requires Valid()
      modifies this
      ensures Valid()
      ensures Committed(old(State()), D.Acknowledge(old(State()), claim, allowed), State(), r)
    {
      if !Current(claim, allowed) { return Turned(D.NotAllowed); }
      if !store.journal.Owned(claim.owner, claim.job) { return Turned(D.Store(A.Underlying(NotFound))); }
      var head := store.journal.jobs[claim.job].head;
      if head.runner.Some? { return Turned(D.NotAllowed); }
      if !head.state.Terminal() && !head.state.Paused? { return Turned(D.NotAllowed); }
      var state := D.Done;
      if head.state.Paused? { state := D.Waiting; } else if head.state.WaitingTools? { state := D.Held; }
      SetRow(claim.job, queue[claim.job].(state := state, token := None, worker := None, runner := None));
      return Yielded(());
    }

    method RecoverStoppedWorker(claim: D.DispatchClaim, receipt: string, stopped: bool, now: int)
      returns (r: Reply<D.RowState>)
      requires Valid()
      modifies this, store.journal
      ensures Valid()
      ensures Committed(old(State()), D.RecoverStopped(old(State()), claim, receipt, stopped, now), State(), r)
    {
      if !Identifier(receipt) || !stopped || !D.Matches(queue, claim) { return Turned(D.NotAllowed); }
      if !store.journal.Owned(claim.owner, claim.job) { return Turned(D.Store(A.Underlying(NotFound))); }
      var row, head := queue[claim.job], store.journal.jobs[claim.job].head;
      if head.runner.Some? {
        var fence := Fence(head.runner.value, head.epoch);
        if row.runner != Some(fence) { return Turned(D.FenceMismatch); }
        var response := store.RecoverAbandoned(claim.owner, claim.job, fence, now);
        if response.Refused? { return Turned(D.Store(response.why)); }
      }
      var state := D.StateAfterRecovery(store.journal.jobs[claim.job].head);
      SetRow(claim.job, row.(state := state, token := None, worker := None, runner := None,
                             generation := row.generation + 1, receipt := Some(receipt)));
      return Yielded(state);
    }
  }
}
