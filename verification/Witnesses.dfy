/**
 Concrete runs behind the conditions that some promises turned out to need: an account
 whose maximum is lowered below its slots, and a crashed worker whose job can no longer
 be recovered.
 */
module Witnesses {
  import opened Basics
  import opened Contracts
  import opened Journal
  import A = Admission
  import S = AdmissionSafety
  import L = SlotLimits
  import X = Stranding
  import D = Dispatch
  import E = DispatchSafety
  import G = DispatchGuarantees
  import C = Custody
  import opened JournalInvariants
  import opened JobStore
  import opened StageThreads
  import opened Runner

  const OWNER := "owner"
  const GRANT: Grant := Grant(OWNER, {"ultra"})
  const EXPIRY: int := 1500

  function PolicyFor(maximum: int): A.Policy {
    A.Policy(OWNER, "period", 1, 2000, 100, 100, maximum, true)
  }

  function FirstAccount(maximum: int): A.Book {
    A.EMPTY.(accounts := map[OWNER := A.Account(PolicyFor(maximum), 1)])
  }

  function WithJob(b: A.Book, maximum: int, idem: string, id: string): A.Book {
    var row := A.Reserve(OWNER, PolicyFor(maximum), idem, X.DEBATE_LAST, id);
    A.Inserted(b, OWNER, idem, X.DEBATE_LAST, EXPIRY, id, 1).(reservations := b.reservations + [row])
  }

  lemma Configured(maximum: int)
    requires 1 <= maximum <= 5
    ensures A.Configure(A.EMPTY, PolicyFor(maximum), 0, true, 1) == A.Granted(FirstAccount(maximum), 1)
  {
    assert A.ValidPolicy(PolicyFor(maximum));
  }

  /** What `create` asks of an account with this policy. */
  predicate Creatable(b: A.Book, policy: A.Policy, idem: string, id: string) {
    && OWNER in b.accounts && b.accounts[OWNER].policy == policy && A.Open(policy, 1) && 1000 <= policy.ends
    && Identifier(idem) && (OWNER, idem) !in b.tombstones && (OWNER, idem) !in b.index && id !in b.jobs
    && A.RowOf(b.reservations, id).None? && A.Fits(b.reservations, OWNER, policy, X.DEBATE_LAST.limits)
  }

  lemma Created(b: A.Book, maximum: int, idem: string, id: string)
    requires Creatable(b, PolicyFor(maximum), idem, id)
    ensures A.Create(b, GRANT, idem, X.DEBATE_LAST, EXPIRY, id, 1) == A.Granted(WithJob(b, maximum, idem, id), id)
  {
  }

  lemma FirstCreatable(maximum: int)
    requires 1 <= maximum <= 5
    ensures Creatable(FirstAccount(maximum), PolicyFor(maximum), "first", "job-1")
  {
    assert Identifier("first");
  }

  lemma OneRow(row: A.Reservation)
    ensures A.Slots([row], row.owner) == if row.held then 1 else 0
    ensures A.Total(A.RESERVED_TOKENS, [row], row.owner, row.period) == row.tokens
    ensures A.Total(A.RESERVED_COST, [row], row.owner, row.period) == row.cost
    ensures forall id :: id != row.job ==> A.RowOf([row], id).None?
  {
    assert [row][..0] == [];
  }

  lemma SecondCreatable()
    ensures Creatable(WithJob(FirstAccount(2), 2, "first", "job-1"), PolicyFor(2), "second", "job-2")
  {
    var row := A.Reserve(OWNER, PolicyFor(2), "first", X.DEBATE_LAST, "job-1");
    assert Identifier("second");
    assert "job-1"[4] != "job-2"[4];
    assert "first"[0] != "second"[0];
    OneRow(row);
    assert WithJob(FirstAccount(2), 2, "first", "job-1").reservations == [row];
  }

  /** Both jobs admitted, the maximum then lowered to one. */
  function Lowered(): A.Book {
    var b := WithJob(WithJob(FirstAccount(2), 2, "first", "job-1"), 2, "second", "job-2");
    b.(accounts := b.accounts[OWNER := A.Account(PolicyFor(1), 2)])
  }

  lemma TwoSlots()
    ensures A.Slots(Lowered().reservations, OWNER) == 2
    ensures A.Total(A.RESERVED_TOKENS, Lowered().reservations, OWNER, "period") == 8
    ensures A.Total(A.RESERVED_COST, Lowered().reservations, OWNER, "period") == 4
  {
    var rows := Lowered().reservations;
    assert rows[..1][..0] == [] && |rows| == 2;
  }

  lemma MaximumLowered()
    ensures var b := WithJob(WithJob(FirstAccount(2), 2, "first", "job-1"), 2, "second", "job-2");
            A.Configure(b, PolicyFor(1), 1, true, 2) == A.Granted(Lowered(), 2)
  {
    assert A.ValidPolicy(PolicyFor(1));
    TwoSlots();
  }

  /** One step in front of a run. */
  lemma StepThen(p: Platform, b: A.Book, step: A.Step, next: A.Book, rest: seq<A.Step>)
    requires S.Consistent(b) && A.Tables(b) && A.Legal(b, step) && A.Perform(p, b, step) == next
    ensures S.Consistent(next) && A.Tables(next)
    ensures S.Lawful(p, next, rest) ==>
              S.Lawful(p, b, [step] + rest) && S.PerformAll(p, b, [step] + rest) == S.PerformAll(p, next, rest)
  {
    S.StepKeepsConsistent(p, b, step);
    assert ([step] + rest)[1..] == rest;
  }

  ghost predicate Moves(p: Platform, b: A.Book, step: A.Step, next: A.Book) {
    A.Legal(b, step) && (A.Tables(b) ==> A.Perform(p, b, step) == next)
  }

  /** A run of the steps from `b[i]` on, when each of them leads to the next book. */
  lemma {:induction false} BookSteps(p: Platform, b: seq<A.Book>, steps: seq<A.Step>, i: nat)
    requires |b| == |steps| + 1 && i <= |steps| && S.Consistent(b[i]) && A.Tables(b[i])
    requires forall j :: 0 <= j < |steps| ==> Moves(p, b[j], steps[j], b[j + 1])
    ensures S.Lawful(p, b[i], steps[i..]) && S.PerformAll(p, b[i], steps[i..]) == b[|steps|]
    decreases |steps| - i
  {
    if i < |steps| {
      assert Moves(p, b[i], steps[i], b[i + 1]);
      StepThen(p, b[i], steps[i], b[i + 1], steps[i + 1..]);
      BookSteps(p, b, steps, i + 1);
      assert [steps[i]] + steps[i + 1..] == steps[i..];
    } else {
      assert steps[i..] == [];
    }
  }

  const LOWERING: A.Step := A.DoConfigure(PolicyFor(1), 1, true, 2)

  function Create(idem: string, id: string): A.Step {
    A.DoCreate(GRANT, idem, X.DEBATE_LAST, EXPIRY, id, 1)
  }

  const LOWERING_RUN: seq<A.Step> :=
    [A.DoConfigure(PolicyFor(2), 0, true, 1), Create("first", "job-1"), Create("second", "job-2"), LOWERING]

  lemma ConfigureMoves(p: Platform, b: A.Book, maximum: int, expected: nat, now: int, next: A.Book)
    requires A.Configure(b, PolicyFor(maximum), expected, true, now) == A.Granted(next, expected + 1)
    ensures Moves(p, b, A.DoConfigure(PolicyFor(maximum), expected, true, now), next)
  {
  }

  lemma CreateMoves(p: Platform, b: A.Book, maximum: int, idem: string, id: string)
    requires Creatable(b, PolicyFor(maximum), idem, id)
    ensures Moves(p, b, Create(idem, id), WithJob(b, maximum, idem, id))
  {
    X.DebateLastAccepted();
    Created(b, maximum, idem, id);
  }

  lemma LoweringMoves(p: Platform, b1: A.Book, b2: A.Book, b3: A.Book)
    requires b1 == FirstAccount(2) && b2 == WithJob(b1, 2, "first", "job-1") && b3 == WithJob(b2, 2, "second", "job-2")
    ensures Moves(p, A.EMPTY, LOWERING_RUN[0], b1) && Moves(p, b1, LOWERING_RUN[1], b2)
    ensures Moves(p, b2, LOWERING_RUN[2], b3) && Moves(p, b3, LOWERING_RUN[3], Lowered())
  {
    Configured(2);
    ConfigureMoves(p, A.EMPTY, 2, 0, 1, b1);
    FirstCreatable(2);
    CreateMoves(p, b1, 2, "first", "job-1");
    SecondCreatable();
    CreateMoves(p, b2, 2, "second", "job-2");
    MaximumLowered();
    ConfigureMoves(p, b3, 1, 1, 2, Lowered());
  }

  lemma LoweringRun(p: Platform, b1: A.Book, b2: A.Book, b3: A.Book)
    requires b1 == FirstAccount(2) && b2 == WithJob(b1, 2, "first", "job-1") && b3 == WithJob(b2, 2, "second", "job-2")
    ensures S.Consistent(A.EMPTY) && A.Tables(A.EMPTY)
    ensures S.Lawful(p, A.EMPTY, LOWERING_RUN) && S.PerformAll(p, A.EMPTY, LOWERING_RUN) == Lowered()
  {
    S.EmptyConsistent();
    LoweringMoves(p, b1, b2, b3);
    RunOf(p, A.EMPTY, [b1, b2, b3, Lowered()], LOWERING_RUN);
  }

  lemma RunOf(p: Platform, b: A.Book, later: seq<A.Book>, steps: seq<A.Step>)
    requires |later| == |steps| == 4 && S.Consistent(b) && A.Tables(b)
    requires Moves(p, b, steps[0], later[0]) && Moves(p, later[0], steps[1], later[1])
    requires Moves(p, later[1], steps[2], later[2]) && Moves(p, later[2], steps[3], later[3])
    ensures S.Lawful(p, b, steps) && S.PerformAll(p, b, steps) == later[3]
  {
    BookSteps(p, [b] + later, steps, 0);
    assert steps[0..] == steps;
  }

  /** A legal run after which an account holds two slots under a maximum of one. */
  lemma SlotsAboveMaximum(p: Platform)
    ensures S.LawfulFromEmpty(p, LOWERING_RUN)
    ensures var b := S.FromEmpty(p, LOWERING_RUN);
            OWNER in b.accounts && b.accounts[OWNER].policy.maximumJobs == 1 && A.Slots(b.reservations, OWNER) == 2
    ensures S.Consistent(A.EMPTY) && A.Tables(A.EMPTY) && !L.AlwaysWithin(p, A.EMPTY, LOWERING_RUN, OWNER)
  {
    var b1 := FirstAccount(2);
    var b2 := WithJob(b1, 2, "first", "job-1");
    LoweringRun(p, b1, b2, WithJob(b2, 2, "second", "job-2"));
    TwoSlots();
    if L.AlwaysWithin(p, A.EMPTY, LOWERING_RUN, OWNER) {
      L.AlwaysWithinEnds(p, A.EMPTY, LOWERING_RUN, OWNER);
      assert false;
    }
  }

  // ---- a crashed worker ----------------------------------------------------------------------

  const GRANTS: string -> Option<Grant> := (owner: string) => if owner == OWNER then Some(GRANT) else None
  const JOB := "job-1"
  const CLAIM: D.DispatchClaim := D.DispatchClaim(JOB, OWNER, "worker", 1, "token")
  const FENCE: Fence := Fence("runner", 1)

  const CRASH_RUN: seq<D.Step> := [
    D.DoStore(A.DoConfigure(PolicyFor(1), 0, true, 1)), D.DoStore(Create("first", JOB)), D.DoEnqueue(GRANT, JOB, 1),
    D.DoClaimOne([JOB], "worker", true, GRANTS, "token", 1), D.DoDispatchBegin(CLAIM, true, GRANT, JOB, "runner", 1)]

  const WAITING_ROW: D.DispatchRow := D.DispatchRow(OWNER, D.Waiting, 1, 0, None, None, None, None)
  const CLAIMED_ROW: D.DispatchRow := D.TakeRow(WAITING_ROW, "worker", "token")

  function Begun(b: A.Book): A.Book
    requires JOB in b.jobs
  {
    b.(jobs := b.jobs[JOB := After(b.jobs[JOB], Begin(b.jobs[JOB], GRANT, "runner", 1))])
  }

  /** A job that may be dispatched at time 1. */
  predicate Ready(b: A.Book) {
    && A.Owned(b, OWNER, JOB) && A.Admitted(b, OWNER, JOB, 1) && A.Retained(b, JOB, 1) && b.retain[JOB] == EXPIRY
    && D.Resumable(b.jobs[JOB]) && b.jobs[JOB].head.epoch == 0
    && b.jobs[JOB].head.spec.routeId == "ultra" && 1 < b.jobs[JOB].head.spec.limits.deadline
  }

  lemma AdmittedReady()
    ensures Ready(WithJob(FirstAccount(1), 1, "first", JOB))
  {
    var row := A.Reserve(OWNER, PolicyFor(1), "first", X.DEBATE_LAST, JOB);
    var b := WithJob(FirstAccount(1), 1, "first", JOB);
    OneRow(row);
    assert b.reservations == [row];
    assert A.RowOf([row], JOB) == Some(0);
  }

  lemma EnqueuedStep(p: Platform, b: A.Book)
    requires Ready(b) && A.Tables(b)
    ensures D.Perform(p, D.System(b, map[]), CRASH_RUN[2]) == D.System(b, map[JOB := WAITING_ROW])
  {
  }

  lemma ClaimedStep(p: Platform, b: A.Book)
    requires Ready(b) && A.Tables(b)
    ensures D.Legal(D.System(b, map[JOB := WAITING_ROW]), CRASH_RUN[3])
    ensures D.Perform(p, D.System(b, map[JOB := WAITING_ROW]), CRASH_RUN[3]) == D.System(b, map[JOB := CLAIMED_ROW])
  {
    assert Identifier("worker");
    assert [JOB][0] == JOB;
    assert D.Judge(D.System(b, map[JOB := WAITING_ROW]), JOB, GRANTS, 1).Take?;
  }

  lemma BegunStep(p: Platform, b: A.Book)
    requires Ready(b) && A.Tables(b)
    ensures D.Perform(p, D.System(b, map[JOB := CLAIMED_ROW]), CRASH_RUN[4])
            == D.System(Begun(b), map[JOB := CLAIMED_ROW.(runner := Some(FENCE))])
  {
  }

  lemma SystemStepThen(p: Platform, s: D.System, step: D.Step, next: D.System, rest: seq<D.Step>)
    requires E.Linked(s) && D.Legal(s, step) && D.Perform(p, s, step) == next
    ensures E.Linked(next)
    ensures G.Lawful(p, next, rest) ==>
              G.Lawful(p, s, [step] + rest) && G.PerformAll(p, s, [step] + rest) == G.PerformAll(p, next, rest)
  {
    E.StepKeepsLinked(p, s, step);
    assert ([step] + rest)[1..] == rest;
  }

  /** A run of the steps from `s[i]` on, when each of them leads to the next system. */
  lemma {:induction false} SystemSteps(p: Platform, s: seq<D.System>, steps: seq<D.Step>, i: nat)
    requires |s| == |steps| + 1 && i <= |steps| && E.Linked(s[i])
    requires forall j :: 0 <= j < |steps| ==> Leads(p, s[j], steps[j], s[j + 1])
    ensures G.Lawful(p, s[i], steps[i..]) && G.PerformAll(p, s[i], steps[i..]) == s[|steps|]
    decreases |steps| - i
  {
    if i < |steps| {
      assert Leads(p, s[i], steps[i], s[i + 1]);
      SystemStepThen(p, s[i], steps[i], s[i + 1], steps[i + 1..]);
      SystemSteps(p, s, steps, i + 1);
      assert [steps[i]] + steps[i + 1..] == steps[i..];
    } else {
      assert steps[i..] == [];
    }
  }

  ghost predicate Leads(p: Platform, s: D.System, step: D.Step, next: D.System) {
    D.Legal(s, step) && (A.Tables(s.book) ==> D.Perform(p, s, step) == next)
  }

  /** A store step in front of an empty queue. */
  lemma StoreLeads(p: Platform, b: A.Book, step: A.Step, next: A.Book)
    requires Moves(p, b, step, next) && !step.DoTransact?
    ensures Leads(p, D.System(b, map[]), D.DoStore(step), D.System(next, map[]))
  {
  }

  lemma DispatchLeads(p: Platform, b: A.Book)
    requires Ready(b)
    ensures Leads(p, D.System(b, map[]), CRASH_RUN[2], D.System(b, map[JOB := WAITING_ROW]))
    ensures Leads(p, D.System(b, map[JOB := WAITING_ROW]), CRASH_RUN[3], D.System(b, map[JOB := CLAIMED_ROW]))
    ensures Leads(p, D.System(b, map[JOB := CLAIMED_ROW]), CRASH_RUN[4],
                  D.System(Begun(b), map[JOB := CLAIMED_ROW.(runner := Some(FENCE))]))
  {
    if A.Tables(b) {
      EnqueuedStep(p, b);
      ClaimedStep(p, b);
      BegunStep(p, b);
    }
  }

  lemma AdmissionLeads(p: Platform, b: A.Book)
    requires b == WithJob(FirstAccount(1), 1, "first", JOB)
    ensures Leads(p, D.System(A.EMPTY, map[]), CRASH_RUN[0], D.System(FirstAccount(1), map[]))
    ensures Leads(p, D.System(FirstAccount(1), map[]), CRASH_RUN[1], D.System(b, map[]))
  {
    Configured(1);
    ConfigureMoves(p, A.EMPTY, 1, 0, 1, FirstAccount(1));
    StoreLeads(p, A.EMPTY, A.DoConfigure(PolicyFor(1), 0, true, 1), FirstAccount(1));
    FirstCreatable(1);
    CreateMoves(p, FirstAccount(1), 1, "first", JOB);
    StoreLeads(p, FirstAccount(1), Create("first", JOB), b);
  }

  lemma SystemRunOf(p: Platform, s: D.System, later: seq<D.System>, steps: seq<D.Step>)
    requires |later| == |steps| == 5 && E.Linked(s)
    requires Leads(p, s, steps[0], later[0]) && Leads(p, later[0], steps[1], later[1])
    requires Leads(p, later[1], steps[2], later[2]) && Leads(p, later[2], steps[3], later[3])
    requires Leads(p, later[3], steps[4], later[4])
    ensures G.Lawful(p, s, steps) && G.PerformAll(p, s, steps) == later[4]
  {
    SystemSteps(p, [s] + later, steps, 0);
    assert steps[0..] == steps;
  }

  lemma CrashReached(p: Platform, b: A.Book)
    requires b == WithJob(FirstAccount(1), 1, "first", JOB)
    ensures G.LawfulFromStart(p, CRASH_RUN) && JOB in b.jobs
    ensures G.FromStart(p, CRASH_RUN) == D.System(Begun(b), map[JOB := CLAIMED_ROW.(runner := Some(FENCE))])
  {
    E.EmptyLinked();
    AdmittedReady();
    AdmissionLeads(p, b);
    DispatchLeads(p, b);
    SystemRunOf(p, D.System(A.EMPTY, map[]),
                [D.System(FirstAccount(1), map[]), D.System(b, map[]), D.System(b, map[JOB := WAITING_ROW]),
                 D.System(b, map[JOB := CLAIMED_ROW]),
                 D.System(Begun(b), map[JOB := CLAIMED_ROW.(runner := Some(FENCE))])], CRASH_RUN);
  }

  /**
   Configure, create, enqueue, claim, begin; then the worker crashes.  From the retention
   date on its confirmed recovery is refused, whatever the receipt.
   */
  lemma RecoveryRefused(p: Platform, receipt: string, now: int)
    requires Identifier(receipt) && EXPIRY <= now
    ensures G.LawfulFromStart(p, CRASH_RUN)
    ensures var s := G.FromStart(p, CRASH_RUN);
            && C.Held(s, CLAIM, FENCE, EXPIRY)
            && D.RecoverStopped(s, CLAIM, receipt, true, now) == D.Turned(D.Store(A.Unprotected))
  {
    var b := WithJob(FirstAccount(1), 1, "first", JOB);
    CrashReached(p, b);
    AdmittedReady();
    RefusedOnceHeld(p, b, G.FromStart(p, CRASH_RUN), receipt, now);
  }

  lemma RefusedOnceHeld(p: Platform, b: A.Book, s: D.System, receipt: string, now: int)
    requires Ready(b) && s == D.System(Begun(b), map[JOB := CLAIMED_ROW.(runner := Some(FENCE))])
    requires E.Linked(s) && Identifier(receipt) && EXPIRY <= now
    ensures C.Held(s, CLAIM, FENCE, EXPIRY)
    ensures D.RecoverStopped(s, CLAIM, receipt, true, now) == D.Turned(D.Store(A.Unprotected))
  {
    BegunHeld(b);
    C.CrashedRefused(s, CLAIM, FENCE, EXPIRY, receipt, now);
  }

  lemma BegunHeld(b: A.Book)
    requires Ready(b)
    ensures C.Held(D.System(Begun(b), map[JOB := CLAIMED_ROW.(runner := Some(FENCE))]), CLAIM, FENCE, EXPIRY)
  {
  }

  // ---- a pause that is not the run's own -----------------------------------------------------

  const NEW: Job := NewJob(OWNER, "first", X.DEBATE_LAST, 1)

  /** The runner is recovered before its first look at the job. */
  const RECOVERING: Moment := Moment([DoRecover(FENCE, 1)], GRANT, 1.0, 1, 1, "attempt", 0, false)

  /** A slice of one stage for a job of two. */
  function RecoveredRun(callback: Callback): Setting {
    Setting(GRANT, callback, true, Some(1), "runner", RECOVERING, (i: nat) => RECOVERING)
  }

  lemma PausedUnworked(p: Platform, callback: Callback, after: Job, answer: Answer<JobState>, taken: Option<Fence>,
                       released: bool, started: nat)
    requires Sound(NEW) && Ran(p, RecoveredRun(callback), NEW, after, answer, taken, released, started)
    ensures answer == Ok(Paused) && after.rows == NEW.rows && !Worked(Some(1), NEW, after, started)
  {
    var x := RecoveredRun(callback);
    assert Granted(x, NEW) == Some(FENCE);
    assert x.oracle(0) == RECOVERING;
    assert RecoveredAtOnce(x.oracle, FENCE);
  }

  /** The run reports a pause, and has not moved the stage it was asked for. */
  method RecoveredPause(p: Platform, callback: Callback) returns (answer: Answer<JobState>, after: Job, started: nat)
    ensures answer == Ok(Paused) && started == 0
    ensures after.rows == NEW.rows && after.head.state.Paused? && !Worked(Some(1), NEW, after, 0)
  {
    var store := new LocalJobStore(p);
    X.DebateLastAccepted();
    store.Insert(OWNER, "first", X.DEBATE_LAST, JOB, 1);
    NewJobSound();
    var taken, released;
    var x := RecoveredRun(callback);
    answer, taken, released, started :=
      RunJob(store, GRANT, JOB, "runner", callback, true, x.oracle, x.first, Some(1), 0);
    after := store.jobs[JOB];
    PausedUnworked(p, callback, after, answer, taken, released, started);
  }

  lemma NewJobSound()
    ensures Sound(NEW)
  {
    X.DebateLastAccepted();
    NewJobControl(OWNER, "first", X.DEBATE_LAST, 1);
  }
}
