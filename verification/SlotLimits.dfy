/**
 Held slots and the configured maximum: every transaction keeps the slots of an account
 within its maximum, except a configuration that lowers the maximum below them.
 */
module SlotLimits {
  import opened Basics
  import opened Contracts
  import opened Journal
  import opened Admission
  import opened AdmissionSafety
  import opened AccountGuarantees

  function Maximum(b: Book, owner: string): nat {
    if owner in b.accounts then Max(b.accounts[owner].policy.maximumJobs, 0) else 0
  }

  predicate Within(b: Book, owner: string) {
    Slots(b.reservations, owner) <= Maximum(b, owner)
  }

  /** A granted `configure_account` whose maximum is below the slots held. */
  predicate Lowers(b: Book, step: Step, owner: string) {
    && step.DoConfigure? && step.policy.owner == owner
    && Configure(b, step.policy, step.expected, step.authorized, step.now).Granted?
    && step.policy.maximumJobs < Slots(b.reservations, owner)
  }

  // ---- one transaction ------------------------------------------------------------------------

  lemma {:induction false} SlotsFall(before: seq<Reservation>, after: seq<Reservation>, owner: string)
    requires RowsKept(before, after) && |after| == |before|
    ensures Slots(after, owner) <= Slots(before, owner)
  {
    if before != [] {
      var n := |before| - 1;
      assert SlotUpdate(before[n], after[n]);
      SlotsFall(before[..n], after[..n], owner);
    }
  }

  /** Outside of `create` no reservation is added and no account changes but by configuration. */
  lemma NoNewRows(p: Platform, b: Book, step: Step)
    requires Tables(b) && !step.DoCreate?
    ensures |Perform(p, b, step).reservations| == |b.reservations|
  {
    match step
    case DoTransact(owner, id, kernel) =>
      var release := TransactShape(p, b, owner, id, kernel);
    case _ =>
  }

  lemma ConfigureDecided(b: Book, step: Step, owner: string)
    requires step.DoConfigure? && Within(b, owner)
    ensures Within(Settle(b, Configure(b, step.policy, step.expected, step.authorized, step.now)), owner)
            <==> !Lowers(b, step, owner)
  {
  }

  lemma CreateStaysWithin(b: Book, grant: Grant, idem: string, spec: Spec, expiry: int, newId: string, now: int,
                          owner: string)
    requires Consistent(b) && RowOf(b.reservations, newId).None? && Within(b, owner)
    ensures Within(Settle(b, Create(b, grant, idem, spec, expiry, newId, now)), owner)
  {
    CreateShape(b, grant, idem, spec, expiry, newId, now);
    var v := Create(b, grant, idem, spec, expiry, newId, now);
    if v.Granted? && v.book != b {
      var policy := b.accounts[grant.owner].policy;
      SlotsSnoc(b.reservations, Reserve(grant.owner, policy, idem, spec, newId), owner);
    }
  }

  /** The slots stay within the maximum exactly when the step is not a lowering configuration. */
  lemma StepWithinDecided(p: Platform, b: Book, step: Step, owner: string)
    requires Consistent(b) && Tables(b) && Legal(b, step) && Within(b, owner)
    ensures Within(Perform(p, b, step), owner) <==> !Lowers(b, step, owner)
  {
    if step.DoConfigure? {
      ConfigureDecided(b, step, owner);
    } else if step.DoCreate? {
      CreateStaysWithin(b, step.grant, step.idem, step.spec, step.expiry, step.newId, step.now, owner);
    } else {
      StepKeepsRows(p, b, step);
      NoNewRows(p, b, step);
      PoliciesStay(p, b, step);
      SlotsFall(b.reservations, Perform(p, b, step).reservations, owner);
    }
  }

  // ---- runs -------------------------------------------------------------------------------------

  /** Within the maximum now and after every step. */
  ghost predicate AlwaysWithin(p: Platform, b: Book, steps: seq<Step>, owner: string)
    requires Consistent(b) && Tables(b) && Lawful(p, b, steps)
    decreases |steps|
  {
    && Within(b, owner)
    && (steps == [] ||
        (StepKeepsConsistent(p, b, steps[0]);
         AlwaysWithin(p, Perform(p, b, steps[0]), steps[1..], owner)))
  }

  ghost predicate NeverLowered(p: Platform, b: Book, steps: seq<Step>, owner: string)
    requires Consistent(b) && Tables(b) && Lawful(p, b, steps)
    decreases |steps|
  {
    steps == [] ||
    (StepKeepsConsistent(p, b, steps[0]);
     !Lowers(b, steps[0], owner) && NeverLowered(p, Perform(p, b, steps[0]), steps[1..], owner))
  }

  lemma {:induction false} RunWithinDecided(p: Platform, b: Book, steps: seq<Step>, owner: string)
    requires Consistent(b) && Tables(b) && Lawful(p, b, steps) && Within(b, owner)
    ensures AlwaysWithin(p, b, steps, owner) <==> NeverLowered(p, b, steps, owner)
    decreases |steps|
  {
    if steps != [] {
      StepWithinDecided(p, b, steps[0], owner);
      StepKeepsConsistent(p, b, steps[0]);
      if !Lowers(b, steps[0], owner) {
        RunWithinDecided(p, Perform(p, b, steps[0]), steps[1..], owner);
      } else {
        NotWithin(p, Perform(p, b, steps[0]), steps[1..], owner);
      }
    }
  }

  lemma NotWithin(p: Platform, b: Book, steps: seq<Step>, owner: string)
    requires Consistent(b) && Tables(b) && Lawful(p, b, steps) && !Within(b, owner)
    ensures !AlwaysWithin(p, b, steps, owner)
  {
  }

  /**
   From an empty schema: an account holds at most its maximum of slots throughout a run
   exactly when no configuration of the run lowers the maximum below the slots then held.
   */
  lemma WithinExactlyUnlessLowered(p: Platform, steps: seq<Step>, owner: string)
    requires LawfulFromEmpty(p, steps)
    ensures Consistent(EMPTY) && Tables(EMPTY)
    ensures AlwaysWithin(p, EMPTY, steps, owner) <==> NeverLowered(p, EMPTY, steps, owner)
  {
    EmptyConsistent();
    RunWithinDecided(p, EMPTY, steps, owner);
  }

  lemma {:induction false} AlwaysWithinEnds(p: Platform, b: Book, steps: seq<Step>, owner: string)
    requires Consistent(b) && Tables(b) && Lawful(p, b, steps) && AlwaysWithin(p, b, steps, owner)
    ensures Within(PerformAll(p, b, steps), owner)
    decreases |steps|
  {
    if steps != [] {
      StepKeepsConsistent(p, b, steps[0]);
      AlwaysWithinEnds(p, Perform(p, b, steps[0]), steps[1..], owner);
    }
  }
}
