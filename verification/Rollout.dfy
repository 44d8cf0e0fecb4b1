/**
 The canary and rollback rehearsal journal (release/rollout.py): one state record that
 only promote, rollback and confirm change, each in one transaction.
 */
module Rollout {
  import opened Basics

  const MAX_HISTORY: nat := 205

  datatype Engine = CoreEngine | UltraEngine

  datatype Action = Promote | Rollback

  datatype Intent = Intent(id: string, action: Action, weight: int, requestedAt: int)

  datatype Entry = IntentRecorded(id: string, action: Action, weight: int) | ObservationConfirmed(id: string)

  datatype State = State(
    version: nat,
    step: int,
    confirmedWeight: int,
    pending: Option<Intent>,
    rolledBack: bool,
    history: seq<Entry>
  )

  /** The part of a plan that the state machine reads; the rest is compared, not used. */
  type Weights = seq<int>

  /** `validate_plan` on canary weights: 2 to 100 strictly rising percentages, the last one 100. */
  predicate ValidWeights(w: Weights) {
    && 2 <= |w| <= 100
    && (forall i :: 0 <= i < |w| ==> 1 <= w[i] <= 100)
    && (forall i, j :: 0 <= i < j < |w| ==> w[i] < w[j])
    && w[|w| - 1] == 100
  }

  datatype EngineView = EngineView(baselineWeight: int, candidateWeight: int, baselineHealthy: bool,
                                   candidateHealthy: bool)

  /** `genuine`: kinds, digests, identifiers and deployments match the plan exactly. */
  datatype Observation = Observation(
    genuine: bool,
    intent: Option<string>,
    settled: Option<string>,
    observedAt: int,
    validUntil: int,
    engines: Engine -> EngineView
  )

  datatype Evidence = Evidence(genuine: bool, stateVersion: nat, observedAt: int, validUntil: int, allPass: bool)

  // ---- observations ------------------------------------------------------------------------

  predicate Traffic(v: EngineView) {
    0 <= v.baselineWeight <= 100 && 0 <= v.candidateWeight <= 100 && v.baselineWeight + v.candidateWeight == 100
  }

  predicate Observed(o: Observation, now: int) {
    && o.genuine && 1 <= o.observedAt <= now < o.validUntil
    && Traffic(o.engines(CoreEngine)) && Traffic(o.engines(UltraEngine))
  }

  predicate AllAt(o: Observation, weight: int) {
    o.engines(CoreEngine).candidateWeight == weight && o.engines(UltraEngine).candidateWeight == weight
  }

  predicate BaselinesHealthy(o: Observation) {
    o.engines(CoreEngine).baselineHealthy && o.engines(UltraEngine).baselineHealthy
  }

  predicate CandidatesHealthy(o: Observation) {
    o.engines(CoreEngine).candidateHealthy && o.engines(UltraEngine).candidateHealthy
  }

  // ---- the transactions ------------------------------------------------------------------------

  const FRESH_STATE := State(0, -1, 0, None, false, [])

  function Created(w: Weights, o: Observation, now: int): Option<State> {
    if ValidWeights(w) && Observed(o, now) && o.intent.None? && o.settled.None? && AllAt(o, 0) && BaselinesHealthy(o)
    then Some(FRESH_STATE) else None
  }

  /** `_save`: one version per entry, and the guard on the length of the history. */
  function Saved(s: State): Option<State> {
    if MAX_HISTORY < |s.history| then None else Some(s.(version := s.version + 1))
  }

  function Record(s: State, intent: Intent): Option<State> {
    Saved(s.(pending := Some(intent), history := s.history + [IntentRecorded(intent.id, intent.action, intent.weight)]))
  }

  predicate PromotionAllowed(w: Weights, s: State, expected: int, o: Observation, e: Evidence, now: int) {
    && s.version == expected && s.pending.None? && !s.rolledBack && s.step + 1 < |w|
    && Observed(o, now) && o.intent.None? && AllAt(o, s.confirmedWeight)
    && BaselinesHealthy(o) && CandidatesHealthy(o)
    && e.genuine && e.stateVersion == s.version && 1 <= e.observedAt <= now < e.validUntil && e.allPass
  }

  function DoPromote(w: Weights, s: State, expected: int, o: Observation, e: Evidence, id: string,
                     now: int): Option<State>
  {
    if PromotionAllowed(w, s, expected, o, e, now) && 0 <= s.step + 1
    then Record(s, Intent(id, Promote, w[s.step + 1], now)) else None
  }

  predicate RollbackAllowed(s: State, expected: int, o: Observation, now: int) {
    && s.version == expected && !s.rolledBack && (s.pending.Some? ==> s.pending.value.action.Promote?)
    && Observed(o, now) && o.intent.None? && BaselinesHealthy(o)
    && (s.pending.Some? ==>
          o.settled == Some(s.pending.value.id) && 1 <= s.pending.value.requestedAt <= o.observedAt)
  }

  function DoRollback(s: State, expected: int, o: Observation, id: string, now: int): Option<State> {
    if RollbackAllowed(s, expected, o, now) then Record(s, Intent(id, Rollback, 0, now)) else None
  }

  predicate ConfirmAllowed(s: State, expected: int, id: string, o: Observation, now: int) {
    && s.version == expected && s.pending.Some? && s.pending.value.id == id
    && Observed(o, now) && o.intent == Some(id) && o.settled == Some(id) && s.pending.value.requestedAt <= o.observedAt
    && AllAt(o, s.pending.value.weight) && BaselinesHealthy(o)
    && (s.pending.value.action.Promote? ==> CandidatesHealthy(o))
  }

  function DoConfirm(s: State, expected: int, id: string, o: Observation, now: int): Option<State> {
    if !ConfirmAllowed(s, expected, id, o, now) then None
    else
      var intent := s.pending.value;
      Saved(s.(confirmedWeight := intent.weight,
               rolledBack := s.rolledBack || intent.action.Rollback?,
               step := if intent.action.Rollback? then s.step else s.step + 1,
               pending := None,
               history := s.history + [ObservationConfirmed(id)]))
  }

  datatype Step =
    | StepPromote(expected: int, o: Observation, e: Evidence, id: string, now: int)
    | StepRollback(expected: int, o: Observation, id: string, now: int)
    | StepConfirm(expected: int, id: string, o: Observation, now: int)

  function Perform(w: Weights, s: State, step: Step): Option<State> {
    match step
    case StepPromote(expected, o, e, id, now) => DoPromote(w, s, expected, o, e, id, now)
    case StepRollback(expected, o, id, now) => DoRollback(s, expected, o, id, now)
    case StepConfirm(expected, id, o, now) => DoConfirm(s, expected, id, o, now)
  }

  /** A refused transaction leaves the record as it was. */
  function Next(w: Weights, s: State, step: Step): State {
    match Perform(w, s, step)
    case None => s
    case Some(after) => after
  }

  function Run(w: Weights, s: State, steps: seq<Step>): State
    decreases |steps|
  {
    if steps == [] then s else Run(w, Next(w, s, steps[0]), steps[1..])
  }

  // ---- the invariant ----------------------------------------------------------------------------

  function WeightAt(w: Weights, step: int): int {
    if 0 <= step < |w| then w[step] else 0
  }

  /** Entries for the weights confirmed so far. */
  function Confirmations(s: State): int {
    2 * (s.step + 1)
  }

  predicate PendingGood(w: Weights, s: State) {
    match s.pending
    case None => true
    case Some(Intent(_, Promote, weight, at)) =>
      !s.rolledBack && 0 <= s.step + 1 < |w| && weight == w[s.step + 1] && 1 <= at
    case Some(Intent(_, Rollback, weight, at)) => !s.rolledBack && weight == 0 && 1 <= at
  }

  predicate HistoryGood(w: Weights, s: State) {
    var n := |s.history|;
    var room := if s.step + 1 == |w| then 0 else 1;
    if s.rolledBack then n <= Confirmations(s) + 2 + room
    else
      match s.pending
      case None => n == Confirmations(s)
      case Some(Intent(_, Promote, _, _)) => n == Confirmations(s) + 1
      case Some(Intent(_, Rollback, _, _)) => n <= Confirmations(s) + 1 + room
  }

  predicate Good(w: Weights, s: State) {
    && ValidWeights(w)
    && s.version == |s.history|
    && -1 <= s.step < |w|
    && s.confirmedWeight == (if s.rolledBack then 0 else WeightAt(w, s.step))
    && (s.rolledBack ==> s.pending.None?)
    && PendingGood(w, s)
    && HistoryGood(w, s)
  }

  lemma HistoryShort(w: Weights, s: State)
    requires Good(w, s)
    ensures |s.history| <= 2 * |w| + 2 <= 202
  {
  }

  /** One transaction keeps the invariant; the guard on the history is never what refuses it. */
  lemma StepGood(w: Weights, s: State, step: Step)
    requires Good(w, s)
    ensures Good(w, Next(w, s, step))
    ensures Perform(w, s, step).Some? <==>
              match step
              case StepPromote(expected, o, e, id, now) => PromotionAllowed(w, s, expected, o, e, now)
              case StepRollback(expected, o, id, now) => RollbackAllowed(s, expected, o, now)
              case StepConfirm(expected, id, o, now) => ConfirmAllowed(s, expected, id, o, now)
  {
    HistoryShort(w, s);
  }

  /** Confirmed weights move one place up the plan, or to zero for good. */
  lemma StepRises(w: Weights, s: State, step: Step)
    requires Good(w, s)
    ensures var after := Next(w, s, step);
            || (after.confirmedWeight == s.confirmedWeight && after.step == s.step && after.rolledBack == s.rolledBack)
            || (!after.rolledBack && after.step == s.step + 1 < |w| && after.confirmedWeight == w[s.step + 1]
                && s.confirmedWeight < after.confirmedWeight)
            || (!s.rolledBack && after.rolledBack && after.step == s.step && after.confirmedWeight == 0)
  {
  }

  /** The weights a run confirms, oldest first. */
  function Rises(w: Weights, s: State, steps: seq<Step>): seq<int>
    decreases |steps|
  {
    if steps == [] then []
    else
      var after := Next(w, s, steps[0]);
      (if after.confirmedWeight != s.confirmedWeight then [after.confirmedWeight] else []) + Rises(w, after, steps[1..])
  }

  lemma {:induction false} RunGood(w: Weights, s: State, steps: seq<Step>)
    requires Good(w, s)
    ensures Good(w, Run(w, s, steps)) && s.step <= Run(w, s, steps).step
    ensures s.rolledBack ==> Run(w, s, steps) == s
    decreases |steps|
  {
    if steps != [] {
      StepGood(w, s, steps[0]);
      StepRises(w, s, steps[0]);
      RunGood(w, Next(w, s, steps[0]), steps[1..]);
    }
  }

  /** The weights between two states of a run: the plan's, in order, then 0 after a rollback. */
  function Climb(w: Weights, s: State, last: State): seq<int>
    requires -1 <= s.step <= last.step < |w|
  {
    w[s.step + 1..last.step + 1] + (if last.rolledBack && !s.rolledBack && last.step != -1 then [0] else [])
  }

  /** One move in front of a climb. */
  lemma ClimbOne(w: Weights, s: State, after: State, last: State)
    requires -1 <= s.step <= after.step <= last.step < |w|
    requires || (after.confirmedWeight == s.confirmedWeight && after.step == s.step && after.rolledBack == s.rolledBack)
             || (!s.rolledBack && !after.rolledBack && after.step == s.step + 1
                 && after.confirmedWeight == w[after.step]
                 && s.confirmedWeight != after.confirmedWeight)
             || (!s.rolledBack && after.rolledBack && last == after && after.step == s.step
                 && after.confirmedWeight == 0
                 && (s.confirmedWeight == 0 <==> s.step == -1))
    ensures Climb(w, s, last)
            == (if after.confirmedWeight != s.confirmedWeight then [after.confirmedWeight] else [])
               + Climb(w, after, last)
  {
    if after.step == s.step + 1 {
      ClimbRise(w, s, after, last);
    } else if after.rolledBack == s.rolledBack {
      EmptyFirst(Climb(w, after, last));
    } else {
      ClimbFall(w, s, last);
    }
  }

  lemma ClimbRise(w: Weights, s: State, after: State, last: State)
    requires -1 <= s.step < last.step < |w| && after.step == s.step + 1
    requires after.rolledBack == s.rolledBack && after.confirmedWeight == w[after.step]
    ensures Climb(w, s, last) == [after.confirmedWeight] + Climb(w, after, last)
  {
    var fall := if last.rolledBack && !s.rolledBack && last.step != -1 then [0] else [];
    SliceHead(w, s.step + 1, last.step + 1);
    Regrouped([w[after.step]], w[after.step + 1..last.step + 1], fall);
  }

  lemma ClimbFall(w: Weights, s: State, last: State)
    requires -1 <= s.step == last.step < |w| && !s.rolledBack && last.rolledBack
    ensures Climb(w, last, last) == [] && Climb(w, s, last) == if s.step != -1 then [0] else []
  {
  }

  lemma {:induction false} RisesExact(w: Weights, s: State, steps: seq<Step>)
    requires Good(w, s)
    ensures s.step <= Run(w, s, steps).step < |w|
    ensures Rises(w, s, steps) == Climb(w, s, Run(w, s, steps))
    decreases |steps|
  {
    RunGood(w, s, steps);
    if steps != [] {
      var after := Next(w, s, steps[0]);
      StepGood(w, s, steps[0]);
      StepRises(w, s, steps[0]);
      RisesExact(w, after, steps[1..]);
      RunGood(w, after, steps[1..]);
      if !s.rolledBack { ConfirmedZero(w, s); }
      ClimbOne(w, s, after, Run(w, after, steps[1..]));
    }
  }

  lemma ConfirmedZero(w: Weights, s: State)
    requires Good(w, s) && !s.rolledBack
    ensures s.confirmedWeight == 0 <==> s.step == -1
  {
  }

  /**
   Every run of a created journal: until a rollback confirms, the confirmed weight is 0 or
   the weight at `step`; the weights confirmed are the plan's, in order and without a gap,
   then 0 after a rollback; the version counts the history, which never reaches its guard.
   */
  lemma RolloutRuns(w: Weights, o: Observation, created: int, steps: seq<Step>)
    requires Created(w, o, created).Some?
    ensures var s := Run(w, Created(w, o, created).value, steps);
            && -1 <= s.step < |w|
            && s.confirmedWeight == (if s.rolledBack then 0 else WeightAt(w, s.step))
            && Rises(w, Created(w, o, created).value, steps)
               == w[..s.step + 1] + (if s.rolledBack && s.step != -1 then [0] else [])
            && s.version == |s.history| <= 2 * |w| + 2 < MAX_HISTORY
  {
    RunGood(w, FRESH_STATE, steps);
    RisesExact(w, FRESH_STATE, steps);
    HistoryShort(w, Run(w, FRESH_STATE, steps));
  }

  /** After a confirmed rollback nothing is enabled any more. */
  lemma RollbackAbsorbs(w: Weights, s: State, steps: seq<Step>)
    requires Good(w, s) && s.rolledBack
    ensures Run(w, s, steps) == s
  {
    RunGood(w, s, steps);
  }

  /** Both baselines healthy, both candidates broken, all candidates at `weight`. */
  function Outage(intent: Option<string>, settled: Option<string>, weight: int, now: int): Observation {
    Observation(true, intent, settled, now, now + 1, (e: Engine) => EngineView(100 - weight, weight, true, false))
  }

  /** A rollback intent on record is confirmed once its traffic is observed. */
  lemma RollbackConfirms(w: Weights, s: State, now: int)
    requires Good(w, s) && s.pending.Some? && s.pending.value.action.Rollback?
    requires s.pending.value.requestedAt <= now
    ensures var id := s.pending.value.id;
            var after := Next(w, s, StepConfirm(s.version, id, Outage(Some(id), Some(id), 0, now), now));
            after.rolledBack && after.confirmedWeight == 0
  {
    HistoryShort(w, s);
  }

  /** A settled or absent promotion is superseded by a rollback intent. */
  lemma RollbackRecords(w: Weights, s: State, id: string, now: int)
    requires Good(w, s) && !s.rolledBack && (s.pending.Some? ==> s.pending.value.action.Promote?)
    requires 1 <= now && (s.pending.Some? ==> s.pending.value.requestedAt <= now)
    ensures var settled := if s.pending.Some? then Some(s.pending.value.id) else None;
            var after := Next(w, s, StepRollback(s.version, Outage(None, settled, 0, now), id, now));
            Good(w, after) && after.pending == Some(Intent(id, Rollback, 0, now))
  {
    HistoryShort(w, s);
  }

  /** No gate and no healthy candidate is needed for this transaction. */
  predicate LeavesTraffic(step: Step) {
    match step
    case StepPromote(_, _, _, _, _) => false
    case StepRollback(_, o, _, _) => !CandidatesHealthy(o)
    case StepConfirm(_, _, o, _) => !CandidatesHealthy(o)
  }

  /** At most two such transactions end the rollout at weight 0. */
  ghost predicate Leaves(w: Weights, s: State, exit: seq<Step>) {
    && |exit| <= 2 && (forall step :: step in exit ==> LeavesTraffic(step))
    && Run(w, s, exit).rolledBack && Run(w, s, exit).confirmedWeight == 0
  }

  lemma Leaving(w: Weights, s: State, id: string, now: int) returns (exit: seq<Step>)
    requires Good(w, s) && !s.rolledBack && 1 <= now && (s.pending.Some? ==> s.pending.value.requestedAt <= now)
    ensures Leaves(w, s, exit)
  {
    exit := [];
    var middle := s;
    if s.pending.None? || s.pending.value.action.Promote? {
      var settled := if s.pending.Some? then Some(s.pending.value.id) else None;
      RollbackRecords(w, s, id, now);
      exit := [StepRollback(s.version, Outage(None, settled, 0, now), id, now)];
      middle := Next(w, s, exit[0]);
    }
    var intent := middle.pending.value.id;
    RollbackConfirms(w, middle, now);
    var confirm := StepConfirm(middle.version, intent, Outage(Some(intent), Some(intent), 0, now), now);
    RunLast(w, s, exit, confirm);
    exit := exit + [confirm];
  }

  /**
   From every state a run reaches before a rollback is confirmed, at any time not before
   the intent on record, at most two transactions with broken candidates confirm weight 0
   for good: the journal never wedges on the way out.
   */
  lemma AlwaysCanLeave(w: Weights, o: Observation, created: int, steps: seq<Step>, now: int)
    requires Created(w, o, created).Some?
    requires var s := Run(w, Created(w, o, created).value, steps);
             !s.rolledBack && 1 <= now && (s.pending.Some? ==> s.pending.value.requestedAt <= now)
    ensures exists exit :: Leaves(w, Run(w, Created(w, o, created).value, steps), exit)
  {
    RunGood(w, FRESH_STATE, steps);
    var exit := Leaving(w, Run(w, FRESH_STATE, steps), "rollback", now);
  }

  lemma {:induction false} RunLast(w: Weights, s: State, steps: seq<Step>, last: Step)
    ensures Run(w, s, steps + [last]) == Next(w, Run(w, s, steps), last)
    decreases |steps|
  {
    if steps == [] {
      assert steps + [last] == [last];
      assert Run(w, Next(w, s, last), []) == Next(w, s, last);
    } else {
      assert (steps + [last])[1..] == steps[1..] + [last];
      RunLast(w, Next(w, s, steps[0]), steps[1..], last);
    }
  }

  // ---- the journal object ---------------------------------------------------------------------------

  class RehearsalJournal {
    var weights: Weights
    var state: Option<State>

    constructor ()
      ensures state == None
    {
      weights, state := [], None;
    }

    method Create(plan: Weights, o: Observation, now: int) returns (ok: bool)
      modifies this
      ensures ok <==> old(state).None? && Created(plan, o, now).Some?
      ensures ok ==> weights == plan && state == Created(plan, o, now)
      ensures !ok ==> state == old(state) && weights == old(weights)
    {
      if !ValidWeights(plan) || !Observed(o, now) { return false; }
      if o.intent.Some? || o.settled.Some? || !AllAt(o, 0) || !BaselinesHealthy(o) { return false; }
      if state.Some? { return false; }
      weights, state := plan, Some(State(0, -1, 0, None, false, []));
      return true;
    }

    /** Bump the version, refuse an over-long history, store. */
    method Save(s: State) returns (ok: bool)
      modifies this
      ensures weights == old(weights)
      ensures ok <==> Saved(s).Some?
      ensures state == if ok then Saved(s) else old(state)
    {
      if MAX_HISTORY < |s.history| { return false; }
      state := Some(s.(version := s.version + 1));
      return true;
    }

    method RecordIntent(s: State, intent: Intent) returns (ok: bool)
      modifies this
      ensures weights == old(weights)
      ensures ok <==> Record(s, intent).Some?
      ensures state == if ok then Record(s, intent) else old(state)
    {
      var next := s.(pending := Some(intent));
      next := next.(history := next.history + [IntentRecorded(intent.id, intent.action, intent.weight)]);
      ok := Save(next);
    }

    method PromoteNext(expected: int, o: Observation, e: Evidence, id: string, now: int) returns (ok: bool)
      requires state.Some? ==> -1 <= state.value.step
      modifies this
      ensures weights == old(weights)
      ensures ok <==> old(state).Some? && Perform(weights, old(state).value, StepPromote(expected, o, e, id, now)).Some?
      ensures state == if ok then Perform(weights, old(state).value, StepPromote(expected, o, e, id, now))
              else old(state)
    {
      if state.None? || state.value.version != expected { return false; }
      var s := state.value;
      if s.pending.Some? || s.rolledBack || |weights| <= s.step + 1 { return false; }
      if !Observed(o, now) || o.intent.Some? || !AllAt(o, s.confirmedWeight) { return false; }
      if !BaselinesHealthy(o) || !CandidatesHealthy(o) { return false; }
      if !e.genuine || e.stateVersion != s.version || !(1 <= e.observedAt <= now < e.validUntil) || !e.allPass {
        return false;
      }
      ok := RecordIntent(s, Intent(id, Promote, weights[s.step + 1], now));
    }

    method RollBack(expected: int, o: Observation, id: string, now: int) returns (ok: bool)
      modifies this
      ensures weights == old(weights)
      ensures ok <==> old(state).Some? && Perform(weights, old(state).value, StepRollback(expected, o, id, now)).Some?
      ensures state == if ok then Perform(weights, old(state).value, StepRollback(expected, o, id, now)) else old(state)
    {
      if state.None? || state.value.version != expected { return false; }
      var s := state.value;
      if s.rolledBack || (s.pending.Some? && s.pending.value.action.Rollback?) { return false; }
      if !Observed(o, now) || o.intent.Some? || !BaselinesHealthy(o) { return false; }
      if s.pending.Some? {
        if o.settled != Some(s.pending.value.id) { return false; }
        if s.pending.value.requestedAt < 1 || o.observedAt < s.pending.value.requestedAt { return false; }
      }
      ok := RecordIntent(s, Intent(id, Rollback, 0, now));
    }

    method Confirm(expected: int, id: string, o: Observation, now: int) returns (ok: bool)
      modifies this
      ensures weights == old(weights)
      ensures ok <==> old(state).Some? && Perform(weights, old(state).value, StepConfirm(expected, id, o, now)).Some?
      ensures state == if ok then Perform(weights, old(state).value, StepConfirm(expected, id, o, now)) else old(state)
    {
      if state.None? || state.value.version != expected { return false; }
      var s := state.value;
      if s.pending.None? || s.pending.value.id != id || !Observed(o, now) { return false; }
      var intent := s.pending.value;
      if o.intent != Some(id) || o.settled != Some(id) || o.observedAt < intent.requestedAt { return false; }
      if !AllAt(o, intent.weight) || !BaselinesHealthy(o) { return false; }
      if intent.action.Promote? && !CandidatesHealthy(o) { return false; }
      s := s.(confirmedWeight := intent.weight);
      if intent.action.Rollback? {
        s := s.(rolledBack := true);
      } else {
        s := s.(step := s.step + 1);
      }
      s := s.(history := s.history + [ObservationConfirmed(id)]);
      s := s.(pending := None);
      ok := Save(s);
    }
  }
}
