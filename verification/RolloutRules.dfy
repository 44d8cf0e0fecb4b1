/**
 When the rollout journal takes a transaction, engine by engine and number by number, and
 every field of the state it leaves.
 */
module RolloutRules {
  import opened Basics
  import opened Rollout

  /** A plan's weights: 2 to 100 percentages, rising, the last one 100. */
  predicate Climbs(w: Weights) {
    && 2 <= |w| <= 100 && 1 <= w[0] && w[|w| - 1] == 100
    && forall i :: 0 < i < |w| ==> w[i - 1] < w[i]
  }

  lemma {:induction false} Rising(w: Weights, i: nat, j: nat)
    requires i < j < |w| && forall k :: 0 < k < |w| ==> w[k - 1] < w[k]
    ensures w[i] < w[j]
  {
    if i < j - 1 { Rising(w, i, j - 1); }
  }

  lemma WeightsDecided(w: Weights)
    ensures ValidWeights(w) <==> Climbs(w)
  {
    if Climbs(w) {
      forall i, j | 0 <= i < j < |w| ensures w[i] < w[j] { Rising(w, i, j); }
    }
  }

  // ---- observations -----------------------------------------------------------------------------------

  /** Both engines were seen, at the right time, with all of their traffic, and with healthy baselines. */
  predicate Sees(o: Observation, now: int) {
    && o.genuine && 1 <= o.observedAt <= now && now < o.validUntil
    && forall e: Engine :: o.engines(e).baselineHealthy && SplitsTraffic(o.engines(e))
  }

  predicate SplitsTraffic(v: EngineView) {
    v.baselineWeight >= 0 && v.candidateWeight >= 0 && v.baselineWeight == 100 - v.candidateWeight
  }

  /** Every engine sends this share to its candidate. */
  predicate Serves(o: Observation, weight: int) {
    forall e: Engine :: o.engines(e).candidateWeight == weight
  }

  predicate CandidatesWell(o: Observation) {
    forall e: Engine :: o.engines(e).candidateHealthy
  }

  lemma EnginesSeen(o: Observation, now: int, weight: int)
    ensures Sees(o, now) <==> Observed(o, now) && BaselinesHealthy(o)
    ensures Serves(o, weight) <==> AllAt(o, weight)
    ensures CandidatesWell(o) <==> CandidatesHealthy(o)
  {
    forall e: Engine
      ensures Observed(o, now) && BaselinesHealthy(o) ==> o.engines(e).baselineHealthy && SplitsTraffic(o.engines(e))
      ensures AllAt(o, weight) ==> o.engines(e).candidateWeight == weight
      ensures CandidatesHealthy(o) ==> o.engines(e).candidateHealthy
    {
      match e
      case CoreEngine =>
      case UltraEngine =>
    }
  }

  // ---- the transactions ---------------------------------------------------------------------------------

  lemma CreationDecided(w: Weights, o: Observation, now: int)
    ensures Created(w, o, now).Some? <==>
              && Climbs(w) && Sees(o, now) && Serves(o, 0)
              && o.intent == None && o.settled == None
    ensures Created(w, o, now).Some? ==> Created(w, o, now) == Some(State(0, -1, 0, None, false, []))
  {
    WeightsDecided(w);
    EnginesSeen(o, now, 0);
  }

  /** Promotion needs both engines healthy at the confirmed weight and passing evidence for this very version. */
  lemma PromotionDecided(w: Weights, s: State, expected: int, o: Observation, e: Evidence, id: string, now: int)
    requires Good(w, s)
    ensures var after := DoPromote(w, s, expected, o, e, id, now);
            && (after.Some? <==>
                  && s.version == expected && s.pending == None && !s.rolledBack && s.step + 1 < |w|
                  && Sees(o, now) && Serves(o, s.confirmedWeight) && CandidatesWell(o) && o.intent == None
                  && e.genuine && e.stateVersion == s.version && e.allPass
                  && 1 <= e.observedAt <= now && now < e.validUntil)
            && (after.Some? ==>
                  after == Some(s.(version := s.version + 1, pending := Some(Intent(id, Promote, w[s.step + 1], now)),
                                   history := s.history + [IntentRecorded(id, Promote, w[s.step + 1])])))
  {
    EnginesSeen(o, now, s.confirmedWeight);
    StepGood(w, s, StepPromote(expected, o, e, id, now));
  }

  /** Rollback needs healthy baselines only, and that a promotion still pending has settled since it was asked for. */
  lemma RollbackDecided(w: Weights, s: State, expected: int, o: Observation, id: string, now: int)
    requires Good(w, s)
    ensures var after := DoRollback(s, expected, o, id, now);
            && (after.Some? <==>
                  && s.version == expected && !s.rolledBack && Sees(o, now) && o.intent == None
                  && (s.pending.Some? ==>
                        && s.pending.value.action == Promote && o.settled == Some(s.pending.value.id)
                        && s.pending.value.requestedAt <= o.observedAt))
            && (after.Some? ==>
                  after == Some(s.(version := s.version + 1, pending := Some(Intent(id, Rollback, 0, now)),
                                   history := s.history + [IntentRecorded(id, Rollback, 0)])))
  {
    EnginesSeen(o, now, 0);
    StepGood(w, s, StepRollback(expected, o, id, now));
  }

  /** The state after the pending intent was confirmed. */
  function Confirmed(s: State): State
    requires s.pending.Some?
  {
    var intent, entry := s.pending.value, ObservationConfirmed(s.pending.value.id);
    if intent.action == Rollback
    then State(s.version + 1, s.step, intent.weight, None, true, s.history + [entry])
    else State(s.version + 1, s.step + 1, intent.weight, None, s.rolledBack, s.history + [entry])
  }

  /** Confirmation needs the pending intent seen and settled at its weight, and healthy candidates for a promotion. */
  lemma ConfirmationDecided(w: Weights, s: State, expected: int, id: string, o: Observation, now: int)
    requires Good(w, s)
    ensures var after := DoConfirm(s, expected, id, o, now);
            && (after.Some? <==>
                  && s.version == expected && s.pending.Some? && s.pending.value.id == id
                  && Sees(o, now) && Serves(o, s.pending.value.weight)
                  && o.intent == Some(id) && o.settled == Some(id) && s.pending.value.requestedAt <= o.observedAt
                  && (s.pending.value.action == Promote ==> CandidatesWell(o)))
            && (after.Some? ==> after == Some(Confirmed(s)))
  {
    if s.pending.Some? { EnginesSeen(o, now, s.pending.value.weight); }
    StepGood(w, s, StepConfirm(expected, id, o, now));
  }
}
