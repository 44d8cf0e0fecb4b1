/**
 Which snapshots are accepted, field by field: the numbers and texts of the source contract,
 every stage against its operation, the order of the dependencies, and what all stages may
 use together.
 */
module SnapshotRules {
  import opened Basics
  import opened Contracts

  predicate Counts(value: int) {
    1 <= value && value <= 9007199254740991
  }

  predicate Letter(c: char) {
    || ('a' <= c && c <= 'z') || ('A' <= c && c <= 'Z') || ('0' <= c && c <= '9')
    || c == '_' || c == '.' || c == ':' || c == '@' || c == '-'
  }

  predicate Names(text: string) {
    1 <= |text| && |text| <= 128 && forall c :: c in text ==> Letter(c)
  }

  predicate LimitsWell(limits: Limits) {
    && Counts(limits.deadline) && Counts(limits.tokenLimit) && Counts(limits.costLimit)
    && limits.maxParallel in {1, 2, 3, 4, 5}
    && limits.stageTimeout > 0.0 && limits.stageTimeout < 240.0
  }

  /** A stage repeats its operation, is named, costs something, and fits the context on its own. */
  predicate StageWell(spec: Spec, stage: Stage, operation: Operation) {
    && operation == Operation(stage.id, stage.dependencies, stage.maximumInputTokens, stage.maximumOutputTokens,
                              stage.isPublic, stage.activity, stage.condition, operation.maximumRounds)
    && Names(stage.id) && Counts(stage.maximumInputTokens) && Counts(stage.maximumOutputTokens) && Counts(stage.costCap)
    && stage.maximumInputTokens + stage.maximumOutputTokens <= spec.contextTokens
    && (stage.condition != None ==>
          && spec.engine == Ultra && stage.id == "debate-round-1" && operation.maximumRounds == 1
          && stage.condition == Some("judge_detected_material_disagreement"))
  }

  /** What the stages from the `k`-th on may use together. */
  function TokensFrom(stages: seq<Stage>, k: nat): int
    requires k <= |stages|
    decreases |stages| - k
  {
    if k == |stages| then 0
    else stages[k].maximumInputTokens + stages[k].maximumOutputTokens + TokensFrom(stages, k + 1)
  }

  function CostFrom(stages: seq<Stage>, k: nat): int
    requires k <= |stages|
    decreases |stages| - k
  {
    if k == |stages| then 0 else stages[k].costCap + CostFrom(stages, k + 1)
  }

  /** An accepted snapshot. */
  ghost predicate Accepted(spec: Spec) {
    var stages := spec.stages;
    && LimitsWell(spec.limits) && Counts(spec.contextTokens)
    && 1 <= |stages| && |stages| <= 16 && |spec.operations| == |stages|
    && (forall i :: 0 <= i < |stages| ==> StageWell(spec, stages[i], spec.operations[i]))
    && (forall i, j :: 0 <= i < j < |stages| ==> stages[i].id != stages[j].id)
    // Dependencies are earlier stages, each named once.
    && (forall i, k :: 0 <= i < |stages| && 0 <= k < |stages[i].dependencies| ==>
          EarlierStage(stages, i, stages[i].dependencies[k]))
    && (forall i, j, k :: 0 <= i < |stages| && 0 <= j < k < |stages[i].dependencies| ==>
          stages[i].dependencies[j] != stages[i].dependencies[k])
    // The last stage alone is public.
    && stages[|stages| - 1].isPublic && (forall i :: 0 <= i < |stages| - 1 ==> !stages[i].isPublic)
    && TokensFrom(stages, 0) <= spec.limits.tokenLimit && CostFrom(stages, 0) <= spec.limits.costLimit
  }

  ghost predicate EarlierStage(stages: seq<Stage>, i: nat, id: string) {
    exists j :: 0 <= j < i && j < |stages| && stages[j].id == id
  }

  // ---- the validator accepts exactly these ------------------------------------------------------------

  lemma {:induction false} SumsFrom(stages: seq<Stage>, k: nat)
    requires k <= |stages|
    ensures Sum(TOKENS, stages) == Sum(TOKENS, stages[..k]) + TokensFrom(stages, k)
    ensures Sum(COST, stages) == Sum(COST, stages[..k]) + CostFrom(stages, k)
    decreases |stages| - k
  {
    if k == |stages| {
      HeadWhole(stages);
    } else {
      SumsGrow(stages, k);
      SumsFrom(stages, k + 1);
    }
  }

  lemma NamesDecided(text: string)
    ensures Identifier(text) <==> Names(text)
  {
    forall c: char ensures Letter(c) <==> IdentifierChar(c) {
      LetterDecided(c);
    }
    if Names(text) {
      forall i | 0 <= i < |text| ensures IdentifierChar(text[i]) { assert text[i] in text; }
    }
  }

  lemma LetterDecided(c: char)
    ensures Letter(c) <==> IdentifierChar(c)
  {
    var others := "_.:@-";
    assert others[0] == '_' && others[1] == '.' && others[2] == ':' && others[3] == '@' && others[4] == '-';
  }

  lemma StageDecided(spec: Spec, stage: Stage, operation: Operation)
    ensures StageMatchesOperation(spec, stage, operation) <==>
              && StageWell(spec, stage, operation)
              && forall j, k :: 0 <= j < k < |stage.dependencies| ==> stage.dependencies[j] != stage.dependencies[k]
  {
    NamesDecided(stage.id);
  }

  lemma PlacesDecided(stages: seq<Stage>)
    ensures (forall i :: 0 <= i < |stages| ==> StagePlaced(stages, i)) <==>
              && (forall i, j :: 0 <= i < j < |stages| ==> stages[i].id != stages[j].id)
              && (forall i, k :: 0 <= i < |stages| && 0 <= k < |stages[i].dependencies| ==>
                    EarlierStage(stages, i, stages[i].dependencies[k]))
  {
    if forall i :: 0 <= i < |stages| ==> StagePlaced(stages, i) {
      forall i, j | 0 <= i < j < |stages| ensures stages[i].id != stages[j].id { assert StagePlaced(stages, j); }
      forall i, k | 0 <= i < |stages| && 0 <= k < |stages[i].dependencies|
        ensures EarlierStage(stages, i, stages[i].dependencies[k])
      {
        assert StagePlaced(stages, i) && stages[i].dependencies[k] in stages[i].dependencies;
      }
    }
  }

  lemma AcceptanceDecided(spec: Spec)
    ensures WellFormed(spec) <==> Accepted(spec)
  {
    forall i | 0 <= i < |spec.stages| && i < |spec.operations|
      ensures StageMatchesOperation(spec, spec.stages[i], spec.operations[i]) <==>
                && StageWell(spec, spec.stages[i], spec.operations[i])
                && forall j, k :: 0 <= j < k < |spec.stages[i].dependencies| ==>
                     spec.stages[i].dependencies[j] != spec.stages[i].dependencies[k]
    {
      StageDecided(spec, spec.stages[i], spec.operations[i]);
    }
    PlacesDecided(spec.stages);
    SumsFrom(spec.stages, 0);
    assert Sum(TOKENS, spec.stages[..0]) == 0 && Sum(COST, spec.stages[..0]) == 0;
  }
}
