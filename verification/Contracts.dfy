/**
 Execution snapshots (execution/contracts.py): stages, limits and the loop that
 accepts a snapshot.  `WellFormed` says what an accepted snapshot is; the method
 `Admit` is the source's scan over the stages.
 */
module Contracts {
  import opened Basics

  const MAX_SAFE_INTEGER: int := 0x1F_FFFF_FFFF_FFFF
  const DEBATE := "debate-round-1"
  const JUDGE := "judge"
  const SYNTHESIS := "synthesis"
  const DISAGREEMENT := "judge_detected_material_disagreement"

  datatype Stage = Stage(
    id: string,
    dependencies: seq<string>,
    maximumInputTokens: int,
    maximumOutputTokens: int,
    costCap: int,
    isPublic: bool,
    activity: bool,
    condition: Option<string>
  ) {
    function TokenReservation(): int {
      maximumInputTokens + maximumOutputTokens
    }
  }

  /** One operation of the source plan that a stage is checked against. */
  datatype Operation = Operation(
    id: string,
    dependsOn: seq<string>,
    maximumInputTokens: int,
    maximumOutputTokens: int,
    isPublic: bool,
    activity: bool,
    condition: Option<string>,
    maximumRounds: int
  )

  datatype Engine = Core | Ultra

  datatype Limits = Limits(
    deadline: int,
    tokenLimit: int,
    costLimit: int,
    maxParallel: int,
    stageTimeout: real
  )

  datatype Spec = Spec(
    routeId: string,
    engine: Engine,
    operations: seq<Operation>,
    stages: seq<Stage>,
    limits: Limits,
    contextTokens: int
  )

  predicate PositiveInteger(value: int, maximum: int) {
    0 < value <= maximum
  }

  predicate IdentifierChar(c: char) {
    'A' <= c <= 'Z' || 'a' <= c <= 'z' || '0' <= c <= '9' || c in "_.:@-"
  }

  predicate Identifier(value: string) {
    1 <= |value| <= 128 && forall i :: 0 <= i < |value| ==> IdentifierChar(value[i])
  }

  predicate ValidLimits(limits: Limits) {
    && PositiveInteger(limits.deadline, MAX_SAFE_INTEGER)
    && PositiveInteger(limits.tokenLimit, MAX_SAFE_INTEGER)
    && PositiveInteger(limits.costLimit, MAX_SAFE_INTEGER)
    && PositiveInteger(limits.maxParallel, 5)
    && 0.0 < limits.stageTimeout < 240.0
  }

  const TOKENS: Stage -> int := (s: Stage) => s.TokenReservation()
  const COST: Stage -> int := (s: Stage) => s.costCap

  function Sum(weight: Stage -> int, stages: seq<Stage>): int {
    if stages == [] then 0 else Sum(weight, stages[..|stages| - 1]) + weight(stages[|stages| - 1])
  }

  function PublicIds(stages: seq<Stage>): seq<string> {
    if stages == [] then []
    else
      var last := stages[|stages| - 1];
      PublicIds(stages[..|stages| - 1]) + (if last.isPublic then [last.id] else [])
  }

  ghost predicate HasIdBefore(stages: seq<Stage>, bound: nat, id: string) {
    exists j :: 0 <= j < bound && j < |stages| && stages[j].id == id
  }

  predicate Distinct(ids: seq<string>) {
    forall i, j :: 0 <= i < j < |ids| ==> ids[i] != ids[j]
  }

  /** The checks on one stage that do not look at the other stages. */
  predicate StageMatchesOperation(spec: Spec, stage: Stage, operation: Operation) {
    && Identifier(stage.id)
    && Distinct(stage.dependencies)
    && PositiveInteger(stage.maximumInputTokens, MAX_SAFE_INTEGER)
    && PositiveInteger(stage.maximumOutputTokens, MAX_SAFE_INTEGER)
    && PositiveInteger(stage.costCap, MAX_SAFE_INTEGER)
    && stage.TokenReservation() <= spec.contextTokens
    && stage.id == operation.id
    && stage.dependencies == operation.dependsOn
    && stage.maximumInputTokens == operation.maximumInputTokens
    && stage.maximumOutputTokens == operation.maximumOutputTokens
    && stage.isPublic == operation.isPublic
    && stage.activity == operation.activity
    && stage.condition == operation.condition
    && (stage.condition.Some? ==>
          && spec.engine == Ultra
          && stage.id == DEBATE
          && stage.condition.value == DISAGREEMENT
          && operation.maximumRounds == 1)
  }

  /** Dependencies of stage `i` are earlier stages and its id is new. */
  ghost predicate StagePlaced(stages: seq<Stage>, i: nat)
    requires i < |stages|
  {
    && !HasIdBefore(stages, i, stages[i].id)
    && forall d :: d in stages[i].dependencies ==> HasIdBefore(stages, i, d)
  }

  ghost predicate WellFormed(spec: Spec) {
    && ValidLimits(spec.limits)
    && PositiveInteger(spec.contextTokens, MAX_SAFE_INTEGER)
    && 1 <= |spec.stages| <= 16
    && |spec.operations| == |spec.stages|
    && (forall i :: 0 <= i < |spec.stages| ==> StageMatchesOperation(spec, spec.stages[i], spec.operations[i]))
    && (forall i :: 0 <= i < |spec.stages| ==> StagePlaced(spec.stages, i))
    && (forall i :: 0 <= i < |spec.stages| ==> (spec.stages[i].isPublic <==> i == |spec.stages| - 1))
    && Sum(TOKENS, spec.stages) <= spec.limits.tokenLimit
    && Sum(COST, spec.stages) <= spec.limits.costLimit
  }

  /** The first stage carrying `id`. */
  function Find(stages: seq<Stage>, id: string): (r: Option<nat>)
    ensures r.Some? ==> r.value < |stages| && stages[r.value].id == id
    ensures r.None? <==> forall j :: 0 <= j < |stages| ==> stages[j].id != id
  {
    if stages == [] then None
    else
      var n := |stages| - 1;
      match Find(stages[..n], id)
      case Some(i) => Some(i)
      case None => if stages[n].id == id then Some(n) else None
  }

  lemma DistinctIds(spec: Spec, i: nat, j: nat)
    requires WellFormed(spec) && i < j < |spec.stages|
    ensures spec.stages[i].id != spec.stages[j].id
  {
    assert StagePlaced(spec.stages, j);
  }

  lemma FindIndex(spec: Spec, i: nat)
    requires WellFormed(spec) && i < |spec.stages|
    ensures Find(spec.stages, spec.stages[i].id) == Some(i)
  {
    var k := Find(spec.stages, spec.stages[i].id).value;
    if k < i {
      DistinctIds(spec, k, i);
    } else if i < k {
      DistinctIds(spec, i, k);
    }
  }

  /** Every dependency of an accepted stage names exactly one, earlier, stage. */
  lemma DependencyEarlier(spec: Spec, i: nat, d: string)
    requires WellFormed(spec) && i < |spec.stages| && d in spec.stages[i].dependencies
    ensures Find(spec.stages, d).Some? && Find(spec.stages, d).value < i
  {
    assert StagePlaced(spec.stages, i);
    var j :| 0 <= j < i && spec.stages[j].id == d;
    FindIndex(spec, j);
  }

  lemma {:induction false} PublicIdsShape(stages: seq<Stage>)
    requires forall i :: 0 <= i < |stages| ==> StagePlaced(stages, i)
    requires stages != []
    ensures PublicIds(stages) == [stages[|stages| - 1].id] <==>
            (forall i :: 0 <= i < |stages| ==> (stages[i].isPublic <==> i == |stages| - 1))
  {
    var n := |stages| - 1;
    PublicIdsMembers(stages[..n]);
    assert StagePlaced(stages, n);
    forall j | 0 <= j < n
      ensures stages[..n][j].id != stages[n].id
    {
      assert stages[..n][j] == stages[j];
    }
    assert stages[n].id !in PublicIds(stages[..n]);
    if !stages[n].isPublic {
      assert PublicIds(stages) == PublicIds(stages[..n]);
    }
  }

  lemma {:induction false} PublicIdsMembers(stages: seq<Stage>)
    ensures forall id :: id in PublicIds(stages) <==>
                         exists j :: 0 <= j < |stages| && stages[j].isPublic && stages[j].id == id
    ensures PublicIds(stages) == [] <==> forall j :: 0 <= j < |stages| ==> !stages[j].isPublic
  {
    if stages != [] {
      var n := |stages| - 1;
      PublicIdsMembers(stages[..n]);
      forall id | exists j :: 0 <= j < |stages| && stages[j].isPublic && stages[j].id == id
        ensures id in PublicIds(stages)
      {
        var j :| 0 <= j < |stages| && stages[j].isPublic && stages[j].id == id;
        if j < n {
          assert stages[..n][j].id == id;
        }
      }
      forall j | 0 <= j < |stages| && PublicIds(stages) == []
        ensures !stages[j].isPublic
      {
        if j < n {
          assert stages[..n][j] == stages[j];
        }
      }
    }
  }

  ghost predicate PrefixAccepted(spec: Spec, n: nat)
    requires n <= |spec.stages| == |spec.operations|
  {
    && (forall k :: 0 <= k < n ==> StageMatchesOperation(spec, spec.stages[k], spec.operations[k]))
    && (forall k :: 0 <= k < n ==> StagePlaced(spec.stages, k))
  }

  /** `seen` holds exactly the ids of the first `n` stages. */
  ghost predicate SeenBefore(stages: seq<Stage>, n: nat, seen: set<string>) {
    forall id :: id in seen <==> HasIdBefore(stages, n, id)
  }

  lemma SeenGrows(stages: seq<Stage>, n: nat, seen: set<string>)
    requires n < |stages| && SeenBefore(stages, n, seen)
    ensures SeenBefore(stages, n + 1, seen + {stages[n].id})
  {
    forall id ensures id in seen + {stages[n].id} <==> HasIdBefore(stages, n + 1, id) {
      if HasIdBefore(stages, n + 1, id) {
        var j :| 0 <= j < n + 1 && stages[j].id == id;
        if j < n { assert HasIdBefore(stages, n, id); }
      }
    }
  }

  lemma PlacedFromSeen(stages: seq<Stage>, n: nat, seen: set<string>)
    requires n < |stages| && SeenBefore(stages, n, seen)
    ensures StagePlaced(stages, n) <==>
            stages[n].id !in seen && forall d :: d in stages[n].dependencies ==> d in seen
  {
  }

  lemma PrefixGrows(spec: Spec, n: nat, seen: set<string>)
    requires n < |spec.stages| == |spec.operations| && SeenBefore(spec.stages, n, seen) && PrefixAccepted(spec, n)
    ensures PrefixAccepted(spec, n + 1) <==>
            && StageMatchesOperation(spec, spec.stages[n], spec.operations[n])
            && spec.stages[n].id !in seen
            && forall d :: d in spec.stages[n].dependencies ==> d in seen
  {
    PlacedFromSeen(spec.stages, n, seen);
  }

  lemma SumsGrow(stages: seq<Stage>, n: nat)
    requires n < |stages|
    ensures Sum(TOKENS, stages[..n + 1]) == Sum(TOKENS, stages[..n]) + stages[n].TokenReservation()
    ensures Sum(COST, stages[..n + 1]) == Sum(COST, stages[..n]) + stages[n].costCap
    ensures PublicIds(stages[..n + 1]) == PublicIds(stages[..n]) + (if stages[n].isPublic then [stages[n].id] else [])
  {
    assert stages[..n + 1][..n] == stages[..n];
  }

  /**
   The scan of `ExecutionSpec.__post_init__`: one pass over the zipped stages and
   operations with a growing set of ids, then the visibility and admission sums.
   */
  method Admit(spec: Spec) returns (accepted: bool)
    ensures accepted <==> WellFormed(spec)
  {
    if !ValidLimits(spec.limits) || !PositiveInteger(spec.contextTokens, MAX_SAFE_INTEGER) {
      return false;
    }
    if !(1 <= |spec.stages| <= 16) || |spec.operations| != |spec.stages| {
      return false;
    }
    var seen: set<string> := {};
    var publicIds: seq<string> := [];
    var tokens, cost := 0, 0;
    var i := 0;
    while i < |spec.stages|
      invariant 0 <= i <= |spec.stages|
      invariant SeenBefore(spec.stages, i, seen)
      invariant PrefixAccepted(spec, i)
      invariant publicIds == PublicIds(spec.stages[..i])
      invariant tokens == Sum(TOKENS, spec.stages[..i]) && cost == Sum(COST, spec.stages[..i])
    {
      var stage := spec.stages[i];
      PrefixGrows(spec, i, seen);
      assert WellFormed(spec) ==> PrefixAccepted(spec, i + 1);
      if !StageMatchesOperation(spec, stage, spec.operations[i]) {
        return false;
      }
      if stage.id in seen || !(forall d | d in stage.dependencies :: d in seen) {
        return false;
      }
      SumsGrow(spec.stages, i);
      SeenGrows(spec.stages, i, seen);
      seen := seen + {stage.id};
      publicIds := publicIds + (if stage.isPublic then [stage.id] else []);
      tokens, cost := tokens + stage.TokenReservation(), cost + stage.costCap;
      i := i + 1;
    }
    assert spec.stages[..i] == spec.stages;
    PublicIdsShape(spec.stages);
    accepted := && publicIds == [spec.stages[|spec.stages| - 1].id]
                && tokens <= spec.limits.tokenLimit
                && cost <= spec.limits.costLimit;
  }
}
