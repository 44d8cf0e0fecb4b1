/**
 The arithmetic and graph facts the batch scheduler relies on: a frontier with a
 pending stage has a ready one, a batch fits the parallel limit, and work left only
 goes down.
 */
module Scheduling {
  import opened Contracts
  import opened Journal

  /** Stage `i` may be started: pending, with every dependency done. */
  predicate IsReady(stages: seq<Stage>, rows: seq<StageRow>, i: nat)
    requires |rows| == |stages| && i < |stages|
  {
    && rows[i].state.Pending?
    && forall d | d in stages[i].dependencies ::
         Find(stages, d).Some? && rows[Find(stages, d).value].state.Done()
  }

  /** `[s for s in spec.stages if ...]`, as ordinals. */
  function ReadyUpTo(stages: seq<Stage>, rows: seq<StageRow>, n: nat): (ready: seq<nat>)
    requires |rows| == |stages| && n <= |stages|
    ensures forall k :: 0 <= k < |ready| ==> ready[k] < n && IsReady(stages, rows, ready[k])
    ensures forall j, k :: 0 <= j < k < |ready| ==> ready[j] < ready[k]
    ensures forall i :: 0 <= i < n && IsReady(stages, rows, i) ==> i in ready
  {
    if n == 0 then []
    else ReadyUpTo(stages, rows, n - 1) + (if IsReady(stages, rows, n - 1) then [n - 1] else [])
  }

  function PendingCount(rows: seq<StageRow>): nat {
    if rows == [] then 0
    else PendingCount(rows[..|rows| - 1]) + (if rows[|rows| - 1].state.Pending? then 1 else 0)
  }

  /** A clean frontier with work left always has a ready stage: the first pending one. */
  lemma {:induction false} ReadyStageExists(spec: Spec, rows: seq<StageRow>)
    requires WellFormed(spec) && |rows| == |spec.stages| && CleanFrontier(rows) && !AllDone(rows)
    ensures ReadyUpTo(spec.stages, rows, |rows|) != []
  {
    var i := FirstPending(rows);
    forall d | d in spec.stages[i].dependencies
      ensures Find(spec.stages, d).Some? && rows[Find(spec.stages, d).value].state.Done()
    {
      DependencyEarlier(spec, i, d);
    }
    assert i in ReadyUpTo(spec.stages, rows, |rows|);
  }

  lemma FirstPending(rows: seq<StageRow>) returns (i: nat)
    requires CleanFrontier(rows) && !AllDone(rows)
    ensures i < |rows| && rows[i].state.Pending?
    ensures forall j :: 0 <= j < i ==> rows[j].state.Done()
  {
    i := 0;
    while rows[i].state.Done()
      invariant i < |rows|
      invariant forall j :: 0 <= j < i ==> rows[j].state.Done()
      decreases |rows| - i
    {
      i := i + 1;
    }
  }

  lemma {:induction false} PendingUpdate(rows: seq<StageRow>, i: nat, row: StageRow)
    requires i < |rows| && rows[i].state.Pending?
    ensures PendingCount(rows[i := row]) == PendingCount(rows) - (if row.state.Pending? then 0 else 1)
    ensures PendingCount(rows) > 0
  {
    var n := |rows| - 1;
    if i == n {
      assert rows[i := row][..n] == rows[..n];
    } else {
      assert rows[i := row][..n] == rows[..n][i := row];
      PendingUpdate(rows[..n], i, row);
    }
  }

  lemma PendingLeft(rows: seq<StageRow>)
    requires CleanFrontier(rows) && !AllDone(rows)
    ensures PendingCount(rows) > 0
  {
    var i := FirstPending(rows);
    PendingUpdate(rows, i, rows[i]);
  }

  lemma {:induction false} PendingSame(rows: seq<StageRow>, rows': seq<StageRow>)
    requires |rows| == |rows'|
    requires forall i :: 0 <= i < |rows| ==> (rows'[i].state.Pending? <==> rows[i].state.Pending?)
    ensures PendingCount(rows') == PendingCount(rows)
  {
    if rows != [] {
      PendingSame(rows[..|rows| - 1], rows'[..|rows| - 1]);
    }
  }

  lemma {:induction false} PendingZero(rows: seq<StageRow>)
    requires forall i :: 0 <= i < |rows| ==> !rows[i].state.Pending?
    ensures PendingCount(rows) == 0
  {
    if rows != [] {
      PendingZero(rows[..|rows| - 1]);
    }
  }

  lemma PendingZeroWhenDone(rows: seq<StageRow>)
    ensures AllDone(rows) ==> PendingCount(rows) == 0
  {
    if AllDone(rows) { PendingZero(rows); }
  }

  /** Starting the batch members one after another. */
  lemma {:induction false} PendingAfterBatch(rows: seq<StageRow>, rows': seq<StageRow>, batch: seq<nat>)
    requires |rows| == |rows'|
    requires forall k :: 0 <= k < |batch| ==> batch[k] < |rows| && rows[batch[k]].state.Pending?
    requires forall j, k :: 0 <= j < k < |batch| ==> batch[j] != batch[k]
    requires forall k :: 0 <= k < |batch| ==> !rows'[batch[k]].state.Pending?
    requires forall i :: 0 <= i < |rows| && i !in batch ==> (rows'[i].state.Pending? <==> rows[i].state.Pending?)
    ensures PendingCount(rows') == PendingCount(rows) - |batch|
    decreases |batch|
  {
    if batch == [] {
      PendingSame(rows, rows');
    } else {
      var n := |batch| - 1;
      var last := batch[n];
      var middle := rows[last := rows'[last]];
      PendingUpdate(rows, last, rows'[last]);
      forall k | 0 <= k < n ensures middle[batch[k]].state.Pending? {}
      forall i | 0 <= i < |rows| && i !in batch[..n]
        ensures rows'[i].state.Pending? <==> middle[i].state.Pending?
      {
        if i != last { assert i !in batch; }
      }
      PendingAfterBatch(middle, rows', batch[..n]);
    }
  }

  /** A batch one of whose members is still pending has not used up as many rows as it has members. */
  lemma PendingLeftOver(rows: seq<StageRow>, rows': seq<StageRow>, batch: seq<nat>, k: nat)
    requires |rows| == |rows'| && k < |batch|
    requires forall j :: 0 <= j < |batch| ==> batch[j] < |rows|
    requires forall i :: 0 <= i < |rows| && i !in batch && rows[i].state.Pending? ==> rows'[i].state.Pending?
    requires rows'[batch[k]].state.Pending?
    ensures PendingCount(rows) < PendingCount(rows') + |batch|
  {
    var moved := batch[..k] + batch[k + 1..];
    OthersStay(batch, k);
    PendingAtLeast(rows, rows', moved);
  }

  lemma OthersStay(batch: seq<nat>, k: nat)
    requires k < |batch|
    ensures forall i :: i in batch ==> i == batch[k] || i in batch[..k] + batch[k + 1..]
  {
    var rest := batch[..k] + batch[k + 1..];
    forall j | 0 <= j < |batch| && j != k ensures batch[j] in rest {
      assert batch[j] == rest[if j < k then j else j - 1];
    }
  }

  lemma {:induction false} PendingAtLeast(rows: seq<StageRow>, rows': seq<StageRow>, moved: seq<nat>)
    requires |rows| == |rows'| && forall j :: 0 <= j < |moved| ==> moved[j] < |rows|
    requires forall i :: 0 <= i < |rows| && i !in moved && rows[i].state.Pending? ==> rows'[i].state.Pending?
    ensures PendingCount(rows) <= PendingCount(rows') + |moved|
    decreases |moved|
  {
    if moved == [] {
      PendingFewer(rows, rows');
    } else {
      var n := |moved| - 1;
      var last := moved[n];
      var middle := rows[last := rows'[last]];
      if rows[last].state.Pending? {
        PendingUpdate(rows, last, rows'[last]);
      } else {
        PendingFewer(rows, middle);
      }
      forall i | 0 <= i < |rows| && i !in moved[..n] && middle[i].state.Pending? ensures rows'[i].state.Pending? {
        if i != last { assert i !in moved; }
      }
      PendingAtLeast(middle, rows', moved[..n]);
    }
  }

  lemma {:induction false} PendingFewer(rows: seq<StageRow>, rows': seq<StageRow>)
    requires |rows| == |rows'|
    requires forall i :: 0 <= i < |rows| && rows[i].state.Pending? ==> rows'[i].state.Pending?
    ensures PendingCount(rows) <= PendingCount(rows')
  {
    if rows != [] { PendingFewer(rows[..|rows| - 1], rows'[..|rows| - 1]); }
  }

  /** In-flight rows confined to `holders` are at most that many. */
  lemma {:induction false} InFlightAtMost(rows: seq<StageRow>, holders: set<nat>)
    requires forall i :: 0 <= i < |rows| && rows[i].state.InFlight? ==> i in holders
    ensures InFlightCount(rows) <= |holders|
  {
    if rows != [] {
      var n := |rows| - 1;
      forall i | 0 <= i < n && rows[..n][i].state.InFlight?
        ensures i in holders - {n}
      {
        assert rows[i].state.InFlight?;
      }
      InFlightAtMost(rows[..n], holders - {n});
    }
  }
}
