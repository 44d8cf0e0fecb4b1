/**
 The adapter's tensor inventory (training/cosmo_adapter_receipt.py `validate_safetensors`):
 accepted exactly when the tensors tile the data section and every target has its share.
 */
module Safetensors {
  import opened Basics
  import opened Sorting

  datatype DType = F16 | BF16 | F32 | OtherType

  /** One header entry; `matched` lists the recipe targets whose LoRA names occur in its name. */
  datatype Tensor = Tensor(matched: seq<string>, dtype: DType, rows: int, columns: int, start: int, end: int)

  datatype Interval = Interval(start: int, end: int)

  function ItemBytes(d: DType): Option<int> {
    match d
    case F16 => Some(2)
    case BF16 => Some(2)
    case F32 => Some(4)
    case OtherType => None
  }

  predicate TensorValid(t: Tensor) {
    && |t.matched| == 1
    && ItemBytes(t.dtype).Some?
    && t.rows > 0 && t.columns > 0
    && 0 <= t.start < t.end
    && t.end - t.start == t.rows * t.columns * ItemBytes(t.dtype).value
  }

  /** An entry of one target, with a shape, whose range is as long as its numbers take. */
  lemma TensorDecided(t: Tensor)
    ensures TensorValid(t) <==>
              && (exists target :: t.matched == [target])
              && 1 <= t.rows && 1 <= t.columns && 0 <= t.start && t.start < t.end
              && ((t.dtype == F32 && t.end == t.start + 4 * (t.rows * t.columns))
                  || ((t.dtype == F16 || t.dtype == BF16) && t.end == t.start + 2 * (t.rows * t.columns)))
  {
    if |t.matched| == 1 { assert t.matched == [t.matched[0]]; }
    assert t.rows * t.columns * 2 == 2 * (t.rows * t.columns);
    assert t.rows * t.columns * 4 == 4 * (t.rows * t.columns);
  }

  function Range(t: Tensor): Interval {
    Interval(t.start, t.end)
  }

  function Ranges(ts: seq<Tensor>): seq<Interval> {
    seq(|ts|, i requires 0 <= i < |ts| => Range(ts[i]))
  }

  /** Tuples compare by start, then by end. */
  const EARLIER: (Interval, Interval) -> bool :=
    (a: Interval, b: Interval) => a.start < b.start || (a.start == b.start && a.end <= b.end)

  function Holds(b: int): Interval -> bool {
    (r: Interval) => r.start <= b < r.end
  }

  /** Every byte of the data section lies in exactly one range, every other byte in none. */
  ghost predicate Tiles(ranges: seq<Interval>, size: int) {
    forall b: int :: Count(Holds(b), ranges) == if 0 <= b < size then 1 else 0
  }

  /** The source's check on the sorted ranges. */
  predicate Chained(ordered: seq<Interval>, size: int) {
    && ordered != []
    && ordered[0].start == 0
    && (forall i :: 0 <= i < |ordered| - 1 ==> ordered[i].end == ordered[i + 1].start)
    && ordered[|ordered| - 1].end == size
  }

  predicate Proper(ranges: seq<Interval>) {
    forall i :: 0 <= i < |ranges| ==> 0 <= ranges[i].start < ranges[i].end
  }

  // ---- a chain tiles -------------------------------------------------------------------------

  lemma {:induction false} ChainTiles(ordered: seq<Interval>, size: int, b: int)
    requires Proper(ordered) && Chained(ordered, size)
    ensures Count(Holds(b), ordered) == if 0 <= b < size then 1 else 0
    ensures 0 < size
  {
    var n := |ordered| - 1;
    if n == 0 {
      assert ordered[..0] == [];
      assert Count(Holds(b), ordered[..0]) == 0;
    } else {
      ChainTiles(ordered[..n], ordered[n].start, b);
    }
  }

  // ---- a tiling, sorted, is a chain -------------------------------------------------------------

  lemma FirstAtZero(ordered: seq<Interval>, size: int)
    requires ordered != [] && Proper(ordered) && SortedBy(EARLIER, ordered) && Tiles(ordered, size) && 0 < size
    ensures ordered[0].start == 0
  {
    CountNone(Holds(0), ordered);
    assert Count(Holds(0), ordered) == 1;
    var i :| 0 <= i < |ordered| && Holds(0)(ordered[i]);
    assert i > 0 ==> EARLIER(ordered[0], ordered[i]);
  }

  /** A later range cannot end before an earlier one. */
  lemma EndsRise(ordered: seq<Interval>, size: int, i: nat, j: nat)
    requires i < j < |ordered| && Proper(ordered) && SortedBy(EARLIER, ordered) && Tiles(ordered, size)
    ensures ordered[i].end <= ordered[j].start
  {
    var b := ordered[j].start;
    assert EARLIER(ordered[i], ordered[j]);
    assert Count(Holds(b), ordered) <= 1;
    if b < ordered[i].end { CountTwo(Holds(b), ordered, i, j); }
  }

  lemma NeighboursMeet(ordered: seq<Interval>, size: int, i: nat)
    requires i + 1 < |ordered| && Proper(ordered) && SortedBy(EARLIER, ordered) && Tiles(ordered, size)
    ensures ordered[i].end == ordered[i + 1].start
  {
    EndsRise(ordered, size, i, i + 1);
    var b := ordered[i].end;
    StartsInside(ordered, size, i + 1);
    CountNone(Holds(b), ordered);
    assert Count(Holds(b), ordered) == 1;
    var k :| 0 <= k < |ordered| && Holds(b)(ordered[k]);
    if k < i {
      EndsRise(ordered, size, k, i);
    } else if i + 1 < k {
      EndsRise(ordered, size, i + 1, k);
    }
  }

  lemma StartsInside(ordered: seq<Interval>, size: int, i: nat)
    requires i < |ordered| && Proper(ordered) && Tiles(ordered, size)
    ensures ordered[i].start < size && ordered[i].end <= size
  {
    CountNone(Holds(ordered[i].start), ordered);
    CountNone(Holds(ordered[i].end - 1), ordered);
    assert Holds(ordered[i].start)(ordered[i]) && Holds(ordered[i].end - 1)(ordered[i]);
    assert Count(Holds(ordered[i].start), ordered) > 0 && Count(Holds(ordered[i].end - 1), ordered) > 0;
  }

  lemma LastAtSize(ordered: seq<Interval>, size: int)
    requires ordered != [] && Proper(ordered) && SortedBy(EARLIER, ordered) && Tiles(ordered, size)
    ensures ordered[|ordered| - 1].end == size
  {
    var n := |ordered| - 1;
    StartsInside(ordered, size, n);
    CountNone(Holds(size - 1), ordered);
    assert Count(Holds(size - 1), ordered) == 1;
    var k :| 0 <= k < |ordered| && Holds(size - 1)(ordered[k]);
    if k < n { EndsRise(ordered, size, k, n); }
  }

  lemma TilingChains(ordered: seq<Interval>, size: int)
    requires ordered != [] && Proper(ordered) && SortedBy(EARLIER, ordered) && Tiles(ordered, size) && 0 < size
    ensures Chained(ordered, size)
  {
    FirstAtZero(ordered, size);
    LastAtSize(ordered, size);
    forall i | 0 <= i < |ordered| - 1 ensures ordered[i].end == ordered[i + 1].start {
      NeighboursMeet(ordered, size, i);
    }
  }

  lemma ProperSorted(ranges: seq<Interval>)
    requires Proper(ranges)
    ensures Proper(Sort(EARLIER, ranges)) && SortedBy(EARLIER, Sort(EARLIER, ranges))
            && |Sort(EARLIER, ranges)| == |ranges|
  {
    SortSorted(EARLIER, ranges);
    var ordered := Sort(EARLIER, ranges);
    forall i | 0 <= i < |ordered| ensures 0 <= ordered[i].start < ordered[i].end {
      assert ordered[i] in multiset(ranges);
      var j :| 0 <= j < |ranges| && ranges[j] == ordered[i];
    }
  }

  /** The sorted check accepts exactly the ranges that tile the data section. */
  lemma ChainedIffTiles(ranges: seq<Interval>, size: int)
    requires Proper(ranges) && ranges != [] && 0 < size
    ensures Chained(Sort(EARLIER, ranges), size) <==> Tiles(ranges, size)
  {
    var ordered := Sort(EARLIER, ranges);
    ProperSorted(ranges);
    forall b: int ensures Count(Holds(b), ordered) == Count(Holds(b), ranges) {
      SortCount(EARLIER, ranges, Holds(b));
    }
    if Chained(ordered, size) {
      forall b: int ensures Count(Holds(b), ordered) == if 0 <= b < size then 1 else 0 {
        ChainTiles(ordered, size, b);
      }
    }
    if Tiles(ranges, size) {
      TilingChains(ordered, size);
    }
  }

  // ---- the validator ------------------------------------------------------------------------------

  function MatchCount(ts: seq<Tensor>, target: string): nat {
    if ts == [] then 0
    else MatchCount(ts[..|ts| - 1], target) + (if ts[|ts| - 1].matched == [target] then 1 else 0)
  }

  predicate AllValid(ts: seq<Tensor>) {
    forall i :: 0 <= i < |ts| ==> TensorValid(ts[i])
  }

  ghost predicate Inventory(ts: seq<Tensor>, targets: set<string>, layers: nat, size: int) {
    && |ts| == layers * |targets| * 2
    && AllValid(ts)
    && (forall i :: 0 <= i < |ts| ==> ts[i].matched[0] in targets)
    && (forall t :: t in targets ==> MatchCount(ts, t) == layers * 2)
    && Tiles(Ranges(ts), size)
  }

  /** The loop over the header: one interval and one count per tensor. */
  method ReadTensors(ts: seq<Tensor>, targets: set<string>)
    returns (intervals: seq<Interval>, counts: map<string, nat>, ok: bool)
    ensures ok <==> AllValid(ts) && forall i :: 0 <= i < |ts| ==> ts[i].matched[0] in targets
    ensures ok ==> intervals == Ranges(ts)
    ensures ok ==> counts.Keys == targets && forall t :: t in targets ==> counts[t] == MatchCount(ts, t)
  {
    intervals := [];
    counts := map t | t in targets :: 0;
    for i := 0 to |ts|
      invariant intervals == Ranges(ts[..i])
      invariant forall k :: 0 <= k < i ==> TensorValid(ts[k]) && ts[k].matched[0] in targets
      invariant CountsOf(ts[..i], targets, counts)
    {
      var t := ts[i];
      HeadSnoc(ts, i);
      if !TensorValid(t) || t.matched[0] !in targets { return [], map[], false; }
      CountOne(ts[..i], targets, counts, t);
      counts := counts[t.matched[0] := counts[t.matched[0]] + 1];
      intervals := intervals + [Interval(t.start, t.end)];
    }
    HeadWhole(ts);
    ok := true;
  }

  ghost predicate CountsOf(ts: seq<Tensor>, targets: set<string>, counts: map<string, nat>) {
    counts.Keys == targets && forall t :: t in targets ==> counts[t] == MatchCount(ts, t)
  }

  lemma CountOne(ts: seq<Tensor>, targets: set<string>, counts: map<string, nat>, t: Tensor)
    requires CountsOf(ts, targets, counts) && |t.matched| == 1 && t.matched[0] in targets
    ensures CountsOf(ts + [t], targets, counts[t.matched[0] := counts[t.matched[0]] + 1])
  {
    assert t.matched == [t.matched[0]];
    assert (ts + [t])[..|ts|] == ts;
  }

  /** Accepted exactly when the inventory is complete and its tensors tile the data section. */
  method ValidateSafetensors(ts: seq<Tensor>, targets: set<string>, layers: nat, size: int) returns (ok: bool)
    requires layers > 0 && |targets| > 0 && size > 0
    ensures ok <==> Inventory(ts, targets, layers, size)
  {
    if |ts| != layers * |targets| * 2 { return false; }
    var intervals, counts, read := ReadTensors(ts, targets);
    if !read || exists t | t in targets :: counts[t] != layers * 2 { return false; }
    NonEmptyInventory(ts, targets, layers);
    ChainedIffTiles(intervals, size);
    ok := Chained(Sort(EARLIER, intervals), size);
  }

  lemma NonEmptyInventory(ts: seq<Tensor>, targets: set<string>, layers: nat)
    requires |ts| == layers * |targets| * 2 && layers > 0 && |targets| > 0
    ensures ts != []
  {
    assert layers * |targets| > 0;
  }
}
