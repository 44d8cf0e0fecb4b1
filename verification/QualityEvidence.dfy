/**
 Evidence accounting (evaluation/quality_evidence.py `analyze`): every attempt belongs to
 exactly one unit, the units are all (case, route, condition) combinations, and the p95 is
 the nearest-rank percentile.  Scoring of an answer is a parameter.
 */
module QualityEvidence {
  import opened Basics
  import opened Sorting

  datatype Condition = Cold | Warm

  datatype Outcome = Success | Failed | Cancelled | Uncertain

  datatype Attempt = Attempt(
    id: string,
    caseId: string,
    route: string,
    actual: string,
    condition: Condition,
    ordinal: int,
    outcome: Outcome,
    config: string
  )

  /** What scoring says about a successful last attempt. */
  datatype Score = ContractFailed | Pass | Fail | PendingReview

  datatype Verdict = Missing | Unsuccessful(outcome: Outcome) | Scored(score: Score)

  datatype UnitKey = UnitKey(caseId: string, route: string, condition: Condition)

  datatype Unit = Unit(key: UnitKey, verdict: Verdict, attempts: nat)

  type Scorer = Attempt -> Score

  function KeyOf(a: Attempt): UnitKey {
    UnitKey(a.caseId, a.route, a.condition)
  }

  function OfUnit(key: UnitKey): Attempt -> bool {
    (a: Attempt) => KeyOf(a) == key
  }

  function Filter(key: UnitKey, attempts: seq<Attempt>): seq<Attempt> {
    if attempts == [] then []
    else
      var a := attempts[|attempts| - 1];
      Filter(key, attempts[..|attempts| - 1]) + (if KeyOf(a) == key then [a] else [])
  }

  const BY_ORDINAL: (Attempt, Attempt) -> bool := (a: Attempt, b: Attempt) => a.ordinal <= b.ordinal

  function Rows(key: UnitKey, attempts: seq<Attempt>): seq<Attempt> {
    Sort(BY_ORDINAL, Filter(key, attempts))
  }

  /** Consecutive ordinals, retries only after a failure, one configuration and one actual route. */
  predicate UnitSound(rows: seq<Attempt>) {
    && (forall i :: 0 <= i < |rows| ==> rows[i].ordinal == i + 1)
    && (forall i :: 0 <= i < |rows| - 1 ==> rows[i].outcome.Failed?)
    && (forall i :: 0 <= i < |rows| ==> rows[i].config == rows[0].config && rows[i].actual == rows[0].actual)
  }

  function VerdictOf(rows: seq<Attempt>, score: Scorer): Verdict {
    if rows == [] then Missing
    else
      var last := rows[|rows| - 1];
      if last.outcome.Success? then Scored(score(last)) else Unsuccessful(last.outcome)
  }

  function UnitOf(key: UnitKey, attempts: seq<Attempt>, score: Scorer): Unit {
    var rows := Rows(key, attempts);
    Unit(key, VerdictOf(rows, score), |rows|)
  }

  /** The keys of all units, in the order of the three nested loops. */
  function RouteKeys(caseId: string, routes: seq<string>): seq<UnitKey> {
    if routes == [] then []
    else
      var r := routes[|routes| - 1];
      RouteKeys(caseId, routes[..|routes| - 1]) + [UnitKey(caseId, r, Cold), UnitKey(caseId, r, Warm)]
  }

  function AllKeys(cases: seq<string>, routes: seq<string>): seq<UnitKey> {
    if cases == [] then [] else AllKeys(cases[..|cases| - 1], routes) + RouteKeys(cases[|cases| - 1], routes)
  }

  predicate Distinct(s: seq<string>) {
    forall i, j :: 0 <= i < j < |s| ==> s[i] != s[j]
  }

  /** The checks on attempt rows that the accounting relies on. */
  predicate AttemptsAdmitted(cases: seq<string>, routes: seq<string>, attempts: seq<Attempt>) {
    && (forall i :: 0 <= i < |attempts| ==>
          attempts[i].caseId in cases && attempts[i].route in routes && attempts[i].ordinal >= 1)
    && (forall i, j :: 0 <= i < j < |attempts| ==> attempts[i].id != attempts[j].id)
  }

  predicate Analysable(cases: seq<string>, routes: seq<string>, attempts: seq<Attempt>) {
    && AttemptsAdmitted(cases, routes, attempts)
    && forall key :: key in AllKeys(cases, routes) ==> UnitSound(Rows(key, attempts))
  }

  function UnitsOf(keys: seq<UnitKey>, attempts: seq<Attempt>, score: Scorer): seq<Unit> {
    seq(|keys|, i requires 0 <= i < |keys| => UnitOf(keys[i], attempts, score))
  }

  // ---- the three nested loops -------------------------------------------------------------------

  method CheckUnit(rows: seq<Attempt>) returns (ok: bool)
    ensures ok <==> UnitSound(rows)
  {
    for i := 0 to |rows|
      invariant forall j :: 0 <= j < i ==> rows[j].ordinal == j + 1
      invariant forall j :: 0 <= j < i && j < |rows| - 1 ==> rows[j].outcome.Failed?
      invariant forall j :: 0 <= j < i ==> rows[j].config == rows[0].config && rows[j].actual == rows[0].actual
    {
      if rows[i].ordinal != i + 1 { return false; }
      if i < |rows| - 1 && !rows[i].outcome.Failed? { return false; }
      if rows[i].config != rows[0].config || rows[i].actual != rows[0].actual { return false; }
    }
    return true;
  }

  /** `units`: cases, then routes, then cold and warm. */
  method BuildUnits(cases: seq<string>, routes: seq<string>, attempts: seq<Attempt>, score: Scorer)
    returns (units: Option<seq<Unit>>)
    ensures units.Some? <==> forall key :: key in AllKeys(cases, routes) ==> UnitSound(Rows(key, attempts))
    ensures units.Some? ==> units.value == UnitsOf(AllKeys(cases, routes), attempts, score)
  {
    var built: seq<Unit> := [];
    for c := 0 to |cases|
      invariant built == UnitsOf(AllKeys(cases[..c], routes), attempts, score)
      invariant forall key :: key in AllKeys(cases[..c], routes) ==> UnitSound(Rows(key, attempts))
    {
      var more := BuildRoutes(cases[c], routes, attempts, score);
      if more.None? {
        KeysOfCase(cases, routes, c);
        return None;
      }
      OneCaseMore(cases, routes, attempts, score, c);
      built := built + more.value;
    }
    assert cases[..|cases|] == cases;
    return Some(built);
  }

  lemma OneCaseMore(cases: seq<string>, routes: seq<string>, attempts: seq<Attempt>, score: Scorer, c: nat)
    requires c < |cases|
    ensures AllKeys(cases[..c + 1], routes) == AllKeys(cases[..c], routes) + RouteKeys(cases[c], routes)
    ensures UnitsOf(AllKeys(cases[..c + 1], routes), attempts, score)
            == UnitsOf(AllKeys(cases[..c], routes), attempts, score)
               + UnitsOf(RouteKeys(cases[c], routes), attempts, score)
  {
    assert cases[..c + 1][..c] == cases[..c];
  }

  method BuildRoutes(caseId: string, routes: seq<string>, attempts: seq<Attempt>, score: Scorer)
    returns (units: Option<seq<Unit>>)
    ensures units.Some? <==> forall key :: key in RouteKeys(caseId, routes) ==> UnitSound(Rows(key, attempts))
    ensures units.Some? ==> units.value == UnitsOf(RouteKeys(caseId, routes), attempts, score)
  {
    var built: seq<Unit> := [];
    for r := 0 to |routes|
      invariant built == UnitsOf(RouteKeys(caseId, routes[..r]), attempts, score)
      invariant forall key :: key in RouteKeys(caseId, routes[..r]) ==> UnitSound(Rows(key, attempts))
    {
      assert routes[..r + 1][..r] == routes[..r];
      KeysOfRoute(caseId, routes, r);
      var cold, warm := UnitKey(caseId, routes[r], Cold), UnitKey(caseId, routes[r], Warm);
      var coldOk := CheckUnit(Rows(cold, attempts));
      if !coldOk { return None; }
      var warmOk := CheckUnit(Rows(warm, attempts));
      if !warmOk { return None; }
      built := built + [UnitOf(cold, attempts, score), UnitOf(warm, attempts, score)];
    }
    assert routes[..|routes|] == routes;
    return Some(built);
  }

  lemma {:induction false} KeysOfRoute(caseId: string, routes: seq<string>, r: nat)
    requires r < |routes|
    ensures UnitKey(caseId, routes[r], Cold) in RouteKeys(caseId, routes)
    ensures UnitKey(caseId, routes[r], Warm) in RouteKeys(caseId, routes)
  {
    var n := |routes| - 1;
    if r < n {
      KeysOfRoute(caseId, routes[..n], r);
    } else {
      assert RouteKeys(caseId, routes)[|RouteKeys(caseId, routes[..n])|] == UnitKey(caseId, routes[r], Cold);
      assert RouteKeys(caseId, routes)[|RouteKeys(caseId, routes[..n])| + 1] == UnitKey(caseId, routes[r], Warm);
    }
  }

  lemma {:induction false} KeysOfCase(cases: seq<string>, routes: seq<string>, c: nat)
    requires c < |cases|
    ensures forall key :: key in RouteKeys(cases[c], routes) ==> key in AllKeys(cases, routes)
  {
    var n := |cases| - 1;
    var fewer := cases[..n];
    assert AllKeys(cases, routes) == AllKeys(fewer, routes) + RouteKeys(cases[n], routes);
    if c < n {
      KeysOfCase(fewer, routes, c);
      assert fewer[c] == cases[c];
    }
  }

  /** `analyze`, the accounting part: the row checks, then the units. */
  method Analyze(cases: seq<string>, routes: seq<string>, attempts: seq<Attempt>, score: Scorer)
    returns (units: Option<seq<Unit>>)
    ensures units.Some? <==> Analysable(cases, routes, attempts)
    ensures units.Some? ==> units.value == UnitsOf(AllKeys(cases, routes), attempts, score)
  {
    var ids: set<string> := {};
    for i := 0 to |attempts|
      invariant AttemptsAdmitted(cases, routes, attempts[..i])
      invariant forall id :: id in ids <==> exists j :: 0 <= j < i && attempts[j].id == id
    {
      var row := attempts[i];
      if row.id in ids || row.caseId !in cases || row.route !in routes || row.ordinal < 1 { return None; }
      AdmitOne(cases, routes, attempts, i);
      ids := ids + {row.id};
    }
    assert attempts[..|attempts|] == attempts;
    units := BuildUnits(cases, routes, attempts, score);
  }

  lemma AdmitOne(cases: seq<string>, routes: seq<string>, attempts: seq<Attempt>, i: nat)
    requires i < |attempts| && AttemptsAdmitted(cases, routes, attempts[..i])
    requires attempts[i].caseId in cases && attempts[i].route in routes && attempts[i].ordinal >= 1
    requires forall j :: 0 <= j < i ==> attempts[j].id != attempts[i].id
    ensures AttemptsAdmitted(cases, routes, attempts[..i + 1])
  {
    var more := attempts[..i + 1];
    forall k | 0 <= k < |more|
      ensures more[k].caseId in cases && more[k].route in routes && more[k].ordinal >= 1
    {
      if k < i { assert more[k] == attempts[..i][k]; }
    }
    forall j, k | 0 <= j < k < |more| ensures more[j].id != more[k].id {
      assert more[j] == attempts[..i][j];
      if k < i { assert more[k] == attempts[..i][k]; }
    }
  }

  // ---- every attempt is in exactly one unit -----------------------------------------------------------

  function Is(key: UnitKey): UnitKey -> bool {
    (k: UnitKey) => k == key
  }

  lemma {:induction false} CountAppend<T(!new)>(p: T -> bool, a: seq<T>, b: seq<T>)
    ensures Count(p, a + b) == Count(p, a) + Count(p, b)
  {
    if b == [] {
      assert a + b == a;
    } else {
      var n := |b| - 1;
      assert a + b == (a + b[..n]) + [b[n]];
      CountSnoc(p, a + b[..n], b[n]);
      CountAppend(p, a, b[..n]);
    }
  }

  lemma LastIsNew(s: seq<string>, x: string)
    requires Distinct(s) && s != []
    ensures var n := |s| - 1;
            && Distinct(s[..n]) && s[n] !in s[..n]
            && (x in s <==> x in s[..n] || x == s[n])
  {
  }

  lemma {:induction false} RouteKeysOnce(caseId: string, routes: seq<string>, key: UnitKey)
    requires Distinct(routes)
    ensures Count(Is(key), RouteKeys(caseId, routes)) == if key.caseId == caseId && key.route in routes then 1 else 0
  {
    if routes != [] {
      var n := |routes| - 1;
      LastIsNew(routes, key.route);
      RouteKeysOnce(caseId, routes[..n], key);
      var earlier := RouteKeys(caseId, routes[..n]);
      var cold, warm := UnitKey(caseId, routes[n], Cold), UnitKey(caseId, routes[n], Warm);
      assert RouteKeys(caseId, routes) == (earlier + [cold]) + [warm];
      CountSnoc(Is(key), earlier + [cold], warm);
      CountSnoc(Is(key), earlier, cold);
      assert key.caseId == caseId && key.route == routes[n] ==> key == cold || key == warm by {
        assert key == UnitKey(key.caseId, key.route, key.condition);
        assert key.condition.Cold? || key.condition.Warm?;
      }
    }
  }

  lemma {:induction false} RouteKeysLength(caseId: string, routes: seq<string>)
    ensures |RouteKeys(caseId, routes)| == 2 * |routes|
  {
    if routes != [] { RouteKeysLength(caseId, routes[..|routes| - 1]); }
  }

  lemma {:induction false} AllKeysLength(cases: seq<string>, routes: seq<string>)
    ensures |AllKeys(cases, routes)| == |cases| * |routes| * 2
  {
    if cases != [] {
      var n := |cases| - 1;
      AllKeysLength(cases[..n], routes);
      RouteKeysLength(cases[n], routes);
      assert |cases| * |routes| == n * |routes| + |routes|;
    }
  }

  /** The units are the product of cases, routes and conditions, each exactly once. */
  lemma {:induction false} AllKeysOnce(cases: seq<string>, routes: seq<string>, key: UnitKey)
    requires Distinct(cases) && Distinct(routes)
    ensures Count(Is(key), AllKeys(cases, routes)) == if key.caseId in cases && key.route in routes then 1 else 0
  {
    if cases != [] {
      var n := |cases| - 1;
      LastIsNew(cases, key.caseId);
      AllKeysOnce(cases[..n], routes, key);
      RouteKeysOnce(cases[n], routes, key);
      CountAppend(Is(key), AllKeys(cases[..n], routes), RouteKeys(cases[n], routes));
    }
  }

  function SumRows(keys: seq<UnitKey>, attempts: seq<Attempt>): nat {
    if keys == [] then 0 else SumRows(keys[..|keys| - 1], attempts) + |Filter(keys[|keys| - 1], attempts)|
  }

  lemma {:induction false} SumRowsEmpty(keys: seq<UnitKey>)
    ensures SumRows(keys, []) == 0
  {
    if keys != [] { SumRowsEmpty(keys[..|keys| - 1]); }
  }

  /** One more attempt adds one row to each unit that carries its key. */
  lemma {:induction false} SumRowsSnoc(keys: seq<UnitKey>, attempts: seq<Attempt>, a: Attempt)
    ensures SumRows(keys, attempts + [a]) == SumRows(keys, attempts) + Count(Is(KeyOf(a)), keys)
  {
    if keys != [] {
      var n := |keys| - 1;
      SumRowsSnoc(keys[..n], attempts, a);
      assert (attempts + [a])[..|attempts|] == attempts;
    }
  }

  lemma {:induction false} RowsAddUp(cases: seq<string>, routes: seq<string>, attempts: seq<Attempt>)
    requires Distinct(cases) && Distinct(routes)
    requires forall i :: 0 <= i < |attempts| ==> attempts[i].caseId in cases && attempts[i].route in routes
    ensures SumRows(AllKeys(cases, routes), attempts) == |attempts|
  {
    if attempts == [] {
      SumRowsEmpty(AllKeys(cases, routes));
    } else {
      var n := |attempts| - 1;
      RowsAddUp(cases, routes, attempts[..n]);
      assert attempts == attempts[..n] + [attempts[n]];
      SumRowsSnoc(AllKeys(cases, routes), attempts[..n], attempts[n]);
      AllKeysOnce(cases, routes, KeyOf(attempts[n]));
    }
  }

  lemma {:induction false} FilterCounts(key: UnitKey, attempts: seq<Attempt>)
    ensures |Filter(key, attempts)| == Count(OfUnit(key), attempts)
    ensures forall a :: a in Filter(key, attempts) <==> a in attempts && KeyOf(a) == key
  {
    if attempts != [] {
      var n := |attempts| - 1;
      FilterCounts(key, attempts[..n]);
      assert attempts == attempts[..n] + [attempts[n]];
    }
  }

  lemma RowsExact(key: UnitKey, attempts: seq<Attempt>)
    ensures |Rows(key, attempts)| == |Filter(key, attempts)|
    ensures forall a :: a in Rows(key, attempts) <==> a in attempts && KeyOf(a) == key
  {
    SortSorted(BY_ORDINAL, Filter(key, attempts));
    FilterCounts(key, attempts);
    forall a ensures a in Rows(key, attempts) <==> a in Filter(key, attempts) {
      assert a in Rows(key, attempts) <==> a in multiset(Rows(key, attempts));
      assert a in Filter(key, attempts) <==> a in multiset(Filter(key, attempts));
    }
  }

  function SumAttempts(units: seq<Unit>): nat {
    if units == [] then 0 else SumAttempts(units[..|units| - 1]) + units[|units| - 1].attempts
  }

  lemma {:induction false} SumAttemptsIsSumRows(keys: seq<UnitKey>, attempts: seq<Attempt>, score: Scorer)
    ensures SumAttempts(UnitsOf(keys, attempts, score)) == SumRows(keys, attempts)
  {
    if keys != [] {
      var n := |keys| - 1;
      SumAttemptsIsSumRows(keys[..n], attempts, score);
      assert UnitsOf(keys, attempts, score)[..n] == UnitsOf(keys[..n], attempts, score);
      RowsExact(keys[n], attempts);
    }
  }

  /**
   Partition: an accepted bundle has cases x routes x 2 units, each attempt is a row of
   exactly one of them, the rows of a unit are exactly its attempts, and the attempts of
   the units add up to the attempts of the bundle.
   */
  lemma UnitsPartitionAttempts(cases: seq<string>, routes: seq<string>, attempts: seq<Attempt>, score: Scorer, i: nat)
    requires Distinct(cases) && Distinct(routes) && Analysable(cases, routes, attempts) && i < |attempts|
    ensures var keys := AllKeys(cases, routes);
            var units := UnitsOf(keys, attempts, score);
            && |units| == |cases| * |routes| * 2
            && Count(Is(KeyOf(attempts[i])), keys) == 1
            && (forall k :: 0 <= k < |units| ==>
                  (attempts[i] in Rows(units[k].key, attempts) <==> units[k].key == KeyOf(attempts[i])))
            && SumAttempts(units) == |attempts|
  {
    var keys := AllKeys(cases, routes);
    AllKeysOnce(cases, routes, KeyOf(attempts[i]));
    AllKeysLength(cases, routes);
    RowsAddUp(cases, routes, attempts);
    SumAttemptsIsSumRows(keys, attempts, score);
    forall k | 0 <= k < |keys| ensures attempts[i] in Rows(keys[k], attempts) <==> keys[k] == KeyOf(attempts[i]) {
      RowsExact(keys[k], attempts);
    }
  }

  /** The verdict on a unit is that on its last attempt; without an attempt it is missing. */
  lemma VerdictDecided(key: UnitKey, attempts: seq<Attempt>, score: Scorer)
    requires UnitSound(Rows(key, attempts))
    ensures var verdict := UnitOf(key, attempts, score).verdict;
            && (verdict == Missing <==> forall a :: a in attempts ==> KeyOf(a) != key)
            && forall a :: a in attempts && KeyOf(a) == key && LastOfUnit(key, attempts, a) ==>
                 verdict == if a.outcome == Success then Scored(score(a)) else Unsuccessful(a.outcome)
  {
    var rows := Rows(key, attempts);
    RowsExact(key, attempts);
    if rows != [] { assert rows[|rows| - 1] in rows; }
    forall a | a in attempts && KeyOf(a) == key && LastOfUnit(key, attempts, a) ensures a == rows[|rows| - 1] {
      assert a in rows;
      var k :| 0 <= k < |rows| && rows[k] == a;
      assert rows[|rows| - 1].ordinal <= a.ordinal;
    }
  }

  /** No attempt of the unit has a later number. */
  ghost predicate LastOfUnit(key: UnitKey, attempts: seq<Attempt>, a: Attempt) {
    forall b :: b in attempts && KeyOf(b) == key ==> b.ordinal <= a.ordinal
  }

  // ---- nearest-rank p95 -------------------------------------------------------------------------------

  const AT_MOST: (int, int) -> bool := (a: int, b: int) => a <= b

  function UpTo(v: int): int -> bool {
    (x: int) => x <= v
  }

  /** The nearest rank of the 95th percentile, from zero, in exact arithmetic. */
  function P95Index(n: nat): nat
    requires n > 0
  {
    (19 * n + 19) / 20 - 1
  }

  lemma P95IndexBounds(n: nat)
    requires n > 0
    ensures P95Index(n) < n
    ensures 20 * P95Index(n) < 19 * n <= 20 * (P95Index(n) + 1)
  {
  }

  function P95(samples: seq<int>): int
    requires samples != []
  {
    SortSorted(AT_MOST, samples);
    P95IndexBounds(|samples|);
    Sort(AT_MOST, samples)[P95Index(|samples|)]
  }

  lemma {:induction false} CountPrefix(s: seq<int>, v: int, k: nat)
    requires SortedBy(AT_MOST, s) && k < |s|
    ensures s[k] <= v ==> Count(UpTo(v), s) >= k + 1
    ensures v < s[k] ==> Count(UpTo(v), s) <= k
  {
    var n := |s| - 1;
    if k < n {
      CountPrefix(s[..n], v, k);
      assert AT_MOST(s[k], s[n]);
    } else if s[n] <= v {
      if n > 0 {
        assert AT_MOST(s[n - 1], s[n]);
        CountPrefix(s[..n], v, n - 1);
      }
    } else {
      CountNone(UpTo(v), s[..n]);
    }
  }

  /** The reported value is the least one with at least 19/20 of the samples at or below it. */
  lemma P95IsNearestRank(samples: seq<int>, v: int)
    requires samples != []
    ensures 19 * |samples| <= 20 * Count(UpTo(P95(samples)), samples)
    ensures 19 * |samples| <= 20 * Count(UpTo(v), samples) ==> P95(samples) <= v
  {
    var n := |samples|;
    var sorted := Sort(AT_MOST, samples);
    SortSorted(AT_MOST, samples);
    P95IndexBounds(n);
    SortCount(AT_MOST, samples, UpTo(P95(samples)));
    SortCount(AT_MOST, samples, UpTo(v));
    CountPrefix(sorted, P95(samples), P95Index(n));
    CountPrefix(sorted, v, P95Index(n));
  }
}
