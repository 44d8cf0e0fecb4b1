/**
 The archived suite bridge (evaluation/historical_suite_bridge.py): case categories are
 counted when the suite is mapped, unit results are counted per category, and the final
 reconciliation of the two never fails.
 */
module SuiteBridge {
  import opened Basics
  import opened QualityEvidence

  datatype ArchivedCase = ArchivedCase(id: string, category: string, exact: bool)

  /** EXPECTED_CATEGORIES: category names in order, with their case counts. */
  datatype Expected = Expected(names: seq<string>, count: string -> nat, exactCases: nat, reviewedCases: nat)

  predicate ValidExpected(e: Expected) {
    Distinct(e.names) && forall i :: 0 <= i < |e.names| ==> e.count(e.names[i]) > 0
  }

  function CategoryCount(cases: seq<ArchivedCase>, name: string): nat {
    if cases == [] then 0
    else CategoryCount(cases[..|cases| - 1], name) + (if cases[|cases| - 1].category == name then 1 else 0)
  }

  function ExactCount(cases: seq<ArchivedCase>): nat {
    if cases == [] then 0 else ExactCount(cases[..|cases| - 1]) + (if cases[|cases| - 1].exact then 1 else 0)
  }

  function CaseIds(cases: seq<ArchivedCase>): seq<string> {
    seq(|cases|, i requires 0 <= i < |cases| => cases[i].id)
  }

  predicate Mappable(cases: seq<ArchivedCase>, e: Expected) {
    && (forall i :: 0 <= i < |cases| ==> cases[i].category in e.names)
    && (forall name :: name in e.names ==> CategoryCount(cases, name) == e.count(name))
    && ExactCount(cases) == e.exactCases && |cases| - ExactCount(cases) == e.reviewedCases
    && Distinct(CaseIds(cases))
  }

  /** `map_cases`: two counters over the cases, compared with the pinned totals. */
  method MapCases(cases: seq<ArchivedCase>, e: Expected) returns (ok: bool)
    requires ValidExpected(e)
    ensures ok <==> Mappable(cases, e)
  {
    var categories: multiset<string> := multiset{};
    var exact, reviewed := 0, 0;
    for i := 0 to |cases|
      invariant forall name :: categories[name] == CategoryCount(cases[..i], name)
      invariant exact == ExactCount(cases[..i]) && reviewed == i - exact
      invariant forall j :: 0 <= j < i ==> cases[j].category in categories
    {
      assert cases[..i + 1][..i] == cases[..i];
      categories := categories + multiset{cases[i].category};
      if cases[i].exact { exact := exact + 1; } else { reviewed := reviewed + 1; }
    }
    assert cases[..|cases|] == cases;
    ok := && (forall c | c in categories :: c in e.names)
          && (forall name | name in e.names :: categories[name] == e.count(name))
          && exact == e.exactCases && reviewed == e.reviewedCases
          && Distinct(CaseIds(cases));
    if !(forall c | c in categories :: c in e.names) {
      var c :| c in categories && c !in e.names;
      SomeCaseOf(cases, c);
    }
  }

  lemma {:induction false} SomeCaseOf(cases: seq<ArchivedCase>, name: string)
    requires CategoryCount(cases, name) > 0
    ensures exists i :: 0 <= i < |cases| && cases[i].category == name
  {
    var n := |cases| - 1;
    if cases[n].category != name {
      SomeCaseOf(cases[..n], name);
      var i :| 0 <= i < n && cases[..n][i].category == name;
      assert cases[i].category == name;
    }
  }

  // ---- summarize_evidence -------------------------------------------------------------------

  type Categories = map<string, string>

  ghost predicate Describes(categories: Categories, cases: seq<ArchivedCase>) {
    forall i :: 0 <= i < |cases| ==> cases[i].id in categories && categories[cases[i].id] == cases[i].category
  }

  predicate InCategory(categories: Categories, u: Unit, name: string) {
    u.key.caseId in categories && categories[u.key.caseId] == name
  }

  ghost predicate AllKnown(categories: Categories, units: seq<Unit>, names: seq<string>) {
    forall i :: 0 <= i < |units| ==> units[i].key.caseId in categories && categories[units[i].key.caseId] in names
  }

  /** The counter of one category. */
  function Tally(categories: Categories, units: seq<Unit>, name: string): multiset<Verdict> {
    if units == [] then multiset{}
    else
      var u := units[|units| - 1];
      Tally(categories, units[..|units| - 1], name)
        + (if InCategory(categories, u, name) then multiset{u.verdict} else multiset{})
  }

  /** How often each verdict was given. */
  function Verdicts(units: seq<Unit>): multiset<Verdict> {
    if units == [] then multiset{} else Verdicts(units[..|units| - 1]) + multiset{units[|units| - 1].verdict}
  }

  /** The sum of the counters of all categories. */
  function TallyAll(categories: Categories, units: seq<Unit>, names: seq<string>): multiset<Verdict> {
    if names == [] then multiset{}
    else TallyAll(categories, units, names[..|names| - 1]) + Tally(categories, units, names[|names| - 1])
  }

  lemma TallySnoc(categories: Categories, units: seq<Unit>, u: Unit, name: string)
    ensures Tally(categories, units + [u], name)
            == Tally(categories, units, name)
               + (if InCategory(categories, u, name) then multiset{u.verdict} else multiset{})
  {
    assert (units + [u])[..|units|] == units;
  }

  lemma {:induction false} TallyAppend(categories: Categories, a: seq<Unit>, b: seq<Unit>, name: string)
    ensures Tally(categories, a + b, name) == Tally(categories, a, name) + Tally(categories, b, name)
  {
    if b == [] {
      assert a + b == a;
    } else {
      var n := |b| - 1;
      assert a + b == (a + b[..n]) + [b[n]];
      TallySnoc(categories, a + b[..n], b[n], name);
      TallyAppend(categories, a, b[..n], name);
    }
  }

  lemma {:induction false} TallyOneCase(categories: Categories, units: seq<Unit>, caseId: string, name: string)
    requires caseId in categories && forall i :: 0 <= i < |units| ==> units[i].key.caseId == caseId
    ensures |Tally(categories, units, name)| == if categories[caseId] == name then |units| else 0
  {
    if units != [] { TallyOneCase(categories, units[..|units| - 1], caseId, name); }
  }

  lemma {:induction false} RouteKeysCase(caseId: string, routes: seq<string>)
    ensures forall i :: 0 <= i < |RouteKeys(caseId, routes)| ==> RouteKeys(caseId, routes)[i].caseId == caseId
  {
    if routes != [] { RouteKeysCase(caseId, routes[..|routes| - 1]); }
  }

  lemma UnitsOfAppend(a: seq<UnitKey>, b: seq<UnitKey>, attempts: seq<Attempt>, score: Scorer)
    ensures UnitsOf(a + b, attempts, score) == UnitsOf(a, attempts, score) + UnitsOf(b, attempts, score)
  {
  }

  /** The units of one more case land in its category. */
  lemma TallyCase(categories: Categories, earlier: seq<UnitKey>, id: string, routes: seq<string>,
                  attempts: seq<Attempt>, score: Scorer, name: string)
    requires id in categories
    ensures |Tally(categories, UnitsOf(earlier + RouteKeys(id, routes), attempts, score), name)|
            == |Tally(categories, UnitsOf(earlier, attempts, score), name)|
               + (if categories[id] == name then 2 * |routes| else 0)
  {
    var last := RouteKeys(id, routes);
    UnitsOfAppend(earlier, last, attempts, score);
    TallySizeAppend(categories, UnitsOf(earlier, attempts, score), UnitsOf(last, attempts, score), name);
    RouteKeysLength(id, routes);
    RouteUnitsCase(id, routes, attempts, score);
    TallyOneCase(categories, UnitsOf(last, attempts, score), id, name);
  }

  lemma TallySizeAppend(categories: Categories, a: seq<Unit>, b: seq<Unit>, name: string)
    ensures |Tally(categories, a + b, name)| == |Tally(categories, a, name)| + |Tally(categories, b, name)|
  {
    TallyAppend(categories, a, b, name);
  }

  lemma RouteUnitsCase(id: string, routes: seq<string>, attempts: seq<Attempt>, score: Scorer)
    ensures var units := UnitsOf(RouteKeys(id, routes), attempts, score);
            forall i :: 0 <= i < |units| ==> units[i].key.caseId == id
  {
    RouteKeysCase(id, routes);
  }

  lemma CaseIdsSplit(cases: seq<ArchivedCase>, routes: seq<string>)
    requires cases != []
    ensures var n := |cases| - 1;
            AllKeys(CaseIds(cases), routes) == AllKeys(CaseIds(cases[..n]), routes) + RouteKeys(cases[n].id, routes)
  {
    var n := |cases| - 1;
    assert CaseIds(cases)[..n] == CaseIds(cases[..n]);
  }

  /** Units of a category: two per case of the category and route. */
  lemma {:induction false} TallySize(categories: Categories, cases: seq<ArchivedCase>, routes: seq<string>,
                                     attempts: seq<Attempt>, score: Scorer, name: string)
    requires Describes(categories, cases)
    ensures |Tally(categories, UnitsOf(AllKeys(CaseIds(cases), routes), attempts, score), name)|
            == CategoryCount(cases, name) * |routes| * 2
  {
    if cases == [] {
      assert CaseIds(cases) == [];
      assert UnitsOf(AllKeys([], routes), attempts, score) == [];
    } else {
      var n := |cases| - 1;
      TallySize(categories, cases[..n], routes, attempts, score, name);
      CaseIdsSplit(cases, routes);
      TallyCase(categories, AllKeys(CaseIds(cases[..n]), routes), cases[n].id, routes, attempts, score, name);
      OneMore(CategoryCount(cases[..n], name), CategoryCount(cases, name), |routes|,
              |Tally(categories, UnitsOf(AllKeys(CaseIds(cases[..n]), routes), attempts, score), name)|,
              |Tally(categories, UnitsOf(AllKeys(CaseIds(cases), routes), attempts, score), name)|,
              cases[n].category == name);
    }
  }

  lemma OneMore(before: nat, count: nat, routes: nat, sizeBefore: nat, size: nat, extra: bool)
    requires count == before + (if extra then 1 else 0)
    requires sizeBefore == before * routes * 2 && size == sizeBefore + (if extra then 2 * routes else 0)
    ensures size == count * routes * 2
  {
    if extra { assert count * routes == before * routes + routes; }
  }

  lemma {:induction false} TallyAllSnoc(categories: Categories, units: seq<Unit>, u: Unit, names: seq<string>)
    requires Distinct(names) && u.key.caseId in categories
    ensures TallyAll(categories, units + [u], names)
            == TallyAll(categories, units, names)
               + (if categories[u.key.caseId] in names then multiset{u.verdict} else multiset{})
  {
    if names != [] {
      var n := |names| - 1;
      LastIsNew(names, categories[u.key.caseId]);
      TallyAllSnoc(categories, units, u, names[..n]);
      TallySnoc(categories, units, u, names[n]);
    }
  }

  lemma {:induction false} TallyAllNothing(categories: Categories, names: seq<string>)
    ensures TallyAll(categories, [], names) == multiset{}
  {
    if names != [] { TallyAllNothing(categories, names[..|names| - 1]); }
  }

  /** Every unit is counted in exactly one category. */
  lemma {:induction false} TalliesAddUp(categories: Categories, units: seq<Unit>, names: seq<string>)
    requires Distinct(names)
    requires AllKnown(categories, units, names)
    ensures TallyAll(categories, units, names) == Verdicts(units)
  {
    if units == [] {
      TallyAllNothing(categories, names);
    } else {
      var n := |units| - 1;
      TalliesAddUp(categories, units[..n], names);
      assert units == units[..n] + [units[n]];
      TallyAllSnoc(categories, units[..n], units[n], names);
    }
  }

  lemma {:induction false} KeysKnown(cases: seq<ArchivedCase>, routes: seq<string>, key: UnitKey)
    requires key in AllKeys(CaseIds(cases), routes)
    ensures exists i :: 0 <= i < |cases| && cases[i].id == key.caseId
  {
    var n := |cases| - 1;
    CaseIdsSplit(cases, routes);
    RouteKeysCase(cases[n].id, routes);
    if key in AllKeys(CaseIds(cases[..n]), routes) {
      KeysKnown(cases[..n], routes, key);
      var i :| 0 <= i < n && cases[..n][i].id == key.caseId;
      assert cases[i].id == key.caseId;
    } else {
      assert cases[n].id == key.caseId;
    }
  }

  /** The two reconciliations at the end of `summarize_evidence`. */
  predicate Reconciled(e: Expected, routes: seq<string>, counts: map<string, multiset<Verdict>>, all: multiset<Verdict>,
                       total: multiset<Verdict>)
    requires forall name :: name in e.names ==> name in counts
  {
    && (forall name | name in e.names :: |counts[name]| == e.count(name) * |routes| * 2)
    && total == all
  }

  /**
   `summarize_evidence`: refused exactly when the mapping or the analysis refuses; both
   reconciliations at the end pass whatever the attempts were.
   */
  method SummarizeEvidence(cases: seq<ArchivedCase>, e: Expected, routes: seq<string>, attempts: seq<Attempt>,
                           score: Scorer)
    returns (counts: Option<map<string, multiset<Verdict>>>)
    requires ValidExpected(e)
    ensures counts.Some? <==> Mappable(cases, e) && Analysable(CaseIds(cases), routes, attempts)
    ensures counts.Some? ==> counts.value.Keys == (set name | name in e.names)
    ensures counts.Some? ==> forall name :: name in e.names ==> |counts.value[name]| == e.count(name) * |routes| * 2
    ensures counts.Some? ==> forall name :: name in e.names ==>
              exists categories :: Describes(categories, cases) &&
                counts.value[name] == Tally(categories, UnitsOf(AllKeys(CaseIds(cases), routes), attempts, score), name)
  {
    var mapped := MapCases(cases, e);
    if !mapped { return None; }
    var analysed := Analyze(CaseIds(cases), routes, attempts, score);
    if analysed.None? { return None; }
    var categories := CategoryMap(cases);
    var units := analysed.value;
    UnitsKnown(cases, e, routes, attempts, score, categories);
    var tallies := CountResults((set name | name in e.names), categories, units);
    TalliesMatch(cases, e, routes, attempts, score, categories, tallies);
    var total := SumCounters(e.names, categories, units, tallies);
    var reconciled := |categories| == |cases| && Reconciled(e, routes, tallies, Verdicts(units), total);
    counts := if reconciled then Some(tallies) else None;
  }

  /** Why neither reconciliation can fail. */
  lemma TalliesMatch(cases: seq<ArchivedCase>, e: Expected, routes: seq<string>, attempts: seq<Attempt>, score: Scorer,
                     categories: Categories, counts: map<string, multiset<Verdict>>)
    requires ValidExpected(e) && Mappable(cases, e) && Describes(categories, cases)
    requires Counted((set name | name in e.names), categories,
                     UnitsOf(AllKeys(CaseIds(cases), routes), attempts, score), counts)
    ensures forall name :: name in e.names ==> |counts[name]| == e.count(name) * |routes| * 2
    ensures var units := UnitsOf(AllKeys(CaseIds(cases), routes), attempts, score);
            TallyAll(categories, units, e.names) == Verdicts(units)
  {
    UnitsKnown(cases, e, routes, attempts, score, categories);
    TalliesAddUp(categories, UnitsOf(AllKeys(CaseIds(cases), routes), attempts, score), e.names);
    forall name | name in e.names ensures |counts[name]| == e.count(name) * |routes| * 2 {
      TallySize(categories, cases, routes, attempts, score, name);
    }
  }

  lemma UnitsKnown(cases: seq<ArchivedCase>, e: Expected, routes: seq<string>, attempts: seq<Attempt>, score: Scorer,
                   categories: Categories)
    requires Mappable(cases, e) && Describes(categories, cases)
    ensures var units := UnitsOf(AllKeys(CaseIds(cases), routes), attempts, score);
            AllKnown(categories, units, e.names)
  {
    var keys := AllKeys(CaseIds(cases), routes);
    forall i | 0 <= i < |keys| ensures keys[i].caseId in categories && categories[keys[i].caseId] in e.names {
      KeysKnown(cases, routes, keys[i]);
    }
  }

  /** The category of every archived case, by its identifier. */
  method CategoryMap(cases: seq<ArchivedCase>) returns (categories: Categories)
    requires Distinct(CaseIds(cases))
    ensures Describes(categories, cases) && |categories| == |cases|
  {
    categories := map[];
    for i := 0 to |cases|
      invariant |categories| == i && forall id :: id in categories ==> exists j :: 0 <= j < i && cases[j].id == id
      invariant forall j :: 0 <= j < i ==> cases[j].id in categories && categories[cases[j].id] == cases[j].category
    {
      forall j | 0 <= j < i ensures cases[j].id != cases[i].id {
        assert CaseIds(cases)[j] != CaseIds(cases)[i];
      }
      categories := categories[cases[i].id := cases[i].category];
    }
  }

  /** The counter of every category holds the verdicts of its units. */
  ghost predicate Counted(names: set<string>, categories: Categories, units: seq<Unit>,
                          counts: map<string, multiset<Verdict>>)
  {
    counts.Keys == names && forall name :: name in names ==> counts[name] == Tally(categories, units, name)
  }

  lemma CountedOne(names: set<string>, categories: Categories, units: seq<Unit>, u: Unit,
                   counts: map<string, multiset<Verdict>>, category: string)
    requires Counted(names, categories, units, counts)
    requires u.key.caseId in categories && categories[u.key.caseId] == category && category in names
    ensures Counted(names, categories, units + [u], counts[category := counts[category] + multiset{u.verdict}])
  {
    var next := counts[category := counts[category] + multiset{u.verdict}];
    assert next.Keys == names + {category};
    forall name | name in names ensures next[name] == Tally(categories, units + [u], name) {
      TallySnoc(categories, units, u, name);
    }
  }

  method CountResults(names: set<string>, categories: Categories, units: seq<Unit>)
    returns (counts: map<string, multiset<Verdict>>)
    requires forall i :: 0 <= i < |units| ==>
               units[i].key.caseId in categories && categories[units[i].key.caseId] in names
    ensures Counted(names, categories, units, counts)
  {
    counts := map name | name in names :: multiset{};
    CountedNone(names, categories, units, counts);
    for i := 0 to |units|
      invariant Counted(names, categories, units[..i], counts)
    {
      HeadSnoc(units, i);
      counts := CountOne(names, categories, units[..i], units[i], counts);
    }
    HeadWhole(units);
  }

  lemma CountedNone(names: set<string>, categories: Categories, units: seq<Unit>,
                    counts: map<string, multiset<Verdict>>)
    requires counts.Keys == names && forall name :: name in names ==> counts[name] == multiset{}
    ensures Counted(names, categories, units[..0], counts)
  {
  }

  method CountOne(names: set<string>, categories: Categories, ghost seen: seq<Unit>, u: Unit,
                  counts: map<string, multiset<Verdict>>)
    returns (next: map<string, multiset<Verdict>>)
    requires Counted(names, categories, seen, counts)
    requires u.key.caseId in categories && categories[u.key.caseId] in names
    ensures Counted(names, categories, seen + [u], next)
  {
    var category := categories[u.key.caseId];
    CountedOne(names, categories, seen, u, counts, category);
    next := counts[category := counts[category] + multiset{u.verdict}];
  }

  lemma TallyAllTake(categories: Categories, units: seq<Unit>, names: seq<string>, i: nat)
    requires i < |names|
    ensures TallyAll(categories, units, names[..i + 1])
            == TallyAll(categories, units, names[..i]) + Tally(categories, units, names[i])
  {
    assert names[..i + 1][..i] == names[..i];
  }

  method SumCounters(names: seq<string>, ghost categories: Categories, ghost units: seq<Unit>,
                     counts: map<string, multiset<Verdict>>)
    returns (total: multiset<Verdict>)
    requires forall i :: 0 <= i < |names| ==>
               names[i] in counts && counts[names[i]] == Tally(categories, units, names[i])
    ensures total == TallyAll(categories, units, names)
  {
    total := multiset{};
    for i := 0 to |names|
      invariant total == TallyAll(categories, units, names[..i])
    {
      TallyAllTake(categories, units, names, i);
      total := total + counts[names[i]];
    }
    assert names[..|names|] == names;
  }
}
