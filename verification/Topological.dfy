/**
 The topological-order reference answer (evaluation/a35_correction_data.py): repeatedly
 take the first task, by name, whose requirements are all done.
 */
module Topological {
  import opened Basics

  type Name = string

  type Tasks = map<Name, set<Name>>

  function Elements(order: seq<Name>): set<Name> {
    set n | n in order
  }

  /** The sort order of names. */
  predicate UpTo(a: Name, b: Name) {
    a == b || LexLess(a, b)
  }

  /** Every task once, each after everything it requires. */
  ghost predicate IsOrder(tasks: Tasks, order: seq<Name>) {
    && (forall i, j :: 0 <= i < j < |order| ==> order[i] != order[j])
    && (forall n :: n in order <==> n in tasks)
    && (forall i :: 0 <= i < |order| ==> tasks[order[i]] <= Elements(order[..i]))
  }

  /** `a` comes no later than `b` in lexicographic order. */
  ghost predicate NoLater(a: seq<Name>, b: seq<Name>) {
    a <= b || exists k :: 0 <= k < |a| && k < |b| && a[..k] == b[..k] && LexLess(a[k], b[k])
  }

  predicate IsReady(tasks: Tasks, done: seq<Name>, n: Name) {
    n in tasks && n !in done && tasks[n] <= Elements(done)
  }

  function ReadySet(tasks: Tasks, done: seq<Name>): set<Name> {
    set n | n in tasks && IsReady(tasks, done, n)
  }

  ghost predicate IsLeast(s: set<Name>, least: Name) {
    least in s && forall m :: m in s ==> UpTo(least, m)
  }

  lemma {:induction false} LeastExists(s: set<Name>)
    requires |s| > 0
    ensures exists least :: IsLeast(s, least)
    decreases s
  {
    var n :| n in s;
    var rest := s - {n};
    if |rest| == 0 {
      assert s == {n};
      assert IsLeast(s, n);
    } else {
      LeastExists(rest);
      var least :| IsLeast(rest, least);
      LexTotal(least, n);
      var smaller := if LexLess(n, least) then n else least;
      forall m | m in s ensures UpTo(smaller, m) {
        if m != n {
          assert UpTo(least, m);
          if LexLess(n, least) && least != m { LexTransitive(n, least, m); }
        }
      }
      assert IsLeast(s, smaller);
    }
  }

  /** While tasks remain, any order has a ready one: its first task not yet done. */
  lemma SomeTaskReady(tasks: Tasks, done: seq<Name>, order: seq<Name>)
    requires IsOrder(tasks, order) && exists n :: n in tasks && n !in done
    ensures ReadySet(tasks, done) != {}
  {
    var n :| n in tasks && n !in done;
    var j := 0;
    while order[j] in done
      invariant j < |order|
      invariant forall i :: 0 <= i < j ==> order[i] in done
      decreases |order| - j
    {
      assert n in order;
      j := j + 1;
    }
    assert Elements(order[..j]) <= Elements(done);
    assert order[j] in ReadySet(tasks, done);
  }

  /** The greedy choice keeps the partial result no later than any order. */
  lemma GreedyStep(tasks: Tasks, done: seq<Name>, least: Name, order: seq<Name>)
    requires IsOrder(tasks, order) && NoLater(done, order) && least in ReadySet(tasks, done)
    requires forall m :: m in ReadySet(tasks, done) ==> UpTo(least, m)
    ensures NoLater(done + [least], order)
  {
    if done <= order {
      var n := |done|;
      assert least in order;
      assert n == |order| ==> done == order;
      if n < |order| {
        assert order[..n] == done;
        assert order[n] in ReadySet(tasks, done);
        assert (done + [least])[..n] == order[..n];
        if least == order[n] { assert done + [least] <= order; }
      }
    } else {
      var k :| 0 <= k < |done| && k < |order| && done[..k] == order[..k] && LexLess(done[k], order[k]);
      assert (done + [least])[..k] == order[..k] && LexLess((done + [least])[k], order[k]);
    }
  }

  ghost predicate Solvable(tasks: Tasks) {
    exists order :: IsOrder(tasks, order)
  }

  /** The part of the order found so far. */
  ghost predicate Partial(tasks: Tasks, todo: Tasks, result: seq<Name>) {
    && (forall i, j :: 0 <= i < j < |result| ==> result[i] != result[j])
    && (forall n :: n in result ==> n in tasks)
    && (forall n :: n in todo <==> n in tasks && n !in result)
    && (forall n :: n in todo ==> todo[n] == tasks[n])
    && (forall i :: 0 <= i < |result| ==> tasks[result[i]] <= Elements(result[..i]))
    && (forall order :: IsOrder(tasks, order) ==> NoLater(result, order))
  }

  lemma StuckMeansUnsolvable(tasks: Tasks, todo: Tasks, result: seq<Name>)
    requires Partial(tasks, todo, result) && todo != map[] && ReadySet(tasks, result) == {}
    ensures !Solvable(tasks)
  {
    assert exists n :: n in tasks && n !in result by {
      var n :| n in todo;
    }
    forall order ensures !IsOrder(tasks, order) {
      if IsOrder(tasks, order) { SomeTaskReady(tasks, result, order); }
    }
  }

  lemma PartialGrows(tasks: Tasks, todo: Tasks, result: seq<Name>, name: Name)
    requires Partial(tasks, todo, result) && name in ReadySet(tasks, result)
    requires forall m :: m in ReadySet(tasks, result) ==> UpTo(name, m)
    ensures Partial(tasks, todo - {name}, result + [name])
  {
    var longer := result + [name];
    assert name in tasks;
    forall i | 0 <= i < |longer| ensures longer[i] in tasks {
      assert longer[i] == if i < |result| then result[i] else name;
      assert i < |result| ==> result[i] in result;
    }
    forall i | 0 <= i < |longer| ensures tasks[longer[i]] <= Elements(longer[..i]) {
      assert longer[..i] == if i < |result| then result[..i] else result;
    }
    forall order | IsOrder(tasks, order) ensures NoLater(longer, order) {
      GreedyStep(tasks, result, name, order);
    }
  }

  /**
   The loop terminates; it answers exactly when some order respects all requirements, and
   then with the lexicographically least such order.
   */
  method Order(tasks: Tasks) returns (answer: Option<seq<Name>>)
    ensures answer.Some? <==> Solvable(tasks)
    ensures answer.Some? ==> IsOrder(tasks, answer.value)
    ensures answer.Some? ==> forall order :: IsOrder(tasks, order) ==> NoLater(answer.value, order)
  {
    var todo := tasks;
    var result: seq<Name> := [];
    while |todo| > 0
      invariant Partial(tasks, todo, result)
      decreases |todo|
    {
      var ready := set n | n in todo && todo[n] <= Elements(result);
      assert forall n :: n in ready <==> n in ReadySet(tasks, result);
      assert ready == ReadySet(tasks, result);
      if |ready| == 0 {
        StuckMeansUnsolvable(tasks, todo, result);
        return None;
      }
      LeastExists(ready);
      assert exists least :: least in ready && forall m | m in ready :: UpTo(least, m) by {
        var least :| IsLeast(ready, least);
        assert least in ready && forall m | m in ready :: UpTo(least, m);
      }
      var name :| name in ready && forall m | m in ready :: UpTo(name, m);
      PartialGrows(tasks, todo, result, name);
      result := result + [name];
      todo := todo - {name};
    }
    assert todo == map[];
    assert IsOrder(tasks, result);
    return Some(result);
  }
}
