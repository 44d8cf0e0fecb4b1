/** A stable insertion sort, with the facts its callers use. */
module Sorting {

  ghost predicate TotalOrder<T(!new)>(leq: (T, T) -> bool) {
    && (forall a, b :: leq(a, b) || leq(b, a))
    && (forall a, b, c :: leq(a, b) && leq(b, c) ==> leq(a, c))
  }

  ghost predicate SortedBy<T(!new)>(leq: (T, T) -> bool, s: seq<T>) {
    forall i, j :: 0 <= i < j < |s| ==> leq(s[i], s[j])
  }

  function Insert<T(!new)>(leq: (T, T) -> bool, s: seq<T>, x: T): seq<T> {
    if s == [] then [x]
    else if leq(s[|s| - 1], x) then s + [x]
    else Insert(leq, s[..|s| - 1], x) + [s[|s| - 1]]
  }

  function Sort<T(!new)>(leq: (T, T) -> bool, s: seq<T>): seq<T> {
    if s == [] then [] else Insert(leq, Sort(leq, s[..|s| - 1]), s[|s| - 1])
  }

  /** How many elements satisfy `p`. */
  function Count<T(!new)>(p: T -> bool, s: seq<T>): nat {
    if s == [] then 0 else Count(p, s[..|s| - 1]) + (if p(s[|s| - 1]) then 1 else 0)
  }

  lemma CountSnoc<T(!new)>(p: T -> bool, s: seq<T>, x: T)
    ensures Count(p, s + [x]) == Count(p, s) + (if p(x) then 1 else 0)
  {
    assert (s + [x])[..|s|] == s;
  }

  lemma SplitLast<T>(s: seq<T>)
    requires s != []
    ensures s == s[..|s| - 1] + [s[|s| - 1]] && multiset(s) == multiset(s[..|s| - 1]) + multiset{s[|s| - 1]}
  {
    assert s == s[..|s| - 1] + [s[|s| - 1]];
  }

  lemma {:induction false} InsertMultiset<T(!new)>(leq: (T, T) -> bool, s: seq<T>, x: T)
    ensures multiset(Insert(leq, s, x)) == multiset(s) + multiset{x}
  {
    if s != [] {
      SplitLast(s);
      if !leq(s[|s| - 1], x) { InsertMultiset(leq, s[..|s| - 1], x); }
    }
  }

  lemma {:induction false} InsertSorted<T(!new)>(leq: (T, T) -> bool, s: seq<T>, x: T)
    requires TotalOrder(leq) && SortedBy(leq, s)
    ensures SortedBy(leq, Insert(leq, s, x))
  {
    if s != [] {
      var n := |s| - 1;
      if leq(s[n], x) {
        forall i | 0 <= i < |s| ensures leq(s[i], x) {
          assert i < n ==> leq(s[i], s[n]);
        }
      } else {
        InsertSorted(leq, s[..n], x);
        InsertMultiset(leq, s[..n], x);
        var rest := Insert(leq, s[..n], x);
        forall k | 0 <= k < |rest| ensures leq(rest[k], s[n]) {
          assert rest[k] in multiset(rest);
          if rest[k] != x {
            assert rest[k] in s[..n];
            var i :| 0 <= i < n && s[i] == rest[k];
          }
        }
      }
    }
  }

  lemma {:induction false} SortSorted<T(!new)>(leq: (T, T) -> bool, s: seq<T>)
    requires TotalOrder(leq)
    ensures SortedBy(leq, Sort(leq, s)) && multiset(Sort(leq, s)) == multiset(s) && |Sort(leq, s)| == |s|
  {
    if s != [] {
      var n := |s| - 1;
      SplitLast(s);
      SortSorted(leq, s[..n]);
      InsertSorted(leq, Sort(leq, s[..n]), s[n]);
      InsertMultiset(leq, Sort(leq, s[..n]), s[n]);
      assert |multiset(Sort(leq, s))| == |multiset(s)|;
    }
  }

  lemma {:induction false} InsertCount<T(!new)>(leq: (T, T) -> bool, s: seq<T>, x: T, p: T -> bool)
    ensures Count(p, Insert(leq, s, x)) == Count(p, s) + (if p(x) then 1 else 0)
  {
    if s == [] {
      CountSnoc(p, [], x);
    } else {
      var n := |s| - 1;
      if leq(s[n], x) {
        CountSnoc(p, s, x);
      } else {
        InsertCount(leq, s[..n], x, p);
        CountSnoc(p, Insert(leq, s[..n], x), s[n]);
      }
    }
  }

  /** Sorting loses and repeats nothing, whatever one counts. */
  lemma {:induction false} SortCount<T(!new)>(leq: (T, T) -> bool, s: seq<T>, p: T -> bool)
    ensures Count(p, Sort(leq, s)) == Count(p, s)
  {
    if s != [] {
      SortCount(leq, s[..|s| - 1], p);
      InsertCount(leq, Sort(leq, s[..|s| - 1]), s[|s| - 1], p);
    }
  }

  lemma {:induction false} CountNone<T(!new)>(p: T -> bool, s: seq<T>)
    ensures Count(p, s) == 0 <==> forall i :: 0 <= i < |s| ==> !p(s[i])
    ensures Count(p, s) <= |s|
  {
    if s != [] { CountNone(p, s[..|s| - 1]); }
  }

  /** Two different positions make a count of at least two. */
  lemma {:induction false} CountTwo<T(!new)>(p: T -> bool, s: seq<T>, i: nat, j: nat)
    requires i < j < |s| && p(s[i]) && p(s[j])
    ensures Count(p, s) >= 2
  {
    var n := |s| - 1;
    if j < n {
      CountTwo(p, s[..n], i, j);
    } else {
      CountNone(p, s[..n]);
      assert p(s[..n][i]);
    }
  }
}
