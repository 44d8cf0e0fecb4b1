/**
 What is on a page, in terms of the stored events, the fragments and the activity flag of the
 stages: nothing of a hidden stage, and everything else of the page's range, once, in order.
 */
module PageContents {
  import opened Basics
  import opened Contracts
  import opened Journal
  import opened JournalInvariants
  import opened EventLog
  import opened Replay

  /** The owner may see this event: it is the job's, an answer fragment, or that of a stage with activity. */
  ghost predicate Shown(job: Job, e: Event) {
    || e.stage == None
    || e.kind == AnswerFragment
    || exists i :: 0 <= i < |job.head.spec.stages| && job.head.spec.stages[i].id == e.stage.value
                   && job.head.spec.stages[i].activity
  }

  /** `e` repeats the stored event of its number, with the text stored for an answer fragment. */
  ghost predicate Repeats(job: Job, e: PublicEvent, lo: nat, hi: nat) {
    && lo < e.sequence <= hi <= |job.events|
    && var stored := job.events[e.sequence - 1];
       && stored.sequence == e.sequence && e.kind == stored.kind && e.stage == stored.stage
       && e.occurred == stored.occurred && Shown(job, stored)
       && (e.kind != AnswerFragment ==> e.content == None)
       && (e.kind == AnswerFragment ==>
             exists k :: 0 <= k < |job.fragments| && job.fragments[k].sequence == e.sequence
                         && e.content == Some(job.fragments[k].text))
  }

  /** `events` are exactly the visible ones numbered `lo + 1` to `hi`, in order. */
  ghost predicate TellsExactly(job: Job, events: seq<PublicEvent>, lo: nat, hi: nat)
    requires hi <= |job.events|
  {
    && (forall e :: e in events ==> Repeats(job, e, lo, hi))
    && (forall n :: lo <= n < hi && Shown(job, job.events[n]) ==>
          exists j :: 0 <= j < |events| && events[j].sequence == n + 1)
    && (forall i, j :: 0 <= i < j < |events| ==> events[i].sequence < events[j].sequence)
  }

  lemma ActivityShown(job: Job, e: Event)
    requires WellFormed(job.head.spec) && !e.kind.AnswerFragment?
    ensures Shown(job, e) <==> e.stage.None? || ActivityOf(job.head.spec, e.stage.value)
  {
    if e.stage.Some? {
      forall i | 0 <= i < |job.head.spec.stages| && job.head.spec.stages[i].id == e.stage.value
        ensures Find(job.head.spec.stages, e.stage.value) == Some(i)
      {
        FindIndex(job.head.spec, i);
      }
    }
  }

  lemma {:induction false} TextStored(fragments: seq<Fragment>, sequence: nat)
    ensures var found := TextAt(fragments, sequence);
            found.Some? ==> exists k :: 0 <= k < |fragments| && fragments[k].sequence == sequence
                                        && fragments[k] == found.value
  {
    if fragments != [] && fragments[0].sequence != sequence {
      TextStored(fragments[1..], sequence);
      if k :| 0 <= k < |fragments| - 1 && fragments[1..][k].sequence == sequence
              && Some(fragments[1..][k]) == TextAt(fragments[1..], sequence) {
        assert fragments[k + 1] == fragments[1..][k];
      }
    }
  }

  /** The stored text of an answer event: the first fragment of its number, of the public final stage that it names. */
  predicate TextOf(job: Job, e: Event, k: nat)
    requires Shaped(job) && job.rows != []
  {
    var last := job.head.spec.stages[|job.rows| - 1];
    && last.isPublic && e.stage == Some(last.id)
    && k < |job.fragments| && job.fragments[k].sequence == e.sequence && job.fragments[k].stage == last.id
    && forall j :: 0 <= j < k ==> job.fragments[j].sequence != e.sequence
  }

  /** Whatever the tables hold, an event is refused exactly if it is an answer without its text. */
  lemma IntegrityDecided(job: Job, e: Event)
    requires Shaped(job) && job.rows != []
    ensures Describe(job, e).None? <==> e.kind == AnswerFragment && forall k: nat :: !TextOf(job, e, k)
  {
    FirstText(job.fragments, e.sequence);
    var found := TextAt(job.fragments, e.sequence);
    if found.Some? {
      var k :| 0 <= k < |job.fragments| && job.fragments[k] == found.value && job.fragments[k].sequence == e.sequence
               && forall j :: 0 <= j < k ==> job.fragments[j].sequence != e.sequence;
      forall n: nat | TextOf(job, e, n) ensures n == k {}
      assert e.kind == AnswerFragment && Describe(job, e).Some? ==> TextOf(job, e, k);
    }
  }

  lemma {:induction false} FirstText(fragments: seq<Fragment>, sequence: nat)
    ensures var found := TextAt(fragments, sequence);
            && (found.None? ==> forall k :: 0 <= k < |fragments| ==> fragments[k].sequence != sequence)
            && (found.Some? ==>
                  exists k :: 0 <= k < |fragments| && fragments[k] == found.value && fragments[k].sequence == sequence
                              && forall j :: 0 <= j < k ==> fragments[j].sequence != sequence)
  {
    if fragments != [] && fragments[0].sequence != sequence {
      FirstText(fragments[1..], sequence);
      if k :| 0 <= k < |fragments| - 1 && Some(fragments[1..][k]) == TextAt(fragments[1..], sequence)
              && fragments[1..][k].sequence == sequence
              && forall j :: 0 <= j < k ==> fragments[1..][j].sequence != sequence {
        assert fragments[k + 1] == fragments[1..][k];
        forall j | 0 <= j < k + 1 ensures fragments[j].sequence != sequence {
          if j > 0 { assert fragments[j] == fragments[1..][j - 1]; }
        }
      }
    }
  }

  /** Whatever the tables hold, a page is made of consecutive events behind the cursor, as many as there should be. */
  lemma PageConsecutive(job: Job, after: nat, limit: nat)
    requires Shaped(job) && job.rows != [] && ReplayPage(job, after, limit).Some?
    ensures 1 <= limit <= 500 && after <= job.head.sequence
    ensures var rows := Limited(Newer(job.events, after), limit);
            && |rows| == Min(job.head.sequence - after, limit)
            && forall i :: 0 <= i < |rows| ==> rows[i].sequence == after + 1 + i
  {
  }

  /** One event is told exactly if it may be seen. */
  lemma EventTold(job: Job, n: nat)
    requires WellFormed(job.head.spec) && Readable(job) && n < |job.events|
    ensures var r := Describe(job, job.events[n]);
            && r.Some? && |r.value| == (if Shown(job, job.events[n]) then 1 else 0)
            && forall e :: e in r.value ==> e.sequence == n + 1 && Repeats(job, e, n, n + 1)
  {
    if job.events[n].kind.AnswerFragment? {
      AnswerText(job, n);
      TextStored(job.fragments, n + 1);
    } else {
      ActivityShown(job, job.events[n]);
    }
  }

  lemma TellsOneMore(job: Job, events: seq<PublicEvent>, more: seq<PublicEvent>, lo: nat, n: nat)
    requires lo <= n < |job.events| && TellsExactly(job, events, lo, n)
    requires |more| == (if Shown(job, job.events[n]) then 1 else 0)
    requires forall e :: e in more ==> e.sequence == n + 1 && Repeats(job, e, n, n + 1)
    ensures TellsExactly(job, events + more, lo, n + 1)
  {
    var all := events + more;
    forall e | e in all ensures Repeats(job, e, lo, n + 1) {
      if e in events { RepeatsWider(job, e, lo, n); } else { assert e in more; }
    }
    forall m | lo <= m < n + 1 && Shown(job, job.events[m])
      ensures exists j :: 0 <= j < |all| && all[j].sequence == m + 1
    {
      CoveredOneMore(events, more, m, n);
    }
    OrderedOneMore(job, events, more, lo, n);
  }

  lemma CoveredOneMore(events: seq<PublicEvent>, more: seq<PublicEvent>, m: nat, n: nat)
    requires m < n ==> exists j :: 0 <= j < |events| && events[j].sequence == m + 1
    requires m >= n ==> m == n && more != [] && more[0].sequence == n + 1
    ensures exists j :: 0 <= j < |events + more| && (events + more)[j].sequence == m + 1
  {
    if m < n {
      var j :| 0 <= j < |events| && events[j].sequence == m + 1;
      assert (events + more)[j] == events[j];
    } else {
      assert (events + more)[|events|] == more[0];
    }
  }

  lemma RepeatsWider(job: Job, e: PublicEvent, lo: nat, n: nat)
    requires Repeats(job, e, lo, n) && n < |job.events|
    ensures Repeats(job, e, lo, n + 1)
  {
  }

  lemma OrderedOneMore(job: Job, events: seq<PublicEvent>, more: seq<PublicEvent>, lo: nat, n: nat)
    requires forall e :: e in events ==> e.sequence <= n
    requires forall i, j :: 0 <= i < j < |events| ==> events[i].sequence < events[j].sequence
    requires |more| <= 1 && forall e :: e in more ==> e.sequence == n + 1
    ensures forall i, j :: 0 <= i < j < |events + more| ==> (events + more)[i].sequence < (events + more)[j].sequence
  {
    forall i, j | 0 <= i < j < |events + more| ensures (events + more)[i].sequence < (events + more)[j].sequence {
      assert (events + more)[i] == events[i] && events[i] in events;
      if |events| <= j { assert (events + more)[j] == more[0] && more[0] in more; }
    }
  }

  lemma {:induction false} RangeTells(job: Job, lo: nat, hi: nat)
    requires WellFormed(job.head.spec) && Readable(job) && lo <= hi <= |job.events|
    ensures var r := DescribeAll(job, job.events[lo..hi]); r.Some? && TellsExactly(job, r.value, lo, hi)
    decreases hi
  {
    if lo < hi {
      RangeTells(job, lo, hi - 1);
      RangeTellsMore(job, lo, hi, DescribeAll(job, job.events[lo..hi - 1]).value);
    }
  }

  lemma RangeTellsMore(job: Job, lo: nat, hi: nat, earlier: seq<PublicEvent>)
    requires WellFormed(job.head.spec) && Readable(job) && lo < hi <= |job.events|
    requires DescribeAll(job, job.events[lo..hi - 1]) == Some(earlier) && TellsExactly(job, earlier, lo, hi - 1)
    ensures var r := DescribeAll(job, job.events[lo..hi]); r.Some? && TellsExactly(job, r.value, lo, hi)
  {
    EventTold(job, hi - 1);
    var more := Describe(job, job.events[hi - 1]).value;
    DescribedSnoc(job, lo, hi, earlier, more);
    TellsOneMore(job, earlier, more, lo, hi - 1);
  }

  lemma DescribedSnoc(job: Job, lo: nat, hi: nat, earlier: seq<PublicEvent>, more: seq<PublicEvent>)
    requires Shaped(job) && job.rows != [] && lo < hi <= |job.events|
    requires DescribeAll(job, job.events[lo..hi - 1]) == Some(earlier)
             && Describe(job, job.events[hi - 1]) == Some(more)
    ensures DescribeAll(job, job.events[lo..hi]) == Some(earlier + more)
  {
    var rows := job.events[lo..hi];
    assert rows[..|rows| - 1] == job.events[lo..hi - 1];
  }

  lemma PageRows(job: Job, after: nat, limit: nat, hi: nat)
    requires Numbered(job) && after <= job.head.sequence && hi == after + Min(job.head.sequence - after, limit)
    requires Newer(job.events, after) == job.events[after..]
    ensures Limited(Newer(job.events, after), limit) == job.events[after..hi]
  {
    TailHead(job.events, after, hi);
  }

  /** A page of 1 to 500 events behind a cursor that was reached tells exactly the visible events of its range. */
  lemma PageTells(job: Job, after: nat, limit: nat)
    requires WellFormed(job.head.spec) && Readable(job)
    ensures var page := ReplayPage(job, after, limit);
            && (page.Some? <==> 1 <= limit <= 500 && after <= job.head.sequence)
            && (page.Some? ==>
                  && page.value.next == after + Min(job.head.sequence - after, limit) <= |job.events|
                  && TellsExactly(job, page.value.events, after, page.value.next))
  {
    if 1 <= limit <= 500 && after <= job.head.sequence { PageExists(job, after, limit); }
  }

  lemma PageExists(job: Job, after: nat, limit: nat)
    requires WellFormed(job.head.spec) && Readable(job) && after <= job.head.sequence && 1 <= limit <= 500
    ensures var page := ReplayPage(job, after, limit);
            && page.Some? && page.value.next == after + Min(job.head.sequence - after, limit) <= |job.events|
            && TellsExactly(job, page.value.events, after, page.value.next)
  {
    var hi := after + Min(job.head.sequence - after, limit);
    NewerIsSuffix(job.events, 0, after);
    RangeTells(job, after, hi);
    PageRows(job, after, limit, hi);
    PageOf(job, after, limit, hi);
  }

  /** The pages of a whole reading together tell exactly the visible events up to the cursor. */
  lemma PagingTells(p: Platform, owner: string, idem: string, spec: Spec, created: int, visits: seq<Visit>)
    requires WellFormed(spec) && forall v :: v in visits ==> 1 <= v.limit <= MAX_PAGE
    ensures var r := Follow(p, NewJob(owner, idem, spec, created), 0, visits);
            && r.Some? && r.value.cursor <= |r.value.job.events|
            && TellsExactly(r.value.job, r.value.heard, 0, r.value.cursor)
  {
    var start := NewJob(owner, idem, spec, created);
    PagingIsExact(p, owner, idem, spec, created, visits);
    NewJobLogbook(owner, idem, spec, created);
    FollowExact(p, start, 0, visits);
    var r := Follow(p, start, 0, visits).value;
    LogbookReadable(r.job);
    RangeTells(r.job, 0, r.cursor);
    RangeTold(r.job, 0, r.cursor);
    assert Told(r.job, 0) == [];
    EmptyFirst(DescribeAll(r.job, r.job.events[0..r.cursor]).value);
  }
}
