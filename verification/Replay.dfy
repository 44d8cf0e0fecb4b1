/**
 Owner-visible replay (execution/store.py `replay`).  `Told` is the reference
 account of the log; paging by cursor reproduces it however the pages are cut
 and whatever is appended between two pages.
 */
module Replay {
  import opened Basics
  import opened Contracts
  import opened Journal
  import opened JournalInvariants
  import opened EventLog

  const MAX_PAGE: nat := 500

  datatype PublicEvent = PublicEvent(
    sequence: nat,
    kind: EventKind,
    stage: Option<string>,
    occurred: int,
    content: Option<string>
  )

  datatype Page = Page(events: seq<PublicEvent>, next: nat)

  // ---- the query -----------------------------------------------------------------------

  /** `WHERE sequence > after`, in stored order. */
  function Newer(events: seq<Event>, after: nat): seq<Event> {
    if events == [] then []
    else (if after < events[0].sequence then [events[0]] else []) + Newer(events[1..], after)
  }

  function Limited(events: seq<Event>, limit: nat): seq<Event> {
    if |events| <= limit then events else events[..limit]
  }

  function TextAt(fragments: seq<Fragment>, sequence: nat): Option<Fragment> {
    if fragments == [] then None
    else if fragments[0].sequence == sequence then Some(fragments[0])
    else TextAt(fragments[1..], sequence)
  }

  predicate ActivityOf(spec: Spec, id: string) {
    var found := Find(spec.stages, id);
    found.Some? && spec.stages[found.value].activity
  }

  /** What one row contributes; None when the source raises an integrity error. */
  function Describe(job: Job, e: Event): Option<seq<PublicEvent>>
    requires Shaped(job) && job.rows != []
  {
    var last := job.head.spec.stages[|job.rows| - 1];
    if e.kind.AnswerFragment? then
      var row := TextAt(job.fragments, e.sequence);
      if !last.isPublic || e.stage != Some(last.id) || row.None? || Some(row.value.stage) != e.stage then None
      else Some([PublicEvent(e.sequence, e.kind, e.stage, e.occurred, Some(row.value.text))])
    else if e.stage.None? || ActivityOf(job.head.spec, e.stage.value) then
      Some([PublicEvent(e.sequence, e.kind, e.stage, e.occurred, None)])
    else Some([])
  }

  function DescribeAll(job: Job, events: seq<Event>): Option<seq<PublicEvent>>
    requires Shaped(job) && job.rows != []
  {
    if events == [] then Some([])
    else
      var n := |events| - 1;
      var earlier, e := DescribeAll(job, events[..n]), Describe(job, events[n]);
      if earlier.None? || e.None? then None else Some(earlier.value + e.value)
  }

  predicate Gapless(rows: seq<Event>, after: nat) {
    forall i :: 0 <= i < |rows| ==> rows[i].sequence == after + i + 1
  }

  function ReplayPage(job: Job, after: nat, limit: nat): Option<Page>
    requires Shaped(job) && job.rows != []
  {
    var rows := Limited(Newer(job.events, after), limit);
    if !(1 <= limit <= MAX_PAGE) || job.head.sequence < after then None
    else if |rows| != Min(job.head.sequence - after, limit) || !Gapless(rows, after) then None
    else
      match DescribeAll(job, rows)
      case None => None
      case Some(events) => Some(Page(events, if rows == [] then after else rows[|rows| - 1].sequence))
  }

  // ---- the reference account ---------------------------------------------------------------

  /** The filtered log with the fragment texts dealt out in order, last event first. */
  function Story(spec: Spec, events: seq<Event>, texts: seq<string>): seq<PublicEvent> {
    if events == [] then []
    else
      var n := |events| - 1;
      var e := events[n];
      if e.kind.AnswerFragment? then
        if texts == [] then []
        else
          var t := |texts| - 1;
          Story(spec, events[..n], texts[..t]) + [PublicEvent(e.sequence, e.kind, e.stage, e.occurred, Some(texts[t]))]
      else
        Story(spec, events[..n], texts) +
        if e.stage.None? || ActivityOf(spec, e.stage.value)
        then [PublicEvent(e.sequence, e.kind, e.stage, e.occurred, None)] else []
  }

  /** Everything a reader should know after the first `n` events. */
  function Told(job: Job, n: nat): seq<PublicEvent>
    requires n <= |job.events|
  {
    var k := |Answers(job.events[..n])|;
    Story(job.head.spec, job.events[..n], Texts(LimitedFragments(job.fragments, k)))
  }

  function LimitedFragments(fragments: seq<Fragment>, k: nat): seq<Fragment> {
    if |fragments| <= k then fragments else fragments[..k]
  }

  /** The part of the journal invariant that a reader depends on. */
  ghost predicate Readable(job: Job) {
    && Shaped(job) && job.rows != []
    && job.head.spec.stages[|job.rows| - 1].isPublic
    && Numbered(job)
    && Aligned(job.events, job.fragments)
    && forall k :: 0 <= k < |job.fragments| ==> job.fragments[k].stage == job.head.spec.stages[|job.rows| - 1].id
  }

  lemma LogbookReadable(job: Job)
    requires Logbook(job)
    ensures Readable(job)
  {
  }

  // ---- the query meets the account -----------------------------------------------------------

  lemma {:induction false} NewerIsSuffix(events: seq<Event>, first: nat, after: nat)
    requires forall i :: 0 <= i < |events| ==> events[i].sequence == first + i + 1
    requires first <= after <= first + |events|
    ensures Newer(events, after) == events[after - first..]
  {
    if events != [] {
      if first < after {
        NewerIsSuffix(events[1..], first + 1, after);
      } else {
        NewerAll(events, after);
      }
    }
  }

  lemma {:induction false} NewerAll(events: seq<Event>, after: nat)
    requires forall i :: 0 <= i < |events| ==> after < events[i].sequence
    ensures Newer(events, after) == events
  {
    if events != [] {
      NewerAll(events[1..], after);
    }
  }

  lemma {:induction false} AnswersOf(events: seq<Event>)
    requires forall i :: 0 <= i < |events| ==> events[i].sequence == i + 1
    ensures |Answers(events)| <= |events|
    ensures forall k :: 0 <= k < |Answers(events)| ==> 1 <= Answers(events)[k].sequence <= |events|
    ensures forall j, k :: 0 <= j < k < |Answers(events)| ==> Answers(events)[j].sequence < Answers(events)[k].sequence
  {
    if events != [] {
      AnswersOf(events[..|events| - 1]);
    }
  }

  lemma {:induction false} AnswersPrefix(events: seq<Event>, n: nat)
    requires n <= |events|
    ensures Answers(events[..n]) <= Answers(events)
  {
    if n == |events| {
      assert events[..n] == events;
    } else {
      assert events[..|events| - 1][..n] == events[..n];
      AnswersPrefix(events[..|events| - 1], n);
    }
  }

  lemma {:induction false} TextFound(fragments: seq<Fragment>, k: nat)
    requires k < |fragments|
    requires forall i, j :: 0 <= i < j < |fragments| ==> fragments[i].sequence != fragments[j].sequence
    ensures TextAt(fragments, fragments[k].sequence) == Some(fragments[k])
  {
    if k > 0 {
      TextFound(fragments[1..], k - 1);
    }
  }

  /** The n-th event, when it is an answer, carries the next undealt fragment. */
  lemma AnswerText(job: Job, n: nat)
    requires Readable(job) && n < |job.events| && job.events[n].kind.AnswerFragment?
    ensures var k := |Answers(job.events[..n])|;
            && k < |job.fragments|
            && |Answers(job.events[..n + 1])| == k + 1
            && Describe(job, job.events[n]).Some?
            && TextAt(job.fragments, job.events[n].sequence) == Some(job.fragments[k])
  {
    var e := job.events[n];
    var k := |Answers(job.events[..n])|;
    assert job.events[..n + 1] == job.events[..n] + [e];
    Snoc(job.events[..n], e, "");
    AnswersPrefix(job.events, n + 1);
    assert Answers(job.events)[k] == e;
    AnswersOf(job.events);
    TextFound(job.fragments, k);
  }

  lemma ToldStep(job: Job, n: nat)
    requires Readable(job) && n < |job.events|
    ensures Describe(job, job.events[n]).Some?
    ensures Told(job, n + 1) == Told(job, n) + Describe(job, job.events[n]).value
  {
    var e := job.events[n];
    var k := |Answers(job.events[..n])|;
    assert job.events[..n + 1][..n] == job.events[..n];
    Snoc(job.events[..n], e, "");
    assert job.events[..n + 1] == job.events[..n] + [e];
    if e.kind.AnswerFragment? {
      AnswerText(job, n);
      var some := LimitedFragments(job.fragments, k + 1);
      assert Texts(some)[..k] == Texts(LimitedFragments(job.fragments, k));
      assert Texts(some)[k] == job.fragments[k].text;
    }
  }

  lemma {:induction false} RangeTold(job: Job, lo: nat, hi: nat)
    requires Readable(job) && lo <= hi <= |job.events|
    ensures DescribeAll(job, job.events[lo..hi]).Some?
    ensures Told(job, hi) == Told(job, lo) + DescribeAll(job, job.events[lo..hi]).value
    decreases hi
  {
    if lo < hi {
      RangeTold(job, lo, hi - 1);
      ToldStep(job, hi - 1);
      RangeSnoc(job, lo, hi, Told(job, lo), Told(job, hi - 1), Told(job, hi));
    }
  }

  lemma RangeSnoc(job: Job, lo: nat, hi: nat, start: seq<PublicEvent>, before: seq<PublicEvent>,
                  after: seq<PublicEvent>)
    requires Shaped(job) && job.rows != [] && lo < hi <= |job.events|
    requires DescribeAll(job, job.events[lo..hi - 1]).Some? && Describe(job, job.events[hi - 1]).Some?
    requires before == start + DescribeAll(job, job.events[lo..hi - 1]).value
    requires after == before + Describe(job, job.events[hi - 1]).value
    ensures DescribeAll(job, job.events[lo..hi]).Some?
    ensures after == start + DescribeAll(job, job.events[lo..hi]).value
  {
    var rows := job.events[lo..hi];
    assert rows[..|rows| - 1] == job.events[lo..hi - 1];
  }

  /** One page: never refused, advances by min(remaining, limit), and tells exactly that range. */
  lemma PageExact(job: Job, after: nat, limit: nat)
    requires Readable(job) && after <= job.head.sequence && 1 <= limit <= MAX_PAGE
    ensures var page := ReplayPage(job, after, limit);
            && page.Some?
            && page.value.next == after + Min(job.head.sequence - after, limit)
            && Told(job, page.value.next) == Told(job, after) + page.value.events
  {
    NewerIsSuffix(job.events, 0, after);
    var hi := after + Min(job.head.sequence - after, limit);
    var rows := Limited(Newer(job.events, after), limit);
    assert rows == job.events[after..hi];
    RangeTold(job, after, hi);
    PageOf(job, after, limit, hi);
  }

  lemma PageOf(job: Job, after: nat, limit: nat, hi: nat)
    requires Shaped(job) && job.rows != [] && Numbered(job)
    requires after <= hi <= job.head.sequence && hi == after + Min(job.head.sequence - after, limit)
    requires 1 <= limit <= MAX_PAGE
    requires Limited(Newer(job.events, after), limit) == job.events[after..hi]
    requires DescribeAll(job, job.events[after..hi]).Some?
    ensures ReplayPage(job, after, limit) == Some(Page(DescribeAll(job, job.events[after..hi]).value, hi))
  {
    var rows := job.events[after..hi];
    assert |rows| == hi - after;
    forall i | 0 <= i < |rows| ensures rows[i].sequence == after + i + 1 {
      assert rows[i] == job.events[after + i];
    }
    assert Gapless(rows, after);
  }

  /** What was told stays told: later runs only append. */
  lemma ToldStable(before: Job, after: Job, n: nat)
    requires Readable(before) && before.events <= after.events && before.fragments <= after.fragments
    requires after.head.spec == before.head.spec && n <= |before.events|
    ensures Told(after, n) == Told(before, n)
  {
    assert after.events[..n] == before.events[..n];
    var k := |Answers(before.events[..n])|;
    AnswersPrefix(before.events, n);
    assert LimitedFragments(after.fragments, k) == LimitedFragments(before.fragments, k);
  }

  // ---- a whole reading session ------------------------------------------------------------------

  /** Before each page the job runs on; then the reader asks for at most `limit` events. */
  datatype Visit = Visit(steps: seq<JobStep>, limit: nat)

  datatype Reading = Reading(job: Job, heard: seq<PublicEvent>, cursor: nat)

  function Follow(p: Platform, job: Job, cursor: nat, visits: seq<Visit>): Option<Reading>
    requires Shaped(job) && job.rows != []
    decreases |visits|
  {
    if visits == [] then Some(Reading(job, [], cursor))
    else
      var now := Run(p, job, visits[0].steps);
      match ReplayPage(now, cursor, visits[0].limit)
      case None => None
      case Some(page) =>
        match Follow(p, now, page.next, visits[1..])
        case None => None
        case Some(rest) => Some(rest.(heard := page.events + rest.heard))
  }

  /** One visit: the run keeps the log readable, the page tells the next range. */
  lemma VisitExact(p: Platform, job: Job, cursor: nat, visit: Visit)
    requires Logbook(job) && cursor <= job.head.sequence && 1 <= visit.limit <= MAX_PAGE
    ensures var now := Run(p, job, visit.steps);
            var page := ReplayPage(now, cursor, visit.limit);
            && Logbook(now) && page.Some? && cursor <= page.value.next <= now.head.sequence
            && |now.events| == now.head.sequence && |job.events| == job.head.sequence
            && Told(now, page.value.next) == Told(job, cursor) + page.value.events
  {
    var now := Run(p, job, visit.steps);
    RunKeepsLogbook(p, job, visit.steps);
    RunSound(p, job, visit.steps);
    LogbookReadable(job);
    LogbookReadable(now);
    ToldStable(job, now, cursor);
    PageExact(now, cursor, visit.limit);
  }

  lemma {:induction false} FollowExact(p: Platform, job: Job, cursor: nat, visits: seq<Visit>)
    requires Logbook(job) && cursor <= job.head.sequence
    requires forall v :: v in visits ==> 1 <= v.limit <= MAX_PAGE
    ensures var r := Follow(p, job, cursor, visits);
            && r.Some?
            && Logbook(r.value.job)
            && cursor <= r.value.cursor <= r.value.job.head.sequence
            && Told(r.value.job, r.value.cursor) == Told(job, cursor) + r.value.heard
    decreases |visits|
  {
    if visits != [] {
      var visit, rest := visits[0], visits[1..];
      assert visit in visits && forall v :: v in rest ==> v in visits;
      VisitExact(p, job, cursor, visit);
      var now := Run(p, job, visit.steps);
      var page := ReplayPage(now, cursor, visit.limit).value;
      FollowExact(p, now, page.next, rest);
      FollowOnce(p, job, cursor, visits, now, page);
      Rebracket(Told(job, cursor), page.events, Follow(p, now, page.next, rest).value.heard);
    }
  }

  lemma FollowOnce(p: Platform, job: Job, cursor: nat, visits: seq<Visit>, now: Job, page: Page)
    requires Shaped(job) && job.rows != [] && visits != []
    requires now == Run(p, job, visits[0].steps) && ReplayPage(now, cursor, visits[0].limit) == Some(page)
    requires Follow(p, now, page.next, visits[1..]).Some?
    ensures var rest := Follow(p, now, page.next, visits[1..]).value;
            Follow(p, job, cursor, visits) == Some(rest.(heard := page.events + rest.heard))
  {
  }

  lemma Rebracket<T>(a: seq<T>, b: seq<T>, c: seq<T>)
    ensures (a + b) + c == a + (b + c)
  {
  }

  function Spoken(events: seq<PublicEvent>): string {
    if events == [] then []
    else
      var e := events[|events| - 1];
      Spoken(events[..|events| - 1]) + (if e.content.Some? then e.content.value else [])
  }

  lemma {:induction false} StoryText(spec: Spec, events: seq<Event>, texts: seq<string>)
    requires |Answers(events)| == |texts|
    ensures Spoken(Story(spec, events, texts)) == Join(texts)
  {
    if events != [] {
      var n := |events| - 1;
      var e := events[n];
      if e.kind.AnswerFragment? {
        var t := |texts| - 1;
        StoryText(spec, events[..n], texts[..t]);
        var head := Story(spec, events[..n], texts[..t]);
        var tail := PublicEvent(e.sequence, e.kind, e.stage, e.occurred, Some(texts[t]));
        assert (head + [tail])[..|head|] == head;
        assert texts[..t] + [texts[t]] == texts;
        JoinSnoc(texts[..t], texts[t]);
      } else {
        StoryText(spec, events[..n], texts);
        var head := Story(spec, events[..n], texts);
        var tail := PublicEvent(e.sequence, e.kind, e.stage, e.occurred, None);
        assert (head + [tail])[..|head|] == head;
        assert head + [] == head;
      }
    }
  }

  /**
   From creation, however the job runs between pages and whatever limits are used:
   no page is refused, the pages together are the filtered log up to the cursor in
   order with no loss or repeat, and once the cursor reaches the end the contents
   heard spell the whole text that was appended.
   */
  lemma PagingIsExact(p: Platform, owner: string, idem: string, spec: Spec, created: int, visits: seq<Visit>)
    requires WellFormed(spec)
    requires forall v :: v in visits ==> 1 <= v.limit <= MAX_PAGE
    ensures var r := Follow(p, NewJob(owner, idem, spec, created), 0, visits);
            && r.Some?
            && r.value.cursor <= |r.value.job.events|
            && r.value.heard == Told(r.value.job, r.value.cursor)
            && (r.value.cursor == r.value.job.head.sequence ==>
                  Spoken(r.value.heard) == Join(Texts(r.value.job.fragments)))
  {
    var start := NewJob(owner, idem, spec, created);
    NewJobLogbook(owner, idem, spec, created);
    FollowExact(p, start, 0, visits);
    var r := Follow(p, start, 0, visits).value;
    assert Told(start, 0) == [];
    LogbookReadable(r.job);
    if r.cursor == r.job.head.sequence {
      WholeText(r.job);
    }
  }

  lemma WholeText(job: Job)
    requires Readable(job)
    ensures Spoken(Told(job, |job.events|)) == Join(Texts(job.fragments))
  {
    assert job.events[..|job.events|] == job.events;
    StoryText(job.head.spec, job.events, Texts(job.fragments));
  }

  /** After any run from creation the events are numbered 1..sequence and no stage started twice. */
  lemma LogIsGapless(p: Platform, owner: string, idem: string, spec: Spec, created: int, steps: seq<JobStep>)
    requires WellFormed(spec)
    ensures var job := Run(p, NewJob(owner, idem, spec, created), steps);
            && |job.events| == job.head.sequence
            && (forall i :: 0 <= i < |job.events| ==> job.events[i].sequence == i + 1)
            && (forall i :: 0 <= i < |spec.stages| ==> Starts(job.events, spec.stages[i].id) <= 1)
            && (forall j, k :: 0 <= j < |job.fragments| && 0 <= k < |job.fragments| ==>
                  job.fragments[j].attempt == job.fragments[k].attempt)
  {
    NewJobLogbook(owner, idem, spec, created);
    RunKeepsLogbook(p, NewJob(owner, idem, spec, created), steps);
  }
}
