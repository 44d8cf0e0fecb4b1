/**
 Publishing an answer piece by piece: what `append_public_delta` makes of a whole cutting
 of a text, and that the way it is cut does not matter.
 */
module Streaming {
  import opened Basics
  import opened Journal
  import opened JournalInvariants
  import opened StreamFilter

  /** The attempt may publish: everything that is checked apart from the text, the clock and the limits. */
  predicate Speaking(job: Job, grant: Grant, fence: Fence, attempt: string)
    requires Shaped(job) && job.rows != []
  {
    var last := |job.rows| - 1;
    && FenceHeld(job.head, fence.runner, fence.epoch)
    && job.head.spec.routeId in grant.routes
    && job.head.state.Running? && !job.head.cancelRequested
    && job.head.spec.stages[last].isPublic
    && AttemptLive(job.rows[last], fence.epoch, attempt)
  }

  /** A cutting that the journal's limits admit after `before` fragments of `chars` characters. */
  predicate WithinLimits(pieces: seq<string>, before: nat, chars: nat) {
    && (forall i :: 0 <= i < |pieces| ==> 0 < |pieces[i]| <= MAX_FRAGMENT_CHARS)
    && before + |pieces| <= MAX_FRAGMENTS_PER_JOB
    && chars + |Join(pieces)| <= MAX_PUBLIC_ANSWER_CHARS
  }

  function FinalId(job: Job): string
    requires Shaped(job) && job.rows != []
  {
    job.head.spec.stages[|job.rows| - 1].id
  }

  /** The limits hold of what is published. */
  predicate Limited(job: Job) {
    |job.fragments| <= MAX_FRAGMENTS_PER_JOB && |Join(Texts(job.fragments))| <= MAX_PUBLIC_ANSWER_CHARS
  }

  /** `persist`, piece by piece, at one moment each. */
  function PublishAll(grant: Grant, fence: Fence, id: string, attempt: string, pieces: seq<string>,
                      clock: seq<int>): seq<JobStep>
    requires |clock| == |pieces|
  {
    seq(|pieces|, i requires 0 <= i < |pieces| => DoPublish(grant, fence, id, attempt, pieces[i], clock[i]))
  }

  /** One piece: stored exactly when it fits and the extended text is clean; nothing else changes. */
  lemma PublishOne(p: Platform, job: Job, grant: Grant, fence: Fence, attempt: string, piece: string, now: int)
    requires Sound(job) && job.rows != [] && CleanAnswer(p, job) && Limited(job)
    requires Speaking(job, grant, fence, attempt)
    requires now < job.head.spec.limits.deadline
    ensures var text := Join(Texts(job.fragments));
            var after := Apply(p, job, DoPublish(grant, fence, FinalId(job), attempt, piece, now));
            && (if WithinLimits([piece], |job.fragments|, |text|) && MarkerFree(p, text + piece)
                then Texts(after.fragments) == Texts(job.fragments) + [piece] else after == job)
            && Sound(after) && CleanAnswer(p, after) && Speaking(after, grant, fence, attempt) && Limited(after)
            && after.rows == job.rows && after.head.spec == job.head.spec
  {
    var step := DoPublish(grant, fence, FinalId(job), attempt, piece, now);
    StepKeepsSound(p, job, step);
    PublishKeepsClean(p, job, grant, fence, FinalId(job), attempt, piece, now);
    FilterDecides(p, job, grant, fence, FinalId(job), attempt, piece, now);
    assert Join([piece]) == piece + Join([]);
    assert piece + "" == piece;
    var after := Apply(p, job, step);
    assert after != job ==> Texts(after.fragments) == Texts(job.fragments) + [piece];
    JoinSnoc(Texts(job.fragments), piece);
  }

  /** Limits of a cutting, from the front. */
  lemma LimitsHead(pieces: seq<string>, before: nat, chars: nat)
    requires pieces != []
    ensures WithinLimits(pieces, before, chars) ==>
              WithinLimits([pieces[0]], before, chars) && WithinLimits(pieces[1..], before + 1, chars + |pieces[0]|)
    ensures WithinLimits([pieces[0]], before, chars) && WithinLimits(pieces[1..], before + 1, chars + |pieces[0]|) ==>
              WithinLimits(pieces, before, chars)
  {
    assert Join([pieces[0]]) == pieces[0] + Join([]);
    assert pieces == [pieces[0]] + pieces[1..];
    JoinAppend([pieces[0]], pieces[1..]);
  }

  /** All pieces were stored, in order. */
  ghost predicate AllStored(p: Platform, job: Job, steps: seq<JobStep>, pieces: seq<string>)
    requires Shaped(job)
  {
    Texts(Run(p, job, steps).fragments) == Texts(job.fragments) + pieces
  }

  /**
   A cutting is stored whole exactly when it fits the limits and the text it spells, after
   what was said before, holds no marker.
   */
  lemma {:induction false} CuttingDecided(p: Platform, job: Job, grant: Grant, fence: Fence, attempt: string,
                                          pieces: seq<string>, clock: seq<int>)
    requires Sound(job) && job.rows != [] && CleanAnswer(p, job) && Limited(job)
    requires Speaking(job, grant, fence, attempt)
    requires |clock| == |pieces| && forall i :: 0 <= i < |clock| ==> clock[i] < job.head.spec.limits.deadline
    ensures var text := Join(Texts(job.fragments));
            AllStored(p, job, PublishAll(grant, fence, FinalId(job), attempt, pieces, clock), pieces)
            <==> WithinLimits(pieces, |job.fragments|, |text|) && MarkerFree(p, text + Join(pieces))
    ensures |Run(p, job, PublishAll(grant, fence, FinalId(job), attempt, pieces, clock)).fragments|
            <= |job.fragments| + |pieces|
    decreases |pieces|
  {
    var steps := PublishAll(grant, fence, FinalId(job), attempt, pieces, clock);
    var text := Join(Texts(job.fragments));
    if pieces == [] {
      assert text + "" == text;
    } else {
      var next := Apply(p, job, steps[0]);
      PublishOne(p, job, grant, fence, attempt, pieces[0], clock[0]);
      CuttingDecided(p, next, grant, fence, attempt, pieces[1..], clock[1..]);
      assert steps[1..] == PublishAll(grant, fence, FinalId(next), attempt, pieces[1..], clock[1..]);
      LimitsHead(pieces, |job.fragments|, |text|);
      FirstPiece(p, job, next, pieces);
    }
  }

  /** What storing the first piece, or refusing it, means for the whole cutting. */
  lemma FirstPiece(p: Platform, job: Job, next: Job, pieces: seq<string>)
    requires pieces != []
    ensures var text := Join(Texts(job.fragments));
            && Join(pieces) == pieces[0] + Join(pieces[1..])
            && (Texts(next.fragments) == Texts(job.fragments) + [pieces[0]] ==>
                  && |next.fragments| == |job.fragments| + 1
                  && Join(Texts(next.fragments)) == text + pieces[0]
                  && Join(Texts(next.fragments)) + Join(pieces[1..]) == text + Join(pieces)
                  && Texts(next.fragments) + pieces[1..] == Texts(job.fragments) + pieces)
            && (MarkerFree(p, text + Join(pieces)) ==> MarkerFree(p, text + pieces[0]))
  {
    var text := Join(Texts(job.fragments));
    JoinSnoc(Texts(job.fragments), pieces[0]);
    Regrouped(text, pieces[0], Join(pieces[1..]));
    if MarkerFree(p, text + Join(pieces)) { MarkerFreePrefix(p, text + pieces[0], Join(pieces[1..])); }
    RegroupParts(Texts(job.fragments), pieces);
    assert |Texts(next.fragments)| == |next.fragments| && |Texts(job.fragments)| == |job.fragments|;
  }

  lemma RegroupParts(a: seq<string>, pieces: seq<string>)
    requires pieces != []
    ensures (a + [pieces[0]]) + pieces[1..] == a + pieces
  {
  }

  /**
   Two cuttings of one text, both within the limits of a row and of the number of rows: one
   is stored whole exactly when the other is, and the reader then gets the same text.
   */
  lemma CuttingIrrelevant(p: Platform, job: Job, grant: Grant, fence: Fence, attempt: string, one: seq<string>,
                          clock1: seq<int>, two: seq<string>, clock2: seq<int>)
    requires Sound(job) && job.rows != [] && CleanAnswer(p, job) && Limited(job)
    requires Speaking(job, grant, fence, attempt)
    requires |clock1| == |one| && forall i :: 0 <= i < |clock1| ==> clock1[i] < job.head.spec.limits.deadline
    requires |clock2| == |two| && forall i :: 0 <= i < |clock2| ==> clock2[i] < job.head.spec.limits.deadline
    requires Join(one) == Join(two)
    requires forall i :: 0 <= i < |one| ==> 0 < |one[i]| <= MAX_FRAGMENT_CHARS
    requires forall i :: 0 <= i < |two| ==> 0 < |two[i]| <= MAX_FRAGMENT_CHARS
    requires |job.fragments| + |one| <= MAX_FRAGMENTS_PER_JOB && |job.fragments| + |two| <= MAX_FRAGMENTS_PER_JOB
    ensures var first := PublishAll(grant, fence, FinalId(job), attempt, one, clock1);
            var second := PublishAll(grant, fence, FinalId(job), attempt, two, clock2);
            && (AllStored(p, job, first, one) <==> AllStored(p, job, second, two))
            && (AllStored(p, job, first, one) ==>
                  Join(Texts(Run(p, job, first).fragments)) == Join(Texts(Run(p, job, second).fragments)))
  {
    CuttingDecided(p, job, grant, fence, attempt, one, clock1);
    CuttingDecided(p, job, grant, fence, attempt, two, clock2);
    JoinAppend(Texts(job.fragments), one);
    JoinAppend(Texts(job.fragments), two);
  }
}
