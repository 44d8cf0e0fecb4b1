/**
 The reasoning-marker filter on streamed answers (execution/store.py
 `append_public_delta`): looking at seven characters of history is as good as
 looking at the whole published text, for every way of cutting the answer.
 */
module StreamFilter {
  import opened Basics
  import opened Contracts
  import opened Journal
  import opened JournalInvariants

  ghost predicate NonEmpty(parts: seq<string>) {
    forall i :: 0 <= i < |parts| ==> parts[i] != ""
  }

  // ---- the tail is the last seven characters -----------------------------------------------

  lemma {:induction false} JoinLongEnough(parts: seq<string>)
    requires NonEmpty(parts)
    ensures |parts| <= |Join(parts)|
  {
    if parts != [] {
      JoinLongEnough(parts[1..]);
    }
  }

  lemma TailOfTexts(fragments: seq<Fragment>)
    requires NonEmpty(Texts(fragments))
    ensures Tail(fragments) == LastN(Join(Texts(fragments)), MARKER_TAIL_CHARS)
  {
    if MARKER_TAIL_CHARS < |fragments| {
      var cut := |fragments| - MARKER_TAIL_CHARS;
      var early, recent := Texts(fragments[..cut]), Texts(fragments[cut..]);
      assert Texts(fragments) == early + recent;
      JoinAppend(early, recent);
      forall i | 0 <= i < |recent| ensures recent[i] != "" {
        assert recent[i] == Texts(fragments)[cut + i];
      }
      JoinLongEnough(recent);
      LastOfSum(Join(early), Join(recent), MARKER_TAIL_CHARS);
    }
  }

  lemma LastOfSum(left: string, right: string, n: nat)
    requires n <= |right|
    ensures LastN(left + right, n) == LastN(right, n)
  {
  }

  // ---- a bounded window finds every new occurrence ------------------------------------------

  lemma LowerAppend(p: Platform, left: string, right: string)
    ensures LowerAll(p, left + right) == LowerAll(p, left) + LowerAll(p, right)
  {
  }

  /** What follows does not change what occurs before. */
  lemma OccursWithin(text: string, more: string, needle: string, at: nat)
    ensures at + |needle| <= |text| ==> (OccursAt(text + more, needle, at) <==> OccursAt(text, needle, at))
  {
    if at + |needle| <= |text| {
      assert (text + more)[at..at + |needle|] == text[at..at + |needle|];
    }
  }

  lemma WindowFindsNeedle(text: string, more: string, needle: string, window: nat)
    requires |needle| <= window + 1 && !Contains(text, needle)
    ensures Contains(LastN(text, window) + more, needle) <==> Contains(text + more, needle)
  {
    var tail := LastN(text, window);
    var cut := |text| - |tail|;
    assert text[cut..] == tail;
    var whole := text + more;
    assert whole[cut..] == tail + more;
    if Contains(tail + more, needle) {
      var at :| 0 <= at <= |tail + more| && OccursAt(tail + more, needle, at);
      assert whole[cut + at..cut + at + |needle|] == (tail + more)[at..at + |needle|];
      assert OccursAt(whole, needle, cut + at);
    }
    if Contains(whole, needle) {
      var at :| 0 <= at <= |whole| && OccursAt(whole, needle, at);
      OccursWithin(text, more, needle, at);
      assert !OccursAt(text, needle, at);
      assert (tail + more)[at - cut..at - cut + |needle|] == whole[at..at + |needle|];
      assert OccursAt(tail + more, needle, at - cut);
    }
  }

  lemma LowerLast(p: Platform, text: string, n: nat)
    ensures LowerAll(p, LastN(text, n)) == LastN(LowerAll(p, text), n)
  {
  }

  /** Clean text, once in lower case, contains neither marker. */
  lemma MarkersNamed(p: Platform, text: string)
    ensures MarkerFree(p, text) <==>
            forall lowered: string ::
              |lowered| == |text| && (forall i :: 0 <= i < |text| ==> lowered[i] == p.lower(text[i])) ==>
                forall at :: 0 <= at ==> !OccursAt(lowered, "<think", at) && !OccursAt(lowered, "</think>", at)
  {
    var low := LowerAll(p, text);
    assert FORBIDDEN_MARKERS[0] == "<think" && FORBIDDEN_MARKERS[1] == "</think>";
    forall lowered: string | |lowered| == |text| && forall i :: 0 <= i < |text| ==> lowered[i] == p.lower(text[i])
      ensures lowered == low
    {
    }
    if MarkerFree(p, text) {
      assert !Contains(low, "<think") && !Contains(low, "</think>");
      forall at | 0 <= at ensures !OccursAt(low, "<think", at) && !OccursAt(low, "</think>", at) {
        assert at <= |low| || !OccursAt(low, "<think", at);
      }
    }
  }

  /** With a clean history, the seven-character check decides the whole extended text. */
  lemma WindowDecides(p: Platform, text: string, more: string)
    requires MarkerFree(p, text)
    ensures MarkerFree(p, LastN(text, MARKER_TAIL_CHARS) + more) <==> MarkerFree(p, text + more)
  {
    var low, add := LowerAll(p, text), LowerAll(p, more);
    LowerAppend(p, text, more);
    LowerAppend(p, LastN(text, MARKER_TAIL_CHARS), more);
    LowerLast(p, text, MARKER_TAIL_CHARS);
    forall m | m in FORBIDDEN_MARKERS
      ensures Contains(LastN(low, MARKER_TAIL_CHARS) + add, m) <==> Contains(low + add, m)
    {
      WindowFindsNeedle(low, add, m, MARKER_TAIL_CHARS);
    }
  }

  // ---- chunking does not matter ----------------------------------------------------------------

  /** The store's check applied to one fragment after another. */
  predicate AllPass(p: Platform, before: seq<string>, chunks: seq<string>)
    decreases |chunks|
  {
    chunks == [] ||
    (MarkerFree(p, LastN(Join(LastN(before, MARKER_TAIL_CHARS)), MARKER_TAIL_CHARS) + chunks[0])
     && AllPass(p, before + [chunks[0]], chunks[1..]))
  }

  lemma MarkerFreePrefix(p: Platform, text: string, more: string)
    requires MarkerFree(p, text + more)
    ensures MarkerFree(p, text)
  {
    LowerAppend(p, text, more);
    var low := LowerAll(p, text);
    forall m | m in FORBIDDEN_MARKERS
      ensures !Contains(low, m)
    {
      var whole := LowerAll(p, text + more);
      forall at | 0 <= at <= |low|
        ensures OccursAt(low, m, at) ==> OccursAt(whole, m, at)
      {
        assert at + |m| <= |low| ==> whole[at..at + |m|] == low[at..at + |m|];
      }
    }
  }

  /**
   For every cut of an answer into nonempty pieces, the filter lets every piece
   through exactly when the whole text holds neither marker.
   */
  lemma {:induction false} ChunkingIrrelevant(p: Platform, before: seq<string>, chunks: seq<string>)
    requires NonEmpty(before) && NonEmpty(chunks) && MarkerFree(p, Join(before))
    ensures AllPass(p, before, chunks) <==> MarkerFree(p, Join(before + chunks))
    decreases |chunks|
  {
    if chunks == [] {
      assert before + chunks == before;
    } else {
      var first, rest := chunks[0], chunks[1..];
      var next := before + [first];
      assert next + rest == before + chunks;
      JoinSnoc(before, first);
      JoinAppend(next, rest);
      TailOfStrings(before);
      WindowDecides(p, Join(before), first);
      if MarkerFree(p, Join(before + chunks)) {
        MarkerFreePrefix(p, Join(next), Join(rest));
      }
      if MarkerFree(p, Join(next)) {
        ChunkingIrrelevant(p, next, rest);
      }
    }
  }

  lemma TailOfStrings(parts: seq<string>)
    requires NonEmpty(parts)
    ensures LastN(Join(LastN(parts, MARKER_TAIL_CHARS)), MARKER_TAIL_CHARS) == LastN(Join(parts), MARKER_TAIL_CHARS)
  {
    if MARKER_TAIL_CHARS < |parts| {
      var cut := |parts| - MARKER_TAIL_CHARS;
      assert parts == parts[..cut] + parts[cut..];
      JoinAppend(parts[..cut], parts[cut..]);
      JoinLongEnough(parts[cut..]);
      LastOfSum(Join(parts[..cut]), Join(parts[cut..]), MARKER_TAIL_CHARS);
    }
  }

  // ---- in the journal ---------------------------------------------------------------------------

  ghost predicate CleanAnswer(p: Platform, job: Job) {
    && NonEmpty(Texts(job.fragments))
    && MarkerFree(p, Join(Texts(job.fragments)))
  }

  lemma FragmentsOnlyPublished(p: Platform, job: Job, step: JobStep)
    requires Sound(job) && !step.DoPublish?
    ensures Apply(p, job, step).fragments == job.fragments
  {
  }

  lemma PublishKeepsClean(p: Platform, job: Job, grant: Grant, fence: Fence, id: string, attempt: string,
                          text: string, now: int)
    requires Sound(job) && CleanAnswer(p, job)
    ensures CleanAnswer(p, After(job, Publish(p, job, grant, fence, id, attempt, text, now)))
  {
    var reply := Publish(p, job, grant, fence, id, attempt, text, now);
    if reply.Accept? {
      TailOfTexts(job.fragments);
      WindowDecides(p, Join(Texts(job.fragments)), text);
      assert Texts(reply.job.fragments) == Texts(job.fragments) + [text];
      JoinSnoc(Texts(job.fragments), text);
    }
  }

  lemma {:induction false} RunKeepsClean(p: Platform, job: Job, steps: seq<JobStep>)
    requires Sound(job) && CleanAnswer(p, job)
    ensures CleanAnswer(p, Run(p, job, steps))
    decreases |steps|
  {
    if steps != [] {
      match steps[0] {
        case DoPublish(grant, fence, id, attempt, text, now) =>
          PublishKeepsClean(p, job, grant, fence, id, attempt, text, now);
        case _ => FragmentsOnlyPublished(p, job, steps[0]);
      }
      StepKeepsSound(p, job, steps[0]);
      RunKeepsClean(p, Apply(p, job, steps[0]), steps[1..]);
    }
  }

  /** Everything `append_public_delta` checks apart from the markers. */
  predicate PublishOpen(job: Job, grant: Grant, fence: Fence, id: string, attempt: string, text: string, now: int)
    requires Shaped(job) && job.rows != []
  {
    var last := |job.rows| - 1;
    && 0 < |text| <= MAX_FRAGMENT_CHARS
    && FenceHeld(job.head, fence.runner, fence.epoch)
    && job.head.spec.routeId in grant.routes
    && job.head.state.Running? && !job.head.cancelRequested && now < job.head.spec.limits.deadline
    && job.head.spec.stages[last].isPublic && job.head.spec.stages[last].id == id
    && AttemptLive(job.rows[last], fence.epoch, attempt)
    && |job.fragments| < MAX_FRAGMENTS_PER_JOB
    && |Join(Texts(job.fragments))| + |text| <= MAX_PUBLIC_ANSWER_CHARS
  }

  /**
   The published text never holds a marker, and a fragment is stored exactly when
   the other checks pass and the whole text extended by it holds none.
   */
  lemma FilterIsExact(p: Platform, owner: string, idem: string, spec: Spec, created: int, steps: seq<JobStep>,
                      grant: Grant, fence: Fence, id: string, attempt: string, text: string, now: int)
    requires WellFormed(spec)
    ensures var job := Run(p, NewJob(owner, idem, spec, created), steps);
            var published := Join(Texts(job.fragments));
            && job.rows != []
            && MarkerFree(p, published)
            && (Publish(p, job, grant, fence, id, attempt, text, now).Accept? <==>
                  PublishOpen(job, grant, fence, id, attempt, text, now) && MarkerFree(p, published + text))
  {
    var start := NewJob(owner, idem, spec, created);
    NewJobControl(owner, idem, spec, created);
    EmptyIsClean(p);
    assert Texts(start.fragments) == [];
    RunSound(p, start, steps);
    RunKeepsClean(p, start, steps);
    FilterDecides(p, Run(p, start, steps), grant, fence, id, attempt, text, now);
  }

  lemma FilterDecides(p: Platform, job: Job, grant: Grant, fence: Fence, id: string, attempt: string,
                      text: string, now: int)
    requires Shaped(job) && job.rows != [] && CleanAnswer(p, job)
    ensures Publish(p, job, grant, fence, id, attempt, text, now).Accept? <==>
              PublishOpen(job, grant, fence, id, attempt, text, now)
              && MarkerFree(p, Join(Texts(job.fragments)) + text)
  {
    TailOfTexts(job.fragments);
    WindowDecides(p, Join(Texts(job.fragments)), text);
  }

  lemma EmptyIsClean(p: Platform)
    ensures MarkerFree(p, "")
  {
    assert LowerAll(p, "") == "";
  }
}
