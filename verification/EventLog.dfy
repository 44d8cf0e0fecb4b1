/**
 The event log and the answer fragments (execution/store.py `_event`,
 `append_public_delta`, `replay`): what every run keeps, and what a reader who
 pages through `replay` sees.
 */
module EventLog {
  import opened Basics
  import opened Contracts
  import opened Journal
  import opened JournalInvariants

  // ---- the log of one job -------------------------------------------------------------

  function Answers(events: seq<Event>): seq<Event> {
    if events == [] then []
    else
      var e := events[|events| - 1];
      Answers(events[..|events| - 1]) + (if e.kind.AnswerFragment? then [e] else [])
  }

  /** How often the log says that stage `id` started. */
  function Starts(events: seq<Event>, id: string): nat {
    if events == [] then 0
    else
      var e := events[|events| - 1];
      Starts(events[..|events| - 1], id) + (if e.kind.StageStarted? && e.stage == Some(id) then 1 else 0)
  }

  ghost predicate Numbered(job: Job) {
    && job.head.sequence == |job.events|
    && forall i :: 0 <= i < |job.events| ==> job.events[i].sequence == i + 1
  }

  ghost predicate StagesKnown(job: Job) {
    forall i :: 0 <= i < |job.events| && job.events[i].stage.Some? ==>
      Find(job.head.spec.stages, job.events[i].stage.value).Some?
  }

  /** Fragment rows and answer events correspond one to one, in order. */
  ghost predicate Aligned(events: seq<Event>, fragments: seq<Fragment>) {
    && |Answers(events)| == |fragments|
    && forall k :: 0 <= k < |fragments| ==>
         && Answers(events)[k].sequence == fragments[k].sequence
         && Answers(events)[k].stage == Some(fragments[k].stage)
  }

  /** Every fragment was written by the one attempt of the final stage. */
  ghost predicate FragmentsOfFinalAttempt(job: Job)
    requires Shaped(job) && job.rows != []
  {
    var last := |job.rows| - 1;
    forall k :: 0 <= k < |job.fragments| ==>
      && job.fragments[k].text != ""
      && job.fragments[k].stage == job.head.spec.stages[last].id
      && job.rows[last].attempt == Some(job.fragments[k].attempt)
  }

  ghost predicate StartedOnce(job: Job)
    requires Shaped(job)
  {
    forall i :: 0 <= i < |job.rows| ==>
      Starts(job.events, job.head.spec.stages[i].id) == if job.rows[i].attempt.Some? then 1 else 0
  }

  ghost predicate Logbook(job: Job) {
    && Sound(job)
    && Numbered(job)
    && StagesKnown(job)
    && Aligned(job.events, job.fragments)
    && FragmentsOfFinalAttempt(job)
    && StartedOnce(job)
  }

  lemma Snoc(events: seq<Event>, e: Event, id: string)
    ensures Answers(events + [e]) == Answers(events) + (if e.kind.AnswerFragment? then [e] else [])
    ensures Starts(events + [e], id)
            == Starts(events, id) + (if e.kind.StageStarted? && e.stage == Some(id) then 1 else 0)
  {
    assert (events + [e])[..|events|] == events;
  }

  /** `after` differs from `before` by one log entry that is neither a fragment nor a start. */
  ghost predicate AddsQuietEvent(before: Job, after: Job) {
    && |after.events| == |before.events| + 1
    && after.events[..|before.events|] == before.events
    && after.head.sequence == before.head.sequence + 1
    && after.events[|before.events|].sequence == before.head.sequence + 1
    && !after.events[|before.events|].kind.AnswerFragment?
    && !after.events[|before.events|].kind.StageStarted?
    && (after.events[|before.events|].stage.Some? ==>
          Find(before.head.spec.stages, after.events[|before.events|].stage.value).Some?)
    && after.fragments == before.fragments
  }

  ghost predicate SameAttempts(before: Job, after: Job) {
    |after.rows| == |before.rows| && forall i :: 0 <= i < |before.rows| ==>
        after.rows[i].attempt == before.rows[i].attempt
  }

  lemma QuietEventKeepsLogbook(before: Job, after: Job)
    requires Logbook(before) && Sound(after) && after.head.spec == before.head.spec
    requires AddsQuietEvent(before, after) && SameAttempts(before, after)
    ensures Logbook(after)
  {
    var e := after.events[|before.events|];
    assert after.events == before.events + [e];
    forall i | 0 <= i < |after.rows|
      ensures Starts(after.events, after.head.spec.stages[i].id) == if after.rows[i].attempt.Some? then 1 else 0
    {
      Snoc(before.events, e, after.head.spec.stages[i].id);
    }
    Snoc(before.events, e, "");
  }

  /** Every step but claim, publish and cancel writes at most one quiet event. */
  lemma QuietStep(p: Platform, job: Job, step: JobStep)
    requires Sound(job) && !step.DoClaim? && !step.DoPublish? && !step.DoCancel?
    ensures var after := Apply(p, job, step);
            SameAttempts(job, after) && (after == job || AddsQuietEvent(job, after))
  {
    var after := Apply(p, job, step);
    match step
    case DoComplete(fence, id, attempt, raw, now) => CompleteQuiet(p, job, fence, id, attempt, raw, now);
    case DoFailStage(fence, id, attempt, now) => assert FailStage(job, fence, id, attempt, now).Accept? || after == job;
    case DoRecover(fence, now) => assert Recover(job, fence, now).Accept? || after == job;
    case _ =>
  }

  lemma CompleteQuiet(p: Platform, job: Job, fence: Fence, id: string, attempt: string, raw: RawResult, now: int)
    requires Sound(job)
    ensures var after := After(job, Complete(p, job, fence, id, attempt, raw, now));
            SameAttempts(job, after) && (after == job || AddsQuietEvent(job, after))
  {
  }

  lemma CancelKeepsLogbook(p: Platform, job: Job, now: int)
    requires Logbook(job)
    ensures Logbook(Apply(p, job, DoCancel(now)))
  {
    var after := Apply(p, job, DoCancel(now));
    StepKeepsSound(p, job, DoCancel(now));
    if after != job {
      var e := Event(job.head.sequence + 1, JobCancelRequested, None, now);
      assert after.events[..|job.events| + 1] == job.events + [e];
      if after.head.state.Cancelled? {
        var f := Event(job.head.sequence + 2, JobEnded(Cancelled), None, now);
        assert after.events == job.events + [e] + [f];
        TwoQuietEvents(job, after, e, f);
      } else {
        QuietEventKeepsLogbook(job, after);
      }
    }
  }

  lemma TwoQuietEvents(job: Job, after: Job, e: Event, f: Event)
    requires Logbook(job) && Sound(after) && after.head.spec == job.head.spec && SameAttempts(job, after)
    requires after.events == job.events + [e] + [f] && after.fragments == job.fragments
    requires after.head.sequence == job.head.sequence + 2
    requires e.sequence == job.head.sequence + 1 && f.sequence == job.head.sequence + 2
    requires e.stage.None? && f.stage.None? && e.kind.JobCancelRequested? && f.kind.JobEnded?
    ensures Logbook(after)
  {
    forall i | 0 <= i < |after.rows|
      ensures Starts(after.events, after.head.spec.stages[i].id) == if after.rows[i].attempt.Some? then 1 else 0
    {
      Snoc(job.events, e, after.head.spec.stages[i].id);
      Snoc(job.events + [e], f, after.head.spec.stages[i].id);
    }
    Snoc(job.events, e, "");
    Snoc(job.events + [e], f, "");
  }

  lemma ClaimKeepsLogbook(p: Platform, job: Job, grant: Grant, fence: Fence, id: string, attempt: string, now: int)
    requires Logbook(job)
    ensures Logbook(Apply(p, job, DoClaim(grant, fence, id, attempt, now)))
  {
    var step := DoClaim(grant, fence, id, attempt, now);
    var after := Apply(p, job, step);
    StepKeepsSound(p, job, step);
    var reply := Claim(job, grant, fence, id, attempt, now);
    if reply.Accept? {
      var k := Find(job.head.spec.stages, id).value;
      ClaimWrites(job, k, fence.epoch, attempt, now);
      if reply.value.None? {
        QuietEventKeepsLogbook(job, after);
      } else {
        StartKeepsLogbook(job, after, k, attempt, now);
      }
    }
  }

  lemma ClaimWrites(job: Job, k: nat, epoch: nat, attempt: string, now: int)
    requires Shaped(job) && k < |job.rows| && ClaimAt(job, k, epoch, attempt, now).Accept?
    ensures var reply := ClaimAt(job, k, epoch, attempt, now);
            var id := job.head.spec.stages[k].id;
            && job.rows[k].state.Pending?
            && |reply.job.rows| == |job.rows|
            && reply.job.rows == job.rows[k := reply.job.rows[k]]
            && reply.job.head.sequence == job.head.sequence + 1
            && reply.job.fragments == job.fragments
            && (reply.value.None? ==>
                  && reply.job.events
                     == job.events + [Event(job.head.sequence + 1, EventKind.StageSkipped, Some(id), now)]
                  && reply.job.rows[k].attempt == job.rows[k].attempt)
            && (reply.value.Some? ==>
                  && reply.job.events == job.events + [Event(job.head.sequence + 1, StageStarted, Some(id), now)]
                  && reply.job.rows[k].attempt == Some(attempt))
  {
  }

  lemma StartKeepsLogbook(job: Job, after: Job, k: nat, attempt: string, now: int)
    requires Logbook(job) && Sound(after) && after.head.spec == job.head.spec
    requires k < |job.rows| == |after.rows| && job.rows[k].state.Pending? && after.rows == job.rows[k := after.rows[k]]
    requires after.rows[k].attempt == Some(attempt) && after.fragments == job.fragments
    requires after.head.sequence == job.head.sequence + 1
    requires after.events
             == job.events + [Event(job.head.sequence + 1, StageStarted, Some(job.head.spec.stages[k].id), now)]
    ensures Logbook(after)
  {
    var e := after.events[|job.events|];
    StartCounted(job, after, k, e);
    Snoc(job.events, e, "");
    assert Answers(after.events) == Answers(job.events);
    FragmentsUnaffected(job, after, k);
  }

  lemma FragmentsUnaffected(job: Job, after: Job, k: nat)
    requires Shaped(job) && Shaped(after) && after.head.spec == job.head.spec && job.rows != []
    requires k < |job.rows| && after.rows == job.rows[k := after.rows[k]] && job.rows[k].attempt.None?
    requires FragmentsOfFinalAttempt(job) && after.fragments == job.fragments
    ensures FragmentsOfFinalAttempt(after)
  {
    NoFragmentsBeforeStart(job);
  }

  /** While the final stage is pending nothing has been published. */
  lemma NoFragmentsBeforeStart(job: Job)
    requires Shaped(job) && job.rows != [] && FragmentsOfFinalAttempt(job)
    ensures job.rows[|job.rows| - 1].attempt.None? ==> job.fragments == []
  {
    if job.fragments != [] {
      assert job.rows[|job.rows| - 1].attempt == Some(job.fragments[0].attempt);
    }
  }

  lemma StartCounted(job: Job, after: Job, k: nat, e: Event)
    requires WellFormed(job.head.spec) && Shaped(job) && Shaped(after) && after.head.spec == job.head.spec
             && StartedOnce(job)
    requires k < |job.rows| && after.rows == job.rows[k := after.rows[k]]
    requires job.rows[k].attempt.None? && after.rows[k].attempt.Some?
    requires e.kind.StageStarted? && e.stage == Some(job.head.spec.stages[k].id) && after.events == job.events + [e]
    ensures StartedOnce(after)
  {
    var stages := job.head.spec.stages;
    forall i | 0 <= i < |after.rows|
      ensures Starts(after.events, stages[i].id) == if after.rows[i].attempt.Some? then 1 else 0
    {
      Snoc(job.events, e, stages[i].id);
      FindIndex(job.head.spec, i);
      FindIndex(job.head.spec, k);
    }
  }

  lemma PublishKeepsLogbook(p: Platform, job: Job, grant: Grant, fence: Fence, id: string, attempt: string,
                            text: string, now: int)
    requires Logbook(job)
    ensures Logbook(Apply(p, job, DoPublish(grant, fence, id, attempt, text, now)))
  {
    var step := DoPublish(grant, fence, id, attempt, text, now);
    var after := Apply(p, job, step);
    StepKeepsSound(p, job, step);
    var reply := Publish(p, job, grant, fence, id, attempt, text, now);
    if reply.Accept? {
      PublishWrites(p, job, grant, fence, id, attempt, text, now);
      FragmentKeepsLogbook(job, after, Fragment(job.head.sequence + 1, id, attempt, text), now);
    }
  }

  lemma PublishWrites(p: Platform, job: Job, grant: Grant, fence: Fence, id: string, attempt: string,
                      text: string, now: int)
    requires Shaped(job) && Publish(p, job, grant, fence, id, attempt, text, now).Accept?
    ensures var after := Publish(p, job, grant, fence, id, attempt, text, now).job;
            var last := |job.rows| - 1;
            && 0 <= last && job.head.spec.stages[last].id == id && job.rows[last].attempt == Some(attempt)
            && text != "" && after.rows == job.rows && after.head.sequence == job.head.sequence + 1
            && after.events == job.events + [Event(job.head.sequence + 1, AnswerFragment, Some(id), now)]
            && after.fragments == job.fragments + [Fragment(job.head.sequence + 1, id, attempt, text)]
  {
  }

  lemma FragmentKeepsLogbook(job: Job, after: Job, row: Fragment, now: int)
    requires Logbook(job) && Sound(after) && after.head.spec == job.head.spec && after.rows == job.rows
    requires job.head.spec.stages[|job.rows| - 1].id == row.stage && row.text != ""
    requires job.rows[|job.rows| - 1].attempt == Some(row.attempt)
    requires row.sequence == after.head.sequence == job.head.sequence + 1
    requires after.events == job.events + [Event(row.sequence, AnswerFragment, Some(row.stage), now)]
    requires after.fragments == job.fragments + [row]
    ensures Logbook(after)
  {
    var e := Event(row.sequence, AnswerFragment, Some(row.stage), now);
    forall i | 0 <= i < |after.rows|
      ensures Starts(after.events, after.head.spec.stages[i].id) == if after.rows[i].attempt.Some? then 1 else 0
    {
      Snoc(job.events, e, after.head.spec.stages[i].id);
    }
    Snoc(job.events, e, "");
    assert Answers(after.events) == Answers(job.events) + [e];
    assert Aligned(after.events, after.fragments);
  }

  lemma StepKeepsLogbook(p: Platform, job: Job, step: JobStep)
    requires Logbook(job)
    ensures Logbook(Apply(p, job, step))
  {
    match step
    case DoClaim(grant, fence, id, attempt, now) => ClaimKeepsLogbook(p, job, grant, fence, id, attempt, now);
    case DoPublish(grant, fence, id, attempt, text, now) =>
      PublishKeepsLogbook(p, job, grant, fence, id, attempt, text, now);
    case DoCancel(now) => CancelKeepsLogbook(p, job, now);
    case _ =>
      QuietStep(p, job, step);
      StepKeepsSound(p, job, step);
      if Apply(p, job, step) != job {
        QuietEventKeepsLogbook(job, Apply(p, job, step));
      }
  }

  lemma NewJobLogbook(owner: string, idem: string, spec: Spec, now: int)
    requires WellFormed(spec)
    ensures Logbook(NewJob(owner, idem, spec, now))
  {
    var job := NewJob(owner, idem, spec, now);
    assert job.events == [] + [Event(1, JobCreated, None, now)];
    forall i | 0 <= i < |job.rows|
      ensures Starts(job.events, spec.stages[i].id) == 0
    {
      Snoc([], job.events[0], spec.stages[i].id);
    }
    Snoc([], job.events[0], "");
  }

  lemma {:induction false} RunKeepsLogbook(p: Platform, job: Job, steps: seq<JobStep>)
    requires Logbook(job)
    ensures Logbook(Run(p, job, steps))
    decreases |steps|
  {
    if steps != [] {
      StepKeepsLogbook(p, job, steps[0]);
      RunKeepsLogbook(p, Apply(p, job, steps[0]), steps[1..]);
    }
  }
}
