/**
 Which histories the ledger accepts, read off the records alone: every kind of event, the
 records it must follow, and the bounds on its times and amounts.  The fold of `replay` accepts
 exactly these, and so they are what any race of controllers leaves in storage.
 */
module LedgerLaws {
  import opened Basics
  import opened Ledger
  import W = LedgerStorage

  predicate Is(r: Record, kind: Event -> bool) {
    r.event.Some? && kind(r.event.value)
  }

  const WATCHDOG: Event -> bool := (e: Event) => e.Watchdog?
  const ADMISSION: Event -> bool := (e: Event) => e.Admission?
  const GRANT: Event -> bool := (e: Event) => e.Grant?
  const PRESERVED: Event -> bool := (e: Event) => e.Preserved?

  /** Of the records before the `k`-th none is of this kind. */
  predicate NoneBefore(records: seq<Record>, k: nat, kind: Event -> bool)
    requires k <= |records|
  {
    forall j :: 0 <= j < k ==> !Is(records[j], kind)
  }

  /** A watchdog or admission event that may be relied on at second `when`. */
  predicate FreshAt(e: Event, when: int)
    requires e.Watchdog? || e.Admission?
  {
    e.cosmo && e.observed <= when < e.expires && e.expires - e.observed <= 300
  }

  predicate WatchdogInOrder(records: seq<Record>, k: nat)
    requires k < |records| && Is(records[k], WATCHDOG)
  {
    var e := records[k].event.value;
    NoneBefore(records, k, GRANT) && e.genuine && FreshAt(e, records[k].when)
  }

  /** An admission directly follows a watchdog, and never offers more than an earlier one. */
  predicate AdmissionInOrder(ctx: Context, records: seq<Record>, k: nat)
    requires k < |records| && Is(records[k], ADMISSION)
  {
    var e := records[k].event.value;
    && NoneBefore(records, k, GRANT) && e.genuine && FreshAt(e, records[k].when)
    && k >= 2 && Is(records[k - 1], WATCHDOG) && records[k - 1].event.value.cosmo
    && ctx.required <= e.remaining <= ctx.ceiling
    && forall j :: 0 <= j < k && Is(records[j], ADMISSION) ==> e.remaining <= records[j].event.value.remaining
  }

  /**
   A grant directly follows an admission with its own quote, which directly follows a
   watchdog, both still fresh; it names these records by number, was issued within the last
   minute, and leaves at least 45 minutes.
   */
  predicate GrantInOrder(ctx: Context, records: seq<Record>, k: nat)
    requires k < |records| && Is(records[k], GRANT)
  {
    var e, when := records[k].event.value, records[k].when;
    && NoneBefore(records, k, GRANT) && e.cosmo && e.genuine
    && k >= 3 && Is(records[k - 1], ADMISSION) && Is(records[k - 2], WATCHDOG)
    && FreshAt(records[k - 1].event.value, when) && FreshAt(records[k - 2].event.value, when)
    && e.quote == records[k - 1].event.value.quote
    && e.preflight == k - 1 && e.claimed == k
    && when - 60 <= e.issued <= when
    && when + 45 * 60 <= e.expires == ctx.deadline
    && e.expires + 15 * 60 <= e.allocation <= ctx.starts + 2 * 60 * 60
  }

  /** Preservation names the grant by number and identifier, once, verified within the last five minutes. */
  predicate PreservationInOrder(records: seq<Record>, k: nat)
    requires k < |records| && Is(records[k], PRESERVED)
  {
    var e, when := records[k].event.value, records[k].when;
    && NoneBefore(records, k, PRESERVED) && e.cosmo && e.genuine
    && 0 < e.grantSequence < k && Is(records[e.grantSequence], GRANT)
    && records[e.grantSequence].event.value.grantId == e.grantId
    && when - 300 <= e.verified <= when
  }

  predicate EventInOrder(ctx: Context, records: seq<Record>, k: nat)
    requires k < |records|
  {
    match records[k].event
    case None => false
    case Some(e) =>
      match e
      case Watchdog(_, _, _, _) => WatchdogInOrder(records, k) && records[k].when < ctx.deadline
      case Admission(_, _, _, _, _, _) => AdmissionInOrder(ctx, records, k) && records[k].when < ctx.deadline
      case Grant(_, _, _, _, _, _, _, _, _) => GrantInOrder(ctx, records, k) && records[k].when < ctx.deadline
      case Preserved(_, _, _, _, _) => PreservationInOrder(records, k)
      case Terminal => false
  }

  /** The events of the records 1 to `k`, each with its number. */
  function Told(records: seq<Record>, k: nat): seq<Committed>
    requires k < |records| && forall j :: 1 <= j <= k ==> records[j].event.Some?
  {
    seq(k, i requires 0 <= i < k => Committed(records[i + 1].event.value, i + 1))
  }

  /** Record `k` is numbered, linked, dated and bounded as it should be, and tells the history so far. */
  predicate RecordInOrder(ctx: Context, codec: Codec, records: seq<Record>, k: nat)
    requires k < |records|
  {
    var r := records[k];
    && r.sequence == k && codec(r) <= 65537
    && (forall j :: 1 <= j <= k ==> records[j].event.Some?)
    && r.state == State(k, !NoneBefore(records, k + 1, GRANT), Told(records, k))
    && (k == 0 ==> r.previous == None && r.event == None && ctx.starts <= r.when < ctx.deadline)
    && (k > 0 ==> r.previous == Some(records[k - 1]) && records[k - 1].when <= r.when && EventInOrder(ctx, records, k))
  }

  predicate InOrder(ctx: Context, codec: Codec, records: seq<Record>) {
    forall k :: 0 <= k < |records| ==> RecordInOrder(ctx, codec, records, k)
  }

  // ---- the fold accepts exactly these ---------------------------------------------------------------

  /** What record `k` must satisfy does not look at later records. */
  lemma OrderLocal(ctx: Context, codec: Codec, records: seq<Record>, k: nat)
    requires k < |records| - 1
    ensures var n := |records| - 1;
            RecordInOrder(ctx, codec, records[..n], k) <==> RecordInOrder(ctx, codec, records, k)
  {
    var early := records[..|records| - 1];
    assert forall j :: 0 <= j <= k ==> early[j] == records[j];
    if forall j :: 1 <= j <= k ==> records[j].event.Some? {
      assert Told(early, k) == Told(records, k);
    }
  }

  lemma OrderSnoc(ctx: Context, codec: Codec, records: seq<Record>)
    requires records != []
    ensures var n := |records| - 1;
            InOrder(ctx, codec, records) <==>
            InOrder(ctx, codec, records[..n]) && RecordInOrder(ctx, codec, records, n)
  {
    var n := |records| - 1;
    forall k | 0 <= k < n
      ensures RecordInOrder(ctx, codec, records[..n], k) <==> RecordInOrder(ctx, codec, records, k)
    {
      OrderLocal(ctx, codec, records, k);
    }
    if InOrder(ctx, codec, records[..n]) && RecordInOrder(ctx, codec, records, n) {
      forall k | 0 <= k < |records| ensures RecordInOrder(ctx, codec, records, k) {
        assert k < n ==> RecordInOrder(ctx, codec, records[..n], k);
      }
    }
    if InOrder(ctx, codec, records) {
      forall k | 0 <= k < n ensures RecordInOrder(ctx, codec, records[..n], k) {
        assert RecordInOrder(ctx, codec, records, k);
      }
    }
  }

  /** The last offer is the least one, when offers never rise. */
  lemma {:induction false} LastIsLeast(records: seq<Record>, k: nat)
    requires k < |records| && forall j :: 1 <= j <= k ==> records[j].event.Some?
    requires records[0].event.None?
    requires forall i, j :: 0 <= i < j <= k && Is(records[i], ADMISSION) && Is(records[j], ADMISSION) ==>
               records[j].event.value.remaining <= records[i].event.value.remaining
    ensures var last := LastRemaining(Told(records, k));
            && (last.None? <==> NoneBefore(records, k + 1, ADMISSION))
            && (last.Some? ==>
                  && (exists j ::
                        0 <= j <= k && Is(records[j], ADMISSION) && records[j].event.value.remaining == last.value)
                  && forall j :: 0 <= j <= k && Is(records[j], ADMISSION) ==>
                       last.value <= records[j].event.value.remaining)
  {
    if k > 0 {
      assert Told(records, k)[..k - 1] == Told(records, k - 1);
      if !records[k].event.value.Admission? { LastIsLeast(records, k - 1); }
    }
  }

  /** The grants among the first events, when there is at most one. */
  lemma {:induction false} GrantFound(records: seq<Record>, k: nat)
    requires k < |records| && records[0].event.None? && forall j :: 1 <= j <= k ==> records[j].event.Some?
    requires forall i, j :: 0 <= i < j <= k && Is(records[i], GRANT) ==> !Is(records[j], GRANT)
    ensures var found := Grants(Told(records, k));
            && (NoneBefore(records, k + 1, GRANT) ==> found == [])
            && forall g :: 0 <= g <= k && Is(records[g], GRANT) ==> found == [Committed(records[g].event.value, g)]
  {
    if k > 0 {
      assert Told(records, k)[..k - 1] == Told(records, k - 1);
      GrantFound(records, k - 1);
    }
  }

  /** In an ordered history offers never rise, and at most one record is a grant. */
  lemma OrderedFacts(ctx: Context, codec: Codec, records: seq<Record>)
    requires InOrder(ctx, codec, records)
    ensures forall i, j :: 0 <= i < j < |records| && Is(records[i], ADMISSION) && Is(records[j], ADMISSION) ==>
              records[j].event.value.remaining <= records[i].event.value.remaining
    ensures forall i, j :: 0 <= i < j < |records| && Is(records[i], GRANT) ==> !Is(records[j], GRANT)
    ensures forall j :: 1 <= j < |records| ==> records[j].event.Some?
    ensures records != [] ==> records[0].event.None?
  {
    forall j | 0 <= j < |records|
      ensures j == 0 <==> records[j].event.None?
      ensures Is(records[j], ADMISSION) ==>
                forall i :: 0 <= i < j && Is(records[i], ADMISSION) ==>
                  records[j].event.value.remaining <= records[i].event.value.remaining
      ensures Is(records[j], GRANT) ==> NoneBefore(records, j, GRANT)
    {
      assert RecordInOrder(ctx, codec, records, j);
    }
  }

  /** The state that an ordered history ends in. */
  function Ends(records: seq<Record>): State
    requires records != [] && forall j :: 1 <= j < |records| ==> records[j].event.Some?
  {
    var n := |records| - 1;
    State(n, !NoneBefore(records, n + 1, GRANT), Told(records, n))
  }

  lemma WatchdogDecided(ctx: Context, records: seq<Record>, n: nat, s: State)
    requires 0 < n < |records| && (forall j :: 1 <= j < n ==> records[j].event.Some?) && Is(records[n], WATCHDOG)
    requires s == State(n - 1, !NoneBefore(records, n, GRANT), Told(records, n - 1))
    ensures Transition(ctx, s, records[n].event.value, records[n].when as real).Some? <==> WatchdogInOrder(records, n)
  {
  }

  lemma AdmissionDecided(ctx: Context, codec: Codec, records: seq<Record>, n: nat, s: State)
    requires 0 < n == |records| - 1 && InOrder(ctx, codec, records[..n]) && Is(records[n], ADMISSION)
    requires forall j :: 1 <= j < n ==> records[j].event.Some?
    requires s == State(n - 1, !NoneBefore(records, n, GRANT), Told(records, n - 1))
    ensures Transition(ctx, s, records[n].event.value, records[n].when as real).Some? <==>
            AdmissionInOrder(ctx, records, n)
  {
    var early := records[..n];
    OrderedFacts(ctx, codec, early);
    assert forall j :: 0 <= j < n ==> early[j] == records[j];
    LastIsLeast(records, n - 1);
    if n >= 2 { assert s.events[n - 2] == Committed(records[n - 1].event.value, n - 1); }
  }

  lemma GrantDecided(ctx: Context, records: seq<Record>, n: nat, s: State)
    requires 0 < n < |records| && (forall j :: 1 <= j < n ==> records[j].event.Some?) && Is(records[n], GRANT)
    requires s == State(n - 1, !NoneBefore(records, n, GRANT), Told(records, n - 1))
    ensures Transition(ctx, s, records[n].event.value, records[n].when as real).Some? <==> GrantInOrder(ctx, records, n)
  {
    if n >= 3 {
      assert s.events[n - 2] == Committed(records[n - 1].event.value, n - 1);
      assert s.events[n - 3] == Committed(records[n - 2].event.value, n - 2);
    }
  }

  lemma PreservationDecided(ctx: Context, codec: Codec, records: seq<Record>, n: nat, s: State)
    requires 0 < n == |records| - 1 && InOrder(ctx, codec, records[..n]) && Is(records[n], PRESERVED)
    requires forall j :: 1 <= j < n ==> records[j].event.Some?
    requires s == State(n - 1, !NoneBefore(records, n, GRANT), Told(records, n - 1))
    ensures Transition(ctx, s, records[n].event.value, records[n].when as real).Some? <==>
            PreservationInOrder(records, n)
  {
    var early := records[..n];
    OrderedFacts(ctx, codec, early);
    assert forall j :: 0 <= j < n ==> early[j] == records[j];
    GrantFound(records, n - 1);
    PreservedBefore(records, n, s.events);
  }

  lemma PreservedBefore(records: seq<Record>, n: nat, events: seq<Committed>)
    requires 0 < n < |records| && (forall j :: 1 <= j < n ==> records[j].event.Some?) && records[0].event.None?
    requires events == Told(records, n - 1)
    ensures AnyPreserved(events) <==> !NoneBefore(records, n, PRESERVED)
  {
    forall j | 0 <= j < n && Is(records[j], PRESERVED) ensures AnyPreserved(events) {
      assert events[j - 1] == Committed(records[j].event.value, j);
    }
  }

  /** One more record: the transition takes its event exactly if it is in order. */
  lemma EventDecided(ctx: Context, codec: Codec, records: seq<Record>, n: nat, s: State)
    requires 0 < n == |records| - 1 && InOrder(ctx, codec, records[..n])
    requires forall j :: 1 <= j < n ==> records[j].event.Some?
    requires s == State(n - 1, !NoneBefore(records, n, GRANT), Told(records, n - 1))
    ensures var r := records[n];
            var next := if r.event.None? || (r.event.value.Admits() && ctx.deadline <= r.when) then None
                        else Transition(ctx, s, r.event.value, r.when as real);
            && (next.Some? <==> EventInOrder(ctx, records, n))
            && (next.Some? ==>
                  next.value == State(n, !NoneBefore(records, n + 1, GRANT), Told(records, n)))
  {
    match records[n].event
    case None =>
    case Some(e) =>
      match e
      case Watchdog(_, _, _, _) => WatchdogDecided(ctx, records, n, s);
      case Admission(_, _, _, _, _, _) => AdmissionDecided(ctx, codec, records, n, s);
      case Grant(_, _, _, _, _, _, _, _, _) => GrantDecided(ctx, records, n, s);
      case Preserved(_, _, _, _, _) => PreservationDecided(ctx, codec, records, n, s);
      case Terminal =>
    if records[n].event.Some? {
      assert Told(records, n) == Told(records, n - 1) + [Committed(records[n].event.value, n)];
      assert !NoneBefore(records, n + 1, GRANT) <==> !NoneBefore(records, n, GRANT) || Is(records[n], GRANT);
    }
  }

  /** The fold of `replay` goes through exactly for the histories in order, and ends in their state. */
  lemma {:induction false} ChainDecided(ctx: Context, codec: Codec, records: seq<Record>)
    ensures Chain(ctx, codec, records).Some? <==> InOrder(ctx, codec, records)
    ensures InOrder(ctx, codec, records) && records != [] ==>
              && (forall j :: 1 <= j < |records| ==> records[j].event.Some?)
              && Chain(ctx, codec, records)
                 == Some(Progress(Ends(records), Some(records[|records| - 1]), records[|records| - 1].when))
  {
    if records != [] {
      var n := |records| - 1;
      var early := records[..n];
      ChainDecided(ctx, codec, early);
      OrderSnoc(ctx, codec, records);
      if InOrder(ctx, codec, early) {
        if n > 0 {
          assert forall j :: 0 <= j < n ==> early[j] == records[j];
          assert Told(early, n - 1) == Told(records, n - 1);
          EventDecided(ctx, codec, records, n, Ends(early));
        } else {
          assert Told(records, 0) == [];
        }
        LineDecided(ctx, codec, records, n, early);
      }
    }
  }

  /** The checks on one line. */
  lemma LineDecided(ctx: Context, codec: Codec, records: seq<Record>, n: nat, early: seq<Record>)
    requires n == |records| - 1 && early == records[..n] && forall j :: 1 <= j < n ==> records[j].event.Some?
    requires n == 0 ==> Chain(ctx, codec, early) == Some(Start(ctx)) && Told(records, 0) == []
    requires n > 0 ==>
               && Chain(ctx, codec, early) == Some(Progress(Ends(early), Some(records[n - 1]), records[n - 1].when))
               && var r := records[n];
                  var next := if r.event.None? || (r.event.value.Admits() && ctx.deadline <= r.when) then None
                              else Transition(ctx, Ends(early), r.event.value, r.when as real);
                  && (next.Some? <==> EventInOrder(ctx, records, n))
                  && (next.Some? ==> next.value == State(n, !NoneBefore(records, n + 1, GRANT), Told(records, n)))
    ensures Chain(ctx, codec, records).Some? <==> RecordInOrder(ctx, codec, records, n)
    ensures RecordInOrder(ctx, codec, records, n) ==>
              Chain(ctx, codec, records) == Some(Progress(records[n].state, Some(records[n]), records[n].when))
  {
  }

  /** `replay` accepts exactly the bounded histories in order whose times the reader's clock has reached. */
  lemma ReplayDecided(ctx: Context, codec: Codec, clock: nat -> real, records: seq<Record>)
    ensures Replay(ctx, codec, clock, records).Some? <==>
              && 1 <= |records| <= 65 && Bytes(codec, records) <= 1048576
              && (forall i :: 0 <= i < |records| ==> records[i].when as real <= clock(i))
              && InOrder(ctx, codec, records)
  {
    ChainDecided(ctx, codec, records);
  }

  /** The record that follows an ordered history with `event` at second `when`. */
  function Following(records: seq<Record>, event: Event, when: int): Record
    requires records != [] && forall j :: 1 <= j < |records| ==> records[j].event.Some?
  {
    var n := |records|;
    Record(n, Some(records[n - 1]), when, Some(event),
           State(n, !NoneBefore(records, n, GRANT) || event.Grant?, Told(records, n - 1) + [Committed(event, n)]))
  }

  /** What `append` asks for besides the order of the extended history. */
  predicate Sendable(ctx: Context, codec: Codec, clock: nat -> real, current: seq<Record>, event: Event, expected: nat,
                     now: real, later: real)
  {
    && 1 <= |current| == expected + 1 <= 64 && current[expected].when as real <= now
    && (forall i :: 0 <= i < |current| ==> current[i].when as real <= clock(i))
    && (forall j :: 1 <= j < |current| ==> current[j].event.Some?)
    && (!event.Preserved? ==> ctx.starts as real <= now <= later < ctx.deadline as real)
    && codec(Following(current, event, now.Floor)) <= 65536
    && Bytes(codec, current) + codec(Following(current, event, now.Floor)) <= 1048576
  }

  lemma FollowingState(ctx: Context, codec: Codec, current: seq<Record>, event: Event, now: real)
    requires InOrder(ctx, codec, current) && current != []
    requires forall j :: 1 <= j < |current| ==> current[j].event.Some?
    ensures MakeRecord(Some(event), Appended(Ends(current), event), Some(current[|current| - 1]), now)
            == Following(current, event, now.Floor)
  {
  }

  /** What `append` prepares is the following record, its clock cut to the second, and extends the history in order. */
  lemma PreparedFollows(ctx: Context, codec: Codec, clock: nat -> real, current: seq<Record>, event: Event,
                        expected: nat, now: real, later: real)
    requires Prepare(ctx, codec, clock, current, event, expected, now, later).Some?
    ensures Sendable(ctx, codec, clock, current, event, expected, now, later)
    ensures var record := Following(current, event, now.Floor);
            && Prepare(ctx, codec, clock, current, event, expected, now, later) == Some(record)
            && InOrder(ctx, codec, current + [record])
  {
    ChainDecided(ctx, codec, current);
    var record := Prepare(ctx, codec, clock, current, event, expected, now, later).value;
    PreparedExtends(ctx, codec, clock, current, event, expected, now, later);
    ChainDecided(ctx, codec, current + [record]);
    FollowingState(ctx, codec, current, event, now);
  }

  /** At a whole second it prepares every following record that may be sent and is in order. */
  lemma FollowingPrepared(ctx: Context, codec: Codec, clock: nat -> real, current: seq<Record>, event: Event,
                          expected: nat, now: real, later: real)
    requires Sendable(ctx, codec, clock, current, event, expected, now, later) && now == now.Floor as real
    requires InOrder(ctx, codec, current + [Following(current, event, now.Floor)])
    ensures Prepare(ctx, codec, clock, current, event, expected, now, later).Some?
  {
    var next := current + [Following(current, event, now.Floor)];
    assert next[..|current|] == current;
    OrderSnoc(ctx, codec, next);
    assert RecordInOrder(ctx, codec, next, |current|);
    ChainDecided(ctx, codec, current);
    NextDecided(ctx, codec, current, event, now);
    FollowingState(ctx, codec, current, event, now);
  }

  /** The first record: at a time inside the window, small enough, empty. */
  lemma GenesisExact(ctx: Context, codec: Codec, now: real, later: real)
    ensures var first := Record(0, None, now.Floor, None, State(0, false, []));
            && (PrepareGenesis(ctx, codec, now, later).Some? <==>
                  ctx.starts as real <= now <= later < ctx.deadline as real && codec(first) <= 65536)
            && (PrepareGenesis(ctx, codec, now, later).Some? ==>
                  PrepareGenesis(ctx, codec, now, later) == Some(first) && InOrder(ctx, codec, [first]))
  {
    if PrepareGenesis(ctx, codec, now, later).Some? {
      GenesisAccepted(ctx, codec, now, later);
      ChainDecided(ctx, codec, [PrepareGenesis(ctx, codec, now, later).value]);
    }
  }

  /** The service appends a block exactly at the version and position it was sent for, within the size. */
  lemma CommitDecided(codec: Codec, c: W.Cloud, request: W.Request, lenient: bool)
    ensures var after := W.Commit(codec, c, request, lenient);
            && after == c.(blob := after.blob)
            && (request.Create? ==> after.blob == if c.blob.Missing? then W.Present([], 0, 0) else c.blob)
            && (request.AppendBlock? ==>
                  (after.blob != c.blob <==>
                     && c.blob.Present? && c.blob.etag == request.etag && c.blob.bytes == request.position
                     && (lenient || c.lease == Some(request.lease))
                     && request.position + codec(request.record) <= 1048576))
            && (request.AppendBlock? && after.blob != c.blob ==>
                  after.blob == W.Present(c.blob.records + [request.record], request.etag + 1,
                                          request.position + codec(request.record)))
  {
  }

  lemma NextDecided(ctx: Context, codec: Codec, current: seq<Record>, event: Event, now: real)
    requires current != [] && forall j :: 1 <= j < |current| ==> current[j].event.Some?
    requires InOrder(ctx, codec, current) && now == now.Floor as real
    requires EventInOrder(ctx, current + [Following(current, event, now.Floor)], |current|)
    ensures Transition(ctx, Ends(current), event, now) == Some(Appended(Ends(current), event))
    ensures !event.Terminal?
  {
    var n, next := |current|, current + [Following(current, event, now.Floor)];
    assert next[..n] == current && forall j :: 0 <= j < n ==> next[j] == current[j];
    assert Told(next, n - 1) == Told(current, n - 1);
    EventDecided(ctx, codec, next, n, Ends(current));
  }

  /** One controller that takes the lease, sends what it prepared and is not raced commits it and leaves no lease. */
  lemma AppendCommits(ctx: Context, codec: Codec, c: W.Cloud, lease: string, clock: nat -> real, event: Event,
                      expected: nat, now: real, later: real)
    requires W.Good(ctx, codec, c) && c.blob.Present? && c.lease == None
    requires Prepare(ctx, codec, clock, c.blob.records, event, expected, now, later).Some?
    ensures var record := Prepare(ctx, codec, clock, c.blob.records, event, expected, now, later).value;
            var steps := [W.Acquire(lease), W.SendAppend(lease, clock, event, expected, now, later),
                          W.Deliver(W.Block(lease, c.blob, record), false), W.Release(lease)];
            var after := W.Run(ctx, codec, c, steps);
            after.blob.Present? && after.blob.records == c.blob.records + [record] && after.lease == None
  {
    PreparedFollows(ctx, codec, clock, c.blob.records, event, expected, now, later);
    var record := Prepare(ctx, codec, clock, c.blob.records, event, expected, now, later).value;
    var acquired := W.Next(ctx, codec, c, W.Acquire(lease));
    var sent := W.Next(ctx, codec, acquired, W.SendAppend(lease, clock, event, expected, now, later));
    var delivered := W.Next(ctx, codec, sent, W.Deliver(W.Block(lease, c.blob, record), false));
    FourSteps(ctx, codec, c, W.Acquire(lease), W.SendAppend(lease, clock, event, expected, now, later),
              W.Deliver(W.Block(lease, c.blob, record), false), W.Release(lease));
  }

  lemma FourSteps(ctx: Context, codec: Codec, c: W.Cloud, s0: W.Step, s1: W.Step, s2: W.Step, s3: W.Step)
    ensures W.Run(ctx, codec, c, [s0, s1, s2, s3]) ==
            W.Next(ctx, codec, W.Next(ctx, codec, W.Next(ctx, codec, W.Next(ctx, codec, c, s0), s1), s2), s3)
  {
    var c1 := W.Next(ctx, codec, c, s0);
    var c2 := W.Next(ctx, codec, c1, s1);
    var c3 := W.Next(ctx, codec, c2, s2);
    assert [s0, s1, s2, s3][1..] == [s1, s2, s3] && [s1, s2, s3][1..] == [s2, s3];
    assert [s2, s3][1..] == [s3] && [s3][1..] == [];
    assert W.Run(ctx, codec, c3, [s3]) == W.Next(ctx, codec, c3, s3);
    assert W.Run(ctx, codec, c2, [s2, s3]) == W.Run(ctx, codec, c3, [s3]);
    assert W.Run(ctx, codec, c1, [s1, s2, s3]) == W.Run(ctx, codec, c2, [s2, s3]);
  }

  /** Whatever races over whatever wire, what is stored is in order. */
  lemma StoredInOrder(ctx: Context, codec: Codec, steps: seq<W.Step>)
    ensures var blob := W.Run(ctx, codec, W.NOTHING, steps).blob;
            blob.Present? ==> |blob.records| <= 65 && InOrder(ctx, codec, blob.records)
  {
    W.RunKeeps(ctx, codec, W.NOTHING, steps);
    var blob := W.Run(ctx, codec, W.NOTHING, steps).blob;
    if blob.Present? { ChainDecided(ctx, codec, blob.records); }
  }
}
