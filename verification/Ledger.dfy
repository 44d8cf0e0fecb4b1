/**
 The controller ledger (training/cosmo_controller_ledger.py) over the pure transition of
 training/three_family_contract.py, for the Cosmo-only scope.  Events carry whole-second
 timestamps, clocks are real numbers of seconds, and a record commits to the whole record
 before it (hashes are injective).
 */
module Ledger {
  import opened Basics

  const MAX_BYTES: nat := 1048576
  const MAX_RECORD_BYTES: nat := 65536
  const MAX_EVENTS: nat := 64

  /** The grant window, and the bounds that the pinned cost guard puts on an admitted balance. */
  datatype Context = Context(starts: int, deadline: int, required: real, ceiling: real)

  /**
   What the checks look at.  `cosmo` says that the family is kova-cosmo and not absent;
   `genuine` gathers shapes, signatures and equalities with pinned configuration.
   */
  datatype Event =
    | Watchdog(cosmo: bool, observed: int, expires: int, genuine: bool)
    | Admission(cosmo: bool, observed: int, expires: int, quote: string, remaining: real, genuine: bool)
    | Grant(cosmo: bool, quote: string, grantId: string, issued: int, expires: int, allocation: int,
            preflight: int, claimed: int, genuine: bool)
    | Preserved(cosmo: bool, grantId: string, grantSequence: int, verified: int, genuine: bool)
    | Terminal
  {
    predicate Admits() {
      Watchdog? || Admission? || Grant?
    }
  }

  datatype Committed = Committed(event: Event, sequence: nat)

  /** `granted`: kova-cosmo is in the family order. */
  datatype State = State(sequence: nat, granted: bool, events: seq<Committed>)

  const INITIAL := State(0, false, [])

  datatype Record = Record(sequence: nat, previous: Option<Record>, when: int, event: Option<Event>, state: State)

  /** Length in bytes of a signed record with its newline. */
  type Codec = Record -> nat

  // ---- append_ledger_event ----------------------------------------------------------------

  /** `_fresh_admission`: observed already, not expired yet, valid for at most five minutes. */
  predicate Fresh(observed: int, expires: int, now: real) {
    observed as real <= now < expires as real && expires <= observed + 300
  }

  predicate Recent(event: Event, now: real) {
    (event.Watchdog? || event.Admission?) && event.cosmo && Fresh(event.observed, event.expires, now)
  }

  function LastRemaining(events: seq<Committed>): Option<real> {
    if events == [] then None
    else
      var e := events[|events| - 1].event;
      if e.Admission? then Some(e.remaining) else LastRemaining(events[..|events| - 1])
  }

  function Grants(events: seq<Committed>): seq<Committed> {
    if events == [] then []
    else
      var c := events[|events| - 1];
      Grants(events[..|events| - 1]) + (if c.event.Grant? then [c] else [])
  }

  function GrantIdOf(e: Event): Option<string> {
    if e.Grant? then Some(e.grantId) else None
  }

  predicate AnyPreserved(events: seq<Committed>) {
    exists i :: 0 <= i < |events| && events[i].event.Preserved?
  }

  predicate Allowed(ctx: Context, s: State, e: Event, now: real) {
    var n := |s.events|;
    match e
    case Watchdog(cosmo, observed, expires, genuine) => !s.granted && Recent(e, now) && genuine
    case Admission(cosmo, observed, expires, quote, remaining, genuine) =>
      && !s.granted && n > 0 && s.events[n - 1].event.Watchdog? && s.events[n - 1].event.cosmo
      && Recent(e, now) && genuine && ctx.required <= remaining <= ctx.ceiling
      && (LastRemaining(s.events).Some? ==> remaining <= LastRemaining(s.events).value)
    case Grant(cosmo, quote, grantId, issued, expires, allocation, preflight, claimed, genuine) =>
      && cosmo && !s.granted && n >= 2
      && s.events[n - 2].event.Watchdog? && s.events[n - 1].event.Admission?
      && Recent(s.events[n - 2].event, now) && Recent(s.events[n - 1].event, now)
    case Preserved(cosmo, grantId, grantSequence, verified, genuine) =>
      && cosmo && s.granted && !AnyPreserved(s.events) && genuine
      && |Grants(s.events)| == 1
      && Grants(s.events)[0].sequence == grantSequence && GrantIdOf(Grants(s.events)[0].event) == Some(grantId)
      && now - 300.0 <= verified as real <= now
    case Terminal => false
  }

  function Appended(s: State, e: Event): State {
    State(s.sequence + 1, s.granted || e.Grant?, s.events + [Committed(e, s.sequence + 1)])
  }

  /** The checks of `_transition` on a signed grant response. */
  predicate GrantTimely(ctx: Context, s: State, e: Event, now: real)
    requires e.Grant?
  {
    var n := |s.events|;
    && e.genuine && n > 0 && s.events[n - 1].event.Admission? && s.events[n - 1].event.quote == e.quote
    && e.preflight == s.sequence && e.claimed == s.sequence + 1
    && now - 60.0 <= e.issued as real <= now
    && now + 2700.0 <= e.expires as real && e.expires == ctx.deadline
    && e.expires + 900 <= e.allocation <= ctx.starts + 7200
  }

  function Transition(ctx: Context, s: State, e: Event, now: real): Option<State> {
    if (e.Grant? ==> GrantTimely(ctx, s, e, now)) && Allowed(ctx, s, e, now) then Some(Appended(s, e)) else None
  }

  // ---- writing with a sub-second clock, replaying with whole seconds ------------------------

  /**
   What is accepted at a sub-second time is accepted at its whole second, with the same
   state: every timestamp in an event is a whole second, and no check has a lower bound
   on the clock that is not one.
   */
  lemma FloorAccepts(ctx: Context, s: State, e: Event, now: real)
    requires Transition(ctx, s, e, now).Some?
    ensures Transition(ctx, s, e, now.Floor as real) == Transition(ctx, s, e, now)
  {
    var cut := now.Floor as real;
    WholeSecond(0, now);
    match e
    case Grant(_, _, _, issued, _, _, _, _, _) =>
      var n := |s.events|;
      WholeSecond(issued, now);
      FloorRecent(s.events[n - 2].event, now);
      FloorRecent(s.events[n - 1].event, now);
      GrantEarlier(ctx, s, e, now, cut);
    case Preserved(_, _, _, verified, _) =>
      WholeSecond(verified, now);
      PreservedEarlier(ctx, s, e, now, cut);
    case _ =>
      FloorRecent(e, now);
  }

  lemma GrantEarlier(ctx: Context, s: State, e: Event, now: real, cut: real)
    requires e.Grant? && GrantTimely(ctx, s, e, now) && e.issued as real <= cut <= now
    ensures GrantTimely(ctx, s, e, cut)
  {
  }

  lemma PreservedEarlier(ctx: Context, s: State, e: Event, now: real, cut: real)
    requires e.Preserved? && Allowed(ctx, s, e, now) && e.verified as real <= cut <= now
    ensures Allowed(ctx, s, e, cut)
  {
  }

  /** A whole second has been reached exactly when the cut clock has reached it. */
  lemma WholeSecond(second: int, now: real)
    ensures second as real <= now <==> second <= now.Floor
    ensures second as real <= now <==> second as real <= now.Floor as real
    ensures now.Floor as real <= now
  {
    assert now.Floor as real <= now < now.Floor as real + 1.0;
    if now.Floor < second {
      assert (now.Floor + 1) as real <= second as real;
    }
  }

  lemma FloorRecent(e: Event, now: real)
    requires Recent(e, now)
    ensures Recent(e, now.Floor as real)
  {
    WholeSecond(e.observed, now);
    WholeSecond(e.expires, now);
  }

  // ---- records and replay ---------------------------------------------------------------------

  /** `_record`: the commit time is cut to the second. */
  function MakeRecord(event: Option<Event>, s: State, previous: Option<Record>, now: real): Record {
    Record(s.sequence, previous, now.Floor, event, s)
  }

  datatype Progress = Progress(state: State, previous: Option<Record>, last: int)

  function Start(ctx: Context): Progress {
    Progress(INITIAL, None, ctx.starts)
  }

  /** The state after one line, if its event is in order. */
  function StateAfter(ctx: Context, acc: Progress, number: nat, r: Record): Option<State> {
    if number == 0 then
      if r.event.None? && r.when < ctx.deadline then Some(acc.state) else None
    else if r.event.None? || r.event.value.Terminal? then None
    else if r.event.value.Admits() && ctx.deadline <= r.when then None
    else Transition(ctx, acc.state, r.event.value, r.when as real)
  }

  function ReplayLine(ctx: Context, codec: Codec, acc: Progress, number: nat, r: Record): Option<Progress> {
    if MAX_RECORD_BYTES + 1 < codec(r) || r.sequence != number || r.previous != acc.previous || r.when < acc.last
      then None
    else
      match StateAfter(ctx, acc, number, r)
      case None => None
      case Some(s) => if r.state == s then Some(Progress(s, Some(r), r.when)) else None
  }

  /** The fold of `replay`, apart from the comparison with the reader's clock. */
  function Chain(ctx: Context, codec: Codec, records: seq<Record>): Option<Progress> {
    if records == [] then Some(Start(ctx))
    else
      var n := |records| - 1;
      match Chain(ctx, codec, records[..n])
      case None => None
      case Some(acc) => ReplayLine(ctx, codec, acc, n, records[n])
  }

  function Bytes(codec: Codec, records: seq<Record>): nat {
    if records == [] then 0 else Bytes(codec, records[..|records| - 1]) + codec(records[|records| - 1])
  }

  predicate NotAhead(records: seq<Record>, clock: nat -> real) {
    forall i :: 0 <= i < |records| ==> records[i].when as real <= clock(i)
  }

  predicate Sized(codec: Codec, records: seq<Record>) {
    && records != []
    && Bytes(codec, records) <= MAX_BYTES
    && |records| <= MAX_EVENTS + 1
  }

  function Replay(ctx: Context, codec: Codec, clock: nat -> real, records: seq<Record>): Option<Progress> {
    if Sized(codec, records) && NotAhead(records, clock) then Chain(ctx, codec, records) else None
  }

  /** One turn of the loop: the checks on a line, then the transition. */
  method CheckLine(ctx: Context, codec: Codec, now: real, acc: Progress, number: nat, line: Record)
    returns (r: Option<Progress>)
    ensures r == if line.when as real <= now then ReplayLine(ctx, codec, acc, number, line) else None
  {
    if MAX_RECORD_BYTES + 1 < codec(line) { return None; }
    if line.sequence != number || line.previous != acc.previous { return None; }
    if !(acc.last <= line.when && line.when as real <= now) { return None; }
    var state := acc.state;
    if number == 0 {
      if line.event.Some? || ctx.deadline <= line.when { return None; }
    } else {
      if line.event.None? || line.event.value.Terminal? { return None; }
      if line.event.value.Admits() && ctx.deadline <= line.when { return None; }
      var next := Transition(ctx, state, line.event.value, line.when as real);
      if next.None? { return None; }
      state := next.value;
    }
    if line.state != state { return None; }
    return Some(Progress(state, Some(line), line.when));
  }

  /** One turn of the loop, on the specification. */
  lemma ReplayStep(ctx: Context, codec: Codec, clock: nat -> real, records: seq<Record>, number: nat, acc: Progress)
    requires number < |records| && Chain(ctx, codec, records[..number]) == Some(acc)
             && NotAhead(records[..number], clock)
    ensures var timely := records[number].when as real <= clock(number);
            && Chain(ctx, codec, records[..number + 1]) == ReplayLine(ctx, codec, acc, number, records[number])
            && (NotAhead(records[..number + 1], clock) <==> timely)
            && (Chain(ctx, codec, records[..number + 1]).None? || !timely ==>
                  Chain(ctx, codec, records).None? || !NotAhead(records, clock))
  {
    assert records[..number + 1][..number] == records[..number];
    BrokenChain(ctx, codec, records, number);
    assert forall i :: 0 <= i < number ==> records[..number][i] == records[i];
  }

  /** The loop of the source: state, previous digest and last time folded over the lines. */
  method ReplayLoop(ctx: Context, codec: Codec, clock: nat -> real, records: seq<Record>) returns (r: Option<Progress>)
    ensures r == Replay(ctx, codec, clock, records)
  {
    if records == [] || MAX_BYTES < Bytes(codec, records) || MAX_EVENTS + 1 < |records| { return None; }
    var acc := Start(ctx);
    for number := 0 to |records|
      invariant Chain(ctx, codec, records[..number]) == Some(acc)
      invariant NotAhead(records[..number], clock)
    {
      ReplayStep(ctx, codec, clock, records, number, acc);
      var next := CheckLine(ctx, codec, clock(number), acc, number, records[number]);
      if next.None? { return None; }
      acc := next.value;
    }
    assert records[..|records|] == records;
    return Some(acc);
  }

  /** A history whose prefix is refused is refused. */
  lemma {:induction false} BrokenChain(ctx: Context, codec: Codec, records: seq<Record>, n: nat)
    requires n < |records|
    ensures Chain(ctx, codec, records[..n + 1]).None? ==> Chain(ctx, codec, records).None?
  {
    if n + 1 == |records| {
      assert records[..n + 1] == records;
    } else {
      var m := |records| - 1;
      assert records[..m][..n + 1] == records[..n + 1];
      BrokenChain(ctx, codec, records[..m], n);
    }
  }

  // ---- append ------------------------------------------------------------------------------------

  /** Everything `append` computes between reading `current` and sending the block. */
  function Prepare(ctx: Context, codec: Codec, clock: nat -> real, current: seq<Record>, event: Event, expected: nat,
                   now: real, later: real): Option<Record>
  {
    if event.Terminal? || MAX_EVENTS <= expected then None
    else
      match Replay(ctx, codec, clock, current)
      case None => None
      case Some(acc) =>
        if acc.state.sequence != expected || now < acc.last as real then None
        else if event.Admits() && !(ctx.starts as real <= now < ctx.deadline as real) then None
        else
          match Transition(ctx, acc.state, event, now)
          case None => None
          case Some(updated) =>
            Sealed(ctx, codec, current, MakeRecord(Some(event), updated, acc.previous, now), event.Admits(), now, later)
  }

  /** The checks of `_record` and `_append_record` before the conditional append. */
  function Sealed(ctx: Context, codec: Codec, current: seq<Record>, record: Record, admission: bool, now: real,
                  later: real)
    : Option<Record>
  {
    if MAX_RECORD_BYTES < codec(record) || MAX_BYTES < Bytes(codec, current) + codec(record) then None
    else if admission && !(now <= later < ctx.deadline as real) then None
    else Some(record)
  }

  /** `initialize`, once the blob was read back empty. */
  function PrepareGenesis(ctx: Context, codec: Codec, now: real, later: real): Option<Record> {
    if !(ctx.starts as real <= now < ctx.deadline as real) then None
    else Sealed(ctx, codec, [], MakeRecord(None, INITIAL, None, now), true, now, later)
  }

  /** The history replays for every reader whose clock has reached its records. */
  predicate Accepted(ctx: Context, codec: Codec, records: seq<Record>) {
    Sized(codec, records) && Chain(ctx, codec, records).Some?
  }

  lemma AcceptedReplays(ctx: Context, codec: Codec, clock: nat -> real, records: seq<Record>)
    ensures Replay(ctx, codec, clock, records).Some? <==> Accepted(ctx, codec, records) && NotAhead(records, clock)
  {
  }

  lemma {:induction false} ChainShape(ctx: Context, codec: Codec, records: seq<Record>)
    requires Chain(ctx, codec, records).Some? && records != []
    ensures var acc := Chain(ctx, codec, records).value;
            && acc.previous == Some(records[|records| - 1]) && acc.last == records[|records| - 1].when
            && acc.state == records[|records| - 1].state && acc.state.sequence == |records| - 1
            && ctx.starts <= acc.last
    ensures forall i :: 0 <= i < |records| ==>
              records[i].sequence == i && records[i].when <= records[|records| - 1].when
  {
    var n := |records| - 1;
    if n > 0 {
      ChainShape(ctx, codec, records[..n]);
      forall i | 0 <= i < |records| ensures records[i].sequence == i && records[i].when <= records[n].when {
        if i < n { assert records[i] == records[..n][i]; }
      }
    }
  }

  /** A record prepared from an accepted history extends it to an accepted history with the state computed. */
  lemma PreparedExtends(ctx: Context, codec: Codec, clock: nat -> real, current: seq<Record>, event: Event,
                        expected: nat, now: real, later: real)
    requires Prepare(ctx, codec, clock, current, event, expected, now, later).Some?
    ensures var record := Prepare(ctx, codec, clock, current, event, expected, now, later).value;
            && Accepted(ctx, codec, current + [record])
            && record.sequence == |current| == expected + 1
            && Chain(ctx, codec, current + [record]).value.state
               == Transition(ctx, Chain(ctx, codec, current).value.state, event, now).value
  {
    var record := Prepare(ctx, codec, clock, current, event, expected, now, later).value;
    var acc := Chain(ctx, codec, current).value;
    assert (current + [record])[..|current|] == current;
    ChainShape(ctx, codec, current);
    FloorAccepts(ctx, acc.state, event, now);
  }

  lemma GenesisAccepted(ctx: Context, codec: Codec, now: real, later: real)
    requires PrepareGenesis(ctx, codec, now, later).Some?
    ensures Accepted(ctx, codec, [PrepareGenesis(ctx, codec, now, later).value])
  {
    var record := PrepareGenesis(ctx, codec, now, later).value;
    assert [record][..0] == [];
  }

  // ---- one grant per ledger -------------------------------------------------------------------------

  ghost predicate GrantCounted(s: State) {
    |Grants(s.events)| == if s.granted then 1 else 0
  }

  lemma {:induction false} ChainCountsGrants(ctx: Context, codec: Codec, records: seq<Record>)
    requires Chain(ctx, codec, records).Some?
    ensures GrantCounted(Chain(ctx, codec, records).value.state)
  {
    if records != [] {
      var n := |records| - 1;
      ChainCountsGrants(ctx, codec, records[..n]);
      var s := Chain(ctx, codec, records[..n]).value.state;
      if n > 0 {
        var c := Committed(records[n].event.value, s.sequence + 1);
        assert (s.events + [c])[..|s.events|] == s.events;
      }
    }
  }

  /** However the ledger grew, it consumed at most one training run. */
  lemma OneGrant(ctx: Context, codec: Codec, records: seq<Record>)
    requires Accepted(ctx, codec, records)
    ensures |Grants(Chain(ctx, codec, records).value.state.events)| <= 1
  {
    ChainCountsGrants(ctx, codec, records);
  }
}
