/**
 Controllers racing for one append blob.  Requests travel on a wire: a request may be
 delivered late, after its lease lapsed and its sender gave up, more than once, or never;
 replies may be lost.  The service applies an append only if the blob has not changed since
 it was read, and the lease condition may or may not still hold.
 */
module LedgerStorage {
  import opened Basics
  import opened Ledger

  /** `etag` changes with every write; `bytes` is the append position. */
  datatype Blob = Missing | Present(records: seq<Record>, etag: nat, bytes: nat)

  /** `base` is the history the sender had read; the service never sees it. */
  datatype Request =
    | Create
    | AppendBlock(lease: string, etag: nat, position: nat, record: Record, base: seq<Record>)

  datatype Cloud = Cloud(blob: Blob, lease: Option<string>, wire: set<Request>)

  datatype Step =
    | SendCreate
    | SendGenesis(lease: string, now: real, later: real)
    | SendAppend(lease: string, clock: nat -> real, event: Event, expected: nat, now: real, later: real)
    | Deliver(request: Request, lenient: bool)
    | Acquire(id: string)
    | Release(id: string)
    | Lapse

  predicate LeaseHolds(c: Cloud, lease: string, lenient: bool) {
    c.lease == Some(lease) || lenient
  }

  /** If-None-Match for creation; If-Match, append position and maximum size for a block. */
  function Commit(codec: Codec, c: Cloud, request: Request, lenient: bool): Cloud {
    match request
    case Create => if c.blob.Missing? then c.(blob := Present([], 0, 0)) else c
    case AppendBlock(lease, etag, position, record, base) =>
      if c.blob.Present? && LeaseHolds(c, lease, lenient) && c.blob.etag == etag && c.blob.bytes == position
         && position + codec(record) <= MAX_BYTES
      then c.(blob := Present(c.blob.records + [record], etag + 1, position + codec(record)))
      else c
  }

  function Block(lease: string, blob: Blob, record: Record): Request
    requires blob.Present?
  {
    AppendBlock(lease, blob.etag, blob.bytes, record, blob.records)
  }

  function Next(ctx: Context, codec: Codec, c: Cloud, step: Step): Cloud {
    match step
    case SendCreate => c.(wire := c.wire + {Create})
    case SendGenesis(lease, now, later) =>
      if c.blob.Present? && c.blob.records == [] && PrepareGenesis(ctx, codec, now, later).Some?
      then c.(wire := c.wire + {Block(lease, c.blob, PrepareGenesis(ctx, codec, now, later).value)})
      else c
    case SendAppend(lease, clock, event, expected, now, later) =>
      if c.blob.Present? && Prepare(ctx, codec, clock, c.blob.records, event, expected, now, later).Some?
      then c.(wire := c.wire
              + {Block(lease, c.blob, Prepare(ctx, codec, clock, c.blob.records, event, expected, now, later).value)})
      else c
    case Deliver(request, lenient) => if request in c.wire then Commit(codec, c, request, lenient) else c
    case Acquire(id) => if c.lease.None? then c.(lease := Some(id)) else c
    case Release(id) => if c.lease == Some(id) then c.(lease := None) else c
    case Lapse => c.(lease := None)
  }

  function Run(ctx: Context, codec: Codec, c: Cloud, steps: seq<Step>): Cloud
    decreases |steps|
  {
    if steps == [] then c else Run(ctx, codec, Next(ctx, codec, c, steps[0]), steps[1..])
  }

  const NOTHING := Cloud(Missing, None, {})

  // ---- the invariant -------------------------------------------------------------------------

  predicate BlobGood(ctx: Context, codec: Codec, blob: Blob) {
    blob.Present? ==>
      && (blob.records == [] || Accepted(ctx, codec, blob.records))
      && blob.bytes == Bytes(codec, blob.records)
      && blob.etag == |blob.records|
  }

  /** A request on the wire extends what its sender read; if its etag is current, that is the blob. */
  predicate RequestGood(ctx: Context, codec: Codec, blob: Blob, r: Request) {
    r.AppendBlock? ==>
      && blob.Present?
      && r.base <= blob.records && r.etag == |r.base|
      && r.record.sequence == |r.base|
      && Accepted(ctx, codec, r.base + [r.record])
  }

  ghost predicate Good(ctx: Context, codec: Codec, c: Cloud) {
    BlobGood(ctx, codec, c.blob) && forall r :: r in c.wire ==> RequestGood(ctx, codec, c.blob, r)
  }

  /** Histories only grow. */
  predicate Grows(before: Blob, after: Blob) {
    before.Present? ==> after.Present? && before.records <= after.records
  }

  lemma RequestsStayGood(ctx: Context, codec: Codec, before: Blob, after: Blob, wire: set<Request>)
    requires Grows(before, after) && forall r :: r in wire ==> RequestGood(ctx, codec, before, r)
    ensures forall r :: r in wire ==> RequestGood(ctx, codec, after, r)
  {
    forall r | r in wire ensures RequestGood(ctx, codec, after, r) {
      assert RequestGood(ctx, codec, before, r);
    }
  }

  lemma CommitKeeps(ctx: Context, codec: Codec, c: Cloud, request: Request, lenient: bool)
    requires Good(ctx, codec, c) && request in c.wire
    ensures Good(ctx, codec, Commit(codec, c, request, lenient))
            && Grows(c.blob, Commit(codec, c, request, lenient).blob)
  {
    var after := Commit(codec, c, request, lenient);
    assert RequestGood(ctx, codec, c.blob, request);
    if after != c && request.AppendBlock? {
      assert request.base == c.blob.records;
      assert (c.blob.records + [request.record])[..|c.blob.records|] == c.blob.records;
    }
    RequestsStayGood(ctx, codec, c.blob, after.blob, c.wire);
  }

  lemma SendKeeps(ctx: Context, codec: Codec, c: Cloud, lease: string, record: Record)
    requires Good(ctx, codec, c) && c.blob.Present?
    requires record.sequence == |c.blob.records| && Accepted(ctx, codec, c.blob.records + [record])
    ensures Good(ctx, codec, c.(wire := c.wire + {Block(lease, c.blob, record)}))
  {
  }

  lemma StepKeeps(ctx: Context, codec: Codec, c: Cloud, step: Step)
    requires Good(ctx, codec, c)
    ensures Good(ctx, codec, Next(ctx, codec, c, step)) && Grows(c.blob, Next(ctx, codec, c, step).blob)
  {
    match step
    case SendGenesis(lease, now, later) =>
      if c.blob.Present? && c.blob.records == [] && PrepareGenesis(ctx, codec, now, later).Some? {
        var record := PrepareGenesis(ctx, codec, now, later).value;
        GenesisAccepted(ctx, codec, now, later);
        assert c.blob.records + [record] == [record];
        SendKeeps(ctx, codec, c, lease, record);
      }
    case SendAppend(lease, clock, event, expected, now, later) =>
      if c.blob.Present? && Prepare(ctx, codec, clock, c.blob.records, event, expected, now, later).Some? {
        PreparedExtends(ctx, codec, clock, c.blob.records, event, expected, now, later);
        SendKeeps(ctx, codec, c, lease, Prepare(ctx, codec, clock, c.blob.records, event, expected, now, later).value);
      }
    case Deliver(request, lenient) => if request in c.wire { CommitKeeps(ctx, codec, c, request, lenient); }
    case _ =>
  }

  lemma {:induction false} RunKeeps(ctx: Context, codec: Codec, c: Cloud, steps: seq<Step>)
    requires Good(ctx, codec, c)
    ensures Good(ctx, codec, Run(ctx, codec, c, steps)) && Grows(c.blob, Run(ctx, codec, c, steps).blob)
    decreases |steps|
  {
    if steps != [] {
      StepKeeps(ctx, codec, c, steps[0]);
      RunKeeps(ctx, codec, Next(ctx, codec, c, steps[0]), steps[1..]);
    }
  }

  /**
   Linearisability.  However controllers race, leases lapse, requests arrive late or twice
   and replies get lost: the blob is missing, empty, or a history that `replay` accepts for
   every reader whose clock has reached it, whose i-th record has sequence i.
   */
  lemma AlwaysReplayable(ctx: Context, codec: Codec, steps: seq<Step>, clock: nat -> real)
    ensures var blob := Run(ctx, codec, NOTHING, steps).blob;
            blob.Present? && blob.records != [] ==>
              && (Replay(ctx, codec, clock, blob.records).Some? <==> NotAhead(blob.records, clock))
              && Chain(ctx, codec, blob.records).Some?
              && |Grants(Chain(ctx, codec, blob.records).value.state.events)| <= 1
              && |blob.records| <= MAX_EVENTS + 1
              && forall i :: 0 <= i < |blob.records| ==> blob.records[i].sequence == i
  {
    RunKeeps(ctx, codec, NOTHING, steps);
    var blob := Run(ctx, codec, NOTHING, steps).blob;
    if blob.Present? && blob.records != [] {
      AcceptedReplays(ctx, codec, clock, blob.records);
      ChainShape(ctx, codec, blob.records);
      OneGrant(ctx, codec, blob.records);
    }
  }

  /** Each sequence number is committed at most once: what was read at a position stays there. */
  lemma CommittedOnce(ctx: Context, codec: Codec, first: seq<Step>, rest: seq<Step>, i: nat)
    requires Run(ctx, codec, NOTHING, first).blob.Present?
    requires i < |Run(ctx, codec, NOTHING, first).blob.records|
    ensures var before := Run(ctx, codec, NOTHING, first);
            var after := Run(ctx, codec, before, rest).blob;
            && after.Present? && i < |after.records| && after.records[i] == before.blob.records[i]
            && forall j :: 0 <= j < |after.records| && after.records[j].sequence == i ==> j == i
  {
    RunKeeps(ctx, codec, NOTHING, first);
    var before := Run(ctx, codec, NOTHING, first);
    RunKeeps(ctx, codec, before, rest);
    ChainShape(ctx, codec, Run(ctx, codec, before, rest).blob.records);
  }

  /** Of all the requests prepared from the same history at most one ever commits. */
  lemma OneWinner(ctx: Context, codec: Codec, c: Cloud, first: Request, second: Request, between: seq<Step>, a: bool,
                  b: bool)
    requires Good(ctx, codec, c) && first in c.wire && second in c.wire
    requires first.AppendBlock? && second.AppendBlock? && first.etag == second.etag
    requires Commit(codec, c, first, a) != c
    ensures var later := Run(ctx, codec, Commit(codec, c, first, a), between);
            Commit(codec, later, second, b) == later
  {
    var won := Commit(codec, c, first, a);
    CommitKeeps(ctx, codec, c, first, a);
    RunKeeps(ctx, codec, won, between);
  }
}
