/**
 One controller at work on the blob (`initialize`, `append` and `_append_record` of
 training/cosmo_controller_ledger.py): lease, read, replay, transition, conditional
 append, read back, late checks, release.
 */
module LedgerController {
  import opened Basics
  import opened Ledger
  import W = LedgerStorage

  /** The protected append blob with its lease. */
  class AppendBlob {
    const codec: Codec
    var blob: W.Blob
    var lease: Option<string>

    constructor (codec: Codec)
      ensures this.codec == codec && blob == W.Missing && lease == None
    {
      this.codec := codec;
      blob, lease := W.Missing, None;
    }

    /** The service applies a block only under the lease and on the state that was read. */
    method PutBlock(held: string, etag: nat, position: nat, record: Record) returns (offset: Option<nat>)
      modifies this`blob
      ensures W.Commit(codec, W.Cloud(old(blob), lease, {}), W.AppendBlock(held, etag, position, record, []),
                       false).blob == blob
      ensures offset.Some? <==> blob != old(blob)
      ensures offset.Some? ==> offset == Some(position)
    {
      if blob.Missing? || lease != Some(held) || blob.etag != etag || blob.bytes != position { return None; }
      if MAX_BYTES < position + codec(record) { return None; }
      blob := W.Present(blob.records + [record], etag + 1, position + codec(record));
      return Some(position);
    }
  }

  /** Readings of the controller's clock, in the order the code takes them. */
  datatype Clocks = Clocks(replay: nat -> real, now: real, before: real, after: real)

  /** An admission among the last events has not gone stale. */
  predicate StillTimely(e: Event, now: real) {
    e.Watchdog? || e.Admission? ==> Fresh(e.observed, e.expires, now)
  }

  /** Nothing but the prepared record was added, and it was if success is reported. */
  predicate Extended(before: seq<Record>, after: seq<Record>, prepared: Option<Record>, answer: Option<Record>) {
    && (after == before || (prepared.Some? && after == before + [prepared.value]))
    && (answer.Some? ==> answer == prepared && after == before + [answer.value])
  }

  class ControllerLedger {
    const ctx: Context
    const codec: Codec
    const store: AppendBlob

    ghost predicate Valid()
      reads this, store
    {
      store.codec == codec && W.BlobGood(ctx, codec, store.blob)
    }

    constructor (ctx: Context, store: AppendBlob)
      requires W.BlobGood(ctx, store.codec, store.blob)
      ensures Valid() && this.ctx == ctx && this.store == store
    {
      this.ctx, this.codec, this.store := ctx, store.codec, store;
    }

    function History(): seq<Record>
      reads this, store
    {
      if store.blob.Missing? then [] else store.blob.records
    }

    /** The late freshness check on the last three events. */
    method StillFresh(events: seq<Committed>, now: real) returns (recent: bool)
      ensures recent <==> forall i :: Max(0, |events| - 3) <= i < |events| ==> StillTimely(events[i].event, now)
    {
      var first := Max(0, |events| - 3);
      for i := first to |events|
        invariant forall j :: first <= j < i ==> StillTimely(events[j].event, now)
      {
        var e := events[i].event;
        if (e.Watchdog? || e.Admission?) && !Fresh(e.observed, e.expires, now) { return false; }
      }
      return true;
    }

    /**
     `_append_record`: the block is sent once.  None means refused or uncertain; the block
     may have been committed all the same, when the reply was lost or time ran out.
     */
    method AppendRecord(current: W.Blob, lease: string, admission: bool, record: Record, clocks: Clocks,
                        replyLost: bool)
      returns (answer: Option<Record>)
      requires Valid() && store.lease == Some(lease) && current == store.blob && current.Present?
      requires Sealed(ctx, codec, current.records, record, false, clocks.now, clocks.before).Some? ==>
                 Accepted(ctx, codec, current.records + [record])
      modifies store`blob
      ensures Valid()
      ensures History() == old(History())
              || (History() == old(History()) + [record]
                  && Sealed(ctx, codec, old(History()), record, admission, clocks.now, clocks.before) == Some(record))
      ensures answer.Some? ==> answer == Some(record) && History() == old(History()) + [record]
      ensures answer.Some? && admission ==> clocks.now <= clocks.after < ctx.deadline as real
      ensures answer.Some? && admission ==>
                var events := record.state.events;
                forall i :: Max(0, |events| - 3) <= i < |events| ==> StillTimely(events[i].event, clocks.after)
    {
      if MAX_RECORD_BYTES < codec(record) { return None; }
      if MAX_BYTES < Bytes(codec, current.records) + codec(record) { return None; }
      if admission && !(clocks.now <= clocks.before < ctx.deadline as real) { return None; }
      var offset := store.PutBlock(lease, current.etag, current.bytes, record);
      assert (current.records + [record])[..|current.records|] == current.records;
      if offset != Some(current.bytes) || replyLost { return None; }
      if store.blob.Missing? || store.blob.records != current.records + [record] { return None; }
      if admission {
        if !(clocks.now <= clocks.after < ctx.deadline as real) { return None; }
        var timely := StillFresh(record.state.events, clocks.after);
        if !timely { return None; }
      }
      return Some(record);
    }

    /** `initialize`: create-only, then the genesis record. */
    method Initialize(lease: string, protected: bool, clocks: Clocks, replyLost: bool) returns (answer: Option<Record>)
      requires Valid() && store.lease.None?
      modifies store
      ensures Valid() && store.lease.None?
      ensures old(store.blob).Present? ==> answer.None? && store.blob == old(store.blob)
      ensures History() == old(History())
              || Some(History()) == match PrepareGenesis(ctx, codec, clocks.now, clocks.before)
                                    case None => None
                                    case Some(record) => Some([record])
      ensures answer.Some? ==> History() == [answer.value]
    {
      if !(ctx.starts as real <= clocks.now < ctx.deadline as real) || !protected { return None; }
      if store.blob.Present? { return None; }
      store.blob := W.Present([], 0, 0);
      store.lease := Some(lease);
      var record := MakeRecord(None, INITIAL, None, clocks.now);
      GenesisFits(clocks.now, clocks.before, record);
      answer := AppendRecord(store.blob, lease, true, record, clocks, replyLost);
      assert [] + [record] == [record];
      store.lease := None;
    }

    lemma GenesisFits(now: real, before: real, record: Record)
      requires ctx.starts as real <= now < ctx.deadline as real && record == MakeRecord(None, INITIAL, None, now)
      ensures Sealed(ctx, codec, [], record, false, now, before).Some? ==> Accepted(ctx, codec, [] + [record])
    {
      if Sealed(ctx, codec, [], record, false, now, before).Some? {
        assert PrepareGenesis(ctx, codec, now, now) == Some(record);
        GenesisAccepted(ctx, codec, now, now);
        assert [] + [record] == [record];
      }
    }

    /** `append`: nothing but the prepared record can ever be added, and only success is reported as success. */
    method Append(event: Event, expected: nat, lease: string, protected: bool, clocks: Clocks, replyLost: bool)
      returns (answer: Option<Record>)
      requires Valid() && store.lease.None?
      modifies store
      ensures Valid() && store.lease.None?
      ensures Extended(old(History()), History(), Prepared(old(History()), event, expected, clocks), answer)
      ensures answer.Some? ==> answer.value.sequence == expected + 1
      ensures answer.Some? && !event.Preserved? ==> clocks.now <= clocks.after < ctx.deadline as real
      ensures answer.Some? && !event.Preserved? ==>
                var events := answer.value.state.events;
                forall i :: Max(0, |events| - 3) <= i < |events| ==> StillTimely(events[i].event, clocks.after)
    {
      if MAX_EVENTS <= expected || event.Terminal? || !protected { return None; }
      store.lease := Some(lease);
      answer := AppendHeld(event, expected, lease, clocks, replyLost);
      store.lease := None;
    }

    /** The record that `append` makes of the history it reads. */
    function Prepared(history: seq<Record>, event: Event, expected: nat, clocks: Clocks): Option<Record> {
      Prepare(ctx, codec, clocks.replay, history, event, expected, clocks.now, clocks.before)
    }

    /** Under the lease: read, replay, apply the transition, append. */
    method AppendHeld(event: Event, expected: nat, lease: string, clocks: Clocks, replyLost: bool)
      returns (answer: Option<Record>)
      requires Valid() && store.lease == Some(lease) && expected < MAX_EVENTS && !event.Terminal?
      modifies store`blob
      ensures Valid()
      ensures Extended(old(History()), History(), Prepared(old(History()), event, expected, clocks), answer)
      ensures answer.Some? ==> answer.value.sequence == expected + 1
      ensures answer.Some? && !event.Preserved? ==> clocks.now <= clocks.after < ctx.deadline as real
      ensures answer.Some? && !event.Preserved? ==>
                var events := answer.value.state.events;
                forall i :: Max(0, |events| - 3) <= i < |events| ==> StillTimely(events[i].event, clocks.after)
    {
      if store.blob.Missing? { return None; }
      var replayed := ReplayLoop(ctx, codec, clocks.replay, store.blob.records);
      if replayed.None? || replayed.value.state.sequence != expected || clocks.now < replayed.value.last as real {
        return None;
      }
      if event.Admits() && !(ctx.starts as real <= clocks.now < ctx.deadline as real) { return None; }
      var updated := Transition(ctx, replayed.value.state, event, clocks.now);
      if updated.None? { return None; }
      var record := MakeRecord(Some(event), updated.value, replayed.value.previous, clocks.now);
      RecordFits(store.blob.records, event, expected, clocks, record);
      answer := AppendRecord(store.blob, lease, event.Admits(), record, clocks, replyLost);
    }

    lemma RecordFits(current: seq<Record>, event: Event, expected: nat, clocks: Clocks, record: Record)
      requires expected < MAX_EVENTS && !event.Terminal?
      requires var acc := Replay(ctx, codec, clocks.replay, current);
               && acc.Some? && acc.value.state.sequence == expected && acc.value.last as real <= clocks.now
               && (event.Admits() ==> ctx.starts as real <= clocks.now < ctx.deadline as real)
               && Transition(ctx, acc.value.state, event, clocks.now).Some?
               && record == MakeRecord(Some(event), Transition(ctx, acc.value.state, event, clocks.now).value,
                                       acc.value.previous, clocks.now)
      ensures Sealed(ctx, codec, current, record, false, clocks.now, clocks.before).Some? ==>
                Accepted(ctx, codec, current + [record])
      ensures record.sequence == expected + 1
    {
      if Sealed(ctx, codec, current, record, false, clocks.now, clocks.before).Some? {
        assert Prepare(ctx, codec, clocks.replay, current, event, expected, clocks.now, clocks.now) == Some(record);
        PreparedExtends(ctx, codec, clocks.replay, current, event, expected, clocks.now, clocks.now);
      }
    }
  }
}
