/** The typed checkpointer over the record store, and its weak cache of decoded
    checkpoints (crates/group-agent-core/src/checkpoint.rs:1331-1560). */
module DecodedCache {
  import opened Base
  import opened Records
  import opened Checkpoints
  import opened CheckpointStore

  // ---- the cache ----

  /** The identity of one shared checkpoint object. */
  type Handle = nat

  datatype Entry = Entry(record: CheckpointRecord, handle: Handle)

  datatype ReadFault = Conflicting(id: CheckpointId) | NotReconstructed(id: CheckpointId, fault: DecodeFault)

  function Max(a: nat, b: nat): nat { if a < b then b else a }

  const CLEANUP_FLOOR: nat := 64

  class DecodedCheckpoints {
    const codec: Codec
    var entries: map<CheckpointId, Entry>
    var insertionsUntilCleanup: nat

    /** The process: which objects callers still hold, and what each contains. */
    var live: set<Handle>
    var values: map<Handle, Checkpoint>

    ghost var handedOut: set<Handle>
    ghost var survivors: nat
    ghost var insertions: nat
    ghost var scanned: nat

    ghost predicate EntryOk(id: CheckpointId)
      requires id in entries
      reads this`entries, this`values
    {
      && entries[id].record.id == id
      && entries[id].handle in values
      && FromRecord(codec, entries[id].record) == Ok(values[entries[id].handle])
    }

    ghost predicate EntriesOk()
      reads this`entries, this`values
    {
      forall id :: id in entries ==> EntryOk(id)
    }

    /** A live object that was handed out is still the cached one. */
    ghost predicate HandlesOk()
      reads this`entries, this`values, this`handedOut, this`live
    {
      && handedOut <= values.Keys
      && (forall h :: h in handedOut && h in live ==> values[h].id in entries && entries[values[h].id].handle == h)
    }

    ghost predicate BudgetOk()
      reads this`entries, this`insertionsUntilCleanup, this`survivors, this`insertions, this`scanned
    {
      && 1 <= insertionsUntilCleanup <= Max(survivors, CLEANUP_FLOOR)
      && |entries| + insertionsUntilCleanup <= survivors + Max(survivors, CLEANUP_FLOOR) + 1
      && scanned + 2 * (Max(survivors, CLEANUP_FLOOR) - insertionsUntilCleanup) <= 2 * insertions
    }

    ghost predicate Valid()
      reads this
    {
      EntriesOk() && HandlesOk() && BudgetOk()
    }

    /** Entries stay within twice the survivors of the last cleanup (or 64 more),
        and all cleanups together scan at most two entries per insertion. */
    lemma StaysSmall()
      requires Valid()
      ensures |entries| <= 2 * survivors || |entries| <= survivors + 64
      ensures scanned <= 2 * insertions
    {
    }

    /** Two live objects handed out for one id are the same object. */
    lemma OneLiveObject(a: Handle, b: Handle)
      requires Valid() && {a, b} <= handedOut && {a, b} <= live && values[a].id == values[b].id
      ensures a == b
    {
      assert a in handedOut && b in handedOut && a in live && b in live;
    }

    constructor (codec: Codec)
      ensures Valid() && this.codec == codec && entries == map[]
    {
      this.codec := codec;
      entries, insertionsUntilCleanup := map[], CLEANUP_FLOOR;
      live, values := {}, map[];
      handedOut, survivors, insertions, scanned := {}, 0, 0, 0;
    }

    /** A caller drops the last strong reference to an object, at any time. */
    method Release(h: Handle)
      requires Valid()
      modifies this`live
      ensures Valid() && live == old(live) - {h}
    {
      live := live - {h};
    }

    /** `Arc::new`: an object nobody has seen. */
    method Allocate(c: Checkpoint) returns (h: Handle)
      requires Valid()
      modifies this`live, this`values
      ensures Valid() && h !in old(values) && values == old(values)[h := c] && live == old(live) + {h}
    {
      h := FreshHandle();
      live := live + {h};
      values := values[h := c];
      assert h !in handedOut;
      forall id | id in entries ensures EntryOk(id) {
        assert old(EntryOk(id));
      }
    }

    method FreshHandle() returns (h: Handle)
      ensures h !in values
    {
      h := 0;
      var below := values.Keys;
      while below != {}
        invariant below <= values.Keys
        invariant forall k :: k in values && k !in below ==> k < h
      {
        var k :| k in below;
        below := below - {k};
        if h <= k { h := k + 1; }
      }
    }

    /** Counts down to the next scan, and at zero drops every entry whose object
        is gone and sets a budget for the next one. */
    method RemoveExpired()
      requires Valid()
      modifies this`entries, this`insertionsUntilCleanup, this`survivors, this`insertions, this`scanned
      ensures entries == if old(insertionsUntilCleanup) == 1 then old(LiveEntries()) else old(entries)
      ensures insertionsUntilCleanup == if old(insertionsUntilCleanup) == 1 then Max(|entries|, CLEANUP_FLOOR)
                                        else old(insertionsUntilCleanup) - 1
      ensures forall id :: id in entries ==> id in old(entries) && entries[id] == old(entries[id])
      ensures forall id :: id in old(entries) && id !in entries ==>
                old(insertionsUntilCleanup) == 1 && old(entries[id]).handle !in live
      ensures old(insertionsUntilCleanup) == 1 ==> forall id :: id in entries ==> entries[id].handle in live
      ensures |entries| + insertionsUntilCleanup <= survivors + Max(survivors, CLEANUP_FLOOR)
      ensures Valid() && insertions == old(insertions) + 1
    {
      hide FromRecord, LiveEntries, EntryOk, EntriesOk, HandlesOk;
      LiveEntriesAre();
      insertionsUntilCleanup := insertionsUntilCleanup - 1;
      insertions := insertions + 1;
      if insertionsUntilCleanup > 0 { return; }
      scanned := scanned + |entries|;
      Retain();
      survivors := |entries|;
      insertionsUntilCleanup := Max(|entries|, CLEANUP_FLOOR);
    }

    /** Keeps the entries whose object is still held. */
    method Retain()
      requires EntriesOk() && HandlesOk()
      modifies this`entries
      ensures entries == old(LiveEntries()) && EntriesOk() && HandlesOk()
    {
      hide FromRecord;
      entries := LiveEntries();
      forall id | id in entries ensures EntryOk(id) { assert old(EntryOk(id)); }
    }

    lemma LiveEntriesAre()
      ensures forall id :: id in LiveEntries() <==> id in entries && entries[id].handle in live
      ensures forall id :: id in LiveEntries() ==> LiveEntries()[id] == entries[id]
    {
    }

    function LiveEntries(): map<CheckpointId, Entry>
      reads this`entries, this`live
    {
      map id | id in entries && entries[id].handle in live :: entries[id]
    }

    /** The live object cached for this very record. */
    method Cached(record: CheckpointRecord) returns (r: Result<Option<Handle>, ReadFault>)
      requires Valid()
      modifies this`handedOut
      ensures Valid() && old(handedOut) <= handedOut
      ensures record.id in entries && entries[record.id].record != record <==> r == Err(Conflicting(record.id))
      ensures r.Err? ==> r == Err(Conflicting(record.id))
      ensures r.Ok? ==>
                r.value == if record.id in entries && entries[record.id].handle in live
                           then Some(entries[record.id].handle) else None
      ensures r.Ok? && r.value.Some? ==>
                && r.value.value in live * handedOut && r.value.value in values
                && FromRecord(codec, record) == Ok(values[r.value.value])
    {
      if record.id !in entries { return Ok(None); }
      var entry := entries[record.id];
      if entry.record != record { return Err(Conflicting(record.id)); }
      assert EntryOk(record.id);
      if entry.handle !in live { return Ok(None); }
      HandOut(record.id);
      r := Ok(Some(entry.handle));
    }

    /** Publishes a newly decoded object unless a live one is already there. */
    method Cache(record: CheckpointRecord, h: Handle) returns (r: Result<Handle, ReadFault>)
      requires Valid() && h in live && h in values && FromRecord(codec, record) == Ok(values[h])
      modifies this`entries, this`insertionsUntilCleanup, this`survivors, this`insertions, this`scanned, this`handedOut
      ensures Valid() && insertions == old(insertions) + 1 && old(handedOut) <= handedOut
      ensures r.Ok? ==>
                r.value in live * handedOut && r.value in values && FromRecord(codec, record) == Ok(values[r.value])
      ensures r.Ok? && record.id in old(entries) && old(entries[record.id]).handle in live ==>
                r.value == old(entries[record.id]).handle
      ensures r.Err? ==>
                && r == Err(Conflicting(record.id))
                && record.id in old(entries) && old(entries[record.id]).record != record
      ensures forall id :: id in entries ==>
                (id in old(entries) && entries[id].record == old(entries[id]).record)
                || (id == record.id && entries[id].record == record)
    {
      hide FromRecord, EntriesOk, HandlesOk, BudgetOk;
      FromRecordId(codec, record);
      RemoveExpired();
      StaysOwn(record.id);
      if record.id !in entries {
        Publish(record, h);
        return Ok(h);
      }
      var entry := entries[record.id];
      assert EntryOk(record.id);
      if entry.record != record { return Err(Conflicting(record.id)); }
      if entry.handle in live {
        HandOut(record.id);
        return Ok(entry.handle);
      }
      Publish(record, h);
      r := Ok(h);
    }

    lemma StaysOwn(id: CheckpointId)
      requires EntriesOk()
      ensures id in entries ==> EntryOk(id)
    {
    }

    /** The cached object goes to one more caller. */
    method HandOut(id: CheckpointId)
      requires Valid() && id in entries && EntryOk(id)
      modifies this`handedOut
      ensures Valid() && handedOut == old(handedOut) + {entries[id].handle}
    {
      hide BudgetOk, EntriesOk;
      FromRecordId(codec, entries[id].record);
      handedOut := handedOut + {entries[id].handle};
    }

    method Publish(record: CheckpointRecord, h: Handle)
      requires Valid() && h in live && h in values && FromRecord(codec, record) == Ok(values[h])
      requires record.id in entries ==> entries[record.id].handle !in live
      requires |entries| + insertionsUntilCleanup <= survivors + Max(survivors, CLEANUP_FLOOR)
      modifies this`entries, this`handedOut
      ensures Valid() && entries == old(entries)[record.id := Entry(record, h)] && handedOut == old(handedOut) + {h}
    {
      FromRecordId(codec, record);
      entries := entries[record.id := Entry(record, h)];
      handedOut := handedOut + {h};
      GrowsByOne(old(entries), record.id, Entry(record, h));
      forall id | id in entries ensures EntryOk(id) {
        if id != record.id { assert old(EntryOk(id)); }
      }
    }
  }

  lemma GrowsByOne(m: map<CheckpointId, Entry>, id: CheckpointId, e: Entry)
    ensures |m[id := e]| <= |m| + 1
  {
    var n := m[id := e];
    assert n.Keys == m.Keys + {id};
    assert |n| == |n.Keys| && |m| == |m.Keys|;
  }

  // ---- the typed checkpointer ----

  class RecordCheckpointer {
    const store: InMemoryCheckpointStore
    const cache: DecodedCheckpoints

    /** Every cached record is the stored one. */
    ghost predicate Agrees()
      reads this, store, cache
    {
      && cache.Valid() && StoreOk(store.State())
      && forall id :: id in cache.entries ==>
           id in store.State().byId && store.State().byId[id] == cache.entries[id].record
    }

    ghost predicate Stored(record: CheckpointRecord)
      reads this, store
    {
      record.id in store.State().byId && store.State().byId[record.id] == record
    }

    constructor (store: InMemoryCheckpointStore, codec: Codec)
      requires StoreOk(store.State())
      ensures this.store == store && Agrees() && fresh(cache)
    {
      this.store := store;
      cache := new DecodedCheckpoints(codec);
    }

    /** Every read of a stored record answers with a live object that equals the
        record decoded afresh, or with that decoding's own failure; the cache
        never reports a conflict. */
    method Decode(record: CheckpointRecord) returns (r: Result<Handle, ReadFault>)
      requires Agrees() && Stored(record)
      modifies cache
      ensures Agrees() && old(cache.handedOut) <= cache.handedOut
      ensures forall h :: h in old(cache.live) ==> h in cache.live
      ensures forall h :: h in old(cache.values) ==> h in cache.values && cache.values[h] == old(cache.values[h])
      ensures r.Ok? ==> r.value in cache.live * cache.handedOut && r.value in cache.values
      ensures match FromRecord(cache.codec, record)
              case Ok(c) => r.Ok? && cache.values[r.value] == c
              case Err(fault) => r == Err(NotReconstructed(record.id, fault))
      ensures record.id in old(cache.entries) && old(cache.entries[record.id]).handle in old(cache.live) ==>
                r == Ok(old(cache.entries[record.id]).handle)
    {
      hide StoreOk, FromRecord, DecodedCheckpoints.Valid;
      var cached := cache.Cached(record);
      assert cached.Ok?;
      if cached.value.Some? { return Ok(cached.value.value); }
      var decoded := FromRecord(cache.codec, record);
      if decoded.Err? { return Err(NotReconstructed(record.id, decoded.error)); }
      var h := cache.Allocate(decoded.value);
      r := cache.Cache(record, h);
    }

    ghost predicate Decodes(h: Handle, record: CheckpointRecord)
      reads this, cache
    {
      h in cache.live && h in cache.values && FromRecord(cache.codec, record) == Ok(cache.values[h])
    }

    /** A thread's decoded history, or the first record that does not decode. */
    method History(thread: ThreadId) returns (r: Result<seq<Handle>, ReadFault>)
      requires Agrees()
      modifies cache
      ensures Agrees()
      ensures var records := ThreadHistory(store.State(), thread);
              r.Ok? ==> |r.value| == |records| && forall k :: 0 <= k < |records| ==> Decodes(r.value[k], records[k])
      ensures var records := ThreadHistory(store.State(), thread);
              r.Err? ==> exists k :: 0 <= k < |records| && FromRecord(cache.codec, records[k]).Err?
                                     && r.error
                                        == NotReconstructed(records[k].id, FromRecord(cache.codec, records[k]).error)
    {
      hide StoreOk, FromRecord, DecodedCheckpoints.Valid;
      var records := ThreadHistory(store.State(), thread);
      HistoryIsStored(store.State(), thread);
      var handles := [];
      for i := 0 to |records|
        invariant Agrees() && |handles| == i
        invariant forall k :: 0 <= k < i ==> Decodes(handles[k], records[k])
      {
        var decoded := Decode(records[i]);
        if decoded.Err? { return Err(decoded.error); }
        handles := handles + [decoded.value];
      }
      r := Ok(handles);
    }

    /** Saves a typed checkpoint. An acknowledged save hands out an object equal
        to what was submitted and to the stored record decoded afresh. */
    method Save(c: Checkpoint) returns (r: Result<Handle, SaveFault>)
      requires Agrees() && SnapshotsRoundTrip(cache.codec) && PayloadsRoundTrip(cache.codec)
      modifies store, cache
      ensures Agrees()
      ensures match ToRecord(cache.codec, c)
              case Err(fault) => r == Err(NotEncoded(fault)) && store.State() == old(store.State())
              case Ok(record) =>
                && store.State() == Insert(old(store.State()), record).store
                && (match Insert(old(store.State()), record).reply
                    case Err(error) => r == Err(NotWritten(error))
                    case Ok(_) => r.Ok? && r.value in cache.live * cache.handedOut && r.value in cache.values
                                  && cache.values[r.value] == c && FromRecord(cache.codec, record) == Ok(c))
    {
      hide StoreOk, FromRecord, ToRecord, SnapshotsRoundTrip, PayloadsRoundTrip, Insert, Extends;
      var encoded := ToRecord(cache.codec, c);
      if encoded.Err? { return Err(NotEncoded(encoded.error)); }
      var record := encoded.value;
      RecordRoundTrip(cache.codec, c);
      var stored := store.Save(record);
      assert Agrees() by { CacheStillAgrees(old(store.State()), store.State(), cache.entries); }
      if stored.Err? { return Err(NotWritten(stored.error)); }
      StoredIsSubmitted(old(store.State()), record);
      var h := Share(record, c);
      r := Ok(h);
    }

    /** Hands out the live object of a record just written, or its own. */
    method Share(record: CheckpointRecord, c: Checkpoint) returns (h: Handle)
      requires Agrees() && Stored(record) && FromRecord(cache.codec, record) == Ok(c)
      modifies cache
      ensures Agrees()
      ensures h in cache.live * cache.handedOut && h in cache.values && cache.values[h] == c
    {
      hide StoreOk, FromRecord, DecodedCheckpoints.Valid;
      var cached := cache.Cached(record);
      assert cached.Ok?;
      if cached.value.Some? { return cached.value.value; }
      var own := cache.Allocate(c);
      var published := cache.Cache(record, own);
      assert published.Ok?;
      h := published.value;
    }
  }

  datatype SaveFault = NotEncoded(fault: EncodeFault) | NotWritten(error: WriteError)

  lemma CacheStillAgrees(s: Store, s': Store, entries: map<CheckpointId, Entry>)
    requires Extends(s, s')
    requires forall id :: id in entries ==> id in s.byId && s.byId[id] == entries[id].record
    ensures forall id :: id in entries ==> id in s'.byId && s'.byId[id] == entries[id].record
  {
  }

  lemma HistoryIsStored(s: Store, thread: ThreadId)
    requires StoreOk(s)
    ensures Known(s, ThreadHistory(s, thread))
  {
    assert ThreadOk(s, thread);
  }

  lemma StoredIsSubmitted(s: Store, record: CheckpointRecord)
    requires Insert(s, record).reply.Ok?
    ensures Insert(s, record).reply == Ok(record)
    ensures record.id in Insert(s, record).store.byId && Insert(s, record).store.byId[record.id] == record
  {
  }
}
