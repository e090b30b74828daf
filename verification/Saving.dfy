/** Writing a run's committed boundaries into the store
    (crates/group-agent-core/src/runtime.rs:1843-2113). */
module Saving {
  import opened Base
  import opened Domain
  import opened Paths
  import opened Compiled
  import opened Runtime
  import opened Runs
  import opened Records
  import opened CheckpointStore

  datatype Policy = EverySuperstep | FinalOnly

  /** Where a run saves: nowhere, or the head of a thread or of one branch. */
  datatype Destination = Destination(mode: CheckpointMode, policy: Policy, thread: ThreadId, branch: Option<BranchId>,
                                     run: RunId)

  /** The head a run of this destination continues. */
  function HeadOfDestination(s: Store, dest: Destination): Option<CheckpointId> {
    NewestId(if dest.branch.Some? then BranchHistory(s, dest.thread, dest.branch.value)
             else ThreadHistory(s, dest.thread))
  }

  predicate ShouldSave(dest: Destination, completed: bool) {
    dest.mode.Enabled? && (dest.policy.EverySuperstep? || completed)
  }

  datatype Suspension = Suspension(id: InterruptId, node: NodePath, payload: Payload)

  datatype SaveError = EncodeFailed(cause: Cause) | NotSaved(error: WriteError)

  function EncodeSuspension(codec: Codec, suspension: Option<Suspension>): Result<Option<RecordInterrupt>, Cause> {
    if suspension.None? then Ok(None)
    else
      match codec.encodePayload(suspension.value.payload)
      case Err(cause) => Err(cause)
      case Ok(payload) => Ok(Some(RecordInterrupt(suspension.value.id, suspension.value.node, payload)))
  }

  function BoundaryToRecord(g: CompiledGraph, codec: Codec, lineage: Lineage, p: Position,
                            suspension: Option<Suspension>): Result<CheckpointRecord, Cause>
    requires RealNodes(g, p.frontier)
  {
    match EncodeState(codec, p.state)
    case Err(cause) => Err(cause)
    case Ok(snapshot) =>
      match EncodeSuspension(codec, suspension)
      case Err(cause) => Err(cause)
      case Ok(interrupt) => Ok(BoundaryRecord(g, lineage, p, snapshot, interrupt))
  }

  function Write(s: Store, branch: Option<BranchId>, record: CheckpointRecord): Saved {
    if branch.Some? then InsertBranch(s, branch.value, record) else Insert(s, record)
  }

  ghost predicate Grows(a: map<CheckpointId, CheckpointRecord>, b: map<CheckpointId, CheckpointRecord>) {
    forall id :: id in a ==> id in b && b[id] == a[id]
  }

  /** A write adds at most the record written. */
  lemma WriteAdds(s: Store, branch: Option<BranchId>, record: CheckpointRecord)
    requires StoreOk(s)
    ensures var saved := Write(s, branch, record);
            && StoreOk(saved.store) && Grows(s.byId, saved.store.byId)
            && (forall id :: id in saved.store.byId && id !in s.byId ==>
                  id == record.id && saved.store.byId[id] == record)
            && (saved.reply.Ok? ==> saved.reply.value == record && record.id in saved.store.byId
                                    && saved.store.byId[record.id] == record)
  {
    hide StoreOk;
    if branch.Some? { InsertBranchKeepsStore(s, branch.value, record); } else { InsertKeepsStore(s, record); }
  }

  datatype SaveAttempt = SaveAttempt(store: Store, reply: Result<CheckpointId, SaveError>)

  /** One save of a boundary that expects `parent` at the head. */
  function SaveBoundary(g: CompiledGraph, codec: Codec, dest: Destination, s: Store, parent: Option<CheckpointId>,
                        id: CheckpointId, p: Position, suspension: Option<Suspension>): SaveAttempt
    requires RealNodes(g, p.frontier)
  {
    match BoundaryToRecord(g, codec, Lineage(id, dest.thread, dest.run, parent), p, suspension)
    case Err(cause) => SaveAttempt(s, Err(EncodeFailed(cause)))
    case Ok(record) =>
      var saved := Write(s, dest.branch, record);
      SaveAttempt(saved.store,
        match saved.reply
        case Ok(stored) => Ok(stored.id)
        case Err(error) => Err(NotSaved(error)))
  }

  // ---- what is written ----

  /** The interrupt of a record is the suspended node, its id and its payload. */
  ghost predicate InterruptSays(codec: Codec, interrupt: Option<RecordInterrupt>, suspension: Option<Suspension>) {
    && (suspension.None? <==> interrupt.None?)
    && (suspension.Some? ==>
          && interrupt.value.id == suspension.value.id && interrupt.value.nodePath == suspension.value.node
          && codec.encodePayload(suspension.value.payload) == Ok(interrupt.value.payload))
  }

  /** The record is that of this boundary, written by this run under this id after
      this parent. */
  ghost predicate RecordSays(g: CompiledGraph, codec: Codec, dest: Destination, parent: Option<CheckpointId>,
                             id: CheckpointId, p: Position, suspension: Option<Suspension>, record: CheckpointRecord)
  {
    && InGraph(g, p.frontier)
    && record.id == id && record.threadId == dest.thread && record.runId == dest.run && record.parentId == parent
    && record.formatVersion == 1 && record.graphVersion == g.version
    && record.superstep == p.superstep && record.step == p.steps
    && (record.completed <==> p.frontier == [])
    && |record.nextFrontier| == |p.frontier|
    && (forall k :: 0 <= k < |p.frontier| ==> record.nextFrontier[k] == PathAt(g, p.frontier[k]))
    && codec.snapshot(p.state).Ok? && codec.encode(codec.snapshot(p.state).value) == Ok(record.snapshot)
    && InterruptSays(codec, record.interrupt, suspension)
  }

  lemma BuiltRecordSays(g: CompiledGraph, codec: Codec, dest: Destination, parent: Option<CheckpointId>,
                        id: CheckpointId, p: Position, suspension: Option<Suspension>)
    requires RealNodes(g, p.frontier)
    ensures var built := BoundaryToRecord(g, codec, Lineage(id, dest.thread, dest.run, parent), p, suspension);
            built.Ok? ==> RecordSays(g, codec, dest, parent, id, p, suspension, built.value)
  {
  }

  /** An acknowledged save has stored this boundary's record, under the id it was
      given, and kept every other record. */
  lemma SaveStores(g: CompiledGraph, codec: Codec, dest: Destination, s: Store, parent: Option<CheckpointId>,
                   id: CheckpointId, p: Position, suspension: Option<Suspension>)
    requires RealNodes(g, p.frontier) && StoreOk(s)
    ensures var attempt := SaveBoundary(g, codec, dest, s, parent, id, p, suspension);
            && StoreOk(attempt.store) && Grows(s.byId, attempt.store.byId)
            && (attempt.reply.Ok? ==>
                  && attempt.reply.value == id && id in attempt.store.byId
                  && RecordSays(g, codec, dest, parent, id, p, suspension, attempt.store.byId[id]))
  {
    hide StoreOk, Write, RecordSays;
    BuiltRecordSays(g, codec, dest, parent, id, p, suspension);
    var lineage := Lineage(id, dest.thread, dest.run, parent);
    var built := BoundaryToRecord(g, codec, lineage, p, suspension);
    if built.Ok? {
      BuiltUnderId(g, codec, lineage, p, suspension);
      WriteAdds(s, dest.branch, built.value);
    }
  }

  lemma BuiltUnderId(g: CompiledGraph, codec: Codec, lineage: Lineage, p: Position, suspension: Option<Suspension>)
    requires RealNodes(g, p.frontier)
    ensures var built := BoundaryToRecord(g, codec, lineage, p, suspension);
            built.Ok? ==> built.value.id == lineage.id
  {
  }

  // ---- the boundaries of one run ----

  datatype Progress = Progress(store: Store, parent: Option<CheckpointId>, saves: nat)

  datatype SaveRun = SaveRun(progress: Progress, failure: Option<SaveError>)

  function SaveNext(g: CompiledGraph, codec: Codec, dest: Destination, ids: nat -> CheckpointId, from: Progress,
                    p: Position): SaveRun
    requires RealNodes(g, p.frontier)
  {
    if !ShouldSave(dest, p.frontier == []) then SaveRun(from, None)
    else
      var attempt := SaveBoundary(g, codec, dest, from.store, from.parent, ids(from.saves), p, None);
      match attempt.reply
      case Ok(id) => SaveRun(Progress(attempt.store, Some(id), from.saves + 1), None)
      case Err(error) => SaveRun(Progress(attempt.store, from.parent, from.saves), Some(error))
  }

  /** Saves what the policy asks for, each expecting the one before it at the
      head, up to the first refusal. */
  function SaveAll(g: CompiledGraph, codec: Codec, dest: Destination, ids: nat -> CheckpointId, from: Progress,
                   positions: seq<Position>): SaveRun
    requires AllReal(g, positions)
  {
    if positions == [] then SaveRun(from, None)
    else
      var before := SaveAll(g, codec, dest, ids, from, positions[..|positions| - 1]);
      if before.failure.Some? then before
      else SaveNext(g, codec, dest, ids, before.progress, positions[|positions| - 1])
  }

  /** A run that may not write leaves the store alone, whatever it commits. */
  lemma {:induction false} ReadOnlyRunsWriteNothing(g: CompiledGraph, codec: Codec, dest: Destination,
                                                    ids: nat -> CheckpointId, from: Progress, positions: seq<Position>)
    requires AllReal(g, positions) && !dest.mode.Enabled?
    ensures SaveAll(g, codec, dest, ids, from, positions) == SaveRun(from, None)
  {
    if positions != [] { ReadOnlyRunsWriteNothing(g, codec, dest, ids, from, positions[..|positions| - 1]); }
  }

  /** The policy to save every super-step does: if no save is refused, each boundary
      has its record, under the next id, after the one before. */
  ghost predicate AllStored(g: CompiledGraph, codec: Codec, dest: Destination, ids: nat -> CheckpointId, from: Progress,
                            positions: seq<Position>, byId: map<CheckpointId, CheckpointRecord>)
  {
    forall k :: 0 <= k < |positions| ==> StoredAt(g, codec, dest, ids, from, positions, byId, k)
  }

  ghost predicate StoredAt(g: CompiledGraph, codec: Codec, dest: Destination, ids: nat -> CheckpointId, from: Progress,
                           positions: seq<Position>, byId: map<CheckpointId, CheckpointRecord>, k: nat)
    requires k < |positions|
  {
    var id, parent := ids(from.saves + k), if k == 0 then from.parent else Some(ids(from.saves + k - 1));
    id in byId && RecordSays(g, codec, dest, parent, id, positions[k], None, byId[id])
  }

  lemma {:induction false} EverySuperstepIsStored(g: CompiledGraph, codec: Codec, dest: Destination,
                                                  ids: nat -> CheckpointId, from: Progress, positions: seq<Position>)
    requires AllReal(g, positions) && StoreOk(from.store) && dest.mode == Enabled && dest.policy == EverySuperstep
    ensures var run := SaveAll(g, codec, dest, ids, from, positions);
            && StoreOk(run.progress.store)
            && (run.failure.None? ==>
                  && run.progress.saves == from.saves + |positions|
                  && run.progress.parent
                     == (if positions == [] then from.parent else Some(ids(from.saves + |positions| - 1)))
                  && AllStored(g, codec, dest, ids, from, positions, run.progress.store.byId))
  {
    hide StoreOk, RecordSays, SaveBoundary, RealNodes;
    if positions != [] {
      var n := |positions| - 1;
      var before := SaveAll(g, codec, dest, ids, from, positions[..n]);
      EverySuperstepIsStored(g, codec, dest, ids, from, positions[..n]);
      if before.failure.None? {
        var at := before.progress;
        SaveStores(g, codec, dest, at.store, at.parent, ids(at.saves), positions[n], None);
        var run := SaveAll(g, codec, dest, ids, from, positions);
        if run.failure.None? {
          forall k | 0 <= k < n ensures StoredAt(g, codec, dest, ids, from, positions, run.progress.store.byId, k) {
            assert StoredAt(g, codec, dest, ids, from, positions[..n], at.store.byId, k);
          }
        }
      }
    }
  }

  /** Saving only the end writes nothing before it, and then that one record. */
  lemma {:induction false} FinalOnlyStoresTheEnd(g: CompiledGraph, codec: Codec, dest: Destination,
                                                 ids: nat -> CheckpointId, from: Progress, positions: seq<Position>)
    requires AllReal(g, positions) && StoreOk(from.store) && dest.mode == Enabled && dest.policy == FinalOnly
    requires forall k :: 0 <= k < |positions| - 1 ==> positions[k].frontier != []
    ensures var run := SaveAll(g, codec, dest, ids, from, positions);
            if positions == [] || positions[|positions| - 1].frontier != [] then run == SaveRun(from, None)
            else
              run.failure.None? ==>
                && run.progress.saves == from.saves + 1 && run.progress.parent == Some(ids(from.saves))
                && ids(from.saves) in run.progress.store.byId
                && RecordSays(g, codec, dest, from.parent, ids(from.saves), positions[|positions| - 1], None,
                              run.progress.store.byId[ids(from.saves)])
  {
    hide StoreOk, RecordSays, SaveBoundary, RealNodes;
    if positions != [] {
      var n := |positions| - 1;
      FinalOnlyStoresTheEnd(g, codec, dest, ids, from, positions[..n]);
      SaveStores(g, codec, dest, from.store, from.parent, ids(from.saves), positions[n], None);
    }
  }

  lemma {:induction false} SavesKeepStore(g: CompiledGraph, codec: Codec, dest: Destination,
                                          ids: nat -> CheckpointId, from: Progress, positions: seq<Position>)
    requires AllReal(g, positions) && StoreOk(from.store)
    ensures StoreOk(SaveAll(g, codec, dest, ids, from, positions).progress.store)
  {
    hide StoreOk, SaveBoundary, RealNodes;
    if positions != [] {
      var n := |positions| - 1;
      SavesKeepStore(g, codec, dest, ids, from, positions[..n]);
      var at := SaveAll(g, codec, dest, ids, from, positions[..n]).progress;
      SaveStores(g, codec, dest, at.store, at.parent, ids(at.saves), positions[n], None);
    }
  }

  /** The store holds the record of this boundary, under this id. */
  ghost predicate Keeps(g: CompiledGraph, codec: Codec, dest: Destination, s: Store, id: CheckpointId, p: Position) {
    id in s.byId && exists parent :: RecordSays(g, codec, dest, parent, id, p, None, s.byId[id])
  }

  /** Under either policy a run that has nothing left to run has stored that, and
      expects that record at the head. */
  lemma EndIsStored(g: CompiledGraph, codec: Codec, dest: Destination, ids: nat -> CheckpointId, from: Progress,
                    positions: seq<Position>)
    requires AllReal(g, positions) && StoreOk(from.store) && dest.mode == Enabled
    requires positions != [] && positions[|positions| - 1].frontier == []
    ensures var run := SaveAll(g, codec, dest, ids, from, positions);
            run.failure.None? ==>
              && run.progress.parent.Some?
              && Keeps(g, codec, dest, run.progress.store, run.progress.parent.value, positions[|positions| - 1])
  {
    hide StoreOk, SaveBoundary, RealNodes, RecordSays;
    var n := |positions| - 1;
    SavesKeepStore(g, codec, dest, ids, from, positions[..n]);
    var at := SaveAll(g, codec, dest, ids, from, positions[..n]).progress;
    SaveStores(g, codec, dest, at.store, at.parent, ids(at.saves), positions[n], None);
  }

  /** The checkpoint side of one run: the head it expects moves with each save. */
  class RunCheckpoints {
    const dest: Destination
    const store: InMemoryCheckpointStore
    var expectedParent: Option<CheckpointId>

    constructor (dest: Destination, store: InMemoryCheckpointStore, expectedParent: Option<CheckpointId>)
      ensures this.dest == dest && this.store == store && this.expectedParent == expectedParent
    {
      this.dest, this.store, this.expectedParent := dest, store, expectedParent;
    }

    method Save(g: CompiledGraph, codec: Codec, id: CheckpointId, p: Position, suspension: Option<Suspension>)
      returns (reply: Result<CheckpointId, SaveError>)
      requires RealNodes(g, p.frontier) && StoreOk(store.State())
      modifies this, store
      ensures StoreOk(store.State())
      ensures SaveAttempt(store.State(), reply)
              == SaveBoundary(g, codec, dest, old(store.State()), old(expectedParent), id, p, suspension)
      ensures expectedParent == if reply.Ok? then Some(reply.value) else old(expectedParent)
      ensures reply.Ok? ==>
                && reply.value == id && id in store.State().byId
                && RecordSays(g, codec, dest, old(expectedParent), id, p, suspension, store.State().byId[id])
    {
      hide StoreOk, BoundaryRecord, Insert, InsertBranch, RecordSays;
      SaveStores(g, codec, dest, store.State(), expectedParent, id, p, suspension);
      var snapshot := EncodeState(codec, p.state);
      if snapshot.Err? { return Err(EncodeFailed(snapshot.error)); }
      var interrupt := EncodeSuspension(codec, suspension);
      if interrupt.Err? { return Err(EncodeFailed(interrupt.error)); }
      var lineage := Lineage(id, dest.thread, dest.run, expectedParent);
      var record := BoundaryRecord(g, lineage, p, snapshot.value, interrupt.value);
      var stored;
      if dest.branch.Some? {
        stored := store.SaveBranch(dest.branch.value, record);
      } else {
        stored := store.Save(record);
      }
      if stored.Err? { return Err(NotSaved(stored.error)); }
      expectedParent := Some(stored.value.id);
      reply := Ok(stored.value.id);
    }
  }
}
