/** The checkpoint store: idempotency by id, parent compare-and-swap, and branches
    with independent heads
    (crates/group-agent-core/src/checkpoint_store.rs:94-349). */
module CheckpointStore {
  import opened Base
  import opened Records

  type BranchId = nat
  type History = seq<CheckpointRecord>

  datatype BranchHead = BranchHead(branch: BranchId, thread: ThreadId, source: CheckpointId, head: CheckpointId)

  datatype BranchRelation = SourceRecord | MemberRecord | HeadRecord | BranchMetadata

  /** What a durable adapter can find wrong with its tables. The in-memory store
      reports none of these. */
  datatype StorageFault =
    | ConstraintViolated
    | UnreadableColumns(id: CheckpointId)
    | InvalidRecord(fault: RecordError)
    | MissingBranchRecord(relation: BranchRelation, branch: BranchId, id: CheckpointId)
    | MissingBranchMetadata(branch: BranchId)
    | BranchOwnership(relation: BranchRelation, branch: BranchId, id: CheckpointId, expected: ThreadId,
                      actual: ThreadId)
    | BranchHeadMismatch(branch: BranchId, expectedHead: CheckpointId, actualHead: CheckpointId)
    | BranchHeadNotMember(branch: BranchId, id: CheckpointId)
    | DuplicateBranchRecord(branch: BranchId, id: CheckpointId)
    | BranchParentMismatch(branch: BranchId, id: CheckpointId, expectedParent: CheckpointId,
                           actualParent: Option<CheckpointId>)

  datatype WriteError =
    | IdempotencyConflict(id: CheckpointId)
    | Conflict(expectedParent: Option<CheckpointId>, actualParent: Option<CheckpointId>)
    | BranchAlreadyExists(branch: BranchId)
    | BranchNotFound(branch: BranchId)
    | BranchSourceNotFound(branch: BranchId, id: CheckpointId)
    | WriteFailed(fault: StorageFault)

  datatype Branch = Branch(thread: ThreadId, history: History)

  datatype Store = Store(
    histories: map<ThreadId, History>,
    byId: map<CheckpointId, CheckpointRecord>,
    recordBranches: map<CheckpointId, BranchId>,
    branches: map<BranchId, Branch>)

  const EMPTY_STORE := Store(map[], map[], map[], map[])

  datatype Saved = Saved(store: Store, reply: Result<CheckpointRecord, WriteError>)
  datatype Forked = Forked(store: Store, reply: Result<BranchHead, WriteError>)

  function ThreadHistory(s: Store, thread: ThreadId): History {
    if thread in s.histories then s.histories[thread] else []
  }

  function Newest(h: History): Option<CheckpointRecord> { if h == [] then None else Some(h[|h| - 1]) }

  function NewestId(h: History): Option<CheckpointId> { if h == [] then None else Some(h[|h| - 1].id) }

  // ---- operations ----

  /** Idempotency, then parent compare-and-swap on the thread head, then insertion. */
  function Insert(s: Store, record: CheckpointRecord): Saved {
    var history := ThreadHistory(s, record.threadId);
    if record.id in s.byId then
      Saved(s, if s.byId[record.id] == record then Ok(s.byId[record.id]) else Err(IdempotencyConflict(record.id)))
    else if NewestId(history) != record.parentId then
      Saved(s, Err(Conflict(record.parentId, NewestId(history))))
    else
      Saved(s.(histories := s.histories[record.threadId := history + [record]],
               byId := s.byId[record.id := record]), Ok(record))
  }

  /** The same against one branch head; a repeat must name the same branch. */
  function InsertBranch(s: Store, branch: BranchId, record: CheckpointRecord): Saved {
    if record.id in s.byId then
      Saved(s,
        if s.byId[record.id] == record && record.id in s.recordBranches && s.recordBranches[record.id] == branch
        then Ok(s.byId[record.id]) else Err(IdempotencyConflict(record.id)))
    else if branch !in s.branches || s.branches[branch].thread != record.threadId then
      Saved(s, Err(BranchNotFound(branch)))
    else
      var history := s.branches[branch].history;
      if NewestId(history) != record.parentId then
        Saved(s, Err(Conflict(record.parentId, NewestId(history))))
      else
        Saved(s.(branches := s.branches[branch := Branch(record.threadId, history + [record])],
                 recordBranches := s.recordBranches[record.id := branch],
                 byId := s.byId[record.id := record]), Ok(record))
  }

  function OpenBranch(s: Store, thread: ThreadId, branch: BranchId, source: CheckpointId): Forked {
    if branch in s.branches then Forked(s, Err(BranchAlreadyExists(branch)))
    else if source !in s.byId || s.byId[source].threadId != thread then
      Forked(s, Err(BranchSourceNotFound(branch, source)))
    else
      Forked(s.(branches := s.branches[branch := Branch(thread, [s.byId[source]])]),
             Ok(BranchHead(branch, thread, source, source)))
  }

  function Latest(s: Store, thread: ThreadId): Option<CheckpointRecord> { Newest(ThreadHistory(s, thread)) }

  function Get(s: Store, thread: ThreadId, id: CheckpointId): Option<CheckpointRecord> {
    if id in s.byId && s.byId[id].threadId == thread then Some(s.byId[id]) else None
  }

  function BranchHistory(s: Store, thread: ThreadId, branch: BranchId): History {
    if branch in s.branches && s.branches[branch].thread == thread then s.branches[branch].history else []
  }

  // ---- operation sequences ----

  datatype Op =
    | SaveOp(record: CheckpointRecord)
    | SaveBranchOp(branch: BranchId, record: CheckpointRecord)
    | CreateBranchOp(thread: ThreadId, branch: BranchId, source: CheckpointId)
    | LatestOp(thread: ThreadId)
    | GetOp(thread: ThreadId, id: CheckpointId)
    | HistoryOp(thread: ThreadId)
    | BranchHeadOp(thread: ThreadId, branch: BranchId)
    | BranchHistoryOp(thread: ThreadId, branch: BranchId)

  datatype Reply =
    | Wrote(written: Result<CheckpointRecord, WriteError>)
    | Branched(created: Result<BranchHead, WriteError>)
    | Found(found: Result<Option<CheckpointRecord>, StorageFault>)
    | Listed(listed: Result<History, StorageFault>)

  datatype Answer = Answer(store: Store, reply: Reply)

  function Step(s: Store, op: Op): Answer {
    match op
    case SaveOp(record) => (var r := Insert(s, record); Answer(r.store, Wrote(r.reply)))
    case SaveBranchOp(branch, record) => (var r := InsertBranch(s, branch, record); Answer(r.store, Wrote(r.reply)))
    case CreateBranchOp(thread, branch, source) =>
      (var r := OpenBranch(s, thread, branch, source); Answer(r.store, Branched(r.reply)))
    case LatestOp(thread) => Answer(s, Found(Ok(Latest(s, thread))))
    case GetOp(thread, id) => Answer(s, Found(Ok(Get(s, thread, id))))
    case HistoryOp(thread) => Answer(s, Listed(Ok(ThreadHistory(s, thread))))
    case BranchHeadOp(thread, branch) => Answer(s, Found(Ok(Newest(BranchHistory(s, thread, branch)))))
    case BranchHistoryOp(thread, branch) => Answer(s, Listed(Ok(BranchHistory(s, thread, branch))))
  }

  function After(s: Store, ops: seq<Op>): Store {
    if ops == [] then s else Step(After(s, ops[..|ops| - 1]), ops[|ops| - 1]).store
  }

  // ---- the store invariant ----

  /** Every record continues the one before it. */
  ghost predicate Chain(h: History) {
    forall i :: 0 < i < |h| ==> h[i].parentId == Some(h[i - 1].id)
  }

  ghost predicate DistinctIds(h: History) {
    forall i, j :: 0 <= i < j < |h| ==> h[i].id != h[j].id
  }

  ghost predicate OneThread(h: History, thread: ThreadId) {
    forall i :: 0 <= i < |h| ==> h[i].threadId == thread
  }

  ghost predicate Known(s: Store, h: History) {
    forall i :: 0 <= i < |h| ==> h[i].id in s.byId && s.byId[h[i].id] == h[i]
  }

  /** A same-thread parent chain without repetitions. */
  ghost predicate Line(s: Store, thread: ThreadId, h: History) {
    h != [] && Chain(h) && DistinctIds(h) && OneThread(h, thread) && Known(s, h)
  }

  /** A thread's history: a line from a record without parent, none of it on a branch. */
  ghost predicate ThreadOk(s: Store, thread: ThreadId) {
    var h := ThreadHistory(s, thread);
    h != [] ==> Line(s, thread, h) && h[0].parentId.None? && forall i :: 0 <= i < |h| ==> h[i].id !in s.recordBranches
  }

  /** A branch's history: its source, then a line of records of its own. */
  ghost predicate BranchOk(s: Store, branch: BranchId)
    requires branch in s.branches
  {
    var h := s.branches[branch].history;
    && Line(s, s.branches[branch].thread, h)
    && forall i :: 0 < i < |h| ==> h[i].id in s.recordBranches && s.recordBranches[h[i].id] == branch
  }

  /** Every stored record sits in exactly the line it was written to. */
  ghost predicate Placed(s: Store, id: CheckpointId)
    requires id in s.byId
  {
    var record := s.byId[id];
    && record.id == id
    && (id in s.recordBranches ==>
          && s.recordBranches[id] in s.branches && s.branches[s.recordBranches[id]].history != []
          && record in s.branches[s.recordBranches[id]].history[1..])
    && (id !in s.recordBranches ==> record in ThreadHistory(s, record.threadId))
  }

  /** Following parents reaches a record without one in at most n steps. */
  ghost predicate Grounded(byId: map<CheckpointId, CheckpointRecord>, id: CheckpointId, n: nat)
    decreases n
  {
    n > 0 && id in byId && (byId[id].parentId.None? || Grounded(byId, byId[id].parentId.value, n - 1))
  }

  ghost predicate ReachesRoot(byId: map<CheckpointId, CheckpointRecord>, id: CheckpointId) {
    exists n: nat :: Grounded(byId, id, n)
  }

  ghost predicate StoreOk(s: Store) {
    && (forall thread :: ThreadOk(s, thread))
    && (forall branch :: branch in s.branches ==> s.branches[branch].history != [] && BranchOk(s, branch))
    && (forall id :: id in s.recordBranches ==> id in s.byId)
    && (forall id :: id in s.byId ==> Placed(s, id))
    && (forall id :: id in s.byId ==> ReachesRoot(s.byId, id))
  }

  // ---- growth ----

  /** s' keeps everything s has and only appends to its histories. */
  ghost predicate Extends(s: Store, s': Store) {
    && (forall thread :: ThreadHistory(s, thread) <= ThreadHistory(s', thread))
    && (forall id :: id in s.byId ==> id in s'.byId && s'.byId[id] == s.byId[id])
    && (forall id :: id in s.byId ==> (id in s.recordBranches <==> id in s'.recordBranches))
    && (forall id :: id in s.recordBranches ==>
          id in s'.recordBranches && s'.recordBranches[id] == s.recordBranches[id])
    && (forall branch :: branch in s.branches ==>
          && branch in s'.branches
          && s'.branches[branch].thread == s.branches[branch].thread
          && s.branches[branch].history <= s'.branches[branch].history)
  }

  lemma {:induction false} GroundedPersists(a: map<CheckpointId, CheckpointRecord>,
                                            b: map<CheckpointId, CheckpointRecord>, id: CheckpointId, n: nat)
    requires Grounded(a, id, n)
    requires forall k :: k in a ==> k in b && b[k] == a[k]
    ensures Grounded(b, id, n)
    decreases n
  {
    if a[id].parentId.Some? { GroundedPersists(a, b, a[id].parentId.value, n - 1); }
  }

  lemma RootsPersist(a: map<CheckpointId, CheckpointRecord>, record: CheckpointRecord)
    requires record.id !in a
    requires forall id :: id in a ==> ReachesRoot(a, id)
    requires record.parentId.Some? ==> record.parentId.value in a
    ensures forall id :: id in a || id == record.id ==> ReachesRoot(a[record.id := record], id)
  {
    var b := a[record.id := record];
    forall id | id in a ensures ReachesRoot(b, id) {
      var n: nat :| Grounded(a, id, n);
      GroundedPersists(a, b, id, n);
    }
    assert ReachesRoot(b, record.id) by {
      if record.parentId.None? {
        assert Grounded(b, record.id, 1);
      } else {
        assert ReachesRoot(b, record.parentId.value);
        var n: nat :| Grounded(b, record.parentId.value, n);
        assert Grounded(b, record.id, n + 1);
      }
    }
  }

  lemma LineGrows(s: Store, s': Store, thread: ThreadId, h: History, record: CheckpointRecord)
    requires Line(s, thread, h) && record.id !in s.byId
    requires record.threadId == thread && record.parentId == NewestId(h)
    requires s'.byId == s.byId[record.id := record]
    ensures Line(s', thread, h) && Line(s', thread, h + [record])
  {
  }

  /** A write of a new record that expects the head it finds. */
  ghost predicate Fits(s: Store, h: History, record: CheckpointRecord) {
    record.id !in s.byId && record.id !in s.recordBranches && NewestId(h) == record.parentId
  }

  lemma InsertKeepsThread(s: Store, record: CheckpointRecord, thread: ThreadId)
    requires Fits(s, ThreadHistory(s, record.threadId), record) && ThreadOk(s, thread)
    ensures ThreadOk(Insert(s, record).store, thread)
  {
    var h := ThreadHistory(s, thread);
    if thread == record.threadId && h != [] { LineGrows(s, Insert(s, record).store, thread, h, record); }
  }

  lemma InsertKeepsBranch(s: Store, record: CheckpointRecord, branch: BranchId)
    requires Fits(s, ThreadHistory(s, record.threadId), record) && branch in s.branches && BranchOk(s, branch)
    ensures branch in Insert(s, record).store.branches && BranchOk(Insert(s, record).store, branch)
  {
  }

  lemma InsertPlaces(s: Store, record: CheckpointRecord, id: CheckpointId)
    requires Fits(s, ThreadHistory(s, record.threadId), record) && (id in s.byId ==> Placed(s, id))
    requires id in s.byId || id == record.id
    ensures id in Insert(s, record).store.byId && Placed(Insert(s, record).store, id)
  {
    assert Newest(ThreadHistory(s, record.threadId) + [record]) == Some(record);
  }

  lemma InsertKeepsStore(s: Store, record: CheckpointRecord)
    requires StoreOk(s)
    ensures StoreOk(Insert(s, record).store)
    ensures Extends(s, Insert(s, record).store)
  {
    hide ThreadOk, BranchOk, Placed, ReachesRoot;
    var s' := Insert(s, record).store;
    var history := ThreadHistory(s, record.threadId);
    assert Fits(s, history, record) || s' == s;
    if Fits(s, history, record) {
      HeadIsKnown(s, record.threadId);
      RootsPersist(s.byId, record);
      forall t ensures ThreadOk(s', t) { InsertKeepsThread(s, record, t); }
      forall branch | branch in s'.branches ensures BranchOk(s', branch) { InsertKeepsBranch(s, record, branch); }
      forall id | id in s'.byId ensures Placed(s', id) { InsertPlaces(s, record, id); }
    }
  }

  lemma HeadIsKnown(s: Store, thread: ThreadId)
    requires ThreadOk(s, thread)
    ensures NewestId(ThreadHistory(s, thread)).Some? ==> NewestId(ThreadHistory(s, thread)).value in s.byId
  {
  }

  lemma BranchSaveKeepsThread(s: Store, branch: BranchId, record: CheckpointRecord, thread: ThreadId)
    requires branch in s.branches && Fits(s, s.branches[branch].history, record) && ThreadOk(s, thread)
    ensures ThreadOk(InsertBranch(s, branch, record).store, thread)
  {
  }

  lemma BranchSaveKeepsBranch(s: Store, branch: BranchId, record: CheckpointRecord, other: BranchId)
    requires branch in s.branches && other in s.branches && s.branches[branch].thread == record.threadId
    requires Fits(s, s.branches[branch].history, record) && BranchOk(s, other)
    ensures var s' := InsertBranch(s, branch, record).store;
            other in s'.branches && s'.branches[other].history != [] && BranchOk(s', other)
  {
    if other == branch {
      LineGrows(s, InsertBranch(s, branch, record).store, record.threadId, s.branches[branch].history, record);
    }
  }

  lemma BranchSavePlaces(s: Store, branch: BranchId, record: CheckpointRecord, id: CheckpointId)
    requires branch in s.branches && s.branches[branch].thread == record.threadId && s.branches[branch].history != []
    requires Fits(s, s.branches[branch].history, record) && (id in s.byId ==> Placed(s, id))
    requires id in s.byId || id == record.id
    ensures var s' := InsertBranch(s, branch, record).store; id in s'.byId && Placed(s', id)
  {
    var history := s.branches[branch].history;
    assert (history + [record])[1..] == history[1..] + [record];
  }

  lemma InsertBranchKeepsStore(s: Store, branch: BranchId, record: CheckpointRecord)
    requires StoreOk(s)
    ensures StoreOk(InsertBranch(s, branch, record).store)
    ensures Extends(s, InsertBranch(s, branch, record).store)
  {
    hide ThreadOk, BranchOk, Placed, ReachesRoot, InsertBranch, Fits, Extends;
    var s' := InsertBranch(s, branch, record).store;
    BranchWrites(s, branch, record);
    if s' != s {
      BranchHeadIsKnown(s, branch);
      RootsPersist(s.byId, record);
      forall t ensures ThreadOk(s', t) { BranchSaveKeepsThread(s, branch, record, t); }
      forall b | b in s'.branches ensures s'.branches[b].history != [] && BranchOk(s', b) {
        BranchSaveKeepsBranch(s, branch, record, b);
      }
      forall id | id in s'.byId ensures Placed(s', id) { BranchSavePlaces(s, branch, record, id); }
    }
  }

  /** A branch save writes nothing, or one record that fits the branch head. */
  lemma BranchWrites(s: Store, branch: BranchId, record: CheckpointRecord)
    requires forall id :: id in s.recordBranches ==> id in s.byId
    ensures Extends(s, InsertBranch(s, branch, record).store)
    ensures var s' := InsertBranch(s, branch, record).store;
            s' != s ==>
              && branch in s.branches && s.branches[branch].thread == record.threadId
              && Fits(s, s.branches[branch].history, record)
              && record.id !in s.byId && record.parentId == NewestId(s.branches[branch].history)
              && s'.byId == s.byId[record.id := record] && s'.branches.Keys == s.branches.Keys
              && s'.recordBranches.Keys == s.recordBranches.Keys + {record.id}
  {
  }

  lemma BranchHeadIsKnown(s: Store, branch: BranchId)
    requires branch in s.branches && BranchOk(s, branch)
    ensures NewestId(s.branches[branch].history).Some?
    ensures NewestId(s.branches[branch].history).value in s.byId
  {
  }

  lemma OpeningKeeps(s: Store, thread: ThreadId, branch: BranchId, source: CheckpointId, other: ThreadId,
                     id: CheckpointId)
    requires branch !in s.branches && source in s.byId && s.byId[source].threadId == thread
    requires s.byId[source].id == source
    requires ThreadOk(s, other) && (id in s.byId ==> Placed(s, id))
    ensures var s' := OpenBranch(s, thread, branch, source).store;
            && ThreadOk(s', other) && BranchOk(s', branch) && s'.byId == s.byId && (id in s.byId ==> Placed(s', id))
  {
  }

  lemma OpeningKeepsBranch(s: Store, thread: ThreadId, branch: BranchId, source: CheckpointId, other: BranchId)
    requires branch !in s.branches && source in s.byId && other in s.branches && BranchOk(s, other)
    ensures var s' := OpenBranch(s, thread, branch, source).store; other in s'.branches && BranchOk(s', other)
  {
  }

  lemma OpenBranchKeepsStore(s: Store, thread: ThreadId, branch: BranchId, source: CheckpointId)
    requires StoreOk(s)
    ensures StoreOk(OpenBranch(s, thread, branch, source).store)
    ensures Extends(s, OpenBranch(s, thread, branch, source).store)
  {
    hide ThreadOk, BranchOk, Placed, ReachesRoot;
    var s' := OpenBranch(s, thread, branch, source).store;
    if s' != s {
      IdOfPlaced(s, source);
      forall t ensures ThreadOk(s', t) { OpeningKeeps(s, thread, branch, source, t, source); }
      OpeningKeeps(s, thread, branch, source, thread, source);
      forall b | b in s'.branches ensures s'.branches[b].history != [] && BranchOk(s', b) {
        if b != branch { OpeningKeepsBranch(s, thread, branch, source, b); }
      }
      forall id | id in s'.byId ensures Placed(s', id) { OpeningKeeps(s, thread, branch, source, thread, id); }
    }
  }

  lemma IdOfPlaced(s: Store, id: CheckpointId)
    requires id in s.byId && Placed(s, id)
    ensures s.byId[id].id == id
  {
  }

  lemma StepKeepsStore(s: Store, op: Op)
    requires StoreOk(s)
    ensures StoreOk(Step(s, op).store) && Extends(s, Step(s, op).store)
  {
    hide StoreOk, Insert, InsertBranch, OpenBranch;
    match op
    case SaveOp(record) => InsertKeepsStore(s, record);
    case SaveBranchOp(branch, record) => InsertBranchKeepsStore(s, branch, record);
    case CreateBranchOp(thread, branch, source) => OpenBranchKeepsStore(s, thread, branch, source);
    case _ =>
  }

  lemma ExtendsIsTransitive(a: Store, b: Store, c: Store)
    requires Extends(a, b) && Extends(b, c)
    ensures Extends(a, c)
  {
  }

  /** Whatever is done to a store in whatever order: every thread history stays a
      parent chain from a root, every branch history its source and then a chain,
      following parents terminates, and nothing stored is ever changed or lost. */
  lemma {:induction false} StoreInvariant(s: Store, ops: seq<Op>)
    requires StoreOk(s)
    ensures StoreOk(After(s, ops)) && Extends(s, After(s, ops))
  {
    hide StoreOk, Extends, Step;
    if ops == [] {
      assert Extends(s, s) by { ExtendsIsReflexive(s); }
    } else {
      var before := After(s, ops[..|ops| - 1]);
      StoreInvariant(s, ops[..|ops| - 1]);
      StepKeepsStore(before, ops[|ops| - 1]);
      ExtendsIsTransitive(s, before, Step(before, ops[|ops| - 1]).store);
    }
  }

  lemma ExtendsIsReflexive(s: Store)
    ensures Extends(s, s)
  {
  }

  lemma EmptyStoreIsOk()
    ensures StoreOk(EMPTY_STORE)
  {
  }

  // ---- isolation ----

  /** A write moves at most the one head it names. */
  lemma WritesAreIsolated(s: Store, op: Op, thread: ThreadId, branch: BranchId)
    ensures !(op.SaveOp? && op.record.threadId == thread) ==>
              ThreadHistory(Step(s, op).store, thread) == ThreadHistory(s, thread)
    ensures branch in s.branches && !(op.SaveBranchOp? && op.branch == branch) ==>
              branch in Step(s, op).store.branches && Step(s, op).store.branches[branch] == s.branches[branch]
  {
  }

  /** A write that was acknowledged once is acknowledged again, unchanged, however
      far the head has moved since. */
  lemma RepeatedSaveReturnsOriginal(s: Store, record: CheckpointRecord, later: seq<Op>)
    requires StoreOk(s) && Insert(s, record).reply.Ok?
    ensures var now := After(Insert(s, record).store, later);
            Insert(now, record) == Saved(now, Ok(record))
  {
    InsertKeepsStore(s, record);
    StoreInvariant(Insert(s, record).store, later);
  }

  lemma RepeatedBranchSaveReturnsOriginal(s: Store, branch: BranchId, record: CheckpointRecord, later: seq<Op>)
    requires StoreOk(s) && InsertBranch(s, branch, record).reply.Ok?
    ensures var now := After(InsertBranch(s, branch, record).store, later);
            InsertBranch(now, branch, record) == Saved(now, Ok(record))
  {
    InsertBranchKeepsStore(s, branch, record);
    StoreInvariant(InsertBranch(s, branch, record).store, later);
  }

  /** Two writers that expect the same parent on one thread head cannot both win,
      however their writes and anyone else's interleave. */
  lemma RivalsOnOneThread(s: Store, first: CheckpointRecord, between: seq<Op>, second: CheckpointRecord)
    requires StoreOk(s)
    requires first.id !in s.byId && Insert(s, first).reply.Ok?
    requires first.id != second.id && first.threadId == second.threadId && first.parentId == second.parentId
    ensures var later := After(Insert(s, first).store, between);
            second.id !in later.byId ==>
              Insert(later, second).reply
              == Err(Conflict(second.parentId, NewestId(ThreadHistory(later, second.threadId))))
  {
    hide Placed, ReachesRoot, BranchOk, Step;
    var thread := first.threadId;
    var mid := Insert(s, first).store;
    InsertKeepsStore(s, first);
    StoreInvariant(mid, between);
    var later := After(mid, between);
    var h := ThreadHistory(later, thread);
    assert ThreadOk(mid, thread) && ThreadOk(later, thread);
    assert first == Newest(ThreadHistory(mid, thread)).value;
    var i := |ThreadHistory(mid, thread)| - 1;
    assert h[i] == first;
    if NewestId(h) == second.parentId {
      assert false;
    }
  }

  lemma RivalsOnOneBranch(s: Store, branch: BranchId, first: CheckpointRecord, between: seq<Op>,
                          second: CheckpointRecord)
    requires StoreOk(s)
    requires first.id !in s.byId && InsertBranch(s, branch, first).reply.Ok?
    requires first.id != second.id && first.threadId == second.threadId && first.parentId == second.parentId
    ensures var later := After(InsertBranch(s, branch, first).store, between);
            && branch in later.branches
            && (second.id !in later.byId ==>
                  InsertBranch(later, branch, second).reply
                  == Err(Conflict(second.parentId, NewestId(later.branches[branch].history))))
  {
    hide Placed, ReachesRoot, ThreadOk, Step;
    var mid := InsertBranch(s, branch, first).store;
    InsertBranchKeepsStore(s, branch, first);
    StoreInvariant(mid, between);
    var later := After(mid, between);
    assert BranchOk(s, branch) && BranchOk(mid, branch) && BranchOk(later, branch);
    var h := later.branches[branch].history;
    var i := |mid.branches[branch].history| - 1;
    assert h[i] == first && i > 0;
    assert h[i - 1] == mid.branches[branch].history[i - 1];
    if NewestId(h) == second.parentId {
      assert false;
    }
  }

  // ---- what a reply says ----

  /** The record sits in a history of the store. */
  ghost predicate Holds(s: Store, record: CheckpointRecord) {
    || record in ThreadHistory(s, record.threadId)
    || exists branch :: OnBranch(s, branch, record)
  }

  /** The record was written to this branch. */
  ghost predicate OnBranch(s: Store, branch: BranchId, record: CheckpointRecord) {
    branch in s.branches && |s.branches[branch].history| > 0 && record in s.branches[branch].history[1..]
  }

  ghost predicate Unused(s: Store, id: CheckpointId) { forall record :: Holds(s, record) ==> record.id != id }

  /** Another record holds the identifier. */
  ghost predicate HeldByAnother(s: Store, record: CheckpointRecord, other: CheckpointRecord) {
    Holds(s, other) && other.id == record.id && other != record
  }

  lemma HeldIsKnown(s: Store, record: CheckpointRecord)
    requires StoreOk(s)
    ensures Holds(s, record) <==> record.id in s.byId && s.byId[record.id] == record
    ensures forall branch :: OnBranch(s, branch, record) <==>
              && record.id in s.byId && s.byId[record.id] == record
              && record.id in s.recordBranches && s.recordBranches[record.id] == branch
  {
    assert ThreadOk(s, record.threadId);
    if record.id in s.byId { assert Placed(s, record.id); }
    forall branch | branch in s.branches ensures BranchOk(s, branch) {}
    if record.id in s.byId && s.byId[record.id] == record && record.id in s.recordBranches {
      assert OnBranch(s, s.recordBranches[record.id], record);
    }
  }

  lemma HeldById(s: Store, id: CheckpointId)
    requires StoreOk(s)
    ensures Unused(s, id) <==> id !in s.byId
    ensures id in s.byId ==> s.byId[id].id == id && Holds(s, s.byId[id])
  {
    hide StoreOk, Holds;
    forall record ensures Holds(s, record) ==> record.id in s.byId { HeldIsKnown(s, record); }
    if id in s.byId {
      assert s.byId[id].id == id by { PlacedOf(s, id); }
      HeldIsKnown(s, s.byId[id]);
    }
  }

  lemma PlacedOf(s: Store, id: CheckpointId)
    requires StoreOk(s) && id in s.byId
    ensures s.byId[id].id == id
  {
    assert Placed(s, id);
  }

  /** A save of a thread is acknowledged for what is stored already and for a new
      record that continues the newest one, and refused otherwise. */
  ghost predicate SaveSays(s: Store, record: CheckpointRecord, reply: Result<CheckpointRecord, WriteError>) {
    var newest := NewestId(ThreadHistory(s, record.threadId));
    match reply
    case Ok(saved) =>
      saved == record && (Holds(s, record) || (Unused(s, record.id) && record.parentId == newest))
    case Err(IdempotencyConflict(id)) => id == record.id && exists other :: HeldByAnother(s, record, other)
    case Err(Conflict(expected, actual)) =>
      Unused(s, record.id) && expected == record.parentId && actual == newest && expected != actual
    case Err(_) => false
  }

  lemma SaveMeans(s: Store, record: CheckpointRecord)
    requires StoreOk(s)
    ensures SaveSays(s, record, Insert(s, record).reply)
    ensures Insert(s, record).store != s ==> Unused(s, record.id) && Insert(s, record).reply.Ok?
    ensures Unused(s, record.id) && Insert(s, record).reply.Ok? ==>
              ThreadHistory(Insert(s, record).store, record.threadId) == ThreadHistory(s, record.threadId) + [record]
  {
    hide StoreOk, Holds, Unused;
    HeldIsKnown(s, record);
    HeldById(s, record.id);
    if record.id in s.byId && s.byId[record.id] != record { assert HeldByAnother(s, record, s.byId[record.id]); }
  }

  /** The same for a branch; a repeat must name the branch it was written to. */
  ghost predicate BranchSaveSays(s: Store, branch: BranchId, record: CheckpointRecord,
                                 reply: Result<CheckpointRecord, WriteError>)
  {
    var open := branch in s.branches && s.branches[branch].thread == record.threadId;
    match reply
    case Ok(saved) =>
      && saved == record
      && (|| OnBranch(s, branch, record)
          || (Unused(s, record.id) && open && record.parentId == NewestId(s.branches[branch].history)))
    case Err(IdempotencyConflict(id)) =>
      && id == record.id
      && ((exists other :: HeldByAnother(s, record, other)) || (Holds(s, record) && !OnBranch(s, branch, record)))
    case Err(BranchNotFound(b)) => b == branch && Unused(s, record.id) && !open
    case Err(Conflict(expected, actual)) =>
      && Unused(s, record.id) && open
      && expected == record.parentId && actual == NewestId(s.branches[branch].history) && expected != actual
    case Err(_) => false
  }

  lemma BranchSaveMeans(s: Store, branch: BranchId, record: CheckpointRecord)
    requires StoreOk(s)
    ensures BranchSaveSays(s, branch, record, InsertBranch(s, branch, record).reply)
    ensures InsertBranch(s, branch, record).store != s ==>
              Unused(s, record.id) && InsertBranch(s, branch, record).reply.Ok?
    ensures var after := InsertBranch(s, branch, record);
            Unused(s, record.id) && after.reply.Ok? ==>
              && branch in s.branches && branch in after.store.branches
              && after.store.branches[branch].history == s.branches[branch].history + [record]
  {
    hide StoreOk, Holds, Unused, OnBranch;
    HeldIsKnown(s, record);
    HeldById(s, record.id);
    if record.id in s.byId && s.byId[record.id] != record { assert HeldByAnother(s, record, s.byId[record.id]); }
  }

  /** A branch opens at any stored record of its thread, once. */
  ghost predicate OpeningSays(s: Store, thread: ThreadId, branch: BranchId, source: CheckpointId,
                              reply: Result<BranchHead, WriteError>)
  {
    var there := exists record :: Holds(s, record) && record.id == source && record.threadId == thread;
    match reply
    case Ok(head) =>
      && branch !in s.branches && there
      && head.branch == branch && head.thread == thread && head.source == source && head.head == source
    case Err(BranchAlreadyExists(b)) => b == branch && branch in s.branches
    case Err(BranchSourceNotFound(b, id)) => b == branch && id == source && branch !in s.branches && !there
    case Err(_) => false
  }

  lemma OpeningMeans(s: Store, thread: ThreadId, branch: BranchId, source: CheckpointId)
    requires StoreOk(s)
    ensures OpeningSays(s, thread, branch, source, OpenBranch(s, thread, branch, source).reply)
    ensures var after := OpenBranch(s, thread, branch, source);
            after.reply.Ok? ==>
              && branch in after.store.branches && |after.store.branches[branch].history| == 1
              && after.store.branches[branch].thread == thread
              && after.store.branches[branch].history[0].id == source
              && Holds(s, after.store.branches[branch].history[0])
  {
    hide StoreOk, Holds;
    HeldById(s, source);
    forall record ensures Holds(s, record) ==> record.id in s.byId && s.byId[record.id] == record {
      HeldIsKnown(s, record);
    }
  }

  /** Reads find what is there: a record by its thread and identifier, wherever it
      was written; the last record of a thread; a branch under its own thread. */
  lemma ReadsMean(s: Store, thread: ThreadId, id: CheckpointId, branch: BranchId)
    requires StoreOk(s)
    ensures forall record :: Get(s, thread, id) == Some(record) <==>
              Holds(s, record) && record.id == id && record.threadId == thread
    ensures forall record :: Latest(s, thread) == Some(record) <==>
              && thread in s.histories && |s.histories[thread]| > 0
              && record == s.histories[thread][|s.histories[thread]| - 1]
    ensures BranchHistory(s, thread, branch) != [] <==> branch in s.branches && s.branches[branch].thread == thread
    ensures branch in s.branches && s.branches[branch].thread == thread ==>
              BranchHistory(s, thread, branch) == s.branches[branch].history
  {
    hide StoreOk, Holds;
    HeldById(s, id);
    BranchesStart(s);
    forall record ensures Holds(s, record) <==> record.id in s.byId && s.byId[record.id] == record {
      HeldIsKnown(s, record);
    }
  }

  lemma BranchesStart(s: Store)
    requires StoreOk(s)
    ensures forall branch :: branch in s.branches ==> s.branches[branch].history != []
  {
  }

  // ---- rebuilding ----

  /** Saving a list of records in order, stopping at the first refusal. */
  function InsertAll(s: Store, records: History): Result<Store, WriteError> {
    if records == [] then Ok(s)
    else
      match InsertAll(s, records[..|records| - 1])
      case Err(error) => Err(error)
      case Ok(built) =>
        var saved := Insert(built, records[|records| - 1]);
        if saved.reply.Ok? then Ok(saved.store) else Err(saved.reply.error)
  }

  lemma {:induction false} InsertAllStops(s: Store, records: History, n: nat)
    requires n <= |records| && InsertAll(s, records[..n]).Err?
    ensures InsertAll(s, records) == InsertAll(s, records[..n])
    decreases |records|
  {
    if n < |records| {
      assert records[..|records| - 1][..n] == records[..n];
      InsertAllStops(s, records[..|records| - 1], n);
    } else {
      assert records[..n] == records;
    }
  }

  /** Importing any thread history of any reachable store into an empty store
      succeeds and gives that history back, oldest first. */
  lemma {:induction false} HistoryRebuilds(s: Store, thread: ThreadId, n: nat)
    requires StoreOk(s) && n <= |ThreadHistory(s, thread)|
    ensures var built := InsertAll(EMPTY_STORE, ThreadHistory(s, thread)[..n]);
            && built.Ok? && ThreadHistory(built.value, thread) == ThreadHistory(s, thread)[..n]
            && (forall id :: id in built.value.byId ==> exists i :: 0 <= i < n && ThreadHistory(s, thread)[i].id == id)
    decreases n
  {
    hide StoreOk;
    var h := ThreadHistory(s, thread);
    assert ThreadOk(s, thread) by { ThreadOkOf(s, thread); }
    if n > 0 {
      HistoryRebuilds(s, thread, n - 1);
      assert h[..n][..n - 1] == h[..n - 1];
      var built := InsertAll(EMPTY_STORE, h[..n - 1]).value;
      assert h[n - 1].id !in built.byId;
      assert NewestId(h[..n - 1]) == h[n - 1].parentId;
      assert h[..n] == h[..n - 1] + [h[n - 1]];
    }
  }

  lemma ThreadOkOf(s: Store, thread: ThreadId)
    requires StoreOk(s)
    ensures ThreadOk(s, thread)
  {
  }

  // ---- the locked maps ----

  class InMemoryCheckpointStore {
    var histories: map<ThreadId, History>
    var byId: map<CheckpointId, CheckpointRecord>
    var recordBranches: map<CheckpointId, BranchId>
    var branches: map<BranchId, Branch>

    function State(): Store
      reads this
    {
      Store(histories, byId, recordBranches, branches)
    }

    constructor ()
      ensures State() == EMPTY_STORE && StoreOk(State())
    {
      histories, byId, recordBranches, branches := map[], map[], map[], map[];
      new;
      EmptyStoreIsOk();
    }

    method Save(record: CheckpointRecord) returns (reply: Result<CheckpointRecord, WriteError>)
      requires StoreOk(State())
      modifies this
      ensures Saved(State(), reply) == Insert(old(State()), record)
      ensures SaveSays(old(State()), record, reply)
      ensures StoreOk(State()) && Extends(old(State()), State())
    {
      hide StoreOk, Extends, SaveSays;
      InsertKeepsStore(State(), record);
      SaveMeans(State(), record);
      if record.id in byId {
        if byId[record.id] == record { return Ok(byId[record.id]); }
        return Err(IdempotencyConflict(record.id));
      }
      var history := if record.threadId in histories then histories[record.threadId] else [];
      var actualParent := if history == [] then None else Some(history[|history| - 1].id);
      if actualParent != record.parentId { return Err(Conflict(record.parentId, actualParent)); }
      histories := histories[record.threadId := history + [record]];
      byId := byId[record.id := record];
      reply := Ok(record);
    }

    method SaveBranch(branch: BranchId, record: CheckpointRecord)
      returns (reply: Result<CheckpointRecord, WriteError>)
      requires StoreOk(State())
      modifies this
      ensures Saved(State(), reply) == InsertBranch(old(State()), branch, record)
      ensures BranchSaveSays(old(State()), branch, record, reply)
      ensures StoreOk(State()) && Extends(old(State()), State())
    {
      hide StoreOk, Extends, BranchSaveSays;
      InsertBranchKeepsStore(State(), branch, record);
      BranchSaveMeans(State(), branch, record);
      if record.id in byId {
        if byId[record.id] == record && record.id in recordBranches && recordBranches[record.id] == branch {
          return Ok(byId[record.id]);
        }
        return Err(IdempotencyConflict(record.id));
      }
      if branch !in branches { return Err(BranchNotFound(branch)); }
      if branches[branch].thread != record.threadId { return Err(BranchNotFound(branch)); }
      var history := branches[branch].history;
      var actualParent := if history == [] then None else Some(history[|history| - 1].id);
      if actualParent != record.parentId { return Err(Conflict(record.parentId, actualParent)); }
      branches := branches[branch := Branch(branches[branch].thread, history + [record])];
      recordBranches := recordBranches[record.id := branch];
      byId := byId[record.id := record];
      reply := Ok(record);
    }

    method CreateBranch(thread: ThreadId, branch: BranchId, source: CheckpointId)
      returns (reply: Result<BranchHead, WriteError>)
      requires StoreOk(State())
      modifies this
      ensures Forked(State(), reply) == OpenBranch(old(State()), thread, branch, source)
      ensures OpeningSays(old(State()), thread, branch, source, reply)
      ensures StoreOk(State()) && Extends(old(State()), State())
    {
      hide StoreOk, Extends, OpeningSays;
      OpenBranchKeepsStore(State(), thread, branch, source);
      OpeningMeans(State(), thread, branch, source);
      if branch in branches { return Err(BranchAlreadyExists(branch)); }
      if source !in byId || byId[source].threadId != thread { return Err(BranchSourceNotFound(branch, source)); }
      branches := branches[branch := Branch(thread, [byId[source]])];
      reply := Ok(BranchHead(branch, thread, source, source));
    }
  }

  /** Rebuilds a store from records ordered oldest to newest. */
  method TryFromRecords(records: History) returns (store: InMemoryCheckpointStore, fault: Option<WriteError>)
    ensures fault.None? ==> InsertAll(EMPTY_STORE, records) == Ok(store.State()) && StoreOk(store.State())
    ensures fault.Some? ==> InsertAll(EMPTY_STORE, records) == Err(fault.value)
    ensures fresh(store)
  {
    hide StoreOk, Insert;
    store := new InMemoryCheckpointStore();
    for i := 0 to |records|
      invariant InsertAll(EMPTY_STORE, records[..i]) == Ok(store.State()) && StoreOk(store.State())
      invariant fresh(store)
    {
      assert records[..i + 1][..i] == records[..i];
      var reply := store.Save(records[i]);
      if reply.Err? {
        InsertAllStops(EMPTY_STORE, records, i + 1);
        return store, Some(reply.error);
      }
    }
    assert records[..|records|] == records;
    fault := None;
  }
}
