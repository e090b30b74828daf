/** The SQLite adapter as transactions over its four tables
    (crates/group-agent-checkpoint-sqlite/src/lib.rs:233-557, 699-880;
    crates/group-agent-checkpoint-sqlite/migrations/). */
module Sqlite {
  import opened Base
  import opened Records
  import opened CheckpointStore

  // ---- tables ----

  /** One row of the records table: columns that decode to the parts of a record,
      or columns that do not decode. */
  datatype Row = Readable(parts: CheckpointRecord) | Unreadable(id: CheckpointId, thread: ThreadId)

  function RowId(row: Row): CheckpointId { if row.Readable? then row.parts.id else row.id }

  function RowThread(row: Row): ThreadId { if row.Readable? then row.parts.threadId else row.thread }

  datatype BranchRow = BranchRow(thread: ThreadId, source: CheckpointId, head: CheckpointId)

  datatype Membership = Membership(id: CheckpointId, thread: ThreadId, branch: BranchId)

  /** `records` is in `sequence` order. */
  datatype Tables = Tables(
    records: seq<Row>,
    heads: map<ThreadId, CheckpointId>,
    branches: map<BranchId, BranchRow>,
    members: seq<Membership>)

  const EMPTY_TABLES := Tables([], map[], map[], [])

  // ---- queries ----

  function RowOf(records: seq<Row>, id: CheckpointId): Option<Row> {
    if records == [] then None
    else if RowId(records[|records| - 1]) == id then Some(records[|records| - 1])
    else RowOf(records[..|records| - 1], id)
  }

  function DecodeRow(row: Row): Result<CheckpointRecord, StorageFault> {
    match row
    case Unreadable(id, _) => Err(UnreadableColumns(id))
    case Readable(parts) =>
      match TryFromParts(parts)
      case Ok(record) => Ok(record)
      case Err(fault) => Err(InvalidRecord(fault))
  }

  function Fetch(t: Tables, id: CheckpointId): Result<Option<CheckpointRecord>, StorageFault> {
    match RowOf(t.records, id)
    case None => Ok(None)
    case Some(row) =>
      match DecodeRow(row)
      case Ok(record) => Ok(Some(record))
      case Err(fault) => Err(fault)
  }

  function HeadOf(t: Tables, thread: ThreadId): Option<CheckpointId> {
    if thread in t.heads then Some(t.heads[thread]) else None
  }

  predicate IsBranchRecord(members: seq<Membership>, thread: ThreadId, id: CheckpointId) {
    exists m :: m in members && m.thread == thread && m.id == id
  }

  function MembershipOf(members: seq<Membership>, id: CheckpointId): Option<Membership> {
    if members == [] then None
    else if members[|members| - 1].id == id then Some(members[|members| - 1])
    else MembershipOf(members[..|members| - 1], id)
  }

  // ---- constrained statements ----

  /** `UNIQUE (checkpoint_id)` */
  function InsertRecordRow(t: Tables, record: CheckpointRecord): Option<Tables> {
    if RowOf(t.records, record.id).Some? then None else Some(t.(records := t.records + [Readable(record)]))
  }

  /** `UNIQUE (checkpoint_id)` and the foreign key into the records. */
  function UpsertHead(t: Tables, thread: ThreadId, id: CheckpointId): Option<Tables> {
    if RowOf(t.records, id).None? || (exists other :: other in t.heads && other != thread && t.heads[other] == id)
    then None else Some(t.(heads := t.heads[thread := id]))
  }

  predicate RecordOwned(t: Tables, thread: ThreadId, id: CheckpointId) {
    RowOf(t.records, id).Some? && RowThread(RowOf(t.records, id).value) == thread
  }

  /** The primary key and both owning foreign keys. */
  function InsertBranchRow(t: Tables, thread: ThreadId, branch: BranchId, source: CheckpointId): Option<Tables> {
    if branch in t.branches || !RecordOwned(t, thread, source) then None
    else Some(t.(branches := t.branches[branch := BranchRow(thread, source, source)]))
  }

  /** A membership trigger wants a record that continues the branch head. */
  predicate ContinuesHead(t: Tables, thread: ThreadId, branch: BranchId, id: CheckpointId) {
    && branch in t.branches && t.branches[branch].thread == thread
    && RecordOwned(t, thread, id)
    && RowOf(t.records, id).value.Readable?
    && RowOf(t.records, id).value.parts.parentId == Some(t.branches[branch].head)
  }

  function InsertMember(t: Tables, thread: ThreadId, branch: BranchId, id: CheckpointId): Option<Tables> {
    if MembershipOf(t.members, id).Some? || !ContinuesHead(t, thread, branch, id) then None
    else Some(t.(members := t.members + [Membership(id, thread, branch)]))
  }

  /** A head trigger wants a new head to be the source or a member. */
  function UpdateBranchHead(t: Tables, thread: ThreadId, branch: BranchId, id: CheckpointId): Option<Tables> {
    if branch !in t.branches || t.branches[branch].thread != thread then Some(t)
    else if !RecordOwned(t, thread, id) then None
    else if id != t.branches[branch].source && Membership(id, thread, branch) !in t.members then None
    else Some(t.(branches := t.branches[branch := t.branches[branch].(head := id)]))
  }

  // ---- write transactions ----

  datatype SqlSaved = SqlSaved(tables: Tables, reply: Result<CheckpointRecord, WriteError>)
  datatype SqlForked = SqlForked(tables: Tables, reply: Result<BranchHead, WriteError>)

  /** A failing statement rolls the whole transaction back. */
  function Then(t: Option<Tables>, statement: Tables -> Option<Tables>): Option<Tables> {
    if t.None? then None else statement(t.value)
  }

  function CommitSave(before: Tables, after: Option<Tables>, record: CheckpointRecord): SqlSaved {
    match after
    case None => SqlSaved(before, Err(WriteFailed(ConstraintViolated)))
    case Some(t) => SqlSaved(t, Ok(record))
  }

  function SaveTx(t: Tables, record: CheckpointRecord): SqlSaved {
    match Fetch(t, record.id)
    case Err(fault) => SqlSaved(t, Err(WriteFailed(fault)))
    case Ok(Some(existing)) =>
      SqlSaved(t, if existing == record then Ok(existing) else Err(IdempotencyConflict(record.id)))
    case Ok(None) =>
      if HeadOf(t, record.threadId) != record.parentId then
        SqlSaved(t, Err(Conflict(record.parentId, HeadOf(t, record.threadId))))
      else
        CommitSave(t, Then(InsertRecordRow(t, record), u => UpsertHead(u, record.threadId, record.id)), record)
  }

  /** The answer to a branch save whose id is already stored. */
  function RepeatedBranchSave(t: Tables, branch: BranchId, record: CheckpointRecord, existing: CheckpointRecord)
    : Result<CheckpointRecord, WriteError>
  {
    var member := MembershipOf(t.members, record.id);
    if member.Some? && member.value.branch == branch && member.value.thread != record.threadId then
      Err(WriteFailed(BranchOwnership(MemberRecord, branch, record.id, record.threadId, member.value.thread)))
    else if existing == record && member.Some? && member.value.branch == branch then
      if branch !in t.branches then Err(WriteFailed(MissingBranchMetadata(branch)))
      else if t.branches[branch].thread != record.threadId then
        Err(WriteFailed(BranchOwnership(BranchMetadata, branch, record.id, record.threadId, t.branches[branch].thread)))
      else Ok(existing)
    else Err(IdempotencyConflict(record.id))
  }

  function OwnershipFault(relation: BranchRelation, branch: BranchId, thread: ThreadId, record: CheckpointRecord)
    : Option<StorageFault>
  {
    if record.threadId == thread then None
    else Some(BranchOwnership(relation, branch, record.id, thread, record.threadId))
  }

  /** Checks the stored head before comparing it with the expected parent. */
  function BranchHeadFault(t: Tables, branch: BranchId): Option<StorageFault>
    requires branch in t.branches
  {
    match Fetch(t, t.branches[branch].head)
    case Err(fault) => Some(fault)
    case Ok(None) => Some(MissingBranchRecord(HeadRecord, branch, t.branches[branch].head))
    case Ok(Some(head)) => OwnershipFault(HeadRecord, branch, t.branches[branch].thread, head)
  }

  function SaveBranchTx(t: Tables, branch: BranchId, record: CheckpointRecord): SqlSaved {
    match Fetch(t, record.id)
    case Err(fault) => SqlSaved(t, Err(WriteFailed(fault)))
    case Ok(Some(existing)) => SqlSaved(t, RepeatedBranchSave(t, branch, record, existing))
    case Ok(None) =>
      if branch !in t.branches || t.branches[branch].thread != record.threadId then
        SqlSaved(t, Err(BranchNotFound(branch)))
      else if BranchHeadFault(t, branch).Some? then
        SqlSaved(t, Err(WriteFailed(BranchHeadFault(t, branch).value)))
      else if Some(t.branches[branch].head) != record.parentId then
        SqlSaved(t, Err(Conflict(record.parentId, Some(t.branches[branch].head))))
      else
        CommitSave(t,
          Then(Then(InsertRecordRow(t, record), u => InsertMember(u, record.threadId, branch, record.id)),
               u => UpdateBranchHead(u, record.threadId, branch, record.id)), record)
  }

  function CreateBranchTx(t: Tables, thread: ThreadId, branch: BranchId, source: CheckpointId): SqlForked {
    if branch in t.branches then SqlForked(t, Err(BranchAlreadyExists(branch)))
    else if !RecordOwned(t, thread, source) then SqlForked(t, Err(BranchSourceNotFound(branch, source)))
    else
      match InsertBranchRow(t, thread, branch, source)
      case None => SqlForked(t, Err(WriteFailed(ConstraintViolated)))
      case Some(u) => SqlForked(u, Ok(BranchHead(branch, thread, source, source)))
  }

  // ---- reads ----

  /** A thread's rows outside every branch, in `sequence` order. */
  function ThreadRows(records: seq<Row>, members: seq<Membership>, thread: ThreadId): seq<Row> {
    if records == [] then []
    else
      var last := records[|records| - 1];
      ThreadRows(records[..|records| - 1], members, thread)
      + (if RowThread(last) == thread && !IsBranchRecord(members, thread, RowId(last)) then [last] else [])
  }

  /** A branch's member rows, in `sequence` order. */
  function MemberRows(records: seq<Row>, members: seq<Membership>, thread: ThreadId, branch: BranchId): seq<Row> {
    if records == [] then []
    else
      var last := records[|records| - 1];
      MemberRows(records[..|records| - 1], members, thread, branch)
      + (if Membership(RowId(last), thread, branch) in members then [last] else [])
  }

  function DecodeRows(rows: seq<Row>): Result<History, StorageFault> {
    if rows == [] then Ok([])
    else
      match DecodeRows(rows[..|rows| - 1])
      case Err(fault) => Err(fault)
      case Ok(records) =>
        match DecodeRow(rows[|rows| - 1])
        case Err(fault) => Err(fault)
        case Ok(record) => Ok(records + [record])
  }

  function LatestQuery(t: Tables, thread: ThreadId): Result<Option<CheckpointRecord>, StorageFault> {
    if thread in t.heads then Fetch(t, t.heads[thread]) else Ok(None)
  }

  function GetQuery(t: Tables, thread: ThreadId, id: CheckpointId): Result<Option<CheckpointRecord>, StorageFault> {
    if RecordOwned(t, thread, id) then Fetch(t, id) else Ok(None)
  }

  function HistoryQuery(t: Tables, thread: ThreadId): Result<History, StorageFault> {
    DecodeRows(ThreadRows(t.records, t.members, thread))
  }

  // ---- the branch history query ----

  /** One row of the branch query: a checkpoint selected in some role, joined
      with its record when there is one. */
  datatype Selected = Selected(id: CheckpointId, relation: BranchRelation, row: Option<Row>)

  /** Members of a branch whose record is missing. */
  function MissingMembers(records: seq<Row>, members: seq<Membership>, thread: ThreadId, branch: BranchId)
    : seq<CheckpointId>
  {
    if members == [] then []
    else
      var m := members[|members| - 1];
      MissingMembers(records, members[..|members| - 1], thread, branch)
      + (if m.thread == thread && m.branch == branch && RowOf(records, m.id).None? then [m.id] else [])
  }

  function SelectRow(row: Row): Selected { Selected(RowId(row), MemberRecord, Some(row)) }

  function MemberSelections(t: Tables, thread: ThreadId, branch: BranchId): seq<Selected> {
    var missing := SortDedup(MissingMembers(t.records, t.members, thread, branch));
    var present := MemberRows(t.records, t.members, thread, branch);
    seq(|missing|, k requires 0 <= k < |missing| => Selected(missing[k], MemberRecord, None))
    + seq(|present|, k requires 0 <= k < |present| => SelectRow(present[k]))
  }

  /** Ordered by role, then `sequence` with missing records first, then id. */
  function BranchRows(t: Tables, thread: ThreadId, branch: BranchId): seq<Selected>
    requires branch in t.branches
  {
    var b := t.branches[branch];
    [Selected(b.source, SourceRecord, RowOf(t.records, b.source))] + MemberSelections(t, thread, branch)
    + [Selected(b.head, HeadRecord, RowOf(t.records, b.head))]
  }

  datatype Scan = Scan(history: History, seen: set<CheckpointId>, validatedHead: bool)

  /** What the self-check does with one row. */
  function ScanRow(scan: Scan, selected: Selected, thread: ThreadId, branch: BranchId, head: CheckpointId)
    : Result<Scan, StorageFault>
  {
    if selected.relation != HeadRecord && selected.id in scan.seen then Err(DuplicateBranchRecord(branch, selected.id))
    else if selected.row.None? then Err(MissingBranchRecord(selected.relation, branch, selected.id))
    else
      match DecodeRow(selected.row.value)
      case Err(fault) => Err(fault)
      case Ok(record) =>
        if record.threadId != thread then
          Err(BranchOwnership(selected.relation, branch, record.id, thread, record.threadId))
        else if selected.relation == HeadRecord then
          if selected.id != head then Err(BranchHeadMismatch(branch, selected.id, head))
          else Ok(scan.(validatedHead := true))
        else if scan.history != [] && record.parentId != NewestId(scan.history) then
          Err(BranchParentMismatch(branch, record.id, NewestId(scan.history).value, record.parentId))
        else Ok(Scan(scan.history + [record], scan.seen + {selected.id}, scan.validatedHead))
  }

  function ScanRows(rows: seq<Selected>, thread: ThreadId, branch: BranchId, head: CheckpointId)
    : Result<Scan, StorageFault>
  {
    if rows == [] then Ok(Scan([], {}, false))
    else
      match ScanRows(rows[..|rows| - 1], thread, branch, head)
      case Err(fault) => Err(fault)
      case Ok(scan) => ScanRow(scan, rows[|rows| - 1], thread, branch, head)
  }

  predicate HasTailRecord(h: History, id: CheckpointId) { exists k :: 1 <= k < |h| && h[k].id == id }

  function HeadChecks(scan: Scan, b: BranchRow, branch: BranchId): Result<Option<History>, StorageFault> {
    if !scan.validatedHead then Err(MissingBranchRecord(HeadRecord, branch, b.head))
    else if b.head != b.source && !HasTailRecord(scan.history, b.head) then Err(BranchHeadNotMember(branch, b.head))
    else if NewestId(scan.history) != Some(b.head) then
      Err(BranchHeadMismatch(branch, if scan.history == [] then b.source else NewestId(scan.history).value, b.head))
    else Ok(Some(scan.history))
  }

  function BranchHistoryQuery(t: Tables, thread: ThreadId, branch: BranchId): Result<Option<History>, StorageFault> {
    if branch !in t.branches || t.branches[branch].thread != thread then Ok(None)
    else
      match ScanRows(BranchRows(t, thread, branch), thread, branch, t.branches[branch].head)
      case Err(fault) => Err(fault)
      case Ok(scan) => HeadChecks(scan, t.branches[branch], branch)
  }

  // ---- operation sequences ----

  datatype SqlAnswer = SqlAnswer(tables: Tables, reply: Reply)

  function NewestOf(history: Result<Option<History>, StorageFault>): Result<Option<CheckpointRecord>, StorageFault> {
    match history
    case Err(fault) => Err(fault)
    case Ok(None) => Ok(None)
    case Ok(Some(h)) => Ok(Newest(h))
  }

  function HistoryOrEmpty(history: Result<Option<History>, StorageFault>): Result<History, StorageFault> {
    match history
    case Err(fault) => Err(fault)
    case Ok(None) => Ok([])
    case Ok(Some(h)) => Ok(h)
  }

  function SqlStep(t: Tables, op: Op): SqlAnswer {
    match op
    case SaveOp(record) => (var r := SaveTx(t, record); SqlAnswer(r.tables, Wrote(r.reply)))
    case SaveBranchOp(branch, record) => (var r := SaveBranchTx(t, branch, record); SqlAnswer(r.tables, Wrote(r.reply)))
    case CreateBranchOp(thread, branch, source) =>
      (var r := CreateBranchTx(t, thread, branch, source); SqlAnswer(r.tables, Branched(r.reply)))
    case LatestOp(thread) => SqlAnswer(t, Found(LatestQuery(t, thread)))
    case GetOp(thread, id) => SqlAnswer(t, Found(GetQuery(t, thread, id)))
    case HistoryOp(thread) => SqlAnswer(t, Listed(HistoryQuery(t, thread)))
    case BranchHeadOp(thread, branch) => SqlAnswer(t, Found(NewestOf(BranchHistoryQuery(t, thread, branch))))
    case BranchHistoryOp(thread, branch) => SqlAnswer(t, Listed(HistoryOrEmpty(BranchHistoryQuery(t, thread, branch))))
  }

  function SqlAfter(t: Tables, ops: seq<Op>): Tables {
    if ops == [] then t else SqlStep(SqlAfter(t, ops[..|ops| - 1]), ops[|ops| - 1]).tables
  }

  // ---- the database connection ----

  class SqliteCheckpointStore {
    var records: seq<Row>
    var heads: map<ThreadId, CheckpointId>
    var branches: map<BranchId, BranchRow>
    var members: seq<Membership>

    function Contents(): Tables
      reads this
    {
      Tables(records, heads, branches, members)
    }

    constructor ()
      ensures Contents() == EMPTY_TABLES
    {
      records, heads, branches, members := [], map[], map[], [];
    }

    method Commit(tx: Tables)
      modifies this
      ensures Contents() == tx
    {
      records, heads, branches, members := tx.records, tx.heads, tx.branches, tx.members;
    }

    method Save(record: CheckpointRecord) returns (reply: Result<CheckpointRecord, WriteError>)
      modifies this
      ensures SqlSaved(Contents(), reply) == SaveTx(old(Contents()), record)
    {
      var existing := Fetch(Contents(), record.id);
      if existing.Err? { return Err(WriteFailed(existing.error)); }
      if existing.value.Some? {
        if existing.value.value == record { return Ok(existing.value.value); }
        return Err(IdempotencyConflict(record.id));
      }
      var actualParent := HeadOf(Contents(), record.threadId);
      if actualParent != record.parentId { return Err(Conflict(record.parentId, actualParent)); }
      var tx := InsertRecordRow(Contents(), record);
      if tx.None? { return Err(WriteFailed(ConstraintViolated)); }
      tx := UpsertHead(tx.value, record.threadId, record.id);
      if tx.None? { return Err(WriteFailed(ConstraintViolated)); }
      Commit(tx.value);
      reply := Ok(record);
    }

    method SaveBranch(branch: BranchId, record: CheckpointRecord)
      returns (reply: Result<CheckpointRecord, WriteError>)
      modifies this
      ensures SqlSaved(Contents(), reply) == SaveBranchTx(old(Contents()), branch, record)
    {
      hide RepeatedBranchSave, BranchHeadFault, RowOf, MembershipOf;
      var existing := Fetch(Contents(), record.id);
      if existing.Err? { return Err(WriteFailed(existing.error)); }
      if existing.value.Some? {
        reply := RepeatedBranchSave(Contents(), branch, record, existing.value.value);
        return;
      }
      if branch !in branches { return Err(BranchNotFound(branch)); }
      if branches[branch].thread != record.threadId { return Err(BranchNotFound(branch)); }
      var fault := BranchHeadFault(Contents(), branch);
      if fault.Some? { return Err(WriteFailed(fault.value)); }
      var actualParent := branches[branch].head;
      if Some(actualParent) != record.parentId { return Err(Conflict(record.parentId, Some(actualParent))); }
      var tx := InsertRecordRow(Contents(), record);
      if tx.None? { return Err(WriteFailed(ConstraintViolated)); }
      tx := InsertMember(tx.value, record.threadId, branch, record.id);
      if tx.None? { return Err(WriteFailed(ConstraintViolated)); }
      tx := UpdateBranchHead(tx.value, record.threadId, branch, record.id);
      if tx.None? { return Err(WriteFailed(ConstraintViolated)); }
      Commit(tx.value);
      reply := Ok(record);
    }

    method CreateBranch(thread: ThreadId, branch: BranchId, source: CheckpointId)
      returns (reply: Result<BranchHead, WriteError>)
      modifies this
      ensures SqlForked(Contents(), reply) == CreateBranchTx(old(Contents()), thread, branch, source)
    {
      if branch in branches { return Err(BranchAlreadyExists(branch)); }
      if !RecordOwned(Contents(), thread, source) { return Err(BranchSourceNotFound(branch, source)); }
      var tx := InsertBranchRow(Contents(), thread, branch, source);
      if tx.None? { return Err(WriteFailed(ConstraintViolated)); }
      Commit(tx.value);
      reply := Ok(BranchHead(branch, thread, source, source));
    }

    /** Reads a branch back and checks it against itself, row by row. */
    method FetchBranchHistory(thread: ThreadId, branch: BranchId) returns (r: Result<Option<History>, StorageFault>)
      ensures r == BranchHistoryQuery(Contents(), thread, branch)
    {
      hide BranchRows, RowOf, DecodeRow;
      if branch !in branches || branches[branch].thread != thread { return Ok(None); }
      var rows := BranchRows(Contents(), thread, branch);
      var head := branches[branch].head;
      var history: History := [];
      var seen: set<CheckpointId> := {};
      var validatedHead := false;
      for i := 0 to |rows|
        invariant ScanRows(rows[..i], thread, branch, head) == Ok(Scan(history, seen, validatedHead))
      {
        var selected := rows[i];
        assert rows[..i + 1][..i] == rows[..i];
        ScanStops(rows, thread, branch, head, i + 1);
        if selected.relation != HeadRecord {
          if selected.id in seen { return Err(DuplicateBranchRecord(branch, selected.id)); }
        }
        if selected.row.None? { return Err(MissingBranchRecord(selected.relation, branch, selected.id)); }
        var decoded := DecodeRow(selected.row.value);
        if decoded.Err? { return Err(decoded.error); }
        var record := decoded.value;
        if record.threadId != thread {
          return Err(BranchOwnership(selected.relation, branch, record.id, thread, record.threadId));
        }
        if selected.relation == HeadRecord {
          if selected.id != head { return Err(BranchHeadMismatch(branch, selected.id, head)); }
          validatedHead := true;
        } else {
          if history != [] {
            var previous := history[|history| - 1].id;
            if record.parentId != Some(previous) {
              return Err(BranchParentMismatch(branch, record.id, previous, record.parentId));
            }
          }
          seen := seen + {selected.id};
          history := history + [record];
        }
      }
      assert rows[..|rows|] == rows;
      r := HeadChecks(Scan(history, seen, validatedHead), branches[branch], branch);
    }
  }

  /** The first failing row decides the answer. */
  lemma {:induction false} ScanStops(rows: seq<Selected>, thread: ThreadId, branch: BranchId, head: CheckpointId,
                                     n: nat)
    requires n <= |rows|
    ensures ScanRows(rows[..n], thread, branch, head).Err? ==>
              ScanRows(rows, thread, branch, head) == ScanRows(rows[..n], thread, branch, head)
    decreases |rows|
  {
    if n < |rows| {
      assert rows[..|rows| - 1][..n] == rows[..n];
      ScanStops(rows[..|rows| - 1], thread, branch, head, n);
    } else {
      assert rows[..n] == rows;
    }
  }
}
