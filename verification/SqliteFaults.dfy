/** What the faults of the SQLite adapter mean on damaged tables
    (crates/group-agent-checkpoint-sqlite/src/lib.rs:288-416, 699-880). */
module SqliteFaults {
  import opened Base
  import opened Records
  import opened CheckpointStore
  import opened Sqlite
  import opened SqliteHistory

  /** `UNIQUE (checkpoint_id)` on the records table. */
  ghost predicate KeyedRows(records: seq<Row>) {
    forall i, j :: 0 <= i < j < |records| ==> RowId(records[i]) != RowId(records[j])
  }

  /** The identifiers the branch query selects, and in which role. */
  predicate Selects(t: Tables, thread: ThreadId, branch: BranchId, relation: BranchRelation, id: CheckpointId)
    requires branch in t.branches
  {
    match relation
    case SourceRecord => id == t.branches[branch].source
    case MemberRecord => Membership(id, thread, branch) in t.members
    case HeadRecord => id == t.branches[branch].head
    case BranchMetadata => false
  }

  /** The identifier before the k-th member row. */
  function Before(t: Tables, thread: ThreadId, branch: BranchId, k: nat): CheckpointId
    requires branch in t.branches && k <= |MemberRows(t.records, t.members, thread, branch)|
  {
    if k == 0 then t.branches[branch].source else RowId(MemberRows(t.records, t.members, thread, branch)[k - 1])
  }

  /** The k-th member does not continue what is before it. */
  ghost predicate Strays(t: Tables, thread: ThreadId, branch: BranchId, k: nat, id: CheckpointId,
                         expected: CheckpointId, actual: Option<CheckpointId>)
    requires branch in t.branches
  {
    var members := MemberRows(t.records, t.members, thread, branch);
    && k < |members| && members[k].Readable? && members[k].parts.id == id
    && members[k].parts.parentId == actual && expected == Before(t, thread, branch, k) && actual != Some(expected)
  }

  ghost predicate Unreads(t: Tables, thread: ThreadId, branch: BranchId, relation: BranchRelation, id: CheckpointId)
    requires branch in t.branches
  {
    Selects(t, thread, branch, relation, id) && RowOf(t.records, id).Some? && RowOf(t.records, id).value.Unreadable?
  }

  ghost predicate Misfits(t: Tables, thread: ThreadId, branch: BranchId, relation: BranchRelation, id: CheckpointId,
                          fault: RecordError)
    requires branch in t.branches
  {
    && Selects(t, thread, branch, relation, id)
    && RowOf(t.records, id).Some? && RowOf(t.records, id).value.Readable?
    && Malformed(RowOf(t.records, id).value.parts, fault)
  }

  /** The damage a fault of the branch query reports. */
  ghost predicate Shown(t: Tables, thread: ThreadId, branch: BranchId, fault: StorageFault)
    requires branch in t.branches
  {
    match fault
    case UnreadableColumns(id) => exists relation :: Unreads(t, thread, branch, relation, id)
    case InvalidRecord(error) => exists relation, id :: Misfits(t, thread, branch, relation, id, error)
    case MissingBranchRecord(relation, b, id) =>
      b == branch && Selects(t, thread, branch, relation, id) && RowOf(t.records, id).None?
    case BranchOwnership(relation, b, id, expected, actual) =>
      && b == branch && expected == thread && actual != thread && Selects(t, thread, branch, relation, id)
      && RowOf(t.records, id).Some? && RowThread(RowOf(t.records, id).value) == actual
    case DuplicateBranchRecord(b, id) =>
      b == branch && Selects(t, thread, branch, SourceRecord, id) && Selects(t, thread, branch, MemberRecord, id)
    case BranchParentMismatch(b, id, expected, actual) =>
      b == branch && exists k: nat :: Strays(t, thread, branch, k, id, expected, actual)
    case BranchHeadNotMember(b, id) =>
      && b == branch && id == t.branches[branch].head && id != t.branches[branch].source
      && !Selects(t, thread, branch, MemberRecord, id)
    case BranchHeadMismatch(b, expectedHead, actualHead) =>
      && b == branch && actualHead == t.branches[branch].head && expectedHead != actualHead
      && (actualHead == t.branches[branch].source || Selects(t, thread, branch, MemberRecord, actualHead))
      && expectedHead == Before(t, thread, branch, |MemberRows(t.records, t.members, thread, branch)|)
    case _ => false
  }

  // ---- what is selected ----

  lemma {:induction false} KeyedIsUnique(records: seq<Row>)
    requires KeyedRows(records)
    ensures UniqueRows(records)
  {
    if records != [] {
      KeyedIsUnique(records[..|records| - 1]);
      forall k | 0 <= k < |records| ensures RowOf(records, RowId(records[k])) == Some(records[k]) {
        if k < |records| - 1 { assert records[..|records| - 1][k] == records[k]; }
      }
    }
  }

  lemma {:induction false} MemberRowsSelect(records: seq<Row>, members: seq<Membership>, thread: ThreadId,
                                            branch: BranchId)
    ensures forall row :: row in MemberRows(records, members, thread, branch) <==>
              row in records && Membership(RowId(row), thread, branch) in members
  {
    if records != [] {
      var front := records[..|records| - 1];
      MemberRowsSelect(front, members, thread, branch);
      assert records == front + [records[|records| - 1]];
    }
  }

  lemma {:induction false} MemberRowsAreKeyed(records: seq<Row>, members: seq<Membership>, thread: ThreadId,
                                              branch: BranchId)
    requires KeyedRows(records)
    ensures KeyedRows(MemberRows(records, members, thread, branch))
  {
    if records != [] {
      var front := records[..|records| - 1];
      MemberRowsAreKeyed(front, members, thread, branch);
      MemberRowsSelect(front, members, thread, branch);
    }
  }

  lemma {:induction false} MissingSelects(records: seq<Row>, members: seq<Membership>, thread: ThreadId,
                                          branch: BranchId)
    ensures forall id :: id in MissingMembers(records, members, thread, branch) <==>
              Membership(id, thread, branch) in members && RowOf(records, id).None?
  {
    if members != [] {
      var front := members[..|members| - 1];
      MissingSelects(records, front, thread, branch);
      assert members == front + [members[|members| - 1]];
    }
  }

  /** Each selected row is the stored row of an identifier with its role. */
  ghost predicate Genuine(t: Tables, thread: ThreadId, branch: BranchId, selected: Selected)
    requires branch in t.branches
  {
    Selects(t, thread, branch, selected.relation, selected.id) && selected.row == RowOf(t.records, selected.id)
  }

  lemma MemberIsGenuine(t: Tables, thread: ThreadId, branch: BranchId, row: Row)
    requires KeyedRows(t.records) && branch in t.branches
    requires row in MemberRows(t.records, t.members, thread, branch)
    ensures Genuine(t, thread, branch, SelectRow(row))
  {
    KeyedIsUnique(t.records);
    MemberRowsSelect(t.records, t.members, thread, branch);
    var k :| 0 <= k < |t.records| && t.records[k] == row;
  }

  lemma FrontIsGenuine(t: Tables, thread: ThreadId, branch: BranchId, k: nat)
    requires KeyedRows(t.records) && branch in t.branches && k < |FrontRows(t, thread, branch)|
    ensures Genuine(t, thread, branch, FrontRows(t, thread, branch)[k])
  {
    hide MemberRows, MissingMembers, RowOf, Genuine, SortDedup, KeyedRows;
    var missing := MissingMembers(t.records, t.members, thread, branch);
    var present := MemberRows(t.records, t.members, thread, branch);
    var selected := FrontRows(t, thread, branch)[k];
    if k == 0 {
      assert Genuine(t, thread, branch, selected) by { SourceIsGenuine(t, thread, branch); }
    } else if k <= |SortDedup(missing)| {
      MissingSelects(t.records, t.members, thread, branch);
      SortDedupSorts(missing);
      assert SortDedup(missing)[k - 1] in missing;
      MissingIsGenuine(t, thread, branch, SortDedup(missing)[k - 1]);
    } else {
      var row := present[k - 1 - |SortDedup(missing)|];
      assert selected == SelectRow(row);
      MemberIsGenuine(t, thread, branch, row);
    }
  }

  lemma SourceIsGenuine(t: Tables, thread: ThreadId, branch: BranchId)
    requires branch in t.branches
    ensures var source := t.branches[branch].source;
            Genuine(t, thread, branch, Selected(source, SourceRecord, RowOf(t.records, source)))
    ensures var head := t.branches[branch].head;
            Genuine(t, thread, branch, Selected(head, HeadRecord, RowOf(t.records, head)))
  {
  }

  lemma MissingIsGenuine(t: Tables, thread: ThreadId, branch: BranchId, id: CheckpointId)
    requires branch in t.branches && Membership(id, thread, branch) in t.members && RowOf(t.records, id).None?
    ensures Genuine(t, thread, branch, Selected(id, MemberRecord, None))
  {
  }

  // ---- what a row's fault shows ----

  /** A row that cannot be decoded, or belongs to another thread. */
  lemma RowFaultShown(t: Tables, thread: ThreadId, branch: BranchId, selected: Selected, fault: StorageFault)
    requires branch in t.branches && Genuine(t, thread, branch, selected)
    requires selected.row.Some? && DecodeRow(selected.row.value) == Err(fault)
    ensures Shown(t, thread, branch, fault)
  {
    RowOfMatches(t.records, selected.id);
    match selected.row.value
    case Unreadable(id, _) => assert Unreads(t, thread, branch, selected.relation, id);
    case Readable(parts) =>
      var error := TryFromParts(parts).error;
      assert Misfits(t, thread, branch, selected.relation, selected.id, error);
  }

  lemma OwnerFaultShown(t: Tables, thread: ThreadId, branch: BranchId, selected: Selected, record: CheckpointRecord)
    requires branch in t.branches && Genuine(t, thread, branch, selected)
    requires selected.row.Some? && DecodeRow(selected.row.value) == Ok(record) && record.threadId != thread
    ensures Shown(t, thread, branch, BranchOwnership(selected.relation, branch, record.id, thread, record.threadId))
  {
    RowOfMatches(t.records, selected.id);
  }

  /** The k-th front row fails after the ones before it passed. */
  lemma FrontFaultShown(t: Tables, thread: ThreadId, branch: BranchId, k: nat, h: History, fault: StorageFault)
    requires KeyedRows(t.records) && branch in t.branches && k < |FrontRows(t, thread, branch)|
    requires ScannedTo(FrontRows(t, thread, branch)[..k], thread, h)
    requires ScanRow(Passed(h), FrontRows(t, thread, branch)[k], thread, branch, t.branches[branch].head) == Err(fault)
    ensures Shown(t, thread, branch, fault)
  {
    hide FrontRows, KeyedRows, ScannedTo, Shown, RowOf, DecodeRow, Selects;
    var selected := FrontRows(t, thread, branch)[k];
    FrontIsGenuine(t, thread, branch, k);
    FrontRole(t, thread, branch, k);
    if selected.id in Ids(h) {
      RepeatShown(t, thread, branch, k, h);
    } else if selected.row.None? {
      MissingShown(t, thread, branch, selected);
    } else if DecodeRow(selected.row.value).Err? {
      RowFaultShown(t, thread, branch, selected, fault);
    } else {
      var record := DecodeRow(selected.row.value).value;
      if record.threadId != thread {
        OwnerFaultShown(t, thread, branch, selected, record);
      } else {
        StrayShown(t, thread, branch, k, h, record);
      }
    }
  }

  lemma FrontRole(t: Tables, thread: ThreadId, branch: BranchId, k: nat)
    requires branch in t.branches && k < |FrontRows(t, thread, branch)|
    ensures FrontRows(t, thread, branch)[k].relation == if k == 0 then SourceRecord else MemberRecord
  {
    hide MemberRows, MissingMembers, RowOf, SortDedup;
  }

  lemma MissingShown(t: Tables, thread: ThreadId, branch: BranchId, selected: Selected)
    requires branch in t.branches && Genuine(t, thread, branch, selected) && selected.row.None?
    ensures Shown(t, thread, branch, MissingBranchRecord(selected.relation, branch, selected.id))
  {
  }

  /** No scan gets past a missing member, and those come before the others. */
  lemma MissingStopsScan(t: Tables, thread: ThreadId, branch: BranchId, k: nat, h: History)
    requires branch in t.branches && 1 < k <= |FrontRows(t, thread, branch)|
    requires SortDedup(MissingMembers(t.records, t.members, thread, branch)) != []
    ensures !ScannedTo(FrontRows(t, thread, branch)[..k], thread, h)
  {
    hide MemberRows, MissingMembers, RowOf, SortDedup;
    assert FrontRows(t, thread, branch)[..k][1].row == None;
  }

  /** Rows after the first are reached only when no member is missing. */
  lemma LaterRowsAreMembers(t: Tables, thread: ThreadId, branch: BranchId, k: nat, h: History)
    requires branch in t.branches && 0 < k < |FrontRows(t, thread, branch)|
    requires ScannedTo(FrontRows(t, thread, branch)[..k], thread, h)
    requires k > 1 || FrontRows(t, thread, branch)[k].row.Some?
    ensures k - 1 < |MemberRows(t.records, t.members, thread, branch)| && |h| == k
    ensures FrontRows(t, thread, branch)[k] == SelectRow(MemberRows(t.records, t.members, thread, branch)[k - 1])
    ensures forall j :: 0 < j < k ==> h[j].id == RowId(MemberRows(t.records, t.members, thread, branch)[j - 1])
    ensures h[0].id == t.branches[branch].source
  {
    hide MemberRows, MissingMembers, RowOf, SortDedup;
    var rows, present := FrontRows(t, thread, branch), MemberRows(t.records, t.members, thread, branch);
    if k > 1 && SortDedup(MissingMembers(t.records, t.members, thread, branch)) != [] {
      MissingStopsScan(t, thread, branch, k, h);
      assert false;
    }
    assert DecodesTo(rows[..k][0].row, h[0]);
    forall j | 0 < j < k ensures h[j].id == RowId(present[j - 1]) {
      assert rows[..k][j] == SelectRow(present[j - 1]);
      assert DecodesTo(rows[..k][j].row, h[j]);
    }
  }

  /** A repeated row is the source again, and it is there. */
  lemma RepeatIsSource(t: Tables, thread: ThreadId, branch: BranchId, k: nat, h: History, j: nat)
    requires KeyedRows(t.records) && branch in t.branches && k < |FrontRows(t, thread, branch)|
    requires ScannedTo(FrontRows(t, thread, branch)[..k], thread, h)
    requires j < |h| && h[j].id == FrontRows(t, thread, branch)[k].id
    ensures 0 < k && h[j].id == t.branches[branch].source
  {
    hide MissingMembers, RowOf, SortDedup, MemberRows;
    var rows, present := FrontRows(t, thread, branch), MemberRows(t.records, t.members, thread, branch);
    assert |h| == k && rows[..k][j] == rows[j] && DecodesTo(rows[..k][j].row, h[j]) && rows[j].id == h[j].id;
    if j > 0 {
      LaterRowsAreMembers(t, thread, branch, k, h);
      MemberRowsAreKeyed(t.records, t.members, thread, branch);
      assert false;
    }
  }

  lemma RepeatShown(t: Tables, thread: ThreadId, branch: BranchId, k: nat, h: History)
    requires KeyedRows(t.records) && branch in t.branches && k < |FrontRows(t, thread, branch)|
    requires ScannedTo(FrontRows(t, thread, branch)[..k], thread, h) && FrontRows(t, thread, branch)[k].id in Ids(h)
    ensures Shown(t, thread, branch, DuplicateBranchRecord(branch, FrontRows(t, thread, branch)[k].id))
  {
    hide FrontRows, KeyedRows, ScannedTo, RowOf;
    var j :| 0 <= j < |h| && h[j].id == FrontRows(t, thread, branch)[k].id;
    RepeatIsSource(t, thread, branch, k, h, j);
    FrontIsGenuine(t, thread, branch, k);
    FrontRole(t, thread, branch, k);
  }

  lemma StrayShown(t: Tables, thread: ThreadId, branch: BranchId, k: nat, h: History, record: CheckpointRecord)
    requires branch in t.branches && k < |FrontRows(t, thread, branch)|
    requires ScannedTo(FrontRows(t, thread, branch)[..k], thread, h)
    requires FrontRows(t, thread, branch)[k].row.Some?
    requires DecodeRow(FrontRows(t, thread, branch)[k].row.value) == Ok(record)
    requires h != [] && record.parentId != NewestId(h)
    ensures Shown(t, thread, branch, BranchParentMismatch(branch, record.id, NewestId(h).value, record.parentId))
  {
    hide FrontRows, MemberRows, RowOf;
    LaterRowsAreMembers(t, thread, branch, k, h);
    assert Strays(t, thread, branch, k - 1, record.id, NewestId(h).value, record.parentId);
  }

  // ---- the whole query ----

  /** The first row that fails, after the ones before it passed. */
  lemma {:induction false} FirstFailure(rows: seq<Selected>, thread: ThreadId, branch: BranchId, head: CheckpointId)
    returns (k: nat)
    requires ScanRows(rows, thread, branch, head).Err?
    ensures k < |rows| && ScanRows(rows[..k], thread, branch, head).Ok?
    ensures ScanRow(ScanRows(rows[..k], thread, branch, head).value, rows[k], thread, branch, head).Err?
    ensures ScanRow(ScanRows(rows[..k], thread, branch, head).value, rows[k], thread, branch, head).error
            == ScanRows(rows, thread, branch, head).error
  {
    hide ScanRow;
    var front := rows[..|rows| - 1];
    if ScanRows(front, thread, branch, head).Err? {
      k := FirstFailure(front, thread, branch, head);
      assert front[..k] == rows[..k];
    } else {
      k := |rows| - 1;
    }
  }

  /** A fault among the source and the members. */
  lemma LineFaultShown(t: Tables, thread: ThreadId, branch: BranchId, fault: StorageFault)
    requires KeyedRows(t.records) && branch in t.branches
    requires ScanRows(FrontRows(t, thread, branch), thread, branch, t.branches[branch].head) == Err(fault)
    ensures Shown(t, thread, branch, fault)
  {
    hide FrontRows, ScanRow, KeyedRows, ScannedTo, Shown, ScanRows;
    var rows, head := FrontRows(t, thread, branch), t.branches[branch].head;
    var k := FirstFailure(rows, thread, branch, head);
    FrontRowsAreJoined(t, thread, branch);
    assert AllJoined(rows[..k]);
    ScanEstablishes(rows[..k], thread, branch, head);
    FrontFaultShown(t, thread, branch, k, ScanRows(rows[..k], thread, branch, head).value.history, fault);
  }

  /** A fault of the head row, or of the checks after the scan. */
  lemma HeadFaultShown(t: Tables, thread: ThreadId, branch: BranchId, h: History, fault: StorageFault)
    requires KeyedRows(t.records) && branch in t.branches && ScannedTo(FrontRows(t, thread, branch), thread, h)
    requires var head := t.branches[branch].head;
             var last := ScanRow(Passed(h), Selected(head, HeadRecord, RowOf(t.records, head)), thread, branch, head);
             if last.Err? then fault == last.error else HeadChecks(last.value, t.branches[branch], branch) == Err(fault)
    ensures Shown(t, thread, branch, fault)
  {
    hide FrontRows, KeyedRows, ScannedTo, Shown, RowOf, DecodeRow, Selects, HeadChecks, Genuine;
    var head := t.branches[branch].head;
    var selected := Selected(head, HeadRecord, RowOf(t.records, head));
    SourceIsGenuine(t, thread, branch);
    if selected.row.None? {
      MissingShown(t, thread, branch, selected);
    } else if DecodeRow(selected.row.value).Err? {
      RowFaultShown(t, thread, branch, selected, fault);
    } else {
      var record := DecodeRow(selected.row.value).value;
      if record.threadId != thread {
        OwnerFaultShown(t, thread, branch, selected, record);
      } else {
        EndFaultShown(t, thread, branch, h, fault);
      }
    }
  }

  /** The head is no member, or not the newest. */
  lemma EndFaultShown(t: Tables, thread: ThreadId, branch: BranchId, h: History, fault: StorageFault)
    requires branch in t.branches && ScannedTo(FrontRows(t, thread, branch), thread, h)
    requires HeadChecks(Scan(h, Ids(h), true), t.branches[branch], branch) == Err(fault)
    ensures Shown(t, thread, branch, fault)
  {
    hide MemberRows, MissingMembers, RowOf, SortDedup, FrontRows, ScannedTo, Ids;
    var b, present := t.branches[branch], MemberRows(t.records, t.members, thread, branch);
    LineIs(t, thread, branch, h);
    MemberRowsSelect(t.records, t.members, thread, branch);
    if b.head != b.source && !HasTailRecord(h, b.head) {
      if Selects(t, thread, branch, MemberRecord, b.head) {
        MemberIsInLine(t, thread, branch, h, b.head);
        assert false;
      }
    } else if b.head != b.source {
      var k :| 1 <= k < |h| && h[k].id == b.head;
      assert present[k - 1] in present;
    }
  }

  lemma LineIs(t: Tables, thread: ThreadId, branch: BranchId, h: History)
    requires branch in t.branches && ScannedTo(FrontRows(t, thread, branch), thread, h)
    ensures MissingMembers(t.records, t.members, thread, branch) == []
    ensures |h| == |MemberRows(t.records, t.members, thread, branch)| + 1
    ensures h[0].id == t.branches[branch].source
    ensures forall j :: 0 < j < |h| ==> h[j].id == RowId(MemberRows(t.records, t.members, thread, branch)[j - 1])
  {
    hide MemberRows, MissingMembers, RowOf, SortDedup;
    var rows, present := FrontRows(t, thread, branch), MemberRows(t.records, t.members, thread, branch);
    if MissingMembers(t.records, t.members, thread, branch) != [] {
      MissingIsNotScanned(t, thread, branch, h);
      assert false;
    }
    NothingToSort();
    assert DecodesTo(rows[0].row, h[0]);
    forall j | 0 < j < |h| ensures h[j].id == RowId(present[j - 1]) {
      assert rows[j] == SelectRow(present[j - 1]);
      assert DecodesTo(rows[j].row, h[j]);
    }
  }

  lemma NothingToSort()
    ensures SortDedup([]) == []
  {
  }

  lemma MemberIsInLine(t: Tables, thread: ThreadId, branch: BranchId, h: History, id: CheckpointId)
    requires branch in t.branches && ScannedTo(FrontRows(t, thread, branch), thread, h)
    requires Membership(id, thread, branch) in t.members
    ensures HasTailRecord(h, id)
  {
    hide MemberRows, MissingMembers, RowOf, SortDedup, FrontRows, ScannedTo;
    LineIs(t, thread, branch, h);
    MissingSelects(t.records, t.members, thread, branch);
    MemberRowsSelect(t.records, t.members, thread, branch);
    RowOfMatches(t.records, id);
    var row := RowOf(t.records, id).value;
    var present := MemberRows(t.records, t.members, thread, branch);
    assert row in present;
    var k :| 0 <= k < |present| && present[k] == row;
    assert h[k + 1].id == id;
  }

  /** Every fault of the branch query, on any tables, names damage that is there;
      and it finds nothing only when the thread has no such branch. */
  lemma BranchFaultsAreReal(t: Tables, thread: ThreadId, branch: BranchId)
    requires KeyedRows(t.records)
    ensures BranchHistoryQuery(t, thread, branch) == Ok(None) <==>
              branch !in t.branches || t.branches[branch].thread != thread
    ensures BranchHistoryQuery(t, thread, branch).Err? ==>
              branch in t.branches && Shown(t, thread, branch, BranchHistoryQuery(t, thread, branch).error)
  {
    hide FrontRows, BranchRows, ScanRow, ScanRows, HeadChecks, KeyedRows, ScannedTo, Shown, AllJoined, RowOf;
    var r := BranchHistoryQuery(t, thread, branch);
    if branch in t.branches && t.branches[branch].thread == thread {
      var rows, head := BranchRows(t, thread, branch), t.branches[branch].head;
      HeadChecksAnswer(t, branch);
      FrontRowsAreJoined(t, thread, branch);
      LastRow(t, thread, branch);
      ScanUnfolds(rows, thread, branch, head);
      var front := ScanRows(FrontRows(t, thread, branch), thread, branch, head);
      if front.Err? {
        LineFaultShown(t, thread, branch, front.error);
      } else {
        ScanEstablishes(FrontRows(t, thread, branch), thread, branch, head);
        if r.Err? { HeadFaultShown(t, thread, branch, front.value.history, r.error); }
      }
    }
  }

  lemma HeadChecksAnswer(t: Tables, branch: BranchId)
    requires branch in t.branches
    ensures forall scan :: HeadChecks(scan, t.branches[branch], branch) != Ok(None)
  {
  }

  // ---- writes to damaged tables ----

  /** The stored record under an identifier. */
  ghost predicate Reads(t: Tables, id: CheckpointId, record: CheckpointRecord) {
    RowOf(t.records, id) == Some(Readable(record)) && WellStructured(record)
  }

  /** The row under an identifier cannot be decoded. */
  ghost predicate Spoilt(t: Tables, id: CheckpointId, fault: StorageFault) {
    match RowOf(t.records, id)
    case None => false
    case Some(Unreadable(stored, _)) => fault == UnreadableColumns(stored)
    case Some(Readable(parts)) => fault.InvalidRecord? && Malformed(parts, fault.fault)
  }

  ghost predicate FetchSays(t: Tables, id: CheckpointId, r: Result<Option<CheckpointRecord>, StorageFault>) {
    match r
    case Ok(None) => RowOf(t.records, id).None?
    case Ok(Some(record)) => Reads(t, id, record)
    case Err(fault) => Spoilt(t, id, fault)
  }

  lemma FetchMeans(t: Tables, id: CheckpointId)
    ensures FetchSays(t, id, Fetch(t, id))
  {
  }

  /** The identifier belongs to the branch, in the record's own thread. */
  ghost predicate IsMemberOf(t: Tables, branch: BranchId, record: CheckpointRecord) {
    MembershipOf(t.members, record.id) == Some(Membership(record.id, record.threadId, branch))
  }

  /** The branch row exists and belongs to the record's thread. */
  ghost predicate Owns(t: Tables, branch: BranchId, record: CheckpointRecord) {
    branch in t.branches && t.branches[branch].thread == record.threadId
  }

  /** The branch head can be read, and is of the branch's thread. */
  ghost predicate HeadReads(t: Tables, branch: BranchId)
    requires branch in t.branches
  {
    exists head :: Reads(t, t.branches[branch].head, head) && head.threadId == t.branches[branch].thread
  }

  /** What each reply to a branch save says about the tables it found. */
  ghost predicate DamagedSaveSays(t: Tables, branch: BranchId, record: CheckpointRecord,
                                 reply: Result<CheckpointRecord, WriteError>)
  {
    var isNew := RowOf(t.records, record.id).None?;
    match reply
    case Ok(saved) =>
      && saved == record
      && Owns(t, branch, record)
      && (if isNew then HeadReads(t, branch) && record.parentId == Some(t.branches[branch].head)
          else Reads(t, record.id, record) && IsMemberOf(t, branch, record))
    case Err(IdempotencyConflict(id)) =>
      id == record.id && exists stored :: Reads(t, id, stored) && (stored != record || !IsMemberOf(t, branch, record))
    case Err(BranchNotFound(b)) => b == branch && isNew && !Owns(t, branch, record)
    case Err(Conflict(expected, actual)) =>
      && isNew && Owns(t, branch, record) && HeadReads(t, branch)
      && expected == record.parentId && actual == Some(t.branches[branch].head) && expected != actual
    case Err(WriteFailed(fault)) => BranchWriteDamage(t, branch, record, fault)
    case Err(_) => false
  }

  /** The damage a failing branch save reports. */
  ghost predicate BranchWriteDamage(t: Tables, branch: BranchId, record: CheckpointRecord, fault: StorageFault) {
    var isNew := RowOf(t.records, record.id).None?;
    var member := MembershipOf(t.members, record.id);
    match fault
    case BranchOwnership(MemberRecord, b, id, expected, actual) =>
      && !isNew && b == branch && id == record.id && expected == record.threadId && actual != expected
      && member.Some? && member.value.branch == branch && member.value.thread == actual
    case BranchOwnership(BranchMetadata, b, id, expected, actual) =>
      && Reads(t, record.id, record) && IsMemberOf(t, branch, record)
      && b == branch && id == record.id && expected == record.threadId && actual != expected
      && branch in t.branches && t.branches[branch].thread == actual
    case MissingBranchMetadata(b) =>
      Reads(t, record.id, record) && IsMemberOf(t, branch, record) && b == branch && branch !in t.branches
    case BranchOwnership(HeadRecord, b, id, expected, actual) =>
      && isNew && Owns(t, branch, record) && b == branch && expected == record.threadId && actual != expected
      && exists head :: Reads(t, t.branches[branch].head, head) && head.id == id && head.threadId == actual
    case MissingBranchRecord(HeadRecord, b, id) =>
      && isNew && Owns(t, branch, record) && b == branch && id == t.branches[branch].head
      && RowOf(t.records, id).None?
    case ConstraintViolated => isNew && Owns(t, branch, record) && member.Some?
    case _ =>
      || Spoilt(t, record.id, fault)
      || (isNew && Owns(t, branch, record) && Spoilt(t, t.branches[branch].head, fault))
  }

  /** A save to a branch on any tables: acknowledged exactly as the source
      promises, refused for damage that is there, and atomic. */
  lemma DamagedSaveMeans(t: Tables, branch: BranchId, record: CheckpointRecord)
    ensures DamagedSaveSays(t, branch, record, SaveBranchTx(t, branch, record).reply)
    ensures SaveBranchTx(t, branch, record).tables == t
            || SaveBranchTx(t, branch, record).tables
               == Tables(t.records + [Readable(record)], t.heads,
                         t.branches[branch := t.branches[branch].(head := record.id)],
                         t.members + [Membership(record.id, record.threadId, branch)])
    ensures SaveBranchTx(t, branch, record).tables != t <==>
              SaveBranchTx(t, branch, record).reply.Ok? && RowOf(t.records, record.id).None?
  {
    hide RowOf, MembershipOf, DecodeRow, Fetch, TryFromParts, RepeatedBranchSave, BranchWriteDamage, BranchHeadFault;
    FetchMeans(t, record.id);
    match Fetch(t, record.id)
    case Err(fault) => SpoiltShown(t, branch, record, fault);
    case Ok(Some(existing)) => RepeatMeans(t, branch, record, existing);
    case Ok(None) =>
      if Owns(t, branch, record) {
        HeadMeans(t, branch, record);
        if BranchHeadFault(t, branch).None? && Some(t.branches[branch].head) == record.parentId {
          StatementsMean(t, branch, record);
        }
      }
  }

  lemma SpoiltShown(t: Tables, branch: BranchId, record: CheckpointRecord, fault: StorageFault)
    requires Spoilt(t, record.id, fault)
    ensures BranchWriteDamage(t, branch, record, fault)
  {
  }

  lemma {:induction false} MembershipMatches(members: seq<Membership>, id: CheckpointId)
    ensures MembershipOf(members, id).Some? ==> MembershipOf(members, id).value.id == id
  {
    if members != [] { MembershipMatches(members[..|members| - 1], id); }
  }

  lemma RepeatMeans(t: Tables, branch: BranchId, record: CheckpointRecord, existing: CheckpointRecord)
    requires Reads(t, record.id, existing)
    ensures DamagedSaveSays(t, branch, record, RepeatedBranchSave(t, branch, record, existing))
  {
    hide RowOf, MembershipOf, WellStructured;
    MembershipMatches(t.members, record.id);
  }

  /** The check of the stored head. */
  lemma HeadMeans(t: Tables, branch: BranchId, record: CheckpointRecord)
    requires Owns(t, branch, record) && RowOf(t.records, record.id).None?
    ensures var fault := BranchHeadFault(t, branch);
            if fault.Some? then BranchWriteDamage(t, branch, record, fault.value)
            else HeadReads(t, branch) && RowOf(t.records, t.branches[branch].head).Some?
  {
    hide RowOf, MembershipOf, DecodeRow, Fetch, TryFromParts, WellStructured;
    FetchMeans(t, t.branches[branch].head);
  }

  /** The three statements succeed unless the identifier is already a member. */
  lemma StatementsMean(t: Tables, branch: BranchId, record: CheckpointRecord)
    requires Owns(t, branch, record) && RowOf(t.records, record.id).None?
    requires record.parentId == Some(t.branches[branch].head)
    ensures Then(Then(InsertRecordRow(t, record), u => InsertMember(u, record.threadId, branch, record.id)),
                 u => UpdateBranchHead(u, record.threadId, branch, record.id))
            == if MembershipOf(t.members, record.id).Some? then None
               else Some(Tables(t.records + [Readable(record)], t.heads,
                                t.branches[branch := t.branches[branch].(head := record.id)],
                                t.members + [Membership(record.id, record.threadId, branch)]))
    ensures MembershipOf(t.members, record.id).Some? ==> BranchWriteDamage(t, branch, record, ConstraintViolated)
  {
    assert (t.records + [Readable(record)])[..|t.records|] == t.records;
  }
}
