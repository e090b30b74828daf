/** The branch history query checks itself: what an answer means on any tables
    (crates/group-agent-checkpoint-sqlite/src/lib.rs:699-880). */
module SqliteHistory {
  import opened Base
  import opened Records
  import opened CheckpointStore
  import opened Sqlite

  function Rows(h: History): (rows: seq<Row>)
    ensures |rows| == |h|
    ensures forall k :: 0 <= k < |h| ==> rows[k] == Readable(h[k])
  {
    seq(|h|, k requires 0 <= k < |h| => Readable(h[k]))
  }

  ghost predicate DecodesTo(row: Option<Row>, record: CheckpointRecord) {
    row == Some(Readable(record)) && TryFromParts(record).Ok?
  }

  /** `UNIQUE (checkpoint_id)` on the records table. */
  ghost predicate UniqueRows(records: seq<Row>) {
    forall k :: 0 <= k < |records| ==> RowOf(records, RowId(records[k])) == Some(records[k])
  }

  /** h is the branch's history: its source, then its members in write order, a
      duplicate-free parent chain inside one thread that ends at the stored head. */
  ghost predicate Sound(t: Tables, thread: ThreadId, branch: BranchId, h: History) {
    && branch in t.branches && t.branches[branch].thread == thread
    && h != [] && Chain(h) && DistinctIds(h) && OneThread(h, thread)
    && h[0].id == t.branches[branch].source && h[|h| - 1].id == t.branches[branch].head
    && (forall k :: 0 <= k < |h| ==> DecodesTo(RowOf(t.records, h[k].id), h[k]))
    && MemberRows(t.records, t.members, thread, branch) == Rows(h[1..])
    && MissingMembers(t.records, t.members, thread, branch) == []
  }

  function Ids(h: History): set<CheckpointId> { set k | 0 <= k < |h| :: h[k].id }

  // ---- the scan ----

  /** A selected row that has a record is selected by that record's id. */
  ghost predicate Joined(selected: Selected) {
    selected.relation != HeadRecord && (selected.row.Some? ==> RowId(selected.row.value) == selected.id)
  }

  ghost predicate AllJoined(rows: seq<Selected>) {
    forall k :: 0 <= k < |rows| ==> Joined(rows[k])
  }

  /** The rows scanned to their records and every check passed. */
  ghost predicate ScannedTo(rows: seq<Selected>, thread: ThreadId, h: History) {
    && |h| == |rows| && Chain(h) && DistinctIds(h) && OneThread(h, thread)
    && forall k :: 0 <= k < |rows| ==> DecodesTo(rows[k].row, h[k]) && rows[k].id == h[k].id
  }

  function Passed(h: History): Scan { Scan(h, Ids(h), false) }

  lemma IdsOfAppend(h: History, record: CheckpointRecord)
    ensures Ids(h + [record]) == Ids(h) + {record.id}
  {
    forall id ensures id in Ids(h + [record]) <==> id in Ids(h) + {record.id} {
      if id in Ids(h) {
        var k :| 0 <= k < |h| && h[k].id == id;
        assert (h + [record])[k].id == id;
      }
      assert (h + [record])[|h|].id == record.id;
    }
  }

  lemma {:induction false} ScanEstablishes(rows: seq<Selected>, thread: ThreadId, branch: BranchId, head: CheckpointId)
    requires AllJoined(rows) && ScanRows(rows, thread, branch, head).Ok?
    ensures var scan := ScanRows(rows, thread, branch, head).value;
            ScannedTo(rows, thread, scan.history) && scan == Passed(scan.history)
  {
    if rows != [] {
      var front, last := rows[..|rows| - 1], rows[|rows| - 1];
      assert Joined(last);
      ScanEstablishes(front, thread, branch, head);
      var h := ScanRows(front, thread, branch, head).value.history;
      var record := DecodeRow(last.row.value).value;
      IdsOfAppend(h, record);
      forall k | 0 <= k < |h| ensures h[k].id != record.id { assert h[k].id in Ids(h); }
    }
  }

  lemma {:induction false} ScanAccepts(rows: seq<Selected>, thread: ThreadId, branch: BranchId, head: CheckpointId,
                                       h: History)
    requires AllJoined(rows) && ScannedTo(rows, thread, h)
    ensures ScanRows(rows, thread, branch, head) == Ok(Passed(h))
  {
    if rows == [] {
      assert h == [] && Ids(h) == {};
    } else {
      var front, last := rows[..|rows| - 1], rows[|rows| - 1];
      var before, record := h[..|h| - 1], h[|h| - 1];
      assert Joined(last);
      ScanAccepts(front, thread, branch, head, before);
      assert h == before + [record];
      IdsOfAppend(before, record);
      assert DecodesTo(last.row, record) && last.id == record.id;
      assert last.id !in Ids(before);
      assert before != [] ==> record.parentId == NewestId(before);
    }
  }

  // ---- selected rows ----

  lemma {:induction false} RowOfMatches(records: seq<Row>, id: CheckpointId)
    ensures RowOf(records, id).Some? ==> RowId(RowOf(records, id).value) == id && RowOf(records, id).value in records
  {
    if records != [] { RowOfMatches(records[..|records| - 1], id); }
  }

  lemma {:induction false} MemberRowsAreRows(records: seq<Row>, members: seq<Membership>, thread: ThreadId,
                                             branch: BranchId)
    ensures forall row :: row in MemberRows(records, members, thread, branch) ==> row in records
  {
    if records != [] { MemberRowsAreRows(records[..|records| - 1], members, thread, branch); }
  }

  function FrontRows(t: Tables, thread: ThreadId, branch: BranchId): seq<Selected>
    requires branch in t.branches
  {
    [Selected(t.branches[branch].source, SourceRecord, RowOf(t.records, t.branches[branch].source))]
    + MemberSelections(t, thread, branch)
  }

  lemma FrontRowsAreJoined(t: Tables, thread: ThreadId, branch: BranchId)
    requires branch in t.branches
    ensures AllJoined(FrontRows(t, thread, branch))
    ensures BranchRows(t, thread, branch)[..|BranchRows(t, thread, branch)| - 1] == FrontRows(t, thread, branch)
  {
    RowOfMatches(t.records, t.branches[branch].source);
  }

  lemma MissingIsNotScanned(t: Tables, thread: ThreadId, branch: BranchId, h: History)
    requires branch in t.branches && MissingMembers(t.records, t.members, thread, branch) != []
    ensures !ScannedTo(FrontRows(t, thread, branch), thread, h)
  {
    var ids := MissingMembers(t.records, t.members, thread, branch);
    SortDedupSorts(ids);
    assert ids[0] in SortDedup(ids);
    assert FrontRows(t, thread, branch)[1] == Selected(SortDedup(ids)[0], MemberRecord, None);
  }

  lemma ScannedFrontIsSound(t: Tables, thread: ThreadId, branch: BranchId, h: History)
    requires UniqueRows(t.records) && branch in t.branches && t.branches[branch].thread == thread
    requires ScannedTo(FrontRows(t, thread, branch), thread, h) && h[|h| - 1].id == t.branches[branch].head
    ensures Sound(t, thread, branch, h)
  {
    var rows := FrontRows(t, thread, branch);
    var missing := SortDedup(MissingMembers(t.records, t.members, thread, branch));
    var present := MemberRows(t.records, t.members, thread, branch);
    if MissingMembers(t.records, t.members, thread, branch) != [] { MissingIsNotScanned(t, thread, branch, h); }
    forall k | 0 <= k < |present| ensures present[k] == Readable(h[k + 1]) {
      assert rows[k + 1] == SelectRow(present[k]);
      assert DecodesTo(rows[k + 1].row, h[k + 1]);
    }
    assert present == Rows(h[1..]);
    MemberRowsAreRows(t.records, t.members, thread, branch);
    forall k | 0 <= k < |h| ensures DecodesTo(RowOf(t.records, h[k].id), h[k]) {
      assert DecodesTo(rows[k].row, h[k]);
      if k > 0 {
        assert present[k - 1] in t.records;
        assert RowOf(t.records, RowId(present[k - 1])) == Some(present[k - 1]);
      }
    }
  }

  lemma SoundFrontScans(t: Tables, thread: ThreadId, branch: BranchId, h: History)
    requires Sound(t, thread, branch, h)
    ensures ScannedTo(FrontRows(t, thread, branch), thread, h)
  {
    var rows := FrontRows(t, thread, branch);
    var present := MemberRows(t.records, t.members, thread, branch);
    forall k | 0 <= k < |h| ensures k < |rows| && DecodesTo(rows[k].row, h[k]) && rows[k].id == h[k].id {
      assert DecodesTo(RowOf(t.records, h[k].id), h[k]);
      if k > 0 { assert rows[k] == SelectRow(present[k - 1]) && present[k - 1] == Readable(h[k]); }
    }
  }

  /** On any tables the branch query answers with a history exactly when that
      history is sound; everything else it calls missing or corrupt. */
  lemma BranchHistoryIsExact(t: Tables, thread: ThreadId, branch: BranchId, h: History)
    requires UniqueRows(t.records)
    ensures BranchHistoryQuery(t, thread, branch) == Ok(Some(h)) <==> Sound(t, thread, branch, h)
  {
    hide ScannedTo, FrontRows, BranchRows, ScanRows, Sound, AllJoined, RowOf, UniqueRows;
    if branch in t.branches && t.branches[branch].thread == thread {
      var rows := BranchRows(t, thread, branch);
      var head := t.branches[branch].head;
      FrontRowsAreJoined(t, thread, branch);
      LastRow(t, thread, branch);
      RowOfMatches(t.records, head);
      ScanUnfolds(rows, thread, branch, head);
      if BranchHistoryQuery(t, thread, branch) == Ok(Some(h)) {
        ScanEstablishes(FrontRows(t, thread, branch), thread, branch, head);
        ScannedFrontIsSound(t, thread, branch, h);
      }
      if Sound(t, thread, branch, h) {
        SoundFrontScans(t, thread, branch, h);
        ScanAccepts(FrontRows(t, thread, branch), thread, branch, head, h);
        HeadOfSound(t, thread, branch, h);
      }
    } else {
      NotSelected(t, thread, branch, h);
    }
  }

  lemma NotSelected(t: Tables, thread: ThreadId, branch: BranchId, h: History)
    requires branch !in t.branches || t.branches[branch].thread != thread
    ensures !Sound(t, thread, branch, h)
  {
  }

  lemma LastRow(t: Tables, thread: ThreadId, branch: BranchId)
    requires branch in t.branches
    ensures var rows := BranchRows(t, thread, branch);
            && rows != []
            && rows[|rows| - 1]
               == Selected(t.branches[branch].head, HeadRecord, RowOf(t.records, t.branches[branch].head))
  {
  }

  lemma ScanUnfolds(rows: seq<Selected>, thread: ThreadId, branch: BranchId, head: CheckpointId)
    requires rows != []
    ensures var front := ScanRows(rows[..|rows| - 1], thread, branch, head);
            ScanRows(rows, thread, branch, head)
            == if front.Ok? then ScanRow(front.value, rows[|rows| - 1], thread, branch, head) else front
  {
  }

  lemma HeadOfSound(t: Tables, thread: ThreadId, branch: BranchId, h: History)
    requires Sound(t, thread, branch, h)
    ensures h != [] && NewestId(h) == Some(t.branches[branch].head)
    ensures DecodesTo(RowOf(t.records, t.branches[branch].head), h[|h| - 1]) && h[|h| - 1].threadId == thread
    ensures t.branches[branch].head != t.branches[branch].source ==> HasTailRecord(h, t.branches[branch].head)
  {
    assert DecodesTo(RowOf(t.records, h[|h| - 1].id), h[|h| - 1]);
  }
}
