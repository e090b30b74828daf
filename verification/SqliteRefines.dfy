/** The SQLite tables answer every operation sequence exactly as the in-memory
    store does (crates/group-agent-checkpoint-sqlite/src/lib.rs:233-557;
    crates/group-agent-core/src/checkpoint_store.rs:137-349). */
module SqliteRefines {
  import opened Base
  import opened Domain
  import opened Records
  import opened CheckpointStore
  import opened Sqlite
  import opened SqliteHistory

  // ---- representation ----

  ghost predicate RowsRepresent(t: Tables, s: Store) {
    && UniqueRows(t.records)
    && (forall id :: RowOf(t.records, id) == if id in s.byId then Some(Readable(s.byId[id])) else None)
    && (forall id :: id in s.byId ==> TryFromParts(s.byId[id]).Ok?)
  }

  ghost predicate ThreadRepresents(t: Tables, s: Store, thread: ThreadId) {
    && HeadOf(t, thread) == NewestId(ThreadHistory(s, thread))
    && ThreadRows(t.records, t.members, thread) == Rows(ThreadHistory(s, thread))
  }

  ghost predicate MembersRepresent(t: Tables, s: Store) {
    && (forall id :: MembershipOf(t.members, id)
          == if id in s.recordBranches && id in s.byId
             then Some(Membership(id, s.byId[id].threadId, s.recordBranches[id])) else None)
    && (forall m :: m in t.members ==> MembershipOf(t.members, m.id) == Some(m))
  }

  ghost predicate BranchRepresents(t: Tables, s: Store, branch: BranchId) {
    && (branch in t.branches <==> branch in s.branches)
    && (branch in t.branches ==>
          var h := s.branches[branch].history;
          && h != []
          && t.branches[branch] == BranchRow(s.branches[branch].thread, h[0].id, h[|h| - 1].id)
          && MemberRows(t.records, t.members, s.branches[branch].thread, branch) == Rows(h[1..]))
  }

  /** The four tables hold what the four maps hold. */
  ghost predicate Represents(t: Tables, s: Store) {
    && RowsRepresent(t, s) && MembersRepresent(t, s)
    && (forall thread :: ThreadRepresents(t, s, thread))
    && (forall branch :: BranchRepresents(t, s, branch))
  }

  lemma EmptyRepresents()
    ensures Represents(EMPTY_TABLES, EMPTY_STORE)
  {
  }

  // ---- table lemmas ----

  lemma {:induction false} NoMembership(members: seq<Membership>, id: CheckpointId)
    requires MembershipOf(members, id).None?
    ensures forall m :: m in members ==> m.id != id
  {
    if members != [] {
      NoMembership(members[..|members| - 1], id);
      assert members == members[..|members| - 1] + [members[|members| - 1]];
    }
  }

  /** What one more record row changes. */
  lemma AppendRow(records: seq<Row>, members: seq<Membership>, row: Row, id: CheckpointId, thread: ThreadId,
                  branch: BranchId)
    ensures RowOf(records + [row], id) == if RowId(row) == id then Some(row) else RowOf(records, id)
    ensures ThreadRows(records + [row], members, thread)
            == ThreadRows(records, members, thread)
               + if RowThread(row) == thread && !IsBranchRecord(members, thread, RowId(row)) then [row] else []
    ensures MemberRows(records + [row], members, thread, branch)
            == MemberRows(records, members, thread, branch)
               + if Membership(RowId(row), thread, branch) in members then [row] else []
  {
    assert (records + [row])[..|records|] == records;
  }

  lemma AppendUniqueRow(records: seq<Row>, row: Row)
    requires UniqueRows(records) && RowOf(records, RowId(row)).None?
    ensures UniqueRows(records + [row])
  {
    var all := records + [row];
    forall k | 0 <= k < |all| ensures RowOf(all, RowId(all[k])) == Some(all[k]) {
      AppendRow(records, [], row, RowId(all[k]), RowThread(row), 0);
    }
  }

  /** A membership of an id that no earlier row has changes no earlier selection. */
  lemma {:induction false} MembershipIsLocal(records: seq<Row>, members: seq<Membership>, m: Membership,
                                             thread: ThreadId, branch: BranchId)
    requires RowOf(records, m.id).None?
    ensures ThreadRows(records, members + [m], thread) == ThreadRows(records, members, thread)
    ensures MemberRows(records, members + [m], thread, branch) == MemberRows(records, members, thread, branch)
  {
    if records != [] {
      MembershipIsLocal(records[..|records| - 1], members, m, thread, branch);
      var id := RowId(records[|records| - 1]);
      assert IsBranchRecord(members + [m], thread, id) <==> IsBranchRecord(members, thread, id);
    }
  }

  lemma FetchFinds(t: Tables, s: Store, id: CheckpointId)
    requires RowsRepresent(t, s)
    ensures Fetch(t, id) == Ok(if id in s.byId then Some(s.byId[id]) else None)
  {
  }

  // ---- thread saves ----

  lemma InsertedRows(t: Tables, s: Store, record: CheckpointRecord)
    requires RowsRepresent(t, s) && record.id !in s.byId && TryFromParts(record).Ok?
    ensures RowsRepresent(t.(records := t.records + [Readable(record)]), s.(byId := s.byId[record.id := record]))
  {
    AppendUniqueRow(t.records, Readable(record));
    forall id ensures RowOf(t.records + [Readable(record)], id)
                      == if id == record.id then Some(Readable(record)) else RowOf(t.records, id)
    {
      AppendRow(t.records, [], Readable(record), id, record.threadId, 0);
    }
  }

  lemma InsertedThread(t: Tables, s: Store, record: CheckpointRecord, thread: ThreadId)
    requires ThreadRepresents(t, s, thread) && MembersRepresent(t, s)
    requires record.id !in s.byId
    ensures ThreadRepresents(
              Tables(t.records + [Readable(record)], t.heads[record.threadId := record.id], t.branches, t.members),
              s.(histories := s.histories[record.threadId := ThreadHistory(s, record.threadId) + [record]],
                 byId := s.byId[record.id := record]), thread)
  {
    AppendRow(t.records, t.members, Readable(record), record.id, thread, 0);
    FreshIsNoMember(t, s, record.id, thread, 0);
    hide ThreadRows, RowOf, MemberRows, MembersRepresent, IsBranchRecord, Rows;
    if thread == record.threadId {
      InsertedHere(t, s, record);
    } else {
      assert ThreadRows(t.records + [Readable(record)], t.members, thread)
             == ThreadRows(t.records, t.members, thread) + [];
    }
  }

  lemma InsertedHere(t: Tables, s: Store, record: CheckpointRecord)
    requires ThreadRepresents(t, s, record.threadId)
    requires ThreadRows(t.records + [Readable(record)], t.members, record.threadId)
             == ThreadRows(t.records, t.members, record.threadId) + [Readable(record)]
    ensures ThreadRepresents(
              Tables(t.records + [Readable(record)], t.heads[record.threadId := record.id], t.branches, t.members),
              s.(histories := s.histories[record.threadId := ThreadHistory(s, record.threadId) + [record]],
                 byId := s.byId[record.id := record]), record.threadId)
  {
    hide ThreadRows, Rows;
    var h := ThreadHistory(s, record.threadId);
    RowsAppend(h, record);
    assert (h + [record])[|h|] == record;
  }

  lemma RowsAppend(h: History, record: CheckpointRecord)
    ensures Rows(h + [record]) == Rows(h) + [Readable(record)]
  {
  }

  lemma FreshIsNoMember(t: Tables, s: Store, id: CheckpointId, thread: ThreadId, branch: BranchId)
    requires MembersRepresent(t, s) && id !in s.byId
    ensures !IsBranchRecord(t.members, thread, id) && Membership(id, thread, branch) !in t.members
  {
    NoMembership(t.members, id);
  }

  lemma InsertedElsewhere(t: Tables, s: Store, record: CheckpointRecord, branch: BranchId)
    requires BranchRepresents(t, s, branch) && MembersRepresent(t, s) && record.id !in s.byId
    ensures BranchRepresents(
              Tables(t.records + [Readable(record)], t.heads[record.threadId := record.id], t.branches, t.members),
              s.(histories := s.histories[record.threadId := ThreadHistory(s, record.threadId) + [record]],
                 byId := s.byId[record.id := record]), branch)
  {
    if branch in s.branches {
      AppendRow(t.records, t.members, Readable(record), record.id, s.branches[branch].thread, branch);
      FreshIsNoMember(t, s, record.id, s.branches[branch].thread, branch);
    }
  }

  lemma HeadsAreStored(t: Tables, s: Store, thread: ThreadId)
    requires ThreadRepresents(t, s, thread) && StoreOk(s)
    ensures thread in t.heads ==> t.heads[thread] in s.byId
  {
    assert ThreadOk(s, thread);
  }

  lemma SaveStatements(t: Tables, s: Store, record: CheckpointRecord)
    requires Represents(t, s) && StoreOk(s) && record.id !in s.byId && TryFromParts(record).Ok?
    ensures Then(InsertRecordRow(t, record), u => UpsertHead(u, record.threadId, record.id))
            == Some(Tables(t.records + [Readable(record)], t.heads[record.threadId := record.id], t.branches,
                           t.members))
  {
    hide StoreOk, ThreadRows, MemberRows, MembersRepresent, BranchRepresents, RowOf, UniqueRows;
    AppendRow(t.records, t.members, Readable(record), record.id, record.threadId, 0);
    RowIsAbsent(t, s, record.id);
    forall other | other in t.heads ensures t.heads[other] != record.id {
      assert ThreadRepresents(t, s, other);
      HeadsAreStored(t, s, other);
    }
  }

  lemma SaveRefines(t: Tables, s: Store, record: CheckpointRecord)
    requires Represents(t, s) && StoreOk(s) && TryFromParts(record).Ok?
    ensures SaveTx(t, record).reply == Insert(s, record).reply
    ensures Represents(SaveTx(t, record).tables, Insert(s, record).store)
  {
    hide StoreOk, RowsRepresent, ThreadRows, MemberRows, Then, MembersRepresent, BranchRepresents, Fetch;
    FetchFinds(t, s, record.id);
    assert ThreadRepresents(t, s, record.threadId);
    if Insert(s, record).store != s {
      SaveStatements(t, s, record);
      var t', s' := SaveTx(t, record).tables, Insert(s, record).store;
      InsertedRows(t, s, record);
      RowsIgnoreHeads(t.(records := t.records + [Readable(record)]), s.(byId := s.byId[record.id := record]), t', s');
      MembersUnmoved(t, s, record, t', s');
      forall thread ensures ThreadRepresents(t', s', thread) { InsertedThread(t, s, record, thread); }
      forall branch ensures BranchRepresents(t', s', branch) { InsertedElsewhere(t, s, record, branch); }
    }
  }

  lemma RowsIgnoreHeads(t: Tables, s: Store, t': Tables, s': Store)
    requires RowsRepresent(t, s) && t'.records == t.records && s'.byId == s.byId
    ensures RowsRepresent(t', s')
  {
  }

  lemma MembersUnmoved(t: Tables, s: Store, record: CheckpointRecord, t': Tables, s': Store)
    requires MembersRepresent(t, s) && StoreOk(s) && record.id !in s.byId
    requires t'.members == t.members && s'.recordBranches == s.recordBranches && s'.byId == s.byId[record.id := record]
    ensures MembersRepresent(t', s')
  {
  }

  // ---- branch saves ----

  function BranchSavedTables(t: Tables, branch: BranchId, record: CheckpointRecord): Tables
    requires branch in t.branches
  {
    Tables(t.records + [Readable(record)], t.heads, t.branches[branch := t.branches[branch].(head := record.id)],
           t.members + [Membership(record.id, record.threadId, branch)])
  }

  lemma BranchSaveStatements(t: Tables, s: Store, branch: BranchId, record: CheckpointRecord)
    requires RowsRepresent(t, s) && MembersRepresent(t, s) && BranchRepresents(t, s, branch)
    requires record.id !in s.byId && TryFromParts(record).Ok?
    requires branch in s.branches && s.branches[branch].thread == record.threadId
    requires record.parentId == NewestId(s.branches[branch].history)
    ensures Then(Then(InsertRecordRow(t, record), u => InsertMember(u, record.threadId, branch, record.id)),
                 u => UpdateBranchHead(u, record.threadId, branch, record.id))
            == Some(BranchSavedTables(t, branch, record))
  {
    AppendRow(t.records, t.members, Readable(record), record.id, record.threadId, branch);
  }

  lemma BranchSavedThread(t: Tables, s: Store, branch: BranchId, record: CheckpointRecord, thread: ThreadId)
    requires ThreadRepresents(t, s, thread) && RowOf(t.records, record.id).None? && branch in t.branches
    requires branch in s.branches && s.branches[branch].thread == record.threadId
    requires record.id !in s.byId && NewestId(s.branches[branch].history) == record.parentId
    ensures ThreadRepresents(BranchSavedTables(t, branch, record), InsertBranch(s, branch, record).store, thread)
  {
    var m := Membership(record.id, record.threadId, branch);
    MembershipIsLocal(t.records, t.members, m, thread, branch);
    AppendRow(t.records, t.members + [m], Readable(record), record.id, thread, branch);
    assert m in t.members + [m];
  }

  lemma BranchSavedRows(t: Tables, s: Store, branch: BranchId, record: CheckpointRecord, thread: ThreadId,
                        other: BranchId)
    requires MembersRepresent(t, s) && RowOf(t.records, record.id).None? && record.id !in s.byId
    ensures MemberRows(t.records + [Readable(record)], t.members + [Membership(record.id, record.threadId, branch)],
                       thread, other)
            == MemberRows(t.records, t.members, thread, other)
               + if other == branch && thread == record.threadId then [Readable(record)] else []
  {
    var m := Membership(record.id, record.threadId, branch);
    MembershipIsLocal(t.records, t.members, m, thread, other);
    AppendRow(t.records, t.members + [m], Readable(record), record.id, thread, other);
    FreshIsNoMember(t, s, record.id, thread, other);
    hide MemberRows, RowOf, MembersRepresent, IsBranchRecord, ThreadRows;
    assert m in t.members + [m];
  }

  lemma TailRows(h: History, record: CheckpointRecord)
    requires h != []
    ensures Rows((h + [record])[1..]) == Rows(h[1..]) + [Readable(record)]
  {
    assert (h + [record])[1..] == h[1..] + [record];
    RowsAppend(h[1..], record);
  }

  lemma BranchSavedBranch(t: Tables, s: Store, branch: BranchId, record: CheckpointRecord, other: BranchId)
    requires BranchRepresents(t, s, other) && BranchRepresents(t, s, branch)
    requires MembersRepresent(t, s) && RowOf(t.records, record.id).None?
    requires branch in s.branches && s.branches[branch].thread == record.threadId
    requires record.id !in s.byId && NewestId(s.branches[branch].history) == record.parentId
    ensures BranchRepresents(BranchSavedTables(t, branch, record), InsertBranch(s, branch, record).store, other)
  {
    hide MemberRows, RowOf, MembersRepresent;
    if other in s.branches {
      BranchSavedRows(t, s, branch, record, s.branches[other].thread, other);
      var h := s.branches[other].history;
      TailRows(h, record);
      assert (h + [record])[0] == h[0] && (h + [record])[|h|] == record;
    }
  }

  lemma BranchSavedMembers(t: Tables, s: Store, branch: BranchId, record: CheckpointRecord)
    requires MembersRepresent(t, s) && record.id !in s.byId && branch in t.branches
    requires branch in s.branches && s.branches[branch].thread == record.threadId
    requires NewestId(s.branches[branch].history) == record.parentId
    ensures MembersRepresent(BranchSavedTables(t, branch, record), InsertBranch(s, branch, record).store)
  {
    hide MembershipOf;
    var m := Membership(record.id, record.threadId, branch);
    NoMembership(t.members, record.id);
    forall id ensures MembershipOf(t.members + [m], id) == if id == m.id then Some(m) else MembershipOf(t.members, id) {
      AppendMember(t.members, m, id);
    }
  }

  lemma AppendMember(members: seq<Membership>, m: Membership, id: CheckpointId)
    ensures MembershipOf(members + [m], id) == if id == m.id then Some(m) else MembershipOf(members, id)
  {
    assert (members + [m])[..|members|] == members;
  }

  /** A branch save that repeats the id of a record of that branch under another
      thread. */
  predicate Misowned(s: Store, branch: BranchId, record: CheckpointRecord) {
    && record.id in s.byId && record.id in s.recordBranches && s.recordBranches[record.id] == branch
    && s.byId[record.id].threadId != record.threadId
  }

  function MisownedFault(s: Store, branch: BranchId, record: CheckpointRecord): StorageFault
    requires record.id in s.byId
  {
    BranchOwnership(MemberRecord, branch, record.id, record.threadId, s.byId[record.id].threadId)
  }

  lemma RepeatedBranchSaveRefines(t: Tables, s: Store, branch: BranchId, record: CheckpointRecord)
    requires MembersRepresent(t, s) && StoreOk(s) && record.id in s.byId
    requires BranchRepresents(t, s, branch)
    ensures RepeatedBranchSave(t, branch, record, s.byId[record.id])
            == if Misowned(s, branch, record) then Err(WriteFailed(MisownedFault(s, branch, record)))
               else InsertBranch(s, branch, record).reply
  {
    assert Placed(s, record.id);
    if record.id in s.recordBranches && s.recordBranches[record.id] == branch {
      assert BranchOk(s, branch);
      assert s.byId[record.id] in s.branches[branch].history[1..];
    }
  }

  lemma BranchHeadIsFine(t: Tables, s: Store, branch: BranchId)
    requires RowsRepresent(t, s) && StoreOk(s) && BranchRepresents(t, s, branch) && branch in t.branches
    ensures BranchHeadFault(t, branch).None?
    ensures Some(t.branches[branch].head) == NewestId(s.branches[branch].history)
  {
    FetchFinds(t, s, t.branches[branch].head);
    assert BranchOk(s, branch);
  }

  lemma SaveBranchRefines(t: Tables, s: Store, branch: BranchId, record: CheckpointRecord)
    requires Represents(t, s) && StoreOk(s) && TryFromParts(record).Ok?
    ensures SaveBranchTx(t, branch, record).reply
            == if Misowned(s, branch, record) then Err(WriteFailed(MisownedFault(s, branch, record)))
               else InsertBranch(s, branch, record).reply
    ensures Represents(SaveBranchTx(t, branch, record).tables, InsertBranch(s, branch, record).store)
  {
    hide StoreOk, RowsRepresent, ThreadRows, MemberRows, Then, MembersRepresent, ThreadRepresents, RepeatedBranchSave,
         BranchHeadFault, Fetch;
    FetchFinds(t, s, record.id);
    assert BranchRepresents(t, s, branch);
    if record.id in s.byId {
      RepeatedBranchSaveRefines(t, s, branch, record);
    } else if branch in s.branches && s.branches[branch].thread == record.threadId {
      BranchHeadIsFine(t, s, branch);
      if record.parentId == NewestId(s.branches[branch].history) {
        BranchSaveStatements(t, s, branch, record);
        BranchSaveRepresents(t, s, branch, record);
      }
    }
  }

  lemma BranchSaveRepresents(t: Tables, s: Store, branch: BranchId, record: CheckpointRecord)
    requires Represents(t, s) && StoreOk(s) && TryFromParts(record).Ok?
    requires record.id !in s.byId && branch in t.branches
    requires branch in s.branches && s.branches[branch].thread == record.threadId
    requires NewestId(s.branches[branch].history) == record.parentId
    ensures Represents(BranchSavedTables(t, branch, record), InsertBranch(s, branch, record).store)
  {
    hide StoreOk, RowsRepresent, ThreadRows, MemberRows, MembersRepresent, ThreadRepresents, BranchRepresents;
    var t', s' := BranchSavedTables(t, branch, record), InsertBranch(s, branch, record).store;
    InsertedRows(t, s, record);
    RowsIgnoreHeads(t.(records := t.records + [Readable(record)]), s.(byId := s.byId[record.id := record]), t', s');
    RowIsAbsent(t, s, record.id);
    BranchSavedMembers(t, s, branch, record);
    forall thread ensures ThreadRepresents(t', s', thread) { BranchSavedThread(t, s, branch, record, thread); }
    forall other ensures BranchRepresents(t', s', other) { BranchSavedBranch(t, s, branch, record, other); }
  }

  lemma RowIsAbsent(t: Tables, s: Store, id: CheckpointId)
    requires RowsRepresent(t, s)
    ensures RowOf(t.records, id).Some? <==> id in s.byId
    ensures id in s.byId ==> RowOf(t.records, id) == Some(Readable(s.byId[id]))
  {
  }

  // ---- new branches ----

  lemma {:induction false} NoMembersNoRows(records: seq<Row>, members: seq<Membership>, thread: ThreadId,
                                           branch: BranchId)
    requires forall m :: m in members ==> m.branch != branch
    ensures MemberRows(records, members, thread, branch) == []
  {
    if records != [] { NoMembersNoRows(records[..|records| - 1], members, thread, branch); }
  }

  lemma NewBranchHasNoMembers(t: Tables, s: Store, branch: BranchId)
    requires MembersRepresent(t, s) && StoreOk(s) && branch !in s.branches
    ensures forall m :: m in t.members ==> m.branch != branch
  {
    forall m | m in t.members ensures m.branch != branch {
      assert MembershipOf(t.members, m.id) == Some(m);
      assert Placed(s, m.id);
    }
  }

  lemma CreateBranchRefines(t: Tables, s: Store, thread: ThreadId, branch: BranchId, source: CheckpointId)
    requires Represents(t, s) && StoreOk(s)
    ensures CreateBranchTx(t, thread, branch, source).reply == OpenBranch(s, thread, branch, source).reply
    ensures Represents(CreateBranchTx(t, thread, branch, source).tables, OpenBranch(s, thread, branch, source).store)
  {
    hide StoreOk, RowsRepresent, ThreadRows, MemberRows, MembersRepresent, ThreadRepresents, BranchRepresents;
    RowIsAbsent(t, s, source);
    BranchKeys(t, s, branch);
    var t', s' := CreateBranchTx(t, thread, branch, source).tables, OpenBranch(s, thread, branch, source).store;
    if s' != s {
      SourceId(s, source);
      NewBranchHasNoMembers(t, s, branch);
      NoMembersNoRows(t.records, t.members, thread, branch);
      RowsIgnoreHeads(t, s, t', s');
      assert MembersRepresent(t', s') by { BranchesDoNotMatter(t, s, t', s', thread); }
      forall other ensures ThreadRepresents(t', s', other) { BranchesDoNotMatter(t, s, t', s', other); }
      forall other ensures BranchRepresents(t', s', other) {
        if other == branch { NewBranchRepresents(t', s', thread, branch, s.byId[source]); }
        else { OtherBranchRepresents(t, s, t', s', other); }
      }
    }
  }

  lemma SourceId(s: Store, id: CheckpointId)
    requires StoreOk(s) && id in s.byId
    ensures s.byId[id].id == id
  {
    assert Placed(s, id);
  }

  lemma BranchKeys(t: Tables, s: Store, branch: BranchId)
    requires Represents(t, s)
    ensures branch in t.branches <==> branch in s.branches
  {
    assert BranchRepresents(t, s, branch);
  }

  lemma BranchesDoNotMatter(t: Tables, s: Store, t': Tables, s': Store, thread: ThreadId)
    requires Represents(t, s)
    requires t'.records == t.records && t'.members == t.members && t'.heads == t.heads
    requires s'.byId == s.byId && s'.recordBranches == s.recordBranches && s'.histories == s.histories
    ensures MembersRepresent(t', s') && ThreadRepresents(t', s', thread)
  {
    assert ThreadRepresents(t, s, thread);
  }

  lemma NewBranchRepresents(t: Tables, s: Store, thread: ThreadId, branch: BranchId, source: CheckpointRecord)
    requires branch in t.branches && t.branches[branch] == BranchRow(thread, source.id, source.id)
    requires branch in s.branches && s.branches[branch] == Branch(thread, [source])
    requires MemberRows(t.records, t.members, thread, branch) == []
    ensures BranchRepresents(t, s, branch)
  {
    assert Rows([source][1..]) == [];
  }

  lemma OtherBranchRepresents(t: Tables, s: Store, t': Tables, s': Store, branch: BranchId)
    requires BranchRepresents(t, s, branch)
    requires t'.records == t.records && t'.members == t.members
    requires branch in t'.branches <==> branch in t.branches
    requires branch in t.branches ==> t'.branches[branch] == t.branches[branch]
    requires branch in s'.branches <==> branch in s.branches
    requires branch in s.branches ==> s'.branches[branch] == s.branches[branch]
    ensures BranchRepresents(t', s', branch)
  {
  }

  // ---- reads ----

  lemma {:induction false} DecodeRowsOf(h: History)
    requires forall k :: 0 <= k < |h| ==> TryFromParts(h[k]).Ok?
    ensures DecodeRows(Rows(h)) == Ok(h)
  {
    if h != [] {
      DecodeRowsOf(h[..|h| - 1]);
      assert Rows(h)[..|h| - 1] == Rows(h[..|h| - 1]);
      assert h == h[..|h| - 1] + [h[|h| - 1]];
    }
  }

  lemma KnownIsReadable(t: Tables, s: Store, h: History)
    requires RowsRepresent(t, s) && Known(s, h)
    ensures forall k :: 0 <= k < |h| ==> DecodesTo(RowOf(t.records, h[k].id), h[k])
  {
  }

  lemma HistoryRefines(t: Tables, s: Store, thread: ThreadId)
    requires Represents(t, s) && StoreOk(s)
    ensures HistoryQuery(t, thread) == Ok(ThreadHistory(s, thread))
    ensures LatestQuery(t, thread) == Ok(Latest(s, thread))
  {
    hide RowsRepresent, MembersRepresent, BranchRepresents, ThreadRows, Fetch;
    var h := ThreadHistory(s, thread);
    assert ThreadOk(s, thread) && ThreadRepresents(t, s, thread);
    KnownIsReadable(t, s, h);
    forall k | 0 <= k < |h| ensures TryFromParts(h[k]).Ok? { assert DecodesTo(RowOf(t.records, h[k].id), h[k]); }
    DecodeRowsOf(h);
    if h != [] { FetchFinds(t, s, h[|h| - 1].id); }
  }

  lemma GetRefines(t: Tables, s: Store, thread: ThreadId, id: CheckpointId)
    requires Represents(t, s)
    ensures GetQuery(t, thread, id) == Ok(Get(s, thread, id))
  {
    hide MembersRepresent, BranchRepresents, ThreadRepresents;
    FetchFinds(t, s, id);
    RowIsAbsent(t, s, id);
  }

  lemma {:induction false} NothingIsMissing(t: Tables, s: Store, members: seq<Membership>, thread: ThreadId,
                                            branch: BranchId)
    requires RowsRepresent(t, s) && forall m :: m in members ==> m.id in s.byId
    ensures MissingMembers(t.records, members, thread, branch) == []
  {
    if members != [] {
      NothingIsMissing(t, s, members[..|members| - 1], thread, branch);
      assert members[|members| - 1] in members;
    }
  }

  lemma MembersAreStored(t: Tables, s: Store)
    requires MembersRepresent(t, s)
    ensures forall m :: m in t.members ==> m.id in s.byId
  {
    forall m | m in t.members ensures m.id in s.byId { assert MembershipOf(t.members, m.id) == Some(m); }
  }

  /** Tables reached by these operations pass every self-check of the branch
      query, which answers with the branch's history. */
  lemma ReachedBranchIsSound(t: Tables, s: Store, branch: BranchId)
    requires Represents(t, s) && StoreOk(s) && branch in s.branches
    ensures Sound(t, s.branches[branch].thread, branch, s.branches[branch].history)
  {
    hide RowsRepresent, MembersRepresent, ThreadRepresents, MemberRows, MissingMembers;
    assert BranchRepresents(t, s, branch) && BranchOk(s, branch);
    KnownIsReadable(t, s, s.branches[branch].history);
    MembersAreStored(t, s);
    NothingIsMissing(t, s, t.members, s.branches[branch].thread, branch);
  }

  lemma BranchReadsRefine(t: Tables, s: Store, thread: ThreadId, branch: BranchId)
    requires Represents(t, s) && StoreOk(s)
    ensures HistoryOrEmpty(BranchHistoryQuery(t, thread, branch)) == Ok(BranchHistory(s, thread, branch))
    ensures NewestOf(BranchHistoryQuery(t, thread, branch)) == Ok(Newest(BranchHistory(s, thread, branch)))
  {
    hide RowsRepresent, MembersRepresent, ThreadRepresents, StoreOk, Sound, ScanRows;
    assert BranchRepresents(t, s, branch);
    if branch in s.branches && s.branches[branch].thread == thread {
      ReachedBranchIsSound(t, s, branch);
      UniqueOf(t, s);
      BranchHistoryIsExact(t, thread, branch, s.branches[branch].history);
    }
  }

  lemma UniqueOf(t: Tables, s: Store)
    requires RowsRepresent(t, s)
    ensures UniqueRows(t.records)
  {
  }

  // ---- every operation sequence ----

  /** Only structurally valid records can be built, so only those are saved. */
  ghost predicate Storable(op: Op) {
    match op
    case SaveOp(record) => TryFromParts(record).Ok?
    case SaveBranchOp(_, record) => TryFromParts(record).Ok?
    case _ => true
  }

  predicate MisownedOp(s: Store, op: Op) { op.SaveBranchOp? && Misowned(s, op.branch, op.record) }

  lemma StepRefines(t: Tables, s: Store, op: Op)
    requires Represents(t, s) && StoreOk(s) && Storable(op)
    ensures Represents(SqlStep(t, op).tables, Step(s, op).store)
    ensures SqlStep(t, op).reply
            == if MisownedOp(s, op) then Wrote(Err(WriteFailed(MisownedFault(s, op.branch, op.record))))
               else Step(s, op).reply
  {
    hide Represents, StoreOk, SaveTx, SaveBranchTx, CreateBranchTx, Insert, InsertBranch, OpenBranch,
         BranchHistoryQuery, HistoryQuery, LatestQuery, GetQuery, TryFromParts;
    match op
    case SaveOp(record) => SaveRefines(t, s, record);
    case SaveBranchOp(branch, record) => SaveBranchRefines(t, s, branch, record);
    case CreateBranchOp(thread, branch, source) => CreateBranchRefines(t, s, thread, branch, source);
    case LatestOp(thread) => HistoryRefines(t, s, thread);
    case GetOp(thread, id) => GetRefines(t, s, thread, id);
    case HistoryOp(thread) => HistoryRefines(t, s, thread);
    case BranchHeadOp(thread, branch) => BranchReadsRefine(t, s, thread, branch);
    case BranchHistoryOp(thread, branch) => BranchReadsRefine(t, s, thread, branch);
  }

  lemma {:induction false} RunsRepresent(ops: seq<Op>)
    requires forall k :: 0 <= k < |ops| ==> Storable(ops[k])
    ensures Represents(SqlAfter(EMPTY_TABLES, ops), After(EMPTY_STORE, ops)) && StoreOk(After(EMPTY_STORE, ops))
  {
    hide Represents, StoreOk, SqlStep, Step, Storable;
    if ops == [] {
      EmptyRepresents();
      EmptyStoreIsOk();
    } else {
      var before, op := ops[..|ops| - 1], ops[|ops| - 1];
      RunsRepresent(before);
      StepRefines(SqlAfter(EMPTY_TABLES, before), After(EMPTY_STORE, before), op);
      StepKeepsStore(After(EMPTY_STORE, before), op);
    }
  }

  /** After every sequence of operations both stores give the same answer - same
      value, same conflict kind - to the next one, and no constraint, trigger or
      corruption check of the tables fires, except to a misowned repeat: the
      in-memory store calls that an idempotency conflict, SQLite a corrupt
      branch. Neither writes anything for it. */
  lemma SqliteRefinesMemory(ops: seq<Op>, op: Op)
    requires forall k :: 0 <= k < |ops| ==> Storable(ops[k])
    requires Storable(op)
    ensures SqlStep(SqlAfter(EMPTY_TABLES, ops), op).reply == Step(After(EMPTY_STORE, ops), op).reply
            <==> !MisownedOp(After(EMPTY_STORE, ops), op)
    ensures Damaged(SqlStep(SqlAfter(EMPTY_TABLES, ops), op).reply) <==> MisownedOp(After(EMPTY_STORE, ops), op)
    ensures MisownedOp(After(EMPTY_STORE, ops), op) ==>
              && Step(After(EMPTY_STORE, ops), op)
                 == Answer(After(EMPTY_STORE, ops), Wrote(Err(IdempotencyConflict(op.record.id))))
              && SqlStep(SqlAfter(EMPTY_TABLES, ops), op).tables == SqlAfter(EMPTY_TABLES, ops)
  {
    hide Represents, StoreOk, SqlStep, Storable, SqlAfter, After, Insert, InsertBranch, OpenBranch;
    RunsRepresent(ops);
    StepRefines(SqlAfter(EMPTY_TABLES, ops), After(EMPTY_STORE, ops), op);
    MemoryIsNeverDamaged(After(EMPTY_STORE, ops), op);
    if MisownedOp(After(EMPTY_STORE, ops), op) {
      MisownedWritesNothing(SqlAfter(EMPTY_TABLES, ops), After(EMPTY_STORE, ops), op);
    }
  }

  lemma MisownedWritesNothing(t: Tables, s: Store, op: Op)
    requires MisownedOp(s, op) && Represents(t, s)
    ensures Step(s, op) == Answer(s, Wrote(Err(IdempotencyConflict(op.record.id))))
    ensures SqlStep(t, op).tables == t
  {
    hide MembersRepresent, ThreadRepresents, BranchRepresents;
    FetchFinds(t, s, op.record.id);
  }

  /** The exception is real: write a branch record, then write its id again to
      that branch as a record of another thread. */
  lemma MisownedRepeatHappens(snapshot: Encoded, run: RunId)
    ensures var root := CheckpointRecord(CURRENT_FORMAT, 1, "a", run, None, None, 0, 0, snapshot, [], true, None);
            var member := root.(id := 2, parentId := Some(1));
            var ops := [SaveOp(root), CreateBranchOp("a", 7, 1), SaveBranchOp(7, member)];
            var repeat := SaveBranchOp(7, member.(threadId := "b"));
            && (forall k :: 0 <= k < |ops| ==> Storable(ops[k])) && Storable(repeat)
            && MisownedOp(After(EMPTY_STORE, ops), repeat)
  {
    var root := CheckpointRecord(CURRENT_FORMAT, 1, "a", run, None, None, 0, 0, snapshot, [], true, None);
    var member := root.(id := 2, parentId := Some(1));
    var ops := [SaveOp(root), CreateBranchOp("a", 7, 1), SaveBranchOp(7, member)];
    assert ops[..2] == [SaveOp(root), CreateBranchOp("a", 7, 1)];
    assert ops[..2][..1] == [SaveOp(root)];
    assert After(EMPTY_STORE, [SaveOp(root)]) == Insert(EMPTY_STORE, root).store;
    assert "b"[0] != "a"[0];
  }

  predicate Damaged(reply: Reply) {
    match reply
    case Wrote(r) => r.Err? && r.error.WriteFailed?
    case Branched(r) => r.Err? && r.error.WriteFailed?
    case Found(r) => r.Err?
    case Listed(r) => r.Err?
  }

  lemma MemoryIsNeverDamaged(s: Store, op: Op)
    ensures !Damaged(Step(s, op).reply)
  {
  }
}
