/** Invoke, resume, replay and fork, each a load and one execution
    (crates/group-agent-core/src/runtime.rs:311-366, 1069-1327, 1334-1518,
    1525-1703). */
module EntryPoints {
  import opened Base
  import opened Domain
  import opened Transitions
  import opened Compiled
  import opened Runtime
  import opened Frontiers
  import opened Runs
  import opened Records
  import opened Checkpoints
  import opened CheckpointStore
  import opened Saving
  import opened Loading
  import opened Execution
  import opened LineageSoundness
  import opened Reachability

  /** The execution continues exactly what the record remembers, expecting the
      record at the head it saves to. */
  ghost predicate Continues(job: Job, codec: Codec, record: CheckpointRecord, value: Option<ResumeValue>)
    requires JobOk(job)
  {
    && LoadsAs(job.g, codec, record, job.p, job.resume) && ValueOf(job.resume) == value
    && job.start.parent == Some(record.id) && !job.saveEmpty
  }

  /** What a run started from a record is handed: the caller's value, for the node
      the record is interrupted at and for the first super-step alone, or nothing;
      and every super-step of it, and how it ends, is as `IsRunOf` describes. */
  ghost predicate HandsOver(job: Job, record: CheckpointRecord, value: Option<ResumeValue>)
    requires JobOk(job)
  {
    && record.graphVersion.Some? && record.graphVersion == job.g.version
    && (value.None? ==> record.interrupt.None? && job.resume.None?)
    && (value.Some? ==>
          && record.interrupt.Some? && |job.p.frontier| == 1 && job.p.frontier[0] < |job.g.items|
          && PathAt(job.g, job.p.frontier[0]) == record.interrupt.value.nodePath
          && job.resume == Some(Runtime.Resume.Resume(job.p.frontier[0], value.value)))
    && RunsAsDescribed(job)
  }

  /** The job is the caller's: its graph, state operations, codec, destination,
      environment and budget. */
  ghost predicate IsJobOf(job: Job, g: CompiledGraph, ops: StateOps, codec: Codec, dest: Destination,
                          env: Environment, maxSteps: nat)
  {
    job.g == g && job.ops == ops && job.codec == codec && job.dest == dest && job.env == env && job.maxSteps == maxSteps
  }

  /** The outcome is that of a run continued from the record with the value. */
  ghost predicate Carries(job: Job, record: CheckpointRecord, value: Option<ResumeValue>, n: nat, outcome: Outcome,
                          after: Store)
  {
    && JobOk(job) && Continues(job, job.codec, record, value) && HandsOver(job, record, value)
    && Explains(job, n, outcome, after)
  }

  lemma ContinuedCarries(job: Job, record: CheckpointRecord, value: Option<ResumeValue>, n: nat, outcome: Outcome,
                         after: Store)
    requires JobOk(job) && Continues(job, job.codec, record, value) && Explains(job, n, outcome, after)
    ensures Carries(job, record, value, n, outcome, after)
  {
    hide JobOk, LoadsAs, RunsAsDescribed, Explains;
    var codec := job.codec;
    TraceMeans(job);
    LoadedFits(job.g, codec, record, job.p, job.resume);
    ValueMatches(job.g, codec, record, job.p, job.resume);
  }

  lemma ValueMatches(g: CompiledGraph, codec: Codec, record: CheckpointRecord, loaded: Position,
                     resume: Option<Resume>)
    requires LoadsAs(g, codec, record, loaded, resume)
    ensures resume.Some? <==> record.interrupt.Some?
  {
  }

  lemma LoadedIsFrontier(g: CompiledGraph, codec: Codec, record: CheckpointRecord, loaded: Loaded)
    requires LoadsAs(g, codec, record, loaded.p, loaded.resume)
    ensures FrontierOk(g, loaded.p.frontier)
  {
    AcceptedIsFrontier(g, record, loaded.p.frontier);
  }

  lemma StoredUnderItsId(s: Store, id: CheckpointId)
    requires StoreOk(s) && id in s.byId
    ensures s.byId[id].id == id
  {
    assert Placed(s, id);
  }

  lemma HeadIsStored(s: Store, dest: Destination)
    requires StoreOk(s)
    ensures HeadOfDestination(s, dest).Some? ==> HeadOfDestination(s, dest).value in s.byId
  {
    assert ThreadOk(s, dest.thread);
    if dest.branch.Some? && dest.branch.value in s.branches { assert BranchOk(s, dest.branch.value); }
  }

  /** A fresh run from the graph's entry. It never panics, and turns a reachable
      store into a reachable one. */
  method Invoke(g: CompiledGraph, ops: StateOps, codec: Codec, checkpoints: RunCheckpoints, env: Environment,
                initial: State, maxSteps: nat) returns (outcome: Outcome, ghost n: nat)
    requires WellFormed(g) && CompletesAll(env.schedule) && StoreOk(checkpoints.store.State())
    modifies checkpoints, checkpoints.store
    ensures StoreOk(checkpoints.store.State())
    ensures match Settle(g, TargetIndices(g.entry), initial)
            case Misrouted(node, error) =>
              && outcome == RunFailed(RouteFailed(node, 0, error))
              && checkpoints.store.State() == old(checkpoints.store.State())
            case Unsettled => outcome == RunSpins && checkpoints.store.State() == old(checkpoints.store.State())
            case Settled(frontier, _) =>
              FrontierOk(g, frontier) &&
              var job := Job(g, ops, codec, checkpoints.dest, env,
                             Progress(old(checkpoints.store.State()), old(checkpoints.expectedParent), 0),
                             Position(initial, 0, 0, frontier), None, maxSteps, true);
              Explains(job, n, outcome, checkpoints.store.State()) && RunsAsDescribed(job)
    ensures !outcome.RunPanicked?
    ensures old(checkpoints.expectedParent).None?
            && Reachable(System(g, ops, codec), old(checkpoints.store.State())) ==>
              Reachable(System(g, ops, codec), checkpoints.store.State())
  {
    hide WellFormed, CompletesAll, StoreOk, Explains, Normalize, Candidate, Harmless, Reachable, RunsAsDescribed;
    EntryFrontierIsOk(g, initial);
    EntryIsCandidate(g);
    n := 0;
    var entered := NormalizeFrontier(g, TargetIndices(g.entry), initial);
    match entered
    case Misrouted(node, error) => return RunFailed(RouteFailed(node, 0, error)), n;
    case Unsettled => return RunSpins, n;
    case Settled(frontier, _) =>
      ghost var job := Job(g, ops, codec, checkpoints.dest, env,
                           Progress(checkpoints.store.State(), checkpoints.expectedParent, 0),
                           Position(initial, 0, 0, frontier), None, maxSteps, true);
      outcome, n := Execute(g, ops, codec, checkpoints, env, Position(initial, 0, 0, frontier), None, maxSteps, true);
      HarmlessNeverPanics(job, n, outcome, checkpoints.store.State());
      InvokeReaches(job, n, outcome, checkpoints.store.State(), initial);
  }

  lemma EntryIsCandidate(g: CompiledGraph)
    requires WellFormed(g)
    ensures Candidate(g, TargetIndices(g.entry))
  {
  }

  lemma InvokeReaches(job: Job, n: nat, outcome: Outcome, after: Store, initial: State)
    requires JobOk(job) && Explains(job, n, outcome, after) && job.resume.None?
    requires EntryPosition(job.g, initial) == Some(job.p)
    ensures job.start.parent.None? && Reachable(SystemOf(job), job.start.store) ==> Reachable(SystemOf(job), after)
  {
    hide JobOk, Explains, EntryPosition, Act, Standing;
    if job.start.parent.None? && Reachable(SystemOf(job), job.start.store) {
      var actions :| Acts(SystemOf(job), actions).store == job.start.store;
      if job.dest.mode.Enabled? {
        InvocationStands(job, initial, actions);
        ExecutionIsReachable(job, n, outcome, after, actions + [InvokeRun(job.dest.run, job.dest, initial)],
                             job.dest.run);
      } else {
        ReadOnlyLeavesTheStore(job, n, outcome, after);
      }
    }
  }

  /** The record is the last one of the thread's or the branch's history. */
  ghost predicate Heads(s: Store, dest: Destination, id: CheckpointId) {
    match dest.branch
    case None =>
      && dest.thread in s.histories && |s.histories[dest.thread]| > 0
      && s.histories[dest.thread][|s.histories[dest.thread]| - 1].id == id
    case Some(branch) =>
      && branch in s.branches && s.branches[branch].thread == dest.thread && |s.branches[branch].history| > 0
      && s.branches[branch].history[|s.branches[branch].history| - 1].id == id
  }

  lemma HeadOfDestinationHeads(s: Store, dest: Destination)
    ensures forall id: CheckpointId :: HeadOfDestination(s, dest) == Some(id) <==> Heads(s, dest, id)
  {
  }

  /** Reads and decodes what a resume continues: the latest record of the
      destination, or a named one that must still be the latest. */
  method LoadHead(codec: Codec, store: InMemoryCheckpointStore, dest: Destination, target: Option<CheckpointId>)
    returns (r: Result<Checkpoint, LoadFault>)
    requires StoreOk(store.State())
    ensures r.Ok? ==>
              && HeadOfDestination(store.State(), dest).Some?
              && var id := HeadOfDestination(store.State(), dest).value;
                 && (target.Some? ==> target.value == id) && Heads(store.State(), dest, id)
                 && id in store.State().byId && store.State().byId[id].id == id
                 && FromRecord(codec, store.State().byId[id]) == Ok(r.value)
    ensures r == Err(ResumeConflict(HeadOfDestination(store.State(), dest))) <==>
              Superseded(codec, store.State(), dest, target)
    ensures r == Err(CheckpointNotFound) <==> NothingToResume(store.State(), dest, target)
    ensures r.Err? ==>
              r.error.CheckpointNotFound? || r.error.BranchMissing? || r.error.ResumeConflict? || r.error.LoadFailed?
  {
    hide StoreOk, HeadOfDestination, FromRecord, Heads;
    HeadOfDestinationHeads(store.State(), dest);
    HeadIsStored(store.State(), dest);
    var head := HeadOfDestination(store.State(), dest);
    if target.Some? {
      var found := Get(store.State(), dest.thread, target.value);
      if found.None? { return Err(CheckpointNotFound); }
      var named := FromRecord(codec, found.value);
      if named.Err? { return Err(LoadFailed(named.error)); }
    }
    if head.None? {
      if dest.branch.Some? { return Err(BranchMissing); }
      return Err(if target.Some? then ResumeConflict(None) else CheckpointNotFound);
    }
    StoredUnderItsId(store.State(), head.value);
    var latest := FromRecord(codec, store.byId[head.value]);
    if latest.Err? { return Err(LoadFailed(latest.error)); }
    if target.Some? && head != target { return Err(ResumeConflict(head)); }
    r := Ok(latest.value);
  }

  /** The named record is there, but it is not the head any more. */
  predicate Superseded(codec: Codec, s: Store, dest: Destination, target: Option<CheckpointId>) {
    var head := HeadOfDestination(s, dest);
    && target.Some? && Decodes(codec, Get(s, dest.thread, target.value)) && head != target
    && (if head.Some? then Decodes(codec, Find(s, head.value)) else dest.branch.None?)
  }

  predicate NothingToResume(s: Store, dest: Destination, target: Option<CheckpointId>) {
    if target.Some? then Get(s, dest.thread, target.value).None?
    else HeadOfDestination(s, dest).None? && dest.branch.None?
  }

  function Find(s: Store, id: CheckpointId): Option<CheckpointRecord> {
    if id in s.byId then Some(s.byId[id]) else None
  }

  predicate Decodes(codec: Codec, found: Option<CheckpointRecord>) {
    found.Some? && FromRecord(codec, found.value).Ok?
  }

  /** Continues the head of a thread or branch. Any record validation accepts can
      be continued; over a reachable store the run never panics, and leaves a
      reachable store. */
  method Resume(g: CompiledGraph, ops: StateOps, codec: Codec, store: InMemoryCheckpointStore, dest: Destination,
                target: Option<CheckpointId>, value: Option<ResumeValue>, maxSteps: nat, env: Environment)
    returns (r: Result<Outcome, LoadFault>, ghost job: Option<Job>, ghost n: nat)
    requires WellFormed(g) && CompletesAll(env.schedule) && dest.mode.Enabled?
    requires StoreOk(store.State()) && StoredPaths(store.State())
    modifies store
    ensures StoreOk(store.State())
    ensures r.Err? ==> store.State() == old(store.State())
    ensures r.Ok? ==>
              && job.Some? && IsJobOf(job.value, g, ops, codec, dest, env, maxSteps)
              && job.value.start.store == old(store.State())
              && HeadOfDestination(old(store.State()), dest).Some?
              && var id := HeadOfDestination(old(store.State()), dest).value;
                 && (target.Some? ==> target.value == id) && Heads(old(store.State()), dest, id)
                 && id in old(store.State()).byId
                 && Carries(job.value, old(store.State()).byId[id], value, n, r.value, store.State())
    ensures r.Err? && r.error.Incompatible? ==>
              && HeadOfDestination(old(store.State()), dest).Some?
              && HeadOfDestination(old(store.State()), dest).value in old(store.State()).byId
              && RefusedBecause(g, old(store.State()).byId[HeadOfDestination(old(store.State()), dest).value],
                                r.error.reason)
    ensures r == Err(ResumeConflict(HeadOfDestination(old(store.State()), dest))) <==>
              Superseded(codec, old(store.State()), dest, target)
    ensures r == Err(CheckpointNotFound) <==> NothingToResume(old(store.State()), dest, target)
    ensures SystemOk(System(g, ops, codec)) && Reachable(System(g, ops, codec), old(store.State())) ==>
              && Reachable(System(g, ops, codec), store.State())
              && (r.Ok? ==> !r.value.RunPanicked?)
  {
    hide WellFormed, CompletesAll, StoreOk, Explains, LoadsAs, Candidate, Reachable, HandsOver, Carries, RefusedBecause,
         HeadOfDestination, Heads, StoredPaths, RoundTrips, Superseded, NothingToResume;
    job, n := None, 0;
    var head := LoadHead(codec, store, dest, target);
    if head.Err? { return Err(head.error), job, n; }
    ghost var before := store.State();
    var id := head.value.id;
    FromRecordId(codec, store.byId[HeadOfDestination(store.State(), dest).value]);
    PathsOfStored(before, id);
    var record := store.byId[id];
    var loaded := LoadPosition(g, codec, record, head.value, value);
    if loaded.Err? { return Err(loaded.error), job, n; }
    LoadedIsFrontier(g, codec, record, loaded.value);
    var checkpoints := new RunCheckpoints(dest, store, Some(id));
    job := Some(Job(g, ops, codec, dest, env, Progress(store.State(), Some(id), 0), loaded.value.p, loaded.value.resume,
                    maxSteps, false));
    var outcome;
    outcome, n := Execute(g, ops, codec, checkpoints, env, loaded.value.p, loaded.value.resume, maxSteps, false);
    ContinuedCarries(job.value, record, value, n, outcome, store.State());
    ResumeReaches(job.value, n, outcome, store.State(), id);
    r := Ok(outcome);
  }

  lemma PathsOfStored(s: Store, id: CheckpointId)
    requires StoredPaths(s)
    ensures id in s.byId ==> RealPaths(s.byId[id].nextFrontier)
  {
  }

  /** A record of a reachable store continues without panicking. */
  lemma LoadedNeverPanics(job: Job, n: nat, outcome: Outcome, after: Store, before: Store, id: CheckpointId)
    requires JobOk(job) && Explains(job, n, outcome, after) && SystemOk(SystemOf(job))
    requires Reachable(SystemOf(job), before) && id in before.byId
    requires LoadsAs(job.g, job.codec, before.byId[id], job.p, job.resume)
    ensures !outcome.RunPanicked?
  {
    hide JobOk, Explains, Reachable, Accepts, Harmless, SystemOk;
    ReachableHoldsHarmless(SystemOf(job), before);
    HarmlessNeverPanics(job, n, outcome, after);
  }

  lemma ResumeReaches(job: Job, n: nat, outcome: Outcome, after: Store, id: CheckpointId)
    requires JobOk(job) && Explains(job, n, outcome, after) && job.dest.mode.Enabled? && !job.saveEmpty
    requires job.start.parent == Some(id) && id in job.start.store.byId
    requires HeadOfDestination(job.start.store, job.dest) == Some(id)
    requires LoadsAs(job.g, job.codec, job.start.store.byId[id], job.p, job.resume)
    ensures SystemOk(SystemOf(job)) && Reachable(SystemOf(job), job.start.store) ==>
              Reachable(SystemOf(job), after) && !outcome.RunPanicked?
  {
    hide JobOk, Explains, LoadsAs, Act, Standing, HeadOfDestination, SystemOk;
    if SystemOk(SystemOf(job)) && Reachable(SystemOf(job), job.start.store) {
      LoadedNeverPanics(job, n, outcome, after, job.start.store, id);
      var actions :| Acts(SystemOf(job), actions).store == job.start.store;
      ResumptionStands(job, id, actions);
      ExecutionIsReachable(job, n, outcome, after,
                           actions + [ResumeRun(job.dest.run, job.dest, id, job.p, job.resume)], job.dest.run);
    }
  }

  /** Reads and decodes one named record of a thread. */
  method LoadNamed(codec: Codec, store: InMemoryCheckpointStore, thread: ThreadId, id: CheckpointId)
    returns (r: Result<Checkpoint, LoadFault>)
    requires StoreOk(store.State())
    ensures r.Ok? ==>
              && id in store.State().byId && store.State().byId[id].threadId == thread
              && store.State().byId[id].id == id && FromRecord(codec, store.State().byId[id]) == Ok(r.value)
    ensures r == Err(CheckpointNotFound) <==> Get(store.State(), thread, id).None?
    ensures r.Err? ==> r.error.CheckpointNotFound? || r.error.LoadFailed?
  {
    hide StoreOk, FromRecord;
    var found := Get(store.State(), thread, id);
    if found.None? { return Err(CheckpointNotFound); }
    StoredUnderItsId(store.State(), id);
    var decoded := FromRecord(codec, found.value);
    if decoded.Err? { return Err(LoadFailed(decoded.error)); }
    r := Ok(decoded.value);
  }

  /** Re-executes from any stored record and writes nothing. */
  method Replay(g: CompiledGraph, ops: StateOps, codec: Codec, store: InMemoryCheckpointStore, thread: ThreadId,
                id: CheckpointId, run: RunId, value: Option<ResumeValue>, maxSteps: nat, env: Environment)
    returns (r: Result<Outcome, LoadFault>, ghost job: Option<Job>, ghost n: nat)
    requires WellFormed(g) && CompletesAll(env.schedule)
    requires StoreOk(store.State()) && StoredPaths(store.State())
    modifies store
    ensures store.State() == old(store.State())
    ensures r.Ok? ==>
              && job.Some?
              && IsJobOf(job.value, g, ops, codec, Destination(ReadOnly, EverySuperstep, thread, None, run), env,
                         maxSteps)
              && id in old(store.State()).byId
              && Carries(job.value, old(store.State()).byId[id], value, n, r.value, store.State())
              && !r.value.RunInterrupted? && !r.value.RunUnsaved?
    ensures r.Err? && r.error.Incompatible? ==>
              id in old(store.State()).byId && RefusedBecause(g, old(store.State()).byId[id], r.error.reason)
    ensures SystemOk(System(g, ops, codec)) && Reachable(System(g, ops, codec), old(store.State())) && r.Ok? ==>
              !r.value.RunPanicked?
  {
    hide WellFormed, CompletesAll, StoreOk, Explains, LoadsAs, Candidate, Reachable, HandsOver, Carries, RefusedBecause,
         StoredPaths, RoundTrips;
    job, n := None, 0;
    var found := LoadNamed(codec, store, thread, id);
    if found.Err? { return Err(found.error), job, n; }
    ghost var before := store.State();
    PathsOfStored(before, id);
    var record := store.byId[id];
    var loaded := LoadPosition(g, codec, record, found.value, value);
    if loaded.Err? { return Err(loaded.error), job, n; }
    LoadedIsFrontier(g, codec, record, loaded.value);
    var dest := Destination(ReadOnly, EverySuperstep, thread, None, run);
    var checkpoints := new RunCheckpoints(dest, store, Some(id));
    job := Some(Job(g, ops, codec, dest, env, Progress(store.State(), Some(id), 0), loaded.value.p, loaded.value.resume,
                    maxSteps, false));
    var outcome;
    outcome, n := Execute(g, ops, codec, checkpoints, env, loaded.value.p, loaded.value.resume, maxSteps, false);
    ContinuedCarries(job.value, record, value, n, outcome, store.State());
    ReadOnlyLeavesTheStore(job.value, n, outcome, store.State());
    ReplayNeverPanics(job.value, n, outcome, store.State(), before, id);
    r := Ok(outcome);
  }

  lemma ReplayNeverPanics(job: Job, n: nat, outcome: Outcome, after: Store, before: Store, id: CheckpointId)
    requires JobOk(job) && Explains(job, n, outcome, after) && id in before.byId
    requires LoadsAs(job.g, job.codec, before.byId[id], job.p, job.resume)
    ensures SystemOk(SystemOf(job)) && Reachable(SystemOf(job), before) ==> !outcome.RunPanicked?
  {
    hide JobOk, Explains, LoadsAs, Reachable, SystemOk;
    if SystemOk(SystemOf(job)) && Reachable(SystemOf(job), before) {
      LoadedNeverPanics(job, n, outcome, after, before, id);
    }
  }

  lemma OpeningHeads(s: Store, dest: Destination, id: CheckpointId)
    requires StoreOk(s) && dest.branch.Some?
    ensures var forked := OpenBranch(s, dest.thread, dest.branch.value, id);
            && (forked.reply.Err? ==> forked.store == s)
            && (forked.reply.Ok? ==>
                  && dest.branch.value !in s.branches && HeadOfDestination(forked.store, dest) == Some(id)
                  && forked.store.byId == s.byId)
  {
    if id in s.byId { StoredUnderItsId(s, id); }
  }

  /** A new branch from any stored record, and a run that saves to it alone. */
  method Fork(g: CompiledGraph, ops: StateOps, codec: Codec, store: InMemoryCheckpointStore, dest: Destination,
              id: CheckpointId, value: Option<ResumeValue>, maxSteps: nat, env: Environment)
    returns (r: Result<Outcome, LoadFault>, ghost job: Option<Job>, ghost n: nat)
    requires WellFormed(g) && CompletesAll(env.schedule) && dest.mode.Enabled? && dest.branch.Some?
    requires StoreOk(store.State()) && StoredPaths(store.State())
    modifies store
    ensures StoreOk(store.State())
    ensures r.Err? ==> store.State() == old(store.State())
    ensures r.Ok? ==>
              && job.Some? && IsJobOf(job.value, g, ops, codec, dest, env, maxSteps)
              && id in old(store.State()).byId
              && Carries(job.value, old(store.State()).byId[id], value, n, r.value, store.State())
              && job.value.start.store == OpenBranch(old(store.State()), dest.thread, dest.branch.value, id).store
    ensures r.Err? && r.error.Incompatible? ==>
              id in old(store.State()).byId && RefusedBecause(g, old(store.State()).byId[id], r.error.reason)
    ensures r.Ok? ==> dest.branch.value !in old(store.State()).branches
                      && HeadOfDestination(job.value.start.store, dest) == Some(id)
    ensures SystemOk(System(g, ops, codec)) && Reachable(System(g, ops, codec), old(store.State())) ==>
              && Reachable(System(g, ops, codec), store.State())
              && (r.Ok? ==> !r.value.RunPanicked?)
  {
    hide WellFormed, CompletesAll, StoreOk, Explains, LoadsAs, Candidate, Reachable, HandsOver, Carries, RefusedBecause,
         StoredPaths, RoundTrips, OpeningSays, OpenBranch, HeadOfDestination;
    job, n := None, 0;
    var found := LoadNamed(codec, store, dest.thread, id);
    if found.Err? { return Err(found.error), job, n; }
    ghost var before := store.State();
    PathsOfStored(before, id);
    var record := store.byId[id];
    var loaded := LoadPosition(g, codec, record, found.value, value);
    if loaded.Err? { return Err(loaded.error), job, n; }
    LoadedIsFrontier(g, codec, record, loaded.value);
    OpeningHeads(before, dest, id);
    var created := store.CreateBranch(dest.thread, dest.branch.value, id);
    if created.Err? { return Err(BranchCreationFailed), job, n; }
    var checkpoints := new RunCheckpoints(dest, store, Some(id));
    job := Some(Job(g, ops, codec, dest, env, Progress(store.State(), Some(id), 0), loaded.value.p, loaded.value.resume,
                    maxSteps, false));
    var outcome;
    outcome, n := Execute(g, ops, codec, checkpoints, env, loaded.value.p, loaded.value.resume, maxSteps, false);
    ContinuedCarries(job.value, record, value, n, outcome, store.State());
    ForkReaches(job.value, n, outcome, store.State(), before, id);
    r := Ok(outcome);
  }

  lemma ForkReaches(job: Job, n: nat, outcome: Outcome, after: Store, before: Store, id: CheckpointId)
    requires JobOk(job) && Explains(job, n, outcome, after) && job.dest.mode.Enabled? && !job.saveEmpty
    requires job.dest.branch.Some? && job.start.parent == Some(id) && id in before.byId
    requires before.byId[id].threadId == job.dest.thread
    requires LoadsAs(job.g, job.codec, before.byId[id], job.p, job.resume)
    requires OpenBranch(before, job.dest.thread, job.dest.branch.value, id).reply.Ok?
    requires job.start.store == OpenBranch(before, job.dest.thread, job.dest.branch.value, id).store
    ensures SystemOk(SystemOf(job)) && Reachable(SystemOf(job), before) ==>
              Reachable(SystemOf(job), after) && !outcome.RunPanicked?
  {
    hide JobOk, Explains, LoadsAs, Act, Standing, OpenBranch, SystemOk;
    if SystemOk(SystemOf(job)) && Reachable(SystemOf(job), before) {
      LoadedNeverPanics(job, n, outcome, after, before, id);
      var actions :| Acts(SystemOf(job), actions).store == before;
      ForkStands(job, before, id, actions);
      ExecutionIsReachable(job, n, outcome, after,
                           actions + [ForkRun(job.dest.run, job.dest, id, job.p, job.resume)], job.dest.run);
    }
  }
}
