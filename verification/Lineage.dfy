/** Concurrent invocations, resumes and forks over one store: what every stored
    record says about the run that wrote it
    (crates/group-agent-core/src/runtime.rs:420-874, 1303-1326, 1686-1708,
    1992-2113; crates/group-agent-core/src/checkpoint_store.rs:137-218). */
module LineageSoundness {
  import opened Base
  import opened Domain
  import opened Compiled
  import opened Runtime
  import opened Frontiers
  import opened Runs
  import opened Resuming
  import opened Records
  import opened CheckpointStore
  import opened Saving
  import opened Loading

  /** What every run of the system shares. */
  datatype System = System(g: CompiledGraph, ops: StateOps, codec: Codec)

  ghost predicate SystemOk(sys: System) {
    WellFormed(sys.g) && sys.g.version.Some? && RoundTrips(sys.codec)
  }

  // ---- execution between two records ----

  /** One super-step of a checkpointed run. Its completion order does not matter
      when it commits. */
  function NextStep(sys: System, p: Position, resume: Option<Resume>): StepOutcome
    requires RealNodes(sys.g, p.frontier) && p.frontier != []
  {
    Superstep(sys.g, sys.ops, Enabled, p, resume, Identity(|p.frontier|))
  }

  /** The position after n super-steps, if they all commit. */
  ghost function Iterate(sys: System, p: Position, resume: Option<Resume>, n: nat): Option<Position>
    requires WellFormed(sys.g) && FrontierOk(sys.g, p.frontier)
    decreases n
  {
    if n == 0 then Some(p)
    else if p.frontier == [] then None
    else
      SuperstepKeepsFrontier(sys.g, sys.ops, Enabled, p, resume, Identity(|p.frontier|));
      match NextStep(sys, p, resume)
      case Advanced(next, _) => Iterate(sys, next, None, n - 1)
      case _ => None
  }

  lemma {:induction false} IterateAdvances(sys: System, p: Position, resume: Option<Resume>, n: nat)
    requires WellFormed(sys.g) && FrontierOk(sys.g, p.frontier) && Iterate(sys, p, resume, n).Some?
    ensures var q := Iterate(sys, p, resume, n).value;
            FrontierOk(sys.g, q.frontier) && q.superstep == p.superstep + n && q.steps >= p.steps + n
    decreases n
  {
    hide WellFormed, Harmless, Superstep, Candidate;
    if n > 0 {
      var order := Identity(|p.frontier|);
      SuperstepKeepsFrontier(sys.g, sys.ops, Enabled, p, resume, order);
      StepCounts(sys.g, sys.ops, Enabled, p, resume, order);
      IterateAdvances(sys, NextStep(sys, p, resume).next, None, n - 1);
    }
  }

  lemma {:induction false} IterateComposes(sys: System, p: Position, resume: Option<Resume>, n: nat, m: nat)
    requires WellFormed(sys.g) && FrontierOk(sys.g, p.frontier) && Iterate(sys, p, resume, n).Some?
    ensures FrontierOk(sys.g, Iterate(sys, p, resume, n).value.frontier)
    ensures Iterate(sys, Iterate(sys, p, resume, n).value, ResumeAt(resume, n), m) == Iterate(sys, p, resume, n + m)
    decreases n
  {
    hide WellFormed, Harmless, Superstep, Candidate;
    if n > 0 {
      SuperstepKeepsFrontier(sys.g, sys.ops, Enabled, p, resume, Identity(|p.frontier|));
      IterateComposes(sys, NextStep(sys, p, resume).next, None, n - 1, m);
    }
  }

  /** One unbroken run with budget enough passes through every such position. */
  lemma {:induction false} RunPassesThrough(sys: System, p: Position, resume: Option<Resume>, n: nat, limit: nat,
                                            maxSteps: nat, schedule: Schedule)
    requires WellFormed(sys.g) && FrontierOk(sys.g, p.frontier) && CompletesAll(schedule)
    requires Iterate(sys, p, resume, n).Some? && Iterate(sys, p, resume, n).value.steps <= limit
    ensures var trace := Run(sys.g, sys.ops, Enabled, p, resume, limit, maxSteps, schedule);
            n <= |trace.committed| && BoundaryAt(p, trace, n) == Iterate(sys, p, resume, n).value
    decreases n
  {
    hide WellFormed, Harmless, CompletesAll, Superstep, Candidate;
    if n > 0 {
      var order := OrderOf(schedule, p);
      ScheduleIndependence(sys.g, sys.ops, Enabled, p, resume, order, Identity(|p.frontier|));
      SuperstepKeepsFrontier(sys.g, sys.ops, Enabled, p, resume, order);
      StepCounts(sys.g, sys.ops, Enabled, p, resume, order);
      var next := NextStep(sys, p, resume).next;
      IterateAdvances(sys, next, None, n - 1);
      RunPassesThrough(sys, next, None, n - 1, limit, maxSteps, schedule);
      var rest := Run(sys.g, sys.ops, Enabled, next, None, limit, maxSteps, schedule);
      var trace := Run(sys.g, sys.ops, Enabled, p, resume, limit, maxSteps, schedule);
      assert trace.committed == [next] + rest.committed;
    }
  }

  // ---- lineage ----

  /** Where the run that continues `parent` starts: an entry, or exactly what the
      parent record remembers, with a resume value just when it is an interrupt. */
  ghost predicate Origin(sys: System, byId: map<CheckpointId, CheckpointRecord>, parent: Option<CheckpointId>,
                         origin: Position, resume: Option<Resume>)
  {
    && FrontierOk(sys.g, origin.frontier) && Harmless(sys.g, origin.frontier)
    && (parent.None? ==> resume.None? && exists initial :: EntryPosition(sys.g, initial) == Some(origin))
    && (parent.Some? ==>
          && parent.value in byId && RecordsPosition(sys.g, sys.codec, byId[parent.value], origin)
          && (resume.Some? <==> byId[parent.value].interrupt.Some?)
          && (resume.Some? ==> origin.frontier == [resume.value.node]))
  }

  /** A record and the run it came from. */
  datatype Evidence = Evidence(origin: Position, resume: Option<Resume>, moves: nat, p: Position)

  /** The record is the result of executing the graph from its parent's state and
      frontier: a committed boundary at least one super-step on, or a node that
      suspends. */
  ghost predicate Supports(sys: System, byId: map<CheckpointId, CheckpointRecord>, record: CheckpointRecord,
                           e: Evidence)
    requires WellFormed(sys.g)
  {
    && Origin(sys, byId, record.parentId, e.origin, e.resume)
    && Iterate(sys, e.origin, e.resume, e.moves) == Some(e.p)
    && FrontierOk(sys.g, e.p.frontier) && Harmless(sys.g, e.p.frontier)
    && RecordsPosition(sys.g, sys.codec, record, e.p)
    && (record.interrupt.Some? ==>
          e.p.frontier != [] && NextStep(sys, e.p, ResumeAt(e.resume, e.moves)).Suspended?)
    && (record.interrupt.None? ==> e.moves > 0 || (record.parentId.None? && e.p.frontier == []))
  }

  ghost predicate Explained(sys: System, byId: map<CheckpointId, CheckpointRecord>, record: CheckpointRecord)
    requires WellFormed(sys.g)
  {
    exists e :: Supports(sys, byId, record, e)
  }

  // ---- concurrent runs ----

  /** A run in flight: what it last saved or started from, and how far it is. */
  datatype Live = Live(dest: Destination, parent: Option<CheckpointId>, origin: Position, resume: Option<Resume>,
                       moves: nat, at: Position)

  datatype World = World(store: Store, runs: map<RunId, Live>)

  const START_WORLD := World(EMPTY_STORE, map[])

  /** One step of one run. A run may stop at any time: cancelled, out of budget,
      failed or crashed. */
  datatype Action =
    | InvokeRun(run: RunId, dest: Destination, initial: State)
    | ResumeRun(run: RunId, dest: Destination, id: CheckpointId, loaded: Position, resume: Option<Resume>)
    | ForkRun(run: RunId, dest: Destination, id: CheckpointId, loaded: Position, resume: Option<Resume>)
    | SaveEmptyRun(run: RunId, id: CheckpointId)
    | MoveRun(run: RunId, order: seq<nat>, id: CheckpointId)
    | SuspendRun(run: RunId, order: seq<nat>, id: CheckpointId, interruptId: InterruptId)
    | StopRun(run: RunId)

  function Start(dest: Destination, parent: Option<CheckpointId>, origin: Position, resume: Option<Resume>): Live {
    Live(dest, parent, origin, resume, 0, origin)
  }

  ghost function Saves(sys: System, w: World, run: RunId, id: CheckpointId, p: Position, suspension: Option<Suspension>)
    : SaveAttempt
    requires run in w.runs && RealNodes(sys.g, p.frontier)
  {
    SaveBoundary(sys.g, sys.codec, w.runs[run].dest, w.store, w.runs[run].parent, id, p, suspension)
  }

  ghost function StepOf(sys: System, live: Live, order: seq<nat>): StepOutcome
    requires RealNodes(sys.g, live.at.frontier) && live.at.frontier != []
    requires IsCompletionOrder(order, |live.at.frontier|)
  {
    Superstep(sys.g, sys.ops, Enabled, live.at, ResumeAt(live.resume, live.moves), order)
  }

  predicate CanStep(sys: System, w: World, run: RunId, order: seq<nat>) {
    && run in w.runs && RealNodes(sys.g, w.runs[run].at.frontier) && w.runs[run].at.frontier != []
    && IsCompletionOrder(order, |w.runs[run].at.frontier|)
  }

  /** A committed super-step, and its save when the policy asks for one. */
  ghost function Moved(sys: System, w: World, run: RunId, next: Position, id: CheckpointId): World
    requires run in w.runs && RealNodes(sys.g, next.frontier)
  {
    var live := w.runs[run];
    if !ShouldSave(live.dest, next.frontier == []) then
      w.(runs := w.runs[run := live.(moves := live.moves + 1, at := next)])
    else
      var attempt := Saves(sys, w, run, id, next, None);
      match attempt.reply
      case Ok(saved) => World(attempt.store, w.runs[run := Start(live.dest, Some(saved), next, None)])
      case Err(_) => World(attempt.store, w.runs - {run})
  }

  /** An action that is not enabled changes nothing. */
  ghost function Act(sys: System, w: World, action: Action): World {
    match action
    case InvokeRun(run, dest, initial) =>
      var entry := EntryPosition(sys.g, initial);
      if entry.None? || !dest.mode.Enabled? then w
      else w.(runs := w.runs[run := Start(dest, None, entry.value, None)])
    case ResumeRun(run, dest, id, loaded, resume) =>
      if id !in w.store.byId || HeadOfDestination(w.store, dest) != Some(id) || !dest.mode.Enabled?
         || !LoadsAs(sys.g, sys.codec, w.store.byId[id], loaded, resume) then w
      else w.(runs := w.runs[run := Start(dest, Some(id), loaded, resume)])
    case ForkRun(run, dest, id, loaded, resume) =>
      if id !in w.store.byId || w.store.byId[id].threadId != dest.thread || dest.branch.None? || !dest.mode.Enabled?
         || !LoadsAs(sys.g, sys.codec, w.store.byId[id], loaded, resume) then w
      else
        var forked := OpenBranch(w.store, dest.thread, dest.branch.value, id);
        World(forked.store, if forked.reply.Ok? then w.runs[run := Start(dest, Some(id), loaded, resume)] else w.runs)
    case SaveEmptyRun(run, id) =>
      if run !in w.runs || w.runs[run].parent.Some? || w.runs[run].moves > 0 || w.runs[run].at.frontier != [] then w
      else World(Saves(sys, w, run, id, w.runs[run].at, None).store, w.runs - {run})
    case MoveRun(run, order, id) =>
      if !CanStep(sys, w, run, order) then w
      else
        (match StepOf(sys, w.runs[run], order)
         case Advanced(next, _) => if RealNodes(sys.g, next.frontier) then Moved(sys, w, run, next, id) else w
         case _ => w)
    case SuspendRun(run, order, id, interruptId) =>
      if !CanStep(sys, w, run, order) then w
      else
        (match StepOf(sys, w.runs[run], order)
         case Suspended(payload) =>
           var at := w.runs[run].at;
           var suspension := Suspension(interruptId, sys.g.items[at.frontier[0]].path, payload);
           World(Saves(sys, w, run, id, at, Some(suspension)).store, w.runs - {run})
         case _ => w)
    case StopRun(run) => w.(runs := w.runs - {run})
  }

  ghost function ActsFrom(sys: System, w: World, actions: seq<Action>): World {
    if actions == [] then w else Act(sys, ActsFrom(sys, w, actions[..|actions| - 1]), actions[|actions| - 1])
  }

  ghost function Acts(sys: System, actions: seq<Action>): World { ActsFrom(sys, START_WORLD, actions) }

  // ---- the invariant ----

  ghost predicate LiveOk(sys: System, byId: map<CheckpointId, CheckpointRecord>, live: Live)
    requires WellFormed(sys.g)
  {
    && Origin(sys, byId, live.parent, live.origin, live.resume)
    && Iterate(sys, live.origin, live.resume, live.moves) == Some(live.at)
    && FrontierOk(sys.g, live.at.frontier) && Harmless(sys.g, live.at.frontier)
  }

  ghost predicate WorldOk(sys: System, w: World)
    requires WellFormed(sys.g)
  {
    && StoreOk(w.store)
    && (forall id :: id in w.store.byId ==> Explained(sys, w.store.byId, w.store.byId[id]))
    && (forall run :: run in w.runs ==> LiveOk(sys, w.store.byId, w.runs[run]))
  }

  lemma EvidencePersists(sys: System, a: map<CheckpointId, CheckpointRecord>, b: map<CheckpointId, CheckpointRecord>,
                         record: CheckpointRecord)
    requires WellFormed(sys.g) && Grows(a, b) && Explained(sys, a, record)
    ensures Explained(sys, b, record)
  {
    hide WellFormed, Harmless, Iterate, NextStep, RecordsPosition, FrontierOk, EntryPosition;
    var e :| Supports(sys, a, record, e);
    assert Supports(sys, b, record, e);
  }

  lemma LivePersists(sys: System, a: map<CheckpointId, CheckpointRecord>, b: map<CheckpointId, CheckpointRecord>,
                     live: Live)
    requires WellFormed(sys.g) && Grows(a, b) && LiveOk(sys, a, live)
    ensures LiveOk(sys, b, live)
  {
    hide WellFormed, Harmless, Iterate, RecordsPosition, FrontierOk, EntryPosition;
  }

  lemma WriteKeepsWorld(sys: System, w: World, branch: Option<BranchId>, record: CheckpointRecord)
    requires WellFormed(sys.g) && WorldOk(sys, w) && Explained(sys, w.store.byId, record)
    ensures WorldOk(sys, World(Write(w.store, branch, record).store, w.runs))
  {
    hide WellFormed, Harmless, StoreOk, Explained, LiveOk, Write;
    WriteAdds(w.store, branch, record);
    var byId := Write(w.store, branch, record).store.byId;
    EvidencePersists(sys, w.store.byId, byId, record);
    forall id | id in byId ensures Explained(sys, byId, byId[id]) {
      if id in w.store.byId { EvidencePersists(sys, w.store.byId, byId, byId[id]); }
    }
    forall run | run in w.runs ensures LiveOk(sys, byId, w.runs[run]) {
      LivePersists(sys, w.store.byId, byId, w.runs[run]);
    }
  }

  /** What one save of a run in flight does. */
  lemma SaveKeepsWorld(sys: System, w: World, run: RunId, id: CheckpointId, e: Evidence, suspension: Option<Suspension>)
    requires SystemOk(sys) && WorldOk(sys, w) && run in w.runs
    requires Origin(sys, w.store.byId, w.runs[run].parent, e.origin, e.resume)
    requires Iterate(sys, e.origin, e.resume, e.moves) == Some(e.p)
    requires FrontierOk(sys.g, e.p.frontier) && Harmless(sys.g, e.p.frontier)
    requires suspension.Some? ==>
               && |e.p.frontier| == 1 && suspension.value.node == PathAt(sys.g, e.p.frontier[0])
               && NextStep(sys, e.p, ResumeAt(e.resume, e.moves)).Suspended?
    requires suspension.None? ==> e.moves > 0 || (w.runs[run].parent.None? && e.p.frontier == [])
    ensures var attempt := Saves(sys, w, run, id, e.p, suspension);
            && WorldOk(sys, World(attempt.store, w.runs))
            && (attempt.reply.Ok? && suspension.None? ==>
                  Origin(sys, attempt.store.byId, Some(attempt.reply.value), e.p, None))
  {
    hide WellFormed, Harmless, StoreOk, LiveOk, Write, Iterate, NextStep, Candidate, EntryPosition, RecordsPosition,
         TryFromParts;
    var live := w.runs[run];
    var lineage := Lineage(id, live.dest.thread, live.dest.run, live.parent);
    var built := BoundaryToRecord(sys.g, sys.codec, lineage, e.p, suspension);
    if built.Ok? {
      var record := built.value;
      RecordOfBoundary(sys, lineage, e.p, suspension);
      assert Supports(sys, w.store.byId, record, e);
      WriteKeepsWorld(sys, w, live.dest.branch, record);
      WriteAdds(w.store, live.dest.branch, record);
    }
  }

  lemma RecordOfBoundary(sys: System, lineage: Lineage, p: Position, suspension: Option<Suspension>)
    requires SystemOk(sys) && FrontierOk(sys.g, p.frontier)
    requires suspension.Some? ==> |p.frontier| == 1 && suspension.value.node == PathAt(sys.g, p.frontier[0])
    requires BoundaryToRecord(sys.g, sys.codec, lineage, p, suspension).Ok?
    ensures var record := BoundaryToRecord(sys.g, sys.codec, lineage, p, suspension).value;
            && record.id == lineage.id && record.parentId == lineage.parentId
            && (record.interrupt.Some? <==> suspension.Some?)
            && RecordsPosition(sys.g, sys.codec, record, p)
  {
    hide WellFormed, Harmless, Candidate, Accepts, TryFromParts;
    var snapshot := EncodeState(sys.codec, p.state).value;
    var interrupt := EncodeSuspension(sys.codec, suspension).value;
    WrittenBoundaryReadsBack(sys.g, sys.codec, lineage, p, snapshot, interrupt);
  }

  lemma StoppingKeepsWorld(sys: System, w: World, run: RunId)
    requires WellFormed(sys.g) && WorldOk(sys, w)
    ensures WorldOk(sys, World(w.store, w.runs - {run}))
  {
    hide WellFormed, Harmless, StoreOk, LiveOk, Explained;
  }

  lemma StartingKeepsWorld(sys: System, w: World, run: RunId, live: Live)
    requires WellFormed(sys.g) && WorldOk(sys, w) && LiveOk(sys, w.store.byId, live)
    ensures WorldOk(sys, World(w.store, w.runs[run := live]))
  {
    hide WellFormed, Harmless, StoreOk, LiveOk, Explained;
  }

  /** A loaded record starts a run exactly where the run that wrote it stood. */
  lemma LoadingIsOrigin(sys: System, w: World, id: CheckpointId, loaded: Position, resume: Option<Resume>)
    requires SystemOk(sys) && WorldOk(sys, w) && id in w.store.byId
    requires LoadsAs(sys.g, sys.codec, w.store.byId[id], loaded, resume)
    ensures Origin(sys, w.store.byId, Some(id), loaded, resume)
  {
    hide WellFormed, Harmless, StoreOk, LiveOk, Iterate, NextStep, Origin, Candidate;
    var record := w.store.byId[id];
    assert Explained(sys, w.store.byId, record);
    var e :| Supports(sys, w.store.byId, record, e);
    RecordedIsAccepted(sys, record, e.p);
    AcceptedFrontierIsUnique(sys.g, record, e.p.frontier, loaded.frontier);
    assert loaded == e.p;
    OriginOfRecord(sys, w.store.byId, id, loaded, resume);
  }

  lemma OriginOfRecord(sys: System, byId: map<CheckpointId, CheckpointRecord>, id: CheckpointId, p: Position,
                       resume: Option<Resume>)
    requires id in byId && FrontierOk(sys.g, p.frontier) && Harmless(sys.g, p.frontier)
    requires RecordsPosition(sys.g, sys.codec, byId[id], p)
    requires resume.Some? <==> byId[id].interrupt.Some?
    requires resume.Some? ==> p.frontier == [resume.value.node]
    ensures Origin(sys, byId, Some(id), p, resume)
  {
  }

  /** Every recorded frontier is accepted back by the same graph version. */
  lemma RecordedIsAccepted(sys: System, record: CheckpointRecord, p: Position)
    requires SystemOk(sys) && FrontierOk(sys.g, p.frontier) && RecordsPosition(sys.g, sys.codec, record, p)
    ensures Accepts(sys.g, record, p.frontier)
  {
    FrontierSharesNamespace(sys.g, p.frontier);
  }

  // ---- every action keeps it ----

  lemma StepIsNextStep(sys: System, live: Live, order: seq<nat>)
    requires WellFormed(sys.g) && FrontierOk(sys.g, live.at.frontier) && live.at.frontier != []
    requires IsCompletionOrder(order, |live.at.frontier|) && Harmless(sys.g, live.at.frontier)
    ensures var outcome, next := StepOf(sys, live, order), NextStep(sys, live.at, ResumeAt(live.resume, live.moves));
            && (outcome.Advanced? || outcome.Suspended? ==> next == outcome)
            && !outcome.Panicking?
            && (outcome.Advanced? ==>
                  FrontierOk(sys.g, outcome.next.frontier) && Harmless(sys.g, outcome.next.frontier))
            && (outcome.Suspended? ==> |live.at.frontier| == 1)
  {
    hide WellFormed, Harmless, Candidate, RouteAll, Settle, NodeResult, ParallelFault;
    var value := ResumeAt(live.resume, live.moves);
    ScheduleIndependence(sys.g, sys.ops, Enabled, live.at, value, order, Identity(|live.at.frontier|));
    SuperstepKeepsFrontier(sys.g, sys.ops, Enabled, live.at, value, order);
    SuperstepStaysHarmless(sys.g, sys.ops, Enabled, live.at, value, order);
  }

  lemma OneMore(sys: System, byId: map<CheckpointId, CheckpointRecord>, live: Live, next: Position,
                boundaries: seq<SubgraphBoundary>)
    requires WellFormed(sys.g) && LiveOk(sys, byId, live) && live.at.frontier != []
    requires NextStep(sys, live.at, ResumeAt(live.resume, live.moves)) == Advanced(next, boundaries)
    requires FrontierOk(sys.g, next.frontier)
    ensures Iterate(sys, live.origin, live.resume, live.moves + 1) == Some(next)
  {
    hide WellFormed, Harmless, Superstep, Candidate;
    IterateComposes(sys, live.origin, live.resume, live.moves, 1);
    assert Iterate(sys, next, None, 0) == Some(next);
  }

  lemma MoveKeepsWorld(sys: System, w: World, run: RunId, order: seq<nat>, id: CheckpointId)
    requires SystemOk(sys) && WorldOk(sys, w)
    ensures WorldOk(sys, Act(sys, w, MoveRun(run, order, id)))
  {
    hide WellFormed, Harmless, StoreOk, Iterate, NextStep, Candidate, Origin, Superstep, IsCompletionOrder, Explained,
         SaveBoundary;
    if CanStep(sys, w, run, order) {
      var live := w.runs[run];
      assert LiveOk(sys, w.store.byId, live);
      StepIsNextStep(sys, live, order);
      match StepOf(sys, live, order)
      case Advanced(next, boundaries) =>
        OneMore(sys, w.store.byId, live, next, boundaries);
        if ShouldSave(live.dest, next.frontier == []) {
          var e := Evidence(live.origin, live.resume, live.moves + 1, next);
          SaveKeepsWorld(sys, w, run, id, e, None);
          var attempt := Saves(sys, w, run, id, next, None);
          var saved := World(attempt.store, w.runs);
          if attempt.reply.Ok? {
            var renewed := Start(live.dest, Some(attempt.reply.value), next, None);
            StandsAtOrigin(sys, next);
            StartingKeepsWorld(sys, saved, run, renewed);
          } else {
            StoppingKeepsWorld(sys, saved, run);
          }
        } else {
          StartingKeepsWorld(sys, w, run, live.(moves := live.moves + 1, at := next));
        }
      case _ =>
    }
  }

  lemma StandsAtOrigin(sys: System, p: Position)
    requires WellFormed(sys.g) && FrontierOk(sys.g, p.frontier)
    ensures forall resume :: Iterate(sys, p, resume, 0) == Some(p)
  {
  }

  lemma SuspendKeepsWorld(sys: System, w: World, run: RunId, order: seq<nat>, id: CheckpointId,
                          interruptId: InterruptId)
    requires SystemOk(sys) && WorldOk(sys, w)
    ensures WorldOk(sys, Act(sys, w, SuspendRun(run, order, id, interruptId)))
  {
    hide WellFormed, Harmless, StoreOk, Iterate, NextStep, Candidate, Origin, Superstep, IsCompletionOrder, Explained,
         SaveBoundary;
    if CanStep(sys, w, run, order) {
      var live := w.runs[run];
      assert LiveOk(sys, w.store.byId, live);
      StepIsNextStep(sys, live, order);
      match StepOf(sys, live, order)
      case Suspended(payload) =>
        var e := Evidence(live.origin, live.resume, live.moves, live.at);
        var suspension := Some(Suspension(interruptId, sys.g.items[live.at.frontier[0]].path, payload));
        SaveKeepsWorld(sys, w, run, id, e, suspension);
        StoppingKeepsWorld(sys, World(Saves(sys, w, run, id, live.at, suspension).store, w.runs), run);
      case _ =>
    }
  }

  lemma SaveEmptyKeepsWorld(sys: System, w: World, run: RunId, id: CheckpointId)
    requires SystemOk(sys) && WorldOk(sys, w)
    ensures WorldOk(sys, Act(sys, w, SaveEmptyRun(run, id)))
  {
    hide WellFormed, Harmless, StoreOk, Iterate, NextStep, Candidate, Origin, Explained, SaveBoundary;
    if run in w.runs && w.runs[run].parent.None? && w.runs[run].moves == 0 && w.runs[run].at.frontier == [] {
      var live := w.runs[run];
      assert LiveOk(sys, w.store.byId, live);
      SaveKeepsWorld(sys, w, run, id, Evidence(live.origin, live.resume, 0, live.at), None);
      StoppingKeepsWorld(sys, World(Saves(sys, w, run, id, live.at, None).store, w.runs), run);
    }
  }

  lemma InvokeKeepsWorld(sys: System, w: World, run: RunId, dest: Destination, initial: State)
    requires SystemOk(sys) && WorldOk(sys, w)
    ensures WorldOk(sys, Act(sys, w, InvokeRun(run, dest, initial)))
  {
    hide WellFormed, Harmless, StoreOk, Candidate, Explained, RecordsPosition, Settle;
    var entry := EntryPosition(sys.g, initial);
    if entry.Some? && dest.mode.Enabled? {
      EntryFrontierIsOk(sys.g, initial);
      StandsAtOrigin(sys, entry.value);
      StartingKeepsWorld(sys, w, run, Start(dest, None, entry.value, None));
    }
  }

  lemma LoadKeepsWorld(sys: System, w: World, run: RunId, dest: Destination, id: CheckpointId, loaded: Position,
                       resume: Option<Resume>)
    requires SystemOk(sys) && WorldOk(sys, w) && id in w.store.byId
    requires LoadsAs(sys.g, sys.codec, w.store.byId[id], loaded, resume)
    ensures WorldOk(sys, World(w.store, w.runs[run := Start(dest, Some(id), loaded, resume)]))
  {
    hide WellFormed, Harmless, StoreOk, Candidate, Explained, RecordsPosition, LoadsAs, Iterate;
    LoadingIsOrigin(sys, w, id, loaded, resume);
    StandsAtOrigin(sys, loaded);
    StartingKeepsWorld(sys, w, run, Start(dest, Some(id), loaded, resume));
  }

  lemma ForkKeepsWorld(sys: System, w: World, thread: ThreadId, branch: BranchId, id: CheckpointId)
    requires WellFormed(sys.g) && WorldOk(sys, w)
    ensures WorldOk(sys, World(OpenBranch(w.store, thread, branch, id).store, w.runs))
    ensures OpenBranch(w.store, thread, branch, id).store.byId == w.store.byId
  {
    hide WellFormed, Harmless, StoreOk, Explained, LiveOk;
    OpenBranchKeepsStore(w.store, thread, branch, id);
  }

  lemma ActKeepsWorld(sys: System, w: World, action: Action)
    requires SystemOk(sys) && WorldOk(sys, w)
    ensures WorldOk(sys, Act(sys, w, action))
  {
    hide WellFormed, Harmless, RoundTrips, WorldOk, LoadsAs, EntryPosition, Saves, StepOf, Moved, OpenBranch, CanStep;
    match action
    case InvokeRun(run, dest, initial) => InvokeKeepsWorld(sys, w, run, dest, initial);
    case ResumeRun(run, dest, id, loaded, resume) =>
      if id in w.store.byId && LoadsAs(sys.g, sys.codec, w.store.byId[id], loaded, resume) {
        LoadKeepsWorld(sys, w, run, dest, id, loaded, resume);
      }
    case ForkRun(run, dest, id, loaded, resume) =>
      if id in w.store.byId && LoadsAs(sys.g, sys.codec, w.store.byId[id], loaded, resume) && dest.branch.Some? {
        ForkKeepsWorld(sys, w, dest.thread, dest.branch.value, id);
        var forked := World(OpenBranch(w.store, dest.thread, dest.branch.value, id).store, w.runs);
        LoadKeepsWorld(sys, forked, run, dest, id, loaded, resume);
      }
    case SaveEmptyRun(run, id) => SaveEmptyKeepsWorld(sys, w, run, id);
    case MoveRun(run, order, id) => MoveKeepsWorld(sys, w, run, order, id);
    case SuspendRun(run, order, id, interruptId) => SuspendKeepsWorld(sys, w, run, order, id, interruptId);
    case StopRun(run) => StoppingKeepsWorld(sys, w, run);
  }

  lemma {:induction false} ReachableWorldIsOk(sys: System, actions: seq<Action>)
    requires SystemOk(sys)
    ensures WorldOk(sys, Acts(sys, actions))
  {
    hide WellFormed, Harmless, RoundTrips, WorldOk, Act;
    if actions == [] {
      StartIsOk(sys);
    } else {
      ReachableWorldIsOk(sys, actions[..|actions| - 1]);
      ActKeepsWorld(sys, Acts(sys, actions[..|actions| - 1]), actions[|actions| - 1]);
    }
  }

  lemma StartIsOk(sys: System)
    requires WellFormed(sys.g)
    ensures WorldOk(sys, START_WORLD)
  {
    EmptyStoreIsOk();
  }

  // ---- what every stored record says ----

  lemma PositionIsUnique(sys: System, record: CheckpointRecord, a: Position, b: Position)
    requires SystemOk(sys) && FrontierOk(sys.g, a.frontier) && FrontierOk(sys.g, b.frontier)
    requires RecordsPosition(sys.g, sys.codec, record, a) && RecordsPosition(sys.g, sys.codec, record, b)
    ensures a == b
  {
    hide WellFormed, Harmless, Candidate, RoundTrips, Accepts;
    RecordedIsAccepted(sys, record, a);
    RecordedIsAccepted(sys, record, b);
    AcceptedFrontierIsUnique(sys.g, record, a.frontier, b.frontier);
  }

  /** However runs interleave, crash, race for a head and fork: every stored record
      is the result of executing the graph from its parent's state and frontier,
      counters never fall along a parent edge and stand still only into an
      interrupt, and the record is accepted back as the frontier it came from. */
  lemma LineageIsSound(sys: System, actions: seq<Action>, id: CheckpointId)
    requires SystemOk(sys) && id in Acts(sys, actions).store.byId
    ensures var byId := Acts(sys, actions).store.byId;
            var record := byId[id];
            && (exists e :: Supports(sys, byId, record, e) && Accepts(sys.g, record, e.p.frontier))
            && (record.parentId.Some? ==>
                  && record.parentId.value in byId
                  && var parent := byId[record.parentId.value];
                     && parent.step <= record.step && parent.superstep <= record.superstep
                     && (parent.step == record.step || parent.superstep == record.superstep ==>
                           record.interrupt.Some?))
  {
    hide WellFormed, Harmless, RoundTrips, StoreOk, LiveOk, Candidate, Iterate, NextStep, Accepts, EntryPosition;
    ReachableWorldIsOk(sys, actions);
    var byId := Acts(sys, actions).store.byId;
    assert Explained(sys, byId, byId[id]);
    var e :| Supports(sys, byId, byId[id], e);
    RecordedIsAccepted(sys, byId[id], e.p);
    IterateAdvances(sys, e.origin, e.resume, e.moves);
  }

  /** No ancestor of the record is an interrupt, within n generations. */
  ghost predicate Plain(byId: map<CheckpointId, CheckpointRecord>, id: CheckpointId, n: nat)
    decreases n
  {
    n > 0 && id in byId &&
    (byId[id].parentId.Some? ==>
       && byId[id].parentId.value in byId && byId[byId[id].parentId.value].interrupt.None?
       && Plain(byId, byId[id].parentId.value, n - 1))
  }

  /** The record is the boundary the run from `initial` reaches without a break. */
  ghost predicate ReachedFrom(sys: System, record: CheckpointRecord, initial: State, p: Position)
    requires WellFormed(sys.g)
  {
    && EntryPosition(sys.g, initial).Some? && FrontierOk(sys.g, EntryPosition(sys.g, initial).value.frontier)
    && Iterate(sys, EntryPosition(sys.g, initial).value, None, record.superstep) == Some(p)
    && FrontierOk(sys.g, p.frontier) && RecordsPosition(sys.g, sys.codec, record, p)
  }

  lemma {:induction false} PlainIsReached(sys: System, byId: map<CheckpointId, CheckpointRecord>, id: CheckpointId,
                                          n: nat)
    returns (initial: State, p: Position)
    requires SystemOk(sys) && Plain(byId, id, n)
    requires forall k :: k in byId ==> Explained(sys, byId, byId[k])
    ensures ReachedFrom(sys, byId[id], initial, p)
    decreases n
  {
    hide WellFormed, Harmless, RoundTrips, Candidate, Iterate, NextStep, EntryPosition, Explained;
    var record := byId[id];
    var e := EvidenceOf(sys, byId, id);
    IterateAdvances(sys, e.origin, e.resume, e.moves);
    p := e.p;
    if record.parentId.None? {
      initial :| EntryPosition(sys.g, initial) == Some(e.origin);
      EntryCounts(sys.g, initial);
    } else {
      var parent := byId[record.parentId.value];
      var q;
      initial, q := PlainIsReached(sys, byId, record.parentId.value, n - 1);
      PositionIsUnique(sys, parent, q, e.origin);
      IterateComposes(sys, EntryPosition(sys.g, initial).value, None, parent.superstep, e.moves);
    }
  }

  lemma EvidenceOf(sys: System, byId: map<CheckpointId, CheckpointRecord>, id: CheckpointId) returns (e: Evidence)
    requires WellFormed(sys.g) && id in byId && Explained(sys, byId, byId[id])
    ensures Supports(sys, byId, byId[id], e)
  {
    e :| Supports(sys, byId, byId[id], e);
  }

  lemma EntryCounts(g: CompiledGraph, initial: State)
    ensures EntryPosition(g, initial).Some? ==>
              EntryPosition(g, initial).value.superstep == 0 && EntryPosition(g, initial).value.steps == 0
  {
  }

  ghost predicate OnUnbrokenRun(sys: System, record: CheckpointRecord, maxSteps: nat, schedule: Schedule,
                                initial: State)
    requires WellFormed(sys.g) && CompletesAll(schedule)
  {
    && EntryPosition(sys.g, initial).Some? && FrontierOk(sys.g, EntryPosition(sys.g, initial).value.frontier)
    && var entry := EntryPosition(sys.g, initial).value;
       var trace := Invocation(sys.g, sys.ops, Enabled, entry, None, maxSteps, schedule);
       && record.superstep <= |trace.committed|
       && RecordsPosition(sys.g, sys.codec, record, BoundaryAt(entry, trace, record.superstep))
       && (record.completed ==> trace.ending == Finished && |trace.committed| == record.superstep)
  }

  /** Crashes and resumes do not show: a record none of whose ancestors is an
      interrupt is the boundary that one unbroken invocation, with budget enough
      and any schedule, reaches at the same super-step - and if the record is
      completed, that invocation finishes there. */
  lemma CrashesDoNotShow(sys: System, actions: seq<Action>, id: CheckpointId, n: nat, maxSteps: nat, schedule: Schedule)
    returns (initial: State)
    requires SystemOk(sys) && CompletesAll(schedule) && Plain(Acts(sys, actions).store.byId, id, n)
    requires Acts(sys, actions).store.byId[id].step <= StepLimit(0, maxSteps)
    ensures OnUnbrokenRun(sys, Acts(sys, actions).store.byId[id], maxSteps, schedule, initial)
  {
    hide WellFormed, Harmless, RoundTrips, CompletesAll, StoreOk, LiveOk, Candidate, Iterate, NextStep, EntryPosition,
         Plain, Run;
    ReachableWorldIsOk(sys, actions);
    var byId := Acts(sys, actions).store.byId;
    PlainIsKnown(byId, id, n);
    var p;
    initial, p := PlainIsReached(sys, byId, id, n);
    EntryCounts(sys.g, initial);
    var entry, limit := EntryPosition(sys.g, initial).value, StepLimit(0, maxSteps);
    RunPassesThrough(sys, entry, None, byId[id].superstep, limit, maxSteps, schedule);
    if byId[id].completed {
      RunSplits(sys.g, sys.ops, Enabled, entry, None, limit, maxSteps, schedule, byId[id].superstep);
      FinishedRun(sys, p, limit, maxSteps, schedule, byId[id].superstep);
    }
  }

  lemma PlainIsKnown(byId: map<CheckpointId, CheckpointRecord>, id: CheckpointId, n: nat)
    requires Plain(byId, id, n)
    ensures id in byId
  {
  }

  lemma FinishedRun(sys: System, p: Position, limit: nat, maxSteps: nat, schedule: Schedule, n: nat)
    requires WellFormed(sys.g) && FrontierOk(sys.g, p.frontier) && CompletesAll(schedule) && p.frontier == []
    ensures Run(sys.g, sys.ops, Enabled, p, ResumeAt(None, n), limit, maxSteps, schedule) == RunTrace([], Finished)
  {
  }
}
