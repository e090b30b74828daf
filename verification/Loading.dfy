/** Loading a record back into a position a run can start from
    (crates/group-agent-core/src/runtime.rs:1228-1283, 1398-1452, 1586-1640). */
module Loading {
  import opened Base
  import opened Domain
  import opened Transitions
  import opened Compiled
  import opened Runtime
  import opened Records
  import opened Checkpoints

  /** Where an invocation starts: the entry, with scopes entered. */
  function EntryPosition(g: CompiledGraph, initial: State): Option<Position> {
    match Settle(g, TargetIndices(g.entry), initial)
    case Settled(frontier, _) => Some(Position(initial, 0, 0, frontier))
    case _ => None
  }

  datatype LoadFault =
    | BranchMissing
    | CheckpointNotFound
    | LoadFailed(decodeFault: DecodeFault)
    | ResumeConflict(latest: Option<CheckpointId>)
    | BranchCreationFailed
    | Incompatible(reason: Incompatibility)
    | MissingResumeValue
    | UnexpectedResumeValue
    | RestoreFailed(cause: Cause)

  datatype Loaded = Loaded(p: Position, resume: Option<Resume>)

  /** The record decodes, passes validation and restores to this position, and a
      resume value was supplied exactly when it is an interrupt. */
  ghost predicate LoadsAs(g: CompiledGraph, codec: Codec, record: CheckpointRecord, loaded: Position,
                          resume: Option<Resume>)
  {
    && Accepts(g, record, loaded.frontier)
    && FromRecord(codec, record).Ok? && DecodeState(codec, record.snapshot) == Ok(loaded.state)
    && loaded.steps == record.step && loaded.superstep == record.superstep
    && (resume.Some? <==> record.interrupt.Some?)
    && (resume.Some? ==> loaded.frontier == [resume.value.node])
  }

  function ValueOf(resume: Option<Resume>): Option<ResumeValue> {
    if resume.Some? then Some(resume.value.value) else None
  }

  /** Why a record that decodes cannot be loaded with this value. */
  ghost predicate RefusedFor(g: CompiledGraph, codec: Codec, record: CheckpointRecord, value: Option<ResumeValue>,
                             fault: LoadFault)
  {
    match fault
    case Incompatible(reason) =>
      RefusedBecause(g, record, reason) && forall frontier :: !Accepts(g, record, frontier)
    case MissingResumeValue => record.interrupt.Some? && value.None?
    case UnexpectedResumeValue => record.interrupt.None? && value.Some?
    case RestoreFailed(cause) =>
      FromRecord(codec, record).Ok? && codec.restore(FromRecord(codec, record).value.snapshot) == Err(cause)
    case _ => false
  }

  /** Validates a decoded record, pairs the resume value with its interrupt and
      restores. Succeeds exactly when the record can be loaded with this value. */
  method LoadPosition(g: CompiledGraph, codec: Codec, record: CheckpointRecord, checkpoint: Checkpoint,
                      value: Option<ResumeValue>)
    returns (r: Result<Loaded, LoadFault>)
    requires WellFormed(g) && RealPaths(record.nextFrontier) && FromRecord(codec, record) == Ok(checkpoint)
    ensures r.Ok? ==> LoadsAs(g, codec, record, r.value.p, r.value.resume) && ValueOf(r.value.resume) == value
    ensures r.Ok? ==> record.graphVersion.Some? && record.graphVersion == g.version
    ensures r.Err? ==> RefusedFor(g, codec, record, value, r.error)
    ensures r == Err(Incompatible(UnversionedCheckpoint)) <==> record.graphVersion.None?
    ensures r == Err(Incompatible(UnversionedGraph)) <==> record.graphVersion.Some? && g.version.None?
    ensures r == Err(Incompatible(GraphVersionMismatch)) <==>
            record.graphVersion.Some? && g.version.Some? && record.graphVersion != g.version
    ensures r.Err? ==> forall p, resume :: LoadsAs(g, codec, record, p, resume) ==> ValueOf(resume) != value
  {
    hide WellFormed, Accepts, RefusedBecause;
    var resolved := ValidateAndResolveFrontier(g, record);
    if resolved.Err? { return Err(Incompatible(resolved.error)); }
    var frontier := resolved.value;
    AcceptedInterruptIsAlone(g, record, frontier);
    AcceptedFitsVersion(g, record, frontier);
    var resume: Option<Resume> := None;
    if record.interrupt.Some? {
      if value.None? { return Err(MissingResumeValue); }
      resume := Some(Resume(frontier[0], value.value));
    } else if value.Some? {
      return Err(UnexpectedResumeValue);
    }
    var state := codec.restore(checkpoint.snapshot);
    if state.Err? { return Err(RestoreFailed(state.error)); }
    r := Ok(Loaded(Position(state.value, record.step, record.superstep, frontier), resume));
  }

  /** Only records of this graph's own version are accepted. */
  lemma AcceptedFitsVersion(g: CompiledGraph, record: CheckpointRecord, frontier: seq<nat>)
    requires Accepts(g, record, frontier)
    ensures record.graphVersion.Some? && record.graphVersion == g.version
  {
  }

  /** A loaded record is of this graph's version, and its resume value is meant for
      the one node the record is interrupted at. */
  lemma LoadedFits(g: CompiledGraph, codec: Codec, record: CheckpointRecord, loaded: Position, resume: Option<Resume>)
    requires LoadsAs(g, codec, record, loaded, resume)
    ensures record.graphVersion.Some? && record.graphVersion == g.version
    ensures forall value :: ValueOf(resume) == Some(value) <==>
              |loaded.frontier| == 1 && resume == Some(Resume(loaded.frontier[0], value))
    ensures resume.Some? ==>
              && record.interrupt.Some? && loaded.frontier[0] < |g.items|
              && PathAt(g, loaded.frontier[0]) == record.interrupt.value.nodePath
  {
    AcceptedInterruptIsAlone(g, record, loaded.frontier);
    if resume.Some? { assert PathsOf(g, loaded.frontier)[0] == record.nextFrontier[0]; }
  }

  lemma AcceptedInterruptIsAlone(g: CompiledGraph, record: CheckpointRecord, frontier: seq<nat>)
    requires Accepts(g, record, frontier)
    ensures record.interrupt.Some? ==> |frontier| == 1 && frontier == [frontier[0]]
  {
  }
}
