/** Checkpoint records: their structural invariant, what a run writes into them
    and what it reads back (crates/group-agent-core/src/checkpoint_record.rs;
    crates/group-agent-core/src/runtime.rs:1736-1822). */
module Records {
  import opened Base
  import opened Domain
  import opened Paths
  import opened Compiled
  import opened Runtime
  import opened Frontiers

  type CheckpointId = nat
  type ThreadId = string
  type RunId = nat
  type InterruptId = nat

  const CURRENT_FORMAT: nat := 1

  datatype RecordInterrupt = RecordInterrupt(id: InterruptId, nodePath: NodePath, payload: EncodedPayload)

  datatype CheckpointRecord = CheckpointRecord(
    formatVersion: nat,
    id: CheckpointId,
    threadId: ThreadId,
    runId: RunId,
    parentId: Option<CheckpointId>,
    graphVersion: Option<GraphVersion>,
    superstep: nat,
    step: nat,
    snapshot: Encoded,
    nextFrontier: seq<NodePath>,
    completed: bool,
    interrupt: Option<RecordInterrupt>)

  datatype RecordError =
    | CompletedWithFrontier
    | IncompleteWithoutFrontier
    | CompletedInterrupt
    | InvalidInterruptFrontier(node: NodePath)

  function StructureFault(nextFrontier: seq<NodePath>, completed: bool, interrupt: Option<RecordInterrupt>)
    : Option<RecordError>
  {
    if completed && nextFrontier != [] then Some(CompletedWithFrontier)
    else if !completed && nextFrontier == [] then Some(IncompleteWithoutFrontier)
    else if completed && interrupt.Some? then Some(CompletedInterrupt)
    else if interrupt.Some? && nextFrontier != [interrupt.value.nodePath] then
      Some(InvalidInterruptFrontier(interrupt.value.nodePath))
    else None
  }

  /** A completed record has nothing left to run, an incomplete one something, and
      an interrupted one exactly the interrupted node. */
  predicate WellStructured(parts: CheckpointRecord) {
    && (parts.completed <==> parts.nextFrontier == [])
    && (parts.interrupt.Some? ==> parts.nextFrontier == [parts.interrupt.value.nodePath])
  }

  /** What is wrong with the record. */
  predicate Malformed(parts: CheckpointRecord, fault: RecordError) {
    match fault
    case CompletedWithFrontier => parts.completed && parts.nextFrontier != []
    case IncompleteWithoutFrontier => !parts.completed && parts.nextFrontier == []
    case CompletedInterrupt => parts.completed && parts.nextFrontier == [] && parts.interrupt.Some?
    case InvalidInterruptFrontier(node) =>
      && !parts.completed && parts.nextFrontier != [] && parts.nextFrontier != [node]
      && parts.interrupt.Some? && parts.interrupt.value.nodePath == node
  }

  /** Validates record fields and builds the record. */
  function TryFromParts(parts: CheckpointRecord): (r: Result<CheckpointRecord, RecordError>)
    ensures r.Ok? <==> WellStructured(parts)
    ensures r.Ok? ==> r.value == parts
    ensures r.Err? ==> Malformed(parts, r.error)
  {
    match StructureFault(parts.nextFrontier, parts.completed, parts.interrupt)
    case Some(fault) => Err(fault)
    case None => Ok(parts)
  }

  // ---- reading a frontier back ----

  datatype Incompatibility =
    | UnversionedCheckpoint
    | UnversionedGraph
    | GraphVersionMismatch
    | MalformedRecord(fault: RecordError)
    | StartInFrontier
    | EndInFrontier
    | UnknownFrontierNode(node: NodePath)
    | DuplicateFrontierNode(node: NodePath)
    | MixedFrontierNamespace(node: NodePath)
    | NonCanonicalFrontierOrder(previous: NodePath, current: NodePath)

  function VersionFault(record: CheckpointRecord, g: CompiledGraph): Option<Incompatibility> {
    if record.graphVersion.None? then Some(UnversionedCheckpoint)
    else if g.version.None? then Some(UnversionedGraph)
    else if record.graphVersion != g.version then Some(GraphVersionMismatch)
    else None
  }

  function ResolvePath(g: CompiledGraph, path: NodePath): Result<nat, Incompatibility>
    requires path != []
  {
    if Leaf(path) == START then Err(StartInFrontier)
    else if Leaf(path) == END then Err(EndInFrontier)
    else if path in g.nodePaths then Ok(g.nodePaths[path])
    else Err(UnknownFrontierNode(path))
  }

  ghost predicate RealPaths(paths: seq<NodePath>) { forall k :: 0 <= k < |paths| ==> paths[k] != [] }

  /** The path cannot be resolved, and this is why. */
  predicate Unresolvable(g: CompiledGraph, path: NodePath, reason: Incompatibility) {
    path != [] &&
    match reason
    case StartInFrontier => path[|path| - 1] == START
    case EndInFrontier => path[|path| - 1] == END
    case UnknownFrontierNode(node) => node == path && !IsReserved(path[|path| - 1]) && path !in g.nodePaths
    case _ => false
  }

  predicate Resolvable(g: CompiledGraph, path: NodePath) {
    path != [] && !IsReserved(path[|path| - 1]) && path in g.nodePaths
  }

  predicate AllResolvable(g: CompiledGraph, paths: seq<NodePath>) {
    forall k :: 0 <= k < |paths| ==> Resolvable(g, paths[k])
  }

  /** The first path that cannot be resolved. */
  ghost predicate FirstUnresolvable(g: CompiledGraph, paths: seq<NodePath>, reason: Incompatibility) {
    exists k :: 0 <= k < |paths| && Unresolvable(g, paths[k], reason) && AllResolvable(g, paths[..k])
  }

  /** The frontier holds the indices of these paths. */
  ghost predicate Resolved(g: CompiledGraph, paths: seq<NodePath>, frontier: seq<nat>) {
    && |frontier| == |paths| && AllResolvable(g, paths)
    && forall k :: 0 <= k < |paths| ==> frontier[k] == g.nodePaths[paths[k]]
  }

  method ResolvePaths(g: CompiledGraph, paths: seq<NodePath>) returns (r: Result<seq<nat>, Incompatibility>)
    requires RealPaths(paths)
    ensures r.Ok? ==> Resolved(g, paths, r.value)
    ensures r.Err? ==> FirstUnresolvable(g, paths, r.error)
  {
    var frontier := [];
    for i := 0 to |paths|
      invariant Resolved(g, paths[..i], frontier)
    {
      var resolved := ResolvePath(g, paths[i]);
      if resolved.Err? {
        assert Unresolvable(g, paths[i], resolved.error);
        return Err(resolved.error);
      }
      frontier := frontier + [resolved.value];
    }
    assert paths[..|paths|] == paths;
    r := Ok(frontier);
  }

  method FindDuplicate(frontier: seq<nat>) returns (duplicate: Option<nat>)
    ensures duplicate.None? <==> forall i, j :: 0 <= i < j < |frontier| ==> frontier[i] != frontier[j]
    ensures duplicate.Some? ==> duplicate.value < |frontier| && frontier[duplicate.value] in frontier[..duplicate.value]
  {
    var seen: set<nat> := {};
    for i := 0 to |frontier|
      invariant seen == set k | 0 <= k < i :: frontier[k]
      invariant forall j, k :: 0 <= j < k < i ==> frontier[j] != frontier[k]
    {
      if frontier[i] in seen {
        var k :| 0 <= k < i && frontier[k] == frontier[i];
        assert frontier[..i][k] == frontier[i];
        return Some(i);
      }
      seen := seen + {frontier[i]};
    }
    duplicate := None;
  }

  method FindForeign(g: CompiledGraph, frontier: seq<nat>) returns (foreign: Option<nat>)
    requires RealNodes(g, frontier)
    ensures foreign.None? <==>
            forall k :: 0 <= k < |frontier| ==> g.items[frontier[k]].graphPath == g.items[frontier[0]].graphPath
    ensures foreign.Some? ==>
              && foreign.value < |frontier|
              && g.items[frontier[foreign.value]].graphPath != g.items[frontier[0]].graphPath
  {
    if frontier == [] { return None; }
    var expected := g.items[frontier[0]].graphPath;
    for i := 1 to |frontier|
      invariant forall k :: 0 <= k < i ==> g.items[frontier[k]].graphPath == expected
    {
      if g.items[frontier[i]].graphPath != expected { return Some(i); }
    }
    foreign := None;
  }

  method FindDescent(frontier: seq<nat>) returns (descent: Option<nat>)
    requires forall i, j :: 0 <= i < j < |frontier| ==> frontier[i] != frontier[j]
    ensures descent.None? <==> StrictlyAscending(frontier)
    ensures descent.Some? ==>
              descent.value + 1 < |frontier| && frontier[descent.value] > frontier[descent.value + 1]
  {
    var i := 1;
    while i < |frontier|
      invariant 1 <= i
      invariant forall j, k :: 0 <= j < k < i && k < |frontier| ==> frontier[j] < frontier[k]
    {
      if frontier[i - 1] > frontier[i] { return Some(i - 1); }
      i := i + 1;
    }
    descent := None;
  }

  lemma ResolvedNodesAreReal(g: CompiledGraph, paths: seq<NodePath>, frontier: seq<nat>)
    requires WellFormed(g) && Resolved(g, paths, frontier)
    ensures RealNodes(g, frontier) && PathsOf(g, frontier) == paths
    ensures forall k :: 0 <= k < |frontier| ==> g.items[frontier[k]].graphPath == GraphPathOf(paths[k])
  {
    forall k | 0 <= k < |frontier|
      ensures frontier[k] < |g.items| && g.items[frontier[k]].Node? && g.items[frontier[k]].path == paths[k]
      ensures g.items[frontier[k]].graphPath == GraphPathOf(paths[k])
    {
      assert Somes(g.items)[g.nodePaths[paths[k]]].Some?;
      ItemOkOf(g, frontier[k]);
    }
  }

  /** What the checks below amount to: the record fits this graph version, is
      well structured, and names distinct real nodes of one namespace in compiled
      order. */
  ghost predicate Accepts(g: CompiledGraph, record: CheckpointRecord, frontier: seq<nat>) {
    && record.graphVersion.Some? && record.graphVersion == g.version
    && WellStructured(record)
    && RealNodes(g, frontier) && PathsOf(g, frontier) == record.nextFrontier
    && StrictlyAscending(frontier)
    && forall k :: 0 <= k < |frontier| ==> g.items[frontier[k]].graphPath == g.items[frontier[0]].graphPath
  }

  predicate DistinctPaths(paths: seq<NodePath>) {
    forall i, j :: 0 <= i < j < |paths| ==> paths[i] != paths[j]
  }

  predicate SameNamespace(paths: seq<NodePath>) {
    forall k :: 0 <= k < |paths| && paths[0] != [] && paths[k] != [] ==> GraphPathOf(paths[k]) == GraphPathOf(paths[0])
  }

  /** Why the record cannot be continued on this graph. */
  ghost predicate RefusedBecause(g: CompiledGraph, record: CheckpointRecord, reason: Incompatibility) {
    var paths := record.nextFrontier;
    match reason
    case UnversionedCheckpoint => record.graphVersion.None?
    case UnversionedGraph => record.graphVersion.Some? && g.version.None?
    case GraphVersionMismatch => record.graphVersion.Some? && g.version.Some? && record.graphVersion != g.version
    case MalformedRecord(fault) => Malformed(record, fault)
    case DuplicateFrontierNode(node) =>
      AllResolvable(g, paths) && exists k :: 0 <= k < |paths| && paths[k] == node && node in paths[..k]
    case MixedFrontierNamespace(node) =>
      && AllResolvable(g, paths) && DistinctPaths(paths) && node in paths && node != []
      && GraphPathOf(node) != GraphPathOf(paths[0])
    case NonCanonicalFrontierOrder(previous, current) =>
      && AllResolvable(g, paths) && DistinctPaths(paths) && SameNamespace(paths)
      && (exists k :: 0 <= k < |paths| - 1 && paths[k] == previous && paths[k + 1] == current)
      && previous in g.nodePaths && current in g.nodePaths && g.nodePaths[previous] > g.nodePaths[current]
    case _ => FirstUnresolvable(g, paths, reason)
  }

  /** Validates a saved frontier and resolves it once; accepts exactly the records
      `Accepts` describes, and refuses the others for a reason they give. */
  method ValidateAndResolveFrontier(g: CompiledGraph, record: CheckpointRecord)
    returns (r: Result<seq<nat>, Incompatibility>)
    requires WellFormed(g) && RealPaths(record.nextFrontier)
    ensures r.Ok? ==> Accepts(g, record, r.value)
    ensures r.Err? ==> forall frontier :: !Accepts(g, record, frontier)
    ensures r.Err? ==> RefusedBecause(g, record, r.error)
    ensures r == Err(UnversionedCheckpoint) <==> record.graphVersion.None?
    ensures r == Err(UnversionedGraph) <==> record.graphVersion.Some? && g.version.None?
    ensures r == Err(GraphVersionMismatch) <==>
            record.graphVersion.Some? && g.version.Some? && record.graphVersion != g.version
  {
    hide WellFormed, Accepts, AllResolvable, FirstUnresolvable, Resolved;
    var fault := VersionFault(record, g);
    if fault.Some? {
      OnlyFittingIsAccepted(g, record);
      return Err(fault.value);
    }
    var structure := StructureFault(record.nextFrontier, record.completed, record.interrupt);
    if structure.Some? {
      OnlyFittingIsAccepted(g, record);
      return Err(MalformedRecord(structure.value));
    }
    var resolved := ResolvePaths(g, record.nextFrontier);
    if resolved.Err? {
      UnresolvableIsRefused(g, record, resolved.error);
      return Err(resolved.error);
    }
    var unfit := CheckFrontier(g, record, resolved.value);
    if unfit.Some? { return Err(unfit.value); }
    r := Ok(resolved.value);
  }

  lemma OnlyFittingIsAccepted(g: CompiledGraph, record: CheckpointRecord)
    ensures forall frontier :: Accepts(g, record, frontier) ==>
              record.graphVersion.Some? && record.graphVersion == g.version && WellStructured(record)
  {
  }

  lemma UnresolvableIsRefused(g: CompiledGraph, record: CheckpointRecord, reason: Incompatibility)
    requires WellFormed(g) && FirstUnresolvable(g, record.nextFrontier, reason)
    ensures RefusedBecause(g, record, reason) && forall frontier :: !Accepts(g, record, frontier)
    ensures !reason.UnversionedCheckpoint? && !reason.UnversionedGraph? && !reason.GraphVersionMismatch?
  {
    hide WellFormed, Accepts;
    forall frontier ensures !Accepts(g, record, frontier) {
      if Accepts(g, record, frontier) { AcceptedResolves(g, record, frontier); }
    }
  }

  /** The checks of the resolved indices, in their order. */
  method CheckFrontier(g: CompiledGraph, record: CheckpointRecord, frontier: seq<nat>)
    returns (fault: Option<Incompatibility>)
    requires WellFormed(g) && Resolved(g, record.nextFrontier, frontier) && WellStructured(record)
    requires record.graphVersion.Some? && record.graphVersion == g.version
    ensures fault.None? ==> Accepts(g, record, frontier)
    ensures fault.Some? ==> RefusedBecause(g, record, fault.value) && forall other :: !Accepts(g, record, other)
    ensures fault.Some? ==>
              fault.value.DuplicateFrontierNode? || fault.value.MixedFrontierNamespace?
              || fault.value.NonCanonicalFrontierOrder?
  {
    hide WellFormed, Resolved, RefusedBecause;
    ResolvedNodesAreReal(g, record.nextFrontier, frontier);
    OnlyResolvedIsAccepted(g, record, frontier);
    var duplicate := FindDuplicate(frontier);
    if duplicate.Some? {
      DuplicateIsReason(g, record, frontier, duplicate.value);
      return Some(DuplicateFrontierNode(g.items[frontier[duplicate.value]].path));
    }
    var foreign := FindForeign(g, frontier);
    if foreign.Some? {
      ForeignIsReason(g, record, frontier, foreign.value);
      return Some(MixedFrontierNamespace(g.items[frontier[foreign.value]].path));
    }
    var descent := FindDescent(frontier);
    if descent.Some? {
      DescentIsReason(g, record, frontier, descent.value);
      return Some(NonCanonicalFrontierOrder(g.items[frontier[descent.value]].path,
                                            g.items[frontier[descent.value + 1]].path));
    }
    fault := None;
  }

  lemma OnlyResolvedIsAccepted(g: CompiledGraph, record: CheckpointRecord, frontier: seq<nat>)
    requires WellFormed(g) && Resolved(g, record.nextFrontier, frontier)
    ensures forall other :: Accepts(g, record, other) ==> other == frontier
  {
    hide WellFormed, Accepts;
    forall other | Accepts(g, record, other) ensures other == frontier { AcceptedResolves(g, record, other); }
  }

  lemma PathAtOffset(g: CompiledGraph, paths: seq<NodePath>, frontier: seq<nat>, k: nat)
    requires WellFormed(g) && Resolved(g, paths, frontier) && k < |frontier|
    ensures frontier[k] < |g.items| && g.items[frontier[k]].Node? && g.items[frontier[k]].path == paths[k]
    ensures paths[k] != [] && g.items[frontier[k]].graphPath == GraphPathOf(paths[k])
    ensures paths[k] in g.nodePaths && g.nodePaths[paths[k]] == frontier[k]
  {
    hide WellFormed;
    ResolvedNodesAreReal(g, paths, frontier);
    assert PathsOf(g, frontier)[k] == paths[k];
  }

  lemma DuplicateIsReason(g: CompiledGraph, record: CheckpointRecord, frontier: seq<nat>, k: nat)
    requires WellFormed(g) && Resolved(g, record.nextFrontier, frontier)
    requires k < |frontier| && frontier[k] in frontier[..k]
    ensures frontier[k] < |g.items| && g.items[frontier[k]].Node?
    ensures RefusedBecause(g, record, DuplicateFrontierNode(g.items[frontier[k]].path))
  {
    hide WellFormed;
    var j :| 0 <= j < k && frontier[..k][j] == frontier[k];
    PathAtOffset(g, record.nextFrontier, frontier, j);
    PathAtOffset(g, record.nextFrontier, frontier, k);
    assert record.nextFrontier[..k][j] == record.nextFrontier[k];
  }

  lemma ResolvedDistinct(g: CompiledGraph, paths: seq<NodePath>, frontier: seq<nat>)
    requires Resolved(g, paths, frontier)
    requires forall i, j :: 0 <= i < j < |frontier| ==> frontier[i] != frontier[j]
    ensures AllResolvable(g, paths) && DistinctPaths(paths)
  {
  }

  lemma ForeignIsReason(g: CompiledGraph, record: CheckpointRecord, frontier: seq<nat>, k: nat)
    requires WellFormed(g) && Resolved(g, record.nextFrontier, frontier) && RealNodes(g, frontier)
    requires forall i, j :: 0 <= i < j < |frontier| ==> frontier[i] != frontier[j]
    requires k < |frontier| && g.items[frontier[k]].graphPath != g.items[frontier[0]].graphPath
    ensures RefusedBecause(g, record, MixedFrontierNamespace(g.items[frontier[k]].path))
  {
    hide WellFormed;
    PathAtOffset(g, record.nextFrontier, frontier, 0);
    PathAtOffset(g, record.nextFrontier, frontier, k);
    ResolvedDistinct(g, record.nextFrontier, frontier);
  }

  lemma DescentIsReason(g: CompiledGraph, record: CheckpointRecord, frontier: seq<nat>, k: nat)
    requires WellFormed(g) && Resolved(g, record.nextFrontier, frontier) && RealNodes(g, frontier)
    requires forall i, j :: 0 <= i < j < |frontier| ==> frontier[i] != frontier[j]
    requires forall i :: 0 <= i < |frontier| ==> g.items[frontier[i]].graphPath == g.items[frontier[0]].graphPath
    requires k + 1 < |frontier| && frontier[k] > frontier[k + 1]
    ensures RefusedBecause(g, record, NonCanonicalFrontierOrder(g.items[frontier[k]].path,
                                                                g.items[frontier[k + 1]].path))
  {
    hide WellFormed;
    PathAtOffset(g, record.nextFrontier, frontier, k);
    PathAtOffset(g, record.nextFrontier, frontier, k + 1);
    ResolvedDistinct(g, record.nextFrontier, frontier);
    PathAtOffset(g, record.nextFrontier, frontier, 0);
    forall i | 0 <= i < |frontier| ensures GraphPathOf(record.nextFrontier[i]) == GraphPathOf(record.nextFrontier[0]) {
      PathAtOffset(g, record.nextFrontier, frontier, i);
    }
    assert record.nextFrontier[k] == g.items[frontier[k]].path;
  }

  lemma AcceptedResolves(g: CompiledGraph, record: CheckpointRecord, frontier: seq<nat>)
    requires WellFormed(g) && Accepts(g, record, frontier)
    ensures RealPaths(record.nextFrontier) && |frontier| == |record.nextFrontier|
    ensures forall k :: 0 <= k < |frontier| ==> ResolvePath(g, record.nextFrontier[k]) == Ok(frontier[k])
  {
    forall k | 0 <= k < |frontier|
      ensures record.nextFrontier[k] != [] && ResolvePath(g, record.nextFrontier[k]) == Ok(frontier[k])
    {
      assert PathsOf(g, frontier)[k] == g.items[frontier[k]].path;
      assert ItemOk(g, frontier[k]);
      assert Somes(g.items)[frontier[k]].value.Node?;
    }
  }

  // ---- writing a boundary ----

  /** The application state's snapshot and restore, and the checkpoint codec. */
  datatype Codec = Codec(
    snapshot: State -> Result<Snapshot, Cause>,
    restore: Snapshot -> Result<State, Cause>,
    encode: Snapshot -> Result<Encoded, Cause>,
    decode: Encoded -> Result<Snapshot, Cause>,
    encodePayload: Payload -> Result<EncodedPayload, Cause>,
    decodePayload: EncodedPayload -> Result<Payload, Cause>)

  /** Restoring a snapshot gives back the state it was taken from. */
  ghost predicate RoundTrips(codec: Codec) {
    forall s: State, e: Encoded :: EncodeState(codec, s) == Ok(e) ==> DecodeState(codec, e) == Ok(s)
  }

  function EncodeState(codec: Codec, s: State): Result<Encoded, Cause> {
    match codec.snapshot(s)
    case Err(cause) => Err(cause)
    case Ok(snapshot) => codec.encode(snapshot)
  }

  function DecodeState(codec: Codec, e: Encoded): Result<State, Cause> {
    match codec.decode(e)
    case Err(cause) => Err(cause)
    case Ok(snapshot) => codec.restore(snapshot)
  }

  datatype Lineage = Lineage(id: CheckpointId, threadId: ThreadId, runId: RunId, parentId: Option<CheckpointId>)

  /** The record of a committed boundary (`None`) or of a suspended node. */
  function BoundaryRecord(g: CompiledGraph, lineage: Lineage, p: Position, snapshot: Encoded,
                          interrupt: Option<RecordInterrupt>): CheckpointRecord
    requires RealNodes(g, p.frontier)
  {
    CheckpointRecord(CURRENT_FORMAT, lineage.id, lineage.threadId, lineage.runId, lineage.parentId, g.version,
                     p.superstep, p.steps, snapshot, PathsOf(g, p.frontier), p.frontier == [], interrupt)
  }

  /** The record remembers this position and, for an interrupt, its node. */
  ghost predicate RecordsPosition(g: CompiledGraph, codec: Codec, record: CheckpointRecord, p: Position) {
    && RealNodes(g, p.frontier)
    && record.step == p.steps && record.superstep == p.superstep
    && DecodeState(codec, record.snapshot) == Ok(p.state)
    && record.nextFrontier == PathsOf(g, p.frontier)
    && record.completed == (p.frontier == [])
    && record.graphVersion == g.version
    && record.formatVersion == CURRENT_FORMAT
    && (record.interrupt.Some? ==> |p.frontier| == 1 && record.interrupt.value.nodePath == PathAt(g, p.frontier[0]))
  }

  /** A node may suspend only alone, and its record names it. */
  predicate InterruptFits(g: CompiledGraph, p: Position, interrupt: Option<RecordInterrupt>)
    requires RealNodes(g, p.frontier)
  {
    interrupt.Some? ==> |p.frontier| == 1 && interrupt.value.nodePath == PathAt(g, p.frontier[0])
  }

  /** Every boundary the runtime writes satisfies the record invariant, and the
      same graph version reads the same indices, counters and state back. */
  lemma WrittenBoundaryReadsBack(g: CompiledGraph, codec: Codec, lineage: Lineage, p: Position, snapshot: Encoded,
                                 interrupt: Option<RecordInterrupt>)
    requires WellFormed(g) && FrontierOk(g, p.frontier) && g.version.Some?
    requires RoundTrips(codec) && EncodeState(codec, p.state) == Ok(snapshot)
    requires InterruptFits(g, p, interrupt)
    ensures var record := BoundaryRecord(g, lineage, p, snapshot, interrupt);
            && TryFromParts(record) == Ok(record)
            && RecordsPosition(g, codec, record, p)
            && Accepts(g, record, p.frontier)
            && RealPaths(record.nextFrontier)
  {
    FrontierSharesNamespace(g, p.frontier);
    forall k | 0 <= k < |p.frontier| ensures PathAt(g, p.frontier[k]) != [] {
      assert ItemOk(g, p.frontier[k]);
    }
  }

  /** What validation accepts is what a super-step can run. */
  lemma AcceptedIsFrontier(g: CompiledGraph, record: CheckpointRecord, frontier: seq<nat>)
    requires Accepts(g, record, frontier)
    ensures FrontierOk(g, frontier)
  {
  }

  /** A record is read back as one frontier only. */
  lemma AcceptedFrontierIsUnique(g: CompiledGraph, record: CheckpointRecord, a: seq<nat>, b: seq<nat>)
    requires WellFormed(g) && Accepts(g, record, a) && Accepts(g, record, b)
    ensures a == b
  {
    AcceptedResolves(g, record, a);
    AcceptedResolves(g, record, b);
  }
}
