/** Typed checkpoints and the storage records they are written to and rebuilt
    from (crates/group-agent-core/src/checkpoint.rs:152-224, 457-544). */
module Checkpoints {
  import opened Base
  import opened Domain
  import opened Paths
  import opened Compiled
  import opened Records

  datatype CheckpointInterrupt = CheckpointInterrupt(id: InterruptId, node: NodePath, payload: Payload)

  datatype Checkpoint = Checkpoint(
    id: CheckpointId,
    threadId: ThreadId,
    runId: RunId,
    parentId: Option<CheckpointId>,
    graphVersion: Option<GraphVersion>,
    superstep: nat,
    step: nat,
    snapshot: Snapshot,
    nextFrontier: seq<NodePath>,
    completed: bool,
    interrupt: Option<CheckpointInterrupt>)

  datatype DecodeFault = UnsupportedFormat(actual: nat) | SnapshotFault(cause: Cause) | InterruptFault(cause: Cause)

  datatype EncodeFault =
    | SnapshotNotEncoded(cause: Cause)
    | InterruptNotEncoded(cause: Cause)
    | BadMetadata(error: RecordError)

  function FromRecord(codec: Codec, record: CheckpointRecord): Result<Checkpoint, DecodeFault> {
    if record.formatVersion != CURRENT_FORMAT then Err(UnsupportedFormat(record.formatVersion))
    else
      match codec.decode(record.snapshot)
      case Err(cause) => Err(SnapshotFault(cause))
      case Ok(snapshot) =>
        var bare := Checkpoint(record.id, record.threadId, record.runId, record.parentId, record.graphVersion,
                               record.superstep, record.step, snapshot, record.nextFrontier, record.completed, None);
        if record.interrupt.None? then Ok(bare)
        else
          var i := record.interrupt.value;
          match codec.decodePayload(i.payload)
          case Err(cause) => Err(InterruptFault(cause))
          case Ok(payload) => Ok(bare.(interrupt := Some(CheckpointInterrupt(i.id, i.nodePath, payload))))
  }

  function ToRecord(codec: Codec, c: Checkpoint): Result<CheckpointRecord, EncodeFault> {
    match codec.encode(c.snapshot)
    case Err(cause) => Err(SnapshotNotEncoded(cause))
    case Ok(snapshot) =>
      var bare := CheckpointRecord(CURRENT_FORMAT, c.id, c.threadId, c.runId, c.parentId, c.graphVersion, c.superstep,
                                   c.step, snapshot, c.nextFrontier, c.completed, None);
      if c.interrupt.None? then Structured(bare)
      else
        match codec.encodePayload(c.interrupt.value.payload)
        case Err(cause) => Err(InterruptNotEncoded(cause))
        case Ok(payload) =>
          Structured(bare.(interrupt := Some(RecordInterrupt(c.interrupt.value.id, c.interrupt.value.node, payload))))
  }

  function Structured(record: CheckpointRecord): Result<CheckpointRecord, EncodeFault> {
    match TryFromParts(record)
    case Err(error) => Err(BadMetadata(error))
    case Ok(valid) => Ok(valid)
  }

  ghost predicate SnapshotsRoundTrip(codec: Codec) {
    forall s: Snapshot, e: Encoded :: codec.encode(s) == Ok(e) ==> codec.decode(e) == Ok(s)
  }

  ghost predicate PayloadsRoundTrip(codec: Codec) {
    forall p: Payload, e: EncodedPayload :: codec.encodePayload(p) == Ok(e) ==> codec.decodePayload(e) == Ok(p)
  }

  /** The fields that a checkpoint and its record share as they are. */
  predicate SameHeader(c: Checkpoint, record: CheckpointRecord) {
    && c.id == record.id && c.threadId == record.threadId && c.runId == record.runId
    && c.parentId == record.parentId && c.graphVersion == record.graphVersion
    && c.superstep == record.superstep && c.step == record.step
    && c.nextFrontier == record.nextFrontier && c.completed == record.completed
  }

  /** An interrupt and its record, up to the payload. */
  predicate SameInterrupt(c: Checkpoint, record: CheckpointRecord) {
    && (c.interrupt.Some? <==> record.interrupt.Some?)
    && (c.interrupt.Some? ==>
          && c.interrupt.value.id == record.interrupt.value.id
          && c.interrupt.value.node == record.interrupt.value.nodePath)
  }

  /** A checkpoint is written field by field, or refused for what cannot be encoded
      or does not fit together. */
  lemma WrittenSays(codec: Codec, c: Checkpoint)
    ensures match ToRecord(codec, c)
            case Ok(record) =>
              && record.formatVersion == 1 && SameHeader(c, record) && SameInterrupt(c, record)
              && WellStructured(record)
              && codec.encode(c.snapshot) == Ok(record.snapshot)
              && (c.interrupt.Some? ==>
                    codec.encodePayload(c.interrupt.value.payload) == Ok(record.interrupt.value.payload))
            case Err(SnapshotNotEncoded(cause)) => codec.encode(c.snapshot) == Err(cause)
            case Err(InterruptNotEncoded(cause)) =>
              c.interrupt.Some? && codec.encodePayload(c.interrupt.value.payload) == Err(cause)
            case Err(BadMetadata(_)) =>
              || (c.completed && c.nextFrontier != []) || (!c.completed && c.nextFrontier == [])
              || (c.interrupt.Some? && c.nextFrontier != [c.interrupt.value.node])
  {
  }

  /** A record is read field by field, or refused for its format or for what cannot
      be decoded. */
  lemma ReadSays(codec: Codec, record: CheckpointRecord)
    ensures match FromRecord(codec, record)
            case Ok(c) =>
              && record.formatVersion == 1 && SameHeader(c, record) && SameInterrupt(c, record)
              && codec.decode(record.snapshot) == Ok(c.snapshot)
              && (c.interrupt.Some? ==>
                    codec.decodePayload(record.interrupt.value.payload) == Ok(c.interrupt.value.payload))
            case Err(UnsupportedFormat(actual)) => actual == record.formatVersion && actual != 1
            case Err(SnapshotFault(cause)) => record.formatVersion == 1 && codec.decode(record.snapshot) == Err(cause)
            case Err(InterruptFault(cause)) =>
              && record.formatVersion == 1 && record.interrupt.Some?
              && codec.decodePayload(record.interrupt.value.payload) == Err(cause)
  {
  }

  /** What is written decodes to what was submitted, every field of it. */
  lemma RecordRoundTrip(codec: Codec, c: Checkpoint)
    requires SnapshotsRoundTrip(codec) && PayloadsRoundTrip(codec) && ToRecord(codec, c).Ok?
    ensures FromRecord(codec, ToRecord(codec, c).value) == Ok(c)
    ensures SameHeader(c, ToRecord(codec, c).value) && SameInterrupt(c, ToRecord(codec, c).value)
  {
  }

  lemma FromRecordId(codec: Codec, record: CheckpointRecord)
    ensures FromRecord(codec, record).Ok? ==> FromRecord(codec, record).value.id == record.id
  {
  }
}
