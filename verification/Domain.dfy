/** The types a graph is parametric in. Nothing is assumed about any of them. */
module Domain {
  /** State carried through an execution. */
  type State(!new)
  /** What one node produces from the state. */
  type Update(!new)
  /** A typed value supplied to an interrupted node on resume. */
  type ResumeValue(!new)
  /** An interrupt payload, before and after the codec. */
  type Payload(!new)
  type EncodedPayload(==, !new)
  /** A state as a checkpoint keeps it, and that snapshot after the codec. */
  type Snapshot(!new)
  type Encoded(==, !new)
  /** An application error: a node, router, reducer or codec failure. */
  type Cause(!new)
}
