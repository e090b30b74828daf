/** Stopping an execution and resuming it from the store does not show, and
    neither does when or where it saves
    (crates/group-agent-core/src/runtime.rs:369-874, 1069-1518). */
module Recovery {
  import opened Base
  import opened Domain
  import opened Compiled
  import opened Runtime
  import opened Frontiers
  import opened Runs
  import opened Resuming
  import opened Records
  import opened CheckpointStore
  import opened Saving
  import opened Loading
  import opened Execution
  import opened EntryPoints
  import opened LineageSoundness
  import opened Reachability

  // ---- what one save leaves behind ----

  /** The last record a run saved is that of this position. */
  ghost predicate LastRecords(job: Job, s: Store, parent: Option<CheckpointId>, p: Position) {
    && parent.Some? && parent.value in s.byId
    && RecordsPosition(job.g, job.codec, s.byId[parent.value], p) && s.byId[parent.value].interrupt.None?
  }

  lemma SavedIsRecorded(job: Job, at: Progress, p: Position)
    requires JobOk(job) && job.g.version.Some? && RoundTrips(job.codec) && StoreOk(at.store)
    requires job.dest.mode.Enabled? && job.dest.policy.EverySuperstep? && FrontierOk(job.g, p.frontier)
    ensures var saved := SaveNext(job.g, job.codec, job.dest, job.env.ids, at, p);
            && StoreOk(saved.progress.store)
            && (saved.failure.None? ==> LastRecords(job, saved.progress.store, saved.progress.parent, p))
  {
    hide WellFormed, CompletesAll, Candidate, StoreOk, TryFromParts, RoundTrips, RecordsPosition;
    var lineage := Lineage(job.env.ids(at.saves), job.dest.thread, job.dest.run, at.parent);
    var built := BoundaryToRecord(job.g, job.codec, lineage, p, None);
    if built.Ok? {
      RecordOfBoundary(System(job.g, job.ops, job.codec), lineage, p, None);
      WriteAdds(at.store, job.dest.branch, built.value);
    }
  }

  /** After n > 0 saved super-steps the last record saved is that of boundary n. */
  lemma {:induction false} ProgressRecords(job: Job, n: nat)
    requires JobOk(job) && job.g.version.Some? && RoundTrips(job.codec) && StoreOk(job.start.store)
    requires job.dest.mode.Enabled? && job.dest.policy.EverySuperstep? && n <= |TraceOf(job).committed|
    ensures var run := SavedBy(job, n);
            && StoreOk(run.progress.store)
            && (run.failure.None? && n > 0 ==>
                  LastRecords(job, run.progress.store, run.progress.parent, BoundaryAt(job.p, TraceOf(job), n)))
    decreases n
  {
    hide WellFormed, CompletesAll, Candidate, Run, StoreOk, LastRecords, SaveNext, RoundTrips, SavedBy, TraceOf,
         VisitedBy;
    if n == 0 {
      Begin(job);
      SavedIsRecorded(job, job.start, job.p);
    } else {
      ProgressRecords(job, n - 1);
      MoreSaved(job, n - 1);
      BoundaryIsFrontier(job, n);
      SavedIsRecorded(job, SavedBy(job, n - 1).progress, BoundaryAt(job.p, TraceOf(job), n));
      FailureStays(job, n - 1);
    }
  }

  /** A run stopped for any reason after n of its super-steps were saved, resumed
      (or replayed) from the record it saved last and run to completion, ends in
      the state and the counts of one unbroken run with both budgets together,
      in whatever orders the three complete their nodes. */
  lemma StoppingDoesNotShow(first: Job, n: nat, stop: Outcome, mid: Store, second: Job, m: nat,
                            value: Option<ResumeValue>, done: Outcome, after: Store, schedule: Schedule)
    requires JobOk(first) && JobOk(second) && first.g.version.Some? && RoundTrips(first.codec)
    requires StoreOk(first.start.store) && first.p.steps <= USIZE_MAX && CompletesAll(schedule)
    requires first.dest.mode.Enabled? && first.dest.policy.EverySuperstep?
    requires Explains(first, n, stop, mid) && !stop.RunUnsaved? && n > 0
    requires second.g == first.g && second.ops == first.ops && second.codec == first.codec
    requires SavedBy(first, n).progress.parent.Some? && SavedBy(first, n).progress.parent.value in mid.byId
    requires mid.byId == SavedBy(first, n).progress.store.byId
    requires Continues(second, first.codec, mid.byId[SavedBy(first, n).progress.parent.value], value)
    requires Explains(second, m, done, after) && done.RunCompleted?
    ensures var whole := Invocation(first.g, first.ops, Enabled, first.p, first.resume,
                                    first.maxSteps + second.maxSteps, schedule);
            && whole.ending.Finished?
            && done.state == LastPosition(first.p, whole).state && done.steps == LastPosition(first.p, whole).steps
  {
    hide WellFormed, CompletesAll, Candidate, Run, StoreOk, RoundTrips, SavedBy, VisitedBy, InterruptSave,
         RecordsPosition, Accepts;
    ProgressRecords(first, n);
    assert SavedBy(first, n).failure.None?;
    BoundaryIsFrontier(first, n);
    var q := BoundaryAt(first.p, TraceOf(first), n);
    LoadedIsRecorded(first, mid.byId[SavedBy(first, n).progress.parent.value], second.p, second.resume, q);
    assert second.p == q && second.resume == None;
    ModeMattersOnlyForInterrupts(first.g, first.ops, second.dest.mode, Enabled, q, None,
                                 StepLimit(q.steps, second.maxSteps), second.maxSteps, second.env.schedule);
    StopAndResume(first.g, first.ops, Enabled, first.p, first.resume, first.maxSteps, second.maxSteps,
                  first.env.schedule, second.env.schedule, schedule, n);
    LastOfJoined(first.p, TraceOf(first), n, q, TraceOf(second));
  }

  lemma LastOfJoined(p: Position, first: RunTrace, n: nat, q: Position, second: RunTrace)
    requires n <= |first.committed| && q == BoundaryAt(p, first, n)
    ensures LastPosition(p, RunTrace(first.committed[..n] + second.committed, Finished)) == LastPosition(q, second)
  {
  }

  lemma LoadedIsRecorded(job: Job, record: CheckpointRecord, loaded: Position, resume: Option<Resume>, p: Position)
    requires JobOk(job) && job.g.version.Some? && RoundTrips(job.codec) && FrontierOk(job.g, p.frontier)
    requires RecordsPosition(job.g, job.codec, record, p) && record.interrupt.None?
    requires LoadsAs(job.g, job.codec, record, loaded, resume)
    ensures loaded == p && resume == None
  {
    hide WellFormed, CompletesAll, Candidate, Accepts, RoundTrips;
    RecordedIsAccepted(System(job.g, job.ops, job.codec), record, p);
    AcceptedFrontierIsUnique(job.g, record, p.frontier, loaded.frontier);
  }

  /** When to save, and where, never changes what an execution computes: two
      executions that differ only in that end alike unless one is cut short. */
  lemma PolicyDoesNotShow(a: Job, n: nat, out: Outcome, after: Store, b: Job, m: nat, out': Outcome, after': Store)
    requires JobOk(a) && b == a.(dest := b.dest, start := b.start, saveEmpty := b.saveEmpty)
    requires b.dest.mode == a.dest.mode && JobOk(b)
    requires Explains(a, n, out, after) && !out.RunAborted? && !out.RunUnsaved?
    requires Explains(b, m, out', after') && !out'.RunAborted? && !out'.RunUnsaved?
    ensures out == out' || (out.RunInterrupted? && out'.RunInterrupted? && out == out'.(saved := out.saved))
  {
    hide WellFormed, CompletesAll, Candidate, Run, SavedBy, InterruptSave, Visited, AllReal;
    assert TraceOf(a) == TraceOf(b);
  }
}
