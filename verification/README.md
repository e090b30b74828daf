# A verified model of the group-agent runtime

The project models six parts of the workspace and proves what holds over all inputs, all
runs and all interleavings.

1. **The graph compiler** (`Paths`, `Transitions`, `Declared`, `Validation`, `FrontierCheck`, `Compiled`, `Flatten`,
   `Assembly`, `FlattenSound`, `CompiledMeaning`, `DeclarationMeaning`, `FaultOrder`, `StateGraphs`). A declared
   graph is checked - edge aggregation, edge shapes, reachability, and a worklist over pairs of items that may be
   active together - and flattened with its already compiled child graphs into one index-addressed array.
   `StateGraph.Compile` decides every declaration exactly and produces a graph that satisfies `Compiled.WellFormed`,
   on which the runtime rests, and `CompiledMeaning.Means`: each slot, found by its path, routes as the declared
   edges say.
2. **The super-step runtime** (`Runtime`, `Frontiers`, `Settling`, `Mounting`, `MountedRuns`, `Runs`, `Resuming`,
   `StepMeaning`, `RunMeaning`, `Execution`, `Loading`, `EntryPoints`, `ForeignRecords`, `CompileGaps`). `Runtime`
   gives one super-step as a function; `Execution` is the loop that rewrites the frontier, fills update slots in
   completion order, checks for cancellation and saves. The loop is proved to be the function, cut short only by
   cancellation or a refused save. `StepMeaning.Steps` and `RunMeaning.IsRunOf` say independently what a super-step
   and a run may do, from the items' own nodes, transitions and paths.
3. **The durable lineage store** (`Records`, `Checkpoints`, `CheckpointStore`, `Sqlite`, `SqliteHistory`,
   `SqliteRefines`, `SqliteFaults`, `Saving`, `DecodedCache`). One protocol, two implementations: maps of histories,
   and four relational tables with their constraints and triggers. On top, a weak cache of decoded checkpoints with
   an amortised cleanup.
4. **Runtime and store together** (`LineageSoundness`, `Reachability`, `Recovery`). Invocations, resumes and forks
   run concurrently over one store; every record is what its parent, executed, gives, and every store the entry
   points build up from an empty one (`Reachability.EmptyIsReachable`) is one this transition system reaches.
5. **Streams** (`UsageMerging`, `Collector`, `CollectorChannels`, `CollectorMeaning`, `GenaiStream`,
   `GenaiMeaning`). The response accumulator and the producer that feeds it, each with what it says read off the
   events themselves.
6. **MCP session shutdown** (`Shutdown`) as interleaved steps.

Nodes, routers, reducers and codecs are deterministic functions given from outside (`Domain` leaves their data
abstract). The order in which the futures of a super-step complete is any permutation; cancellation and
deadlines are an abort at any control check; ids are whatever the host hands out.

## What the code turned out not to do

* **The two stores differ in one case.** A branch save that repeats the id of a record of that branch under
  another thread is an idempotency conflict in memory and a corrupt-branch failure in SQLite.
  `SqliteRefines.SqliteRefinesMemory` proves that this is the only difference, in both directions;
  `SqliteRefines.MisownedRepeatHappens` reaches it with three operations.
* **Normalization can loop for ever.** A router that keeps choosing a mounted child without nodes consumes no
  step, so no budget stops it (`CompileGaps.EmptyMountCanSpin`). `Settling.SettlesExactlyWithoutCycle`: the graphs
  that settle whatever their routers choose are exactly those without a structural cycle, and
  `Settling.NoEmptyMountSettles`: without empty mounts there is no such cycle.
* **Checkpoint validation does not check co-activity.** It accepts any ascending list of nodes of one
  namespace, also of nodes the compile-time check never considered together. `CompileGaps.AcceptedRecordCanPanic`:
  with a router that selects a or b, a leading to a mount and b back to the router, a record that names both is
  accepted and the next super-step puts the mount beside a node. `ForeignRecords.AcceptedIsSafeExactlyWhenHarmless`:
  the accepted frontiers that are safe for all routers are exactly those whose own co-active closure - the one the
  compile-time worklist computes, seeded with the frontier's pairs - holds real nodes only. Records written by runs
  are always of that kind (`Reachability.ReachableHoldsHarmless`), so resuming, replaying or forking from a store
  that only runs over this graph have written never panics, for a versioned graph whose snapshots restore.

A panic is modelled where the debug assertion of normalization stands. A release build has no assertion there: it
meets the structural slot in `node_at` when it saves the boundary or starts the next super-step, unless it is
cancelled or out of budget before that.

## Model

| member | source | states |
|---|---|---|
| `Paths.WriteSegments` | crates/group-agent-core/src/path.rs:6-29 | the character loop writes exactly the rendering of the segment list, root label included |
| `Paths.DisplayIs` | crates/group-agent-core/src/path.rs:6-29 | the display text is `<root>` or nothing for the root, and otherwise each escaped segment after a slash |
| `Paths.EscapeIs` | crates/group-agent-core/src/path.rs:20-26 | escaping works character by character, with `%2F` for a slash and `%25` for a percent sign |
| `Paths.PlainText` | crates/group-agent-core/src/path.rs:20-26 | text without slashes and percent signs displays as it is |
| `Paths.ReadUndoesRender` | crates/group-agent-core/src/path.rs:6-29 | the escaped text of any segment list, empty segments included, reads back as that list |
| `Paths.DisplayIsInjective` | crates/group-agent-core/src/path.rs:98-113 | two paths that display alike are the same path |
| `Paths.PrefixedKeepsStructure` | crates/group-agent-core/src/path.rs:67-87 | moving a path under a prefix keeps its leaf and moves its namespace, and a path is its namespace and leaf |
| `Paths.ChildIsMounted` | crates/group-agent-core/src/path.rs:67-90 | a child namespace's mount path lies in the parent namespace under the segment, also once the parent is mounted |
| `Transitions.CheckSelection` | crates/group-agent-core/src/transition.rs:75-92 | the whitelist loop over a fan-out selection reports the first duplicate or undeclared target, else every choice in order |
| `Transitions.ResolveInto` | crates/group-agent-core/src/transition.rs:43-111 | appends exactly the selected targets to the frontier under construction, or leaves it as it was; reports one path per choice, an item's own or END inside the namespace |
| `Transitions.SelectIsExact` | crates/group-agent-core/src/transition.rs:75-92 | a selection is accepted exactly when it is duplicate-free and declared |
| `Transitions.SelectReports` | crates/group-agent-core/src/transition.rs:75-92 | a refused selection is refused for its first repeated or undeclared identifier, and a repeat is named as a repeat first |
| `Transitions.FanOutActivatesTheSelection` | crates/group-agent-core/src/transition.rs:71-109 | a conditional fan-out resolves exactly when its selection is non-empty, duplicate-free and declared, and then activates exactly its non-END targets, each once, in compiled order |
| `Transitions.ResolutionStaysDeclared` | crates/group-agent-core/src/transition.rs:43-111 | whatever a router answers, only declared targets are activated, and at most one unless the transition fans out |
| `Transitions.RemapTargetSet` | crates/group-agent-core/src/transition.rs:113-141 | remapping maps the declared targets and keeps whether the transition fans out |
| `Transitions.RouteCommutesWithRemap` | crates/group-agent-core/src/transition.rs:113-141 | routing a remapped transition is routing the original and mapping the indices, same errors, same order |
| `Base.SortDedupSorts` | crates/group-agent-core/src/runtime.rs:808-809 | sort and dedup give the strictly ascending list of the same indices |
| `Base.SortDedupCommutesWithLift` | crates/group-agent-core/src/graph.rs:905-920 | sorting and deduplicating commutes with a strictly ascending remapping |
| `StateGraphs.StateGraph.AddNode` | crates/group-agent-core/src/graph.rs:100-165 | adds the node exactly when its identifier is neither reserved nor taken, else reports which and adds nothing |
| `StateGraphs.StateGraph.AddSubgraph` | crates/group-agent-core/src/graph.rs:127-165 | mounts a compiled child exactly when the identifier is free; a taken one is a duplicate mount if a mount has it, else a duplicate node |
| `StateGraphs.StateGraph.AddFanOut` | crates/group-agent-core/src/graph.rs:177-213 | adds the fan-out, or reports an existing one, no targets, or the first target that repeats an earlier one, and adds nothing |
| `StateGraphs.StateGraph.AddConditionalEdges` | crates/group-agent-core/src/graph.rs:215-262 | the same for a conditional edge and its whitelist |
| `StateGraphs.StateGraph.AddConditionalFanOut` | crates/group-agent-core/src/graph.rs:264-308 | the same for a conditional fan-out |
| `StateGraphs.StateGraph.Compile` | crates/group-agent-core/src/graph.rs:310-436 | succeeds exactly when the declaration is acceptable and no mount may run beside another item; the graph is the well-formed flattening, and every declared item's slot routes as its declared edge says; else the fault is one the declaration shows, and the first of them. No duplicate path is ever met |
| `StateGraphs.Assemble` | crates/group-agent-core/src/graph.rs:363-436 | allocating, filling and finishing gives the flattening of the declaration, every slot filled, and each routing as its declared edge says |
| `CompiledMeaning.FlatteningMeansDeclaration` | crates/group-agent-core/src/graph.rs:363-474 | in a flattened graph, found by path: a fixed edge activates its one target, a fan-out all of them, a conditional edge what its own router names, a conditional fan-out all its own router names; each errs exactly when its router fails or names something undeclared, nothing or something twice |
| `DeclarationMeaning.CheckedIsAcceptable` | crates/group-agent-core/src/graph.rs:477-687 | the checks pass exactly when known sources and targets, one outgoing kind each, reachability and a reachable END all hold of the declared edges; and a reported fault is there |
| `FaultOrder.FirstIsReported` | crates/group-agent-core/src/graph.rs:477-687 | of several faults the first is reported: fixed, conditional, fan-out, then conditional fan-out edges as declared, each edge's source before its targets; then START and the items' shapes; then unreachable items, dead ends and END |
| `Validation.AggregateEdges` | crates/group-agent-core/src/graph.rs:477-611 | aggregates every declared edge, or reports the first edge fault |
| `Validation.ValidateEdgeShapes` | crates/group-agent-core/src/graph.rs:613-650 | reports exactly the missing START edge, or a source with several kinds of outgoing edges or several fixed edges |
| `Validation.SearchFromStart` | crates/group-agent-core/src/graph.rs:652-687 | the search visits exactly the identifiers reachable from START |
| `Validation.ValidateReachability` | crates/group-agent-core/src/graph.rs:652-687 | reports exactly the first unreachable item or item without outgoing edge |
| `FrontierCheck.AlternativesAreActivations` | crates/group-agent-core/src/graph.rs:768-815 | the alternatives of a source are exactly what its transition may activate, together where it fans out |
| `FrontierCheck.EnqueueFrontier` | crates/group-agent-core/src/graph.rs:744-766 | queues every unordered pair of a joint frontier once, END dropped |
| `FrontierCheck.ValidateSubgraphFrontiers` | crates/group-agent-core/src/graph.rs:689-815 | the worklist ends, and errs exactly when the least fixpoint of the co-active-pair relation, seeded by all fan-outs, contains a mount; the reported mount is in it |
| `FrontierCheck.ClosedWorklistIsSafe` | crates/group-agent-core/src/graph.rs:689-766 | a worklist that closed without a mount covers every pair that may ever run together |
| `Flatten.FlatBuilder.InsertNode` | crates/group-agent-core/src/graph.rs:890-903 | fills the slot and its path entry, or reports the duplicate path and changes nothing |
| `Flatten.FlatBuilder.AppendGraph` | crates/group-agent-core/src/graph.rs:905-954 | a child's items occupy fresh consecutive slots, remapped and prefixed; its scope exits move under the prefix; nothing earlier changes; it never fails |
| `Flatten.FlatBuilder.Finish` | crates/group-agent-core/src/graph.rs:956-979 | unwraps the slots of a builder whose every slot is filled |
| `Assembly.FillNode` | crates/group-agent-core/src/graph.rs:363-435 | filling the k-th item, a node, keeps the tables exact and everything filled so far |
| `Assembly.FillMount` | crates/group-agent-core/src/graph.rs:397-417 | filling the k-th item, a mount, places its entry, its child block and its exit, and keeps the tables exact |
| `Assembly.FilledEverywhere` | crates/group-agent-core/src/graph.rs:363-435 | after the last item no allocated slot is empty |
| `FlattenSound.WhitelistNamesApart` | crates/group-agent-core/src/graph.rs:438-474 | distinct identifiers of a compiled whitelist name distinct slots |
| `FlattenSound.EmbedKeepsItemOk` | crates/group-agent-core/src/graph.rs:905-954 | an item of a well-formed child stays in range and inside its namespace when embedded |
| `FlattenSound.CoActiveExplained` | crates/group-agent-core/src/graph.rs:689-815 | every pair of flattened items that may share a frontier comes from a declared pair or from a pair inside one child |
| `FlattenSound.MountsStayAlone` | crates/group-agent-core/src/graph.rs:689-815 | the declaration check carries over to the flattened array, at every nesting depth |
| `FlattenSound.FlatteningIsWellFormed` | crates/group-agent-core/src/graph.rs:363-436 | the flattened graph is well formed - indices in range, paths and scope exits bijective, mounts alone - and embeds every child |
| `Runtime.ScheduleIndependence` | crates/group-agent-core/src/runtime.rs:619-890 | completion order decides at most which error a failing super-step reports; a committing one counts each node |
| `Runtime.NoParallelFault` | crates/group-agent-core/src/runtime.rs:683-731 | a parallel super-step meets no fault in some order exactly when every node returned an update |
| `StepMeaning.CommitMeans` | crates/group-agent-core/src/runtime.rs:460-764 | a frontier commits the update of its one node, or the batch of one update per node in compiled order, each from that node's own function given the committed state, its own step and path, and the resume value if it is meant for it; it suspends only alone, where checkpoints are written; every failure names the node that caused it |
| `StepMeaning.SuperstepMeans` | crates/group-agent-core/src/runtime.rs:440-828 | a super-step has exactly the outcome its nodes' own answers, its items' own transitions, the scope exits and the structural moves describe |
| `StepMeaning.EntryLands` | crates/group-agent-core/src/runtime.rs:326-337 | entering the graph settles exactly where its structural moves lead |
| `Frontiers.RoutedIsCandidate` | crates/group-agent-core/src/runtime.rs:786-818 | routing every node of one namespace gives an ascending frontier of one namespace, or the one exit of its scope |
| `Frontiers.CoActiveIsBenign` | crates/group-agent-core/src/graph.rs:689-815 | whatever two items the compile-time check covers go on to activate together is real nodes |
| `Frontiers.ParallelFrontierIsReal` | crates/group-agent-core/src/runtime.rs:914-923 | a harmless frontier - one whose pairs lead to real nodes only, whatever they activate together - of two or more holds no structural item |
| `Frontiers.NormalizeSettlesOnNodes` | crates/group-agent-core/src/runtime.rs:900-976 | from a harmless frontier normalization settles on real nodes, again harmless: its debug assertion cannot fail |
| `Frontiers.SuperstepKeepsFrontier` | crates/group-agent-core/src/runtime.rs:786-828 | from any frontier validation accepts, a committed super-step that does not panic leaves a strictly ascending frontier of real nodes in one namespace |
| `Frontiers.SuperstepStaysHarmless` | crates/group-agent-core/src/runtime.rs:786-828 | from a harmless frontier no super-step panics, and the next frontier is harmless |
| `Frontiers.EntryFrontierIsOk` | crates/group-agent-core/src/runtime.rs:326-337 | entering the graph settles on a harmless frontier |
| `Settling.UnsettledNeverSettles` | crates/group-agent-core/src/runtime.rs:907-975 | the bounded loop gives up exactly when no number of structural moves would settle |
| `Settling.SpinningNeedsCycle` | crates/group-agent-core/src/runtime.rs:900-975 | normalization that never settles runs round a structural cycle |
| `Settling.NoEmptyMountSettles` | crates/group-agent-core/src/runtime.rs:900-975 | without an empty mount there is no structural cycle and every frontier settles: exits climb, entries descend |
| `Settling.SettlesExactlyWithoutCycle` | crates/group-agent-core/src/runtime.rs:900-975 | a graph has no structural cycle if and only if it settles for every choice of routers of its shape |
| `CompileGaps.EmptyMountCanSpin` | crates/group-agent-core/src/graph.rs:401-407 | a declaration with an empty child that passes every check, and whose compiled entry never settles |
| `CompileGaps.BuildSpinning` | crates/group-agent-core/src/graph.rs:100-436 | the builder calls that produce that graph, none refused |
| `Mounting.NormalizeOnMount` | crates/group-agent-core/src/runtime.rs:900-976 | entering and leaving scopes inside a mounted child is doing so in the child, prefixed and shifted |
| `Mounting.SuperstepOnMount` | crates/group-agent-core/src/runtime.rs:420-874 | a super-step of a mounted child commits the state the child alone commits, with prefixed paths and shifted indices, same failures, for nodes that read only the state and a batch reducer that gives the same under this prefix |
| `MountedRuns.EnteringStartsChild` | crates/group-agent-core/src/runtime.rs:927-947 | entering a mount normalizes to the child's own entry frontier |
| `MountedRuns.MountedRunsAlike` | crates/group-agent-core/src/runtime.rs:812-874 | from entry to exit a mounted child passes through the same committed states, super-step for super-step, as alone |
| `MountedRuns.VisitedOnMount` | crates/group-agent-core/src/runtime.rs:420-874 | the visited paths differ from the child's by the mount prefix only |
| `MountedRuns.CompiledMountsAreMounted` | crates/group-agent-core/src/graph.rs:397-417 | every mount of a compiled declaration is mounted in the sense the theorems need |
| `Runs.RunAccounting` | crates/group-agent-core/src/runtime.rs:420-438 | each commit counts exactly its nodes and one super-step; steps and frontier together are the nodes visited; finished exactly when the frontier is empty |
| `RunMeaning.InvocationMeans` | crates/group-agent-core/src/runtime.rs:392-890 | a run is super-steps as described, only the first of them handed the resume value, up to the first that does not commit or does not fit the budget |
| `RunMeaning.BudgetIsKept` | crates/group-agent-core/src/runtime.rs:392-438 | no run commits more nodes than its budget; it stops for its budget exactly when what is next does not fit, and then names the budget, the first node that does not fit and its step |
| `Runs.HarmlessRunsNeverPanic` | crates/group-agent-core/src/runtime.rs:914-923 | no run from a harmless frontier panics |
| `Runs.RunIgnoresSchedule` | crates/group-agent-core/src/runtime.rs:619-765 | the schedule changes no committed boundary and no ending except which failure is reported |
| `Resuming.RunSplits` | crates/group-agent-core/src/runtime.rs:392-438 | a run from any of its own boundaries is the rest of that run |
| `Resuming.LargerBudget` | crates/group-agent-core/src/runtime.rs:429-438 | a larger budget only extends a run, and changes nothing unless the smaller one was exhausted |
| `Resuming.StopAndResume` | crates/group-agent-core/src/runtime.rs:1069-1327 | budget k, stopped anywhere, then budget m to completion commits what one run with budget k + m commits, each of the three completing its nodes in its own order |
| `Resuming.ResumeReachesTheEnd` | crates/group-agent-core/src/runtime.rs:1069-1327 | stopping anywhere and continuing with at least the budget ends in what the unbroken run ends in |
| `Resuming.ModeMattersOnlyForInterrupts` | crates/group-agent-core/src/runtime.rs:1885-1966 | disabled, read-only and saving runs commit the same boundaries |
| `Execution.NormalizeFrontier` | crates/group-agent-core/src/runtime.rs:900-976 | the loop that rewrites the frontier computes `Settle` |
| `Execution.RouteFrontier` | crates/group-agent-core/src/runtime.rs:786-806 | the routing loop appends every source's targets in order, or reports the first failing source |
| `Execution.RunParallel` | crates/group-agent-core/src/runtime.rs:622-752 | filling slots in completion order gives the batch in compiled order, or the first fault in that order |
| `Execution.RunFrontier` | crates/group-agent-core/src/runtime.rs:460-764 | one node or a parallel batch: the commit, the held interrupt or the failure that `StepMeaning.CommitMeans` describes |
| `Execution.TakeSuperstep` | crates/group-agent-core/src/runtime.rs:440-828 | running, committing, routing, normalizing and the debug assertion are one specified super-step |
| `Execution.Execute` | crates/group-agent-core/src/runtime.rs:369-890 | outcome and store are those of the described run with its saves in order; only a cancelled or unsaved execution stops early, and then with a prefix, or before anything was saved |
| `Execution.CompletedCountsItsNodes` | crates/group-agent-core/src/runtime.rs:876-890 | a completed execution reports as many visited nodes as it counted steps |
| `Execution.ExecutionKeepsBudget` | crates/group-agent-core/src/runtime.rs:392-438 | however an execution ends it has executed at most the budget's nodes; one not cut short fails with the budget error exactly when the next frontier does not fit |
| `Execution.InterruptIsStored` | crates/group-agent-core/src/runtime.rs:526-566 | an interrupted execution has stored the suspended node with its payload, under the identifiers it was given, after the last boundary saved |
| `Execution.CompletionIsStored` | crates/group-agent-core/src/runtime.rs:829-890 | a completed execution that may write has stored its end under either policy, also that of a graph with nothing to run |
| `Records.TryFromParts` | crates/group-agent-core/src/checkpoint_record.rs:128-160 | builds a record exactly when completion, frontier and interrupt agree, else reports what does not |
| `Records.ValidateAndResolveFrontier` | crates/group-agent-core/src/runtime.rs:1736-1822 | accepts exactly the records of this very version that name distinct real nodes of one namespace in compiled order, and resolves them; a record or graph without version, or of another one, is refused as exactly that, and any other refusal names what is wrong |
| `Records.AcceptedFrontierIsUnique` | crates/group-agent-core/src/runtime.rs:1779-1796 | a record reads back as one frontier only |
| `Records.WrittenBoundaryReadsBack` | crates/group-agent-core/src/runtime.rs:829-843 | every boundary a run saves is a valid record and is accepted back as the very indices, counters and state it came from |
| `ForeignRecords.AcceptedIsSafeExactlyWhenHarmless` | crates/group-agent-core/src/runtime.rs:1736-1822 | no run from an accepted frontier panics, whatever routers, nodes and reducers of this shape compute, if and only if the co-active closure seeded with its pairs holds real nodes only |
| `ForeignRecords.HarmfulCanPanic` | crates/group-agent-core/src/runtime.rs:914-924 | otherwise routers that follow the path to the mount, over a state that can count, make a run panic |
| `CompileGaps.AcceptedRecordCanPanic` | crates/group-agent-core/src/runtime.rs:914-924 | a declaration that passes every check and a record validation accepts, from which every committing super-step panics although the record's nodes never run together |
| `CompileGaps.BuildMixing` | crates/group-agent-core/src/graph.rs:100-436 | the builder calls that produce that graph, none refused |
| `CheckpointStore.InMemoryCheckpointStore.Save` | crates/group-agent-core/src/checkpoint_store.rs:137-173 | idempotency, then parent compare-and-swap on the thread head, then insertion; invariant kept, nothing lost |
| `CheckpointStore.InMemoryCheckpointStore.SaveBranch` | crates/group-agent-core/src/checkpoint_store.rs:175-218 | the same against one branch head |
| `CheckpointStore.InMemoryCheckpointStore.CreateBranch` | crates/group-agent-core/src/checkpoint_store.rs:281-313 | a new branch starts at an existing record of the same thread |
| `CheckpointStore.SaveMeans` | crates/group-agent-core/src/checkpoint_store.rs:137-173 | a save is acknowledged exactly for a record that sits in a history or that is new and continues the newest one, which then ends in it; a conflict names a rival record, or both parents |
| `CheckpointStore.BranchSaveMeans` | crates/group-agent-core/src/checkpoint_store.rs:175-218 | the same for a branch, where a repeat must name the branch the record was written to |
| `CheckpointStore.OpeningMeans` | crates/group-agent-core/src/checkpoint_store.rs:281-313 | a branch opens once, at any record of its thread that is in some history, and starts with that record alone |
| `CheckpointStore.ReadsMean` | crates/group-agent-core/src/checkpoint_store.rs:244-349 | a record is found by thread and identifier exactly when some history holds it, the latest is the last of the thread's history, and a branch answers under its own thread alone |
| `CheckpointStore.TryFromRecords` | crates/group-agent-core/src/checkpoint_store.rs:120-129 | imports records in order under the same checks, stopping at the first refusal |
| `CheckpointStore.StoreInvariant` | crates/group-agent-core/src/checkpoint_store.rs:137-313 | over every operation sequence: thread histories are parent chains from a root, branch histories their source and then a chain, parents lead to a root, histories only grow by appending |
| `CheckpointStore.WritesAreIsolated` | crates/group-agent-core/src/checkpoint_store.rs:137-218 | a write moves at most the one head it names |
| `CheckpointStore.RepeatedSaveReturnsOriginal` | crates/group-agent-core/src/checkpoint_store.rs:142-150 | an acknowledged save repeated at any later time returns the original and changes nothing |
| `CheckpointStore.RepeatedBranchSaveReturnsOriginal` | crates/group-agent-core/src/checkpoint_store.rs:181-191 | the same on a branch |
| `CheckpointStore.RivalsOnOneThread` | crates/group-agent-core/src/checkpoint_store.rs:152-162 | of two writers that expect one parent on one thread head the second gets a conflict, whatever happens in between |
| `CheckpointStore.RivalsOnOneBranch` | crates/group-agent-core/src/checkpoint_store.rs:193-206 | the same on a branch |
| `CheckpointStore.HistoryRebuilds` | crates/group-agent-core/src/checkpoint_store.rs:120-129 | importing any stored thread history into an empty store succeeds and gives that history back |
| `Sqlite.SqliteCheckpointStore.Save` | crates/group-agent-checkpoint-sqlite/src/lib.rs:233-276 | the save transaction, its statements constrained, rolled back on any refusal |
| `Sqlite.SqliteCheckpointStore.SaveBranch` | crates/group-agent-checkpoint-sqlite/src/lib.rs:392-557 | the branch save transaction with its membership, ownership and head checks and both triggers |
| `Sqlite.SqliteCheckpointStore.CreateBranch` | crates/group-agent-checkpoint-sqlite/src/lib.rs:336-390 | the branch creation transaction |
| `Sqlite.SqliteCheckpointStore.FetchBranchHistory` | crates/group-agent-checkpoint-sqlite/src/lib.rs:699-850 | the row-by-row self-check answers what the scan of the ordered query answers, same first fault |
| `SqliteHistory.BranchHistoryIsExact` | crates/group-agent-checkpoint-sqlite/src/lib.rs:699-850 | on arbitrary tables a branch history is answered exactly when it is a duplicate-free same-thread parent chain from source to stored head over all members in write order |
| `SqliteFaults.BranchFaultsAreReal` | crates/group-agent-checkpoint-sqlite/src/lib.rs:699-880 | on arbitrary tables every fault of the branch query names damage that is there - an unreadable, malformed, missing, foreign, repeated or straying row, or a head that is no member or not the newest |
| `SqliteFaults.DamagedSaveMeans` | crates/group-agent-checkpoint-sqlite/src/lib.rs:392-557 | on arbitrary tables a branch save is acknowledged exactly for a repeat its membership and owner confirm or a new record on a head that reads back; every refusal names its reason, and nothing is written unless a new record is acknowledged |
| `SqliteRefines.SaveRefines` | crates/group-agent-checkpoint-sqlite/src/lib.rs:233-276 | on tables that hold what the maps hold, a save gives the same answer and keeps the correspondence |
| `SqliteRefines.SaveBranchRefines` | crates/group-agent-checkpoint-sqlite/src/lib.rs:392-557 | the same for a branch save, with the one exception named |
| `SqliteRefines.CreateBranchRefines` | crates/group-agent-checkpoint-sqlite/src/lib.rs:336-390 | the same for branch creation |
| `SqliteRefines.HistoryRefines` | crates/group-agent-checkpoint-sqlite/src/lib.rs:278-334 | thread history and latest record read the same |
| `SqliteRefines.BranchReadsRefine` | crates/group-agent-checkpoint-sqlite/src/lib.rs:559-598 | branch head and branch history read the same |
| `SqliteRefines.ReachedBranchIsSound` | crates/group-agent-checkpoint-sqlite/src/lib.rs:699-850 | tables reached by these operations pass every self-check |
| `SqliteRefines.SqliteRefinesMemory` | crates/group-agent-checkpoint-sqlite/src/lib.rs:233-598 | after every operation sequence both stores answer alike and no constraint, trigger or corruption check fires, if and only if the operation is not a misowned repeat; such a repeat writes nothing in either |
| `SqliteRefines.MisownedRepeatHappens` | crates/group-agent-checkpoint-sqlite/src/lib.rs:424-438 | a concrete operation sequence reaches the exception |
| `Saving.RunCheckpoints.Save` | crates/group-agent-core/src/runtime.rs:2016-2113 | an acknowledged save has stored a record with this boundary's state, counters, paths, interrupt and parent, and advances the expected parent; a refused one does not |
| `Saving.SaveStores` | crates/group-agent-core/src/runtime.rs:2016-2113 | the same of every store: the record written is the boundary's, and every other record stays |
| `Saving.EverySuperstepIsStored` | crates/group-agent-core/src/runtime.rs:1992-2014 | under the every-super-step policy each committed boundary has its record, each the parent of the next |
| `Saving.FinalOnlyStoresTheEnd` | crates/group-agent-core/src/runtime.rs:1992-2014 | under the final-only policy nothing is saved before the end, and then the completed boundary alone |
| `Saving.ReadOnlyRunsWriteNothing` | crates/group-agent-core/src/runtime.rs:1952-1964 | a run without the right to write leaves the store alone |
| `Loading.LoadPosition` | crates/group-agent-core/src/runtime.rs:1228-1283 | loads exactly the decoded records that validate, restore and match the presence of a resume value, all of them of this graph's version; and names why it refuses |
| `Loading.LoadedFits` | crates/group-agent-core/src/runtime.rs:1228-1283 | a loaded record is of this graph's version, and a resume value goes to the one node the record is interrupted at |
| `EntryPoints.Invoke` | crates/group-agent-core/src/runtime.rs:310-366 | enters the graph and executes from there, saving an empty graph once; never panics, and leaves a store reachable that was |
| `EntryPoints.LoadHead` | crates/group-agent-core/src/runtime.rs:1105-1206 | answers the decoded head; a named record that is not the head is refused exactly with the resume conflict, a missing one exactly as not found |
| `EntryPoints.Resume` | crates/group-agent-core/src/runtime.rs:1069-1327 | continues exactly what the head record remembers, whoever wrote it, as a described run whose first super-step alone hands the value to the interrupted node; over a reachable store it never panics and leaves a reachable store |
| `EntryPoints.Replay` | crates/group-agent-core/src/runtime.rs:1334-1518 | re-executes any record as such a run, writes nothing and never ends interrupted: the unreachable branch is; over a reachable store it never panics |
| `EntryPoints.Fork` | crates/group-agent-core/src/runtime.rs:1524-1703 | a new branch headed by the source record and such a run that continues it there; over a reachable store it never panics and leaves a reachable store |
| `LineageSoundness.LineageIsSound` | crates/group-agent-core/src/runtime.rs:420-874 | over every interleaving of invocations, resumes and forks: each record is the result of executing from its parent's state and frontier, counters never fall along a parent edge and stand still only into an interrupt, and the record is accepted back |
| `LineageSoundness.CrashesDoNotShow` | crates/group-agent-core/src/runtime.rs:1303-1326 | a record without interrupted ancestors is the boundary one unbroken invocation reaches at the same super-step; if completed, that invocation finishes there |
| `LineageSoundness.ReachableWorldIsOk` | crates/group-agent-core/src/runtime.rs:1975-2113 | the invariant behind both: store, records and every run in flight agree |
| `Recovery.StoppingDoesNotShow` | crates/group-agent-core/src/runtime.rs:1069-1518 | an execution stopped after any saved super-step and resumed or replayed to completion ends in the state and step count of one unbroken run with both budgets, whatever the three completion orders |
| `Recovery.PolicyDoesNotShow` | crates/group-agent-core/src/runtime.rs:2012-2014 | checkpoint policy and destination never change what an execution computes |
| `Reachability.ExecutionIsReachable` | crates/group-agent-core/src/runtime.rs:369-890 | however an execution ends - completed, suspended, failed, refused a save, cancelled - the transition system of concurrent runs leaves the same store behind |
| `Reachability.SuspensionIsAStep` | crates/group-agent-core/src/runtime.rs:526-566 | saving a suspended node is the transition system's suspension of the run that mirrors the execution |
| `Reachability.ReachableHoldsHarmless` | crates/group-agent-core/src/runtime.rs:1736-1822 | every record of a reachable store that validation accepts stands on a harmless frontier |
| `Reachability.ReadOnlyLeavesTheStore` | crates/group-agent-core/src/runtime.rs:1885-1966 | a disabled or read-only execution leaves the store it found and never suspends |
| `Checkpoints.RecordRoundTrip` | crates/group-agent-core/src/checkpoint.rs:152-224 | a typed checkpoint written as a record decodes to itself, field by field |
| `Checkpoints.WrittenSays` | crates/group-agent-core/src/checkpoint.rs:457-544 | a checkpoint is written field by field, or refused for the snapshot or payload that cannot be encoded or the parts that do not fit |
| `Checkpoints.ReadSays` | crates/group-agent-core/src/checkpoint.rs:152-224 | a record is read field by field, or refused for its format or for what cannot be decoded |
| `DecodedCache.DecodedCheckpoints.RemoveExpired` | crates/group-agent-core/src/checkpoint.rs:1344-1356 | the scan happens exactly when the countdown reaches zero: then exactly the dead entries go and the countdown restarts at the survivors or 64; before, it falls by one and nothing goes |
| `DecodedCache.DecodedCheckpoints.StaysSmall` | crates/group-agent-core/src/checkpoint.rs:1344-1356 | entries stay within L + max(L, 64) for L survivors of the last cleanup, and all scans together cost at most two entries per insertion |
| `DecodedCache.DecodedCheckpoints.OneLiveObject` | crates/group-agent-core/src/checkpoint.rs:1398-1426 | two live objects handed out for one id are the same object |
| `DecodedCache.DecodedCheckpoints.Cached` | crates/group-agent-core/src/checkpoint.rs:1378-1396 | the live object of this very record, nothing, or a conflict, exactly |
| `DecodedCache.DecodedCheckpoints.Cache` | crates/group-agent-core/src/checkpoint.rs:1398-1426 | publishes a decoded object unless a live one is there, which is then returned |
| `DecodedCache.RecordCheckpointer.Decode` | crates/group-agent-core/src/checkpoint.rs:1428-1440 | a read of a stored record equals decoding it afresh, as a live shared object |
| `DecodedCache.RecordCheckpointer.History` | crates/group-agent-core/src/checkpoint.rs:1500-1510 | a decoded history is the stored one, record by record, or the failure of one of its records |
| `DecodedCache.RecordCheckpointer.Save` | crates/group-agent-core/src/checkpoint.rs:1459-1475 | an acknowledged save hands out an object equal to what was submitted and to what the store holds |
| `UsageMerging.ValidateIdempotentMerge` | crates/group-agent-model/src/extensions.rs:99-114 | accepts exactly compatible data and counts the keys it would add, else reports the lexically first conflicting key |
| `UsageMerging.CommitIdempotentMerge` | crates/group-agent-model/src/extensions.rs:116-120 | adds what is new and keeps what is there |
| `UsageMerging.MergeIsIdempotent` | crates/group-agent-model/src/extensions.rs:93-97 | a merge keeps both sides, adds nothing else, commutes and repeats without effect |
| `UsageMerging.ValidateIsConsistent` | crates/group-agent-model/src/response.rs:212-239 | validation accepts exactly usage whose components fit in 64 bits and are covered by an explicit total |
| `UsageMerging.MergeSnapshot` | crates/group-agent-model/src/response.rs:188-210 | merges exactly the snapshots that lower no counter, stay consistent and conflict with no key: each reported counter replaces the old one and the keys are united; otherwise names the fault and changes nothing |
| `UsageMerging.MergedTotalsGrow` | crates/group-agent-model/src/response.rs:161-210 | the effective total is the explicit one or the sum of both parts; merging never lowers it, and repeating a snapshot changes nothing |
| `Collector.ChatStreamCollector.Push` | crates/group-agent-model/src/stream.rs:322-340 | an accepted event applies whole, a rejected one only poisons, a finished or failed collector never changes |
| `Collector.ChatStreamCollector.PushToolDelta` | crates/group-agent-model/src/stream.rs:441-508 | a fragment is accepted exactly within the limits and without a second id, name or conflicting key, and is refused for the first of these that fails |
| `Collector.ChatStreamCollector.Finish` | crates/group-agent-model/src/stream.rs:393-439 | after an accepted end event it cannot fail and returns the collected response in index order |
| `CollectorMeaning.CollectChatStream` | crates/group-agent-model/src/stream.rs:540-550 | succeeds exactly when the events fit, by `CollectorMeaning.Fits`, and end in their one end event; the response is what they say |
| `CollectorMeaning.AcceptedMeans` | crates/group-agent-model/src/stream.rs:322-508 | a stream is accepted exactly when its events fit the limits and do not contradict each other; then a call exists for each index that occurs, with its fragments' arguments joined in stream order, the id and name of the one fragment that has them and the union of the extensions |
| `CollectorMeaning.ResponseMeans` | crates/group-agent-model/src/stream.rs:393-439 | the finished response holds the joined text and those calls in ascending index order, with their arguments parsed |
| `CollectorChannels.AcceptedByChannel` | crates/group-agent-model/src/stream.rs:342-390 | a stream is accepted exactly when each of its channels is, alone, and collects what they collect |
| `CollectorChannels.ChannelsDecide` | crates/group-agent-model/src/stream.rs:322-439 | any reordering that keeps each channel's order is accepted alike and gives an equal response |
| `CollectorChannels.CollectedEndsLast` | crates/group-agent-model/src/stream.rs:322-340 | only streams that end in their one end marker are collected |
| `CollectorChannels.RejectionPoisons` | crates/group-agent-model/src/stream.rs:335-340 | after a rejection no later event changes anything |
| `GenaiStream.GenaiEventStream.PollNext` | crates/group-agent-genai/src/stream.rs:397-483 | each item is the next one the inner stream amounts to; `None` exactly once over; the inner stream is never polled after its end or an error |
| `GenaiStream.OutputGrammar` | crates/group-agent-genai/src/stream.rs:217-358 | the items are the text chunks in order, then nothing yet, one error, or response metadata, at most one usage and the end |
| `GenaiStream.WrapperFitsCollector` | crates/group-agent-genai/src/stream.rs:217-358 | whatever the inner stream sends: if the wrapper is over without an error, the collector accepts its items, text limit permitting, and collects the concatenated chunks and what the end event was mapped to |
| `GenaiMeaning.EndMeans` | crates/group-agent-genai/src/stream.rs:217-358 | an end is mapped with the reasoning that was streamed, or repeated and not in conflict, and with the signatures of its parts in order, all within their limits; or refused for the first of these that fails |
| `GenaiMeaning.StreamMeans` | crates/group-agent-genai/src/stream.rs:397-483 | for every inner stream: the text chunks in order up to the first poll that stops it, then exactly that poll's error or closing events, and nothing after |
| `Shutdown.ShutdownIsSafe` | crates/group-agent-mcp/src/session.rs:392-417 | over every interleaving: cleanup starts at most once, is published after both workers ended and after CLOSED, and every returning caller sees the one result, service failure first |
| `Shutdown.CallersAgree` | crates/group-agent-mcp/src/session.rs:94-112 | callers that return at different times return the same result |
| `Shutdown.StepKeepsSession` | crates/group-agent-mcp/src/session.rs:80-113 | every step keeps the protocol invariant; cancelling a caller touches nothing else |
| `Shutdown.EveryCallerReturns` | crates/group-agent-mcp/src/session.rs:80-113 | after any interleaving, once nobody calls any more only so many steps are left in whatever order, and when none is possible every caller has returned the one result or was dropped |
| `Shutdown.NoMissedWakeup` | crates/group-agent-mcp/src/session.rs:94-112 | once cleanup is done every remaining caller can take its next step, or the lock holder can, and each step brings it nearer to returning |
| `Shutdown.CleanupGoesOn` | crates/group-agent-mcp/src/session.rs:459-479 | until then the cleanup task can move as soon as the workers end, and gets nearer to done |

## Left out

- Events, sinks, retention, tracing and error formatting: only the order of subgraph boundaries is kept.
- The four routing errors are one `RouteFailed` carrying the transition error, and the per-kind compile and
  build errors are one constructor with an edge kind.
- Cancellation, run and node deadlines are one abort: a check between two effects of a super-step has the same
  outcome as one before the super-step, so `Execution.Execute` checks where the outcome can differ - before
  anything is saved, before each super-step, after each save and at the end. A save interrupted half-way is a save followed by an abort.
- Cancellation while a record is being loaded: it has the effect of not having started.
- Nodes, routers, reducers and codecs that are not functions of their arguments; the meaning theorem for mounts
  asks that nodes of the child read only the state, since their path and step differ by design, and that the
  batch reducer gives the same when the child's batch comes in under this mount's prefix.
- Stores shared by several graphs: the transition system and `Reachability` speak of one graph over one store.
- `resume_with_state_initializer` callbacks and a caller-chosen expected parent on an invocation: both let the
  caller change what a lineage means.
- Execution.NormalizeFrontier: the program's loop has no bound; the model's counter turns an endless loop into
  the answer `Unsettled`, which `Settling.UnsettledNeverSettles` proves to mean exactly that.
- The lineage transition system lets a run stop at any time instead of counting its budget, and identifiers may
  repeat: the store's idempotency check is what keeps them apart.
- 64-bit overflow of step counters: `usize` is 64 bits and only the saturating step limit is modelled; record
  counters are unbounded.
- SQL text, column encodings, WAL and pool behaviour: tables are sequences and maps, a row either decodes to the
  parts of a record or does not, transactions are atomic. The query's own ordering makes the source row first, so
  the check for a first row that is not the source is not repeated.
- Lock poisoning, `serde_json`, UUID generation and codec descriptors: JSON validity is a predicate, a codec that
  rejects a descriptor is a decoding failure.
- DecodedCache.RecordCheckpointer.History: other threads do not interleave inside one call; each cache operation
  keeps the invariant on its own. Branch reads and writes differ only in the store call and are not repeated.
- Identifier validation, capability flags and request validation: true but easy.
- Tool-call normalization in the genai stream, which the text-only path rejects before reaching it, and the
  provider's own mapping of stop reasons, identifiers and usage, which is a parameter.
- Dropping a session, the child reaper and process termination.
