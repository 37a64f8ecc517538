# A verified model of the code-graph build and its reachability analysis

The repository turns a source tree into a graph of files, classes, functions and the
edges between them, stores that graph, and marks which functions lie between an entry
point and a dangerous operation. This project models the algorithms that make the graph
trustworthy and proves what they promise:

* **Resolution** (`LookupIndices`, `ImportTables`, `SupertypePass`, `DottedNames`, `Narrowing`,
  `Ancestors`, `Inheritance`, `Dispatch`, `Containment`, `ReferenceEdges`, `ResolveRefs`):
  references by name become edges. The
  scalar-or-list indices are proved to answer as linear filters would, in the same order;
  the breadth-first ancestor walk lists each ancestor once, nearest first, on any graph;
  every receiver-narrowed candidate is a method some class of the receiver dispatches to.
* **What a reference means** (`Visibility`, `CallMeaning`, `EdgeTargets`, `CallTargets`,
  `MarkerEdges`, `Verdicts`, `ReferenceMeaning`): the edges of each type of reference, and how
  the reference is counted, said of nodes, containment, imports and supertypes alone. No index,
  filter or test of the resolver occurs in these statements.
* **The pass and its sink** (`CoverageLedger`, `EdgeStats`, `StreamSink`, `RetainedEdges`,
  `ResolveRun`, `ResolveStage`): slices of edges leave for the writer while the pass goes on. Nothing is
  lost or reordered, nodes go before the edges that name them, counters add up, and in the
  end the store holds the upserts of exactly the edges the references asked for.
* **Writing** (`BackgroundWriter`, `Relationships`, `StoreWrites`, `BatchScheduler`,
  `LandingOrder`): a bounded queue to a thread that may fail, edges grouped by type and cut
  into batches, and a pool of concurrent writers.
* **Extraction** (`CanonicalIr`, `Checkpoint`, `RefStream`): two-level merging, a checkpoint
  directory that survives a crash between any two disk steps, and a prefetching stream.
* **Hierarchy** (`Overrides`, `BytecodeHierarchy`, `BytecodeOverrides`, `OverrideHandoff`):
  OVERRIDES by name and arity, OVERRIDES by erased descriptor, and the authority that the
  second hands to the first.
* **Reachability** (`Reach`, `ReachKinds`, `ReachMarks`, `TrustedCalls`): the two boolean
  closures, the set-valued kinds fixpoint, the universe between them, and which of the
  resolver's calls they go along.
* **Index runs** (`NamespaceLock`, `FileContents`, `IndexProtocol`, `ReadyStatus`,
  `EnsureIndexed`, `IncrementalIngest`): the lock, the status that fences off partial graphs,
  checkpoints that outlive the run that left them, and patching an existing graph.
* **Descriptors** (`Descriptors`): splitting a JVM parameter list and turning operand-stack
  offsets into parameter positions, after sections 2.6.2, 4.2.1, 4.3.2 and 4.3.3 of the Java
  Virtual Machine Specification.

`Graphs` (walks in a finite graph) and `GraphModel` (nodes, edges, references, filters) are
shared. `dafny verify dfyconfig.toml` checks everything.

Code that updates things step by step is modelled by classes and loops, each proved against
a function or predicate that states the result; protocols between threads or processes are
state machines over all interleavings. Endpoint matching, name and event normalisation,
node-id hashing, external-API classification, the package each file declares, the candidate cap,
the schema's edge types and the class-file index enter as parameters.

## Where the code and its documentation differ

The model follows the code. Each difference is a proved statement.

* `RefStream` says two batches are resident; a loader blocked on the full queue holds a
  third, exactly when three batches in a row can be loaded (`RefStream.ThreeAreHeldIff`, with
  `RefStream.AtMostThreeHeld` as the bound). Its consumer waits for ever exactly when
  loading some batch raises something other than the three exception types that are caught
  (`RefStream.StuckIffALoadDies`).
* `init_manifest` says a changed repository content discards the checkpoint; only the number
  of batches and the batch size are compared, so what a failed or killed run left of one tree
  answers for another of the same shape (`Checkpoint.StaleTree`; after a success the checkpoint
  is cleared, `Checkpoint.ClearedTree`; the exact condition under which a
  resumed run is right is in `Checkpoint.Directory.Run`).
* The third sink seed is meant to give every marked seed its kinds; a fresh summary that
  names a sink marks the function first and hides the catalog's kinds
  (`ReachMarks.CatalogKindsKeptIff`, `ReachMarks.SummaryHidesCatalog`), so the kinds cover the
  marks only under the condition of `ReachMarks.KindsCoverMarksIff`.
* `_extend_unique` runs on the nodes resolution synthesized after the sink has already added
  their ids to the known set, so it accepts none of them (`ResolveStage.ResolveAndWrite`).
* After a write failure the thread keeps writing what is already queued, so edges may be
  written whose endpoints were lost; `BackgroundWriter.EndpointsSurviveFailureIff` says for
  which hand-overs that cannot happen.
* Status "ready" is meant to say that the graph is the finished ingest of the stored hash. A
  run that takes over such a checkpoint publishes "ready" over another tree's contents
  (`ReadyStatus.StaleReady`). "Ready" can be relied on at every moment exactly when the ingest of
  every run that publishes comes out right from the graph and the checkpoint it finds
  (`ReadyStatus.VouchesThroughoutIff`, with the condition in `FileContents.IngestIsImageIff`);
  runs that open no checkpoint of another tree are enough (`ReadyStatus.RunsAreSafe`).
* An incremental ingest is meant to leave the graph of a fresh one. It does exactly when every
  stored node whose file is not in the change set is produced again
  (`IncrementalIngest.PatchIsFreshIff`). Two kinds of node need not be: nodes without a file
  (`IncrementalIngest.StaleNodeLingers`), and nodes that class files contributed to a source file
  that did not change (`IncrementalIngest.LambdaNodeLingers`); there is no other
  (`IncrementalIngest.SynthesizedLinger`).
* A containment cycle without a class makes the enclosing-class loop endless
  (`Containment.SelfContainedIsEndless`; `Containment.EncloseIsNearestClass` gives the exact
  condition).
* The parameter pattern takes any text between `L` and `;` as a class name and any number of
  brackets, more than sections 4.2.1 and 4.3.2 allow (`Descriptors.AcceptedIffWithin`).

## Model

| member | source | states |
|---|---|---|
| LookupIndices.BuildIndices | graph_core/resolver.py:196-229 | one pass over nodes and edges yields indices whose every bucket and slot is the sublist of the node list it stands for, in node order |
| LookupIndices.FillSlots | graph_core/resolver.py:354-382 | the scalar-or-list members index holds, under each owner and name, exactly the nodes filed there, in order |
| LookupIndices.PoolIsScan | graph_core/resolver.py:447-467 | the name pool probed from the index equals filtering all nodes by name and label |
| LookupIndices.ScopeProbeIsFilter | graph_core/resolver.py:468-480 | probing by name and parent, with the label filter, equals filtering the pool by parent, order included |
| LookupIndices.FileProbeIsFilter | graph_core/resolver.py:481-493 | probing by name and file equals filtering the pool by file, order included |
| DottedNames.SegmentIsDotted | graph_core/resolver.py:1441-1478 | the segment-set test holds exactly when the fully qualified name contains the tail between dots or ends with it after a dot |
| DottedNames.QualifiedHitsAreDotted | graph_core/resolver.py:1441-1478 | the hits are exactly the candidates with some imported tail as a non-leading dotted segment |
| DottedNames.SegmentMemo.Hits | graph_core/resolver.py:1469-1477 | the memoized loop returns what the definition does, and the memo stays right |
| DottedNames.TailIff | graph_core/resolver.py:1420-1429 | a text is the tail exactly if it has no dot and is the whole name or all of it behind a dot |
| ImportTables.ReadImports | graph_core/resolver.py:230-268 | per file, the tables hold exactly the simple names, full names, whole packages and last segments that its import references name; the supertype references are set aside in order |
| SupertypePass.TypesSelected | graph_core/resolver.py:571-635 | the candidates of a type reference are its targets, each as often as the node list has it and in that order |
| SupertypePass.Prepare | graph_core/resolver.py:659-678 | a class's direct supertypes are exactly those that hierarchy edges draw and those other classes that an EXTENDS or IMPLEMENTS reference in it can only mean |
| Containment.EncloseIsNearestClass | graph_core/resolver.py:391-400 | the enclosing class is the first class up the containment chain; the loop is endless exactly on a chain that goes on for ever without one |
| Containment.SelfContainedIsEndless | graph_core/resolver.py:391-400 | a function that a CONTAINS edge puts inside itself makes the loop endless |
| Ancestors.ChainIsNearestFirst | graph_core/resolver.py:680-700 | on any graph the chain lists exactly the other classes reachable through supertypes, each once, in nondecreasing shortest distance |
| Inheritance.InheritedIsNearest | graph_core/resolver.py:705-724 | the inherited declarations are those of a declaring ancestor of least distance, and none exist only if no ancestor declares the name |
| Inheritance.AncestorIndex.Walk | graph_core/resolver.py:688-700 | the two-list frontier loop computes the ancestor chain |
| Inheritance.AncestorIndex.Chain | graph_core/resolver.py:702-718 | the memoized chain agrees with recomputation |
| Inheritance.AncestorIndex.InheritedMembers | graph_core/resolver.py:705-724 | per starting class, in order, the nearest declarations; the memo stays right |
| Narrowing.ReceiversNarrowLikeTypes | graph_core/resolver.py:402-445 | a receiver's class is narrowed exactly as a type reference from the same file is |
| Narrowing.NarrowTypeKeepsSome | graph_core/resolver.py:571-635 | type narrowing returns a sublist of the pool and loses every candidate only if there was none |
| Narrowing.NarrowCallRefinesScan | graph_core/resolver.py:447-569 | candidates, order and strategy of the indexed cascade equal those of the cascade over filters of the node list, receiver tiers included; what those filters find is CallMeaning.NarrowCallMeans |
| Dispatch.ReceivedCallDispatches | graph_core/resolver.py:494-566 | every receiver-tier candidate is declared by a class of the receiver, or by a nearest declaring ancestor when no narrowed class of that tier declares the name |
| Dispatch.NarrowCallIsSound | graph_core/resolver.py:447-569 | every candidate is a callable of the called name; there is none exactly when the receiver's type is foreign or no callable has the name |
| Visibility.NarrowedAreBest | graph_core/resolver.py:402-445 | the filters in order keep exactly the classes that pass the earliest test any class of the name passes |
| Visibility.NarrowedAreVisible | graph_core/resolver.py:402-445 | of the classes of a name exactly those survive than which none is visible from the file in a better way: declared there, imported by full name, by dotted segment, same package, package imported whole, simple name imported |
| Visibility.NameTierIff | graph_core/resolver.py:571-635 | a type falls to the bare-name tier exactly when several classes bear the name and none is visible from the file |
| CallMeaning.NarrowCallMeans | graph_core/resolver.py:447-569 | a call's candidates are exactly the callables of the strongest relation to it (container, file, three kinds of import, own and inherited methods of three kinds of receiver, bare name) whose parameter count is the call's, or all of that relation when the call's is unknown or fits none; the strategy names the relation |
| CallMeaning.ArityHits | graph_core/resolver.py:1432-1438 | a candidate stays exactly if the call's arity is unknown, its own, or no candidate's |
| CoverageLedger.SettleMatches | graph_core/resolver.py:1347-1352 | after each reference every counter equals what the log of settlements tells about its type |
| CoverageLedger.ToldIsConserved | graph_core/resolver.py:1126-1204 | each type's total is arrivals minus demotions plus received weak edges, and equals resolved, ambiguous, unresolved, external and skipped together |
| CoverageLedger.BucketsCountVerdicts | graph_core/resolver.py:1126-1204 | of every type each bucket is the number of the verdicts of its kind |
| CoverageLedger.GrandTotalGrows | graph_core/resolver.py:1126-1204 | the grand total is references processed plus fallback REFERENCES |
| ResolveRefs.Resolver.Emit | graph_core/resolver.py:822-863 | the exact edges, bucket and count for none, one, several and too many candidates |
| ResolveRefs.Resolver.AddAnnotation | graph_core/resolver.py:887-896 | the annotation's node is synthesized on first use only, under one id for ever |
| ResolveRefs.Resolver.ResolveAnnotation | graph_core/resolver.py:880-899 | noise yields nothing; otherwise one edge to the annotation's node, synthesized on first use |
| ResolveRefs.Resolver.ResolveEvent | graph_core/resolver.py:900-921 | an empty topic is unresolved; otherwise one edge to the topic's node, synthesized on first use |
| ResolveRefs.Resolver.ResolvePolicy | graph_core/resolver.py:922-941 | one edge to the node of the policy, or of the default policy of the reference type |
| ResolveRefs.Resolver.ResolveApi | graph_core/resolver.py:942-989 | an edge to each matching endpoint, or one edge to an endpoint synthesized on first use |
| ResolveRefs.Resolver.ResolveCall | graph_core/resolver.py:1048-1204 | the exact edges, synthesized node and account of a call: skipped file, foreign receiver, demotion, fallback or narrowed candidates |
| ResolveRefs.Resolver.DemoteCall | graph_core/resolver.py:1126-1166 | a bare name on an unknown receiver gives weak edges, none above the cap, and moves over to REFERENCES |
| ResolveRefs.Resolver.Process | graph_core/resolver.py:1347-1352 | one reference of any type adds exactly its edges, synthesizes exactly its node on first use, and is counted exactly once |
| EdgeTargets.TypesAreTargets | graph_core/resolver.py:1231-1241 | the candidates of a type reference are the most visible classes of the name behind the last dot |
| EdgeTargets.FilesAreTargets | graph_core/resolver.py:991-1021 | the candidates of a file reference are the files of its base name in an allowed language; with several, those beside the referencing file win |
| EdgeTargets.ClassesByFqn | graph_core/resolver.py:213-219 | the table holds the first class of each full name |
| EdgeTargets.HandlersAreTargets | graph_core/resolver.py:1027-1046 | a handler is the first class of the full name, or else every class of the name behind its last dot |
| EdgeTargets.FieldsAreTargets | graph_core/resolver.py:1207-1229 | the candidates are fields of the nearest enclosing class, and module fields of the file only if that class has none of the name |
| EdgeTargets.HintedAreTargets | graph_core/resolver.py:1243-1265 | the candidates are callables of the name with the hinted label, or all of them when none has it |
| EdgeTargets.EdgesMeanTargets | graph_core/resolver.py:991-1265 | over every looked-up kind, with no index in the statement: edges of the reference's type and place to exactly the nodes it is about, ambiguous exactly when several, of the kind's own confidence when alone, none exactly when there is no such node or the cap cuts the bare name |
| CallTargets.ForeignIff | graph_core/resolver.py:447-467 | a call is reported foreign exactly when its receiver type is named and is no class of the repository |
| CallTargets.CallEdgesLeadRight | graph_core/resolver.py:1048-1204 | a call on a foreign receiver leaves one edge to its API, if of interest; any other leads to exactly the most strongly related callables whose arity fits, or else to the callables behind the last dot, by CALLS or REFERENCES edges that say how the target was found, ambiguous exactly when several, and to nothing when there are none or the cap cuts them |
| CallTargets.CallLeavesNoneIff | graph_core/resolver.py:1048-1204 | a call leaves no edge exactly when its file is skipped, its foreign receiver unclassified, nothing of its name callable, or the cap cuts the bare name |
| MarkerEdges.MarkersLead | graph_core/resolver.py:877-989 | an annotation, event, policy or API reference leads to the node it names, which it brings along under an id made of its kind and name, ambiguous if loosely matched; to every matching endpoint if there are any; noise and nameless events lead nowhere |
| Verdicts.LookupJudged | graph_core/resolver.py:822-863 | a looked-up reference is resolved exactly with one edge, ambiguous with several; without an edge it is unresolved exactly when the repository has what it is about or a file of its name, and external otherwise |
| Verdicts.CallIsCounted | graph_core/resolver.py:1126-1204 | a call is counted by its edges: as a call, or as a reference when only the name relates it to another object; without candidates as external, with its fallback counted beside it; skipped and foreign ones as external |
| ReferenceMeaning.ReferencesMean | graph_core/resolver.py:865-1265 | every reference of every type has the edges, the synthesized node and the count that its type says, and a dropped one has none |
| ReferenceEdges.CallEdgesAreSound | graph_core/resolver.py:1126-1166 | a CALLS edge is never drawn for a bare name on an unknown receiver |
| ReferenceEdges.EdgesAreFair | graph_core/resolver.py:804-863 | the edges of any reference leave its own source, land on known nodes or the one it synthesizes, and include no bare-name edge above the cap |
| ReferenceEdges.BuiltWithin | graph_core/resolver.py:196-229 | tables built from a node list look up nodes of that list only |
| EdgeStats.Tally.Add | graph_core/validator.py:49-59 | totals, counts per type and dangling edges grow by those of the batch |
| EdgeStats.TallyIsRecount | graph_core/validator.py:49-59 | the running dangling count never undercounts, and equals a recount over the final ids exactly when no endpoint arrives after its edge |
| StreamSink.Sink.Take | graph_core/pipeline.py:955-974 | nodes become known before the batch is counted; the batch is queued with its nodes; what returns are stand-ins for the structural edges in order, with type, source and target of each and nothing else |
| RetainedEdges.KeptSuffices | graph_core/pipeline.py:968-974 | behind any other edges, the stand-ins give the same containment and the same class hierarchy as all the edges |
| ResolveRun.Pass.Flush | graph_core/resolver.py:1300-1308 | the unflushed tail is replaced by its stand-ins and handed over with the new nodes; the emitted sequence is unchanged |
| ResolveRun.FlushKeeps | graph_core/resolver.py:1300-1308 | flushing keeps queue, stand-ins and marks aligned and nodes ahead of the edges that name them |
| ResolveRun.Pass.Run | graph_core/resolver.py:1333-1361 | queued batches concatenate to exactly the edges the references ask for, node slices to exactly the nodes they need, each on first use; the retained list stands for the structural ones in order and suffices for containment and hierarchy; nodes come first, counters match |
| ResolveStage.ResolveAndWrite | graph_core/pipeline.py:987-1016 | once the stage completes, the store holds exactly the upserts of the edges that came no sooner than their endpoints, in order; of all edges the references ask for if none starts at a node that is only synthesized, and then the dangling count is a recount; none dangles if all start at extracted nodes; no synthesized node is accepted again |
| ResolveStage.ResolveNodes | graph_core/resolver.py:196-229 | the same from nodes, edges and references: indices, import tables, supertypes, resolver, sink and pass built from them, so that every reference means what its type says; what is kept suffices to derive from |
| ResolveStage.MakeTables | graph_core/resolver.py:196-268 | the tables are what nodes, edges and references say they are |
| ResolveStage.ItemsWriteAll | graph_core/pipeline.py:887-912 | writing item by item equals writing all nodes and then the edges whose endpoints were there in time |
| ResolveStage.MissedIff | graph_core/store.py:277-283 | a relationship that was asked for is missing exactly when every edge of its key came before one of its endpoints |
| BackgroundWriter.CompletionDelivers | graph_core/pipeline.py:884-912 | in every interleaving, if the stage completes the write log is the enqueued items in order |
| BackgroundWriter.NoDeadlock | graph_core/pipeline.py:884-912 | until both sides have finished some step other than a failure is possible |
| BackgroundWriter.EveryStepAdvances | graph_core/pipeline.py:884-912 | every step brings a bounded measure down |
| BackgroundWriter.RunsAreBounded | graph_core/pipeline.py:1006-1013 | hence every run is bounded |
| BackgroundWriter.EndpointsAreStored | graph_core/pipeline.py:955-961 | before a failure, the endpoints of edges about to be written are in the store |
| BackgroundWriter.EndpointsSurviveFailureIff | graph_core/pipeline.py:884-912 | on every run, failing anywhere, edges follow their endpoints exactly when each edge names only nodes known before, handed over with it, or handed over more than four items earlier |
| BackgroundWriter.FailureLosesEndpoints | graph_core/pipeline.py:899-904 | so nodes-first order of the items alone does not suffice |
| BackgroundWriter.LogKeepsOrder | graph_core/pipeline.py:887-906 | on every run, failing or not, items are written at most once and in order |
| Relationships.AtKey | graph_core/store.py:278-284 | what a relationship ends up with is the overlay of the rows of its own key, in order |
| Relationships.LastSaidStays | graph_core/store.py:278-284 | a relationship between stored nodes has of each property what the last of its edges to say anything of it says, else what it had; no other relationship changes |
| Relationships.StoredIff | graph_core/store.py:278-284 | a relationship is there exactly if it was, or an edge between its stored endpoints was written |
| Relationships.Regroup | graph_core/store.py:254-297 | rows may be regrouped as long as those of one key keep their order |
| StoreWrites.FillBuckets | graph_core/store.py:263-270 | the buckets partition the live edges by type, in order; an unknown type is found before anything is written |
| StoreWrites.GroupedAtKey | graph_core/store.py:263-290 | grouping by type keeps the rows of one relationship together and in order |
| StoreWrites.SliceAll | graph_core/store.py:275-290 | the batches concatenate to the buckets; each holds one type and at most the batch size |
| StoreWrites.WriteEdges | graph_core/store.py:254-297 | with one writer the store equals upserting the live edges one by one, for every batch size; an unknown type leaves it untouched |
| StoreWrites.WriteEdgesInParallel | graph_core/store.py:254-297 | with several writers the relationships are the same, and their properties too unless two batches conflict |
| BatchScheduler.Database.WriteSequentially | graph_core/store.py:151-157 | the batches are applied in order and all rows counted |
| BatchScheduler.PoolConserves | graph_core/store.py:164-179 | written plus in-flight rows equal submitted rows, and at most the worker count is in flight |
| BatchScheduler.CollectKeeps | graph_core/store.py:171-178 | collecting a finished batch and submitting the next keeps the pool's invariant |
| BatchScheduler.Finished | graph_core/store.py:169-179 | an empty pool has landed every batch once, none more than the window ahead of its turn, and counted every row |
| BatchScheduler.Database.WriteInParallel | graph_core/store.py:164-179 | every batch lands once, in some admissible order, and the full row count is returned |
| BatchScheduler.ScheduleHappens | graph_core/store.py:164-179 | every admissible order is one the pool can produce |
| LandingOrder.SameKeys | graph_core/store.py:164-179 | the relationships left do not depend on the order of completion |
| LandingOrder.OrderIsFreeIff | graph_core/store.py:164-179 | the store is the same for all orders the pool can produce exactly when it has one writer or no two batches give one property different values |
| CanonicalIr.KeptIffFirst | graph_core/canonical_ir.py:32-62 | an item survives exactly when it is the first of its key |
| CanonicalIr.EdgeKeptIffNew | graph_core/canonical_ir.py:32-62 | an edge survives exactly when no earlier one differs from it in confidence and strategy only |
| CanonicalIr.RefKeptIffNew | graph_core/canonical_ir.py:32-62 | a reference survives exactly when no earlier one agrees in type, source, target name and place |
| CanonicalIr.MergeBundles | graph_core/canonical_ir.py:32-62 | the loops compute first-wins deduplication of nodes, edges and references |
| CanonicalIr.TwoLevelMerge | graph_core/pipeline.py:617-636 | merging batches and then their concatenation gives the same sequences as one merge |
| CanonicalIr.StreamedRefsAreMerged | graph_core/checkpoint.py:155-161 | streamed per-batch references equal the globally merged ones exactly when no key crosses batches |
| CanonicalIr.FilesKeepRefsApart | graph_core/checkpoint.py:155-161 | no key crosses batches when files do not |
| CanonicalIr.ExtendUnique | graph_core/pipeline.py:654-692 | the nodes accepted late are the first of each id not known before |
| Checkpoint.Directory.InitManifest | graph_core/checkpoint.py:69-90 | a manifest of the same shape is resumed untouched, any other is cleared; a crash on the way never leaves this shape behind |
| Checkpoint.Directory.SaveBatch | graph_core/checkpoint.py:93-103 | the file is there before the manifest lists it, whichever step a crash hits |
| Checkpoint.Directory.Extract | graph_core/pipeline.py:394-411 | exactly the batches not resumable are extracted anew; every batch ends up on disk and listed |
| Checkpoint.Directory.Run | graph_core/pipeline.py:590-600 | a run with enough disk steps ends; its result is the source's extraction exactly when every batch resumed from disk was this source's |
| Checkpoint.Directory.RunWithCrashes | graph_core/checkpoint.py:59-122 | over any number of crashes at any disk step, one life that is long enough yields the crash-free result, and nothing else is ever yielded |
| Checkpoint.StaleTree | graph_core/checkpoint.py:69-90 | after a run that got through extraction on one tree and then failed or was killed, a run on any other of the same shape returns the first tree's batches |
| Checkpoint.ClearedTree | graph_core/pipeline.py:1280-1284 | after a run that succeeded, a run on any tree returns its own batches, unless the checkpoint could not be removed whole |
| Checkpoint.OwnIffTruthful | graph_core/pipeline.py:394-411 | a run ends up with its own extraction exactly when every batch it takes over is its own |
| RefStream.StreamsInOrder | graph_core/checkpoint.py:169-209 | in every interleaving what was yielded is a prefix of all references, and all of them at the sentinel |
| RefStream.AtMostThreeHeld | graph_core/checkpoint.py:169-209 | on every run the batches in memory are among the last one taken and the two after it |
| RefStream.ThreeAreHeldIff | graph_core/checkpoint.py:173-175 | three can be in memory at once exactly when three batches in a row load with nothing before them that kills the loader |
| RefStream.NoOtherDeadlock | graph_core/checkpoint.py:182-209 | unless a load died, some side can go on; after the iteration is over it is the loader that can stop |
| RefStream.EveryStepAdvances | graph_core/checkpoint.py:182-209 | every step comes nearer the end, so an abandoned loader stops |
| RefStream.StuckIffALoadDies | graph_core/checkpoint.py:125-131 | the consumer can wait for ever exactly when some load raises what is not caught |
| Overrides.IndexEdges | graph_core/pipeline.py:1426-1438 | containment, and exactly the supertype arcs that EXTENDS and IMPLEMENTS edges draw between classes, in one pass |
| Overrides.WalkUp | graph_core/pipeline.py:1458-1479 | the worklist visits exactly the classes one or more arcs above, cycles included, and emits what they contribute |
| Overrides.DeriveOverrides | graph_core/pipeline.py:1440-1480 | a pair is emitted, once, if and only if it is an unskipped method and a different method of its name and arity in a class above its container; as an inferred edge evident where the method starts |
| BytecodeHierarchy.WalkChain | graph_core/bytecode_resolver.py:685-706 | the chain is exactly the names reachable through the superclasses and interfaces the headers name, each once; it is complete exactly when every unparsed one is outside the repository |
| BytecodeHierarchy.CompleteIffFinal | graph_core/bytecode_resolver.py:697-705 | a chain is complete exactly when no further repository header could change the ancestors |
| BytecodeOverrides.EmitTargets | graph_core/bytecode_resolver.py:708-724 | a method's targets along the chain, each pair once and never itself |
| BytecodeOverrides.BytecodeReport.WalkAll | graph_core/bytecode_resolver.py:680-728 | emitted pairs are exactly those proven by erased descriptor; authoritative are exactly the methods some complete class declares |
| BytecodeOverrides.BytecodeReport.Finish | graph_core/bytecode_resolver.py:571-592 | a pass rejected by either guard keeps no edge and publishes no claim |
| OverrideHandoff.DeriveAfterBytecode | graph_core/pipeline.py:1185-1201 | derived and proven pairs are disjoint and each written once; the claim sets are dropped afterwards |
| OverrideHandoff.HandoffLosesNothing | graph_core/pipeline.py:1449-1479 | a method without authority keeps every pair it had without bytecode, proven or derived but not both; one with authority gets no derived pair |
| OverrideHandoff.OverridesOfRun | graph_core/pipeline.py:1185-1201 | after both passes the pairs are the proven ones and those of methods without authority; after a discarded pass, as if it had not run |
| OverrideHandoff.EmitHierarchy | graph_core/bytecode_resolver.py:619-650 | each EXTENDS and IMPLEMENTS a header states between two different repository classes, once |
| OverrideHandoff.LinkIffTarget | graph_core/bytecode_resolver.py:267-274 | the header walk goes exactly along the supertypes that the hierarchy edges are drawn for |
| OverrideHandoff.NodeWalkReachesChain | graph_core/bytecode_resolver.py:594-617 | with those edges in place the name-and-arity walk reaches every repository class the binary walk does |
| Reach.RoundsAreHops | analysis/reach.py:185-207 | after k rounds the marks are exactly what is within k trusted calls of a seed |
| Reach.Propagate | analysis/reach.py:185-207 | converged, the marks are the closure of the seeds; stopped by the guard, everything within 50 hops; the count is the marks added |
| Reach.UniverseIsOnFlow | analysis/reach.py:444-467 | a function carries both marks exactly when it lies on a walk from an entry seed to a sink seed |
| ReachKinds.MergeLists | analysis/reach.py:276-278 | whatever the order of the lists, the merge is longer exactly when it has a new kind |
| ReachKinds.KindRound | analysis/reach.py:266-285 | a round gives every function the kinds its callees had, and counts no more than the facts it adds |
| ReachKinds.SettledKinds | analysis/reach.py:264-291 | a round without growth leaves each function the kinds of all seeds it reaches |
| ReachKinds.PropagateKinds | analysis/reach.py:262-298 | converged, exactly the kinds reached; stopped, those within 50 hops; all growth fits in functions times kinds |
| ReachMarks.CatalogKindsKeptIff | analysis/reach.py:152-183 | when the catalog's kinds survive the seed order |
| ReachMarks.SummaryHidesCatalog | analysis/reach.py:136-183 | a seed with a fresh summary and a catalog mark that ends up with no kinds |
| ReachMarks.KindsCoverMarksIff | analysis/reach.py:152-183 | marked functions and functions with kinds are the same exactly when every sink seed reaches a seed that has kinds |
| ReachMarks.Marks.Clear | analysis/reach.py:87-104 | no mark of an earlier run is left |
| ReachMarks.Marks.SeedSinks | analysis/reach.py:122-183 | the three seed queries in order mark exactly the functions with a dangerous call, a counted fresh summary that names a sink, or a catalog category, and give each the kinds its first source supplies |
| ReachMarks.SeedKindsMean | analysis/reach.py:122-183 | a seed has exactly the dangerous kinds it calls; without any, and unless a summary names a sink, what the catalog translates its categories to |
| TrustedCalls.TrustedIffDecided | analysis/reach.py:79-82 | a resolved call is trusted exactly when its container, its file or its receiver decided, neither an import nor the bare name |
| TrustedCalls.NameIsNotTrusted | analysis/reach.py:79-82 | no strategy of the bare-name tier is trusted |
| ReachMarks.Marks.MarkReachesSink | analysis/reach.py:107-219 | the marks are the backward closure of the sink seeds, or its 50-hop part, along calls read from bytecode or resolved by receiver or surroundings |
| ReachMarks.Marks.MarkKinds | analysis/reach.py:222-302 | the kinds are those of the seeds reached along such calls, or of those within 50 hops; growth is bounded |
| ReachMarks.Marks.MarkFromEntry | analysis/reach.py:305-441 | the marks are the forward closure of the entry seeds along such calls, or its 50-hop part |
| ReachMarks.Marks.MarkAll | analysis/reach.py:470-486 | with both loops converged the universe is every function on an entry-to-sink walk |
| NamespaceLock.BothClaimsIff | graph_core/store.py:374-411 | of two claims with no release between, the second succeeds exactly when its cut-off is later than the first's record; another token's release does not help it |
| NamespaceLock.MetaNode.ReleaseLock | graph_core/store.py:413-422 | a release with another token changes nothing |
| ReadyStatus.RunsAreSafe | ingest/indexing.py:73-163 | over all interleavings with failures and kills anywhere, if no holder outlasts the stale window at most one run holds the lock, and "ready" vouches for the stored hash if no publisher had opened a checkpoint with another tree's batch |
| ReadyStatus.PublishVouchesIff | ingest/indexing.py:112-134 | a publication vouches exactly when every file comes out as the tree has it, from the graph found as the run took the lock and the checkpoint it opened |
| ReadyStatus.VouchesThroughoutIff | ingest/indexing.py:73-163 | over all interleavings, "ready" vouches at every moment exactly when the ingest of every run that publishes comes out right |
| ReadyStatus.StaleReady | graph_core/checkpoint.py:69-90 | a run in which "ready" is published over another tree's batch |
| FileContents.IngestIsImageIff | ingest/indexing.py:98-125 | a wipe or a patch leaves every file as the tree has it exactly when no batch has another file or content, every file a batch lacks is stored under the tree's hash, and whatever is so stored has nodes of that content only |
| FileContents.FirstGivesHash | ingest/indexing.py:98-125 | of a file in several batches the hash is the first one's |
| FileContents.WipedComesOutRightIff | ingest/indexing.py:113-125 | from nothing, exactly when the batches merge to the tree |
| ReadyStatus.WipesUnlessReady | ingest/indexing.py:83-126 | over all interleavings, an ingest in progress wiped exactly if the namespace was not ready when its run took the lock, and will leave its tree exactly if it comes out right from what the run found |
| IndexProtocol.OutlastingIff | graph_core/store.py:374-411 | from any state of the protocol, a newcomer shares the lock with its holder exactly when the holder's record is older than the window |
| IndexProtocol.OutlastingBreaks | graph_core/store.py:374-411 | a run in which that happens |
| EnsureIndexed.Namespace.EnsureIndexed | ingest/indexing.py:73-163 | without a kill the lock is given back on every path, unless giving it back raises; what is published vouches exactly when the ingest comes out right from the graph and checkpoint found; unchanged trees are skipped; a success clears the checkpoint |
| IncrementalIngest.CodeGraph.Reingest | ingest/indexing.py:97-126 | patching any stored graph by the change set of two manifests gives a fresh build's nodes exactly when every stored node out of the deletion's reach is produced again, and then its relationships exactly when none between survivors went out of use |
| IncrementalIngest.PatchIsFreshIff | graph_core/store.py:340-354 | a patched graph has at least a fresh build's nodes, and exactly those when every stored node out of the deletion's reach is produced again |
| IncrementalIngest.SynthesizedLinger | graph_core/bytecode_resolver.py:275-308 | it fails only by nodes that no source file yields by itself: without a file, or contributed by class files to an unchanged one |
| IncrementalIngest.HistoryIsFreshIff | ingest/indexing.py:97-126 | without class files, however often the namespace was patched, exactly by nodes without a file |
| IncrementalIngest.PatchEdgesIff | graph_core/store.py:340-354 | and its relationships exactly when none between survivors went out of use |
| IncrementalIngest.StaleNodeLingers | graph_core/store.py:340-354 | a node without a file that a patch keeps and a fresh build lacks |
| IncrementalIngest.LambdaNodeLingers | graph_core/bytecode_resolver.py:295-308 | a lambda's node, which has a file, kept when another file is edited and the class files are gone |
| Descriptors.ParseParams | scripts/mine_findsecbugs.py:105-114 | the parse answers a list exactly when the text is the concatenation of those well-formed parameters, and refuses every other text |
| Descriptors.SplitIsUnique | scripts/mine_findsecbugs.py:101-114 | no text is the concatenation of two different parameter lists |
| Descriptors.DescriptorsAreParams | scripts/mine_findsecbugs.py:101-102 | every field descriptor of the specification is accepted: the eight base types, class names, arrays of either |
| Descriptors.AcceptedIffWithin | scripts/mine_findsecbugs.py:101-114 | an accepted text is a list of field descriptors exactly when every class it names is a binary name and no parameter has more than 255 dimensions |
| Descriptors.LaxName | scripts/mine_findsecbugs.py:101-102 | an accepted text that is none |
| Descriptors.SlotMap | scripts/mine_findsecbugs.py:150-158 | the map's keys are the offsets below the total, each mapped to the parameter that covers it |
| Descriptors.CoversIsStack | scripts/mine_findsecbugs.py:125-149 | an offset belongs to a parameter exactly when that parameter lies there on the operand stack; the offset past all of them is the receiver |
| Descriptors.OneOwner | scripts/mine_findsecbugs.py:144-148 | every offset below the total has exactly one owner |
| Descriptors.ToPositions | scripts/mine_findsecbugs.py:160-169 | the result is ascending and names exactly what the offsets name on the operand stack |
| Descriptors.OffsetsOfOne | scripts/mine_findsecbugs.py:144-148 | the offsets of one parameter name it alone, the receiver's offset the receiver alone |
| Descriptors.OffsetsCovered | scripts/mine_findsecbugs.py:117-119 | a parameter covers two offsets for `J` and `D`, one otherwise, arrays of them included |

## Left out

- References whose handling raises: `resolve` counts them as external and goes on; the model's references raise nothing.
- Taint marks collected beside call resolution, and the checkpoint of a half-finished resolve pass, which streaming disables.
- The package that a file declares, an attribute of its File node, is taken as given.
- Route matching, event and policy normalisation and external-API classification are uninterpreted functions.
- Containment.EncloseIsNearestClass: `enclosing_class_id` would not return on a class-less containment cycle; resolution is modelled as if it found no class there.
- BatchScheduler.Database.WriteInParallel: transactions succeed; retries after a store deadlock and a failing batch are not modelled.
- StoreWrites.WriteEdges: progress callbacks and the time stamps of node rows are left out; node writes follow the same scheme with the node id as key.
- BytecodeOverrides.BytecodeReport.Finish: the calls, field accesses and synthesized nodes of the pass arrive as a finished edge list.
- ReachMarks.Marks.MarkAll: one repository's functions only; a callee of another repository that already carries a mark is not modelled, nor are the reported seed counts.
- ReadyStatus.RunsAreSafe: all runs read one clock that does not run backwards; the janitor's forced release is not part of this model. The checkpoint is switched on, as docker-compose.yml:91 does; without it every ingest extracts all its batches. It speaks of the contents files' nodes were extracted from; nodes without a file and nodes from class files are the matter of IncrementalIngest.
- EnsureIndexed.Namespace.EnsureIndexed: hashing the tree is not modelled; the lists of changed files are those of IncrementalIngest; a kill comes during a disk step of the checkpoint (ReadyStatus has it anywhere).
- IncrementalIngest.CodeGraph.Reingest: the content hashes read back from the store are those of the last manifest.
- RefStream.AtMostThreeHeld: taking a batch from the queue and letting go of the one before are one move; between the two a fourth batch can be in memory.
- IncrementalIngest.PatchEdgesIff: compares which relationships exist, not the properties that survive on them.
- Descriptors.ParseParams: the regular expression's matching is given as a function over the text; receiver detection for static methods is left to the caller of `to_positions`, as it is there.
- Errors between the start of the writer thread and the block that joins it are not modelled.
- The package tree, SQL links, polymorphic dispatch built inside the database, LLM passes, findings and reports: small groupings, queries or network calls.
- Tree-sitter extraction, class-file parsing and method matching: taken as uninterpreted functions.
