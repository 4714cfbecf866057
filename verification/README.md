# Velorix demand materialization, verified in Dafny

Velorix keeps SQL views materialized over immutable input artifacts. Its demand engine applies
those artifacts sparsely: a request names a scope and a budget, the engine inspects and applies
some rows, commits a checkpoint through a fenced compare-and-set on a head pointer, and resumes
later. Producer views turn their partial checkpoints into signed commits, and consumer views
replay those commits.

This project models that engine and proves what it promises over whole runs: every source row is
folded at most once and what a checkpoint says is applied is what it holds; the head pointer always
names a durable lineage; nothing a producer emits is lost or counted twice on its way to a consumer.

`dafny verify dfyconfig.toml` checks everything.

## Layout

| file | what it models |
|---|---|
| `Spans.dfy` | `ProcessedSpans`: sorted disjoint spans that stand for a set of ordinals |
| `Batches.dfy` | row batches and slices |
| `Staging.dfy`, `Inspection.dfy` | choosing, staging and extracting an interval of an artifact; inspecting it to the end |
| `Coverage.dfy` | the meaning of a demand checkpoint, and what keeps it |
| `Wrappers.dfy`, `Requests.dfy` | options and results; the budget, the outcome and the commit faults every request shares |
| `SourceUnit.dfy`, `SourcePass.dfy`, `Preflight.dfy` | reconciling a cut and inspecting one artifact; the course of the inspection loop; the certificate check on the fast and on the leased path |
| `SourceDemand.dfy`, `SourceCalls.dfy` | one whole source request; what its caller can rely on |
| `DemandRuns.dfy` | workers, leases, crashes, refused and unanswered commits: the whole state machine |
| `Dependencies.dfy`, `ClosureRuns.dfy`, `DemandClosure.dfy` | the dependency closure; a demand that works through a closure of any views under one budget; the same with real source and consumer steps over the lineages the views publish |
| `Publication.dfy`, `PublicationRuns.dfy` | publishing a checkpoint pointer; every interleaving of persisters |
| `Deltas.dfy`, `Consolidation.dfy` | signed rows and their consolidation; producer commits |
| `Capture.dfy`, `Replay.dfy` | what a consumer has to replay, and what it has applied |
| `ConsumerPass.dfy`, `Consumer.dfy`, `ConsumerCalls.dfy`, `ChainedViews.dfy` | the course of a consumer's loop, the loop itself, what a caller can rely on, and a consumer's whole life among its producers |
| `Fragments.dfy`, `Pagination.dfy`, `Migration.dfy`, `QueryScope.dfy` | fragmented checkpoint bodies, pinned pages, importing eager checkpoints, scope inference |

Modelling decisions used throughout:

- Hashes are ideal: a digest is the value it is the digest of, a content-addressed key holds its
  content, and an authenticated token is the cursor it stands for.
- A scope is the predicate itself, and which rows may match it is a fixed predicate of the plan.
- The operator runtime is the bag of rows folded into it; on a consumer, the rows folded on each
  edge in order.
- A commit takes effect atomically when it is made, and the caller may not learn that it did.

## Results that differ from what one would expect

- Restoring the head pointer of an empty metadata store works only for a checkpoint that is the
  first of its lineage: the metadata store refuses a request without an expected predecessor whose
  candidate names one. `Metadata.RehydrateAndRetry` states the exact condition, and
  `LostHeadReturnsOnlyToFirst` what it means for the lineage. A candidate that then fails the
  bootstrap checks leaves the head restored.
- After the head was lost, a persister that still holds an older first checkpoint can restore that
  one (`StalePersisterForks`), and a persister without a predecessor can publish a first checkpoint
  of its own (`FreshPersisterForks`). Then what was published before is no longer a predecessor of
  anything published. `ForksExactlyWhen` gives the guard a step must meet to do this, and
  `OneLineage` that a run keeps one lineage exactly when no step meets it.
- A source request takes one interval of each artifact. With budgets that cover everything left it
  still completes exactly when no artifact has two separate stretches of rows left
  (`AmpleCallSucceeds`); a series of requests does come to an end (`SourceCalls.SeriesEnds`).
- The watermarks that a finished scope still lacks must all be read in the one request that
  certifies it: `Reauthenticate` states the exact condition, and what a failed attempt has read is
  not kept (`SourceView.Finish` leaves the head alone).
- The set of visited keys in the consolidation walk, and the closing sum comparison in the manifest
  check, can never be what refuses an input: `Consolidate` and `ValidateManifest` are exact without
  them.

## Model

| member | source | states |
|---|---|---|
| Spans.FromSpans | crates/velorix-core/src/processed_spans.rs:59-71 | accepts exactly the canonical lists: in bounds, non-empty, sorted, with a hole between neighbours |
| Spans.FromPrefix | crates/velorix-core/src/processed_spans.rs:44-56 | a prefix stands for exactly the ordinals below the count, and fails exactly beyond the total |
| Spans.Insert | crates/velorix-core/src/processed_spans.rs:75-97 | inserting adds exactly the interval to the set of ordinals and keeps the list canonical; it fails exactly on an empty or out-of-range interval |
| Spans.Contains | crates/velorix-core/src/processed_spans.rs:103-107 | membership in the set the spans stand for |
| Spans.ProcessedLen | crates/velorix-core/src/processed_spans.rs:109-116 | the number of ordinals, which is the total exactly when the spans are complete |
| Spans.FrontierIsFirstHole | crates/velorix-core/src/processed_spans.rs:118-129 | the contiguous frontier is the first ordinal not processed, and completeness means there is none |
| Spans.UnprocessedRuns | crates/velorix-core/src/processed_spans.rs:131-144 | the loop computes the gaps between spans |
| Spans.GapsAreComplement | crates/velorix-core/src/processed_spans.rs:131-144 | the gaps are canonical and stand for exactly the ordinals not processed |
| Spans.CanonicalIsUnique | crates/velorix-core/src/processed_spans.rs:59-71 | a set of ordinals has one canonical list, so equal progress is equal bytes |
| Batches.Slice | crates/velorix-api/src/demand_pagination.rs:584-594 | slicing batches gives exactly the rows of the interval, in order |
| Staging.NextInspection | crates/velorix-api/src/demand_materialization.rs:165-186 | none exactly when the budget is zero or the scope is fully inspected; otherwise a fresh interval within the budget, first or last in the artifact by order, as long as it can be |
| Staging.ExtremeIsUnique | crates/velorix-api/src/demand_materialization.rs:165-186 | there is only one such interval |
| Staging.StageInspection | crates/velorix-api/src/demand_materialization.rs:213-301 | applies exactly the fresh matching ordinals, inspects exactly the interval, leaves other scopes alone, and returns exactly those rows in order, for every batch split |
| Staging.SelectedSourceRuns | crates/velorix-api/src/demand_materialization.rs:107-161 | succeeds exactly when the offsets of all selected rows fit 64 bits; the runs are maximal, disjoint, ascending, as wide in offsets as in rows, and hold the selected rows |
| Staging.TwoExtractionsAgree | crates/velorix-api/src/demand_materialization.rs:107-301 | concatenating the source runs gives the same rows as staging, for every split, interval, match vector and applied set |
| Inspection.InspectNext | crates/velorix-api/src/demand_materialization.rs:165-301 | one inspection takes a fresh interval within its budget, or there is nothing left |
| Inspection.InspectAll | crates/velorix-api/src/demand_materialization.rs:165-301 | for any mix of orders and positive budgets it ends after at most as many inspections as rows were left, inspects no row twice, touches no other scope, and always reaches the same outcome |
| Coverage.IngestKeeps | crates/velorix-api/src/demand_materialization.rs:1263-1391 | a sound checkpoint stays sound when the source grows |
| Coverage.ReconcileKeeps | crates/velorix-api/src/demand_materialization.rs:1147-1191 | reconciling a checkpoint with a captured cut changes no row that counts as folded |
| Coverage.StageKeeps | crates/velorix-api/src/demand_materialization.rs:1297-1355 | a staged interval adds exactly its fresh rows to what is folded and keeps every scope sound |
| Coverage.StagesKeep | crates/velorix-api/src/demand_materialization.rs:1263-1367 | so does any sequence of them, each row once |
| Coverage.InspectedMeansMatched | crates/velorix-api/src/demand_materialization.rs:1392-1446 | when a scope has inspected the whole cut, every row that may match it is applied |
| Coverage.FinishKeeps | crates/velorix-api/src/demand_materialization.rs:1438-1547 | installing a certificate and, when nothing is missing, the frontiers keeps the checkpoint sound |
| Coverage.CertsSurvive | crates/velorix-api/src/demand_materialization.rs:1194-1224 | an old certificate stays true while progress grows |
| SourceUnit.ReconcileArtifacts | crates/velorix-api/src/demand_materialization.rs:1147-1191 | the loop succeeds exactly when no artifact changed identity, and every entry is the saved one or the one its frontier implies |
| SourceUnit.ReconciledIsReconcile | crates/velorix-api/src/demand_materialization.rs:1147-1191 | the loop's result is the abstract reconciliation |
| SourceUnit.InspectOne | crates/velorix-api/src/demand_materialization.rs:1286-1355 | one interval of one artifact, on either extraction path, is one staging step and feeds exactly its new rows; it fails exactly when the offsets of causal runs leave 64 bits |
| SourceUnit.Load | crates/velorix-api/src/demand_source.rs:273-370 | an artifact is loaded exactly when it is sound and both its bytes and what they decode to fit the bytes left; the error says which is missing |
| SourcePass.InspectArtifacts | crates/velorix-api/src/demand_materialization.rs:1263-1367 | the loop runs a course fixed beforehand: while rows are left, each artifact with something to inspect is loaded once and its first or last free interval staged; it ends where nothing is left to do or to spend or it is told to stop, fails where the artifact whose turn it is cannot be read with exactly the bytes left, and has then staged exactly these intervals, fed the bag of their new rows, kept all three budgets, and left as many rows fewer to inspect |
| SourcePass.PassIsDetermined | crates/velorix-api/src/demand_materialization.rs:1263-1367 | a pass ends in one place, or fails in one place and does not end |
| SourceUnit.RemainingRows | crates/velorix-api/src/demand_materialization.rs:1392-1401 | the number of rows not inspected, an error exactly when it leaves 64 bits, and zero exactly when the scope has inspected every artifact of the cut |
| Preflight.FreshCompletePreflight | crates/velorix-api/src/demand_materialization.rs:751-827 | reports complete exactly when the demand is complete on the metadata snapshot |
| Preflight.LeasedCertificate | crates/velorix-api/src/demand_materialization.rs:1147-1223 | reconciles exactly when the head is readable, its own and no artifact changed, and then answers from its certificate exactly when the preflight would |
| Preflight.CompleteDemandIsSound | crates/velorix-api/src/demand_materialization.rs:1194-1223 | a complete demand means every row of the cut that may match the scope is folded, including artifacts known only through a frontier |
| SourceDemand.Reauthenticate | crates/velorix-api/src/demand_materialization.rs:1405-1437 | reads the missing watermarks exactly when all of them fit, one after the other, what is left of this one request, is charged for just those, and changes nothing else; otherwise the first that does not fit says why |
| SourceDemand.Seal | crates/velorix-api/src/demand_materialization.rs:1402-1437 | when a frontier is about to move every watermark is there, or the request fails exactly because they do not fit |
| SourceDemand.FinishedIsComplete | crates/velorix-api/src/demand_materialization.rs:1392-1449 | what a finished scope saves is what the preflight and the leased certificate look for |
| SourceDemand.CompleteIsFolded | crates/velorix-api/src/demand_materialization.rs:1194-1223 | a complete demand holds every row of the cut that may match the scope in its state, exactly once |
| SourceDemand.NextIsCandidate | crates/velorix-api/src/demand_materialization.rs:1776-1957 | every header a request commits is one unit over the head, as the workers of `DemandRuns` publish |
| SourceDemand.SourceView.Work | crates/velorix-api/src/demand_materialization.rs:1263-1391 | the loop and its commit: after a success the head holds the rows of exactly the staged intervals and their progress; a failure is that of the place where the pass breaks, or of the commit, with what the head then holds |
| SourceDemand.SourceView.Finish | crates/velorix-api/src/demand_materialization.rs:1402-1547 | certifies an inspected scope so that the preflight then hits; frontiers move only where no row of the cut is missing; it fails exactly when the watermarks do not fit or its commit fails, and says which |
| SourceDemand.SourceView.Materialize | crates/velorix-api/src/demand_materialization.rs:977-1563 | one whole source request, answered as the head, the cut and the call determine: refused, unread, certified, failed where its pass breaks, or settled by the commit of exactly what its pass staged, by the count of what is left, or by the last commit of the scope; each answer with its units, rows and bytes and the state it leaves in the head |
| SourceDemand.AnsweredKeeps | crates/velorix-api/src/demand_materialization.rs:977-1563 | whatever the answer, no row folded in is lost, frontiers move only where no row of the cut is missing, all three budgets are kept including the reauthentication reads, and completion is reported only where the preflight then finds it |
| SourceCalls.AnswerIsDetermined | crates/velorix-api/src/demand_materialization.rs:977-1563 | two answers to the same call on the same head and cut are the same outcome or the same kind of failure, with the same rows folded in |
| SourceCalls.StopLeavesLess | crates/velorix-api/src/demand_materialization.rs:1263-1401 | a request that stops short reports exactly the rows left before it less the rows it processed, and has processed some unless it was told to stop or the head alone used up the bytes |
| SourceCalls.NextFindsNoMore | crates/velorix-api/src/demand_materialization.rs:1147-1401 | the next request of the scope finds no more left than was reported |
| SourceCalls.SeriesEnds | crates/velorix-api/src/demand_materialization.rs:977-1563 | whatever their budgets, no series of requests stops short more often than there are rows left |
| SourceCalls.AmpleCallSucceeds | crates/velorix-api/src/demand_materialization.rs:1263-1563 | without faults or being told to stop, over readable artifacts and with budgets that cover what is left, a request succeeds, and completes exactly when each artifact has one stretch of rows left |
| DemandRuns.ExactlyOnce | crates/velorix-api/src/demand_materialization.rs:1726-1957 | for every run of any workers, scopes, crashes, refusals and lost replies, the head's state is the bag of rows at its applied ordinals, each once, with sound scopes, certificates and frontiers |
| DemandRuns.CertificatesHold | crates/velorix-api/src/demand_materialization.rs:1392-1446 | in every reachable state a certificate means every row of its cut that may match the scope is in the state |
| DemandRuns.FrontiersHold | crates/velorix-api/src/demand_materialization.rs:1403-1524 | in every reachable state every offset below an input frontier is in the state |
| DemandRuns.StepKeepsInv | crates/velorix-api/src/demand_materialization.rs:977-1563 | every step of every worker keeps the invariant that ties tasks, residents and leases to the head |
| DemandRuns.RunKeepsInv | crates/velorix-api/src/demand_materialization.rs:1726-1957 | so does every run |
| DemandRuns.HeadOnlyGrows | crates/velorix-api/src/demand_materialization.rs:1726-1957 | rows folded into the head are never lost along a run |
| DemandRuns.FrontierMovesOnlyWhenComplete | crates/velorix-api/src/demand_materialization.rs:1403-1524 | a frontier moves only in a publication of full completion, when no hole is left in the cut |
| DemandRuns.PublishKeeps | crates/velorix-meta/src/lib.rs:2918-3008 | the publisher holds the latest grant and is the only one who can publish, the new head holds everything the old one did, and the invariant is kept |
| DemandRuns.GrantStep | crates/velorix-meta/src/lib.rs:1767-1834 | after a grant nobody can publish until it is used, and the invariant is kept |
| DemandRuns.ActStep | crates/velorix-api/src/lib.rs:1685-1770 | a worker whose owner marker changes has no resident afterwards, and the invariant is kept |
| Dependencies.ProducersOf | crates/velorix-api/src/demand_materialization.rs:425-455 | the distinct producers of a view in order, or an error exactly when the view is broken |
| Dependencies.DependencyOrder | crates/velorix-api/src/demand_materialization.rs:401-462 | ends; succeeds exactly when no reachable view is broken and none reaches itself; then lists every reachable view once, producers first, target last; reports a cycle only where there is one |
| DemandClosure.Preflight | crates/velorix-api/src/demand_materialization.rs:651-838 | the metadata-only answer of either kind of view is never wrong, and finds every complete view whose producers' last commits are within the hop bound |
| DemandClosure.Step | crates/velorix-api/src/demand_materialization.rs:843-917 | a step on either kind of view keeps to the budget it is handed, leaves the view sound whatever fails, reports completion only of a complete view, and is answered exactly as the source or the consumer request answers it |
| DemandClosure.TakeTurn | crates/velorix-api/src/demand_materialization.rs:562-633 | one view under what is left of the budget: answered by the preflight, put off because of the scheduler or a used-up budget, or answered by its step |
| DemandClosure.TurnOf | crates/velorix-api/src/demand_materialization.rs:562-633 | the same in the world of all views: whatever its runtime emits meanwhile goes to its lineage, every view stays sound, and no other view changes |
| ClosureRuns.SpentMore | crates/velorix-api/src/demand_materialization.rs:566-576 | what is left for the next step never goes below zero |
| ClosureRuns.TurnTaken | crates/velorix-api/src/demand_materialization.rs:558-646 | after a turn the loop goes on with every earlier view still complete, or the demand has ended: with the target, or with a view left incomplete |
| DemandClosure.Materialize | crates/velorix-api/src/demand_materialization.rs:558-646 | the turns follow the closure from world to world, every step handed exactly what the earlier turns left, which is never negative, and keeping to it; completion means the target and every view before it are complete in the world left behind; otherwise the view whose turn it was is named, put off, left incomplete or failed with its answer |
| DemandClosure.MaterializeDemand | crates/velorix-api/src/demand_materialization.rs:535-646 | over the resolved closure, each input reading the lineage of its binding's producer: a complete answer means every view the target depends on, directly or not, is complete in the world left behind and holds its rows; no view outside the closure changes; the order is total, so the target is never omitted |
| DemandClosure.CompleteHolds | crates/velorix-api/src/demand_materialization.rs:535-646 | what complete means in rows: a source view has folded each row of its cut that may match once, a consumer everything the runtimes of its producers have emitted but what is pending there |
| Publication.PutExact | crates/velorix-api/src/checkpoint_publication.rs:459-486 | a write creates the object or meets the same bytes, and never changes one |
| Publication.DurableStays | crates/velorix-api/src/checkpoint_publication.rs:323-486 | a durable lineage stays durable while objects are only added |
| Publication.Metadata.Publish | crates/velorix-meta/src/lib.rs:2918-3008 | published only by the owner over the expected head with a rising epoch and past the bootstrap checks, and then the candidate is the head; any other answer leaves the head alone; when each answer is given |
| Publication.Metadata.RehydrateAndRetry | crates/velorix-api/src/checkpoint_publication.rs:2367-2438 | from a head left empty or at the predecessor by an interrupted attempt the rerun succeeds exactly when both requests pass the bootstrap checks, except that an empty head can be restored only to a first checkpoint; otherwise the head is untouched or, where only the candidate fails, restored |
| Publication.Metadata.PublishPointer | crates/velorix-api/src/checkpoint_publication.rs:2319-2365 | the exact condition under which a candidate becomes the head, and when a failed attempt leaves a restored head |
| PublicationRuns.StepKeepsInv | crates/velorix-api/src/checkpoint_publication.rs:323-511 | every write and request of every persister keeps everything published durable and every object as it was |
| PublicationRuns.HeadIsDurable | crates/velorix-api/src/checkpoint_publication.rs:323-511 | in every state of every run the head names a stored record with its digest, all it refers to and all predecessors, epochs falling |
| PublicationRuns.PublishedStays | crates/velorix-api/src/checkpoint_publication.rs:459-511 | no object is ever removed or changed and what was once published stays durable |
| PublicationRuns.OneLineage | crates/velorix-api/src/checkpoint_publication.rs:2319-2438 | over every run, head losses and crashes included: all that was ever published stays the tip or one of its predecessors in every state exactly when no step strays, a condition on the state before the step |
| PublicationRuns.ForksExactlyWhen | crates/velorix-api/src/checkpoint_publication.rs:2367-2438 | a step forks the lineage exactly when it strays: on a lost head, an owner restores, or publishes without a predecessor, a first checkpoint other than the lost tip |
| PublicationRuns.EmptyHeadTakes | crates/velorix-meta/src/lib.rs:3787-3840 | what a step puts on an empty head, read off the state before it |
| PublicationRuns.LostHeadReturnsOnlyToFirst | crates/velorix-meta/src/lib.rs:3787-3840 | a lost head comes back exactly when the step republishes the lost tip, and never to a tip that is not the first of its lineage |
| PublicationRuns.RerunsKeepOneLineage | crates/velorix-api/src/checkpoint_publication.rs:2367-2438 | a run in which whoever acts on an empty head holds the lost tip, however often it crashes and reruns, never forks |
| PublicationRuns.FreshPersisterForks | crates/velorix-api/src/checkpoint_publication.rs:2319-2438 | a concrete run that forks: a persister without a predecessor publishes on a lost head |
| PublicationRuns.StalePersisterForks | crates/velorix-api/src/checkpoint_publication.rs:2367-2438 | a concrete run that forks: a persister that still holds an older first checkpoint restores that one after the head was lost |
| Deltas.NetRows | crates/velorix-core/src/delta.rs:526-559 | same bag, ascending, no zeros; fails exactly when a net weight leaves the 64-bit range |
| Deltas.NormalIsUnique | crates/velorix-core/src/delta.rs:526-559 | a bag has one consolidated form, whatever order its rows came in |
| Deltas.OutputRowCount | crates/velorix-api/src/checkpoint_publication.rs:2281-2317 | accepted exactly when all weights are positive, the count fits and no consolidated weight overflows, though it usually does not consolidate; the count is the total weight |
| Consolidation.ReadStep | crates/velorix-api/src/demand_publication.rs:191-339 | a checkpoint of the walk is read exactly when it is stored as referred to, older than its successor, in budget, and has its one delta |
| Consolidation.Consolidate | crates/velorix-api/src/demand_publication.rs:135-348 | succeeds exactly when the lineage down to the last commit is sound, affordable and sums fit; then the rows are the bag of the current delta and all pending ones, consolidated |
| Consolidation.PublishedRows | crates/velorix-api/src/checkpoint_publication.rs:183-283 | a partial unit publishes its own rows, a completing one those and all pending ones, a repeated one the rows of the commit it repeats |
| Consolidation.Persist | crates/velorix-api/src/checkpoint_publication.rs:57-511 | a repeated unit gives back the head and writes nothing new; a new one that nothing stands against extends the lineage |
| Consolidation.Conservation | crates/velorix-api/src/demand_publication.rs:188-348 | along every lineage the commits and the pending rows are the runtime's output, and right after a commit the commits alone are |
| Consolidation.CommitIsDetermined | crates/velorix-api/src/checkpoint_publication.rs:260-283 | a commit is determined by the bag it stands for |
| Consolidation.Producer.Commit | crates/velorix-api/src/checkpoint_publication.rs:183-283 | over any sequence of units, emitted rows are added once, failed and repeated units change nothing, and a completing unit leaves nothing pending |
| Capture.ReadBudget.Read | crates/velorix-api/src/demand_published.rs:128-156 | an object is read only when it fits as a whole, and the budget is never exceeded |
| Capture.CaptureProof | crates/velorix-api/src/demand_published.rs:274-352 | succeeds exactly when the cursor is reached within the bounds; then the lineage has no gap and the bytes charged are those of its headers |
| Capture.StoredReaches | crates/velorix-api/src/demand_published.rs:274-352 | over a stored lineage the walk fails only when it is too long or the bytes do not suffice |
| Capture.CaptureEdge | crates/velorix-api/src/demand_published.rs:402-520 | the artifacts are the baseline at the cursor and then every later commit, oldest first; partial checkpoints give none |
| Capture.CaptureInput | crates/velorix-api/src/demand_published.rs:384-530 | captures an edge exactly when its lineage is short enough and its headers and manifest fit the bytes left, and charges just those |
| Capture.HeadIsLastCommit | crates/velorix-api/src/demand_published.rs:402-520 | the captured edge ends at the producer's last commit |
| Capture.EdgeListOk | crates/velorix-api/src/demand_published.rs:402-520 | they are distinct, in epoch order, up to the head |
| Capture.EdgeIsCommitted | crates/velorix-api/src/demand_published.rs:402-520 | with a baseline that is the bag of commits at the cursor, their rows are the bag of all producer commits up to the captured head |
| Capture.PagesAreCommits | crates/velorix-api/src/demand_published.rs:427-505 | pages that are what the runtime had emitted at a published cursor are the bag of commits there |
| Capture.ChainedView | crates/velorix-api/src/demand_published.rs:402-520 | from pages that are the runtime's output at the cursor: with the pending rows the edge is everything the producer's runtime has emitted, and when the head is a commit it is that alone |
| Capture.CaptureMovesOn | crates/velorix-api/src/demand_published.rs:384-530 | a later capture continues an earlier one |
| Capture.InputMovesOn | crates/velorix-api/src/demand_published.rs:384-530 | so does a capture of a producer that has committed since |
| Replay.TakeNext | crates/velorix-api/src/demand_materialization_published.rs:636-655 | takes the next rows of an artifact up to a limit, in order, through the staging of intervals |
| Replay.TakeKeeps | crates/velorix-api/src/demand_materialization_published.rs:554-704 | taking more of a page, or the whole of anything else, in its turn keeps every edge a prefix |
| Replay.OnePartial | crates/velorix-api/src/demand_materialization_published.rs:593-704 | over all edges at most one artifact is partly applied, and it is a baseline page |
| Replay.CompleteKeeps | crates/velorix-api/src/demand_materialization_published.rs:722-812 | moving the frontiers to the heads once all is applied changes nothing else, and each edge has folded all its rows |
| Replay.MovedOnKeeps | crates/velorix-api/src/demand_materialization_published.rs:447-468 | what was applied stands when producers move on |
| Consumer.ConsumerView.Flush | crates/velorix-api/src/demand_materialization_published.rs:284-316 | commits the waiting pages, all or nothing |
| Consumer.Admit | crates/velorix-api/src/demand_materialization_published.rs:554-619 | when an artifact may be taken, when it stops the loop and with what spent, and when it fails it |
| Consumer.ConsumerView.Take | crates/velorix-api/src/demand_materialization_published.rs:620-703 | a page waits with its baseline, anything else is committed alone; all that is left of the artifact is taken, or of a page as much as the rows left allow |
| Consumer.ConsumerView.Turn | crates/velorix-api/src/demand_materialization_published.rs:533-704 | one artifact of the loop: passed, stopped at or failed exactly as the course says, with what is then committed |
| Consumer.ConsumerView.Walk | crates/velorix-api/src/demand_materialization_published.rs:533-712 | the loop runs a course fixed beforehand: each artifact not done is loaded once and taken whole, in order, with units, rows and bytes added up; it ends past the last or at the artifact where it must yield or a budget ends, with exactly the artifacts before it done, or fails at the artifact whose turn it was, with all before it committed but the pages still waiting |
| ConsumerPass.PassIsDetermined | crates/velorix-api/src/demand_materialization_published.rs:533-712 | a pass ends in one place with one result, or fails in one place and does not end |
| Consumer.Remaining | crates/velorix-api/src/demand_materialization_published.rs:713-723 | the rows left over all edges, an error exactly when they leave 64 bits, and zero exactly when every artifact is applied |
| Consumer.CertifiedIsComplete | crates/velorix-api/src/demand_materialization_published.rs:441-462 | a certificate at the captured heads is never wrong: everything is applied and the frontiers stand there |
| Consumer.ConsumerView.Materialize | crates/velorix-api/src/demand_materialization_published.rs:318-823 | whatever fails, what is durable is a prefix on every edge and only grows; budgets are kept and the rows reported are the rows folded; completion is reported exactly when all is applied, from a certificate or by the loop, and then every edge holds its whole inventory in order and the scope is certified; and the answer, with its units, rows, bytes and what is left, or the failure, with what is committed, is the one the course determines |
| ConsumerCalls.AnswerIsDetermined | crates/velorix-api/src/demand_materialization_published.rs:318-823 | two answers to the same request on the same checkpoint and inventory are equal, failures included |
| ConsumerCalls.StopLeavesLess | crates/velorix-api/src/demand_materialization_published.rs:533-723 | a request that stops short without having to yield has taken something, and less is to be done after it |
| ConsumerCalls.SeriesEnds | crates/velorix-api/src/demand_materialization_published.rs:318-823 | whatever their budgets, no series of requests over one inventory stops short more often than there is to be done |
| ConsumerCalls.AmpleRequestCompletes | crates/velorix-api/src/demand_materialization_published.rs:318-823 | without faults or having to yield, over sound artifacts and with budgets that cover what is left, a request completes |
| ChainedViews.CaptureAll | crates/velorix-api/src/demand_materialization_published.rs:331-391 | captures all edges exactly when every lineage is short enough and everything fits the bytes, and charges just what it reads |
| ChainedViews.ServeOne | crates/velorix-api/src/demand_materialization_published.rs:318-823 | one request from the budget check over the capture proofs to the last commit: prefixes stay prefixes, budgets are kept, and the answer is refused, uncaptured or exactly that of the replay after the bytes the capture took |
| ChainedViews.LastCommit | crates/velorix-api/src/demand_materialization_published.rs:148-206 | the last commit of a producer, found exactly within the hop bound |
| ChainedViews.Preflight | crates/velorix-api/src/demand_materialization_published.rs:26-283 | hits exactly on a certificate at the producers' last commits; its further checks never refuse one, and a hit means everything is applied |
| ChainedViews.CompleteHoldsOutputs | crates/velorix-api/src/demand_materialization_published.rs:713-812 | a complete consumer holds, on each edge, everything its producer's runtime has emitted but what is pending there; at a commit that is everything |
| ChainedViews.EmitAll | crates/velorix-api/src/checkpoint_publication.rs:57-511 | whatever units a runtime emits, first or later, its lineage goes on, holds what was emitted, and no other lineage changes |
| ChainedViews.EmitKeeps | crates/velorix-api/src/demand_published.rs:384-530 | commits of producers leave what a consumer has applied a prefix |
| ChainedViews.Live | crates/velorix-api/src/demand_materialization_published.rs:318-823 | from nothing applied, over any interleaving of producer commits and requests with failures anywhere: every edge keeps a prefix, and a request that completes leaves the consumer with the output of every producer |
| Fragments.ValidateManifest | crates/velorix-api/src/checkpoint_fragments.rs:44-110 | accepts exactly in-bounds headers of the key's identity without a payload whose fragments tile the byte count; no expected size is negative and the sizes add up |
| Fragments.ChunksJoin | crates/velorix-api/src/checkpoint_fragments.rs:259-272 | the fragments of a body join to the body |
| Fragments.ChunksTile | crates/velorix-api/src/checkpoint_fragments.rs:259-272 | each has the size its place demands |
| Fragments.ChunksCount | crates/velorix-api/src/checkpoint_fragments.rs:6-12 | there are as many as the object count announces |
| Fragments.StateObjects.Persist | crates/velorix-api/src/checkpoint_fragments.rs:244-292 | the exact condition for writing fragments, what is then stored, and that the objects written are as many as announced |
| Fragments.StateObjects.Hydrate | crates/velorix-api/src/checkpoint_fragments.rs:294-345 | succeeds exactly when the manifest is acceptable for the key, every fragment is stored as listed, and the body decodes to the announced length and header |
| Fragments.StateObjects.RoundTrip | crates/velorix-api/src/checkpoint_fragments.rs:244-345 | a record written in fragments is read back unchanged by every reader whose limits admit it |
| Pagination.FindPinned | crates/velorix-api/src/demand_pagination.rs:478-505 | the pinned checkpoint is found exactly when it is a predecessor of the current head within the hop bound and the way there is sound |
| Pagination.FinishPage | crates/velorix-api/src/demand_pagination.rs:558-604 | a page is exactly the next rows, and there is a token exactly when rows are left |
| Pagination.FollowTokens | crates/velorix-api/src/demand_pagination.rs:426-604 | with any positive limits and any moving head the pages end and are the complete result of the pinned checkpoint, in order, as long as that checkpoint stays reachable |
| Migration.ItemsFromCuts | crates/velorix-api/src/demand_source.rs:206-260 | accepts exactly cuts whose partitions are distinct and contiguous, and lists their publications in order |
| Migration.FollowPrefix | crates/velorix-api/src/demand_migration.rs:216-236 | accepts exactly a frontier below which no offset is missing and which splits no publication |
| Migration.ValidateSourcePrefixes | crates/velorix-api/src/demand_migration.rs:180-239 | accepts exactly checkpoints all of whose frontiers are such |
| Migration.ImportIsLossless | crates/velorix-api/src/demand_materialization.rs:1148-1191 | the rows counted as folded after the import are exactly those below the frontiers |
| Migration.ImportIsSound | crates/velorix-api/src/demand_migration.rs:180-239 | so an imported checkpoint is a sound start for every run of demand units |
| QueryScope.NormalizeKeeps | crates/velorix-api/src/demand_query_scope.rs:170-217 | the rewritten predicate has the same three-valued result on every row, under any table name and binds |
| QueryScope.NormalizeIsClosed | crates/velorix-api/src/demand_query_scope.rs:170-217 | nothing in it refers to the table name or the binds any more |
| QueryScope.InferScope | crates/velorix-api/src/demand_query_scope.rs:8-111 | a scope is inferred exactly for the admitted queries, ORDER BY and LIMIT expressions included, and it selects exactly the rows the query selects |

## Left out

- Eager ingest and query-time restoration that share a worker's resident runtime: `DemandRuns` has demand units, demand control, leases and source growth only.
- A metadata request that takes effect after its caller has given up on it: a request takes effect when made or not at all.
- Update in place of `ProcessedSpans` and of artifact progress: the program copies before it updates, so `Spans` and `Staging` return new values.
- The meaning of event-time watermarks and late rows: a watermark is read, kept and required before a frontier moves, and not interpreted.
- Deadlines, scheduling priority and foreground work: each is an arbitrary decision to stop.
- Arrow, JSON and ZSTD encodings, the read cache, HTTP, and the HMAC of tokens: encodings are injective and the authenticator is ideal.
- SourceDemand.SourceView.Materialize: takes the cut in the order of the loop, so sorting or reversing it is not modelled; the source grows only between requests, where a commit over an old cut is a refused one.
- DemandClosure.Materialize: which units a view's runtime emits is arbitrary, because the operators are not part of this model; source artifacts and cuts are given for the whole demand.
- Publication.Metadata.Publish, Publication.Metadata.RehydrateAndRetry and Publication.Metadata.PublishPointer: whether the input-bootstrap record of a candidate agrees with the view's control record and goes on from the head's is given; the comparison field by field is not modelled.
- PublicationRuns.HeadIsDurable: does not model removal of objects by compaction or retention, because no part of the publication path removes one.
- Publication of checkpoints without a metadata store, discovery of the latest checkpoint by listing, and reuse of descriptors written by older versions.
- Deltas.NetRows: sums are unbounded where the program keeps 128 bits, because a batch that fits in memory cannot overflow them.
- Consolidation.Persist: models producer views only; a view that publishes no relation writes its rows without a commit.
- Capture.CaptureEdge: lists the pages of a baseline that the consumer's frontier already covers, where the program lists one marker; both are skipped, and the manifest is not charged in either.
- Consumer.ConsumerView.Materialize: does not model the check that an artifact kept its row count, which cannot fail here.
- Producer epochs of zero: a frontier of zero is the same as none.
- ChainedViews.Live: takes as given that the pages of a baseline are what the producer's runtime had emitted at the cursor.
- Pagination.FollowTokens: models pages cut from a complete result; the native page reader is not part of this model.
- Migration.ValidateSourcePrefixes: covers source inputs; the check of published inputs is one membership test per input.
- QueryScope.InferScope: starts from the parsed query; printing the predicate and parsing bind literals are not modelled.
