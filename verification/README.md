# Forja: verified models of indexing, delivery and control

This project models four parts of the Forja repository in Dafny and proves what
they promise. `dafny verify dfyconfig.toml` checks all of it.

**Incremental indexing.** `forja-index` plans what a Git change invalidates,
re-runs only the adapters whose sources changed, carries the rest of the evidence
over and lists the deltas. The main results: over a whole history of commits, with
any adapters skipped along the way, every stored bundle has the canonical form of
a run from scratch (`IncrementalHistory.EveryRunEqualsFull`); a path is affected
exactly when a chain of uses leads from it to a seed, and the reusable set is
closed under every such chain; every bundle `NormalizeResults` returns holds
exactly what the documents and the adapters' output say, passes `ValidateBundle`
within the count limits and forgets the order of its input; the delta list
consumes and produces every identifier exactly once, renames included, whatever
order the maps are read in, and each delta is what the two cards call for.
Identifier facts rest on the injectivity of the length-prefixed framing in
`StableIndexID`, which is proved.

Each of these is also stated without the functions the loops are proved against:
`NormalizationMeaning`, `PlanMeaning`, `SelectionMeaning`, `DeltaMeaning`,
`DeltaStates` and `FusionMeaning` speak of raw items, cards, paths and ranks only.

**Governed delivery.** `Publication` is a small-step machine for any number of
interleaved `Publish` and `Recover` calls with crashes, lost replies and outside
writers of the ref. `Services`, `Pipeline` and `Recovery` follow `Execute` and
`Recover` call by call over the durable pieces (Run, attempt, lease set, journal,
ref, worktree, validation evidence); every call may fail, take effect and lose its
reply, or be the last thing a process does, and a user may cancel at any moment.
What happens to each call is a script, any finite list of fates, so statements
hold for all scripts and a single script can be followed to where it leads. One
invariant survives all of it; over any number of process lifetimes the trace
properties hold (`Recovery.Lifetimes`). In a calm world the worker's answer and
the verdict of the independent validation decide where `Execute` ends, and what
`Recover` finds decides where it takes the delivery. What the pipeline assumes of
a publication call is derived from the interleaved protocol in
`PublicationEffects`.

**Control state.** `MemoryRepository` is a class with the fields of the original;
`Replay` is the checker of `scripts/verify_governed_state.py`. Every history under
a clock that never runs backwards and fresh decision identifiers is accepted by
the checker, begins Runs only for approved Sprints, cancels the Runs of rejected
ones, and answers every idempotency key exactly once.

**Scopes, fences and fusion.** The path-scope algebra and lease fences of delivery
requests, and weighted rank fusion with real scores.

## What turned out false

- A recovery whose calls all succeed does not settle every state a crash leaves.
  If a cleanup stops between quarantining the worktree and releasing the leases of
  a succeeded attempt with no journal row, `resumeSucceeded` renews the leases and
  then asks for a commit from a worktree that is gone, again and again until the
  leases expire. `Delivery.Stuck` is this family, `Recovery.StuckIsReachable` runs
  `Execute` into it and recovers any number of times in vain, and
  `Recovery.Recover` settles exactly the other states.
- With a clock that steps back, cancelling a Run can stamp the Sprint earlier than
  its last snapshot and the replay checker refuses the stream:
  `Repository.BackwardClockFails` runs the four commands. The condition is exact:
  `Repository.MemoryRepository.TransitionRun` leaves an acceptable stream if and
  only if the Run's new timestamp is not older than the Sprint.
- Exchanging the two rank lists can change more than the rank fields, because the
  fields copied from a point but never compared come from the dense list
  (`Fusion.ExchangeCanShow`). It changes nothing else if and only if the two copies
  of every point that fewer than `limit` points come before agree on those fields
  (`Fusion.ExchangeExactly`); without a cut, if and only if all copies agree
  (`Fusion.ExchangeUncut`).
- Rebinding can succeed where a run from scratch fails: when a carried and a fresh
  adapter emit the same symbol key (`SharedKeys.SharedKeyCarries`, with an instance
  in `SharedKeys.ExampleShared`). The three shipped adapters begin their keys with
  their language and never share one; it takes another adapter.
  `IncrementalIndexing.FreshRunSucceedsIff` is exact.

## Model

| member | source | states |
|---|---|---|
| `Identity.ComputeStableIndexID` | internal/contracts/indexing.go:143-154 | the digest loop feeds header, prefix and length-framed components in order |
| `Identity.FramesInjective` | internal/contracts/indexing.go:147-152 | length-prefixed framing of any component lists is injective |
| `Identity.StableIndexIDInjective` | internal/contracts/indexing.go:143-154 | two identifiers coincide exactly when prefix and components coincide, although the prefix is not framed |
| `Cards.SourceRangeKeyInjective` | internal/contracts/indexing.go:407-409 | the printed range determines the range, negative numbers included |
| `Cards.EntityInjective` | internal/contracts/indexing.go:175-191 | file, symbol and external identifiers never collide |
| `Cards.LineageInjective` | internal/contracts/indexing.go:182-198 | lineage identifiers never collide |
| `Cards.RelationInjective` | internal/contracts/indexing.go:200-216 | relation identifiers determine every field they are made of |
| `Cards.ExternalByPrefix` | internal/indexing/validate.go:117-122 | the string prefix test recognises exactly the external identifiers |
| `Bundles.AdapterSetHashInjective` | internal/contracts/indexing.go:156-166 | equal adapter-set hashes mean equal adapter lists |
| `Bundles.ValidateBundle` | internal/indexing/validate.go:12-109 | the loops accept exactly the closed, consistent bundles |
| `Bundles.Collect` | internal/indexing/validate.go:24-70 | a validating loop accepts exactly valid, key-distinct lists and indexes them by key |
| `Bundles.CanonicalFormUnique` | internal/indexing/artifact.go:34-52 | canonical forms agree exactly when the bundles hold the same cards |
| `NormalizeLoops.NormalizeResults` | internal/indexing/adapter.go:145-326 | the loops return exactly the bundle the specification describes, or an error |
| `NormalizeLoops.TallyDiagnostics` | internal/indexing/adapter.go:228-236 | diagnostics are counted per path and kind, and bad ones refused |
| `NormalizationMeaning.NormalizationSays` | internal/indexing/adapter.go:145-326 | from the raw results and the returned bundle alone: one file card per document with its fields and diagnostic counts, one symbol card per raw symbol with all its fields in the file at its path, one relation per raw relation and one "declares" per symbol with its source, target, evidence and adapter, nothing twice and nothing else, in the documented order |
| `NormalizationMeaning.CardTells` | internal/indexing/adapter.go:207-226 | the card drawn from a raw symbol repeats each of its fields and is listed in the file at its path |
| `NormalizationMeaning.BindingTells` | internal/indexing/adapter.go:284-311 | the relation bound from a claim repeats its fields and names the cards of its keys and paths |
| `NormalizationMeaning.FileDiagnosed` | internal/indexing/adapter.go:228-283 | a file lists a diagnostic exactly as often as the adapters report it there |
| `NormalizationProofs.NormalizedBundleValid` | internal/indexing/adapter.go:145-326 | a normalized bundle passes validation exactly when its counts are within the limits |
| `NormalizationProofs.NormalizationForgetsItemOrder` | internal/indexing/adapter.go:202-326 | the order of raw symbols, relations and diagnostics inside results does not matter |
| `NormalizationProofs.NormalizationForgetsResultOrder` | internal/indexing/adapter.go:174-206 | the order of the adapter results does not matter |
| `RebindLoops.RebindReusableAdapters` | internal/indexing/reuse.go:13-145 | the loops return exactly the specified rebound bundle, or an error |
| `BaselineOrder.ReboundIgnoresBaselineOrder` | internal/indexing/reuse.go:36-145 | rebinding gives the same bundle whatever order the baseline's cards are read in |
| `ReuseProofs.CarriedSymbol` | internal/indexing/reuse.go:73-90 | a baseline symbol is carried exactly when its adapter is, and becomes the card a fresh run makes |
| `IncrementalIndexing.IncrementalEqualsFull` | internal/indexing/reuse.go:13-145 | whenever rebinding succeeds, running the skipped adapters afresh succeeds and gives the same canonical bundle |
| `IncrementalIndexing.FreshRunSucceedsIff` | internal/indexing/adapter.go:257-263 | given a successful rebind, the fresh run succeeds exactly when no two adapters share a symbol key |
| `SharedKeys.SharedKeyCarries` | internal/indexing/adapter.go:257-263 | two adapters sharing a key, one of them carried: rebinding succeeds and the run from scratch fails |
| `SharedKeys.ExampleShared` | internal/contracts/indexing.go:143-166 | a concrete snapshot, documents and symbols that meet the premises |
| `Selection.ReusableAdapterDescriptors` | cmd/forja-index/main.go:294-351 | the loops select exactly the specified adapters |
| `SelectionMeaning.SelectedExactly` | cmd/forja-index/main.go:294-351 | an adapter is skipped exactly when the baseline knows it, no change configures it, and its documents are its baseline files, at least one, none of them reached by a change |
| `SelectionMeaning.NothingChanged` | cmd/forja-index/main.go:294-351 | with an empty change set and the same documents every baseline adapter that reads a document is skipped |
| `OwnedDocuments.ViewsAgree` | cmd/forja-index/main.go:320-349 | a skipped adapter would read exactly the documents and configuration files it read for the baseline |
| `IncrementalHistory.EveryRunEqualsFull` | cmd/forja-index/main.go:108-171 | after any number of incremental runs, adapter upgrades included, each bundle has the canonical form of a run from scratch on its commit |
| `Invalidation.ReverseFileDependencies` | internal/indexing/invalidation.go:340-361 | the reverse map lists exactly the proven dependencies |
| `Invalidation.Propagate` | internal/indexing/invalidation.go:121-131 | the worklist ends despite re-sorting and reaches the least closed set over the seeds |
| `Planning.ValidateChangeSetCoverage` | internal/indexing/invalidation.go:177-242 | accepts exactly change sets that fit both states, repeat nothing and omit no changed path |
| `PlanMeaning.CoverageExactly` | internal/indexing/invalidation.go:177-242 | on the files and documents: each change says what both sides show, no path is named twice, and every difference is named |
| `Planning.SeedReasons` | internal/indexing/invalidation.go:96-120 | the seeds are the mentioned paths, plus unresolved sources on a structural change, each with its reason |
| `Planning.CollectReusable` | internal/indexing/invalidation.go:134-144 | the reusable files are exactly the unaffected, byte-identical ones, in path order, whatever the map order |
| `Planning.ListInvalidations` | internal/indexing/invalidation.go:145-171 | lists each file, symbol and relation of the affected paths, sorted by identifier and reason |
| `Planning.PlanInvalidation` | internal/indexing/invalidation.go:42-175 | succeeds exactly on plannable inputs and returns the affected closure, reasons, reusable files and invalidations |
| `Planning.AffectedOrReusable` | internal/indexing/invalidation.go:133-144 | without a full reindex every target document is affected or reusable, never both |
| `Planning.ReusableSetClosed` | internal/indexing/invalidation.go:121-144 | everything on any dependency chain from a reusable file is reusable and byte-identical in the target |
| `Planning.InvalidatedExactlyOnce` | internal/indexing/invalidation.go:145-166 | each baseline entity is invalidated once if its file is affected, never otherwise, and nothing else is |
| `PlanMeaning.DependsExactly` | internal/indexing/invalidation.go:340-370 | one path depends on another exactly when a resolved relation of a propagating kind leads from a file at the first to a file at the second or a symbol in it |
| `PlanMeaning.SeededExactly` | internal/indexing/invalidation.go:96-120 | the seeds are the paths the changes name and, when files appear or vanish, the files with an unresolved relation |
| `PlanMeaning.AffectedExactly` | internal/indexing/invalidation.go:121-131 | a path is affected exactly when a chain of uses leads from it to a seed |
| `PlanMeaning.UsersFollow` | internal/indexing/invalidation.go:121-144 | a file using an affected file is affected; what a reusable file uses is reusable and byte-identical |
| `PlanMeaning.AffectedForAReason` | internal/indexing/invalidation.go:121-131 | an affected path that is no seed uses another affected path |
| `PlanMeaning.InvalidationsSay` | internal/indexing/invalidation.go:145-171 | every invalidation carries the identifiers of a card in an affected file and the reason the snapshots and the change set give |
| `PlanMeaning.FullReindexExactly` | internal/indexing/invalidation.go:79-95 | a full reindex is exactly a changed configuration or adapter set, and then every path is affected |
| `Deltas.MergeVersions` | internal/indexing/invalidation.go:490-509 | the two-list loop computes the merge |
| `Deltas.CompareLineage` | internal/indexing/invalidation.go:486-526 | the deltas of one lineage |
| `Deltas.LineageReuse` | internal/indexing/invalidation.go:486-509 | reused fingerprints are exactly the multiset intersection, on both sides |
| `Deltas.LineageExplained` | internal/indexing/invalidation.go:490-526 | reused pairs share a fingerprint, modified pairs never do, and no lineage both gains and loses an entity |
| `Deltas.LineageConserves` | internal/indexing/invalidation.go:486-526 | each version is consumed or produced exactly once |
| `LineageComparison.CompareLineages` | internal/indexing/invalidation.go:476-528 | grouping and comparing in any map order gives the specified list |
| `LineageComparison.KindConserves` | internal/indexing/invalidation.go:476-528 | over all lineages each baseline identifier is consumed and each target identifier produced exactly once |
| `Renames.InferExactFileRenames` | internal/indexing/invalidation.go:278-338 | the loops rewrite the list exactly as specified, in any map order |
| `Renames.RenamesConserve` | internal/indexing/invalidation.go:319-337 | renames replace exactly the deletions they drop, so nothing is lost or repeated |
| `Renames.RenamesExact` | internal/indexing/invalidation.go:302-318 | renames join only byte-identical files whose bytes are unique on both sides, one deleted and one added |
| `BundleDeltas.ComputeBundleDeltas` | internal/indexing/invalidation.go:244-264 | succeeds exactly on valid bundles and returns the numbered list, independent of every map order |
| `BundleDeltas.DeltasConserve` | internal/indexing/invalidation.go:244-264 | for every kind each baseline identifier is consumed and each target identifier produced exactly once |
| `BundleDeltas.DeltasForgetOrder` | internal/indexing/invalidation.go:255-263 | the composite key has no ties, so the sorted list is one list |
| `BundleDeltas.DeltasMeant` | internal/indexing/invalidation.go:244-338 | each delta of a kind is a comparison within one lineage of that kind, or, for files, an exact rename |
| `BundleDeltas.SymbolFingerprintTells` | internal/indexing/invalidation.go:414-433 | equal symbol fingerprints mean equal signature, range and flags |
| `DeltaMeaning.FileDeltasExactly` | internal/indexing/invalidation.go:244-338 | on the file cards, both ways: a path on both sides is reused or modified as its hashes say, a lost and a gained file with bytes nobody else has are a rename, all others are added or deleted, and there is no other file delta |
| `DeltaStates.SymbolDeltasSay` | internal/indexing/invalidation.go:412-436 | a symbol delta joins two cards of one symbol, reused when signature, range, flags and documentation agree and modified when not, or names one gained or lost |
| `DeltaStates.SymbolReuseIsComplete` | internal/indexing/invalidation.go:486-526 | a card given up and a card brought in for one symbol differ, and no symbol is both lost and gained |
| `DeltaStates.SymbolOnBothSides` | internal/indexing/invalidation.go:412-436 | a symbol with one card on either side yields exactly the delta its cards call for |
| `DeltaStates.SymbolPairsInOrder` | internal/indexing/invalidation.go:510-526 | the cards given up for one symbol are paired in the order of their identifiers, those without a partner last |
| `DeltaStates.SymbolGainsLast` | internal/indexing/invalidation.go:510-526 | a card gained for a symbol comes after those its modified cards turned into |
| `DeltaStates.RelationDeltasSay` | internal/indexing/invalidation.go:438-474 | a relation delta joins two relations of one claim (kind, resolution, range, same source, file and target), reused when evidence class, evidence hash and adapter agree and modified when not, or names one gained or lost |
| `DeltaStates.RelationReuseIsComplete` | internal/indexing/invalidation.go:486-526 | a relation given up and one brought in for the same claim rest on different evidence, and no claim is both lost and gained |
| `DeltaStates.RelationOnBothSides` | internal/indexing/invalidation.go:438-474 | a claim made once on either side yields exactly the delta its evidence calls for |
| `DeltaStates.RelationPairsInOrder` | internal/indexing/invalidation.go:510-526 | the same for the relations of one claim |
| `Publication.PublicationSafety` | internal/delivery/publication.go:107-356 | over all interleavings, crashes and outside writes: the ref is written only from approved previous to result under a prepared row, never after the row is retired, and results are returned only after publication and a later sight of the ref |
| `Publication.OneReceipt` | internal/delivery/publication.go:123-193 | all results ever returned carry the one journaled receipt |
| `Publication.RetiredForever` | internal/delivery/publication.go:140-160 | a published, abandoned or conflicted row is final |
| `Publication.AnswersExclusive` | internal/delivery/publication.go:296-349 | "not applied" and a published result exclude each other |
| `Publication.CasWriteMoveOk` | internal/delivery/publication.go:741-798 | the compare-and-swap step keeps the protocol invariant, failed or not |
| `Publication.RecoverFinishes` | internal/delivery/publication.go:302-319 | if the update reached the ref, recovery publishes and returns the journaled receipt |
| `Publication.RecoverAbandons` | internal/delivery/publication.go:320-349 | if it did not, recovery retires the attempt and leaves the ref alone |
| `Publication.PublishPublishes` | internal/delivery/publication.go:107-255 | a lone publisher moves the ref and returns its own receipt |
| `PublicationEffects.CallsPublish` | internal/delivery/publication.go:107-356 | without outside writers any stretch of interleaved, failing and crashing calls changes row, ref and leases only as the pipeline assumes, and the ref is where the journal says |
| `PublicationEffects.HistoryUndisturbed` | internal/delivery/publication.go:107-356 | the premises of that hold after every run from the start |
| `PublicationEffects.DisturbedCallsPublish` | internal/delivery/publication.go:107-356 | with outside writers the effect is an outside write followed by an assumed effect |
| `PublicationEffects.NothingJournaled` | internal/postgres/delivery_publications.go:87-99 | no row appears while the lifecycle and lease gate is closed |
| `PublicationEffects.PublishableLeads` | internal/delivery/publication.go:107-255 | an undisturbed publication from the approved commit ends published, with receipt and leases released |
| `PublicationEffects.FinishableLeads` | internal/delivery/publication.go:302-319 | an undisturbed recovery that finds the result at the ref ends published |
| `PublicationEffects.AbandonableLeads` | internal/delivery/publication.go:320-349 | an undisturbed recovery that finds the previous commit ends abandoned |
| `Delivery.ReleaseFollowsCleanup` | internal/execution/pipeline.go:271-314 | in a safe trace every pipeline release follows a quarantine, or nothing was prepared, or the worktree was absent and no worker launched |
| `Delivery.FailureFollowsCleanup` | internal/execution/pipeline.go:315-330 | in a safe trace a Run is failed, cancelled or parked only after its attempt ended and cleanup succeeded |
| `Delivery.CompletionFollowsReceipt` | internal/execution/pipeline.go:686-703 | in a safe trace a Run is completed only after a published receipt and only when the independent validation passed |
| `Delivery.AttemptEndsHonestly` | internal/execution/pipeline.go:425-490 | in a safe trace an attempt ends with the last answer its worker gave, under a guard then stopped unharmed, or as a retryable failure; cancelled only under a cancelled Run |
| `Delivery.TerminalFailureHasReason` | internal/execution/pipeline.go:552-612 | in a safe trace a succeeded attempt fails its Run for good only after a rejected validation, a publication conflict, or a failed commit under leases that were held |
| `Delivery.CompletionIsEarned` | internal/runstate/state.go:38-85 | every Run that completes has awaited approval, been queued, prepared, run and validated, in that order |
| `Delivery.EndsAreFinal` | internal/runstate/state.go:38-85 | nothing follows a completed, cancelled or terminally failed Run |
| `Delivery.EnvKeepsInv` | internal/postgres/store.go:709-750 | cancellation by an outsider respects the publication fence and keeps the durable invariant |
| `Delivery.MoveKeepsInv` | internal/runstate/state.go:38-85 | Run transitions under the state machine and the fence keep the durable invariant |
| `Services.World.TransitionRun` | internal/execution/pipeline.go:955-974 | optimistic, fenced, possibly lost; keeps the invariant when the caller may move |
| `Services.World.Quarantine` | internal/execution/pipeline.go:284-298 | idempotent move, absence report or failure, with its exact effect |
| `Services.World.RunWorker` | internal/execution/pipeline.go:415-422 | any answer, recorded in the trace with its error and form |
| `Services.World.StopGuard` | internal/execution/pipeline.go:423-426 | tells and records whether the guard held its leases |
| `Services.World.Publish` | internal/delivery/publication.go:107-255 | a publication call with an effect the protocol allows, the expected one when undisturbed; the invariant survives when only a passed result is handed over |
| `Pipeline.Execution.Execute` | internal/execution/pipeline.go:190-703 | keeps the durable invariant and every trace property, whatever fails; in a calm world a well-formed success ends completed and published with leases released if the validation passed and terminally failed, unpublished and clean if it was rejected, and any other answer ends the Run as it says, unreliable ones as retryable failures |
| `Pipeline.Execution.Cleanup` | internal/execution/pipeline.go:271-314 | quarantine or pre-worker absence before release; success means no live worktree and no active lease |
| `Pipeline.Execution.FailAfterCleanup` | internal/execution/pipeline.go:315-323 | the Run fails only after cleanup and a terminal attempt |
| `Pipeline.Execution.Begin` | internal/execution/pipeline.go:208-264 | after approval the Run goes to preparing and the leases are taken |
| `Pipeline.Execution.Work` | internal/execution/pipeline.go:415-426 | worker first, then its guard, then the judgement |
| `Pipeline.Execution.Judge` | internal/execution/pipeline.go:427-490 | a lost guard, an unreliable answer or an unasked cancellation becomes a retryable failure; anything else must be earned by the recorded answer |
| `Pipeline.Execution.Validate` | internal/execution/pipeline.go:578-612 | only a passed result goes on to publication; in a calm world the verdict decides between completed and terminally failed |
| `Pipeline.Execution.Unpublished` | internal/execution/pipeline.go:650-682 | only a positive absence proof of the journal row permits ordinary cleanup |
| `Pipeline.CompleteNonSuccess` | internal/execution/pipeline.go:1012-1091 | closes a cleaned Run; in a calm world it settles in the state that goes with the attempt |
| `Pipeline.TerminatePublicationConflict` | internal/execution/recovery.go:421-455 | quarantine, release, fail; in a calm world it settles as a terminal failure |
| `Recovery.Recover` | internal/execution/recovery.go:21-136 | keeps the invariant whatever happens; in a calm world it settles every ended or replaced attempt exactly unless it is stuck, and where it ends follows from what it finds: Run, attempt, journal and ref, leases and validation report |
| `Recovery.ResumeSucceeded` | internal/execution/recovery.go:138-375 | settles a succeeded attempt in a calm world unless stuck, completed, retryable or terminal as journal, ref and validation report say, and leaves a stuck one untouched |
| `Recovery.Resume` | internal/execution/recovery.go:236-375 | a journal row decides by the ref it finds, and without one the validation report does, the persisted one if there is one |
| `Recovery.FailInterrupted` | internal/execution/recovery.go:457-516 | settles an interrupted attempt as a retryable failure, tolerating absence only before a worker |
| `Recovery.RecoverCancellation` | internal/execution/recovery.go:518-561 | settles a cancelled Run, tolerating absence only without a start |
| `Recovery.RecoverNonSuccess` | internal/execution/recovery.go:563-598 | settles a blocked or failed attempt in the state that goes with it |
| `Recovery.CleanupSucceededTerminal` | internal/execution/recovery.go:377-419 | cleans up behind a Run that already failed |
| `Recovery.ReplayCompleted` | internal/execution/recovery.go:600-645 | re-observes the publication and releases the leases |
| `Recovery.RejectRecoveredValidation` | internal/execution/recovery.go:666-700 | settles a rejected result as a terminal failure |
| `Recovery.Lifetimes` | internal/execution/recovery.go:18-20 | any number of process lifetimes, each crashing anywhere: releases and failures follow cleanup, completions a receipt and a passed validation, terminal failures have a reason, and attempts end honestly |
| `Recovery.StuckIsReachable` | internal/execution/pipeline.go:271-330 | a run of Execute ends in the stuck state, and no number of undisturbed recoveries settles it |
| `Replay.VerifySprints` | scripts/verify_governed_state.py:327-373 | accepts exactly the acceptable Sprint streams |
| `Replay.VerifyDecisions` | scripts/verify_governed_state.py:376-410 | accepts exactly the acceptable decision streams |
| `Replay.VerifyCrossAggregateLinks` | scripts/verify_governed_state.py:413-426 | accepts exactly consistent links, with at most one pending decision per Sprint |
| `Replay.SprintStreamTells` | scripts/verify_governed_state.py:327-373 | along an accepted stream a Sprint keeps identity and content, counts versions one by one, never goes back in time or status, and nothing follows a rejection or cancellation |
| `Replay.DecisionStreamTells` | scripts/verify_governed_state.py:376-410 | an accepted decision stream is a request and at most one answer, by someone and for a reason |
| `Repository.MemoryRepository.PlanSprint` | internal/control/memory.go:56-111 | the stored rows and answer field by field, exactly-once answer and audit, governed state kept |
| `Repository.MemoryRepository.SubmitSprint` | internal/control/memory.go:126-198 | the stored rows and answer field by field, exactly-once answer and audit, governed state kept for a fresh decision |
| `Repository.MemoryRepository.ResolveDecision` | internal/control/memory.go:200-278 | an approval leaves the decision accepted, the Sprint approved and the Run queued, a rejection declined, rejected and cancelling, every other field spelled out; exactly-once answer and audit, governed state kept |
| `Repository.MemoryRepository.TransitionRun` | internal/control/memory.go:290-368 | exact effect on the Run and the Sprint owning it; a cancellation leaves an acceptable stream exactly when it is in order of time |
| `Repository.TransitionsAreLawful` | internal/control/memory.go:310-348 | on the rows: a transition succeeds exactly when version and state machine allow it, it is no resumption, and its owner has no pending decision and is submitted or being cancelled |
| `Repository.MemoryRepository.ResumeRun` | internal/control/memory.go:370-414 | resumes exactly the waiting Runs |
| `Repository.History` | internal/control/memory.go:56-414 | the checker accepts what any history under a steady clock and fresh decisions leaves; Runs are begun exactly for approved Sprints and cancelling or cancelled exactly for rejected or cancelled ones, decisions show in their Sprints, and Sprints await approval exactly when one decision is pending for them |
| `Repository.FirstAnswerStands` | internal/control/memory.go:477-500 | the receipt of the first success under a key survives every later command |
| `Repository.AskAgain` | internal/control/memory.go:64-111 | the same command by the same caller gives the first answer and changes only the audit list; any other command or caller under the key fails and changes nothing |
| `Repository.BackwardClockFails` | internal/control/memory.go:350-361 | four commands under a clock that steps back leave a stream the checker refuses |
| `Control.AwaitingExactly` | scripts/verify_governed_state.py:413-426 | a Sprint awaits approval exactly when one decision is pending for it, naming its Run |
| `Control.ResolveKeeps` | internal/control/memory.go:240-262 | a resolution whose Run follows the verdict keeps streams, links and Run states |
| `Control.GovernanceReplays` | internal/control/memory.go:56-368 | the invariant of the repository implies acceptance by the checker |
| `Control.CancellationExactly` | internal/control/memory.go:350-361 | a cancellation leaves an acceptable stream exactly when its timestamp is not older than the Sprint |
| `Scopes.ValidateCanonicalScopes` | internal/contracts/delivery.go:447-472 | accepts exactly sorted canonical antichains although only earlier scopes are compared |
| `Scopes.OneScopePerPath` | internal/contracts/delivery.go:495-502 | every path lies in at most one scope of an accepted list |
| `Fences.CoversExactly` | internal/contracts/delivery.go:495-502 | a scope covers exactly the paths whose segments begin with its own |
| `Fences.AncestorsExactly` | internal/contracts/delivery.go:438-445 | the scope and its ancestors are exactly the scopes that cover it |
| `Scopes.ValidateRequestScopes` | internal/contracts/delivery.go:135-154 | the scope rules of a request |
| `Scopes.WritesAndArtifactsApart` | internal/contracts/delivery.go:144-148 | no path is both writable source and artifact |
| `Scopes.EvidenceApartFromChanges` | internal/contracts/delivery.go:283-320 | changed paths and evidence entries of an accepted publication are disjoint |
| `Scopes.ApprovePaths` | internal/contracts/delivery.go:283-320 | accepts exactly covered paths, which are then disjoint from the evidence |
| `Fences.ExpectedDeliveryFenceKeys` | internal/contracts/delivery.go:422-445 | the sorted, repetition-free list of exactly the expected keys |
| `Fences.FencesMeetExactly` | internal/contracts/delivery.go:422-445 | two requests share a file fence exactly when some write scopes share a first segment |
| `Fences.CommonWriterContends` | internal/contracts/delivery.go:422-445 | requests that could write a common path always contend |
| `Fences.JoinedOrder` | internal/delivery/publication.go:725-735 | sorting by type then identifier is the byte order of the joined keys |
| `Fences.ReceiptFences` | internal/delivery/publication.go:705-739 | accepts exactly consistent leases that carry each expected key once, in any order |
| `Fences.FencesForgetOrder` | internal/delivery/publication.go:725-739 | any permutation of the leases gives the same fences |
| `Fusion.FuseRetrievalRanks` | internal/contracts/retrieval.go:624-693 | succeeds exactly on fusable input and returns the specified top list |
| `Fusion.TopIsBest` | internal/contracts/retrieval.go:675-692 | the result is the true top of the union under a strict total order |
| `FusionMeaning.FusionSays` | internal/contracts/retrieval.go:624-693 | on the two lists: each returned candidate shows its true ranks, scores the sum of weight over constant plus rank and copies the dense list's point first; best first with ties by entity and point, as many as there are up to the limit, each better than all left out |
| `FusionMeaning.OneTop` | internal/contracts/retrieval.go:675-692 | that description admits one set of candidates only |
| `Fusion.FusionForgetsOrder` | internal/contracts/retrieval.go:675-688 | the result does not depend on map order |
| `Fusion.ScoreExact` | internal/contracts/retrieval.go:638-667 | each score is the weighted sum over the ranks shown, which are the true positions |
| `Fusion.ExchangeExactly` | internal/contracts/retrieval.go:634-673 | exchanging the lists only exchanges the ranks if and only if the copies of every point with fewer than limit points before it agree |
| `Fusion.ExchangeUncut` | internal/contracts/retrieval.go:634-673 | agreeing copies suffice under any policy and are needed when nothing is cut |
| `Fusion.ReturnedExactly` | internal/contracts/retrieval.go:675-692 | a point is returned exactly when fewer than limit points come before it |
| `Fusion.ExchangeCanShow` | internal/contracts/retrieval.go:650-658 | two copies that differ in a copied field make the exchange show |

## Left out

- SHA-256 and JSON: a collision-free stand-in for the digest and structural values for encoded documents; round trips of encoding are taken for granted.
- Which error a call returns, error texts, identifier patterns and most length limits: a failure is one value.
- Lifecycle fields of snapshots (status, version, timestamps) and the hash of a raw relation, which is a parameter of normalization.
- The adapters themselves: any function of the owned and configuration documents that names its own symbols, stays within its languages and shares no symbol key with an adapter of another name reading the same documents.
- `adapterConfigurationPath`: the table of configuration file names is a parameter.
- Two pipelines running on one attempt at the same time, which the scheduler fence excludes; process lifetimes follow each other.
- A Run resumed for another attempt while the first is being recovered: histories of one attempt only.
- A Git child process outliving its parent, and a database connection lost while its process goes on inside the publication lock: the lock is held until the transaction ends or the process dies.
- Timers and goroutines of the lease guard: a guard is its outcome.
- Git commands, worktree file moves, validator processes and evidence files: their results only.
- Services.World.Publish: one call of the pipeline has any effect `PublicationEffects.CallsPublish` derives; an outside write during the call appears before it (`PublicationEffects.DisturbedCallsPublish`).
- Floating point in rank fusion: scores are reals.
- Memory repository reads and `RecordToolAudit`, audit timestamps of replays, and the event envelope of the replay checker (identifiers and actor of a migration are one flag).
- HTTP, MCP, CLI, configuration, object store, PostgreSQL statements and the index publication service.
