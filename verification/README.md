# A verified model of the media engine's durable protocols

The engine downloads media into a resumable session, stages one output and
publishes it at a destination that other processes can touch at any moment. This
project models the parts of it whose correctness depends on what happens *between*
steps: crashes, cancellation, failing file operations, foreign files and other
callers. It proves what holds over every history of such events.

Check it with `dafny verify dfyconfig.toml`.

## How it is organised

* **Publication.** `ArbiterSpec` is the cancel/publish arbiter with all its callers;
  `PublicationArbiter` is the object, each critical section proved to take the step
  the specification takes. `SessionManifest` is the durable manifest with its
  mutation rules. `PublicationProtocol` is one session as a step system: each engine
  step is one durable write, one look at the shared directory or one arbiter call,
  so a crash, a cancel, a fault or a foreign file can fall between any two.
  Files are directory entries over inodes, because publication is a hard link.
  Each run is a direct or a multi-track session; the two publish alike, and differ in
  how they stage their output and in how they reconcile.
  `PublicationInvariant` is what every reachable world keeps, `PublicationHistory`
  what its history flags say about earlier events, `PublicationSafety` what never
  happens, `PublicationRecovery` what a restart achieves,
  `PublicationReconciliation` exactly when an unresolved session is resolved,
  `PublicationLimits` exactly when it cannot be and when a cancel wins over a link,
  `PublicationResidue` when a multi-track session cannot go on, and `PublicationRace`
  how an output nobody staged comes to be committed.
* **Media transaction.** `TransactionSpec` is the undo log as a value,
  `TransactionInvariant` what every operation keeps, `TransactionSoundness` the
  theorems over every history of operations and writes, `MediaTransaction` the object
  with its loops, proved against the value.
* **Concurrent helpers.** `RefreshFlight`, `LockTable` and `LazySolver`: every
  interleaving of their critical sections, and the objects that perform them.
* **Algorithms.** `PlaylistItems` and `PlaylistPrefetch`, `ResumeIdentity` and
  `ResumeHistory`, `CutCommit`, `SectionNaming`, `Retry`.

## What turned out not to hold

Each of these is stated with its exact condition and shown to occur.

* A session can be wedged for ever. A crash between the two writes of a
  reconciliation that found nothing published leaves NeedsReconciliation with a
  pending publication, and a lost journal write leaves an indeterminate manifest
  without an indeterminate journal; no restart, repair or foreign help ever changes
  such a manifest (`PublicationLimits.WedgedForever`), while every other unresolved
  session can still be published (`PublicationLimits.UnwedgedCanRecover`). Both
  kinds occur (`PublicationLimits.ReconcilingWedgeOccurs`,
  `PublicationLimits.WedgeOccurs`).
* A multi-track session can be blocked by its own output. A crash or a pause after
  its tracks were merged and before the result is recorded leaves a file that every
  later run refuses, until the workspace is discarded
  (`PublicationResidue.ResidueBlocksForever`); only a direct session or a failed stat
  gets past it. Any other multi-track session found intact converges
  (`PublicationRecovery.RestartConverges`).
* A cancel can win over a link that is in place, in exactly two ways
  (`PublicationSafety.GivesUpExactly`, `PublicationSafety.CancelWonLeavesNoLink`).
  After a link that took effect but reported an error, a failed stat of the
  destination reads as absence; and if the error says that the name exists, a
  destination that cannot be read, or no longer holds the staged bytes, counts as a
  collision. Both occur (`PublicationLimits.CancelCanWinOverALink`).
* A committed output can be one that nobody staged. The staged file is compared and
  then linked; a foreign write through another link of it, made in between, is
  linked and committed without ever having been compared. A link shows the staged
  output exactly if no such write happened
  (`PublicationSafety.LinkShowsStagedExactly`), and a session that was linked under
  one name and then rebound provides the other link
  (`PublicationRace.UnseenCommitOccurs`).
* Tracking an existing file the transaction never protected makes rollback delete
  it (`TransactionSoundness.TrackedOnlyIsDeleted`); exactly which paths rollback
  restores is `TransactionSoundness.RollbackRestoresExactly`.

## Model

| member | source | states |
|---|---|---|
| `ArbiterSpec.AlwaysConsistent` | engine/publication_arbiter.go:71-268 | in every interleaving only an issued guard is live, reserved states have one, open and lost states none, and every sleeper on the current channel saw the current state |
| `ArbiterSpec.NoLostWakeup` | engine/publication_arbiter.go:103-162 | a caller asleep on the current channel implies the arbiter is still in the reserved state it saw, and any state change wakes every sleeper |
| `ArbiterSpec.StaleReservationIsInert` | engine/publication_arbiter.go:176-263 | after its terminal call no copy of a reservation ever succeeds or changes anything |
| `ArbiterSpec.DecidedIsAbsorbing` | engine/publication_arbiter.go:71-263 | the three decided states are absorbing in every continuation |
| `ArbiterSpec.AtMostOneWinner` | engine/publication_arbiter.go:166-245 | over a whole interleaving at most one of WinCancel, MarkDestinationReplaced and MarkIndeterminate succeeds |
| `ArbiterSpec.ReservationsNeverOverlap` | engine/publication_arbiter.go:71-263 | two grants have different guards and the earlier one was released by its own guard in between |
| `PublicationArbiter.PublicationArbiter.TryBegin` | engine/publication_arbiter.go:71-164 | one pass of BeginCancel or BeginPublication takes exactly the specification's step, closes the old channel on a grant and hands out the open one on a wait |
| `PublicationArbiter.PublicationArbiter.Perform` | engine/publication_arbiter.go:166-263 | each terminal or marking call succeeds exactly for the live guard in the right state and otherwise changes nothing |
| `PublicationArbiter.PublicationArbiter.SignalChange` | engine/publication_arbiter.go:265-268 | the channel every earlier observer holds is closed and a fresh open one replaces it |
| `SessionManifest.MutationsRespectAuthority` | internal/session/workspace.go:344-903 | no mutation leaves reconciliation, revives a run, withdraws or retargets a committed output or completes without a commit, except the one meant to |
| `SessionManifest.LifecycleNeverTurnsBack` | internal/session/model.go:329-471 | over any sequence of mutations phases never go back, a committed publication keeps its destination and output, the generation counts the resumes and only a resume revives a stopped session |
| `PublicationInvariant.StepKeeps` | engine/session_direct.go:432-1397 | every engine, crash, cancel, start and foreign step keeps the protocol invariant |
| `PublicationInvariant.AlwaysInv` | engine/session_direct.go:432-1397 | the invariant holds after every history of runs, crashes, faults, cancels and foreign files |
| `PublicationHistory.SeenExactly` | engine/session_direct.go:1249-1263 | the flag of the destination having shown the staged output holds exactly if it did so at some moment since the binding |
| `PublicationHistory.AlteredExactly` | engine/session_direct.go:1318-1334 | between comparison and link, the staged file counts as altered exactly if some foreign write there left other bytes that nothing put right |
| `PublicationHistory.BlindExactly` | engine/session_direct.go:1334-1351 | an attempt counts as blind exactly if it gave its reservation up over its own link in the present run |
| `PublicationSafety.EngineNeverAltersDestinations` | engine/session_direct.go:1175-1351 | no step of the engine removes, replaces or rewrites a file already at a destination, whatever happened before |
| `PublicationSafety.EngineLinksOnlyWhileReserved` | engine/session_direct.go:1203-1263 | a file appears by the engine's hand only as the link of its staged output, at the manifest's destination, while its reservation is live, and shows that output if and only if the staged file is not altered |
| `PublicationSafety.CommittedOnlyAfterSeen` | engine/session_direct.go:1249-1263 | a committed manifest implies that its destination held exactly its staged fingerprint at some moment since the two were bound, or that its link was made while a foreign write had altered the staged file after the comparison |
| `PublicationSafety.LinkShowsStagedExactly` | engine/session_direct.go:1318-1336 | a link that takes effect shows another output than was staged if and only if a foreign write left other bytes in the staged file since the comparison that nothing put right |
| `PublicationSafety.ReservationIsTerminalisedOnce` | engine/session_direct.go:1203-1263 | on every path of every run the reservation calls never panic, grants are at most one and released exactly once |
| `PublicationSafety.CancelWonLeavesNoLink` | engine/session_direct.go:1313-1351 | a won cancel leaves a link of the attempt in place only if the attempt gave its reservation up over that link in one of the two ways |
| `PublicationSafety.GivesUpExactly` | engine/session_direct.go:1334-1351 | with a link in place the reservation is given up if and only if the re-check cannot stat the destination, or the link reported an existing name and the destination cannot be read or holds other bytes |
| `PublicationRecovery.RestartConverges` | engine/session_direct.go:432-510 | from every crash point not marked unresolved, with the workspace intact and no foreign file, a calm restart ends Completed and Committed with the staged output, linking at most once; a multi-track session not yet ready does so if its place of staging holds its recorded output, or nothing when none is recorded |
| `PublicationReconciliation.AlwaysEvidenced` | engine/session_direct.go:1213-1247 | in every history an unresolved session has a journal naming its destination and its staged fingerprint |
| `PublicationReconciliation.ReconcilableConverges` | engine/session_direct.go:512-564 | an unresolved session with fitting evidence is published exactly as staged by one calm restart, direct or multi-track |
| `PublicationReconciliation.UnreconcilableStays` | engine/session_direct.go:512-564 | without it, or when a direct session asks for another name, a calm restart changes no manifest, journal or file, for any number of steps |
| `PublicationReconciliation.ResolvedExactly` | engine/session_multi.go:810-857 | a calm restart leaves the unresolved state if and only if the evidence fits and, for a direct session only, the requested name is the destination |
| `PublicationReconciliation.MultiTrackPublishesElsewhere` | engine/session_multi.go:810-857 | a multi-track session asked for another free name resolves a demonstrably unpublished output and publishes it there |
| `PublicationLimits.WedgedForever` | engine/session_direct.go:517-563 | a wedged manifest is never changed by any continuation of the history |
| `PublicationLimits.UnwedgedCanRecover` | engine/session_direct.go:517-563 | every other unresolved session has a continuation that publishes it |
| `PublicationLimits.CrashWhileReconcilingWedges` | engine/session_direct.go:550-560 | a crash after the first of the two resolving writes wedges the session with a pending publication, from every history that reaches it |
| `PublicationLimits.ReconcilingWedgeOccurs` | engine/session_direct.go:550-560 | a history exists that reaches that reconciliation and ends wedged with a pending publication |
| `PublicationLimits.LostDoubtWedges` | engine/session_direct.go:1239-1246 | a lost journal write before the indeterminate manifest write can wedge the session |
| `PublicationLimits.WedgeOccurs` | engine/session_direct.go:1239-1246 | a history exists that ends in a wedged session |
| `PublicationLimits.CancelCanWinOverALink` | engine/session_direct.go:1334-1351 | from every look at a free destination a link that reports either error can lose to a cancel and stay in place |
| `PublicationLimits.BlindCancelOccurs` | engine/session_direct.go:1334-1351 | a history exists in which a cancel won and the link is in place |
| `PublicationResidue.ResidueBlocksForever` | engine/session_multi.go:744-800 | an unrecorded merged output keeps a multi-track session from ever becoming ready, through any restarts, pauses, cancels and crashes, until the workspace is discarded |
| `PublicationResidue.MergeLeavesResidue` | engine/session_multi.go:744-800 | at every merge a crash right after it, and a pause during it, each leave such an output |
| `PublicationResidue.ResidueOccurs` | engine/session_multi.go:744-800 | a history exists that ends in a blocked session |
| `PublicationRace.AlteredLinkCommitsUnseen` | engine/session_direct.go:1318-1336 | every altered staged file about to be linked to a free destination can be committed without having been shown |
| `PublicationRace.WriteInWindowCommitsUnseen` | engine/session_direct.go:1318-1336 | a foreign write of other bytes through another link of the staged file, in the window, is enough for that |
| `PublicationRace.UnseenCommitOccurs` | engine/session_direct.go:413-430 | a history exists in which the manifest is committed while its destination shows other bytes and has never shown the staged ones |
| `TransactionInvariant.RollbackIsPathwise` | engine/multioutput_transaction.go:432-501 | the rollback loops do to each path what its own artifact slot and then its own destination slot say, whatever fails for other paths, and use up exactly the backups that were put back |
| `TransactionSoundness.AlwaysValid` | engine/multioutput_transaction.go:258-391 | in every reachable transaction both slot lists are duplicate-free and every backup exists and is held once |
| `TransactionSoundness.AlwaysRemembers` | engine/multioutput_transaction.go:299-391 | the slots of a path hold what it was before the transaction exactly while it is not loose |
| `TransactionSoundness.RollbackRestoresExactly` | engine/multioutput_transaction.go:299-501 | after any history rollback gives a file that existed before its original content if and only if the path is not loose or the caller put it back itself, including paths in both slot lists and even if undoing other paths fails |
| `TransactionSoundness.FailedRestoreLosesNothing` | engine/multioutput_transaction.go:432-501 | where undoing a path itself fails, its original content is still at the path or in a backup |
| `TransactionSoundness.RollbackRemovesCreated` | engine/multioutput_transaction.go:432-501 | a path created since the transaction began survives rollback if and only if it is loose, or kept with something left of it |
| `TransactionSoundness.RollbackRestoresEverything` | engine/multioutput_transaction.go:299-501 | without loose paths, leftovers and leaked backups rollback restores the whole directory, backups included |
| `TransactionSoundness.CarefulHasNothingLoose` | engine/multioutput_transaction.go:299-391 | nothing is loose if every path is in the transaction before it is written, no existing file is only tracked, and every destination acquired can be backed up, each of which a caller can check beforehand |
| `TransactionSoundness.CarefulRollbackRestoresEverything` | engine/multioutput_transaction.go:299-501 | after such a history rollback restores the whole directory |
| `TransactionSoundness.RollbackReportsExactly` | engine/multioutput_transaction.go:470-501 | rollback reports success if and only if no slot it had to undo was in trouble |
| `TransactionSoundness.CommitDropsExactlyTheBackups` | engine/multioutput_transaction.go:503-558 | commit leaves every output as written and removes exactly the backups this transaction holds, but for those whose deletion fails |
| `TransactionSoundness.CommitAgainFinishes` | engine/multioutput_transaction.go:503-538 | a second commit finishes what the first could not delete |
| `TransactionSoundness.RollbackIsFinal` | engine/multioutput_transaction.go:484-613 | a second rollback changes nothing, a finalized transaction has nothing to undo, and the caller's choice between the two rollbacks never matters |
| `TransactionSoundness.TrackedOnlyIsDeleted` | engine/multioutput_transaction.go:681-693 | an existing file that is only tracked is deleted by rollback, and a snapshot taken while it is unchanged redeems it |
| `MediaTransaction.Transaction.Protect` | engine/multioutput_transaction.go:299-366 | protecting by move or by copy takes the specification's step, with every refusal |
| `MediaTransaction.Transaction.SnapshotRemovedPath` | engine/multioutput_transaction.go:319-349 | the in-place search and update take the specification's step |
| `MediaTransaction.Transaction.AcquireDestinationBackups` | engine/multioutput_transaction.go:368-391 | the loop backs up each new destination and on the first error undoes the whole transaction, as far as that works |
| `MediaTransaction.Transaction.MarkPublished` | engine/multioutput_transaction.go:421-430 | marks exactly the path's destination slot |
| `MediaTransaction.Transaction.TrackArtifacts` | engine/multioutput_transaction.go:681-693 | adds one empty slot per path not yet known |
| `MediaTransaction.Transaction.Rollback` | engine/multioutput_transaction.go:432-501 | undoes artifacts, then destinations, going on after failures, empties both lists, and reports success exactly if nothing failed |
| `MediaTransaction.Transaction.RollbackTransaction` | engine/multioutput_transaction.go:599-613 | destinations are undone only once backups were acquired, with the report of the rollback it chose |
| `MediaTransaction.Transaction.Commit` | engine/multioutput_transaction.go:503-558 | drops every backup it can, clears exactly those slots in place, and reports success exactly if none was stuck |
| `RefreshFlight.BudgetIsKept` | engine/youtube_sabr_refresh.go:129-137 | extractions started equal `attempts` and never exceed the budget, in every interleaving |
| `RefreshFlight.OneJoinableFlight` | engine/youtube_sabr_refresh.go:120-137 | a group never has two flights that can be joined |
| `RefreshFlight.OnlyItsWorkerRemovesAnEntry` | engine/youtube_sabr_refresh.go:120-153 | a table entry goes only with its own worker or after its flight was given up |
| `RefreshFlight.CancelledExactlyWhenDeserted` | engine/youtube_sabr_refresh.go:158-181 | before completion shared work is cancelled if and only if no caller waits for it |
| `RefreshFlight.Coordinator.RunFlight` | engine/youtube_sabr_refresh.go:98-137 | the critical section of a call answers, joins, leads or refuses as the specification does |
| `RefreshFlight.Coordinator.FinishFlight` | engine/youtube_sabr_refresh.go:139-153 | the worker removes its own entry only |
| `RefreshFlight.Coordinator.LeaveFlight` | engine/youtube_sabr_refresh.go:171-180 | the last caller to leave abandons and cancels the flight |
| `LockTable.MutualExclusion` | engine/ntrack_workspace.go:105-125 | two holders of one workspace never overlap, whichever entries they locked |
| `LockTable.EntryExactlyWhileUsed` | engine/ntrack_workspace.go:105-125 | an entry is in the table exactly while some caller uses it, and its count is exactly those callers |
| `LockTable.WorkspaceLocks.Acquire` | engine/ntrack_workspace.go:105-114 | the locked section shares the existing entry or creates one |
| `LockTable.WorkspaceLocks.Release` | engine/ntrack_workspace.go:117-124 | the last share given back removes the entry |
| `LazySolver.OneHelperClosedOnce` | engine/client.go:2653-2712 | at most one helper is started, it has at most one closer, and that runs at most once |
| `LazySolver.ClosedOnlyWhenDrained` | engine/client.go:2696-2712 | once the helper was shut down no solve is in flight |
| `LazySolver.NoSolveAfterClose` | engine/client.go:2653-2705 | once marked closed no solve begins and no helper starts |
| `LazySolver.EveryCloseDrainedShutsTheHelper` | engine/client.go:2696-2712 | when all calls have returned, a helper that came with a closer has been shut down |
| `LazySolver.LazyChallengeSolver.BeginSolve` | engine/client.go:2660-2688 | the locked section starts the helper at most when needed, with or without a closer, and counts the solve |
| `LazySolver.LazyChallengeSolver.BeginClose` | engine/client.go:2700-2705 | only one Close ever gets the closer |
| `PlaylistItems.ScanIsProgression` | engine/playlist_items.go:111-141 | testing every position of the source finds the arithmetic progression, in its direction |
| `PlaylistItems.ExpandSelectsExactly` | engine/playlist_items.go:101-180 | no duplicates, no index outside the source, and exactly the indexes some spec selects |
| `PlaylistItems.ExpandSpecs` | engine/playlist_items.go:101-146 | the loops compute the first occurrences of the concatenated progressions within the source, or nothing if the context ends |
| `PlaylistPrefetch.NothingBeyondHighest` | engine/playlist_items.go:192-203 | no position past the computed highest index is selected, in a source of any length |
| `PlaylistPrefetch.CollectionLimit` | engine/playlist_items.go:182-211 | unless the context ends, the limit is finite and within the cap exactly for short selections, and is then the highest index they can select |
| `PlaylistPrefetch.PrefetchRefinesFullRead` | engine/playlist_items.go:182-211 | expanding over the prefetched prefix gives the same indexes in the same order as over the whole source |
| `PlaylistPrefetch.LimitIsTight` | engine/playlist_items.go:182-211 | the entry at the limit is selected whenever the source has it |
| `PlaylistPrefetch.Collect` | engine/playlist_items.go:245-274 | loading gives the selection of the whole source, independent of cap and failures beyond its reach, or else what the capped full read gives, errors included, unless the context ends on the way |
| `PlaylistPrefetch.ItemsIterator.Next` | engine/playlist_items.go:222-243 | hands out the selection once, in order, and nothing after its end, an error or an ended context |
| `ResumeIdentity.WeakIsNeverStrong` | engine/session_direct.go:766-769 | a weak validator of section 8.8.3 of RFC 9110, however padded, is never taken as strong |
| `ResumeIdentity.OfferedExactly` | engine/session_multi.go:542-560 | a boundary is offered if and only if the identity matches, 0 < committed < total and the tag is strong |
| `ResumeIdentity.CommitThenOffer` | engine/session_multi.go:595-613 | what is committed is exactly what is offered next, and other tracks are untouched |
| `ResumeIdentity.ResumeKeepsOffers` | internal/session/model.go:428-452 | resuming a stopped session changes no offer |
| `ResumeIdentity.MultiTrackSession.CommitTrackCheckpoint` | engine/session_multi.go:593-613 | commits exactly the boundary under the track's digest, or changes nothing |
| `ResumeHistory.CommitsExactly` | engine/session_multi.go:593-613 | a commit succeeds if and only if it is made under the track's identity, for the component with the track's checkpoint file, below no observed progress, and with an image that may be persisted |
| `ResumeHistory.OfferIsTheLastCommit` | engine/session_multi.go:435-613 | over every history of commits, resumes, reconciliations and other mutations under changing identities, a boundary is offered if and only if the last standing commit was made under that identity, is a strict part and has a strong tag, and it is exactly that commit |
| `ResumeIdentity.MultiTrackSession.SetTrackIdentity` | engine/session_multi.go:463-471 | adopts the digest of a component without progress and nothing else |
| `ResumeIdentity.MultiTrackSession.RemoveEvidence` | engine/session_multi.go:501-540 | removes a track's files in order, stopping at a foreign or stuck one, and succeeds exactly if there is none |
| `ResumeIdentity.MultiTrackSession.ResetTrackEvidenceAndManifest` | engine/session_multi.go:473-499 | the files go and the component is zero under the new digest, or only progress and some of the track's files are lost |
| `ResumeIdentity.MultiTrackSession.ReconcileTrackIdentities` | engine/session_multi.go:435-461 | on success every component carries its track's digest and keeps progress and files exactly when it already did; on any outcome no progress appears |
| `CutCommit.Directory.CommitJobs` | engine/sponsorblock_cut.go:481-521 | all originals hold their staged content, or all their old content if the restores succeed, and no old content is ever lost; a backup stays only where its final removal fails |
| `CutCommit.Directory.Rollback` | engine/sponsorblock_cut.go:488-499 | restores every committed job, going on after a failure, and fails exactly when some restore does |
| `CutCommit.Directory.Restore` | engine/sponsorblock_cut.go:534-551 | moves the backup back; a failure keeps the backup, and the original too if it came before the removal |
| `SectionNaming.CandidatesDiffer` | engine/section_plans.go:343-352 | suffixed names differ for different numbers |
| `SectionNaming.BlockingShrinks` | engine/section_plans.go:346-353 | the used names at or above the current number strictly shrink at each try |
| `SectionNaming.RenderDestination` | engine/section_plans.go:324-354 | the base if free, else the first free candidate, found within as many tries as there are used names |
| `SectionNaming.BuildDestinations` | engine/section_plans.go:306-318 | the destinations of all sections are pairwise different |
| `Retry.RetryDelay` | engine/extractor_retry.go:140-159 | in 64-bit durations without overflow, the delay is min(max, base * 2^(attempt-1)) after defaulting, and every doubled value on the way is within the maximum once the base is |
| `Retry.DelayIsMonotone` | engine/extractor_retry.go:140-159 | later retries never wait less |
| `Retry.ExtractWithRetry` | engine/extractor_retry.go:16-55 | at most retries + 1 calls, a retry only after a retryable failure, and exactly the delays of the schedule in between |

## Left out

- How a multi-track session downloads and merges its tracks: one fetch and one merge, either of which can fail, be interrupted or lose its effect; a merged output is whole or absent.
- The directSession object: its methods are modelled as steps on values, one per effect, because a crash can fall between any two; update in place is not captured.
- Progress inside one download, fragment checkpoints and the payload length test: the step system only knows a payload that is there or not.
- Manifest revision and generation checks as optimistic locking, and their 64-bit bounds: one process holds the workspace lease.
- The manifest's cleanup state, transition record and timestamps; journal and manifest encoding; SHA-256 is an injective constructor.
- PublicationReconciliation.UnreconcilableStays: a request with an empty target basename is refused before a session is opened.
- Foreign processes that rename entries or make hard links of their own, and foreign writes straight into the stage or payload of the workspace; a staged file changes only through a destination that is linked to it.
- Path cleaning: paths are cleaned paths, so the guard against the empty path never applies.
- Windows branches, copy fallbacks, permissions, symbolic links and non-empty directories.
- The parser of playlist item strings, template rendering and the extraction of SABR material: formatting and provider code.
- What a caller of a finished refresh flight is handed, goroutine scheduling inside a critical section, and the helper process of the challenge solver.
- Network transports, formats, subtitles, thumbnails, metadata, options, plugins and commands.
