# Verified model of the Nuvyn document store

Nuvyn keeps Markdown documents on disk and their metadata in SQLite, while other programs may write
the same files at any time. This project models the protocols that keep the two consistent, and
proves what they guarantee:

- the ownership-verified replace, the conditional remove and the create-only move, each against
  every interleaving with external writers, with crashes between any two steps and a startup
  recovery that may itself be killed (`AtomicReplace`, `ConditionalRemove`, `CreateOnlyMove`, over
  the disk of `Filesystem`);
- the journaled folder move with both strategies and its multi-pass recovery (`FolderMove`,
  `FolderMoveCompletion`, `FolderMoveProgress`);
- the metadata graph: prefix delete and prefix move under UNIQUE constraints, the predicted graph of
  a move and the compare-and-swap that checks it, the three-state restore within a footprint
  (`MetadataGraph`, `MetadataStore`, `PrefixTransition`, `MetadataRestore`);
- tag identity: canonical names, the in-place migration, rename, merge and remove, the
  set-difference write, preview paging (`TagIdentity`, `TagIdentityMigration`, `TagOperations`,
  `DocumentTags`, `PreviewPaging`);
- the rename-reference transaction of a document or folder, the life of its journal and payloads, and
  the handshake that hands metadata ownership to the reversed folder-move journal
  (`ReferenceRecovery`, `ReferenceJournal`, `OwnerHandshake`);
- the incremental link index, the write locks, and the directory walks that decide parity, inventory
  and shell removal (`LinkIndexing`, `WriteLocks`, `DirectoryParity`).

Protocols that interleave or crash are step systems with a program counter per await point; code
that rewrites tables, maps or trees in place is a class whose methods are proved against
specification functions. Loops over rows take the rows in any order unless the code sorts them for a
reason the result depends on.

## Assumptions

- SHA-256 is injective, so hashes are compared as the texts, and plan fingerprints as the plans,
  they stand for.
- Names with fresh UUIDs are private: save temps, staging names, `@moving/` rows, staged tag names.
- `link` fails only because the name exists; `rename` and `link` behave as in the System Interfaces
  volume of POSIX.1-2017.
- A journal write or rewrite is one atomic durable step, and a SQLite transaction is atomic.
- External writers create, replace with a new inode, or delete; they do not write in place through
  an old descriptor inside the check-to-use windows the code documents.
- The prefixes of a prefix move have passed `isValidPathSyntax` (server/paths.ts:42-60), as every
  caller checks or journals; the documents they select need not have.
- Clocks are parameters; versions are integers with the bound `Number.MAX_SAFE_INTEGER`.

## What the proofs show about the code

Some claims one would like to make are false of the code as it is. Each has an exact condition; for
the link index it is per reference.

- A commit can unlink the last name of a foreign generation it had put back, if the writer deleted
  the restored path meanwhile (`AtomicReplace.RestoredThenDiscardedIsLost`). A step takes the last
  name of a foreign generation if and only if it is the unlink of the staging name after a restore
  and no other name is left (`AtomicReplace.LossIsExactly`).
- The startup rule for a removal staging name compares no bytes, so it loses a generation exactly
  when the path was taken again (`ConditionalRemove.OrphanRuleLoses`).
- After one crash in the entry loop of a folder move every file still reaches the destination, and
  the metadata is committed if and only if the prepared graph transitions, that is, if the derived
  graph exists and the two statements reproduce it. The route writes the journal without trying, so a
  graph that does not transition leaves the journal at files-landed. After a second crash inside
  recovery the metadata is also stranded if one entry is missing while another document is linked
  under two names; then a row moves early and the graph matches neither snapshot
  (`FolderMoveCompletion.RecoveryCompletesUnlessBlocked`, `CrashInEntryLoopCompletes`,
  `SecondCrashCanBlock`).
- Prefix queries use `LIKE prefix || '/%'`, which for the lower-case paths the code accepts selects
  the subtree up to letter case (`MetadataGraph.SelectedByCase`), while the prediction compares
  prefixes exactly. Prediction and execution agree exactly when no document differs from a selected
  subtree only by letter case and every migration row at a destination document's path is that
  document's own and did not come from the source (`PrefixTransition.PredictionIsExecution`). The
  update loop meets UNIQUE(path) on no table its check accepts, such documents or not
  (`MetadataStore.MetadataDb.MoveDocuments`).
- `deriveCommittedPrefixSnapshot` ends with a closure check that refuses every graph in which it has
  just tombstoned a destination row, because the tombstone names a document it removed. A stale
  destination document that still has its migration row therefore makes the transition fail although
  the execution would leave the predicted graph (`PrefixTransition.DeriveSucceeds`,
  `PrefixTransition.DestinationRowRefused`).
- The three-state restore succeeds from the expected graph exactly if the tag rows and association
  ids of the snapshot are free and every other owned tag is a created one that no other document uses
  by then (`MetadataRestore.RestoreYieldsSnapshot`).
- Canonicalising a tag name removes one leading `#`, so it is not idempotent on names that begin
  with two. One such tag makes the identity migration fail at every startup
  (`TagIdentityMigration.DoubleHashBlocks`). A rename to such a name is stale as soon as it is applied
  under the name it was previewed with, because apply parses the name once more
  (`TagOperations.SameNameIsStale`), and a plan that would write one fails its closing check
  (`TagOperations.RenameNeedsNoHash`).
- Recovery of a rename transaction is crash-safe among its rewrites, but once a roll-back has moved
  the document or folder home, running it again is refused exactly when one of the references lies
  in it: a document that refers to itself, a folder whose documents link to each other. A folder
  roll-back that waited for its own folder-move journal is always in that position
  (`ReferenceRecovery.SelfReferenceBlocksRerun`).
- A comment in the journal's preparation says startup recovery can repeat an interrupted removal of
  payloads. It does so exactly if every payload is still there; a journal with a missing payload is
  never acted on again (`ReferenceJournal.CleanedIffComplete`, `ReferenceJournal.StrandedStays`).
- Wiki-link resolution falls back to the first path with the basename, in insertion order. The
  incremental index equals a rebuild for every listing order if no reference is ambiguous; an
  ambiguous reference resolves differently under two listings of the same paths
  (`LinkIndexing.AmbiguousDependsOnOrder`).

## Model

| member | source | states |
|---|---|---|
| AtomicReplace.ExternalGenerationsSurvive | server/atomicTextWrite.ts:799-1077 | over every interleaving of a commit with external writers, crashes and recovery, every generation keeps a name unless it is the save temp, holds the expected text, or its writer discarded it |
| AtomicReplace.PublishesOverExpected | server/atomicTextWrite.ts:799-1077 | over every such run a commit reaches its link, and so its success, only after reading the expected text in the very generation it had captured at the target and taken over |
| AtomicReplace.OwnStepFreesNothingForeign | server/atomicTextWrite.ts:670-711 | no single step of commit or recovery takes the last name of a foreign generation |
| AtomicReplace.LossIsExactly | server/atomicTextWrite.ts:670-711 | over every run, a step of commit or recovery takes the last name of a foreign generation if and only if it unlinks the staging name of a restored generation that has no other name, and then its writer has discarded it |
| AtomicReplace.RestoredThenDiscardedIsLost | server/atomicTextWrite.ts:670-711 | a concrete run in which a restored and then deleted foreign generation loses its last name to the commit, so the exemption is needed |
| AtomicReplace.UndisturbedCommit | server/atomicTextWrite.ts:799-1077 | without interference a commit of the expected text ends with the replacement at the path and neither temp, staging name nor journal left |
| AtomicReplace.NeverLost | server/atomicTextWrite.ts:799-1077 | without external writers the old generation always has a name, and outside a takeover the path holds the old text or, if that was expected, the replacement |
| AtomicReplace.CrashAtomic | server/crashRecovery.ts:715-882 | kill the commit after any step and recovery any number of times: a recovery that runs to its end leaves the old text or the replacement, never a missing path |
| AtomicReplace.RecoveryIdempotent | server/crashRecovery.ts:715-882 | after one finished recovery of any state, a second one changes neither disk nor journal |
| AtomicReplace.RecoveryEnds | server/crashRecovery.ts:3102-3153 | recovery reaches its end from each of its states |
| ConditionalRemove.OnlyTheExpectedFileGoes | server/atomicTextWrite.ts:1159-1262 | over every interleaving, whatever a conditional remove unlinks for good held the expected text and is the captured file, the caller's own where it named one |
| ConditionalRemove.RemovedIsTheCapturedFile | server/atomicTextWrite.ts:1159-1262 | success is reported by the step that unlinks exactly the captured file, which holds the expected text |
| ConditionalRemove.OrphanComesBack | server/crashRecovery.ts:3120-3139 | the startup rule puts an interrupted removal back when the path is free |
| ConditionalRemove.OrphanRuleLoses | server/crashRecovery.ts:3120-3139 | it drops a generation exactly when that was taken aside, has no other name and the path is bound again |
| CreateOnlyMove.NothingIsOverwritten | server/documentFileLifecycle.ts:255-354 | over every interleaving a create-only move destroys no generation, its own or another's |
| CreateOnlyMove.MovedTheDeclaredGeneration | server/documentFileLifecycle.ts:255-354 | reported success means the declared generation is at the destination, unless an external writer replaced it since |
| CreateOnlyMove.CrashLeavesOneName | server/crashRecovery.ts:2670-2724 | killed after any step, staging recovery leaves the file under exactly one of the two paths and an occupied destination untouched |
| FolderMove.FolderMoveConserves | server/folderMoveV4Executor.ts:103-295 | over every run of both strategies with any crashes in move and recovery: every journaled file has a name and never both, no row runs ahead of its file, files-landed implies all files at the destination, metadata-committed implies the committed rows, and without a journal everything is on one side |
| FolderMoveCompletion.RecoveryCompletesUnlessBlocked | server/crashRecovery.ts:3374-3425 | one uninterrupted multi-pass recovery of an interrupted entry loop brings every file to the destination within three passes; the metadata is durably committed if and only if the prepared graph transitions and the crash state is not blocked, and otherwise the journal stays at files-landed |
| FolderMoveProgress.RecoveryEnds | server/crashRecovery.ts:3374-3425 | whatever order it takes entries and shells in, such a recovery takes a bounded number of steps and can stop nowhere but at its end |
| FolderMoveProgress.RecoveryExists | server/crashRecovery.ts:3374-3425 | and from every such state there is a recovery that finishes |
| FolderMoveProgress.CrashInEntryLoopRecovers | server/documentFileLifecycle.ts:976-1029 | a move killed anywhere in its entry loop: every recovery ends, with all files at the destination and the rows committed if and only if the prepared graph transitions |
| FolderMoveCompletion.CrashInEntryLoopCompletes | server/documentFileLifecycle.ts:976-1029 | after a first crash anywhere in the entry loop all files get to the destination, and the metadata is committed if and only if the prepared graph transitions |
| FolderMoveCompletion.SecondCrashCanBlock | server/crashRecovery.ts:2705-2708 | a reachable state after a second crash is blocked, although its prepared graph transitions |
| MetadataGraph.UnderIsSelected | server/documentMetadata.ts:1429-1432 | the LIKE query of a prefix selects everything in the subtree |
| MetadataGraph.SelectedByCase | server/documentMetadata.ts:1567-1569 | for a path the syntax check of server/paths.ts accepts, the query selects the path itself and exactly what lies below it up to letter case |
| MetadataGraph.CaseSelectsLookalike | server/documentMetadata.ts:1567-1569 | so it also selects a document of a folder that differs in letter case |
| MetadataGraph.MoveIntoSourceShortens | server/documentMetadata.ts:1429-1432 | a moved path that lands in the source subtree got shorter |
| MetadataGraph.MoveKeepsValid | server/documentMetadata.ts:1423-1559 | a move that passes its collision checks keeps both tables unique and every reference resolved |
| MetadataStore.MetadataDb.AssertPrefixMoveSafe | server/documentMetadata.ts:1388-1408 | the check accepts exactly when all final document paths are distinct and the destination is neither the source nor below it |
| MetadataStore.MetadataDb.MoveDocuments | server/documentMetadata.ts:1500-1513 | updating shortest path first, an accepted move between valid paths always succeeds: no update lands on an occupied path, also when the destination is an ancestor of the source, and the result is exactly the moved table |
| MetadataStore.NextPathFree | server/documentMetadata.ts:1429-1432 | at each point of that loop the next path is held by no other row, moved or not, letter-case lookalikes included |
| MetadataStore.LongerPathStaysFree | server/documentMetadata.ts:1429-1432 | of two selected rows the one with the shorter path never wants the path of the other, which is why the length order works |
| MetadataStore.MetadataDb.CheckMigrationDestinations | server/documentMetadata.ts:1464-1498 | the two destination checks accept exactly when all final migration paths are distinct |
| MetadataStore.MetadataDb.MoveMigrations | server/documentMetadata.ts:1515-1556 | going through private names, every single update keeps the path unique, in any order, and the result is the moved table |
| MetadataStore.FinishNext | server/documentMetadata.ts:1539-1556 | a final migration path is free when it is written, whatever rows still carry temporary names |
| MetadataStore.MetadataDb.MoveMetadataPrefix | server/documentMetadata.ts:1423-1559 | the whole move either leaves exactly the specified graph or nothing changed; between valid paths it succeeds if and only if the final document paths and the final migration paths are collision-free |
| MetadataStore.MetadataDb.DeleteMetadataPrefix | server/documentMetadata.ts:1561-1583 | quarantine row by row and cascade: it succeeds exactly if every tombstone to be written is free, and then leaves the specified graph |
| MetadataStore.QuarantineNext | server/documentMetadata.ts:1300-1315 | quarantining one more document changes the one migration row at its path |
| MetadataStore.DetachAfterQuarantine | server/documentMetadata.ts:1561-1583 | quarantine followed by ON DELETE SET NULL gives the specified rows |
| PrefixTransition.PredictionIsExecution | server/folderMoveTransaction.ts:295-370 | for sibling prefixes and a minted timestamp, the predicted graph equals delete-then-move if and only if no query selects lookalikes and destination rows are their documents' own and not from the source |
| PrefixTransition.DeriveSucceeds | server/folderMoveTransaction.ts:540-617 | the closure check accepts the prediction if and only if it tombstones no row, removes no tombstoned document and lets no two rows meet |
| PrefixTransition.DestinationRowRefused | server/folderMoveTransaction.ts:601-612 | a destination document with its own migration row makes the derivation throw |
| PrefixTransition.PredictedExecutionSucceeds | server/folderMoveV4Metadata.ts:733-744 | where the prediction is accepted and faithful, neither statement can fail on a constraint |
| PrefixTransition.CompletePrefixTransition | server/folderMoveV4Metadata.ts:675-757 | already-committed, conflict and failure leave the database unchanged; committed-now leaves exactly the derived graph; from the prepared graph the committed one is reached if and only if it can be derived and is either the prepared graph itself or what the two statements leave |
| MetadataRestore.RestoreYieldsSnapshot | server/documentMetadata.ts:496-589 | from the expected rows the rewrite meets no constraint and reads back as the restore snapshot if and only if its tags and association ids fit |
| MetadataRestore.OwnedAfter | server/documentMetadata.ts:181-263 | read again through the footprint, documents, associations, embeddings and migrations are the snapshot's |
| MetadataRestore.RowsCleared | server/documentMetadata.ts:540-568 | although ON DELETE SET NULL runs first, exactly the expected migration rows are deleted and no other row loses its reference |
| MetadataRestore.RestoreKeepsOutside | server/documentMetadata.ts:496-589 | documents, associations, embeddings and migrations outside the footprint are unchanged |
| MetadataRestore.RestoreKeepsTags | server/documentMetadata.ts:571-588 | a tag stays unless it is a created, unreferenced one, and only the snapshot's tags are new |
| MetadataRestore.RestoreDb.RestoreWithinFootprint | server/documentMetadata.ts:496-589 | the sequence of deletes and inserts fails exactly on an owner outside the footprint or a constraint, and otherwise leaves the specified tables |
| MetadataRestore.RestoreDb.InsertTags | server/documentMetadata.ts:571-575 | INSERT OR IGNORE row by row adds exactly the rows whose id and name were free at the start |
| MetadataRestore.RestoreDb.RestoreCas | server/documentMetadata.ts:657-703 | already-restored iff the owned rows are the snapshot, conflict iff they are neither snapshot nor expected, both with the database unchanged; restored-now yields the snapshot, happens iff tags fit, and keeps what lies outside |
| MetadataRestore.RestoreDb.RestoreAgain | server/documentMetadata.ts:657-703 | repeating a successful call answers already-restored, and repeating a conflict a conflict |
| TagIdentity.StableDisplay | shared/tagNormalization.ts:56-99 | canonicalising a display name again changes nothing if it has no leading #, and otherwise gives another identity or is refused |
| TagIdentity.OneHashStays | shared/tagNormalization.ts:65-71 | of two leading # signs one stays in the display name |
| TagIdentityMigration.TagTables.WriteMigration | server/tagIdentityMigration.ts:258-389 | it succeeds if and only if every name is valid, no surviving display name keeps a leading # and every affected version can advance; then tags, associations, versions and the report are the specified ones, otherwise nothing changed |
| TagIdentityMigration.TagTables.StageNamespace | server/tagIdentityMigration.ts:246-256 | UNIQUE(normalized_name) holds after each staging update |
| TagIdentityMigration.FinalNameFree | server/tagIdentityMigration.ts:316-345 | when a survivor's final name is written no other row holds it, be it staged, untouched or final |
| TagIdentityMigration.TagTables.MergeGroups | server/tagIdentityMigration.ts:313-345 | the group loop leaves one canonical row per identity and every association on its survivor; associations before = after + collapsed, moved = associations not there before, and the row counters count what changed |
| TagIdentityMigration.MovedNext | server/tagIdentityMigration.ts:321-335 | what one group inserts was in the table neither before the group nor at the start |
| TagIdentityMigration.ResultIsCanonical | server/tagIdentityMigration.ts:224-244 | the closing check passes if and only if no surviving display name keeps a leading # |
| TagIdentityMigration.DoubleHashBlocks | server/tagIdentityMigration.ts:224-244 | any valid name behind two # signs makes it fail |
| TagIdentityMigration.MembershipsKept | server/tagIdentityMigration.ts:205-222 | the set of (document, canonical identity) memberships is the same before and after |
| TagIdentityMigration.AffectedShowsDifferently | server/tagIdentityMigration.ts:280-302 | the documents versioned are exactly those whose set of (tag row, display name) changes |
| TagIdentityMigration.AdvancedKeys | server/tagIdentityMigration.ts:347-365 | their versions strictly increase and no other does |
| TagIdentityMigration.RerunChangesNothing | server/tagIdentityMigration.ts:258-389 | on the result no tag, association or document changes again |
| TagOperations.TagDb.Apply | server/tagManagement.ts:1195-1347 | it succeeds if and only if the rebuilt plan is the reviewed one, allowed, versions can advance and a renamed row is canonical; then every document's tag set is the one the operation means and exactly the carriers advance, otherwise nothing changed |
| TagOperations.TagDb.Carry | server/tagManagement.ts:1003-1049 | every count check inside the transaction holds, and the only check that can fail is the row check of a rename |
| TagOperations.TagDb.MergeTag | server/tagManagement.ts:1295-1312 | a merge replaces source by destination in each carrier's tag set; inserted rows are the carriers that lacked the destination, deleted rows all carriers |
| TagOperations.MergeAccounting | server/tagManagement.ts:603-617 | adds + collapses = removes = affected |
| TagOperations.RenameAllowed | server/tagManagement.ts:590-602 | a rename is allowed if and only if no other row owns the identity and the row would change |
| TagOperations.RenameNeedsNoHash | server/tagManagement.ts:351-356 | the renamed row passes its canonical check if and only if the new display name has no leading # |
| TagOperations.SameNameIsStale | server/tagManagement.ts:1195-1223 | a rename applied under the name it was previewed with rebuilds a different plan if and only if its display name still has a leading # |
| DocumentTags.TagTables.ApplySetDiff | server/documentMetadata.ts:811-862 | kept and removed partition the old rows, kept and added the new ones; exactly the requested identities are carried, retained tags keep their association row, added ids are new, other documents' rows and existing tags are unchanged |
| DocumentTags.TagTables.ReplaceTags | server/documentMetadata.ts:790-798 | the full replacement carries the same identities, with every association id new |
| DocumentTags.TagTables.InsertOrGetTags | server/documentMetadata.ts:776-788 | every requested identity has a row afterwards, and existing rows keep id and display name |
| PreviewPaging.PageContinues | server/tagManagement.ts:699-735 | a page starts where the previous one ended and has a cursor unless it is the last |
| PreviewPaging.ListAll | server/tagManagement.ts:661-735 | following the cursors from the sample lists every affected document once, in order, for any limits from 1 to 100 |
| ReferenceRecovery.Recovery.Recover | server/crashRecovery.ts:1037-1478 | for documents and folders: completed only with every reference on the chosen side; undisturbed it completes if and only if every reference holds one of its two texts, the generation (of a folder, every journaled document's) and a document's id are owned, the rows meet no other and no earlier folder-move journal owns the way home; a folder whose source path is taken on the way fails and leaves its folder-move journal; the direction flips at most once, from back to forward |
| ReferenceRecovery.Recovery.CheckOwnership | server/crashRecovery.ts:1241-1297 | the direction flips exactly if the destination is owned and the source path taken; a foreign generation at the destination loses every journaled id there and no other row changes |
| ReferenceRecovery.Recovery.RewriteReferences | server/crashRecovery.ts:1298-1324 | it rewrites a prefix of the references, each of which held its before or its after text, and stops at the first that held neither |
| ReferenceRecovery.Recovery.Finish | server/crashRecovery.ts:1325-1475 | when what was renamed and its rows go home, when the way is left to another journal, when a taken path turns the direction (documents only), and when a folder fails and leaves its folder-move journal |
| ReferenceRecovery.AllOrNothing | server/crashRecovery.ts:1298-1478 | a completed recovery leaves all references before or all after, wherever their files have gone |
| ReferenceRecovery.RowsGoHome | server/crashRecovery.ts:1465-1475 | a roll-back puts every row of the destination back at its source path and loses no other, except the one a document's row replaces |
| ReferenceRecovery.IdGoesHome | server/crashRecovery.ts:1325-1331 | after a roll-back the source path carries the document's id, unless the document went home while the destination row was another document's |
| ReferenceRecovery.OthersUntouched | server/crashRecovery.ts:1298-1478 | no other file changes |
| ReferenceRecovery.RewritesAreCrashSafe | server/crashRecovery.ts:1298-1324 | whichever references a crash left rewritten, recovery can complete just the same and leaves the same files |
| ReferenceRecovery.SelfReferenceBlocksRerun | server/crashRecovery.ts:1298-1475 | after a roll-back went home, a rerun can complete if and only if no reference lies in the document or folder that moved |
| ReferenceJournal.NoOrphanPayload | server/renameReferenceJournal.ts:207-278 | over every run with any crashes no payload outlives its journal, and while references may be written every payload is there |
| ReferenceJournal.CleanedIffComplete | server/renameReferenceJournal.ts:527-543 | an interrupted preparation or cleanup is cleaned by an uninterrupted recovery if and only if every payload is still there, and then completely |
| ReferenceJournal.StrandedStays | server/crashRecovery.ts:1044-1052 | a journal with a missing payload keeps its phase and its other payloads through every further startup |
| OwnerHandshake.OneMetadataEffect | server/renameReferenceOwnerBinding.ts:46-113 | over every run with any crashes at most one of the owner's snapshot restore and the companion's prefix move is applied, the latter only if no owner journal was ever durable |
| OwnerHandshake.RecoveryTerminates | server/crashRecovery.ts:1063-1123 | every recovery step of either journal leaves less to do |
| OwnerHandshake.SettledIsDecided | server/renameReferenceOwnerBinding.ts:157-300 | where recovery settles no companion is pending: it is gone or aborted, the owner journal is gone, and tree and rows are back exactly if one of the two effects was applied |
| LinkIndexing.LinkIndex.ApplyAll | server/linkIndex.ts:271-398 | after any sequence of operations paths, references and links are those of a rebuild over the resulting vault, for every listing order if no reference is ambiguous |
| LinkIndexing.LinkIndex.ApplyWrite | server/linkIndex.ts:284-306 | re-projecting one source suffices for a known path, all sources for a new one |
| LinkIndexing.LinkIndex.ApplyFolderRename | server/linkIndex.ts:336-350 | removing all old paths, installing all new ones and projecting once gives the index of the final tree |
| LinkIndexing.LinkIndex.Rebuild | server/linkIndex.ts:221-266 | a cold rebuild holds exactly the listed paths and the projection of the bodies that could be read |
| LinkIndexing.ReprojectedIsForward | server/linkIndex.ts:375-390 | rewriting a known path changes the links of that source alone |
| LinkIndexing.SameIndex | server/linkIndex.ts:176-197 | an unambiguous vault has one index, whatever order its paths are listed in |
| LinkIndexing.OrderMattersOnlyIfAmbiguous | shared/linkResolve.ts:30-91 | two listings of the same paths resolve a reference alike unless it is ambiguous |
| LinkIndexing.AmbiguousDependsOnOrder | shared/linkResolve.ts:83-89 | an ambiguous reference resolves differently under two listings |
| LinkIndexing.DeleteThenRecreate | server/linkIndex.ts:308-314 | deleting and rewriting a target with the same text restores every link of an unambiguous vault |
| LinkIndexing.LinkIndex.GetBacklinks | server/linkIndex.ts:404-420 | exactly one record for each source with a link to the target, from its first such link, and none for a managed Diary |
| LinkIndexing.IndexIsClosed | server/linkIndex.ts:375-390 | managed Diary documents are neither sources nor targets, and every link leads to a known path |
| LinkIndexing.LinksAreDistinct | server/linkIndex.ts:176-197 | a source has at most one link per target and anchor |
| WriteLocks.MutualExclusion | server/documentWriteLock.ts:46-74 | over every interleaving at most one task holds a key |
| WriteLocks.Fifo | server/documentWriteLock.ts:46-74 | a later call on a key is granted only after every earlier one is released |
| WriteLocks.MapsAreExact | server/documentWriteLock.ts:46-74 | a tail entry exists iff a call is unreleased, and the waiter count is the number of queued calls not yet woken |
| WriteLocks.NoDeadlock | server/documentWriteLock.ts:77-87 | with one global order, some task can step while any is unfinished |
| WriteLocks.RunsAreBounded | server/documentWriteLock.ts:77-87 | every run is at most as long as the work its tasks set out with, so all tasks finish |
| DirectoryParity.VerifyDestination | server/documentFileLifecycle.ts:1040-1136 | the walk accepts exactly the trees whose root and directory generations match and whose visible entries are the manifest's files and directories and nothing else |
| DirectoryParity.Walk.Visit | server/documentFileLifecycle.ts:1095-1126 | the recursive walk fails exactly on a bad entry below, and otherwise has collected every visible file and directory |
| DirectoryParity.InspectSource | server/folderMoveSourceOwnership.ts:20-148 | absent, external, intact, partially moved and empty shell are told apart exactly |
| DirectoryParity.Shells.RemoveShells | server/documentFileLifecycle.ts:435-527 | deepest first, it removes exactly the declared matching directories below which there is nothing but such directories, the root exactly if all that lies below it goes, and nothing else |
| DirectoryParity.NothingElseLeft | server/documentFileLifecycle.ts:435-527 | where only the journaled directories are left, all of them are removable, and nothing else keeps the root |

## Left out

- Journals of folder moves before version 4, the Diary encryption envelope, managed-Diary delete, auth, HTTP routing, AI tools, history and UI: separate policies without a harder theorem.
- fsync, Windows retries, symlink and containment walks, inode number formats and test hooks: assumptions or no-ops here.
- JSON shape parsing, row schemas and path syntax checks: only the closed-graph facts the proofs need are modelled.
- FolderMove.FolderMoveConserves: no external writers act during a folder move, and the metadata disposition is the prefix move with a prepared snapshot; the snapshot-restore disposition is MetadataRestore and OwnerHandshake.
- FolderMove counts subdirectories instead of naming them; DirectoryParity has the names.
- AtomicReplace.CrashAtomic: fallback file systems that refuse hard links take a check-then-rename branch (server/atomicTextWrite.ts:697-708) that is not part of this model.
- PrefixTransition.PredictionIsExecution: the prepared snapshot is the whole database; the footprint-limited read of the same comparison is modelled in MetadataRestore. The timestamp must lie above every document's version, as the code mints it.
- MetadataStore.MetadataDb.DeleteMetadataPrefix: the history tombstone table is not part of this model.
- MetadataRestore.RestoreDb.RestoreCas: snapshots without association ids (version 6 journals) and their normalisation are not modelled.
- TagIdentityMigration.TagTables.WriteMigration: the settings marker and the health cache around the migration are not modelled, and association ids are not (associations are (document, tag) pairs). Lower-casing is character by character.
- TagOperations.TagDb.Apply: undo recording, the document locks around the transaction, and the second reading of the plan under them are not modelled; WriteLocks has the locks.
- ReferenceRecovery.Recovery.Recover: a folder's way home is one step here (FolderMove has its steps), rows are path-to-id pairs selected by exact prefix (MetadataStore has the tables and the LIKE query), and a folder has no identity at its own path. The gates on a journal whose metadata another journal owns are OwnerHandshake's, and folder journals without per-document hashes, quarantined before this code, are not modelled.
- ReferenceJournal.NoOrphanPayload: the metadata disposition recorded in the journal is OwnerHandshake's.
- ReferenceRecovery.RewritesAreCrashSafe: it asks that the before text of a reference inside the document or folder is the journaled source text, as the plan reads both from one file, and that no reference is listed under the source path.
- OwnerHandshake.OneMetadataEffect: an owner journal without reference proof, durable while its companion is still legacy (written when no reference has a proof row), is not part of this model. The companion's own roll-back is one step, and owner journals that do not match the companion (quarantined without a change) do not occur.
- LinkIndexing.LinkIndex.ApplyAll: that no reference is ambiguous is sufficient for one index, not necessary: an ambiguous reference makes no difference where every match is a managed Diary or already linked from the source. Titles are not modelled; a rebuild may take them from the database where a write takes them from the text. Link extraction from Markdown is a parameter.
- WriteLocks.NoDeadlock: a task is one nested chain of lock calls with a strictly increasing plan; an operation that takes further locks inside is not modelled.
- DirectoryParity.VerifyDestination: the tree does not change during the walk.
