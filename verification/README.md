# Verified model of yeet's host-storage migration and its neighbours

yeet's daemon, Catch, keeps its database and its services on a host under a data dir and a
services root. This project models, in Dafny, how Catch moves a host from one such root to
another, and a few state machines beside it, and proves what they promise.

* **The migration transaction** (`transaction.dfy`, `safety.dfy`, `guarantees.dfy`,
  `applying.dfy`, `switchover.dfy`, `finalization.dfy`, `errors.dfy`, `admission.dfy`,
  `recovery.dfy`, `reentry.dfy`, `cleanup.dfy`, `applier.dfy`, `witness.dfy`). A machine whose
  steps are single durable effects: writes of the source and of the target journal, stops and
  starts of services, mutations, restores, the removal of the old tree. Every effect may succeed,
  fail, or happen and be reported as failed, and the process may crash between any two steps and
  start again as its unit says. Invariants over all runs, what has happened on the host by the
  time the journal says so, which calls are taken and which errors stop them, convergence of
  rollback and cleanup, and the rollback as code over mutable fields that is a run of the machine.
* **Startup** (`startup.dfy`): the worklist that follows journals, and the loop that completes
  recorded hand-overs; and that the machine's start of a process is such a start.
* **The relocation engine** (`paths.dfy`, `ordering.dfy`, `mappings.dfy`, `artifacts.dfy`,
  `dbrewrite.dfy`, `text.dfy`): path cleaning and relocation, most-specific-root mappings, the
  in-place rewriting of database records and of text, and the separate scanner that validates
  the result.
* **Generations** (`generations.dfy`), **isolated networks** (`iso.dfy`, `isoinstall.dfy`),
  **resolver units** (`words.dfy`, `unit.dfy`, `unitproof.dfy`, `unitfix.dfy`, `unitmeaning.dfy`),
  **removal of the source tree** (`sourcetree.dfy`) and **the pool of scanning workers**
  (`workers.dfy`).

`dafny verify dfyconfig.toml` checks the whole project.

## Where the code does less than it is meant to

Each of these is a lemma about all inputs of the failing family with the exact condition, and
one with an input, or a run from the very start, that meets it.

* Recovery asked for again while the journal already says source-restart-pending or rolled-back
  (the restart of Catch was only scheduled and the process is still up, or start-up could write
  one copy only) stops services again, while a restart at that moment takes the journal at its
  word: `Reentry.RecoverySafeIffNoHazard`; reached by `Witnesses.HazardIsReached`.
* Finalizing writes the source journal before the target journal. A crash or an error in between
  leaves a migration that nobody can clean up after the next restart:
  `SourceCleanup.CutFinalizationStrands`, `SourceCleanup.StrandedForever`,
  `SourceCleanup.CleanupReachableIffAuthorized`; reached by `Witnesses.StrandedIsReached`.
* Copying the data dir takes along the journals of earlier migrations, and a journal is refused
  anywhere but at the two places it names. `Startup.MovedStartClearIff` says exactly when a start
  on a copied data dir is clear; `Startup.MovedAgainExample` moves a host on to a third place.
* With the data dir moving alone, machine paths that are rewritten without the data-dir mapping
  stay behind and the validation then rejects the migration:
  `DatabaseRewrite.DatabaseCleanIffNothingStuck`, `Mappings.DataDirAloneStrands`,
  `Mappings.DiskStrandedExample`.
* Rewriting generated text twice can change it twice, exactly when the first pass completes the
  directive `EnvironmentFile` in front of `=-/`: `TextRewrite.TextRewriteIdempotentIffNothingExposed`,
  `TextRewrite.ExposedByMapping`.
* Going back one generation leaves artifacts installed that were added later:
  `Generations.RollbackRestoresCommitted`, `Generations.AddedArtifactStays`.
* Going back after an installation that failed behind its commit and pruning finds nothing to go
  back to if the old generation was the oldest one kept: `Generations.FailedInstallRestoresIff`,
  `Generations.OldestKeptExample`.
* A guarded unit is not always read back as it was written:
  `ResolverUnitFixpoint.FixpointIffReadable`, `ResolverUnitFixpoint.UnreadableExample`.
* A rollback cannot succeed while a planned service runs that did not run before, because nothing
  in it stops that service: `Recovery.RecoverLandsIffClear`; reached by `Witnesses.UnclearIsReached`.

## Reading the transaction machine

`Transaction.Perform` is one durable effect, `Transaction.Continue` the error handling around it
(create, apply, the six joined steps of a rollback, finalize, cleanup, the plain tail), and
`Transaction.Step` adds crashes, restarts and calls. `log` is the history of the source journal
and influences nothing. `Safety.Inv` is the invariant; the lemmas in `guarantees.dfy` say what it
means. Looking up a service constructs an unstarted server for the source configuration, which
completes a pending hand-over as a side effect; the machine includes that (`Transaction.LookUp`).
In `applier.dfy` the environment answers one outcome per instruction (`env`), internal
instructions included, so that the code and the machine count the same turns.
For single errands (a stop, a start, a restore, Catch's own unit and restart) that code executes
`Transaction.Perform` itself, so there the two agree by construction; what is proved of it is the
order of the steps, the collecting of errors, the journal in memory and on disk, and when the tail
is reached.

A process blocks changes from a start that found something unfinished. The block is lifted by
what lifts it in the code: a hand-over that start-up completes in full, a recovery that finds the
journal rolled back, a finalization that succeeds (`Transaction.EndJob`).

Data invariants that appear as preconditions: `Transaction.ValidPlan` (a moving data dir makes the
two configurations differ, differing configurations make Catch restart, the captured units are
listed once), and `Startup.WellKept` (all journal files of one random transaction id are versions
of one transaction), which every write and every copy of a data dir keeps
(`Startup.WriteKeepsOrder`, `Startup.CopyKeepsOrder`).

## Model

| member | source | states |
|---|---|---|
| `Safety.RunKeeps` | pkg/catch/host_storage_transaction.go:193-234 | Every run of the transaction machine keeps the invariant `Inv`: crashes between any two durable writes, restarts, failing writes that did or did not happen, and calls of apply, recover, finalize and cleanup in any order. The only action that is left out is asking for recovery again under a journal that already announces its end (`Safety.ReentersHandOver`). |
| `Safety.StepKeeps` | pkg/catch/host_storage_transaction.go:200-222 | One action, other than that one, keeps the invariant: journal history, agreement of the two copies, cleanup order, the Catch unit of the authority, truthful announcements, and what the running job may still do. |
| `Guarantees.JournalFollowsGraph` | pkg/catch/host_storage_transaction.go:193-222 | In such runs the versions of the source journal follow a fixed transition graph of phase and authority, in which the plan decides what a finalization records; prepared, services-stopped, target-ready and rolled-back never carry target authority. |
| `Guarantees.AnnouncedMeansRestored` | pkg/catch/host_storage_transaction.go:140-154 | In such runs, whenever the journal says source-restart-pending or rolled-back, database and captured units equal their backups, exactly the previously running tracked services run, and Catch's unit is the source's. |
| `Guarantees.TargetIsAVersion` | pkg/catch/host_storage_transaction.go:224-245 | Until it says complete, the target journal is the source journal or an earlier version of it, across every crash between the two writes and also after the source journal is gone. |
| `Guarantees.MemoryAgreesWithJournal` | pkg/catch/host_storage_transaction.go:200-222 | At every point of a job the phase and authority in memory are those of the readable source journal, also after an advance that reported an error; a job that creates the journal has it in memory exactly, and one that cleans up starts from the target journal. |
| `Guarantees.CleanupIsOrdered` | pkg/catch/host_storage.go:369-395 | The old tree is touched only after the target journal durably says cleanup-pending, and the target journal says complete only once the tree is gone. |
| `Guarantees.RestartSeesUnfinished` | pkg/catch/catch.go:245-256 | After any run and a crash, a restarted Catch blocks changes exactly when the source journal is in a phase that needs recovery, on whichever data dir its unit makes it run. |
| `Applying.VersionsListServices` | pkg/catch/host_storage.go:2221-2236 | In every run, asking for recovery again included, every version of either journal from services-stopped on lists all services that were running as stopped, and from the switch on as restarted. |
| `Switchover.StopsComeAfterCopies` | pkg/catch/host_storage.go:1318-1326 | In every run no service is stopped for a migration before its journal is there at the source and, if the data dir moves, at the target. |
| `Switchover.VersionTellsWhatHappened` | pkg/catch/host_storage.go:1508-1580 | In every run: when a job carries its journal to services-stopped, no service that was running still runs and the target's root exists; when it carries it into the switch, all of them run again and the data has a copy; when it says catch-switched, Catch's unit is the target's if Catch had to be switched. |
| `Switchover.AppliedIsChecked` | pkg/catch/host_storage.go:1577-1592 | In every run a migration that is being applied comes to its end only by its last check passing, in catch-switched under the side Catch was to be switched to, with all services running and the target's copy there. |
| `Switchover.GoodMigrationIsApplied` | pkg/catch/host_storage.go:1301-1331 | Where the environment does everything, a requested migration is applied: both journals say catch-switched, all services that ran run again, and Catch's unit and the running Catch are the target's if they were to be switched. |
| `Finalization.FinalizeRecords` | pkg/catch/host_storage.go:183-216 | A final validation that passes ends in both journals as complete without a target, as cleanup-pending if the old tree may be removed without a further request, and else as validated; the job is over and nothing is blocked. |
| `Finalization.FinalizeAgain` | pkg/catch/host_storage.go:150-172 | Finalizing what is validated or waits for cleanup, with succeeding checks, changes nothing on disk and lifts the block. |
| `Finalization.LateRejectKeeps` | pkg/catch/host_storage.go:175-181 | A rejected validation after that leaves everything as it is; nothing is rolled back any more. |
| `Finalization.OnlyCleanupTells` | pkg/catch/host_storage.go:209-216 | Where the old tree may not be removed without a request, no version of the journal says cleanup-pending in any run without such a request. |
| `ErrorPolicy.FailsIff` | pkg/catch/host_storage_transaction.go:1287-1295 | Exactly when a reported error stops each instruction, and when one that reports success fails its check: a table by instruction, plan and journal. |
| `ErrorPolicy.FailedRollbackStaysFailed` | pkg/catch/host_storage_transaction.go:1259-1284 | However it goes on, a rollback in which a step has failed never comes to bringing Catch back and recording that all is rolled back. |
| `ErrorPolicy.FailedApplyLandsIffClear` | pkg/catch/host_storage.go:1333-1338 | A migration whose application meets an error is rolled back at once; if the steps of the rollback succeed it lands over a restored host if and only if no planned service runs that did not run before. |
| `ErrorPolicy.FailedCreationIsAbandoned` | pkg/catch/host_storage_transaction.go:140-154 | A migration whose first copy of the journal cannot be written is abandoned: the journal then says rolled-back, with a cause, unless that write fails, too. |
| `Admission.CallStartsIff` | pkg/catch/host_storage.go:483-608 | Which calls a Catch takes, by its configuration, its block, the journals and the tree; a call that is taken changes nothing yet, and one that is not changes nothing, except that finalizing what is complete lifts the block. |
| `Admission.RejectedCleanupChangesNothing` | pkg/catch/host_storage.go:369-395 | Cleaning up begins with the final check in every request: one that does not pass, or finds other services running than before the migration, ends the request, and nothing is removed or written. |
| `Admission.RejectedFinalizeRecordsNothing` | pkg/catch/host_storage.go:150-181 | Finalizing begins with the final check: one that does not pass records nothing, and starts a rollback exactly from catch-switched. |
| `Admission.StartBlocksIff` | pkg/catch/catch.go:245-256 | A starting process runs as its unit says, blocks changes if and only if it sees a journal and the source journal is gone or in a phase that needs recovery, and completes a hand-over if and only if one is recorded and it runs as the source. |
| `ErrorPolicy.LookingUpCompletesHandOver` | pkg/catch/catch.go:245-256 | Whatever instruction looks up a service, a recorded hand-over completed on the way is rolled back under the source in the source journal, and in the target journal if that write succeeds; any other journal is left alone. |
| `Recovery.RecoverLandsIffClear` | pkg/catch/host_storage_transaction.go:1259-1284 | From every state that a crash, an error or an interrupted rollback leaves, a rollback whose steps succeed ends rolled back over a restored host, or hands over to the restarted source Catch, if and only if no planned service runs that did not run before. A process that ends rolled back blocks nothing any more; when the rollback does not land the journal keeps its phase and authority. |
| `Recovery.RollbackMatchesIffClear` | pkg/catch/host_storage_transaction.go:1477-1502 | The stops and starts of a rollback leave exactly the previously running tracked services running if and only if no other planned service runs on entry. |
| `Recovery.HandOverCompletes` | pkg/catch/catch.go:245-256 | A recorded hand-over is completed by the next start of Catch: rolled-back, source authority, restored host, nothing blocked. |
| `Recovery.EveryMigrationCanBeUndone` | pkg/catch/host_storage.go:578-608 | However far an unfinished migration came and however often its rollback was interrupted: restart, recover with succeeding steps, and at the latest after the scheduled restart the host is restored, the journal says so and nothing is blocked, if and only if no planned service runs that did not run before. |
| `Recovery.FinalRollbackLands` | pkg/catch/host_storage.go:276-328 | When final validation fails or finds a wrong running set, the rollback first stops what should not run, so with succeeding steps it lands whatever was running. |
| `Reentry.RecoverySafeIffNoHazard` | pkg/catch/host_storage_transaction.go:1449-1475 | Asking a process that blocks changes for recovery keeps every later announcement truthful if and only if the journal does not already say source-restart-pending or rolled-back, or no service was running before the migration. |
| `Reentry.ReentryHarms` | pkg/catch/catch.go:245-256 | The unsafe family in full: from every such state, one stopped service and a restart give a journal that says rolled-back over a host that is not restored. |
| `Applier.HostStorageApplier.Rollback` | pkg/catch/host_storage_transaction.go:1259-1284 | The rollback as code over mutable fields is a run of the machine; success and every announcement mean a restored host, and when the environment succeeds throughout, the journal ends rolled back if and only if no planned service ran that should not. |
| `Applier.HostStorageApplier.RunRollback` | pkg/catch/host_storage_transaction.go:1259-1284 | All six joined steps run whatever the earlier ones report; the tail runs only if none failed; each outcome is the machine's. |
| `Applier.HostStorageApplier.Advance` | pkg/catch/host_storage_transaction.go:200-222 | On success both the fields and the source journal hold the new phase and authority; on error the fields are reloaded from the readable source journal. |
| `Applier.HostStorageApplier.Persist` | pkg/catch/host_storage_transaction.go:224-245 | Writes the source copy first and the target copy only after it and only while the target root can be reached, and touches nothing else. |
| `Applier.HostStorageApplier.CollectSteps` | pkg/catch/host_storage_transaction.go:1266-1273 | The six steps in order, with all errors collected, are the joined part of the machine. |
| `Applier.HostStorageApplier.RestoreState` | pkg/catch/host_storage_transaction.go:1319-1327 | Units in path order, then the database, then the reload, each attempted whatever failed before. |
| `Applier.HostStorageApplier.RestoreAuthority` | pkg/catch/host_storage_transaction.go:1329-1339 | Brings back the source Catch only under target authority, and records source authority only afterwards. |
| `Applier.DriveIsRun` | pkg/catch/host_storage_transaction.go:1259-1284 | The step-by-step execution of the code is a run of the machine with the same outcomes. |
| `SourceCleanup.CleanupEndsIffAuthorized` | pkg/catch/host_storage.go:369-413 | From every crash point of cleanup, also with the source journal already deleted, running it again with succeeding steps ends with the tree gone and complete recorded, if and only if the target journal says validated, cleanup-pending or complete. |
| `SourceCleanup.CleanupReachableIffAuthorized` | pkg/catch/host_storage.go:427-460 | Once the source journal says cleanup-pending, some continuation after a restart finishes cleanup if and only if the target journal says validated or cleanup-pending. |
| `SourceCleanup.StrandedForever` | pkg/catch/host_storage.go:150-200 | A migration whose source journal says cleanup-pending while the target journal was never told stays as it is under every sequence of crashes, restarts and calls of apply, recover, finalize and cleanup. |
| `SourceCleanup.CutFinalizationStrands` | pkg/catch/host_storage.go:183-200 | Every finalization of a migration that may be cleaned up is stranded by a crash or a failed write between the two copies of the journal, from the next restart on. |
| `Startup.Scan` | pkg/catch/host_storage_transaction.go:1002-1069 | The worklist of journals terminates and returns nothing-to-recover exactly when every journal that the names lead to is readable and settled; an unfinished result is the authoritative transaction of such a journal, an unreadable result means that one of them is, and where all can be read and one is not settled the result is unfinished. |
| `Startup.FindRecovery` | pkg/catch/catch.go:245-256 | The start-up loop terminates because each round leaves fewer recorded hand-overs, changes nothing but finished hand-overs, and is clear exactly when a scan of the final journals is. Where every write succeeds and only hand-overs to this configuration are unfinished, it is clear at the end and each of their source journals says rolled-back under the source. |
| `Startup.MisplacedHoldsUp` | pkg/catch/host_storage_transaction.go:821-901 | A listed file that is missing or malformed, lies under another id, or names other places than its own is refused, and a start that finds it is held up. |
| `Startup.SameVerdictOnEitherRoot` | pkg/catch/host_storage_transaction.go:1034-1051 | While the source journal is there, starting on the source or on the target data dir reaches the same verdict: that of the source journal's phase. |
| `Startup.AdvanceEndsOne` | pkg/catch/host_storage_transaction.go:193-234 | Completing a hand-over removes it from the waiting ones and keeps the journals consistent, whatever part of the write fails. |
| `Startup.ExploredIsAll` | pkg/catch/host_storage_transaction.go:1002-1030 | A set of settled paths that contains the listed ones and is closed under the names contains everything that the names lead to. |
| `Startup.AllSettledIffEachClear` | pkg/catch/host_storage_transaction.go:1002-1069 | A start is clear if and only if each journal below the data dir is readable where it is, its source journal is there and over, and its target journal, if there is one, is readable. |
| `Startup.MovedStartClearIff` | pkg/catch/host_storage_transaction.go:888-901 | A start on a copied data dir is clear if and only if every journal that was taken along is one of a migration that came from there, and is over, or that led there, and whose source journal is over; and the journals that lay there already let a start through. |
| `Startup.MovedAgainBlocksStartup` | pkg/catch/host_storage_transaction.go:1002-1016 | So moving a data dir on to a third place takes along a finished journal that keeps every later start there from being clear. |
| `Startup.MovedAgainExample` | pkg/catch/host_storage_transaction.go:888-901 | A finished migration from /a to /b, moved on to /c: the start on /b is clear, the one on /c is not. |
| `Startup.BootIsStart` | pkg/catch/catch.go:245-256 | The transaction machine's start of a process blocks changes exactly when the scan of its journal files finds something unfinished or unreadable, and completes a hand-over exactly when the scan finds one to the process's own configuration. |
| `Witnesses.HazardIsReached` | pkg/catch/host_storage_transaction.go:1449-1475 | A run of a real plan, from before the migration, into a state in which asking for recovery again does harm. |
| `Witnesses.StrandedIsReached` | pkg/catch/host_storage.go:183-200 | A run of a real plan into a migration that is stranded between the two writes of finalization. |
| `Witnesses.UnclearIsReached` | pkg/catch/host_storage_transaction.go:1477-1502 | A run of a real plan into a state from which no rollback lands: a planned service runs that did not run before. |
| `Paths.ParseRender` | pkg/catch/host_storage.go:3802-3807 | Cleaning a path is idempotent: the text of a clean path parses to that path. |
| `Paths.ParseStep` | pkg/catch/host_storage.go:3802-3807 | One more component of a path: none for an empty one or ".", the parent for "..", the child for a name; the root is its own parent and relative paths go up without end. |
| `Paths.RelocateRoundTrip` | pkg/catch/service_root_migration.go:735-753 | Relocating from one root to another and back gives the cleaned original, for all paths under the root. |
| `Mappings.Sorted` | pkg/catch/host_storage_refs.go:60-74 | Sorting keeps the mappings and puts longer roots first, then orders by root and reason. |
| `Mappings.OneArrangement` | pkg/catch/host_storage_refs.go:60-74 | With unique (root, reason) pairs there is one sorted order only, so neither the given order nor an unstable sort can matter. |
| `Mappings.RanksAreTexts` | pkg/catch/host_storage_refs.go:23-31 | Mappings of one root come in the alphabetical order of their reasons' texts. |
| `Mappings.FirstHitIsDeepest` | pkg/catch/host_storage_refs.go:76-90 | The first match in sorted order is a mapping whose root contains the path and is the deepest of all that do; so a preserved root shields everything below it from shallower mappings. |
| `Mappings.RewriteByHit` | pkg/catch/host_storage_refs.go:76-90 | Rewriting grafts the path onto the target of the deepest containing root, and reports no change exactly when nothing contains it or the cleaned text stays the same. |
| `Mappings.RewriteSettlesIffSettled` | pkg/catch/host_storage_refs.go:76-90 | Every rewritten value is free of old roots if and only if a finite check of the mappings passes (the target of each move, and each other root below it, does not move again). |
| `Mappings.NonNestedIsSettled` | pkg/catch/host_storage_refs.go:92-112 | Roots and targets that do not nest pass that check. |
| `Mappings.RewriteIdempotent` | pkg/catch/host_storage_refs.go:76-90 | With settled mappings a second rewrite changes nothing. |
| `Mappings.ScopedSorted` | pkg/catch/host_storage_db_rewrite.go:143-152 | Leaving out the data-dir mapping and sorting commute. |
| `Mappings.ScopedValueReportedIffStuck` | pkg/catch/host_storage_db_rewrite.go:72-93 | A service-scoped path is still reported after its rewrite if and only if the data-dir move is its most specific root and no other mapping moves it. |
| `Mappings.DataDirAloneStrands` | pkg/catch/host_storage_db_rewrite.go:143-152 | With a data-dir move alone every service-scoped path below the old data dir is left behind and reported. |
| `Mappings.DiskStrandedExample` | pkg/catch/host_storage_db_rewrite.go:143-152 | A machine disk below a data dir that moves alone stays where it was and is reported. |
| `DatabaseRewrite.RewriteThenScan` | pkg/catch/host_storage_refs.go:418-493 | After the rewrite the separate scanner reports exactly the service-scoped fields that are stuck behind the data-dir move, field by field. |
| `DatabaseRewrite.DatabaseCleanIffNothingStuck` | pkg/catch/host_storage.go:3134-3153 | Validation after the rewrite of the whole database finds no database reference if and only if no service-scoped field is stuck, for roots and targets that do not nest. |
| `DatabaseRewrite.RecordRewriteIdempotent` | pkg/catch/host_storage_db_rewrite.go:58-70 | A second rewrite of a record changes nothing, for mappings that are settled with and without the data-dir move. |
| `DatabaseRewrite.NonNestedSettlesBoth` | pkg/catch/host_storage_db_rewrite.go:143-152 | Roots and targets that do not nest are settled with and without the data-dir mapping. |
| `DatabaseRewrite.Data.RewritePaths` | pkg/catch/host_storage_db_rewrite.go:34-56 | The loop over all services rewrites every record as specified and counts the changed fields; on an error it has stopped at a record with a failing field, and every other record is rewritten or untouched. |
| `DatabaseRewrite.Service.RewritePaths` | pkg/catch/host_storage_db_rewrite.go:58-70 | Rewrites a record in place: artifacts with all mappings, service-scoped machine fields without the data-dir move, nothing else; on an error each field is rewritten or untouched. Either way the count is the number of fields that changed. |
| `DatabaseRewrite.Service.RewriteArtifactRefs` | pkg/catch/host_storage_db_rewrite.go:154-189 | Every reference of every artifact is rewritten, nil artifacts stay, and no reference appears or disappears; the count is the number of references that changed, also when one fails. |
| `DatabaseRewrite.Service.RewriteSlots` | pkg/catch/host_storage_db_rewrite.go:95-141 | The listed fields are rewritten and every other field keeps its value; the count is the number of fields that changed, also when one fails. |
| `DatabaseRewrite.Scan` | pkg/catch/host_storage_refs.go:418-493 | The scanning loops report exactly the machine fields, and per artifact the one reference that decides, whose value lies below an old root: that of the active generation, failing that of the newest one, failing that `latest`. |
| `DatabaseRewrite.OldRootIsReported` | pkg/catch/host_storage_refs.go:505-572 | A record that was not rewritten is caught: a machine field or a deciding reference below an old root makes the validation fail. |
| `DatabaseRewrite.ActiveDecides` | pkg/catch/host_storage_refs.go:559-572 | In an artifact that has the active generation that one decides, whatever else it has; staged references never do. |
| `TextRewrite.NextCandidate` | pkg/catch/host_storage_artifacts.go:207-219 | Finds the candidate at a position and its end; the boundary test behind it never rejects. |
| `TextRewrite.RewriteCandidates` | pkg/catch/host_storage_artifacts.go:173-205 | The single pass with lazy copying equals the simple specification (each candidate span replaced, every other byte kept), returns the input itself when nothing changes, and fails exactly when some rewrite fails. |
| `TextRewrite.ScanMeetsSpecification` | pkg/catch/host_storage_artifacts.go:173-219 | The byte scanner and the token-wise specification agree on every text. |
| `TextRewrite.SecondPassMovesIffExposed` | pkg/catch/host_storage_artifacts.go:173-205 | A second pass changes something if and only if the text has a dash before a path that moves, in front of it an equals sign and blanks on one line, and before that a run that does not end in `EnvironmentFile` but is rewritten to. |
| `TextRewrite.TextRewriteIdempotentIffNothingExposed` | pkg/catch/host_storage_artifacts.go:173-205 | With settled mappings and targets made of path bytes the pass is idempotent if and only if the text has no such place. |
| `TextRewrite.GuardIff` | pkg/catch/service_root_migration.go:1015-1029 | A dash may start a path exactly when the run before the gap ends in `EnvironmentFile` and the gap is an equals sign with nothing but blanks of the same line behind it. |
| `TextRewrite.ExposedByMapping` | pkg/catch/service_root_migration.go:1015-1029 | A mapping and a text for which a second pass changes the text again. |
| `Generations.RunKeeps` | pkg/catch/installer_service.go:291-387 | Every history of staging, commits, rollbacks and prunings keeps: numbered references are what was committed under that number, the last ten generations are complete, and what is installed is the active generation. |
| `Generations.RollbackRestoresCommitted` | pkg/catch/tty_service.go:181-216 | A granted rollback installs everything that was committed under the previous number, and exactly that if and only if no artifact was added later. |
| `Generations.RollbackGrantedIff` | pkg/catch/tty_service.go:181-216 | After any history a rollback is granted if and only if there is a previous number, it is among the last ten, and it had a timer if the active generation has one. |
| `Generations.LastTenAreKept` | pkg/catch/installer_service.go:443-474 | No number within the last ten, nor the active one, ever loses or changes a reference. |
| `Generations.CommitOverwritesNothing` | pkg/catch/installer_service.go:312-353 | A commit writes a number that nothing has yet; earlier references stay. |
| `Generations.AddedArtifactStays` | pkg/catch/tty_service.go:181-216 | A history after which a rollback leaves an artifact installed that its generation does not have. |
| `Generations.EveryReferenceHasItsFile` | pkg/catch/installer_service.go:443-503 | After every history each reference names a file that is there: pruning deletes no file that a remaining reference names. |
| `Generations.FileStaysIff` | pkg/catch/installer_service.go:443-503 | Pruning leaves a file if and only if its name is a default or that of a file which a remaining reference names, and a reference if and only if it is not older than the last ten. |
| `Generations.FailedInstallRestoresIff` | pkg/catch/installer_file.go:1308-1327 | Going back after an installation that failed behind its commit and pruning finds the old generation's files if and only if it was not the oldest one kept. |
| `Generations.OldestKeptExample` | pkg/catch/installer_file.go:1308-1327 | Eleven generations and ten steps back: an installation that then fails behind its commit finds nothing to go back to. |
| `Generations.ServiceRecord.CommitGen` | pkg/catch/installer_service.go:291-353 | The loops over artifacts and references commit exactly as specified, unless the expected generation is no longer current. |
| `Generations.ServiceRecord.PruneGenerations` | pkg/catch/installer_service.go:417-503 | The loops delete the old references of every artifact, and then exactly the files whose names no remaining reference has. |
| `Generations.ServiceRecord.RollBack` | pkg/catch/tty_service.go:197-216 | Activates the previous generation, or refuses and changes nothing. |
| `IsoNetwork.EveryRunSound` | pkg/catch/iso_allocator.go:29-103 | Over every interleaving of ensuring or applying a pool, reserving, marking, requesting removal and releasing, each made as one atomic mutation on possibly outdated choices: allocations lie in the current pool and are pairwise distinct. |
| `IsoNetwork.AddressesNeverClash` | pkg/catch/iso_allocator.go:81-126 | The link and project ranges of different services never overlap, and no two components of the host share an address. |
| `IsoNetwork.ReservationsAreStable` | pkg/catch/iso_pool.go:303-340 | While a service has an allocation the pool does not change, its link and project stay, and no component ever gets another address. |
| `IsoNetwork.NewAllocTakesLowest` | pkg/catch/iso_allocator.go:183-219 | A new allocation takes the lowest free link and project, and is refused exactly when all are taken. |
| `IsoNetwork.NewServicesFit` | pkg/catch/iso_allocator.go:81-103 | A new service is refused for lack of addresses only when there are already as many allocations as projects, or links. |
| `IsoNetwork.PlanKeepsAddresses` | pkg/iso/components.go:30-119 | A component plan keeps the address of everyone who stays, retires the others with theirs, and gives unique addresses inside the project. |
| `IsoNetwork.PlanExistsIff` | pkg/iso/components.go:30-119 | A plan for components exists if and only if the names are non-empty and unique, at most 29, and the addresses used so far and the newcomers fit into the 29 of the project together. |
| `IsoNetwork.ReservedIff` | pkg/catch/iso_allocator.go:50-103 | A reservation succeeds if and only if there is a pool, the service's own allocation is of that kind and neither being removed nor tombstoned, or else a link and for containers a project are free, and the components fit. |
| `IsoNetwork.RemovalIsFinal` | pkg/catch/iso_allocator.go:50-72 | Once its removal has been requested a service gets no reservation, whatever else happens, until its allocation is released. |
| `IsoNetwork.FirstFree` | pkg/catch/iso_allocator.go:183-219 | The search returns the lowest free index, and nothing exactly when none is free. |
| `IsoNetwork.Store.ReserveAllocation` | pkg/catch/iso_allocator.go:50-72 | Reserves in place as specified; a failure discards everything, a success has exactly the requested components. |
| `IsoNetwork.Store.ApplyIsoPool` | pkg/catch/iso_pool.go:303-340 | Succeeds exactly when the plan's pool is still current and either nothing changes or nothing is allocated. |
| `IsoInstall.ComposeInstall.Install` | pkg/catch/installer_file.go:313-384 | For every pattern of failures: success leaves the one complete trace, a failure leaves a beginning of it, gives the lock back if it is held there, and ends with taking the project down and quarantining it. So phases run in their order, nothing is created or started before both Compose documents are admitted, the lock is taken only when free, containers are created and started only under it with everything verified since it was taken, and success is exactly being marked ready; if everything that is asked for succeeds, so does the installation. |
| `IsoInstall.ComposeInstall.RunPhases` | pkg/catch/installer_file.go:317-366 | Phases run in order up to the first failure, with the lock held exactly where the next phase expects it. |
| `IsoInstall.ComposeInstall.Reacquire` | pkg/catch/installer_service.go:1268-1307 | Takes the lock and verifies all four conditions in one tenure, or gives it back. |
| `ResolverUnitFixpoint.FixpointIffReadable` | pkg/catch/netns_reconcile.go:466-496 | Applying the guard a second time changes nothing if and only if the Catch path has no white space or quote, the resolver file has no white space and the daemon's path does not end in a backslash. |
| `ResolverUnitFixpoint.ReadableIsFixpoint` | pkg/catch/netns_reconcile.go:466-645 | For such units the second application accepts the result of the first and leaves it alone, namespace, daemon, arguments, environment file and working directory read the same, and all unmanaged lines are kept in order. |
| `ResolverUnitFixpoint.UnreadableExample` | pkg/catch/netns_reconcile.go:466-496 | A five-line unit and a Catch below a directory with a blank in its name, for which the second application does not leave the first alone. |
| `ResolverUnitFixpoint.AcceptedIsDone` | pkg/catch/netns_reconcile.go:574-586 | A unit that parses and conflicts with nothing is always rewritten: the rewriting itself never fails. |
| `ResolverUnitMeaning.WrittenUnit` | pkg/catch/netns_reconcile.go:498-511 | The written unit has one command line, whose words are Catch, `tailscale-resolver-exec`, `--source`, the file `/etc/netns/<last name of the namespace>/resolv.conf`, `--`, and the words of the daemon's own command line as it was; it is conditional on that daemon and its mounts are private. |
| `ResolverUnitMeaning.SourcesDiffer` | pkg/catch/netns_reconcile.go:498-503 | Two namespaces have the same resolver file if and only if their last names are the same. |
| `ResolverUnitMeaning.ParserMeaning` | pkg/catch/netns_reconcile.go:250-362 | A unit is taken if and only if each of its lines is fine in its section and nothing unique is set twice, and every field then holds what the lines of its name and section say. |
| `ResolverUnitMeaning.AppliedIff` | pkg/catch/netns_reconcile.go:466-560 | The guard is applied exactly to units that can be read, with one fitting command line, one clean namespace, an environment file and a directory, whose conditions and mounts are the guard's own. |
| `ResolverUnitMeaning.InsertedInPlace` | pkg/catch/netns_reconcile.go:588-645 | Where a unit is rewritten, the condition stands directly in front of the service section and the private mount directly behind the namespace. |
| `ResolverUnitProof.SimAll` | pkg/catch/netns_reconcile.go:588-645 | Reading the rewritten lines follows reading the original lines, state by state. |
| `ResolverUnitProof.OthersKept` | pkg/catch/netns_reconcile.go:588-645 | Lines that the rewriting does not manage are neither changed, dropped nor reordered. |
| `ResolverUnit.UnitRewriter.AppendLine` | pkg/catch/netns_reconcile.go:588-645 | The line-by-line rewriter writes what the specification says for each line in each state. |
| `ResolverUnit.EnsureUnitIsolation` | pkg/catch/netns_reconcile.go:466-496 | The loops over the lines compute the specified result. |
| `Words.FieldsJoin` | pkg/catch/netns_reconcile.go:396-410 | Joining words with blanks and splitting the result gives the words back. |
| `SourceTree.RemoveContents` | pkg/catch/host_storage.go:999-1013 | Removes entries until the first refusal; success means that nothing is left and nothing in the tree was a link, on another device or multiply linked; and a tree without such entries is removed if the environment allows it. |
| `SourceTree.RemovableIffOwn` | pkg/catch/host_storage.go:1015-1038 | A tree can be removed if and only if everything in it is no link, on the device and no file with other names. |
| `SourceTree.RefusedSurvives` | pkg/catch/host_storage.go:1015-1038 | However a removal ends, an entry that must not be removed is found under the same path of names. |
| `SourceTree.RemainderIsSubtree` | pkg/catch/host_storage.go:1050-1080 | What a failed removal leaves is a sub-tree of the original, under the same names. |
| `WorkerPool.RowsOfEachServiceOnce` | pkg/catch/catch.go:1149-1186 | Whatever the schedule, an error-free return has the rows of each service exactly as often as it was asked for. |
| `WorkerPool.UncancelledReturnsRows` | pkg/catch/catch.go:1149-1186 | A schedule without a cancellation that has returned has returned rows. |
| `WorkerPool.CancelledFails` | pkg/catch/catch.go:1149-1219 | Once cancelled, a pool that has not returned yet returns no rows and begins no further scan. |
| `WorkerPool.WorkersBounded` | pkg/catch/catch.go:1149-1186 | There are as many workers as allowed, at least one, and no more than services, throughout. |
| `WorkerPool.NeverStuck` | pkg/catch/catch.go:1188-1219 | Until it has returned, the pool can always take a step other than a cancellation: it cannot deadlock. |
| `WorkerPool.StepsEnd` | pkg/catch/catch.go:1188-1219 | Every step leaves less work, so every schedule ends. |

## Left out

- Safety.RunKeeps: excludes the one action of `Safety.ReentersHandOver`, after which the statement is false; `Reentry.RecoverySafeIffNoHazard` says exactly when.
- Safety.StepKeeps: excludes the same action, for the same reason.
- Guarantees.JournalFollowsGraph: is about runs without that action; with it a lookup can complete the hand-over under a rollback that then records it again.
- Guarantees.AnnouncedMeansRestored: is about runs without that action, after which it is false (`Reentry.ReentryHarms`).
- Guarantees.TargetIsAVersion: is about runs without that action.
- Guarantees.MemoryAgreesWithJournal: is about runs without that action, and about phase and authority; the lists of stopped and restarted services and the cause are written along but not compared.
- Startup.Scan: that a clear scan means everything is settled is stated for journals that name themselves as `Startup.SelfNamed` says, which `Startup.WellKept` implies; the other direction holds for all journals.
- TextRewrite.RewriteCandidates: text is modelled as characters instead of bytes, and blanks as ASCII white space.
- Generations.RunKeeps: pruning's two parts (references, then files) are one step here; a file staged between them is not modelled, and neither are image references. Sandbox policies follow the same rules for their references and are not listed separately.
- IsoNetwork.EveryRunSound: does not model the other writers of an allocation in pkg/catch/service_network_mutation.go, which put back a copy taken earlier.
- IsoInstall.ComposeInstall.Install: what the single checks look at is not modelled, only whether they pass and when they are made.
- ResolverUnitFixpoint.FixpointIffReadable: a unit is the list of its lines, so a Catch path that contains a line break is not modelled; the comparison with the database record of the service is left out.
- WorkerPool.RowsOfEachServiceOnce: the sorting of the collected rows and rows of failed scans are left out; a service stands for its rows.
- SourceTree.RemoveContents: mounts that appear, replaced directories, cancelled contexts and input or output errors are one kind of refusal by the environment.
- Journal files: fsync, temporary names, owners, modes and decoding errors; a write is one step with three outcomes, and a journal that exists can be read, except where startup looks at journals in other places.
- Startup after the source journal has been removed by cleanup: the target journal then has no authority to defer to and the scan reports an error.
- Several migrations at once: the machine has one transaction; the scan and the loop at startup have any number.
- The recovery copy that a blocking server keeps in memory: here a recovery reads the journal again and is refused for one that says cleanup-pending or complete. The code works on the copy from start-up, which is older after a finalization whose second write failed; so the lemmas about stranded migrations speak of what is left after the next restart.
- Bytes of Catch's own record and unit after a rollback: reinstalling the source unit commits a new generation of Catch after the database was restored. Only the side that the unit belongs to is modelled.
- Service payloads, ZFS datasets and staging in place: a rollback does not cover them. One mutation step may change database, units and running set in any way.
- Who else changes services while a migration is under way, and services that are started between two steps of a rollback.
- The plan itself: which services move, capacity and boundary checks, legacy layouts, and the construction of mappings from a plan.
- Rewriting of Compose documents and the text reference scanner, which splits lines differently and skips comments.
- Choice and verification of a network pool against the host's other networks: any private /16 may be the outcome, made on older data.
- The order in which Go iterates over maps: only which error is met first depends on it.
