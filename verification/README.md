# TRAUMA in Dafny

TRAUMA is a local bookmark application. This project models the parts of it that are hard to get right and
proves what they promise:

- **Backup queue.** Jobs are merged per memory, kept as durable intents, held back while finalizers run, and handed
  to one worker. `BackupQueueProtocol` is the protocol as a state machine with one step for every stretch of code
  between two awaits; `BackupQueueProofs` proves its invariants over all runs, and `BackupQueueStatuses` what each step
  leaves behind and what a status says about the runs before it. `GitMemoryBackupQueue` is the queue itself, a class over
  the six mutable tables with shared job objects, and every method is proved to perform the protocol step of the same
  name (`BackupQueueTables`, `BackupQueueTableSteps`).
- **Locks.** The first-come-first-served lease of recovery actions, with nested calls (`FailsafeActionLeases`), and the
  chain of promises that serialises jobs per project (`SerializedBackupRunner`).
- **Failsafe.** The environment check, the recovery actions, and the stamp and alert rows they compare and clear
  (`FailsafeAlerts`, `FailsafeState`, `FailsafeRecovery`); when exactly an approved action is carried out, whatever
  happens between its steps (`FailsafeApproval`). Moving the backup files to a new store runs on a file system
  with inodes in which every step can fail, crash, or be preceded by other programs creating names
  (`BackupFileSystem`, `BackupMigration`, `BackupMigrationFile`, `BackupMigrationLoop`).
- **Browse query language.** Tokens, printing, and the two edits of a query (`BrowseSearch`, `BrowseTokens`,
  `BrowseReadState`, `BrowsePrinting`, and `BrowseToggle` with the modules named after it); what a query means, as text
  and as a filter (`BrowseMeaning`, `BrowseFiltering`); and the loops the program runs (`BrowseSearchLoops`).
- **Database migrations** (`DatabaseMigrations`, `ForeignKeySwitches`), **stage paths** of a backup commit
  (`BackupStagePaths`), **page capture** (`PageCapture`, `PageCaptureMarkup`), **lifting text out of highlights** (`ReaderMarks`), the **conversation transcript**
  (`PsychiatristTranscript`), **filtered paging** (`FilteredPaging`), the **bounded parallel map** (`ConcurrentMap`),
  **idempotent submission** (`AddMemorySubmission`, `IdempotencyKeys`), **moment targets** (`ReaderMomentTargets`) and
  **document reachability** (`DocumentReachability`).

`dafny verify dfyconfig.toml` checks the whole project. An asynchronous function is modelled as steps that interleave
at every await; where steps depend on the outside world, a script of what happens is an arbitrary input, so that a
statement about one call is a statement about all its interleavings.

## Where the code does less than one might expect

Some properties do not hold on all inputs. For each of them the project says exactly when they hold and gives a case in
which they do not.

- Toggling a browse filter leaves the other filters alone exactly when no brace of another field is still open where
  braces are printed (`BrowseToggleMisread.ToggleKeepsOthersIff`, `OpenBraceExample`).
- The environment check reads the remote's URL once to compare it with the stamp and once more, five steps later, to write
  the stamp. A check that goes on with memory data keeps the stamped URL exactly when the second read works and finds what
  the first one found (`FailsafeRecovery.Failsafe.EnsureEnvironment`, its clause `KeepsUrlIff`; a URL that changes in
  between, and a read that fails: `FailsafeRecovery.UrlReadAgain`).
- Approving a failed push approves its paths. The stamp then has the remote, branch and URL of the approved alert exactly
  when these are the configured ones and the URL read before the push (`FailsafeRecovery.Failsafe.RetryPush`;
  `FailsafeRecovery.RetriedPushMovesRemote`).
- Lifting a piece of text out of its highlights takes the highlights off other text that shares a non-highlight element
  with it. Other text keeps all its highlights exactly when, wherever there is other text, the marks around it come
  before any other element (`ReaderMarks.LiftingKeepsOtherHighlightsIff`, `EmphasisLosesHighlight`).
- A page element without any copied child is never too large, however long its own markup is
  (`PageCapture.CloneElementWithinByteBudget`).
- A backup file that is called like the temporary file of one that comes later in the list is removed again, and the
  migration still reports success. Left alone with files that are ready, it succeeds with all files in place exactly when
  no temporary name is the target of an earlier file or a directory above one (`BackupMigrationLoop.MigrateInOrder`;
  `TakenTargetIsLost`). Running it again over its own result also works exactly when, besides, no temporary name is a
  directory above any target (`BackupMigrationLoop.MigrateTwice`).

## Model

| member | source | states |
|---|---|---|
| BackupJobs.MergeIsUnion | src/server/backup/index.ts:892-899 | A merged job has exactly the paths of both jobs, each once, and the newer reason |
| BackupJobs.MergeBackupJobs | src/server/backup/index.ts:892-899 | The in-place merge leaves the existing object with the merge of both values |
| BackupQueueProofs.NoAcceptedWorkLost | src/server/backup/index.ts:324-445 | After any run, a path accepted by an enqueue or persistIntent is in a durable intent, a retained call or a pending job, or has been handed to runJob since |
| BackupQueueProofs.StepSecures | src/server/backup/index.ts:235-250 | No single step drops a secured path except by handing it to runJob |
| BackupQueueProofs.RunningJobNeverChanges | src/server/backup/index.ts:235-302 | While runJob has a job, no step changes it |
| BackupQueueProofs.RunKeepsInv | src/server/backup/index.ts:217-250 | Every run keeps one pending job per memory, no lost wake-up, filed jobs, and success hiding no work |
| BackupQueueProofs.ReachableInv | src/server/backup/index.ts:199-250 | Every state reachable from the empty queue satisfies the invariant |
| BackupQueueProofs.SuccessWritten | src/server/backup/index.ts:252-302 | Success is written only when the job of this memory settles without an error, the write is saved, and the memory has nothing left to do |
| BackupQueueProofs.StepKeepsSuccess | src/server/backup/index.ts:346-405 | A memory recorded as success never has unfinished work, whatever interleaves |
| BackupQueueProofs.UnfinishedWorkIsRetryEligible | src/server/backup/index.ts:455-535 | A memory with unfinished work has a status that the retry scan selects |
| BackupQueueProofs.StepKeepsWakeUp | src/server/backup/index.ts:217-233 | Pending jobs without suspensions always have a live worker |
| BackupQueueProofs.WorkerEmptiesQueue | src/server/backup/index.ts:235-250 | Left to itself the worker stops after boundedly many steps with no job pending |
| BackupQueueProofs.PushPendingPaths | src/server/backup/index.ts:361-368 | Pushing a job adds exactly its paths to its memory and loses none |
| BackupQueueStatuses.StatusesAfterStep | src/server/backup/index.ts:252-445 | For every step and every memory, the status afterwards; a failed job writes failed, a job without an error success, pending or queued by what is still to be done |
| BackupQueueStatuses.FailuresAreWritten | src/server/backup/index.ts:289-302 | A failed job leaves its memory failed, and so does one whose result could not be written at first; other results stay as written |
| BackupQueueStatuses.SuccessMeansBackedUp | src/server/backup/index.ts:252-302 | Over every run, a memory recorded as success had its last runJob return without an error |
| BackupQueueStatuses.EnqueuesAfterStep | src/server/backup/index.ts:324-405 | For every step, which enqueue calls are in flight afterwards, and in which phase |
| BackupQueueStatuses.PersistsAfterStep | src/server/backup/index.ts:408-446 | For every step, which persistIntent calls are in flight afterwards, and whether their status reached the database |
| BackupQueueStatuses.ScansAfterStep | src/server/backup/index.ts:455-535 | A retry scan suspends scheduling from its start to its end, whatever else happens |
| BackupQueueStatuses.IntentsAfterStep | src/server/backup/index.ts:324-446 | Intents change only with an enqueue that starts or ends without pushing its job, and with a persistIntent that has written its status |
| BackupQueueStatuses.WorkerAfterStep | src/server/backup/index.ts:217-302 | The worker takes the first job if nothing suspends scheduling and finishes otherwise; no other step touches the list but a returned finalizer, and only idle workers are woken |
| BackupQueueStatuses.EnqueueTakesIntent | src/server/backup/index.ts:331-345 | An enqueue takes the intent of its memory, adds its own paths and has its own reason |
| BackupQueueStatuses.PersistAddsIntent | src/server/backup/index.ts:429-440 | A returned persistIntent has its paths and its reason in the intent of its memory, and changes no other |
| BackupQueueStatuses.FailureKeepsJob | src/server/backup/index.ts:352-391 | An enqueue whose finalizer failed, or that had taken an intent and could not write its status, keeps its job; an intent that came meanwhile joins it and is the newer one |
| BackupQueueStatuses.PushedPlace | src/server/backup/index.ts:361-368 | A new pending job goes to the end; a job of a memory that has one joins it where it is |
| BackupQueueStatuses.WorkerTakesFirst | src/server/backup/index.ts:235-250 | A job handed to runJob was the first pending one, and scheduling was not suspended |
| BackupQueueTables.PendingAgrees | src/server/backup/index.ts:199-216 | The index of pending jobs and the list agree on which memories have one |
| BackupQueueTables.SuspensionsAgree | src/server/backup/index.ts:217-233 | The suspension counter is positive exactly while a finalizer or a scan is in flight |
| GitMemoryBackupQueue.Queue.constructor | src/server/backup/index.ts:199-216 | A new queue is the protocol's initial state |
| GitMemoryBackupQueue.Queue.StartEnqueue | src/server/backup/index.ts:324-357 | Entering enqueue performs the protocol step and keeps the tables consistent |
| GitMemoryBackupQueue.Queue.ResumeEnqueue | src/server/backup/index.ts:352-379 | Continuing after the status write performs the protocol step |
| GitMemoryBackupQueue.Queue.FinalizerReturned | src/server/backup/index.ts:358-369 | A returned finalizer makes the job pending and schedules the worker |
| GitMemoryBackupQueue.Queue.FinalizerFailed | src/server/backup/index.ts:370-396 | A failed finalizer retains the job and starts compensation |
| GitMemoryBackupQueue.Queue.FinishCompensation | src/server/backup/index.ts:392-405 | The end of compensation removes the call and reschedules |
| GitMemoryBackupQueue.Queue.StartPersist | src/server/backup/index.ts:408-431 | Entering persistIntent performs the protocol step |
| GitMemoryBackupQueue.Queue.ResumePersist | src/server/backup/index.ts:430-446 | A returning persistIntent leaves its paths in a durable intent |
| GitMemoryBackupQueue.Queue.NextJob | src/server/backup/index.ts:235-250 | The worker takes the first pending job or finishes |
| GitMemoryBackupQueue.Queue.JobSettled | src/server/backup/index.ts:252-302 | The status decision and its write are one step of the protocol |
| GitMemoryBackupQueue.Queue.StatusRecorded | src/server/backup/index.ts:252-302 | A status write that threw is recorded as a failure, and the worker goes on |
| GitMemoryBackupQueue.Queue.WorkerSettled | src/server/backup/index.ts:217-233 | A worker that ends while jobs are pending is scheduled again |
| GitMemoryBackupQueue.Queue.EndScan | src/server/backup/index.ts:527-533 | The end of a retry scan lifts its suspension and reschedules |
| SerializedBackupRunner.MayStartMeansNext | src/server/backup/index.ts:848-873 | Waiting for one promise is waiting for all earlier calls of the path, failed ones included |
| SerializedBackupRunner.AtMostOneRuns | src/server/backup/index.ts:848-873 | At most one job of a path runs at any time |
| SerializedBackupRunner.SomeoneGoesOn | src/server/backup/index.ts:848-873 | A path with unfinished calls always has one that runs or may start |
| SerializedBackupRunner.Runner.Start | src/server/backup/index.ts:860-866 | Jobs of a path start in the order of their calls |
| SerializedBackupRunner.Runner.Finish | src/server/backup/index.ts:866-872 | A finished job opens its gate whether it failed or not, and a path without waiters is forgotten |
| FailsafeActionLeases.ActionLeases.Acquire | src/server/backup/failsafe-action-coordination.ts:32-43 | A free lease is granted at once; otherwise the request joins the waiters |
| FailsafeActionLeases.ActionLeases.Release | src/server/backup/failsafe-action-coordination.ts:85-113 | The first waiter is granted under a new owner; a second release does nothing |
| FailsafeActionLeases.ActionLeases.AtMostOneHeld | src/server/backup/failsafe-action-coordination.ts:32-113 | At most one grant of a key is held at any time |
| FailsafeActionLeases.ActionLeases.NestedWhileHeld | src/server/backup/failsafe-action-coordination.ts:53-74 | A call that inherits an owner is let through exactly while that owner's grant is held |
| FailsafeActionLeases.ActionLeases.ServedArePrefix | src/server/backup/failsafe-action-coordination.ts:32-113 | Grants follow arrivals, and whoever waits waits for a held lease |
| FailsafeAlerts.SerializedAlertsAgreeWithWhere | src/server/backup/failsafe-alert-generation.ts:8-73 | Two alerts serialise to the same text exactly when the where clause matches, which is when they are equal |
| FailsafeState.GoesOnOnlyAtStamp | src/server/backup/environment.ts:100-149 | With memory data the check goes on exactly at the stamped location, remote and URL |
| FailsafeState.NoSilentRelocation | src/server/backup/environment.ts:87-206 | While checks find memory data and no migration is applied, the stamped location stays; the URL stays too unless the two reads of it in some check disagree |
| FailsafeState.RelocationIsApproved | src/server/backup/failsafe.ts:557-672 | A stamp whose location or URL has moved has an applied migration on record, approved for the alert it cleared, unless the URL alone moved in a check whose two reads of it disagree |
| FailsafeState.GenerationNamesOneAlert | src/server/backup/failsafe-alert-generation.ts:16-26 | One approval token stands for one alert |
| FailsafeApproval.GitSeenIff | src/server/backup/failsafe.ts:722-759 | What a recovery sees of git is what is there at four numbered steps: the repository, the configured branch, the URL of the remote and the head |
| FailsafeApproval.RetryKeepsGit | src/server/backup/failsafe.ts:499-526 | An applied retry found the approved alert before and after the push, and the same branch, URL and head |
| FailsafeApproval.MoveKeepsGit | src/server/backup/failsafe.ts:285-326 | An applied move found the approved alert before copying, after it and at the end, the approved URL before and after the push, and no other head than that of its own commit |
| FailsafeApproval.QuietRetry | src/server/backup/failsafe.ts:474-538 | Undisturbed, a retry is carried out exactly when the alert is there and the repository is on the configured branch |
| FailsafeApproval.QuietMove | src/server/backup/failsafe.ts:215-332 | Undisturbed, a move is carried out exactly when the alert is there and agrees with the configuration and the URL, and the repository, if there is one, is on the configured branch |
| FailsafeRecovery.Failsafe.EnsureEnvironment | src/server/backup/environment.ts:87-206 | For any run of what happens outside, a check that goes on with memory data keeps the stamped URL exactly when the read for the stamp works and finds the compared URL. Undisturbed, moved paths with memory data are reported with exactly the stamped ones, a missing stamp or another git identity without any, an unfitting failed push stays, and otherwise the location is stamped with its URL |
| FailsafeRecovery.Failsafe.Examine | src/server/backup/environment.ts:88-104 | The URL compared with the stamp is the one found at a step that the rows and stores determine; undisturbed, memory data means rows or content in the current or the stamped store |
| FailsafeRecovery.Failsafe.UpsertCurrentStamp | src/server/backup/environment.ts:419-437 | The stamp becomes the current location with the URL read now, the time now and its old time of creation |
| FailsafeRecovery.Failsafe.ClearAlertGeneration | src/server/backup/environment.ts:303-313 | An alert is removed exactly when the row that the deletion finds is the expected one |
| FailsafeRecovery.Failsafe.StampAndClear | src/server/backup/failsafe.ts:625-672 | The stamp is written with the configured location and the given URL and the alert cleared, both or neither |
| FailsafeRecovery.Failsafe.DeleteRecordAndClear | src/server/backup/failsafe.ts:597-623 | The memory row and the alert are deleted, both or neither |
| FailsafeRecovery.Failsafe.CheckRepository | src/server/backup/environment.ts:151-206 | With memory data a missing repository or inconsistent content blocks and leaves the stamp; otherwise the location is stamped with the URL that its own read finds, and an alert other than a failed push is gone |
| FailsafeRecovery.Failsafe.PushAndStamp | src/server/backup/failsafe.ts:517-527 | Applied exactly when the push, if there is something to push to, works, git is then as it was before, and the alert is still there; it has then pushed, stamped the location with the URL known before the push, and cleared exactly the approved alert |
| FailsafeRecovery.Failsafe.CommitAndStamp | src/server/backup/failsafe.ts:306-321 | Applied exactly when git has the approved URL, nothing but its own commit changes git, and the alert is still there; it has then committed if there are files, and pushed exactly if that is configured and the URL read then is there |
| FailsafeRecovery.Failsafe.MigrateContent | src/server/backup/failsafe.ts:202-332 | For any run of what happens outside: applied exactly when the approval names the alert found and all that was approved is still so at every numbered look; then exactly that alert is cleared, the location is stamped with the approved URL (for a retry, the one read before the push), and what was copied, initialised, committed and pushed, in order, is fixed. Otherwise the stamp stays; a dry run has no effect |
| FailsafeRecovery.Failsafe.RetryPush | src/server/backup/failsafe.ts:474-538 | Applied exactly when repository, alert and git are as they must be at every look; it then pushes exactly if that is configured and there is a remote, and stamps the URL read before the push; the stamp has the identity of the approved alert exactly when configuration and that URL do |
| FailsafeRecovery.Failsafe.RevertConfig | src/server/backup/failsafe.ts:98-200 | A revert never touches the stamp; it is applied exactly when it is approved and the alert stands at every look, writes the previous paths of the approved alert, and clears that alert exactly when the reloaded paths are stamped |
| FailsafeRecovery.Failsafe.DeleteMissingRecord | src/server/backup/failsafe.ts:347-412 | The record is deleted and the approved alert cleared exactly when the approval stands and the content is still missing; only then does a check follow, which clears only what a check may clear; a dry run has no effect |
| FailsafeRecovery.Failsafe.Run | src/server/backup/failsafe.ts:85-538 | Over any sequence of checks with memory data and actions, a stamp that moved in location or URL was moved by an approved migration; the URL alone can move otherwise only if a step failed or a remote was changed meanwhile |
| FailsafeRecovery.UrlReadAgain | src/server/backup/environment.ts:419-437 | A check of a stamped backup with memories succeeds and stamps another URL, or none, when the URL changes between its two reads or the second one fails |
| FailsafeRecovery.RetriedPushMovesRemote | src/server/backup/failsafe.ts:474-538 | Retrying an approved push stamps the configured remote, not the one of the alert |
| BackupFileSystem.TemporaryTells | src/server/backup/failsafe-migration-file.ts:94-97 | Different targets have different temporary files |
| BackupMigration.InsideIff | src/server/backup/failsafe-migration-file.ts:267-275 | A path counts as inside when it continues the root with text that does not start with two dots, even as the beginning of a longer name |
| BackupMigration.OwnerTokenIff | src/server/backup/failsafe-migration-file.ts:59-59 | Owner tokens are 1 to 128 letters, digits, underscores and hyphens |
| BackupMigrationFile.EnsureSafeDestinationDirectories | src/server/backup/failsafe-migration-file.ts:159-218 | Success means every component below the root is a real directory |
| BackupMigrationFile.LinkOrCompare | src/server/backup/failsafe-migration-file.ts:126-142 | Publishing never replaces anything; an existing target is accepted only with the same data, and undisturbed another one is a conflict |
| BackupMigrationFile.CopyBackupFailsafeMigrationFile | src/server/backup/failsafe-migration-file.ts:61-157 | However it ends, the effect is an allowed one; success means the target has the source's data in real directories and the temporary file is gone. A bad token or a target outside changes nothing; undisturbed, another file at the target is a conflict and no new temporary file is left |
| BackupMigrationLoop.MigrateFiles | src/server/backup/failsafe.ts:285-302 | However it ends, the effect is an allowed one; after success a file is in place unless a later one has taken its name, and what bears a temporary name is a later target or a directory above one |
| BackupMigrationLoop.MigrateWithRestarts | src/server/backup/failsafe.ts:285-302 | After any number of crashed or failed attempts an undisturbed one ends with all files in place, if the list is in order and no temporary name is a directory above a target |
| BackupMigrationLoop.TargetNeverPartial | src/server/backup/failsafe-migration-file.ts:102-157 | At any moment a target that is no temporary name is what was there before, the work of others, or a complete durable copy |
| BackupMigrationLoop.OtherNamesKept | src/server/backup/failsafe-migration-file.ts:98-100 | Names other than the migration's temporary files keep what they had, and no directory is removed |
| BackupMigrationLoop.NothingElseAppears | src/server/backup/failsafe-migration-file.ts:61-157 | Nothing appears but targets, directories above them, temporary files and the work of others |
| BackupMigrationLoop.ReadyStays | src/server/backup/failsafe.ts:285-302 | Files that are ready, each in its turn, stay ready through crashed attempts |
| BackupMigrationLoop.MigrateInOrder | src/server/backup/failsafe.ts:285-302 | Undisturbed with ready files, success with all files in place is the same as no temporary name being an earlier target or a directory above one |
| BackupMigrationLoop.InPlaceIff | src/server/backup/failsafe-migration-file.ts:98-100 | After the loop all files are in place exactly when none is called like the temporary file of a later one |
| BackupMigrationLoop.MigrateTwice | src/server/backup/failsafe.ts:285-302 | A second migration over the result of the first also succeeds exactly when, besides, no temporary name is a directory above a target |
| BackupMigrationLoop.TakenTargetIsLost | src/server/backup/failsafe-migration-file.ts:98-100 | An undisturbed migration of two ready files reports success, and the one called like the other's temporary file is gone |
| BrowseTokens.JoinedTokensReadBack | src/components/memories/browse-data.ts:414-465 | Tokens joined by spaces are read back as the same tokens when no open brace is closed by a later one |
| BrowseTokens.TokensOpenSafe | src/components/memories/browse-data.ts:414-498 | In a query as it stands nothing after an open token closes it |
| BrowseTokens.TokensStandAlone | src/components/memories/browse-data.ts:593-595 | The text of every token is read as that token |
| BrowseReadState.SetReadStateChangesOnlyReadState | src/components/memories/browse-data.ts:338-366 | For every query and choice the edited query reads back the choice and asks for everything else as before |
| BrowseReadState.SetReadStateFilters | src/components/memories/browse-data.ts:153-195 | Filtering with the edited query is filtering without a read state and then by the read flag |
| BrowseFiltering.FilterShows | src/components/memories/browse-data.ts:153-195 | The memories shown are, in order, those with the ids, the read flag, every field filter and every free term of the query, spelled out on their own data |
| BrowseFiltering.FieldMeans | src/components/memories/browse-data.ts:547-578 | Titles and addresses contain the value, some tag or category is named so, some flashback has it in or around its text |
| BrowseFiltering.TermMeans | src/components/memories/browse-data.ts:187-191 | A free term may be in any text known of a memory |
| BrowseFiltering.FilterBrowseMemories | src/components/memories/browse-data.ts:153-195 | The loops keep exactly these memories |
| BrowseFiltering.ToggleNarrows | src/components/memories/browse-data.ts:368-412 | Toggling a filter on shows, of the memories shown before, those that it accepts; toggling it off is the other way round |
| BrowseMeaning.SeparatorIff | src/components/memories/browse-data.ts:500-536 | The separator is the first colon or equals sign that no white space comes before |
| BrowseMeaning.FirstIsFieldIff | src/components/memories/browse-data.ts:414-465 | The first token is a filter exactly when the text starts with the name of a field and a separator |
| BrowseMeaning.FieldTokenIs | src/components/memories/browse-data.ts:414-465 | A filter's value goes up to the closing brace of a closed one, and otherwise up to white space |
| BrowseMeaning.TokensFollow | src/components/memories/browse-data.ts:414-465 | Tokens follow each other with nothing but white space in between |
| BrowseMeaning.SplitIs | src/components/memories/browse-data.ts:580-585 | The parts of a value have no ampersand, and joined by ampersands are the value |
| BrowseMeaning.FiltersAre | src/components/memories/browse-data.ts:274-313 | The filters of a query are the normalised values of its field tokens that are not empty |
| BrowseMeaning.FreeTermsAre | src/components/memories/browse-data.ts:274-313 | The free terms are the normalised other tokens in order, without the two words about reading |
| BrowseMeaning.ReadStateIs | src/components/memories/browse-data.ts:274-313 | The read state is what these two words say |
| BrowsePrinting.EscapeReadsBack | src/components/memories/browse-data.ts:467-498 | An escaped value is read back up to its closing brace |
| BrowsePrinting.PrintedQueryReadsBack | src/components/memories/browse-data.ts:597-625 | A printed list of values is read back as exactly these values in order |
| BrowseToggleMeaning.CanPrintMeans | src/components/memories/browse-data.ts:368-412 | The guard on open braces says exactly when the new query can be read back |
| BrowseToggleMeaning.ToggleReadsBack | src/components/memories/browse-data.ts:368-412 | Under the guard the new query is read as the tokens it was written from |
| BrowseToggleMeaning.ToggleChangesOneValue | src/components/memories/browse-data.ts:368-412 | Toggling adds or removes exactly one normalised value and keeps other filters, free terms and read state |
| BrowseToggleMeaning.ToggleTwiceRestores | src/components/memories/browse-data.ts:368-412 | Toggling twice restores what the query asks for |
| BrowseToggleMisread.ToggleMisreads | src/components/memories/browse-data.ts:368-412 | Without the guard another field's filter changes |
| BrowseToggleMisread.ToggleKeepsOthersIff | src/components/memories/browse-data.ts:368-412 | The other fields' filters stay exactly when the guard holds |
| BrowseToggleMisread.OpenBraceExample | src/components/memories/browse-data.ts:467-498 | A query with an open brace whose other filter changes |
| BrowseSearchLoops.ReadBracedSearchFieldValue | src/components/memories/browse-data.ts:467-498 | The scanning loop computes the braced value with escapes removed |
| BrowseSearchLoops.TokenizeBrowseSearch | src/components/memories/browse-data.ts:414-465 | The index loop computes the tokens, with their positions |
| BrowseSearchLoops.ParseBrowseSearch | src/components/memories/browse-data.ts:274-313 | The parsing loop computes filters, free terms and read state |
| BrowseSearchLoops.ToggleBrowseSearchFieldFilter | src/components/memories/browse-data.ts:368-412 | The toggle loop computes the toggled query, and its final filter drops nothing |
| DatabaseMigrations.ValidateManifest | src/server/db/migrations.ts:71-91 | Accepts exactly the manifests with safe, strictly increasing time stamps |
| DatabaseMigrations.ValidateHistory | src/server/db/migrations.ts:93-142 | Accepts exactly the prefixes of the manifest by time stamp and hash, and names what is wrong otherwise |
| DatabaseMigrations.SortedSorts | src/server/db/migrations.ts:46-50 | The query returns the same rows ordered by time stamp |
| ForeignKeySwitches.SwitchIff | src/server/db/migrations.ts:200-207 | A statement is read as a switch exactly if it is one, with white space and letter case as allowed, and as the state that it names |
| ForeignKeySwitches.LastSwitchDecides | src/server/db/migrations.ts:164-190 | The setting that a migration asks for is that of its last switch |
| ForeignKeySwitches.OffIff | src/server/db/migrations.ts:170-178 | Foreign keys are off in the transaction exactly when some statement switches them off |
| ForeignKeySwitches.OrdinaryAre | src/server/db/migrations.ts:164-181 | The transaction runs exactly the other statements that are not blank, trimmed and in order |
| DatabaseMigrations.Sqlite.Transaction | src/server/db/migrations.ts:61-67 | Statements, foreign-key check and record are committed together or not at all |
| DatabaseMigrations.Sqlite.ApplyBreakpointed | src/server/db/migrations.ts:153-198 | Success leaves the last requested foreign-key state, and the transaction ran unenforced if any statement switches off; a failure restores the original state and commits nothing |
| DatabaseMigrations.ApplyRuntimeMigrations | src/server/db/migrations.ts:31-69 | A refused attempt changes nothing; otherwise exactly a stretch of the remaining migrations is applied, all of it if nothing fails: records, statements, enforcement in each transaction and the setting at the end, which only migrations with breakpoints switch. A database at a prefix stays at a prefix |
| DatabaseMigrations.OneMigration | src/server/db/migrations.ts:52-67 | A plain migration runs under the setting there is and keeps it; one with breakpoints may run without and ends as its last switch says |
| DatabaseMigrations.ApplyReleases | src/server/db/migrations.ts:31-69 | Over any series of attempts with growing manifests, on a database at any point of them, the rows stay a prefix and each statement is committed once, in order |
| BackupStagePaths.HasTrackedDescendant | src/server/backup/index.ts:1005-1021 | The binary search is true exactly when a tracked path starts with the path and a slash |
| BackupStagePaths.ResolveStagePaths | src/server/backup/index.ts:947-1003 | The result is exactly the distinct candidates, in order, that exist, are tracked, or have a tracked path beneath |
| BackupStagePaths.SelectedAreCandidates | src/server/backup/index.ts:998-1003 | Selecting keeps order and distinctness |
| BackupStagePaths.SelectedIff | src/server/backup/index.ts:947-1003 | A path is selected exactly when some content path is staged there and it exists, is tracked, or has a tracked path beneath it |
| BackupStagePaths.DistinctIsFirst | src/server/backup/index.ts:952-960 | The candidates are in the order in which they first appear |
| BackupStagePaths.SelectedInOrder | src/server/backup/index.ts:998-1003 | The selected ones are in the order of the candidates |
| PageCapture.CopyKids | extensions/browser/src/capture.ts:219-261 | One element's kept children are copied in order, with exact counts of bytes and looks |
| PageCapture.CloneElementWithinByteBudget | extensions/browser/src/capture.ts:194-265 | The copy is the recursively pruned element, the count its size, and it is refused exactly beyond the limits |
| PageCapture.FinishedShows | extensions/browser/src/capture.ts:194-265 | Copies that each fit their own children together show the pruned tree |
| PageCaptureMarkup.KeptIff | extensions/browser/src/capture.ts:376-378 | Text is kept, and elements are exactly if their names, in any case, are none of the thirteen for code and forms |
| PageCaptureMarkup.PrunedElement | extensions/browser/src/capture.ts:194-265 | A copied element has its own markup, then exactly its kept children in order, then those of its shadow root |
| PageCaptureMarkup.BytesOfMarkup | extensions/browser/src/capture.ts:359-370 | The count of a tree is the number of bytes of its markup |
| PageCaptureMarkup.EscapedTextReadsBack | extensions/browser/src/capture.ts:363-370 | Escaped text has no markup in it and reads back as the text |
| PageCaptureMarkup.ByteLengthIsUtf8 | extensions/browser/src/capture.ts:372-374 | The length of a text is that of its UTF-8 form |
| ReaderMarks.ReaderDocument.LiftNodeOutOfFlashbackMarks | src/components/reader/MemoryReader.tsx:3482-3497 | The loop ends because every round leaves one mark less around the node |
| ReaderMarks.LiftingPreservesText | src/components/reader/MemoryReader.tsx:3482-3533 | The document's text stays in order, the node ends outside every mark, and other text keeps the marks up to the next other element |
| ReaderMarks.LiftingKeepsElements | src/components/reader/MemoryReader.tsx:3482-3533 | After lifting, exactly the elements that are no highlights are around the node, in their order |
| ReaderMarks.SplitKeepsOutside | src/components/reader/MemoryReader.tsx:3511-3533 | One split keeps all highlights of the text outside the lifted child |
| ReaderMarks.LiftingKeepsOtherHighlightsIff | src/components/reader/MemoryReader.tsx:3482-3533 | Other text keeps all its highlights exactly when marks come first wherever there is text |
| ReaderMarks.EmphasisLosesHighlight | src/components/reader/MemoryReader.tsx:3482-3533 | Text in the same emphasis loses its highlight with the piece |
| ReaderMarks.RootMarkStays | src/components/reader/MemoryReader.tsx:3511-3515 | A mark without a parent would be found again for ever |
| ReaderMarks.UnflashbackPreservesText | src/components/reader/MemoryReader.tsx:3407-3422 | Taking off a highlight keeps the text and leaves the piece in no highlight |
| PsychiatristTranscript.RunActsOnOnePair | src/components/reader/psychiatrist-transcript.ts:41-72 | Events for one pair, named by its id or by the turn it is in, act on that pair alone |
| PsychiatristTranscript.RegenerateRollsBack | src/components/reader/psychiatrist-transcript.ts:96-162 | In the whole transcript, a regeneration that fails, is cancelled or needs permission restores answer, citations, turn and status, offers exactly the retry of the failure, and leaves every other pair alone |
| PsychiatristTranscript.RegenerateCompletes | src/components/reader/psychiatrist-transcript.ts:110-128 | In the whole transcript, a completion without text has the concatenated deltas of its turn as answer, and every other pair is left alone |
| PsychiatristTranscript.FirstAnswerEnds | src/components/reader/psychiatrist-transcript.ts:49-162 | In the whole transcript, a first answer ends completed, failed or cancelled as its last event says, with its text, turn and retry fields, and every other pair is left alone |
| PsychiatristTranscript.NextAnswerEnds | src/components/reader/psychiatrist-transcript.ts:96-162 | The same for a turn that starts again for a pair that is there |
| PsychiatristTranscript.EndSettles | src/components/reader/psychiatrist-transcript.ts:129-162 | However a pair is, a cancellation keeps an answer that is complete or being regenerated, a failure one that is being regenerated or whose regeneration it offers; every other answer is gone |
| PsychiatristTranscript.CompletionSettles | src/components/reader/psychiatrist-transcript.ts:110-128 | However a pair is, a completion has the text it brings, or what has been drafted for its turn, or what was there |
| PsychiatristTranscript.StartSettles | src/components/reader/psychiatrist-transcript.ts:96-109 | A start empties the process rows and keeps the answer; that of a regeneration opens an empty draft beside it |
| PsychiatristTranscript.ProcessAfterStart | src/components/reader/psychiatrist-transcript.ts:223-244 | The rows are the de-duplicated stream, or its first row and its last seven |
| PsychiatristTranscript.DeduplicatedAre | src/components/reader/psychiatrist-transcript.ts:223-229 | Of each stretch of equal texts exactly one row is kept, in order |
| PsychiatristTranscript.ProcessTextsAre | src/components/reader/psychiatrist-transcript.ts:73-76 | Exactly the process texts that pass the filter become rows, in order |
| FilteredPaging.CollectFilteredCursorPage | src/server/browse/filtered-page.ts:6-47 | A page has at most limit rows and is the filtered stretch up to its next cursor; it stops exactly when it is full, the source ends, or the allowed number of loads is made |
| FilteredPaging.FilterKeeps | src/server/browse/filtered-page.ts:33-33 | Exactly the rows that pass the filter are kept, in order |
| FilteredPaging.CollectAll | src/server/browse/filtered-page.ts:6-47 | Following the cursors ends and gives the filtered source, each row once and in order |
| ConcurrentMap.Call.Fulfil | src/server/browse/concurrency.ts:13-20 | A fulfilled item is stored and the worker claims the next index, each index once |
| ConcurrentMap.Call.Settle | src/server/browse/concurrency.ts:21-30 | The call settles with the sequential map, or with the first rejected worker's error |
| ConcurrentMap.MapWithConcurrency | src/server/browse/concurrency.ts:1-12 | A call is refused exactly for an unusable bound, and starts that many workers or one per item |
| ConcurrentMap.RunToSettlement | src/server/browse/concurrency.ts:1-31 | Under any order of arrivals work starts once per index and in order, never more than allowed is in flight, and the call settles exactly when none is: with the sequential map if no work failed, otherwise with the error of work that did |
| IdempotencyKeys.KeyDecodes | src/components/memories/add-memory-controller.ts:160-183 | A key has the version 7 layout and decodes to its time stamp and its 74 kept random bits |
| IdempotencyKeys.KeyHasLayout | src/components/memories/add-memory-controller.ts:160-183 | A key is made exactly for a time stamp of 48 bits and ten random bytes, and has the hyphens, the version, the variant and the lower-case digits of the format |
| IdempotencyKeys.KeysTell | src/components/memories/add-memory-controller.ts:160-183 | Two keys are equal exactly when time stamp and kept bits are |
| AddMemorySubmission.Controller.Submit | src/components/memories/add-memory-controller.ts:65-122 | A request is sent only when none is pending, a retry sends the key of its attempt, and a blank address is answered with the message instead |
| AddMemorySubmission.Controller.HandleResult | src/components/memories/add-memory-controller.ts:95-113 | Success clears the attempt it belongs to and nothing else; a refusal keeps it and shows its error only while it is the current one |
| AddMemorySubmission.RunSteps | src/components/memories/add-memory-controller.ts:39-147 | Over any run, requests go out one at a time, equal keys mean the same URL, and no key goes out after it has succeeded |
| AddMemorySubmission.AtMostOneInFlight | src/components/memories/add-memory-controller.ts:65-122 | Between any two requests the first one has come to its end |
| ReaderMomentTargets.IndexReaderMomentTargets | src/components/reader/reader-moment-targets.ts:10-34 | The index holds, for each path, the first entry per anchor and the only entry if there is one |
| ReaderMomentTargets.IndexAgreesWithScan | src/components/reader/reader-moment-targets.ts:36-50 | Looking up the index is scanning the table of contents |
| ReaderMomentTargets.ResolveIs | src/components/reader/reader-moment-targets.ts:36-50 | A moment resolves to the first entry on its path with its anchor, or to the only entry on its path, or to none |
| ReaderMomentTargets.CollectResolvedTargetIds | src/components/reader/reader-moment-targets.ts:52-67 | The set holds exactly the ids that the moments resolve to |
| ReaderMomentTargets.FindReaderMomentForSection | src/components/reader/reader-moment-targets.ts:69-78 | The result is the first moment whose target is the section |
| DocumentReachability.Reachable | scripts/check-docs.ts:236-249 | The work list visits exactly the documents that links lead to from the index |

## Left out

- GitMemoryBackupQueue.Queue.StartScan: the retry scan appears as its suspension, its failure writes and its end. Which memories it skips and which paths it collects is not modelled, because a scan's enqueues are ordinary enqueues.
- BackupQueueProofs.UnfinishedWorkIsRetryEligible: says that the work can be found again after a restart, not that it is; reading the files that a retry collects is not part of this model.
- FailsafeRecovery.Failsafe.EnsureEnvironment: the texts of alerts are shortened, and the stamp is assumed to be written only under the lease of this process.
- FailsafeRecovery.Failsafe.RevertConfig: rewriting the configuration file and the restart that may follow are one step that can fail.
- FailsafeRecovery.Failsafe.MigrateContent: copying the files is one step here; `BackupMigrationLoop` models it.
- BackupMigrationLoop.MigrateFiles: directory entries are durable once made, resolved paths are path identity (no symbolic links in between are followed), path components contain no backslash, and nobody else creates names with the ending of this owner's temporary files.
- BackupMigrationLoop.TargetNeverPartial: assumes sources that nobody changes while they are copied, and that no source is a temporary file of the migration, as the stores do not overlap.
- BrowseSearch.Language: lower-casing works character by character; rules that depend on neighbouring characters are not modelled, and characters are code points rather than UTF-16 units.
- DatabaseMigrations.Sqlite.ApplyBreakpointed: the final switch of the foreign-key setting is assumed to work, and SQL statements are texts without an effect of their own.
- BackupStagePaths.ResolveStagePaths: resolving a content path against the store and the project is a parameter.
- ReaderMarks.ReaderDocument: the document is kept as a value around the lifted node rather than as linked nodes, so object identity and cursors into the tree are not captured; selection offsets are not modelled.
- PageCapture: choosing the element to capture and sanitising the copy are not modelled.
- PsychiatristTranscript.ProcessIsBounded: the filter for unsafe process texts is a parameter.
- AddMemorySubmission.Controller: the callbacks of the views are not modelled.
- Git, SQLite, the real file system, hashing (an injective function), URL fingerprints and clocks appear only through what they return.
- User interface, loaders, routes and response validators: plumbing around the modelled parts.
