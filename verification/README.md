# A verified model of the resumable Group scanner

The scanner captures one Group at a time through a browser, page by page. Raw
bytes are stored before they are parsed, a checkpoint is stored before the next
interaction, and a run that is interrupted anywhere must end as if it had never
been interrupted. This project models five linked pieces of it and proves what
each is for.

**Capture, resume and replay.** `Durable` has everything a job leaves on disk
and the single writes that change it. `Capture.Attempt` is one call of the
workflow as the list of its writes; a crash keeps a prefix of that list, so a
schedule of crashes, pauses and new attempts is a list of attempts with the
number of writes each one kept. `CrashSafety` and `Convergence` show that every
disk such a schedule can leave is one that a single uninterrupted run passes
through, and that one more attempt ends where that run ends;
`ClockIndependence` removes the dependence on the times read. `ReachableStates`
states what every attempt keeps, whatever disk it finds, and `Histories` what
holds of a whole store over any number of jobs whose attempts are interleaved
with one another and with cleanups. `CapturedPages` says, from the page's own
fields, what a page leaves in the store and how a turn ends. `Stores` and
`CaptureWorkflow` are the same loop as classes that change fields step by step,
proved to perform exactly the writes of `Attempt`. `Replay` is the offline
rebuild, a second implementation that must agree with the tables;
`ReplayedPages` says what it takes of each stored page and when it refuses.
`Pagination` is the simple cursor loop that the live loop extends.

**Operator batch.** `Batch` has the receipt and the identifier sidecar as two
files replaced one after the other, `BatchWorkflow` the imperative run,
`BatchOutcomes` what it records of each capture, `BatchResume` what one run does
and what a torn pair of files means, and `BatchHistory` sequences of runs and
resumes, each cut short anywhere.

**Browser sessions.** `Base64` and `Checkpoints` are the cursor text, `Browser`
a session over a page that is a deterministic transition system,
`BrowserCapture` the session as a class, `BrowserResume` the proof that a fresh
browser opened on a checkpoint goes on as the session would have. `NextActions`
says what a session does next, from the fields of what it sees. `KnownPosts`
says exactly when a fresh browser refuses because it knows more Posts than the
session did.

**Tables and retention.** `Storage` has the save rules and the table invariants,
`Retention` the cleanup, and `Timestamps` the proof that the text order used in
queries is the time order used by the stale guard. `Keys` shows that the texts
hashed into capture identifiers and target keys determine their parts.

**Run-level protection.** `Gate` is the lock file and the pause between Groups
under any interleaving of processes. `Join`, `JoinRuns` and `JoinService` are
target preparation and the at-most-once Join click, `JoinOutcomes` what a run
left alone achieves.

Times are integers (microseconds). Hashes are injective constructors; JSON is an
inverse pair; compression is left out. The page source, the parser and the
captures of a batch are deterministic function parameters. A table is a map or a
list, a transaction one step, a foreign key or unique index a refusal.

The code settles some points where one might expect otherwise, and the model
follows it:

- An interrupted or stopped resume of a batch rewrites the receipt with the
  entries it got to, so a later completed entry is dropped
  (`BatchResume.InterruptedResumeDrops`); `BatchResume.SettledOutlives` says
  exactly which entries stay.
- `paginate_pages` remembers only its initial cursor, the live loop reloads all
  of them; `Pagination.ForgottenCursors` says exactly when that matters.
- Replay keeps the first page's Group record, the tables the last page's
  (`Replay.GroupRecordDiffers`).
- The raw cleanup count is the number of captures matched, whether or not their
  files still exist (`Retention.RawCountTwice`).
- A resume from the command line reads the known Posts afresh, and by then the
  run's own Posts are among them. A checkpoint whose history or next action
  expands one of them can be refused (`KnownPosts.OwnPostsRefuse`);
  `KnownPosts.ResumeKnowingMore` says exactly when.

## Model

| member | source | states |
|---|---|---|
| Storage.AddCounters | src/app/storage/repositories.py:363-402 | counters are appended under the record's own time and capture; an observation that exists is kept and must agree |
| Storage.SaveKeepsSound | src/app/storage/repositories.py:163-343 | a save keeps foreign keys, keeps every current counter in the history at its record's time, and leaves no orphan or newer observation |
| Storage.SaveKeepsOrder | src/app/storage/repositories.py:404-434 | a save keeps parents at least as recent as their children if and only if the saved record is no newer than the parents it names |
| Storage.SavesMoveForward | src/app/storage/repositories.py:404-434 | over any saves, a record never changes parents, never goes back in time, has one content at one time, and no observation changes |
| Storage.SaveTwice | src/app/storage/repositories.py:363-402 | saving the same record again changes nothing and adds no observation |
| Storage.SaveAccepted | src/app/storage/repositories.py:163-434 | a save goes through if and only if the record is new, or keeps its parents and is newer or the very same, all it names is stored, and no stored observation contradicts it |
| Storage.SaveRefused | src/app/storage/repositories.py:404-434 | why a save is refused, in the order of the checks |
| Storage.MetaAccepted | src/app/storage/repositories.py:84-139 | capture metadata is accepted if and only if it is new or agrees with the stored row in digest, URL and what it names of path and size; the stored row stays |
| Stores.RawStore.Read | src/app/capture/raw_store.py:50-61 | bytes come back exactly when they are stored and match the expected digest |
| Stores.RawStore.Write | src/app/capture/raw_store.py:33-48 | new bytes are stored; bytes that differ from the stored ones are refused and nothing changes |
| Stores.Database.AddCapture | src/app/storage/repositories.py:84-139 | inserts metadata, or checks the immutable row, storage path and size included, changing nothing else |
| Stores.Database.SaveRecord | src/app/storage/repositories.py:163-434 | guard, upsert and counters as one transaction: the whole save or no change |
| Stores.Database.PutRow | src/app/workflows/live_capture.py:448-480 | the checkpoint row replaces the one of its number or is inserted in order; its capture must exist |
| Stores.Database.Transition | src/app/storage/repositories.py:466-485 | only allowed transitions change the job state |
| Durable.TerminalForever | src/app/storage/repositories.py:50-68 | no list of writes takes a job out of a terminal state |
| Durable.AllowedMoves | src/app/storage/repositories.py:50-68 | which states a job may come from, told by where it goes |
| Durable.AppliedIsAbsorbed | src/app/workflows/live_capture.py:161-170 | every single data write of a page, repeated, is a no-op |
| Durable.UpsertInOrder | src/app/workflows/live_capture.py:448-480 | the checkpoint table stays in order of its numbers; a row replaces the one of its number and no other |
| Durable.Restart | src/app/workflows/live_capture.py:146-259 | a page begun again after any number of its writes ends in the same data and the same refusal as if it had not stopped |
| Durable.RestartPrefix | src/app/workflows/live_capture.py:146-259 | no part of the second try goes back behind the first |
| Strings.DecimalReads | src/app/workflows/live_capture.py:147-150 | a number in decimal reads as itself, without leading zeros |
| Strings.StripTrims | src/app/protection_join.py:70-95 | trimming takes white space off both ends and nothing else |
| Keys.CaptureTextOnce | src/app/workflows/live_capture.py:147-150 | the hashed text determines job, page number, place text (the cursor, or `group-root` when there is none) and digest, even when a cursor contains the separator |
| Keys.TargetTextOnce | src/app/workflows/operator_batch.py:36-38 | the hashed text determines Group and URL |
| CaptureWorkflow.LiveCaptureWorkflow.CapturePages | src/app/workflows/live_capture.py:97-301 | from any disk, the imperative loop performs exactly the writes, fetches and outcome of `Capture.Attempt`, and leaves the disk those writes give |
| CaptureWorkflow.LiveCaptureWorkflow.Turn | src/app/workflows/live_capture.py:142-301 | one turn fetches one page, writes it, and either ends the run or names the next cursor |
| CaptureWorkflow.LiveCaptureWorkflow.WritePage | src/app/workflows/live_capture.py:143-297 | raw file, metadata, records and checkpoint in order up to the first refusal, with the stored time of a known capture |
| CaptureWorkflow.LiveCaptureWorkflow.PersistPage | src/app/workflows/live_capture.py:483-514 | metadata again, then Group, Posts inside the boundary and their Comments, one transaction each |
| CaptureWorkflow.LiveCaptureWorkflow.ResumePosition | src/app/workflows/live_capture.py:402-430 | the position rebuilt from the checkpoint rows, by the two branches of the query |
| CaptureWorkflow.LiveCaptureWorkflow.Fail | src/app/workflows/live_capture.py:533-583 | failure row, task state and job state, in that order |
| CapturedPages.PageOnRecord | src/app/workflows/live_capture.py:483-514 | after a finished page its Group, every Post published at or after the lower bound and every Comment on such a Post are on record with their parents, body, metrics, time and capture, and each metric is in the counter history with its value |
| CapturedPages.OldPostsLeaveNothing | src/app/workflows/live_capture.py:502-514 | a Post without a time or before the bound changes no record and no observation |
| CapturedPages.PageNothingElse | src/app/workflows/live_capture.py:502-514 | a page changes no record and adds no observation of anything it does not show |
| CapturedPages.PageEvidenceIs | src/app/workflows/live_capture.py:161-259 | after a finished page its raw bytes, its metadata (digest, URL, time, path, size) and exactly the checkpoint row its next cursor calls for are stored |
| CapturedPages.TurnEnds | src/app/workflows/live_capture.py:142-301 | for every kind of page: how the turn ends, which failure with which capture is recorded, and what task and job become; or that the loop goes on at the next cursor |
| CapturedPages.AttemptStarts | src/app/workflows/live_capture.py:104-132 | which attempts are refused, which find the job done, and where the others start |
| CapturedPages.ResumesAt | src/app/workflows/live_capture.py:402-430 | an attempt takes up behind the last checkpoint, with every stored cursor seen |
| CapturedPages.RunOnRecord | src/app/workflows/live_capture.py:142-301 | in a run's final data are all observations of all its pages, and every record as the last page that showed it |
| CapturedPages.JobOnRecord | src/app/workflows/live_capture.py:97-301 | the same of a job after any crashes, pauses and attempts and one attempt left alone |
| Recovery.ResumeSettled | src/app/workflows/live_capture.py:402-430 | the reloaded cursor, page count and seen cursors are exactly the loop's own variables |
| Recovery.ReachSettled | src/app/workflows/live_capture.py:237-301 | at every step the checkpoints are numbered 1..n, their cursors are distinct and present, and another page is within the bound |
| Recovery.PageApart | src/app/workflows/live_capture.py:161-259 | no two writes of a page can undo each other, and the checkpoint comes last |
| CrashSafety.StoredTime | src/app/workflows/live_capture.py:151-159 | once a capture's metadata is stored, its time is used for good |
| CrashSafety.SamePage | src/app/workflows/live_capture.py:146-259 | a page taken up again writes the same list, ends in the same data and decides the same |
| CrashSafety.LoopCrash | src/app/workflows/live_capture.py:142-301 | a crash anywhere in the loop leaves a disk that an uninterrupted run passes through |
| CrashSafety.AttemptCrash | src/app/workflows/live_capture.py:97-301 | the same for a whole attempt, started from any such disk |
| CrashSafety.AttemptCompletes | src/app/workflows/live_capture.py:97-301 | an attempt left alone ends with the data, outcome and job state of an uninterrupted run |
| Convergence.CrashesLinearize | src/app/workflows/live_capture.py:111-301 | after any schedule of crashes, pauses and attempts, the disk is one that a single uninterrupted run passes through; with the stored times in order, that run has stored rising times |
| Convergence.Completes | src/app/workflows/live_capture.py:111-301 | after any schedule, one attempt left alone ends the job with the data, outcome and state of a run never interrupted |
| Convergence.IdealAgrees | src/app/workflows/live_capture.py:151-170 | an uninterrupted run depends on the clock only through the times of the pages whose metadata it stores |
| Convergence.LoopFetches | src/app/workflows/live_capture.py:104-107 | fetches stay within the page bound and a planned pause, and the run is paused if and only if the pause is used up by a page that neither fails nor is refused |
| ClockIndependence.SaveNewer | src/app/storage/repositories.py:404-434 | a newer save is refused if and only if a parent changed or a referenced row is missing |
| ClockIndependence.HistoriesPair | src/app/storage/repositories.py:363-402 | a save made at two different times extends two corresponding counter histories to corresponding ones: same counters, values and captures in the same order of time |
| ClockIndependence.IdealSimilar | src/app/workflows/live_capture.py:111-301 | two uninterrupted runs that read different rising clocks end alike and store the same, times apart |
| ClockIndependence.EverythingConverges | src/app/workflows/live_capture.py:111-301 | any schedule in time order, then one attempt left alone, ends with the files, checkpoints, captures, records, counter history, identifiers and job state of one uninterrupted run, times apart |
| ReachableStates.SaveCovered | src/app/workflows/live_capture.py:502-514 | when a page saves a record, the parents it names have been saved at the same time |
| ReachableStates.PrefixOrderly | src/app/workflows/live_capture.py:161-259 | between any two writes of a page, foreign keys and counters hold and parents are at least as recent as children, whatever else the tables hold |
| ReachableStates.PrefixSealed | src/app/workflows/live_capture.py:161-259 | between any two writes of a page, evidence is stored before what names it |
| ReachableStates.TryOrderly | src/app/workflows/live_capture.py:97-301 | an attempt on any disk, cut at any write, keeps the tables sound and in order |
| ReachableStates.TrySealed | src/app/workflows/live_capture.py:97-301 | and keeps evidence before records and checkpoints |
| ReachableStates.TryRowsFit | src/app/workflows/live_capture.py:237-301 | and leaves checkpoints numbered 1..n, within the bound, no cursor twice, only the last terminal, and a succeeded job only behind a terminal one |
| ReachableStates.EveryTaskFits | src/app/workflows/live_capture.py:533-583 | after any crashes and attempts of a job its task row matches its ended or paused state, and it has not failed without its failure on record first |
| ReachableStates.EndedStays | src/app/storage/repositories.py:50-68 | an ended job is not touched by another attempt |
| Histories.EveryStoreCanBeCleaned | src/app/retention.py:83-123 | over any number of jobs, their attempts interleaved in any order, each cut at any write, with record and raw cleanups in between, the tables are sound and in order, the next cleanup goes through at any cutoff, leaves what is at or after it, and counts the rows removed |
| Histories.EvidenceStays | src/app/workflows/live_capture.py:161-259 | over the same histories, every capture has the digest, size and path of its identifier, its raw bytes are there unless a raw cleanup has passed its time, and every checkpoint names a stored capture of its own job |
| Histories.RecordsReadBack | src/app/workflows/html_replay.py:90-115 | over the same histories, the capture of every record of every job reads back as the bytes it was made from, unless a raw cleanup has passed it |
| Histories.EveryJobFits | src/app/workflows/live_capture.py:237-301 | over the same histories, every job's checkpoints are gapless and repeat no cursor, it has succeeded only behind a terminal one, and its task row and failures fit its state |
| Histories.EndedJobStays | src/app/storage/repositories.py:50-68 | over the same histories, an ended job keeps its checkpoints and state, and its later attempts change nothing in the store |
| Histories.OneJobsHistory | src/app/workflows/live_capture.py:97-301 | with nothing in between, a job's attempts do to the store what they do to the disk the job finds, and leave other jobs alone |
| Histories.CleanupsDo | src/app/retention.py:68-123 | which rows a record cleanup and which files a raw cleanup takes from a store, and that neither touches a job |
| Replay.StoredHtmlReplay.ReplayJob | src/app/workflows/html_replay.py:86-146 | the imperative fold over the checkpointed pages computes `Replay.ReplayAll`, errors included |
| Replay.PageEvidence | src/app/workflows/live_capture.py:161-170 | a finished page's capture can be read back with the page's own time |
| Replay.PageRecords | src/app/workflows/live_capture.py:502-514 | a finished page leaves exactly its kept records laid over the earlier ones |
| Replay.IdealRebuilds | src/app/workflows/html_replay.py:90-146 | through a whole run, replaying the checkpoints stored so far gives what the tables hold of the Group |
| Replay.ReplayAgrees | src/app/workflows/html_replay.py:90-146 | whatever crashed, replaying a succeeded job gives exactly the current Posts, Comments and identifiers of its Group; the Group record agrees if and only if there was one page |
| Replay.GroupRecordDiffers | src/app/workflows/html_replay.py:90-146 | a job over two pages succeeds and replay gives another Group record than the tables hold |
| ReplayedPages.ReplayedPage | src/app/workflows/html_replay.py:94-146 | one more stored page is refused for its fault, or taken with its recent Posts and the Comments on any Post kept so far, over what was rebuilt before; the Group stays the first page's |
| ReplayedPages.ReplayGoesThrough | src/app/workflows/html_replay.py:86-146 | replay goes through if and only if there is a stored page and none is missing, altered, of another size, unreadable or of another Group |
| Pagination.PaginatePages | src/app/capture/pagination.py:46-82 | the loop computes the trace, and refuses a bad bound before any fetch |
| Pagination.PaginateFollows | src/app/capture/pagination.py:59-82 | the trace follows the links, records each cursor before fetching it, never twice, within the bound, and ends for the first reason there is |
| Pagination.FollowsOnce | src/app/capture/pagination.py:46-82 | that description fits one trace only |
| Pagination.FetchesOnce | src/app/capture/pagination.py:46-82 | no cursor is fetched twice, and a loop is detected if and only if the last page leads back to a fetched cursor inside the bound |
| Pagination.RecordsChain | src/app/capture/pagination.py:62-82 | the cursors recorded are exactly those the links lead on to inside the bound, neither seeded nor repeated |
| Pagination.ForgottenCursors | src/app/capture/pagination.py:62-65 | seeding fewer seen cursors changes nothing if and only if the links never lead on to a forgotten one |
| Pagination.ForgottenExample | src/app/capture/pagination.py:62-65 | two pages in a circle, where a resume seeded with one cursor goes round again |
| Pagination.FirstAttemptPaginates | src/app/workflows/live_capture.py:142-301 | a first attempt fetches and checkpoints a first part of what `paginate_pages` does, and all of it with the same end if and only if it was not cut short, that is refused, paused, at a page it does not accept, or at a browser stop |
| Pagination.CheckpointsFollowLinks | src/app/workflows/live_capture.py:402-430 | after any crashes and resumes, the checkpoint table holds a first part of what the simple loop checkpoints |
| Retention.CleanSucceedsWhen | src/app/retention.py:95-122 | cleanup leaves exactly what is at or after the cutoff, and goes through if and only if no record that stays names one that goes |
| Retention.CleanupSafeWhenOrdered | src/app/retention.py:95-122 | cleanup goes through at every cutoff if and only if parents are at least as recent as children |
| Retention.CleanKeepsInvariants | src/app/retention.py:95-122 | cleanup leaves no orphan and no missing counter, and keeps the time order |
| Retention.DeletedCountIsRowsRemoved | src/app/retention.py:83-94 | the count on the receipt is the number of rows removed |
| Retention.CleanLeaves | src/app/retention.py:95-122 | row by row: a record or observation is left if and only if it is at or after the cutoff |
| Retention.CountIsOldRows | src/app/retention.py:83-94 | the count, on a dry run too, is the number of rows before the cutoff |
| Retention.RawCountExact | src/app/retention.py:68-81 | the raw count is the number of files removed if and only if all matched files were still there and no two captures share one |
| Retention.RawCountTwice | src/app/retention.py:68-81 | the second of two raw cleanups in a row counts a capture and removes nothing |
| Retention.RetentionService.CleanNormalized | src/app/retention.py:83-123 | the phases as one transaction with roll-back, its receipt, and no change on a dry run |
| Retention.RetentionService.CleanRaw | src/app/retention.py:68-81 | exactly the files named by expired captures go, and the receipt counts the captures matched |
| TextOrder.FirstDifference | src/app/storage/repositories.py:71-75 | the first place where two texts differ decides their order, and a text that ends there comes first |
| Timestamps.PadOrder | src/app/storage/repositories.py:71-75 | fixed-width decimals order as numbers |
| Timestamps.PadReads | src/app/storage/repositories.py:71-75 | a padded number has its width and reads as itself |
| Timestamps.FractionOrder | src/app/storage/repositories.py:71-75 | a left-out zero fraction comes before every fraction |
| Timestamps.SoonerMicros | src/app/storage/repositories.py:428-434 | a field-wise earlier instant is earlier on the time line, leap years included |
| Timestamps.DayAfterDay | src/app/storage/repositories.py:71-75 | the calendar behind the time line: month lengths and leap days, centuries included |
| Timestamps.TextOrderIsTimeOrder | src/app/storage/repositories.py:71-75 | for all UTC instants, text order is time order and equal text is equal time |
| Batch.OrderedTargetsSorted | src/app/workflows/operator_batch.py:320-344 | accepted targets come out once each, sorted, in an order that does not depend on the input's |
| BatchWorkflow.OperatorBatchWorkflow.Run | src/app/workflows/operator_batch.py:203-318 | whatever files it finds, the imperative run writes, captures and ends as `Batch.RunBatch` |
| BatchWorkflow.OperatorBatchWorkflow.LoadPrevious | src/app/workflows/operator_batch.py:346-389 | what a resume accepts and loads, and why it refuses |
| BatchWorkflow.OperatorBatchWorkflow.LoadIdentifierState | src/app/workflows/operator_batch.py:603-633 | what is loaded from the sidecar, and why it is refused |
| BatchWorkflow.OperatorBatchWorkflow.WriteProgress | src/app/workflows/operator_batch.py:523-540 | the receipt is replaced first, then the sidecar |
| BatchOutcomes.AcceptedTargets | src/app/workflows/operator_batch.py:320-344 | a batch accepts one to ten targets with Group and absolute URL, no Group and no URL twice, and nothing else, and takes them in the text order of their Groups |
| BatchOutcomes.TrustedFiles | src/app/workflows/operator_batch.py:346-389 | a resume trusts receipt and sidecar if and only if both are about these targets, no entry occurs twice, and every succeeded entry has its own identifiers |
| BatchOutcomes.EveryEntryTells | src/app/workflows/operator_batch.py:222-294 | of every run: a captured target's entry has the state, error, stop reason and results of its capture and one attempt more, any other the settled entry it had |
| BatchOutcomes.LeavesOutBehind | src/app/workflows/operator_batch.py:222-279 | a run leaves targets out if and only if a capture stopped or was interrupted, or an earlier stop is kept |
| BatchOutcomes.CapturedAgain | src/app/workflows/operator_batch.py:222-229 | after a run left alone, a resume captures exactly what was not reached, was interrupted or failed recoverably, and never what broke |
| BatchOutcomes.FinishedHashesTell | src/app/workflows/operator_batch.py:299-316 | a finished run's aggregate hashes are over exactly what its succeeded entries hold |
| BatchOutcomes.EveryRunTakesTurns | src/app/workflows/operator_batch.py:523-540 | in every run receipt and sidecar are written in turns, the receipt first |
| BatchOutcomes.EveryReceiptSays | src/app/workflows/operator_batch.py:523-556 | wherever a run is killed its receipt says running, and only that of a finished run has an end and its hashes |
| BatchResume.WholeProgressResumes | src/app/workflows/operator_batch.py:523-540 | progress written whole is always accepted, with exactly its entries and identifiers |
| BatchResume.TornProgress | src/app/workflows/operator_batch.py:536-540 | between the two writes a resume is accepted if and only if the new entry needs no identifiers or the older sidecar holds the same ones |
| BatchResume.LoopOutline | src/app/workflows/operator_batch.py:221-279 | one entry a target in order up to the first that ends the run; captured are exactly those without a settled entry; identifiers are never missing and the aggregate is never taken over nothing |
| BatchResume.ResumeCalls | src/app/workflows/operator_batch.py:222-229 | a resume captures exactly the targets without entry or with an incomplete one, none at or after the first stopped one, and settled entries before its end come out unchanged |
| BatchResume.RunResumes | src/app/workflows/operator_batch.py:203-318 | a run that is not killed can be resumed with exactly the entries it ended with |
| BatchResume.StoppedStatus | src/app/workflows/operator_batch.py:542-556 | a finished batch is marked stopped if and only if its last entry is stopped, and one that left targets out is |
| BatchResume.SettledOutlives | src/app/workflows/operator_batch.py:219-318 | a settled entry is in the resume's result, unchanged, and is found by the next resume, if and only if no target before it ends the resume |
| BatchResume.InterruptedResumeDrops | src/app/workflows/operator_batch.py:235-245 | an interrupted resume rewrites the receipt without a later completed entry |
| BatchHistory.EveryHistoryIsHonest | src/app/workflows/operator_batch.py:523-540 | after any runs, resumes and crashes, the receipt lists a prefix of its sorted targets once each, with entries that sessions captured and made |
| BatchHistory.ResumeNeverMixes | src/app/workflows/operator_batch.py:346-389 | whenever the files are accepted, a succeeded entry and its identifiers were both returned by one capture of that target in one session |
| BatchHistory.ChainsConverge | src/app/workflows/operator_batch.py:219-318 | any chain over steady results, interrupted, failing recoverably or killed, then one run left alone, ends with the identifier, normalized and raw hashes of one uninterrupted batch, or is refused |
| BatchHistory.WholeChainsResume | src/app/workflows/operator_batch.py:203-318 | interrupts, failures and kills that do not fall between a receipt and its sidecar never make a resume refuse |
| Base64.StripEncoded | src/app/capture/playwright_adapter.py:585-586 | stripping takes exactly the padding away and `-len % 4` puts it back (section 5 of RFC 4648) |
| Base64.RoundTrip | src/app/capture/playwright_adapter.py:585-592 | every byte string comes back from its unpadded form, whatever its length |
| Base64.EncodedBits | src/app/capture/playwright_adapter.py:585-586 | every three bytes are four symbols of six bits, the highest first, and the padding of a shorter last group (section 5 of RFC 4648) |
| Checkpoints.PayloadRoundTrip | src/app/capture/playwright_adapter.py:110-130 | an action comes back from its payload with every combination of optional selector and text |
| Checkpoints.CheckpointRoundTrip | src/app/capture/playwright_adapter.py:577-612 | a checkpoint gives back history and next action to a session of its own target and to no other |
| Checkpoints.CheckpointsDiffer | src/app/capture/playwright_adapter.py:577-587 | different histories or next actions have different cursors |
| Checkpoints.TrustedText | src/app/capture/playwright_adapter.py:589-612 | a text is taken as a checkpoint if and only if it has the prefix, an ASCII part that decodes to a document about this target, and that document's own tag |
| BrowserCapture.BrowserSession.CapturePage | src/app/capture/playwright_adapter.py:157-182 | one call of the session, from any stand, gives the page, checkpoint and new stand of `Browser.Call` |
| BrowserCapture.BrowserSession.BoundedHtml | src/app/capture/playwright_adapter.py:335-364 | the scan keeps exactly the Posts without identifier and those admitted, and updates the captured set |
| BrowserCapture.BrowserSession.DeriveNextAction | src/app/capture/playwright_adapter.py:269-316 | the first permitted expansion, then button, then a scroll until the boundary |
| BrowserCapture.BrowserSession.PermittedIds | src/app/capture/playwright_adapter.py:318-333 | the first identifiers in document order, each once |
| BrowserCapture.BrowserSession.HistoryBoundaryReached | src/app/capture/playwright_adapter.py:404-441 | enough Posts captured or shown, a boundary mark, or a time at or before the lower bound |
| BrowserCapture.BrowserSession.Retrace | src/app/capture/playwright_adapter.py:204-213 | the completed actions are done again, each of which must be the derived one |
| BrowserResume.AdmitsTheFirst | src/app/capture/playwright_adapter.py:350-363 | captured are exactly the first `max_recent_posts` unknown identifiers in feed order |
| BrowserResume.AdmitLonger | src/app/capture/playwright_adapter.py:350-363 | scanning a longer page after a shorter one captures what scanning it alone captures |
| BrowserResume.DeriveIgnoresCaptured | src/app/capture/playwright_adapter.py:404-422 | the next action does not depend on what was captured before |
| BrowserResume.DeriveChooses | src/app/capture/playwright_adapter.py:269-316 | there is no next action if and only if nothing may be expanded and the boundary is reached, and a scroll if and only if nothing may be expanded and it is not |
| BrowserResume.DeriveExpands | src/app/capture/playwright_adapter.py:269-311 | what is expanded is on the page, visible, not known and within the limit |
| NextActions.ExpandsPostFirst | src/app/capture/playwright_adapter.py:269-289 | the next action is the first visible Post mark that is not known and within the limit, with its key and selector |
| NextActions.ThenExpandsComments | src/app/capture/playwright_adapter.py:269-289 | without one, the first such Comment mark |
| NextActions.ThenPresses | src/app/capture/playwright_adapter.py:291-311 | without any, the first visible button with a caption that expands and is no reply, of a Post not known and within the limit |
| NextActions.ThenScrollsOrEnds | src/app/capture/playwright_adapter.py:313-316 | with nothing to expand, the page is scrolled while fewer than the limit are captured and shown, there is no boundary mark and every shown time is later than the bound; otherwise there is no next action |
| NextActions.KeptInOrder | src/app/capture/playwright_adapter.py:335-364 | the Posts kept are those without identifier and the captured ones, in their order |
| NextActions.NextCallAnswers | src/app/capture/playwright_adapter.py:157-267 | what a call answers: each limit and failure, or the page, its checkpoint and every counter |
| NextActions.OnlyOwnCheckpoint | src/app/capture/playwright_adapter.py:215-227 | an open session goes on from its own last checkpoint and from no other text |
| NextActions.NoForeignCheckpoint | src/app/capture/playwright_adapter.py:203-213 | a new session refuses a text that is no checkpoint of its target |
| NextActions.FirstCallAnswers | src/app/capture/playwright_adapter.py:157-199 | the same of the first call |
| NextActions.SessionWithin | src/app/capture/playwright_adapter.py:157-182 | a session stays within its page, interaction and storage limits |
| BrowserResume.SessionRests | src/app/capture/playwright_adapter.py:157-267 | between calls the interaction count is the length of the history, and the history leads from a new page to this one |
| BrowserResume.FreshOpensAlike | src/app/capture/playwright_adapter.py:184-236 | a fresh browser on checkpoint k returns the page and next checkpoint of the uninterrupted session at step k, and stands where it stood |
| BrowserResume.ReopenedGoesOn | src/app/capture/playwright_adapter.py:157-236 | and goes on page by page as the session would have |
| BrowserResume.CursorsNeverRepeat | src/app/capture/playwright_adapter.py:173-177 | no checkpoint of a session occurs twice |
| BrowserResume.SessionPosts | src/app/capture/playwright_adapter.py:335-364 | whatever the page does, over all pages of a session the Posts kept are among at most `max_recent_posts` identifiers, none of them known, and a Post once kept stays kept |
| BrowserResume.SessionPostsFirst | src/app/capture/playwright_adapter.py:350-363 | on a page whose feed only grows they are exactly the first unknown identifiers of the feed |
| BrowserResume.SessionIsSource | src/app/workflows/live_capture.py:144-145 | one session through all its calls, or a new browser a page, is the same page source to the capture loop |
| KnownPosts.DeriveKnowingMore | src/app/capture/playwright_adapter.py:269-316 | knowing more Posts leaves the next action as it was if and only if what it expands is not theirs, or the same caption still comes first |
| KnownPosts.ResumeKnowingMore | src/app/cli/main.py:1092-1110 | a resume that knows more Posts is refused with `checkpoint_invalid` if and only if some action up to the next one no longer survives; otherwise it comes to the session's own page, or over the storage limit |
| KnownPosts.OwnPostsRefuse | src/app/cli/main.py:1092-1110 | a session keeps a Post and expands it, and the resume that knows the session's own Posts refuses |
| Gate.WaitBetweenGroups | src/app/cli/main.py:800-824 | the wait ends no sooner than the pause after every success of another Group, and no later than needed |
| Gate.SuccessHoldsOthers | src/app/cli/main.py:800-824 | told by phases and clock: once a capture has succeeded, a capture of another Group starts no sooner than its pause after that, in every interleaving |
| Gate.AskedIsStarted | src/app/cli/main.py:773-794 | what a process asks for at the lock is what it waits and starts with |
| Gate.EveryInterleavingKept | src/app/cli/main.py:773-797 | in every interleaving with crashes at most one process is inside, and a capture starts at least its pause after every earlier success of another Group |
| Gate.StaleLockBlocks | src/app/cli/main.py:786-797 | after a process dies inside, nobody enters again |
| Gate.OperatorCaptureGate.Enter | src/app/cli/main.py:773-794 | takes the free lock, waits and starts, or changes nothing |
| Gate.OperatorCaptureGate.Leave | src/app/cli/main.py:794-797 | the lock goes whatever the capture's result |
| Join.EveryStoreIsSound | src/app/targets/preparation.py:174-304 | whatever is tried in whatever order, a campaign has no Group twice and at most one selected target, and it is a Group seen as joined or confirmed as joined |
| Join.SelectKeepsSound | src/app/targets/preparation.py:254-304 | selecting keeps that, and never replaces a selection |
| Join.PlanKeepsSound | src/app/targets/preparation.py:174-204 | planning keeps one transition a campaign and a candidate, of a Group seen as joinable |
| Join.CompleteKeepsSound | src/app/targets/preparation.py:206-245 | recording an outcome keeps it, and only a confirmation makes a Group joined |
| JoinRuns.JoinActionGuard.Reserve | src/app/protection_join.py:70-95 | reserves one action in all and never a Group already attempted; a refusal changes nothing |
| JoinRuns.Quietest | src/app/cli/main.py:571-588 | the selected candidate is one that no other undercuts in volume, rank and Group |
| JoinRuns.PlanGuards | src/app/cli/main.py:513-530 | the reservation is durable before the click and names the clicked Group |
| JoinRuns.EachGroupClickedOnce | src/app/cli/main.py:484-563 | over any sequence of runs, each cut short anywhere, a Group receives at most one Join click |
| JoinRuns.EachRunClicksOnce | src/app/cli/main.py:484-563 | every run makes at most one Join click |
| JoinRuns.ClicksOnlyWhenNeeded | src/app/cli/main.py:484-495 | a run clicks only when discovery showed no joined Group, and then only a joinable Group that no run has attempted |
| JoinOutcomes.SelectorNames | src/app/cli/main.py:588-595 | a selector names the one candidate with that identifier, Group or rank, and nothing when there is none or more |
| JoinOutcomes.LowestVolume | src/app/cli/main.py:571-587 | the automatic choice is the least activity, then rank, then Group; without activity, the only candidate |
| JoinOutcomes.JoinAchieves | src/app/cli/main.py:484-565 | a run left alone whose discovery is new, shows no joined Group and resolves to a free one makes exactly one click unless the browser stops or breaks before it, records exactly one transition with the outcome, and selects the Group when it is confirmed |
| JoinOutcomes.JoinedIsSelected | src/app/cli/main.py:484-568 | a discovery that resolves to a joined Group selects it and clicks nothing |
| JoinOutcomes.NothingToJoin | src/app/cli/main.py:484-512 | when nothing resolves or the Group is taken, only discovery is stored |
| JoinService.JoinRun.PrepareTarget | src/app/cli/main.py:484-565 | the imperative join branch performs exactly the steps of `JoinRuns.RunOps`, up to the first that fails |
| JoinService.TargetPreparationService.PlanOnce | src/app/targets/preparation.py:174-204 | reserves an available candidate once, or says why not and changes nothing |
| JoinService.TargetPreparationService.RecordOutcome | src/app/targets/preparation.py:206-245 | updates the planned row and unlocks a confirmed candidate |
| JoinService.TargetPreparationService.SelectOne | src/app/targets/preparation.py:254-304 | the one selection of a campaign, repeated without effect |
| JoinService.TargetPreparationService.AttemptedGroupIds | src/app/targets/preparation.py:247-252 | the Groups of all reservations so far |

## Left out

- Replay.ReplayAgrees: assumes what the APP adapter guarantees of a page (Posts inside the boundary, every Comment's Post on the same page) and a Group with no earlier Posts or Comments; the membership evidence check before a replay, exports and measurements are not modelled.
- ClockIndependence.EverythingConverges: assumes that the times stored rise from page to page and attempt to attempt and that earlier records are older; it is about one job with nothing else in between.
- Histories.EveryStoreCanBeCleaned: attempts and cleanups come one after another; two processes whose single writes interleave are not modelled, and records that other commands store are not either.
- CaptureWorkflow.LiveCaptureWorkflow.CapturePages: the error for a missing session profile is not modelled, because a live run's foreign key rules that out; neither is an unknown job.
- Replay.StoredHtmlReplay.ReplayJob: only the APP adapter's records; those of the other adapters are parsed differently.
- Checkpoints.CheckpointRoundTrip: JSON is a parameter with its inverse; a version written as a floating-point one is not modelled.
- BrowserResume.FreshOpensAlike: assumes the same limits and known Posts, a deterministic page, Posts that are only added at the end of the scan order, and an anchor for every identified Post.
- KnownPosts.ResumeKnowingMore: assumes in addition that captions have different tags and that no mark's value begins with `text:`, so that a key tells its action.
- BatchHistory.ChainsConverge: durations, resource measurements and the metrics report are not modelled.
- Gate.EveryInterleavingKept: captures that run without protection settings bypass the lock and are not modelled; one clock serves all processes.
- Only the APP adapter's stamping of capture and time is modelled; HTML extraction is a parameter, as are the other adapters' parsers.
- A hard crash leaves the job running: the workflow takes such a job up again, which is what the theorems are about, while the command-line resume accepts only interrupted or partial jobs.
- The times of attempts are not modelled, nor is the check that a raw path lies under the raw root.
- Two captures of the same Group by different jobs meet only through the stale guard; which job then fails is not modelled beyond the save rules.
- Retries, pacing delays, time limits, HTTP stop responses and foreign browser processes.
- Malformed receipt JSON: a receipt and a sidecar are typed values, and only their contents are checked.
- Nested articles, where removing one Post removes another, are not modelled; Posts of a page are separate.
- `add_url`, `add_csv`, fixture discovery, ranking of discovery results, the joined-candidate listing and the batch's target preparation, which would only add easy members.
- Metrics, comparison reports, exports, Markdown and the migration runner.
