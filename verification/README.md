# Transfer engines of the ModelScope Hub client: a verified model

This project models the four transfer engines of the client in Dafny and proves what they promise.

1. **Folder upload.** `CommitPlanner` cuts a scan into commits under an action cap and a byte budget; `BatchTracker`
   joins the concurrent upload workers to the committer that sends the commits in order; `UploadPipeline` is the
   protocol between them, as a state machine over all interleavings, with pre-validation of blobs and one owner per
   distinct content. `HubServer` is the server of a run, `UploadTracker` the tracker file that survives it,
   `CommitRecovery` the bisecting retry of rejected commits, `ReuploadRecovery` the three rounds that upload again.
   `PipelineRun` executes workers, batch tracker and committer under an arbitrary schedule, by the steps in
   `PipelineSteps`, and shows that every execution is a run of the protocol; `OwnerOrder` says when reading an owner's
   outcome without waiting is sound; `FolderUpload` is the whole run, `FolderHistory` runs one after another over one
   tracker file, and `HubContents` what the Hub holds after them. `CommitGovernor` paces the commits. The main
   results: no commit ever names a blob that is not stored, or goes beyond action cap and byte budget at whatever
   stage of a run; the plan has the fewest commits possible; bisection is exact, up to a whole run, in which exactly
   the files that a server rejects fail; every file of the scan is reported once; and for all sequences of scans,
   exactly when a rerun skips only what has landed, and exactly when the Hub holds the whole scan after every run that
   returns normally.
2. **Listing through a server that cuts its answers** (`RepoWalk`): within a fixed number of requests the walk
   recovers the whole tree or says that it may not have, and two requests for each directory are enough.
3. **Single-file download.** `ResumeDownload` is the single stream with range resume, `RangeParts` the concurrent
   ranged download and its merge, `FileDownload` the cache check and the retries after a failed validation,
   `RegionProbe` the search for a storage region that all threads share. Against an honest but faulty server the file
   on disk is always a prefix of the object and what is published is the object, and exactly which answers make a
   transfer succeed or fail is stated up to the whole download; against any server only content that passes the
   supplied checks is published.
4. **Report-mode download.** `ReportQueue` is the protocol of producer, bounded queue, consumer and workers,
   `DownloadLedger` the durable state with its exactly-once outcomes, `RecoveryBudgets` the retry budget of a file
   over many runs and crashes.

Servers are functions from the number of the request (and what was asked) to an answer, so a theorem about every such
function is about every server; an honest one is a predicate on the function. Cancellation, deadlines and the refusals
of a recovery budget are functions of the same kind. SHA-256 is an arbitrary function from bytes to digests. Ranges,
Content-Range, 206 and 416 follow sections 14.2, 14.4, 15.3.7 and 15.5.17 of RFC 9110. Code that changes state in
place is modelled by classes and methods with loops; protocols with threads are state machines whose steps are the
critical sections.

## What turned out differently

- The skip test looks up path, modification time and size (`_upload.py:521-522`, `1146`). It compares no digest, and the
  branch that was uploaded to is not recorded (`_upload.py:616-660`). So a committed file whose content was
  replaced under the same time and size, or which is now to go to another branch, is skipped, and the run returns
  normally although the content has never landed there (`SkipsWhatNeverLanded`, for all scans that contain such a pair;
  `SkippedHasLanded` for all others). A file that was only touched is uploaded again (`TouchedIsUploaded`). And the
  skip test does not look at the Hub: other content put at the path in between, or its deletion as an orphan by a run
  that synchronizes, is not repaired either (`ReturnedMeansHeld` and `UnstableScansLoseAFile`, which together are exact).
- The comment at `_upload.py:1254-1262` says that a duplicate never lies in an earlier batch than the owner of its
  content. That holds for files hashed ahead of the pipeline (`HashedFilesAreSafe`). A file whose hashing failed
  negotiates its own transfer and can lie in front of an owner. What the comment concludes, that the owner has finished
  when the batch is committed, holds in every run if and only if the owner lies in that batch or an earlier one
  (`OwnerFinishesFirstExactly`); otherwise there is a run in which the file is deferred although it succeeded and its
  content is stored (`LateOwnerDefersCopy`). Safety is not affected: a deferred file is uploaded again.
- A failed call of the file download can leave a rejected old copy without force (`RejectedCopyMayStay`): when it is
  stopped while that copy is read, before or under the lock, or while the lock is awaited. `DownloadFile` states this as
  an equivalence, and `UnstoppedCallsLeaveNothing` says which calls are safe.
- In report mode a model walk that fails on a level with several directories sets the shared event before its error is
  queued, so the error is lost, and unless it is an authentication error the report can be complete
  (`FailedWalkCanReportComplete`). `CompleteExactly` says what a complete report means for every listing.
- Quarantine does not only end by a reset or a valid copy: it also ends when the check of the cached copy exceeds its
  time budget, when the waiting job is cancelled, and when the job is left open, because all three end as pending
  (`QuarantineEndsExactly`).

## Model

| member | source | states |
|---|---|---|
| `CommitPlanner.EffectiveCap` | src/modelscope_hub/_upload.py:227-228 | the action cap a plan really uses is the greatest that is allowed: one action always is, and more are up to the ceiling of one commit request and the requested cap, or the number of files when no cap is requested |
| `CommitPlanner.GreedyStaysAhead` | src/modelscope_hub/_upload.py:244-256 | after any number of batches a maximal plan has taken at least as many files as any other valid plan |
| `CommitPlanner.MaximalIsMinimum` | src/modelscope_hub/_upload.py:244-256 | so a maximal plan has the fewest batches of all order-preserving partitions that respect the cap and, except for single files, the byte budget |
| `CommitPlanner.GreedyBatches` | src/modelscope_hub/_upload.py:244-256 | the first pass yields a valid plan whose every batch could not take one more file |
| `CommitPlanner.BatchFits` | src/modelscope_hub/_upload.py:263-265 | the test of the second pass accepts exactly the candidates within the cap and the byte budget |
| `CommitPlanner.RebalanceTail` | src/modelscope_hub/_upload.py:258-268 | the second pass keeps validity and the number of batches, touches nothing unless the last batch is less than a quarter of its predecessor, and leaves such a tail only when no even split fits |
| `CommitPlanner.PlanCommitBatches` | src/modelscope_hub/_upload.py:209-270 | the returned counts are those of a valid plan, no valid plan has fewer batches, and an empty input has none |
| `CommitPlanner.CountsTile` | src/modelscope_hub/_upload.py:266-270 | the counts of a plan are positive and add up to the number of files |
| `CommitPlanner.AdaptiveBatchSize` | src/modelscope_hub/_upload.py:180-191 | the adaptive target is the greatest that is allowed: one always is, and more are up to the file count, the ceiling and the operation limit, if there is one |
| `CommitPlanner.EstimateCountsWhatIsSent` | src/modelscope_hub/_upload.py:199-206 | the estimate of an operation counts the bytes of its path, the digits of its size as it is written, and the content in base64, or a pointer for an LFS file |
| `BatchTracking.BatchTracker.constructor` | src/modelscope_hub/_upload.py:738-766 | empty planned batches are dropped, a short plan gets the remainder as one more batch, and the index and range maps are inverse to each other |
| `BatchTracking.BatchTracker.BatchIndex` | src/modelscope_hub/_upload.py:776-777 | the batch of a file is the only batch whose range contains it |
| `BatchTracking.BatchTracker.BatchRange` | src/modelscope_hub/_upload.py:771-774 | the range of a batch holds exactly the files that the index assigns to it |
| `BatchTracking.BatchTracker.RecordOutcome` | src/modelscope_hub/_upload.py:779-791 | a report is added to the batch that owns the file, and the invariant that ties every batch event to its counts is kept |
| `BatchTracking.BatchTracker.WaitForBatch` | src/modelscope_hub/_upload.py:800-806 | the committer receives the successes and failures of the batch in arrival order, and with one report per file every file of the batch has reported |
| `BatchTracking.CompleteIffAllReported` | src/modelscope_hub/_upload.py:808-810 | with one report per file the counting test holds exactly when every file of the batch has reported, so the committer neither wakes early nor waits for a file that has reported |
| `BatchTracking.AllReportedWakesEverything` | src/modelscope_hub/_upload.py:738-766 | once every file has reported, all batch events are set exactly if the plan promises no more files than there are |
| `UploadPipeline.ValidateBlobs` | src/modelscope_hub/_upload.py:2139-2172 | group answers are merged; a failed group leaves no entry |
| `UploadPipeline.ExistsIsStored` | src/modelscope_hub/_upload.py:2128-2137 | with truthful answers, an entry that says "already stored" names a stored blob |
| `UploadPipeline.ElectOwners` | src/modelscope_hub/_upload.py:1263-1281 | the loop computes the owners, and marks as ready exactly the hashed blobs that are known to be stored |
| `UploadPipeline.OwnersAreFirst` | src/modelscope_hub/_upload.py:1275-1281 | an owner is a candidate that holds its blob, and no earlier candidate holds it |
| `UploadPipeline.OneTransferPerBlob` | src/modelscope_hub/_upload.py:1484-1492 | a blob that pre-validation asks for is transferred by exactly one worker, which is no later than any file with that content |
| `UploadPipeline.NothingIsUploadedNeedlessly` | src/modelscope_hub/_upload.py:1263-1281 | when every group is answered with exactly the blobs that are missing, a hashed file whose blob is stored reuses it, the first file with a missing blob transfers it, and every other copy waits for that one |
| `UploadPipeline.StepKeepsInv` | src/modelscope_hub/_upload.py:1307-1338 | every step of every worker and of the committer keeps the invariant that relates store, ready flags, reports and the four result lists |
| `UploadPipeline.OwnerHasReported` | src/modelscope_hub/_upload.py:1254-1262 | when a batch is complete, the owner of every blob that one of its hashed files holds has finished |
| `UploadPipeline.PickedIsBacked` | src/modelscope_hub/_upload.py:1517-1547 | the operations picked for a commit name stored blobs only |
| `UploadPipeline.SentCommitsAreBacked` | src/modelscope_hub/_upload.py:1501-1571 | in every interleaving each LFS operation of each commit that is sent names a blob stored at that moment, and so does every commit set aside for commit-only recovery |
| `UploadPipeline.HeldBackIffOwnerFailed` | src/modelscope_hub/_upload.py:1512-1531 | a hashed file is deferred exactly when the transfer by the owner of its content failed |
| `OwnerOrder.OwnerFinishesFirstExactly` | src/modelscope_hub/_upload.py:1254-1262 | for an LFS file of a batch whose content has an owner: in every run the owner has finished when the batch is taken, and the file is deferred only for a failed transfer, if and only if the owner lies in that batch or an earlier one |
| `OwnerOrder.LateOwnerDefersCopy` | src/modelscope_hub/_upload.py:1512-1531 | for every configuration in which the owner lies in a later batch: a run in which the file is deferred although its own transfer succeeded, its content is stored and the owner has not begun |
| `OwnerOrder.HashedFilesAreSafe` | src/modelscope_hub/_upload.py:1254-1262 | a file that was hashed ahead always has its owner in its own batch or an earlier one |
| `OwnerOrder.UnhashedCopyMayBeHeldBack` | src/modelscope_hub/_upload.py:1254-1262 | there are configurations with a late owner: two files with the same content, of which the first could not be hashed ahead |
| `UploadPipeline.DoneSettlesEveryFile` | src/modelscope_hub/_upload.py:1494-1635 | when the pipeline is over every pending file is in exactly one of committed, retry upload, retry commit and terminal, once |
| `UploadPipeline.SomeStepIsEnabled` | src/modelscope_hub/_upload.py:1473-1501 | until the pipeline is over some worker or the committer can take a step |
| `UploadPipeline.StepsDecreaseRemaining` | src/modelscope_hub/_upload.py:1473-1501 | every step decreases what is left to do |
| `UploadPipeline.RunsAreBounded` | src/modelscope_hub/_upload.py:1473-1501 | no run has more than three steps per file and two per batch |
| `HubServing.HubServer.UploadSingleFile` | src/modelscope_hub/_upload.py:1918-1994 | a success means that the blob of an LFS file is stored; only that blob can be added; another attempt follows a transient failure and nothing else, as long as one is left; a final failure is reported with its own error, and used up attempts as transient |
| `UploadTracking.UploadTracker.PutHash` | src/modelscope_hub/_upload.py:536-543 | the digest is stored under path, time and size, where this run and later ones read it back; other keys keep theirs, and no status changes |
| `UploadTracking.UploadTracker.BeginAttempt` | src/modelscope_hub/_upload.py:557-567 | a new attempt forgets an old failure, and no commit and no digest |
| `UploadTracking.UploadTracker.MarkUploaded` | src/modelscope_hub/_upload.py:569-575 | exactly the known keys of the list become uploaded |
| `UploadTracking.UploadTracker.MarkCommittedBatch` | src/modelscope_hub/_upload.py:577-584 | exactly the known keys of the batch become committed |
| `CommitRecovery.RecoverPartitions` | src/modelscope_hub/_upload.py:2387-2437 | against any server bisection commits or gives up every file of the batch, each once |
| `CommitRecovery.RecoverCalls` | src/modelscope_hub/_upload.py:2387-2437 | against any server it sends between one and 2n - 1 commits for n files |
| `CommitRecovery.RecoverSeparates` | src/modelscope_hub/_upload.py:2387-2437 | if the server rejects by policy exactly the batches with a bad file, exactly the good files are committed and exactly the bad ones given up, in order |
| `CommitRecovery.RecoverCost` | src/modelscope_hub/_upload.py:2387-2437 | against such a server the commits number at most one plus two per bad file and halving level, and one more when a rejected batch is split before its first attempt |
| `CommitRecovery.GivenUpWasRefused` | src/modelscope_hub/_upload.py:2415-2428 | against any server every file that is given up was in a commit that was refused, with the error it is given up with, and for a policy error the commit held that file alone |
| `CommitRecovery.CommitOnly.CommitBatch` | src/modelscope_hub/_upload.py:2387-2437 | the recursive procedure computes the specified outcome, keeps every commit free of dangling pointers and within action cap and byte budget, marks committed only what landed, and leaves all it committed marked, and other files alone |
| `CommitRecovery.PlanResultBatches` | src/modelscope_hub/_upload.py:2337-2356 | replanning cuts the results into consecutive batches that put together are the results, each non-empty, within the action cap and, unless it is a single file, within the byte budget |
| `CommitRecovery.RetryFailedCommits` | src/modelscope_hub/_upload.py:2371-2447 | every file of the failed batches ends committed or given up, once, and given up only if a commit with it was refused; a policy server loses exactly its bad files; nothing is given up when the commits land; at most two commits are sent per file, and against a policy server at most two per planned part and two per bad file and halving level; no blob is uploaded; the tracker remembers what was committed |
| `ReuploadRecovery.UploadRound` | src/modelscope_hub/_upload.py:2571-2631 | a round starts one upload per file, splits its input into successes and failures, and each success is stored |
| `ReuploadRecovery.CommitRound` | src/modelscope_hub/_upload.py:2633-2669 | what a round uploaded is committed or given up, never queued for another upload; it is given up only if a commit with it was refused, and every commit is within action cap and byte budget |
| `ReuploadRecovery.SplitRetryable` | src/modelscope_hub/_upload.py:2513-2537 | failures are told apart by their category |
| `ReuploadRecovery.SortCounts` | src/modelscope_hub/_upload.py:2671-2708 | a file that goes into another round has failed once more, so nothing survives a third round |
| `ReuploadRecovery.SortIsExact` | src/modelscope_hub/_upload.py:2671-2708 | with distinct paths that have failed equally often, a failure is final if and only if its error cannot be retried or it is the third one, and every other one goes into another round |
| `ReuploadRecovery.SortSettles` | src/modelscope_hub/_upload.py:2671-2708 | sorting the failures of a round loses and repeats none |
| `ReuploadRecovery.ThreeRounds` | src/modelscope_hub/_upload.py:2560-2733 | three rounds settle every file: committed or given up, counted, none left over; with distinct paths a file is given up only for an error that cannot be retried, after exactly three uploads, or for a refused commit; no upload is started more than three times per occurrence; nothing is given up when uploads and commits succeed, and only refused files when uploads do |
| `ReuploadRecovery.RetryFailedFilesReact` | src/modelscope_hub/_upload.py:2507-2733 | every input ends committed or permanently failed, counted; final errors are never uploaded again; with distinct paths a file that could be retried fails only for a final error, after three uploads, or for a refused commit; when uploads and commits succeed exactly the final errors fail; committed files have landed and the tracker remembers them |
| `ReuploadRecovery.RetryFailedSimple` | src/modelscope_hub/_upload.py:2753-2825 | the same partition for the plain rounds, with nothing lost when uploads and commits succeed |
| `FolderUpload.SplitPending` | src/modelscope_hub/_upload.py:1141-1157 | a file is skipped if and only if the tracker calls its path, time and size committed, whatever its content; the order is kept and no key loses that mark |
| `FolderUpload.PreparePipeline` | src/modelscope_hub/_upload.py:1159-1281 | planning, pre-validation (each distinct hashed content asked for once) and election establish everything the safety argument of the pipeline needs; every planned batch is within action cap and byte budget, and no plan has fewer |
| `PipelineSteps.SetAside` | src/modelscope_hub/_upload.py:1517-1547 | the filter of the committer splits the results of a batch as the protocol does |
| `PipelineSteps.ConsumeBatch` | src/modelscope_hub/_upload.py:1501-1548 | taking a complete batch from the tracker is the Collect step of the protocol, and the handover keeps matching its lists |
| `PipelineSteps.CommitFiles` | src/modelscope_hub/_upload.py:1549-1628 | one commit: no dangling pointer, within the limits; its files are marked committed if it landed, uploaded if it may be retried and failed if not |
| `PipelineSteps.CommitBatchOf` | src/modelscope_hub/_upload.py:1557-1629 | sending the commit of a batch is the Send step of the protocol: it is backed, its files are handed over by the reply, as final exactly if the refusal is final, and what is handed over as committed has landed |
| `PipelineSteps.OpsAreNew` | src/modelscope_hub/_upload.py:1501-1571 | in every run the files of a commit that goes out have finished, are not committed already, and none is in the commit twice |
| `PipelineSteps.OpsAllowed` | src/modelscope_hub/_upload.py:1501-1571 | in every run the commit that goes out for a batch of a plan within the limits is itself within action cap and byte budget |
| `PipelineRun.Pipeline.Collect` | src/modelscope_hub/_upload.py:1501-1548 | the committer takes the next batch as one step of a run of the protocol and keeps everything that ties protocol, server, tracker and batch tracker together |
| `PipelineRun.Pipeline.Send` | src/modelscope_hub/_upload.py:1557-1629 | so does the commit that follows; nothing that has landed is lost; in every run final failures are those of final refusals and batches kept for commit-only recovery those of transient ones |
| `PipelineRun.Pipeline.PickStep` | src/modelscope_hub/_upload.py:1473-1501 | until the last batch is consumed the executing code always finds something that a worker or the committer can do |
| `PipelineRun.Pipeline.Turn` | src/modelscope_hub/_upload.py:1473-1635 | whatever the schedule asks for is done when it can be, so a worker may move between the building of a commit and its departure; otherwise a ready commit goes out, or some other step is found; every turn is a step of the run; it aborts exactly when a commit has failed that makes too many in a row |
| `PipelineRun.Pipeline.Run` | src/modelscope_hub/_upload.py:1473-1635 | under every schedule the executed pipeline is a run of the protocol; it ends with the last batch, or aborted exactly when too many commits in a row have failed; tracker and handover call committed only what has landed; if every refusal is transient nothing fails for good |
| `FolderUpload.FinishUpload` | src/modelscope_hub/_upload.py:1673-1719 | whichever recovery runs, the handover is split into committed and failed files, and the run raises exactly when some file failed; when uploads and commits succeed only the failures that were final before are left; no commit is forgotten |
| `PipelineSteps.HandoverHoldsAll` | src/modelscope_hub/_upload.py:1494-1635 | when the pipeline is over its handover holds each pending file once |
| `PipelineSteps.HandoverIsBacked` | src/modelscope_hub/_upload.py:1619-1620 | the commits handed to commit-only recovery have all their blobs stored |
| `FolderUpload.RunPipeline` | src/modelscope_hub/_upload.py:1159-1635 | planning, hashing ahead, pre-validation, election and the concurrent pipeline hand over each pending file once, with only landed files as committed and only backed batches for commit-only recovery |
| `FolderUpload.CompleteRun` | src/modelscope_hub/_upload.py:1141-1784 | for any scan, limits, schedule, truthful server and tracker left by earlier runs: exactly the files whose keys are committed are skipped, and some file of each such key has been committed; unless the run ends without a report, every scanned file is skipped, committed or failed, counted; it returns normally if and only if none failed; only pending files land; what is committed has landed and, paths being distinct, its key is remembered by the tracker, which forgets no earlier commit; no commit named a missing blob or went beyond action cap and byte budget; it is given up only after too many refusals in a row; and if uploads succeed and the pipeline meets only refusals that may be retried, a file fails only if a later commit with it was refused, so none does when they land, and against a server that rejects by policy exactly the commits with a bad file, exactly the bad files fail |
| `FolderUpload.GoodDayIsCurable` | src/modelscope_hub/_upload.py:1141-1784 | on days on which everything succeeds no run is given up or raises |
| `FolderUpload.RejectionSeparates` | src/modelscope_hub/_upload.py:2387-2437 | what was refused alone by such a server is bad, and what has landed on it is not |
| `FolderUpload.ReportIsAPartition` | src/modelscope_hub/_upload.py:1752-1784 | with distinct paths the three groups are disjoint and cover the scan |
| `FolderHistory.UploadOnce` | src/modelscope_hub/_upload.py:1123-1784 | one run with its own server, from the tracker file as the run before left it: its effect on keys, landed files and orphans, and what a good or a bad day makes of it |
| `FolderHistory.UploadRepeatedly` | src/modelscope_hub/_upload.py:1123-1784 | any number of runs over one tracker file, whatever the folder holds each time, to whatever target and on whatever days: each has the stated effect, digests come from scans with the same key, and no commit of any run names a missing blob or goes beyond action cap and byte budget |
| `HubContents.SkippedIffKnown` | src/modelscope_hub/_upload.py:1141-1157 | in every history a file of a scan is skipped if and only if its key was called committed when the run started |
| `HubContents.KnownHasLanded` | src/modelscope_hub/_upload.py:577-584 | in every history a committed key is that of a file that has landed in an earlier run |
| `HubContents.CommittedIsSkipped` | src/modelscope_hub/_upload.py:1775-1784 | the promise of the error message: what a run reports as committed is skipped by every later run as long as its path, time and size stay |
| `HubContents.TouchedIsUploaded` | src/modelscope_hub/_upload.py:521-522 | a file whose key no earlier scan had is never skipped, and is committed again by a run that returns normally, even if only its time is new |
| `HubContents.SkippedHasLanded` | src/modelscope_hub/_upload.py:1141-1157 | if equal keys mean equal contents and equal targets in all scans, the content of every skipped file has landed at its target in an earlier run |
| `HubContents.SkipsWhatNeverLanded` | src/modelscope_hub/_upload.py:1141-1157 | and only then: for all scans with two files of one key but other contents or targets there are days on which a run skips a file that has never landed there, and returns normally |
| `HubContents.ReturnedMeansHeld` | src/modelscope_hub/_upload.py:1721-1784 | if moreover no scan puts other content at the place of such a file, or deletes it as an orphan, between two scans that have it, then after every run that returns normally the Hub holds its whole scan, skipped files included |
| `HubContents.UnstableScansLoseAFile` | src/modelscope_hub/_upload.py:1721-1784 | and only then: for all other scans there are days on which a run returns normally and the Hub does not hold a file of its scan |
| `CommitGovernance.WindowIsExact` | src/modelscope_hub/_upload.py:841-842 | the pruned list shows the same window as the history of all grants |
| `CommitGovernance.CommitRateGovernor.TryAcquire` | src/modelscope_hub/_upload.py:839-846 | a slot is granted exactly when fewer than N were granted in the last 3600 seconds; grant k + N stays at least 3600 s after grant k; a refused caller learns when a slot is certain |
| `CommitGovernance.CommitRateGovernor.Acquire` | src/modelscope_hub/_upload.py:833-853 | a lone caller waits exactly when the window is full, once, and no longer than the window and the minimum sleep |
| `RepoWalk.FlatTruncates` | src/modelscope_hub/_legacy_api.py:647-653 | a directory with too many direct entries brings every listing above it to the cap |
| `RepoWalk.StuckMeansFlat` | src/modelscope_hub/_legacy_api.py:664-669 | the two reasons for calling a directory oversized both mean that it cannot be listed in full |
| `RepoWalk.TreeWalk.FetchLevel` | src/modelscope_hub/_legacy_api.py:581-635 | a level is clamped to the remaining budget: exactly the directories that fit are asked for, the walk is marked exactly when some are left over, and it fails exactly when a request fails |
| `RepoWalk.TreeWalk.SplitLevel` | src/modelscope_hub/_legacy_api.py:655-673 | the next level is exactly the sub-directories seen, and exactly the stuck directories are remembered |
| `RepoWalk.SubtreesKeepAhead` | src/modelscope_hub/_legacy_api.py:642-653 | subtree listings settle everything below the directories whose listing was short |
| `RepoWalk.SplitKeepsAhead` | src/modelscope_hub/_legacy_api.py:655-673 | splitting leads to everything that is still missing |
| `RepoWalk.WalkRepoFiles` | src/modelscope_hub/_legacy_api.py:535-701 | the walk ends within the request budget against any server, and raises exactly when a request fails; against a truncating server nothing foreign is collected, a result not marked incomplete holds all paths under the root, and it is marked exactly when directories are left over at the end of the budget or one is too full to list; no directory is listed more than twice, so a budget of two requests each leaves nothing over |
| `RepoWalk.ListRepoFiles` | src/modelscope_hub/_legacy_api.py:486-502 | it raises exactly when a request fails; an unmarked listing is exactly the uncapped one; a flat listing is marked exactly when the directory is too full, and a recursive one with two requests for each directory exactly when some directory is |
| `DownloadTypes.ParseContentRange` | src/modelscope_hub/_download.py:299-308 | a field is used exactly when it can describe a part of some object, and then with its own numbers |
| `ResumeDownload.WriteBody` | src/modelscope_hub/_download.py:1992-2007 | accepted chunks are appended in order, the digest is fed the same bytes, and writing stops exactly at the chunk that would outgrow the listed size |
| `ResumeDownload.Offset` | src/modelscope_hub/_download.py:1941-1963 | a body fits nowhere exactly when the response claims to be a part but not the one asked for; it is appended exactly when it names the resumed byte; otherwise it starts over at byte 0 |
| `ResumeDownload.BodyContinues` | src/modelscope_hub/_download.py:1941-1963 | honest bytes put where they belong continue a prefix of the object |
| `ResumeDownload.Receive` | src/modelscope_hub/_download.py:1935-2022 | the partial file and the error after one response, case by case |
| `ResumeDownload.ReceivedKeepsPrefix` | src/modelscope_hub/_download.py:1935-2022 | whatever happens to an honest response, the partial file stays a prefix of the object |
| `ResumeDownload.ReceivedMakesProgress` | src/modelscope_hub/_download.py:2009-2022 | a repairable response ends in a transient error or with the whole object, and with the object if it delivered it |
| `ResumeDownload.Finish` | src/modelscope_hub/_download.py:381-401 | the rename happens exactly when the digest is right and nothing stops it, and is judged so before anything is moved; otherwise both files stay as they were |
| `ResumeDownload.Pass` | src/modelscope_hub/_download.py:1890-2034 | one pass of the loop: only what is missing is asked for; the prefix, the checks on publication and progress; and exactly why it fails, with the error of the answer |
| `ResumeDownload.AfterFailure` | src/modelscope_hub/_download.py:350-378 | another request is made only for transient errors with retries left, and always then unless the caller stops or the budget refuses |
| `ResumeDownload.DownloadStream` | src/modelscope_hub/_download.py:1889-2060 | at most retries + 1 requests; only content passing every check is published; against an honest server the partial file is a prefix and, with the right size, the published file is the object; one delivering answer in time is enough; a failure is what the last failed pass leads to, and every pass before it was one that is tried again |
| `ResumeDownload.RefusalsKeepTheirClass` | src/modelscope_hub/_download.py:350-378 | an undisturbed download whose last request was refused ends with that very error if it is final, and otherwise only when all retries are used up, as a network error unless the Hub answered |
| `RangeParts.SplitParts` | src/modelscope_hub/_download.py:539-576 | the loop computes the parts of the file, which tile it |
| `RangeParts.PartIsEven` | src/modelscope_hub/_download.py:539-576 | all parts but the last have the part size and none is larger; part i starts at i times the part size |
| `RangeParts.TilesCoverOnce` | src/modelscope_hub/_download.py:539-576 | every byte of the file lies in exactly one part, and the parts are in order |
| `RangeParts.StepKeepsInv` | src/modelscope_hub/_download.py:438-511 | each step keeps positions and lengths in line, and received bytes are never given up |
| `RangeParts.HonestStepKeepsUsable` | src/modelscope_hub/_download.py:438-511 | against an honest server each part file keeps holding its slice of the object |
| `RangeParts.RequestsAreBounded` | src/modelscope_hub/_download.py:430-511 | in any run against any server a worker makes at most retries + 1 requests |
| `RangeParts.DeliveringAnswerFinishes` | src/modelscope_hub/_download.py:438-499 | from whatever usable bytes are there, one answer with exactly the missing range completes the part |
| `RangeParts.FinishedRunHasSize` | src/modelscope_hub/_download.py:602-619 | in any interleaving against any server, when all workers finish, all part files are there and merge to the listed size |
| `RangeParts.HonestRunMergesToObject` | src/modelscope_hub/_download.py:514-628 | in any interleaving with drops and resumes against an honest server, the merged file is the prefix of the listed size of the object, and so the object |
| `RangeParts.RunPool` | src/modelscope_hub/_download.py:577-600 | the pool runs from the part files that are there, in any order and with any answers, to the end its moves determine; against an honest server fitting part files stay fitting, and complete ones merge to the object |
| `RangeParts.PoolFailsExactly` | src/modelscope_hub/_download.py:577-600 | the pool succeeds if and only if all workers finish; otherwise it fails with the error of the worker that was lost first, or as stopped when none was |
| `RangeParts.PoolIsARun` | src/modelscope_hub/_download.py:577-600 | what the pool does is a run of the workers, so what holds of every run holds of it |
| `RangeParts.BusyPoolEnds` | src/modelscope_hub/_download.py:577-600 | whatever is answered, after at most (retries + 1) * (size + 4 * parts) + 1 moves every worker has ended, and the pool has succeeded if and only if none was lost |
| `RangeParts.SuppliedPoolSucceeds` | src/modelscope_hub/_download.py:438-600 | a pool whose requests are answered with what they ask for, or fail in ways that the retries of their worker repair, succeeds, in every order of its moves and from whatever part files are there |
| `RangeParts.MergeParts` | src/modelscope_hub/_download.py:602-628 | the merge is published if and only if nothing stops it and it passes size and hash, and it is the parts in order; a rejected merge leaves nothing, a stopped one a prefix; parts are only removed |
| `RangeParts.ParallelDownload` | src/modelscope_hub/_download.py:582-628 | a failed pool leaves the target alone and removes the parts exactly when they cannot be resumed |
| `FileDownload.CacheHit` | src/modelscope_hub/_download.py:1416-1445 | the check is interrupted exactly when it is stopped while there is something to read for the digest; otherwise it is a hit exactly when the target exists and passes the supplied checks |
| `FileDownload.Transfer` | src/modelscope_hub/_download.py:1843-2060 | ranges or one stream, with the single stream as fallback when ranges are ignored: it never fails because they were; the target changes only to accepted content; against an honest server the object is published from a partial file that is a prefix of it and part files that fit, and what is left is again of this kind; a transfer whose workers finish, or whose stream gets a delivering answer in time, publishes the object, and any other fails as its workers, its merge or its stream failed |
| `FileDownload.TransferUntilValid` | src/modelscope_hub/_download.py:1026-1080 | at most four transfers (three under a recovery budget); a final hash or size error comes only after all its retries, with nothing left behind; the verdict is exactly what the failed transfers lead to; a transfer that is served, whatever was rejected before it, ends the download with the object |
| `FileDownload.RejectedOnceIsRepeated` | src/modelscope_hub/_download.py:1045-1078 | content that was rejected once is transferred again unless the caller stops or the budget refuses, so with one failure the second transfer has published |
| `FileDownload.CheckCache` | src/modelscope_hub/_download.py:1010-1024 | what the copies found before and under the lock decide, and what is left of them |
| `FileDownload.DownloadFile` | src/modelscope_hub/_download.py:1010-1082 | against any server the target ends absent, as the copy that was there or with accepted content; without force a failure leaves a copy if and only if the call was stopped before it had judged that copy; a valid copy is never downloaded again; any other call ends as its transfers do, so with the object as soon as one of them is served; honest servers yield the object if the partial file that was there is a prefix of it and the part files fit, and every exit leaves them so for the next call |
| `FileDownload.RejectedCopyMayStay` | src/modelscope_hub/_download.py:1010-1024 | the failing inputs: any non-empty copy of the listed size with a wrong digest stays when the call is stopped while reading it or waiting for the lock |
| `FileDownload.UnstoppedCallsLeaveNothing` | src/modelscope_hub/_download.py:1021-1024 | no failure leaves a copy behind, whatever is there, exactly when a call is not stopped at these three points |
| `DownloadLedger.DownloadState.constructor` | src/modelscope_hub/_download_state.py:72-126 | a run starts from the tracker of any earlier run; downloads under way when their process died are deferred |
| `DownloadLedger.DownloadState.Select` | src/modelscope_hub/_download_state.py:178-196 | a path is selected once; a record about other content is forgotten |
| `DownloadLedger.DownloadState.Begin` | src/modelscope_hub/_download_state.py:198-205 | a begun file stays open and keeps its budget unless it is reset; no other file changes; if the process dies now a later run finds it deferred |
| `DownloadLedger.DownloadState.Budget` | src/modelscope_hub/_download_state.py:207-212 | the used budget is on disk when the call returns |
| `DownloadLedger.DownloadState.Finish` | src/modelscope_hub/_download_state.py:214-235 | the first call for an open path decides its only outcome, with the given status and error and the budget it has used; later calls change nothing; only trouble is remembered |
| `DownloadLedger.NextRunStartsFrom` | src/modelscope_hub/_download_state.py:214-235 | what the next run knows of a finished file: its used budget is forgotten if and only if it was verified or its content changed, and it is quarantined if and only if it failed or was deferred |
| `DownloadLedger.LedgerNext` | src/modelscope_hub/_download_state.py:214-235 | settling an open path keeps every selected path either open or with one result, and the counters exact |
| `DownloadLedger.LedgerAddsUp` | src/modelscope_hub/_download_state.py:237-245 | when nothing is open the four outcomes add up to the number of distinct selected paths |
| `DownloadLedger.DownloadState.MakeReport` | src/modelscope_hub/_download_state.py:237-252 | open files end as pending, earlier outcomes stay, the totals add up, and the report is complete if and only if the run was not cancelled, the listing was whole, no global error occurred and every file is verified |
| `RecoveryBudgets.RecoveryBudget.Retry` | src/modelscope_hub/_download_control.py:44-56 | a retry is granted exactly within the three limits; elapsed time is always charged, delay and count only when granted, and the count is on disk before the caller goes on |
| `RecoveryBudgets.EventKeepsInv` | src/modelscope_hub/_download_state.py:72-126 | starts, selections, retries, kills between and inside writes, and outcomes keep the budget accounted for |
| `RecoveryBudgets.AnyTrackerIsAStart` | src/modelscope_hub/_download_state.py:72-126 | whatever tracker file a run finds, the accounting may start from it |
| `RecoveryBudgets.BudgetIsDurable` | src/modelscope_hub/_download_control.py:44-56 | over all runs and crashes the retries granted since the last verification or reset never exceed the limit, nor their delays the time limit |
| `RecoveryBudgets.QuarantineHolds` | src/modelscope_hub/_resilient_download.py:228-256 | over any number of runs a quarantined file is not downloaded again as long as it is not reset and does not end as verified or pending |
| `RecoveryBudgets.ReleasedFileReopens` | src/modelscope_hub/_resilient_download.py:277-372 | from every state with a quarantined file selected: if it ends as pending or verified, the next run downloads it without a reset |
| `RecoveryBudgets.QuarantineEndsExactly` | src/modelscope_hub/_resilient_download.py:228-372 | without a reset the quarantine is over if and only if the copy was valid, or the check of the copy ran out of time, or the job was cancelled in the queue, or it was left open |
| `ReportQueue.IterDatasetPages` | src/modelscope_hub/_legacy_api.py:757-812 | listing a root stops at the first short page, at the second failure in a row, or at the budget with an error, and no page after that is asked for |
| `ReportQueue.ErrorFreeListingIsWhole` | src/modelscope_hub/_legacy_api.py:757-812 | a listing without an error holds every page up to the first short one |
| `ReportQueue.StepKeepsInv` | src/modelscope_hub/_resilient_download.py:153-222 | every step of producer, consumer and workers keeps: nothing lost in the queue, the loop test learnt in order, every item marked, every path tracked |
| `ReportQueue.ListRoots` | src/modelscope_hub/_resilient_download.py:192-206 | a dataset listing is the listings of all roots in order |
| `ReportQueue.NormalExitTookEverything` | src/modelscope_hub/_resilient_download.py:303-372 | when the consumer leaves by its own test it has taken every item, except for the error of a walk that set the event; every selected path has an outcome; a failed authentication of the listing is noted |
| `ReportQueue.OutcomesAreEarned` | src/modelscope_hub/_resilient_download.py:277-372 | over every run, the outcome of a path is the status with which its job ended, or failed if it was first listed without usable metadata, and nothing else |
| `ReportQueue.VerifiedIffEarned` | src/modelscope_hub/_resilient_download.py:277-372 | after a normal exit all selected paths are verified if and only if every job ended so and no entry was rejected |
| `ReportQueue.CompleteExactly` | src/modelscope_hub/_resilient_download.py:303-372 | after such an exit the report is complete if and only if every job ended as verified, no entry was rejected, and no item was a listing error, or the only one came last, not from authentication, out of a walk that set the event |
| `ReportQueue.CompleteIsSound` | src/modelscope_hub/_resilient_download.py:303-372 | a complete report saw no listing error if and only if no walk has failed, and the job of every file of the listing ended as verified |
| `ReportQueue.CompleteIsTheLedgers` | src/modelscope_hub/_download_state.py:246-252 | the complete report of the protocol is the complete report of the ledger |
| `ReportQueue.CanFinish` | src/modelscope_hub/_resilient_download.py:303-372 | from every state that can be reached the consumer can still leave without being interrupted, and by its own test unless a raising job was already there |
| `ReportQueue.RunsAreBounded` | src/modelscope_hub/_resilient_download.py:153-372 | in every interleaving a run has at most five steps per listed item, and three, that are more than a look of the consumer |
| `ReportQueue.IdleRunsEnd` | src/modelscope_hub/_resilient_download.py:303-304 | once the producer is done and queue and pool are empty, every run ends within five steps, and the consumer has left |
| `ReportQueue.CompleteDatasetReport` | src/modelscope_hub/_resilient_download.py:192-206 | a complete dataset report means that under every listing root every page was answered and the job of every file on it ended as verified |
| `ReportQueue.NothingQueuedAfterStop` | src/modelscope_hub/_resilient_download.py:170-176 | once the shared event is set nothing more reaches the queue |
| `ReportQueue.FailedWalkCanReportComplete` | src/modelscope_hub/_legacy_api.py:618-622 | the bad run of the model listing: a failed level with several directories sets the shared event, its error is dropped, and the empty download is reported complete |
| `RegionProbe.RegionRoutes.Enter` | src/modelscope_hub/_download.py:1768-1780 | a cached answer is an internal one; otherwise the caller joins a probe whose event is unset, or owns the route under an event nobody else has |
| `RegionProbe.RegionRoutes.Store` | src/modelscope_hub/_download.py:1797-1801 | an internal resolution answers every later caller of its route, anything else answers nobody, and no other route notices |
| `RegionProbe.RegionRoutes.Release` | src/modelscope_hub/_download.py:1802-1806 | the event is set in the moment the route stops being in flight: nobody can join a probe that is over, and no other probe notices |
| `RegionProbe.ProbingIsSingleFlight` | src/modelscope_hub/_download.py:1767-1816 | in every interleaving at most one thread probes a route, an entry is in flight exactly while one does and its event is unset, and only internal resolutions are cached |
| `RegionProbe.WaitersAreCovered` | src/modelscope_hub/_download.py:1782-1786 | a waiting thread can wake or some thread is still probing under its event |
| `RegionProbe.ReleaseWakesForGood` | src/modelscope_hub/_download.py:1782-1806 | in every continuation in which a waiting thread does not move, its prober keeps probing until it releases the route, and from then on the waiting thread can wake |
| `RegionProbe.SomeThreadCanGoOn` | src/modelscope_hub/_download.py:1767-1816 | as long as some thread is inside, some thread can go on without being cancelled |
| `RegionProbe.LookingThreadProbesOnlyAlone` | src/modelscope_hub/_download.py:1768-1816 | a thread that looks takes the cached answer, or becomes the only prober exactly when nobody probes |

## Left out

- DownloadStream: with an unknown size and an answer without Content-Length a body cut short by a clean close cannot be told from a whole one, so the object is promised there only for answers that announce their length; the prefix property holds for all honest answers.
- CompleteRun: for a run that ends without a report, after too many failed commits in a row or for an empty scan, only what is skipped, committed and landed is stated; the workers that are still busy then are not followed. A read error while operations are built inside the pipeline is not modelled; inside recovery it counts as a refused commit.
- UploadRepeatedly: runs with the tracker file switched off, which skip nothing, a process that dies in the middle of a run, whose last marks may be missing from the tracker file, and trackers in older formats are not modelled. All runs are about one repository; a tracker of another one is ignored by the code.
- ReturnedMeansHeld: between the runs nobody else changes the repository. The deletion of orphans removes all files in its scope that have no local path, when its commit lands; a listing that fails or is cut short there is not modelled.
- SkipsWhatNeverLanded: the bad days need a configuration that retries failed files at all, which both recovery settings do by default; the same goes for UnstableScansLoseAFile.
- SeenAs: an LFS file whose cached digest is stale goes by that digest; whether the storage notices is up to the answers of the server, which do not depend on the bytes sent.
- SplitPending: a file that cannot be examined is uploaded by the code without a look at the tracker; files of the model always have a time and a size.
- CreateCommit: the retries inside `_commit_with_retry` are one reply of the server, which may have applied a commit whose answer was lost.
- CommitBatch: the order of files inside a commit of the pipeline is the order of arrival; the order in which a parallel recovery round finishes is arbitrary.
- SentCommitsAreBacked: local files are assumed not to change during a run, so a file keeps its size, mode and digest.
- BudgetIsDurable: it is about trackers whose writes succeed and files whose listed size and digest do not change, as the code warns when a write fails and drops the record when the metadata differ.
- DownloadFile: the file lock is one point at which another process may replace the target; what happens when the lock cannot be taken is not modelled beyond a stop.
- IterDatasetPages: a page is its entries or a failure; parsing of the payload is not part of this model.
- Validation of listed paths, glob patterns and the choice of listing roots: an item of the report queue is already classified.
- The integer form of the batch plan and `mark_file_skipped`, which the folder upload never uses.
- Concurrent listing inside one level of the walk; its requests are answered by number, so any answers are covered.
- Progress reporting, wire throttling, logging and the JSON layout of the trackers.
- Sockets, connection adapters, the watchdog thread and response headers used only for diagnostics.
- Archive download for skills, legacy cache lookup, snapshots of whole repositories, and the routing, credential and command-line layers.
