# Verification of the media engine

Dafny models and proofs for the media engine: uploads, workers, janitors and SSE readers that share a
PostgreSQL database, a file store and a NATS bus. `dafny verify dfyconfig.toml` checks the whole project.

## What is modelled

**The job lifecycle protocol** (`Protocol.dfy`) is one transition system. Its state has the job and artifact
rows and the published events of every job id, the set of stored files, the multiset of undelivered
`jobs.created` events, the phase and locals of every upload, worker run, sweep and stream, a clock that never
goes back, and history that nothing in the system reads. Every port call is one atomic step and ends with a
`Choice`: success, a fault, or, inside `Process`, an error or a panic of the processor. A faulty call has no
effect. Any number of processes interleave; events may be duplicated and lost. The processes are
`UploadSteps`, `WorkerSteps`, `JanitorSteps` and `StreamSteps`, one phase per port call of the Go code;
`Ports` is what a call does to one job's record. `Leads(a, steps, s)` is a run, `Reaches` a run from the empty
system. `JobView` is the invariant that ties the phase of each process to rows, files and events; `JobLocal`
and `JobInvariant` show that every step keeps it.

**The services as imperative code.** `Adapters.dfy` has the repository over its two tables, the bus and the
file store as classes; `WorkerService.dfy`, `UploadService.dfy`, `JanitorService.dfy`, `SseHandler.dfy` and
`JobEntity.dfy` follow the Go methods statement by statement. The k-th port call of a method ends as `fate(k)`
says; the return of `Process`, which can still panic with every file saved, counts as one. Each method of an
upload, a run or a sweep leaves exactly what its process does in the protocol when nothing else moves
(`SoloRuns.dfy`, and the lemmas beside `PruneExpired`). A stream is nothing alone: for it `StreamHandling.dfy` shows
that the moves of every stream of every run of the protocol, whatever else moves, are signals to the handler on
which it shows the same cards. So the two forms check each other.

**Paths** (`FilePaths.dfy`, `LocalFs.dfy`, `Naming.dfy`) are strings: `filepath.Clean` as its documented stack
algorithm, `Join`, `Base`, `Ext`, `resolvePath`, the store over a disk keyed by absolute path, and the names that
uploads and processors choose. The meaning of a path is a walk through directories, defined apart from `Clean`.

**Downscaling** (`Resize.dfy`) fills an `array2` and takes the rounding of the float64 operations as a parameter
`fl`: exact, or to the nearest float64 with ties either way. `Rounding.dfy` defines the latter by significand and
exponent and proves that such a rounding exists, that its relative error is at most 2^-53, and that it keeps the
integral parts of numbers that are more than one apart apart.

**Answers are stated apart from the functions that compute them.** The contracts of the services go through functions
that the protocol shares (`RunFrom`, `UploadFrom`, `Fed`, `Resized`). Beside each stands a result that says the answer
without them: `RunOutcome` for a run, call by call and for every pattern of failures, with the files, artifacts and
events written out; `Uploads.AllOrNothing`, `RejectedWith` and `LeftBehind` for an upload; the contract of
`PruneExpired` for a sweep, in terms of `expires_at` and of the calls that succeed; `SseHandler.Shows` for a stream, in
terms of what was read; `NamesOnDisk`, `CleanRules` and the walks for names and paths; and source pixels and whole
numbers for downscaling.

Three things the code is meant to keep fail when a call fails, a job is pruned too early or an event is missed, and
each is settled exactly, for every run and with no hypothesis on what fails:

* A row that has not expired is without its source if and only if the last rollback of its own upload deleted the
  source while the row was there (`Dangling.DanglesExactly`), and at that rollback the row is there if and only if the
  `DeleteJob` of the rollback failed (`Dangling.RowOutlivesRollback`).
* Every stored file is named or held in every state of a run if and only if the run contains no losing call
  (`FileLoss.AccountedIffNothingLost`). `FileLoss.LosingCall` lists them: a failing last rollback with no row; a
  `Save` that succeeds after the row is gone; an error or panic of `Process`, up to its return, while the row exists
  and the file is already saved; the last insert, if it leaves the file without an artifact row; the deletion of a
  row whose snapshot lags behind the artifacts or whose file was not deleted.
* When a job's run is over, a subscribed stream can still end by itself if and only if an event or a re-read is on
  its way to it and the row is there with its final status (`StreamEnds.EndsIffAwaiting`). `MissedEvents` has runs
  that reach a stream of either kind that cannot.

Three predicates on steps serve as hypotheses where a theorem needs one:

* `References.RollbackSucceeds`: the `DeleteJob` of an upload's rollback does not fail. `RollbackFailure` has a run
  without it that leaves a fresh row dangling.
* `Settlement.UpdatesSucceed`: no update of a row to completed or failed fails.
* `Leaks.Careful`: clean-up calls and artifact inserts succeed, `Process` fails only before its first `Save` has
  succeeded, and a listing returns terminal jobs only. It is sufficient and not exact; what it adds to the exact
  condition above is the equality at rest. `PruneRace` has a run in which only the last part fails to hold, no call
  fails, and a file leaks.

Where code and prose of the repository differ, the model follows the code: the comment on `ProcessUpload` says
that rollback leaves no orphans, which holds if and only if the rollback calls that are made succeed; the comment in
`resizeMax` speaks of bilinear resampling, while the loops copy the nearest sampled pixel; and the design documents
rely on NATS to deliver an event to one worker, while the model allows any duplication and proves that the
conditional update alone makes the claim exclusive.

## Model

| member | source | states |
|---|---|---|
| Lifecycle.ExclusiveClaim | internal/core/worker.go:94-97 | however runs interleave, events are duplicated and calls fail, two runs past the processing update of one job are the same run, and `Process` was entered at most once per job |
| Lifecycle.OnlyClaimantWrites | internal/core/worker.go:94-155 | once a row exists, a step that changes it or its artifacts, short of deleting it, is a call of the run that claimed the job |
| Lifecycle.EventTruth | internal/core/worker.go:115-209 | at most three events reach a job's status subject, at most one of them terminal and that one last; never both outcomes on status and broadcast subjects together; a completed event implies that completed was committed to the row |
| Lifecycle.RowInvariant | internal/adapters/postgres/repository.go:183-247 | in every reachable state the committed statuses are a path of the transition relation from pending; the error column is set exactly on failed rows; artifacts exist only for processing or completed rows and are a subsequence of extracted text and cover for a PDF, of thumbnail, medium and optimized version otherwise; the job part is what `NewJob` built, expiring after its creation |
| Lifecycle.FrozenTerminalRows | internal/domain/status.go:33-45 | along every run the committed statuses only grow, a terminal row and its artifacts never change while the row exists, and a deleted row and its artifacts never come back |
| Lifecycle.UpdatesAreLegal | internal/adapters/postgres/repository.go:199-217 | the final update of a claiming run, if its call succeeds and the row exists, is never refused as an illegal transition |
| Lifecycle.OutcomeOfRun | internal/core/worker.go:115-160 | whatever failed, a finished run's outcome says what the row holds as long as it exists |
| Lifecycle.AlwaysDispatched | internal/core/worker.go:106-120 | no run of an uploaded job ever takes the unsupported-media branch |
| Lifecycle.CallsEnabled | internal/core/worker.go:76-161 | in every reachable state every unfinished upload, run and sweep can make its next call: a sweep its page query, for some answer, then each artifact query, then each deletion |
| Lifecycle.SurroundingsFree | internal/core/worker.go:47-60 | in every state an upload, sweep or stream can start, an event be delivered to a new run whatever other runs there are, duplicated or lost, and time pass |
| Settlement.SettledOutcome | internal/core/worker.go:115-160 | if no final update fails and the row was not deleted, a finished claiming run left the row completed when `Process` returned normally, and failed with that text when it erred or panicked |
| Media.AcceptedHasOneProcessor | internal/core/upload.go:16-50 | an accepted media type normalises to one of the six literals, exactly one processor claims it, and the dispatch loop finds that one |
| Media.AcceptedSpellings | internal/core/upload.go:16-50 | a media type is accepted if and only if it is one of the six words in any letter case with any white space around it, and is then stored as that word |
| Media.DispatchExactly | internal/handlers/media/image_processor.go:33-40 | of any media type: the image processor is taken if and only if it starts with `image/` in any letter case, else the PDF processor if and only if it is one of its two words in any case with white space around it, else none |
| Media.MakesExactly | internal/handlers/media/image_processor.go:62-153 | an image makes thumbnail, medium and optimized version, a PDF extracted text and cover, in this order |
| Domain.TransitionTable | internal/domain/status.go:24-45 | the four permitted transitions and no other; a status is terminal if and only if no transition leaves it |
| References.DanglingOnlyWhenRejected | internal/core/janitor.go:43-64 | whatever fails: a row whose `expires_at` is after the clock has all its artifact files, and its source unless its upload was rejected; DanglesExactly says when a rejected one has lost it |
| References.NoDanglingReferences | internal/core/upload.go:89-117 | if no rollback fails to delete its row, every row whose `expires_at` is after the clock has its source and all its artifact files stored |
| RollbackFailure.FailedRollbackDangles | internal/core/upload.go:112-117 | for every valid request there is a run, with a failing rollback `DeleteJob`, that leaves a fresh row without its source |
| Dangling.SourceLostExactly | internal/core/upload.go:89-117 | in every reachable state, a step takes the stored source of an unexpired row if and only if it is the successful last rollback of that job's own upload, and takes the row if and only if it is the successful rollback before |
| Dangling.DanglesExactly | internal/core/upload.go:112-117 | over every run, whatever fails: a row whose `expires_at` is after the clock is without its source if and only if somewhere in the run the last rollback of its upload deleted it while the row was there |
| Dangling.RowOutlivesRollback | internal/core/upload.go:112-117 | an upload at its last rollback, for a job that has not expired, still has its row if and only if its `DeleteJob` failed in the run |
| Leaks.NoLeakedFiles | internal/core/janitor.go:43-66 | under `Careful`, every stored file is named by a row, or held by an upload before its row or in its last rollback, or by a claimed run that has not inserted all its artifacts |
| Leaks.StoredIffReferenced | internal/core/worker.go:137-150 | under `Careful`, at rest the stored files are exactly those that rows name |
| Leaks.SweepSparesOthers | internal/core/janitor.go:44-64 | from a snapshot however stale, a sweep takes away no file another job's row names and leaves that job alone |
| FileLoss.LostExactly | internal/core/worker.go:122-155 | in every reachable state, whatever has failed: a step makes a file one that is stored but neither named nor held if and only if it is one of the losing calls |
| FileLoss.AccountedIffNothingLost | internal/core/janitor.go:43-66 | over every run from the empty system: every stored file is named or held in every state if and only if the run contains no losing call |
| FileLoss.NeverNamedAgain | internal/core/worker.go:137-155 | once a job's row is gone, no state of any continuation has a row that names one of its files |
| PruneRace.OrphanedRunLeaks | internal/core/worker.go:146-155 | from every reachable state in which a run has files to save and its row is gone, the run can go on to store a file and finish, and no row names that file, nor, by NeverNamedAgain, ever will |
| PruneRace.PruneRaceLeaks | internal/core/janitor.go:36-67 | for every valid request there is a run in which no call fails and no event is lost and which comes to rest with a stored file no row names |
| Streams.NoDroppedProgress | internal/handlers/http/handler.go:269-278 | the discard branch of the callback is never taken; a channel never holds more than three events |
| Streams.RenderedHistory | internal/handlers/http/handler.go:234-303 | over every run the statuses a stream renders were committed, go from pending over processing to a final one and never back, and a final one is the last and closes the stream |
| Streams.EventsInOrder | internal/handlers/http/handler.go:269-294 | in every reachable state a stream has its events, the one it is at and those in its channel, in the order of their publication |
| Settlement.ReadAfterTerminal | internal/handlers/http/handler.go:291-301 | after a terminal event, a successful re-read of an existing row ends the stream exactly when the claiming run recorded its final status; after a completed event always |
| Settlement.TerminalEventEndsStream | internal/handlers/http/handler.go:287-303 | if no final update fails, a stream that consumed a terminal event ends with the terminal card at its next successful read |
| Settlement.StreamDrains | internal/handlers/http/handler.go:287-303 | a subscribed stream with something on its way, on a terminal row, ends with the terminal card in at most three moves of its own |
| StreamEnds.EndsIffAwaiting | internal/handlers/http/handler.go:261-303 | in every reachable state, when the run that claimed the job is over: a subscribed stream can still end other than by a disconnect if and only if an event or a re-read is on its way to it and the row is there with its final status |
| MissedEvents.StreamMissesEvents | internal/handlers/http/handler.go:246-284 | for every valid request there is a run in which no call fails and no event is lost and which reaches a completed job and a subscribed stream that cannot end any more: it subscribed after the last publish |
| MissedEvents.LostUpdateStrands | internal/core/worker.go:152-155 | for every valid request there is a run that reaches a subscribed stream with events on their way to it that cannot end any more: the update to completed failed |
| SoloRuns.NothingFails | internal/core/worker.go:88-160 | if nothing fails, a pending job ends completed with exactly the artifacts of its processor stored and recorded in order, and the three events on its subject |
| SoloRuns.ProcessGivesUp | internal/core/worker.go:122-143 | if the open or one save fails, `Process` errs or panics there, or it panics with every file saved, and nothing else fails: the job ends failed with that text, nothing is inserted, the failure is told after the progress on both subjects, and exactly the files saved before stay behind |
| SoloRuns.CompletionFails | internal/core/worker.go:152-155 | if only the update to completed fails, the job stays processing with its files stored and its artifacts inserted, and neither outcome is told |
| RunOutcome.RunRefused | internal/core/worker.go:89-97 | a run whose fetch or claim fails, or whose job has no row or is not pending, changes nothing and returns which of these it was |
| RunOutcome.RunUnsupported | internal/core/worker.go:115-120 | a pending job whose media type no processor claims fails with the text `unsupported media type`; update and both publishes count as far as their calls succeed |
| RunOutcome.RunGivesUp | internal/core/worker.go:122-143 | for every pattern of failures in which the open or a save fails or `Process` panics at the end: row, artifacts, both logs and files, with the texts of all errors written out |
| RunOutcome.ImageIsProcessed | internal/handlers/media/image_processor.go:43-153 | for every pattern of failures after the saves: the three files of an image are stored, recorded in order as far as the inserts succeed, and the job is completed and told so, or stays processing, according to the update and the publishes |
| RunOutcome.PdfIsProcessed | internal/handlers/media/pdf_processor.go:42-122 | the same for the extracted text and the cover of a PDF |
| SoloRuns.RunIsProtocolRun | internal/core/worker.go:76-161 | what a run does alone, call by call, is a run of the protocol in which only it moves |
| SoloRuns.UploadIsProtocolRun | internal/core/upload.go:77-119 | what an upload does alone is a run of the protocol in which only it moves |
| Worker.WorkerService.HandleJobCreated | internal/core/worker.go:76-161 | the handler works on the job that the event's `JobID` names, or its payload if that is empty, and fails with a missing id if and only if neither does, then changing nothing; it leaves row, artifacts, events and files of the job as the protocol's run does with the same failures, returns no error if and only if the run succeeded and otherwise the error that ended it, and leaves every other job and the queue of created events alone |
| Worker.WorkerService.Process | internal/handlers/media/image_processor.go:43-153 | open, then one save per artifact in order, then the return; result, error or panic, a panic after the last save included, lead where the protocol's run goes; a returned result is the three artifacts of an image or the two of a PDF, in order, with their files stored |
| Worker.WorkerService.FindProcessor | internal/core/worker.go:106-113 | the dispatch loop returns the first processor that claims the media type: by the prefix `image/`, then by the two words for PDF, or none |
| Worker.WorkerService.Persist | internal/core/worker.go:145-150 | the insert loop attempts every artifact in order and goes on after a failure |
| Worker.WorkerService.Fail | internal/core/worker.go:115-143 | the failure path attempts the update and both publishes whatever fails, and records failed with the reason's text if the update succeeds |
| Worker.WorkerService.PublishFailureEvent | internal/core/worker.go:176-191 | the failed event goes to the job's subject, then to the broadcast subject, each at most once |
| Worker.WorkerService.PublishSuccessEvent | internal/core/worker.go:193-209 | the completed event goes to the job's subject, then to the broadcast subject, each at most once |
| Uploads.AllOrNothing | internal/core/upload.go:54-120 | for every request, clock and pattern of failures: accepted if and only if the size is positive, there is a reader, the media type is one of the six in any spelling, the time to live is positive and the first three calls succeed; then exactly one file, one pending row naming it, with its type, size, creation and expiry, and one event are added; otherwise nothing is announced, and record and files are as before if and only if no rollback call that was made failed |
| Uploads.RejectedWith | internal/core/upload.go:54-120 | for every request and pattern of failures, which error an upload is rejected with: the first check or call that fails, in order |
| Uploads.LeftBehind | internal/core/upload.go:84-117 | of a rejected upload whose file was saved: the file stays if and only if its delete fails, the row if and only if it was inserted and its delete fails |
| Uploads.UploadService.constructor | internal/core/upload.go:34-44 | a default time to live that is not positive becomes one hour |
| Uploads.UploadService.ProcessUpload | internal/core/upload.go:54-120 | the method leaves job, files and queue as the protocol's upload does with the same failures, returns its result, and leaves other jobs alone |
| Domain.NewJob | internal/domain/job.go:26-53 | a job is built if and only if media type, file path, size and time to live are valid; it has that path, type and size, and expires that long after its creation |
| Janitor.JanitorService.PruneExpired | internal/core/janitor.go:31-70 | a sweep without interleaving fails, changing nothing, if and only if the page query or the artifact query of a job on the page fails; the page is what ListExpiredJobs answers, 100 rows if the limit is not positive; otherwise a row goes if and only if it is on the page and the call that deletes it succeeds, and a file if and only if a call for it does, each call numbered; rows that are not due keep their place and their artifacts; its count is the drop in the number of rows |
| Janitor.JanitorService.PruneRepeatedly | internal/core/janitor.go:85-103 | with no failures and no arrivals, m sweeps at a fixed time leave max(0, n - m * limit) of n rows whose `expires_at` has passed, with 100 for a limit that is not positive |
| Janitor.OneSweep | internal/core/janitor.go:37-67 | deleting a page takes min(n, limit) jobs off a backlog of n |
| Janitor.SweepIsProtocolRun | internal/core/janitor.go:42-69 | what a sweep does alone over a listed page is a run of the protocol in which only it moves |
| Janitor.ListingIsProtocolRun | internal/core/janitor.go:36-40 | the page query and the artifact queries of a sweep alone are a run of the protocol that ends with the whole page in hand |
| Adapters.JobRepository.CreateJob | internal/adapters/postgres/repository.go:69-92 | inserts a pending row unless the id is taken; a failing call changes nothing |
| Adapters.JobRepository.GetJobByID | internal/adapters/postgres/repository.go:95-180 | one query for the row, and if there is one, one for its artifacts: answers both, the artifacts in insertion order, or that there is no row, or which failed first |
| Adapters.JobRepository.FetchArtifacts | internal/adapters/postgres/repository.go:134-180 | answers exactly the rows of the artifact table with the job's id, all of them and in insertion order |
| Adapters.JobRepository.UpdateJobStatus | internal/adapters/postgres/repository.go:183-220 | writes status and error exactly when the call succeeds, the row exists and the move is one of the four permitted ones, and says which check failed |
| Adapters.JobRepository.AddArtifact | internal/adapters/postgres/repository.go:223-247 | appends an artifact exactly when its job has a row |
| Adapters.JobRepository.DeleteJob | internal/adapters/postgres/repository.go:309-316 | removes the row and, by the cascade, its artifacts; a missing row is no error |
| Adapters.ArtifactsWithout | migrations/000001_init_schema.up.sql:17-25 | the cascade removes the artifacts of the deleted job and of no other |
| Adapters.JobRepository.ListExpiredJobs | internal/adapters/postgres/repository.go:250-306 | one query for the page and one per job for its artifacts: answers rows whose `expires_at` is at or before the time, ascending, at most `limit`, none missed unless the page is full of earlier ones, each with its artifacts, exactly if every query succeeds |
| JobEntity.JobObject.TransitionTo | internal/domain/job.go:56-70 | moves exactly along the four permitted transitions; the message replaces the stored one only on a move to failed with a message that is not empty |
| JobEntity.JobObject.AddArtifact | internal/domain/job.go:73-80 | appends exactly the artifacts that carry the job's id |
| JobEntity.EntityAgreesWithRepository | internal/adapters/postgres/repository.go:199-210 | entity and repository admit the same transitions, and leave the same row if and only if the move is to failed with a message that is not empty or the message is the one already stored |
| SseHandler.HandleSSEEvents | internal/handlers/http/handler.go:216-304 | the error responses of each case; otherwise the card of the first status, and, if it is not final and the subscription works, the cards of the re-reads that succeed and render, in order, up to the first final status or the client's leaving; the same as the stream process fed with these reads |
| SseHandler.CardsFollowReads | internal/handlers/http/handler.go:287-303 | if successful reads never go backwards neither do the cards, and a terminal card is the last and ends the handler; in every run of the protocol the reads do ascend, by HandlerShowsProcess |
| StreamHandling.HandlerShowsProcess | internal/handlers/http/handler.go:234-303 | for every reachable stream past its subscription: the handler, given what the first read and the subscription of that stream were answered and the signals that are its moves, shows the same cards and ends in the same cases; these are the cards of the reads, as for HandleSSEEvents; and the signals ascend |
| FilePaths.CleanPreservesMeaning | internal/adapters/localfs/filestore.go:54-61 | a cleaned path leads where the path leads: from any directory if relative, from the root if absolute |
| FilePaths.CleanIsNormalForm | internal/adapters/localfs/filestore.go:54-61 | two paths have the same clean form if and only if they lead to the same place from everywhere |
| FilePaths.CleanRules | internal/adapters/localfs/filestore.go:54-61 | what a cleaned path looks like: names only below the root, or climbs and then names, with no empty element, dot or trailing slash left |
| FilePaths.ElementsExactly | internal/adapters/localfs/filestore.go:54-61 | the elements of a path have no slashes and joined by slashes are the path |
| LocalFs.BaseIsClean | internal/adapters/localfs/filestore.go:29-37 | the base directory is an absolute clean path in every working directory |
| LocalFs.BaseMeaning | internal/adapters/localfs/filestore.go:29-37 | the base leads where the configured directory leads from the working directory; only one of nothing but white space is refused |
| LocalFs.ResolveMeaning | internal/adapters/localfs/filestore.go:47-74 | exactly which paths are accepted, and that an accepted path resolves to where it leads, at the base or below it |
| LocalFs.ResolvedInsideAndStable | internal/adapters/localfs/filestore.go:47-74 | an accepted path resolves to the base or below it, and resolving the result again changes nothing |
| LocalFs.RelativeAcceptance | internal/adapters/localfs/filestore.go:61-64 | a relative path is accepted if and only if it stays below its start and the first name it leads through does not start with two dots |
| LocalFs.AbsoluteSpelling | internal/adapters/localfs/filestore.go:53-59 | an accepted relative path and its absolute spelling resolve alike |
| LocalFs.RelativeSpelling | internal/adapters/localfs/filestore.go:61-73 | the relative spelling of an accepted absolute path resolves alike, unless the name after the base starts with two dots: then it is refused |
| LocalFs.EscapeCheckNeverFires | internal/adapters/localfs/filestore.go:66-71 | for any base but `/` the last escape check never fires |
| LocalFs.RootBase | internal/adapters/localfs/filestore.go:55-71 | with base `/` exactly the paths whose stack is empty are accepted |
| LocalFs.GetPathAgrees | internal/adapters/localfs/filestore.go:150-156 | wherever `resolvePath` succeeds, `GetPath` gives the same path |
| LocalFs.GetPathMeaning | internal/adapters/localfs/filestore.go:150-156 | `GetPath` leads where the path leads, from the root or the base, also outside the base |
| LocalFs.FileStore.Save | internal/adapters/localfs/filestore.go:77-103 | the checks in order, and the disk in every case: unchanged, with the whole content, or with the part that was written before an interruption |
| LocalFs.FileStore.Open | internal/adapters/localfs/filestore.go:106-117 | the stored content, or which check failed |
| LocalFs.FileStore.Delete | internal/adapters/localfs/filestore.go:120-130 | the file is removed and nothing else, also if it was missing before; a failing call changes nothing |
| LocalFs.FileStore.Exists | internal/adapters/localfs/filestore.go:133-147 | whether the resolved file is stored, or which check failed |
| LocalFs.AcceptsExactly | internal/adapters/localfs/filestore.go:47-74 | the prefix tests accept exactly the absolute paths that lead to the base or below and the relative ones that stay below their start and whose first name there does not start with two dots |
| LocalFs.SameFileIffSamePlace | internal/adapters/localfs/filestore.go:47-74 | two accepted paths resolve to one file if and only if they lead to one place |
| LocalFs.StoreIsMap | internal/adapters/localfs/filestore.go:77-130 | after any history of operations, any of them failing, an accepted path of any spelling finds what was left by the last save or delete that was itself accepted, got through and leads to the same place |
| LocalFs.NothingOutside | internal/adapters/localfs/filestore.go:77-103 | after any history every file on disk is inside the base |
| Naming.UploadNameAccepted | internal/core/upload.go:69-78 | whatever the client's file name, the stored name is accepted and lands in `uploads/` below the base |
| Naming.BaseNameIs | internal/core/upload.go:69-74 | of a client file name the last element is kept, whatever directories and trailing slashes; a dot becomes `unnamed_upload` |
| Naming.NamesOnDisk | internal/handlers/media/pdf_processor.go:61-101 | where files end up: the source as `uploads/<uid>_<name>` below the base, products as `<uid>_<stem>` with `_thumb.png`, `_medium.jpg`, `_optimized.png`, `_extracted.txt` and `_cover.png` |
| Naming.SpellingResolves | internal/handlers/media/image_processor.go:64-69 | the absolute source path and the relative artifact names that rows hold are accepted and resolve to their places below the base |
| Naming.PathsSeparated | internal/handlers/media/pdf_processor.go:68-101 | for all file names, two stored files of one job or of two resolve to one file on disk only if they are the same |
| Naming.DiskFollowsProtocol | internal/core/janitor.go:44-58 | on the disk, saving or deleting by the spelling in use adds or removes exactly the one file of the protocol |
| Resize.TargetsFit | internal/handlers/media/image_processor.go:167-181 | under rounding, for sides and limits from 1 to 2^31: both targets are at least 1, at most the limit and at most the source, and the axis whose limit asks for the smaller ratio, compared in whole numbers, is at its limit or one less |
| Resize.SampledInBounds | internal/handlers/media/image_processor.go:185-195 | under rounding the two clamps never fire: every sampled index is inside the source |
| Resize.SampledIncreases | internal/handlers/media/image_processor.go:186-191 | under rounding, for target indices up to 2^31, the sampled rows and columns strictly increase |
| Resize.SampledInProportion | internal/handlers/media/image_processor.go:185-195 | under rounding, target index i samples source index i * src / max, rounded down, of the binding axis, up to a factor of (2^53 + 1) / (2^53 - 1) |
| Resize.ProportionsKept | internal/handlers/media/image_processor.go:167-181 | under rounding, for sides and limits up to 2^31, when no axis was raised to one, the proportions are off by at most one pixel of the longer side, and for limits above 2^20 by at most 1024 source pixels times target pixels more |
| Resize.ExactTargets | internal/handlers/media/image_processor.go:167-181 | over exact reals, for all sizes: the axis whose limit asks for the smaller ratio meets it, the other is its side in proportion, rounded down and at least one, and when no axis was raised to one the proportions are off by less than one pixel of the longer side |
| Resize.ExactSampling | internal/handlers/media/image_processor.go:185-195 | over exact reals, for all sizes: target index i samples exactly source index i * src / max, rounded down, of the binding axis; sampled indices strictly increase and stay inside the source |
| Resize.ResizeIdempotent | internal/handlers/media/image_processor.go:155-165 | the result fits the limits, and the source unless a side is empty, and resizing it again returns the same pixels |
| Resize.Resample | internal/handlers/media/image_processor.go:183-197 | the nested loops write every target pixel from the source pixel it samples |
| Resize.ResizedSamples | internal/handlers/media/image_processor.go:183-197 | with no empty side, every pixel of the result is the source pixel at its sampled row and column, both inside the source |
| Resize.ThinIsBlank | internal/handlers/media/image_processor.go:167-197 | an image with one empty side and the other over its limit, for which one quotient is infinite, becomes one blank pixel wide or high and fits the limits |
| Resize.ResizeMax | internal/handlers/media/image_processor.go:155-200 | an image that fits is returned pixel by pixel; otherwise the new array has the target size and every pixel is the source pixel at its sampled column and row, inside the source; an image with an empty side becomes blank |

## Left out

- Resize.ResizeMax: sides above 2^31 that exceed a limit are not modelled; no decoder delivers them
- SseHandler.HandleSSEEvents: the channel and the callback are in the stream process (`StreamSteps`), which HandlerShowsProcess ties to the handler
- Worker.WorkerService.HandleJobCreated: error values keep their cause and drop the wrapping text
- Overflow and underflow of float64: no exact result outside 2^-32 to 2^63 but zero occurs for the sizes covered, quotients by an empty side aside, which `Ratio` settles by cases
- The two queries of `GetJobByID` in the protocol: they are one step of a run or a stream, which use nothing of the artifacts read, so the second query only adds a way to fail; a card whose artifacts are newer than its status is not modelled
- The test for empty paths in `PruneExpired`: the path of a stored file is never empty
- Settlement.TerminalEventEndsStream: it needs the event; a stream that subscribes after the last publish has missed it, as EndsIffAwaiting says
- `updated_at` of rows, ids, sizes and metadata of artifacts, and original file names in rows: nothing modelled depends on them
- Statuses other than the four constants, which no writer stores
- The forced purge in `handleJanitorCleanup`, which deletes live jobs by design, is not a step of the protocol
- Crashes of a process between two calls: a process that stops for good is an interleaving in which it makes no further step, but none restarts
- `Start`, `Stop`, tickers, goroutines and mutexes; a tick is a janitor starting a sweep
- NATS, pgx and HTTP clients beyond the effect of one call; commits whose outcome is unknown
- Directories, symbolic links and permissions on disk: a disk is a map of plain files, and what the operating system refuses is a parameter
- Partial files of an interrupted `Save` in the protocol, where a failing call has no effect; `LocalFs.FileStore.Save` has them
- Image and PDF codecs, cover drawing and text extraction: `Process` saves its artifacts in order, errs or panics
- `strings.ToLower` outside the characters whose lower case is ASCII, which cannot make a media type supported
- Templates, dashboard, routing, multipart parsing, JSON and download headers
