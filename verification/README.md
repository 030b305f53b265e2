# ServiceX in Dafny

ServiceX transforms files of scientific datasets. A user submits a request for a dataset; the
application has a DID finder look the dataset up, sends one task per file to transformers, counts
their reports and completes the request. This project models that life from both ends and proves
what it promises over all runs:

- **The application** (`Models`, `Protocol`, `ProtocolInvariant`, `ProtocolTheorems`, `Application`).
  Datasets and requests are rows of two tables. `Protocol` gives each HTTP handler as one step of a
  transition system, `ProtocolInvariant` proves what every step keeps, `ProtocolTheorems` what holds
  over whole runs. `Application` has the handlers in their own form, a class that changes rows one at a
  time and sends messages in loops; each is proved to do exactly what its step says.
- **Answers and rows** (`Submissions`): what each handler answers and changes, from the text that is submitted
  and from row to row, and that every accepted submission is served.
- **File lists** (`FileLists`): which list's files a submitted list is served with, over all runs.
- **Concurrent reports** (`FileCompleteRace`, `RequestRace`). The file-complete handler split at its commits, for any
  number of handlers: every interleaving of the handlers alone, and every interleaving of them with
  batches of files, the closing of the file set and cancellation, each of these taken as one turn.
- **The sidecar** (`Replicas`, `Sidecar`, `Transcripts`, `Uploader`). The handshake with the science container, the
  loop over the replicas of a file with its exceptions, and the upload queue with its poison pill.
  `Transcripts` goes from the text that the container sends to the record that is made.
- **End to end** (`Pipeline`). From the tasks of a request, taken by transformers in any split and
  order, to its completion.
- **The storage cleaner** (`StorageCleaner`): age limit, then eviction of the oldest.
- **The Rucio finder and names** (`RucioFinder`, `DidParser`, `Text`): replicas by priority, all files
  or none, and the round trips of DIDs and of comma-joined paths.

`Bags` holds facts about sequences up to their order.

## What is assumed

The step system assumes of its surroundings (`Protocol.Enabled`): a finder adds files only while its
dataset is being looked up and closes only a dataset whose lookup was started (closing it again is
allowed); a transformer reports files that it was sent, each at most once. Each handler is one step,
except that `FileCompleteRace` and `RequestRace` split the file-complete handler. SHA-1, SHA-256, the word
class of regular expressions, the clock, the cluster and the science container are parameters. Digests
hold no colon, as hexadecimal digits do; that they do not collide is assumed only where it is said.

"At most once" leaves out a task that makes two records, which the sidecar can do; when it does is part of
`RecordsPerTask`, and `Pipeline.Healthy` asks that it does not.

A transformer whose container is gone ends with its task unfinished (`transformer.py:281-283`). That the
queue then gives the task to another transformer is an assumption, made by `TasksToCompletion`: the task is
acknowledged late (`transformer.py:87`), but the worker is not configured to have the tasks of a lost process
rejected (`transformer.py:503-512`). `TasksToCompletionInterleaved` does not assume it; it says that a
request is complete exactly when every task was done by somebody.

In the sidecar an exception may occur in making the output directories or first reading the process
times, in receiving, in sending a task, in reading the statistics, in confirming, and in reading the process
times at the end. Making a record fails when a field is empty. Logging and reporting do not raise.

## What was found

- A request that triggered a lookup can be completed by reports between two batches of files and then
  misses the second batch. It covers all files of its dataset if and only if no batch was posted after it
  had ended (`FinishedCoversUnlessMissed`); one batch per dataset suffices (`OneBatchIsCovered`); a run with
  two batches that misses one is exhibited (`TwoBatchesCanMiss`).
- A cancelled request becomes complete when its last outstanding report arrives (`TerminalIsPermanent`
  states the only change that a terminal status can undergo).
- When a dataset turns out empty, requests that waited for another's lookup are completed but their
  transformers are not shut down (`EmptyDatasetEnds`).
- A request can be complete while the result of a concurrent handler is not saved yet; exactly when is stated
  in `CompletedHasAllResults`. When only reports interleave, they leave in the end what some order of whole
  handlers leaves, but for the finish time and the number of shutdowns (`InterleavingIsAtomic`).
- With other handlers in between that is not so: a handler reads that no file remains, a batch arrives, and the
  handler completes the request with files outstanding (`BatchOvertakesWitness`), which no order of whole
  handlers does. It happens exactly when more files are given to the request than are counted between the
  read and the last turn of some handler (`EndsEarlyIffOvertaken`), and never if the request had ceased to
  wait for files before its handlers started (`SafeOnceClosed`).
- A file list is found by a hash of its entries joined by spaces, so `["a b"]` and `["a", "b"]` are one dataset: the
  list submitted second is served with the files of the first (`SpaceMergesLists`). A list is served by its own
  entries exactly when no different list with its name was submitted before it (`SubmittedFileListRuns`), so
  always if no entry anywhere has a space and digests do not collide (`SpaceFreeListsKeepEntries`).
- Reparsing the stored name of a dataset, as the lookup does, gives the submitted DID exactly when the text
  named its scheme, or it holds no newline and the default scheme is a word (`LookupAsksForSubmittedDid`).
- A task with replicas makes no record exactly when the host fails before the first attempt, the container is
  gone, or the first path to try is empty and the last attempt was no success with a named path. It makes
  two exactly when the first path is not empty and something raises after the record: confirming a success, or
  reading the process times after a success or after all replicas were refused (`RecordsPerTask`).
- With an empty first path a failure is not recorded and the exception escapes. Later empty paths, which a file
  list entry such as `a,,b` has, change nothing unless one of them is answered with success; then a
  failure is recorded (`QuietTask`).
- Replicas with equal priorities leave an empty slot in the list of paths (`EqualPrioritiesLeaveGap`).
- A priority of zero is taken as the last slot, because the index wraps (`Slot`).
- The size that the cleaner returns leaves out exactly what is left of the buckets that it failed to delete
  (`ReturnedSizeIsReal`).

## Model

| member | source | states |
|---|---|---|
| ProtocolInvariant.StepKeepsInv | servicex_app/servicex_app/models.py:148-159 | every handler keeps: distinct names and file numbers, one request in lookup per dataset, waiting only while looked up, sent tasks a prefix of the dataset's files, counters equal to reports, complete once all is reported |
| ProtocolInvariant.ReachableInv | servicex_app/servicex_app/models.py:162-195 | the invariant holds in every reachable state |
| ProtocolInvariant.SubmitKeepsInv | servicex_app/servicex_app/resources/transformation/submit.py:160-234 | a submission, accepted, rejected or failing halfway, keeps the invariant |
| ProtocolInvariant.WithBatchOk | servicex_app/servicex_app/dataset_manager.py:158-168 | a batch reaches a request in lookup and leaves every other request of the dataset in order |
| ProtocolInvariant.WokenOk | servicex_app/servicex_app/resources/internal/fileset_complete.py:55-84 | closing a file set leaves no request of the dataset in lookup or pending, and each with the tasks its status requires |
| ProtocolInvariant.WithReportOk | servicex_app/servicex_app/resources/internal/transformer_file_complete.py:48-62 | an outstanding report keeps counters, results and completion consistent in every status |
| ProtocolInvariant.Conservation | servicex_app/servicex_app/models.py:309-318 | files = tasks sent = outstanding + completed + failed; with files to do, the remaining count is the number outstanding |
| ProtocolInvariant.StepAdvancesDatasets | servicex_app/servicex_app/dataset_manager.py:125-168 | a dataset's name never changes, its files are only appended to and only while it is looked up, its lookup status only advances |
| ProtocolInvariant.StepFrame | servicex_app/servicex_app/models.py:251-277 | a step changes no request but those it is about |
| ProtocolTheorems.ThreeRoutesAgree | servicex_app/servicex_app/dataset_manager.py:151-168 | two running requests of one dataset were sent the same tasks, the dataset's files, whether they started the lookup, waited for it or came after it |
| ProtocolTheorems.SentDuringLookup | servicex_app/servicex_app/resources/internal/add_file_to_dataset.py:50-67 | during a lookup the request that started it was sent all files found so far, those that wait nothing |
| ProtocolTheorems.BatchesConcatenate | servicex_app/servicex_app/resources/internal/add_file_to_dataset.py:53-67 | posting two batches equals posting their concatenation |
| ProtocolTheorems.PostedReplicasArrive | servicex_app/servicex_app/lookup_result_processor.py:42-56 | one new task per posted file, in order; its replicas are the posted ones if and only if these are some and comma-free |
| FileLists.SubmittedFileListRuns | servicex_app/servicex_app/dataset_manager.py:70-103 | in every reachable state a submitted file list runs at once, with one task per entry, in order, of the list of its name that was submitted first: its own if and only if no different list took the name before; an entry is one replica if and only if it has no comma |
| FileLists.DatasetOfFirstList | servicex_app/servicex_app/dataset_manager.py:74-103 | over all runs the dataset of a name is complete and holds the files of the first list submitted with that name, and there is none before such a submission |
| FileLists.OwnEntriesUnlessJoinedBefore | servicex_app/servicex_app/dataset_manager.py:70-72 | with digests that do not collide: own entries if and only if no different list with the same joined text came first |
| FileLists.SpaceFreeListsKeepEntries | servicex_app/servicex_app/dataset_manager.py:70-72 | where no entry ever has a space, every list is served by its own entries |
| FileLists.SpaceMergesLists | servicex_app/servicex_app/dataset_manager.py:70-78 | a run in which a list of two files gets the one file of a list submitted before |
| ProtocolTheorems.LookupAsksForSubmittedDid | servicex_app/servicex_app/dataset_manager.py:144-149 | submitting a new DID, in any state, starts one lookup; the exact condition under which its task names the submitted scheme and DID |
| ProtocolTheorems.OneDatasetPerDid | servicex_app/servicex_app/dataset_manager.py:49-68 | submissions of one DID share a dataset, however spelled and whatever happens between them |
| ProtocolTheorems.OneLookupPerDataset | servicex_app/servicex_app/resources/transformation/submit.py:218-232 | at most one lookup task per dataset, at most one request in lookup, waiting only while looked up |
| ProtocolTheorems.NoStrandedWaiter | servicex_app/servicex_app/resources/internal/fileset_complete.py:52-86 | after one fileset-complete every request for the dataset runs or has ended, in any continuation |
| ProtocolTheorems.RepeatedFilesetComplete | servicex_app/servicex_app/resources/internal/fileset_complete.py:52-86 | a repeated fileset-complete changes no request and sends no task |
| ProtocolTheorems.TerminalIsPermanent | servicex_app/servicex_app/models.py:148-159 | an ended request stays ended, its files and tasks never change, its status changes at most to complete when all is reported |
| ProtocolTheorems.SentIsFinal | servicex_app/servicex_app/models.py:251-277 | once a request runs or has ended no further task is sent for it |
| ProtocolTheorems.OnlyReportsFinish | servicex_app/servicex_app/models.py:279-289 | a request that once ran is complete only with a finish time, that is by its reports |
| ProtocolTheorems.EmptyDatasetEnds | servicex_app/servicex_app/resources/internal/fileset_complete.py:68-84 | an empty dataset ends every waiting request; only the transformers of the one that started the lookup are shut down |
| ProtocolTheorems.WaiterIsNeverShutDown | servicex_app/servicex_app/resources/internal/fileset_complete.py:68-84 | in every continuation a request that waited for a dataset that turned out empty stays complete, was sent nothing and never has its transformers shut down |
| ProtocolTheorems.CancelAccepted | servicex_app/servicex_app/resources/transformation/cancel.py:45-74 | which answer a cancellation gets, in every reachable state, and all that an accepted one changes; any other changes nothing |
| ProtocolTheorems.CancelIsFinal | servicex_app/servicex_app/resources/transformation/cancel.py:45-74 | cancelling a request that has not ended, unless the cluster refuses, is final: in every continuation no further task is sent, and the request is canceled, or complete because all it was sent was reported |
| ProtocolTheorems.NeverStuck | servicex_app/servicex_app/resources/internal/transformer_file_complete.py:48-71 | from every reachable state a request with files has a continuation in which it is complete |
| ProtocolTheorems.LastReportCompletes | servicex_app/servicex_app/resources/internal/transformer_file_complete.py:48-91 | a report is saved and counted by its status word; it completes the request, at its own time and with one more shutdown, exactly when it is for the last outstanding file, whatever the status; any other leaves status, finish time and transformers alone |
| ProtocolTheorems.AllReportedIsComplete | servicex_app/servicex_app/resources/internal/transformer_file_complete.py:60-62 | in every run nothing is lost, a request all of whose tasks are reported is complete, and one without files is never finished by reports |
| ProtocolTheorems.FinishedCoversUnlessMissed | servicex_app/servicex_app/resources/internal/transformer_file_complete.py:58-62 | a request finished by reports has exactly one result per file of its dataset if and only if no batch came after it had ended |
| ProtocolTheorems.OneBatchIsCovered | did_finder_rucio/src/rucio_did_finder/lookup_request.py:65-72 | with at most one non-empty batch per dataset a finished request covers all files |
| ProtocolTheorems.TwoBatchesCanMiss | servicex_app/servicex_app/models.py:260-261 | a lawful run with two batches ends complete with one result for two files |
| Submissions.RejectedByText | servicex_app/servicex_app/resources/transformation/submit.py:84-111 | rejected, with nothing changed, exactly for both or neither of DID and file list, or a DID whose scheme, the one its text spells or else the default, is not supported |
| Submissions.UnreadyLeavesNoRequest | servicex_app/servicex_app/resources/transformation/submit.py:192-212 | a submission that cannot be carried through leaves no request |
| Submissions.AcceptedIsServed | servicex_app/servicex_app/resources/transformation/submit.py:215-234 | an accepted submission adds one request and changes no other; it runs with the files of its dataset if these are known, and else waits, in lookup if it starts the lookup and pending if that is under way |
| Submissions.SubmittedOnlyWithoutFinder | servicex_app/servicex_app/resources/transformation/submit.py:218-232 | in every reachable state a request is left as submitted only if its dataset has no finder |
| Submissions.ClosingServes | servicex_app/servicex_app/resources/internal/fileset_complete.py:42-86 | in every continuation of a fileset-complete each request of the dataset runs or has ended, and was sent exactly the files of the dataset if there were any and it had not ended before |
| Submissions.AcceptedIsNeverForgotten | servicex_app/servicex_app/resources/transformation/submit.py:160-252 | every accepted submission is served once the file set of its dataset is closed, whatever happens in between and afterwards |
| Submissions.PostingAppends | servicex_app/servicex_app/resources/internal/add_file_to_dataset.py:50-67 | the posted files are appended to the dataset, numbered on, replicas joined by commas; the request in lookup has as many more; no other row changes |
| Submissions.ClosingReleases | servicex_app/servicex_app/resources/internal/fileset_complete.py:42-86 | all that closing a file set changes, dataset by dataset and request by request, with files and without |
| Submissions.UnknownChangesNothing | servicex_app/servicex_app/resources/internal/transformer_file_complete.py:53-54 | the answer for an unknown dataset or request; nothing changes |
| Submissions.EndedIsNotCancelled | servicex_app/servicex_app/resources/transformation/cancel.py:51-54 | a cancellation is rejected exactly for a request that is complete, canceled or failed for good |
| Application.App.AddFilesToProcessingQueue | servicex_app/servicex_app/lookup_result_processor.py:42-56 | appends one task per file to the queue of the request |
| Application.App.AddFilesToDataset | servicex_app/servicex_app/dataset_manager.py:158-168 | extends the dataset and each given request, and no other |
| Application.App.FromCandidate | servicex_app/servicex_app/dataset_manager.py:49-105 | finds the dataset by name or creates it |
| Application.App.InitializeDatasetManager | servicex_app/servicex_app/resources/transformation/submit.py:84-111 | needs exactly one of a DID of a supported scheme and a file list |
| Application.App.Enter | servicex_app/servicex_app/resources/transformation/submit.py:215-234 | the three branches on the state of the dataset, and the failure for one without a finder |
| Application.App.Submit | servicex_app/servicex_app/resources/transformation/submit.py:160-252 | finding or creating the dataset, starting its lookup or publishing its files, one row and message at a time, is the one step of the protocol, with its rejections and failures |
| Application.App.AddFiles | servicex_app/servicex_app/resources/internal/add_file_to_dataset.py:43-75 | extending the dataset and then each request in lookup, one after the other, is the step that extends all rows at once |
| Application.App.FilesetComplete | servicex_app/servicex_app/resources/internal/fileset_complete.py:42-86 | publishing to each pending request and then releasing each one in lookup, or ending each, is the step that wakes all rows at once |
| Application.App.FileComplete | servicex_app/servicex_app/resources/internal/transformer_file_complete.py:48-71 | counting the report, saving it, reading what remains and completing the request, row by row, is the step; an unknown request changes nothing |
| Application.Select | servicex_app/servicex_app/models.py:251-277 | exactly the rows of a dataset in a status, in order |
| FileCompleteRace.VerdictByOrder | servicex_app/servicex_app/resources/internal/transformer_file_complete.py:58-62 | a handler reads zero remaining if and only if there is a handler per remaining file and all counted before its read |
| FileCompleteRace.CompletersByOrder | servicex_app/servicex_app/resources/internal/transformer_file_complete.py:58-62 | exactly the handlers whose read follows the last count complete the request |
| FileCompleteRace.NoLostCompletion | servicex_app/servicex_app/models.py:279-289 | in every interleaving the request ends complete, its new results are the reports of the handlers, each counted once, and its transformers were shut down, once by each handler that completed it |
| FileCompleteRace.InterleavingIsAtomic | servicex_app/servicex_app/resources/internal/transformer_file_complete.py:48-71 | every interleaving of reports that runs to its end leaves the row that the handlers leave one after the other in some order, up to finish time and number of shutdowns |
| FileCompleteRace.CompletedOnlyAtZero | servicex_app/servicex_app/resources/internal/transformer_file_complete.py:60-62 | a request in any status but complete is completed only when nothing remains, and never by fewer handlers than remaining files |
| FileCompleteRace.CompletedHasAllResults | servicex_app/servicex_app/resources/internal/transformer_file_complete.py:53-62 | once completed, a request of any status has all results if and only if no handler stands between count and save |
| FileCompleteRace.CompleteBeforeSavedWitness | servicex_app/servicex_app/resources/internal/transformer_file_complete.py:53-62 | an interleaving that completes before a result is saved |
| FileCompleteRace.UninterruptedIsAtomic | servicex_app/servicex_app/resources/internal/transformer_file_complete.py:48-71 | the split handler, uninterrupted, is the atomic step |
| RequestRace.LeftSinceRead | servicex_app/servicex_app/resources/internal/transformer_file_complete.py:58-62 | from the moment a handler read that nothing remains, what remains is what was given to the request since less what was counted since, whatever else happens |
| RequestRace.EndsEarlyIffOvertaken | servicex_app/servicex_app/resources/internal/transformer_file_complete.py:58-62 | in every order of reports, batches, closing and cancellation: the request is at some moment complete by its reports with files remaining if and only if more files were given than counted between the read and the last turn of some handler |
| RequestRace.SafeOnceClosed | servicex_app/servicex_app/resources/internal/fileset_complete.py:52-66 | a request that no longer waits for files when its handlers start never ends early, in any order of events |
| RequestRace.WholeHandlersNeverEndEarly | servicex_app/servicex_app/resources/internal/transformer_file_complete.py:48-71 | no run of whole handlers reaches a row that ended early |
| RequestRace.BatchOvertakesWitness | servicex_app/servicex_app/resources/internal/add_file_to_dataset.py:50-67 | an order of events in which a batch overtakes the completion |
| RequestRace.EventsAreSteps | servicex_app/servicex_app/resources/internal/fileset_complete.py:52-86 | the turns of other handlers do to the row what these handlers do as steps |
| Replicas.PrioritizeIsStable | transformer_sidecar/src/transformer_sidecar/transformer.py:410-424 | a permutation, stable in each class, every other replica before http ones |
| Replicas.PrependXcache | transformer_sidecar/src/transformer_sidecar/transformer.py:470-495 | each path goes through the cache that its own hash picks |
| Replicas.TriedOrder | transformer_sidecar/src/transformer_sidecar/transformer.py:127-131 | what is tried is a permutation of the replicas through their caches, class by class in order |
| Replicas.PinnedThrough | transformer_sidecar/src/transformer_sidecar/transformer.py:470-495 | with a comma-separated list of caches, spaces around them allowed, a path goes through the cache at its hash modulo their number; without a list it stays |
| Sidecar.SynchedByFirst | transformer_sidecar/src/transformer_sidecar/science_container_command.py:44-54 | the first item that is not skipped decides whether the sidecar is ready, the connection closed or an exception is raised, and nothing behind it is consumed |
| Sidecar.ScienceContainer.Synch | transformer_sidecar/src/transformer_sidecar/science_container_command.py:44-54 | waits for a request for work; a closed connection and a garbled message are told apart |
| Sidecar.ScienceContainer.AwaitResponse | transformer_sidecar/src/transformer_sidecar/science_container_command.py:61-68 | the stripped answer; a closed connection answers nothing |
| Sidecar.HashPath | transformer_sidecar/src/transformer_sidecar/transformer.py:444-462 | a name of at most 255 characters stays; a longer one becomes exactly that long, an underscore and the hash before its last 214 characters |
| Sidecar.Worker.TransformFile | transformer_sidecar/src/transformer_sidecar/transformer.py:138-295 | the replica loop makes exactly the records, queue items and messages of its script and leaves exactly the rest of what is received, whatever raises |
| Sidecar.RecordsPerTask | transformer_sidecar/src/transformer_sidecar/transformer.py:148-295 | for every task: exactly when it makes no record, exactly when two, exactly when it ends the transformer and exactly when an exception escapes; records are for its file and have the status that is counted |
| Sidecar.RefusalsAlternate | transformer_sidecar/src/transformer_sidecar/science_container_command.py:56-71 | over refused attempts the container is told of each replica once, in order, with the answer to the one before, and then confirmed |
| Sidecar.NothingAfterSuccess | transformer_sidecar/src/transformer_sidecar/transformer.py:205-236 | the first success is the last attempt, and after it nothing is sent but its confirmation, also when confirming raises |
| Sidecar.QuietTask | transformer_sidecar/src/transformer_sidecar/transformer.py:160-260 | when nothing raises up to the first success: a success naming the first replica answered with success, else a failure naming the first replica, whatever the replicas behind would do |
| Sidecar.SuccessNamesFirst | transformer_sidecar/src/transformer_sidecar/transformer.py:205-234 | whatever raises, a success record names the first replica answered with success, and exists exactly when no exception came before that answer and the replica has a name |
| Transcripts.SuccessIsRecorded | transformer_sidecar/src/transformer_sidecar/science_container_command.py:44-68 | from the received text: after any answers but success, a request for work and `success.` with any spaces around it make one record, a success under the replica then tried |
| Transcripts.RefusalIsFailure | transformer_sidecar/src/transformer_sidecar/transformer.py:240-260 | from the received text: when every replica is answered with something else, one failure under the first replica |
| Transcripts.ClosingIsExit | transformer_sidecar/src/transformer_sidecar/science_container_command.py:44-49 | from the received text: a connection that closes instead of a request for work ends the transformer without a record, and nothing more is sent |
| Transcripts.GarbleIsFailure | transformer_sidecar/src/transformer_sidecar/science_container_command.py:50 | from the received text: something that is no text instead of a request for work makes a failure, and nothing more is sent |
| Transcripts.HazardIsFailure | transformer_sidecar/src/transformer_sidecar/transformer.py:194-204 | if sending or the statistics raise, one failure whatever the container answers, and no confirmation |
| Transcripts.UnconfirmedIsFailure | transformer_sidecar/src/transformer_sidecar/transformer.py:205-236 | if confirming raises, no further replica is tried, no confirmation is sent and a failure is recorded, besides the success if it was one |
| Transcripts.PlainSuccess | transformer_sidecar/scripts/watch.sh:59-65 | the lines that the container prints, each with its newline, make a success and a failure |
| Transcripts.OutputByParts | transformer_sidecar/src/transformer_sidecar/transformer.py:172-191 | the file to write has colons for the slashes of the path and the extension of the format, in the output or the scratch directory |
| Transcripts.DocSays | transformer_sidecar/src/transformer_sidecar/transformer.py:166-195 | what the container is told of a replica: its path, its output, the format and the answer to the one before |
| Transcripts.WhereRecordsGo | transformer_sidecar/src/transformer_sidecar/transformer.py:216-223 | a success waits for the uploader with the very file the container was told to write, failures are reported at once; without an object store all is reported at once |
| Uploader.ObjectStoreUploader.ServiceWorkQueue | transformer_sidecar/src/transformer_sidecar/object_store_uploader.py:79-116 | serves items in order until the pill or a failed conversion, and leaves the rest of the queue |
| Uploader.SuffixIsReplaced | transformer_sidecar/src/transformer_sidecar/object_store_uploader.py:99-104 | the name of a converted file has its last suffix replaced, whatever dots stand before it |
| Uploader.SuffixIsAdded | transformer_sidecar/src/transformer_sidecar/object_store_uploader.py:99-104 | a name without a dot, with its only dot in front, or ending in a dot, gets the suffix added |
| Uploader.ReportsOfLog | transformer_sidecar/src/transformer_sidecar/object_store_uploader.py:88-116 | the reports are those of the served items, each once, in order |
| Uploader.UploadedBeforeReported | transformer_sidecar/src/transformer_sidecar/object_store_uploader.py:110-116 | each file is uploaded just before it is reported |
| Uploader.ConvertedIsUploaded | transformer_sidecar/src/transformer_sidecar/object_store_uploader.py:99-116 | a file with a suffix is uploaded with `.parquet` in its place when converting, else as it is, and then reported |
| Uploader.UnsuffixedIsUploaded | transformer_sidecar/src/transformer_sidecar/object_store_uploader.py:99-116 | the same for a name without a suffix |
| Uploader.DrainsToPill | transformer_sidecar/src/transformer_sidecar/object_store_uploader.py:88-116 | all items before the pill are reported and nothing behind it touched, exactly when no needed conversion fails |
| Pipeline.JobReportsOnce | transformer_sidecar/src/transformer_sidecar/transformer.py:205-295 | a task makes one report, at once or through the uploader, or none because the container is gone, if and only if it is healthy |
| Pipeline.JobsReportOnce | transformer_sidecar/src/transformer_sidecar/transformer.py:205-260 | a transformer and its uploader make one report for each task that it did not abandon |
| Pipeline.TasksToCompletion | servicex_app/servicex_app/resources/internal/transformer_file_complete.py:48-71 | tasks done in any split and order, abandoned ones by another transformer, reports in any order: the request is complete with one result per task |
| Pipeline.TasksToCompletionInterleaved | servicex_app/servicex_app/resources/internal/transformer_file_complete.py:48-71 | in any run, between any other steps, a request whose results are the reports of working transformers is complete if and only if they did all its tasks |
| Pipeline.TasksCanBeDone | transformer_sidecar/src/transformer_sidecar/transformer.py:284-295 | the premises of the two theorems above can be met for every request that was sent tasks |
| StorageCleaner.TooOldBySeconds | minio_cleanup/servicex_storage/s3_storage_manager.py:180-182 | a bucket is past the limit once it is one whole day older than the limit |
| StorageCleaner.GetBucketInfo | minio_cleanup/servicex_storage/s3_storage_manager.py:55-74 | total size and oldest date of the objects of a bucket, nested buckets left out |
| StorageCleaner.SizeCounts | minio_cleanup/servicex_storage/s3_storage_manager.py:65-71 | the size of a bucket takes in each object once, but for those called like a nested bucket |
| StorageCleaner.S3StorageManager.CleanupStorage | minio_cleanup/servicex_storage/s3_storage_manager.py:160-217 | size, names and store after a cleanup, for every order in which concurrent deletions finish: old buckets and the evicted prefix go, or shrink if stuck; an exception counts an old bucket as not removed, and ends the eviction at that bucket |
| StorageCleaner.S3StorageManager.DeleteBucket | minio_cleanup/servicex_storage/s3_storage_manager.py:76-92 | a missing bucket counts as deleted; of a stuck one what can be removed goes; an exception is told apart |
| StorageCleaner.AfterDeletion | minio_cleanup/servicex_storage/s3_storage_manager.py:76-92 | other buckets stay as they are, a deleted one is gone, of a stuck one exactly what could not be removed is left |
| StorageCleaner.CleanupInPlainTerms | minio_cleanup/servicex_storage/s3_storage_manager.py:179-217 | which buckets go: those one whole day past the limit, and of the rest none if they fit, else the oldest, just as many as it takes |
| StorageCleaner.EvictionIsMinimal | minio_cleanup/servicex_storage/s3_storage_manager.py:206-217 | the shortest prefix of the oldest goes, none if it fits, no survivor older than a victim, size within the limits |
| StorageCleaner.RemovedIsMonotone | minio_cleanup/servicex_storage/s3_storage_manager.py:209-216 | a lower target only lengthens the removed prefix |
| StorageCleaner.CleanupIsIdempotent | minio_cleanup/servicex_storage/s3_storage_manager.py:179-217 | a second cleanup at the same moment removes nothing |
| StorageCleaner.LeftInStore | minio_cleanup/servicex_storage/s3_storage_manager.py:179-217 | the store keeps exactly the survivors and what could not be removed of the victims |
| StorageCleaner.ReturnedSizeIsReal | minio_cleanup/servicex_storage/s3_storage_manager.py:206-217 | the returned size is that of the store less what could not be removed of the victims |
| StorageCleaner.SortIsPermutation | minio_cleanup/servicex_storage/s3_storage_manager.py:206 | the sort by date orders and permutes |
| StorageCleaner.SortIsStable | minio_cleanup/servicex_storage/s3_storage_manager.py:206 | buckets of one date keep their order |
| RucioFinder.GetPaths | did_finder_rucio/src/rucio_did_finder/rucio_adapter.py:120-130 | each slot holds the last replica assigned to it; an index out of range is an error |
| RucioFinder.NoEmptySlot | did_finder_rucio/src/rucio_did_finder/rucio_adapter.py:127-130 | no slot stays empty if and only if no two replicas share one |
| RucioFinder.PathsInPriorityOrder | did_finder_rucio/src/rucio_did_finder/rucio_adapter.py:120-130 | with distinct priorities from 1 to n every replica stands at its priority |
| RucioFinder.PathsByPriority | did_finder_rucio/src/rucio_did_finder/rucio_adapter.py:127-130 | an error exactly if a priority is out of range; with no slot shared every replica stands at its priority, those from 0 down counted from the end |
| RucioFinder.EqualPrioritiesLeaveGap | did_finder_rucio/src/rucio_did_finder/rucio_adapter.py:127-130 | equal priorities leave a slot empty |
| RucioFinder.ListDataset | did_finder_rucio/src/rucio_did_finder/rucio_adapter.py:163-188 | the records of the files with replicas, in order, each with its size and with all its replicas by priority or its one logical name, and the number of files without; an error if a replica cannot be placed |
| RucioFinder.LookupFiles | did_finder_rucio/src/rucio_did_finder/lookup_request.py:54-84 | yields if and only if every file of every dataset is usable, and then all files in order, each with its size and all its replicas by priority or its one logical name, with their count and sums |
| RucioFinder.UsableWhen | did_finder_rucio/src/rucio_did_finder/rucio_adapter.py:167-178 | a file is usable when it has a url and no priority out of range, which does not matter for logical names |
| RucioFinder.StripIsTrim | did_finder_rucio/src/rucio_did_finder/rucio_adapter.py:176-178 | stripping `cms:` removes any of its characters from both ends and nothing else |
| RucioFinder.WithUrlKeeps | did_finder_rucio/src/rucio_did_finder/rucio_adapter.py:170-173 | exactly the files with a url are kept, as often as they come and in order |
| RucioFinder.ConcatHolds | did_finder_rucio/src/rucio_did_finder/lookup_request.py:64-70 | the files of one dataset stand together, behind those of the datasets before it |
| RucioFinder.SumsCount | did_finder_rucio/src/rucio_did_finder/lookup_request.py:66-68 | the sums of sizes and paths take in each file once |
| DidParser.FullDidRoundTrip | servicex_app/servicex_app/did_parser.py:33-65 | reparsing a full DID gives it back exactly under the stated condition |
| DidParser.ParseByText | servicex_app/servicex_app/did_parser.py:33-50 | a text is parsed by its own scheme exactly when it is a word, `://` and a rest of one line; else it is, whole, a DID of the default scheme |
| DidParser.ScopeIsNoScheme | servicex_app/servicex_app/did_parser.py:33-50 | a scope with a bare colon in front of a name is no scheme |
| DidParser.SpellingsShareDataset | servicex_app/servicex_app/did_parser.py:59-65 | defaulted and explicit spellings have the same full DID |
| DidParser.LookupTaskReachesFinder | servicex_app/servicex_app/celery_task_router.py:31-46 | a lookup task is routed to the queue of its scheme's finder |
| DidParser.RouteByText | servicex_app/servicex_app/celery_task_router.py:31-46 | the queue of a task by its name: of the request for transform tasks, what stands before the last `.lookup_dataset`, else the default |
| Text.SplitUndoesJoin | servicex_app/servicex_app/lookup_result_processor.py:50 | splitting undoes joining if and only if the list is non-empty and comma-free |
| Text.JoinUndoesSplit | servicex_app/servicex_app/lookup_result_processor.py:50 | joining undoes splitting for every string |
| Text.StripTrims | transformer_sidecar/src/transformer_sidecar/science_container_command.py:66 | stripping removes the spaces at both ends and nothing else |
| Text.AsciiSpaces | transformer_sidecar/src/transformer_sidecar/science_container_command.py:66 | which ASCII characters are spaces |

## Left out

- Kubernetes, the Docker registry, code generation, mail, Slack, login and web pages: only whether submission can proceed (`ready`), and what the cluster answers to a shutdown, are modelled.
- Database errors and retries: a commit always succeeds.
- Concurrency of handlers other than file-complete: each is one step, so the read-modify-write of `request.files` when files are added while another handler runs, and a submission interrupted between its commits, are not modelled.
- The status endpoint for fatal errors: it stores a string that is not a status, so `Fatal` is never reached here.
- DIDFinderApp, the library that posts what a finder yields, is not part of this model; its posts are the steps `AddFiles` and `FilesetComplete`.
- A file posted alone, not in a list, is a batch of one.
- Checksums, event counts, rates and times of files and reports; titles, images and formats of requests.
- A submission that fails after its commit, while transformers are started: its database effect is that of a successful one.
- StorageCleaner.S3StorageManager.CleanupStorage: the clock is read once, and listing the buckets does not raise.
- StorageCleaner.S3StorageManager.DeleteBucket: objects of a bucket are not modelled one by one; the size and date of what cannot be removed of it are inputs.
- StorageCleaner.GetBucketInfo: takes the objects as listed; object names are not empty, as the store guarantees.
- RucioFinder.GetPaths: priorities are already numbers; text that is no number raises in the code.
- RucioFinder.LookupFiles: the network, the XML and the list of datasets are inputs; a DID that is not found is the empty list of datasets. The average number of replicas is not computed.
- `parse_did` of the Rucio adapter: a search for the longest matching scope, which touches nothing else here.
- Sidecar.Worker.TransformFile: reporting itself does not raise (the adapter retries and gives up silently on connection errors); log files, statistics and process times only appear as places where an exception may occur (`Sidecar.Hazard`, `Sidecar.Host`).
- What becomes of a second report for one file in the application: reports are assumed to come at most once.
- Uploader.ObjectStoreUploader.ServiceWorkQueue: uploading does not raise; converting to Parquet is a parameter that may fail.
