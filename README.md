# OkGo download task and database helper, modelled in Dafny

This project models two classes of OkGo:

- `DownloadTask`, the object that drives one resumable HTTP download.
- `DBHelper`, the SQLite open helper that describes the four tables of `okgo.db` and migrates them between schema versions.

What the download task does:

- It keeps a `Progress` record, with its path, sizes, status, change token and request headers.
- It persists that record through `DownloadManager`.
- It announces every status change to the listeners that are registered at that moment.
- It runs as a prioritised runnable on a thread pool.

The model has five modules.

- `Records`: the data the task works on.
  - The `Progress` record, as a datatype.
  - The six statuses and the failure causes.
  - A `World`: the record, a file system (path to length), the record store (tag to record) and a trace of effects.
  - The effects are `Update`, `Replace`, `Delete` and `Deliver`.
  - The `post*` helpers as functions: each changes the record, then writes it with an `Update`, then delivers it.
- `Transfer`: `run()` and `download()` as pure functions on a `World`, stage by stage:
  - the breakpoint check and the range headers;
  - the response code;
  - body, total, name, folder and path;
  - the file check;
  - the chunk loop;
  - reconciliation after the loop.

  Outside inputs are parameters:
  - the HTTP exchange and its body, as a sequence of steps;
  - whether the folder can be created;
  - whether the file opens.
- `RunProperties`: lemmas about `Transfer` that state what a run promises.
  - Every run ends settled, with the Update of its final record followed by the delivery of that record.
  - A resumed 206 writes the rest of the file and finishes.
  - A 200 restarts from byte 0.
  - An unknown length is resolved when the stream ends.
  - A pause stops the loop and keeps the bytes written.
- `Lifecycle`: the methods that run on the caller's side, as pure functions on a `Task`. A `Task` is a `World` plus the listener map, the queued runnables and OkDownload's task table.
  - The methods are the `folder`, `fileName` and `tempFileName` setters, `register`, `unRegister`, `save`, `start`, `pause`, `restart` and `remove`.
  - `restart` and `remove` come twice: as written, and with the deletion corrected.
  - Lemmas give the outcome of each of them.
- `Download`: the imperative task.
  - `class Env` holds what a task reaches outside itself: files, store, task table, executor queue and trace.
  - `class DownloadTask` has the `progress` and `listeners` fields and the fields of `Env`. Every method updates these in place.
  - Each method is proved to leave exactly the state that its `Records`/`Transfer`/`Lifecycle` function gives.
  - The chunk loop of `download()` is a `while` loop with its invariants.
- `Schema`: the `DBHelper` side.
  - The table descriptors, built by chained `addColumn` calls on `TableEntity` objects.
  - `onCreate`, `onUpgrade` and `onDowngrade` issue statements to a `Database` object. Each is proved to issue exactly the sequence that `Migration` describes.
  - Lemmas state what each version pair does.

Two behaviours of the code that are easy to miss. The model follows the code in both:

- A resume whose partial file is missing does not fail. Whenever `filePath` is set, `run()` resets the position to 0 and downloads again (`DownloadTask.java:266-281`). Only a positive position with an empty `filePath` reaches the breakpoint-expired check at lines 363-366.
- The deletions of `restart()` and `remove(true)` are not guarded. With `tempFileName` null, `new File(folder, null)` throws (lines 208 and 246), after `filePath` has already been deleted (see Findings).

## Model

| member | source | states |
|---|---|---|
| Records.Post | okserver/src/main/java/com/lzy/okserver/download/DownloadTask.java:451-527 | a post leaves the record and the files as they are, and only touches the store and the trace |
| Records.PostEffects | okserver/src/main/java/com/lzy/okserver/download/DownloadTask.java:451-527 | every post* writes one Update of the record, then delivers that same record to the current listeners, and nothing else |
| Records.PostKeepsOrder | okserver/src/main/java/com/lzy/okserver/download/DownloadTask.java:451-532 | a post keeps the notify-after-persist invariant: every delivery directly follows the update of the record it delivers |
| Records.WriteKeepsOrder | okserver/src/main/java/com/lzy/okserver/download/DownloadTask.java:529-532 | a store write that is not a delivery keeps the notify-after-persist invariant |
| Records.Rename | okserver/src/main/java/com/lzy/okserver/download/DownloadTask.java:377-383 | renameTo moves an existing file to the target with its length, removes the source, and leaves every other file; a missing source changes nothing |
| Records.ParentOfJoin | okserver/src/main/java/com/lzy/okserver/download/DownloadTask.java:189-192 | the parent of new File(folder, name) is the folder |
| Transfer.Prepare | okserver/src/main/java/com/lzy/okserver/download/DownloadTask.java:326-354 | when the run continues past these lines, the response has a body and filePath is set |
| Transfer.CheckFile | okserver/src/main/java/com/lzy/okserver/download/DownloadTask.java:356-388 | when the run continues past the file check, filePath is still set |
| Transfer.CheckBreakpoint | okserver/src/main/java/com/lzy/okserver/download/DownloadTask.java:258-282 | the run always carries on from a non-negative position, and the breakpoint check touches no file |
| Transfer.AttachRange | okserver/src/main/java/com/lzy/okserver/download/DownloadTask.java:288-291 | only the request of the record changes; files, store and trace are kept |
| Transfer.Respond | okserver/src/main/java/com/lzy/okserver/download/DownloadTask.java:299-324 | the run ends at this stage exactly on 404, 416 or a code of 500 or more, in ERROR and with the files kept; otherwise it carries on with the change token taken from the response and the files kept |
| Transfer.Complete | okserver/src/main/java/com/lzy/okserver/download/DownloadTask.java:377-383 | finishing leaves the record in FINISH with fraction 1 and filePath kept |
| Transfer.WriteChunk | okserver/src/main/java/com/lzy/okserver/download/DownloadTask.java:438-439 | a chunk adds its length to currentSize and changes nothing else in the record; the file being written then holds at least the chunk's end and never shrinks; no other file, the store or the trace changes |
| Transfer.Reconcile | okserver/src/main/java/com/lzy/okserver/download/DownloadTask.java:406-424 | after the loop the task is in PAUSE, ERROR or FINISH, and in PAUSE exactly when the loop left it paused |
| Transfer.WriteBody | okserver/src/main/java/com/lzy/okserver/download/DownloadTask.java:390-425 | as corrected: opening, streaming and reconciling end in PAUSE, ERROR or FINISH; a file that does not open ends in ERROR with every file kept |
| Transfer.Accepted | okserver/src/main/java/com/lzy/okserver/download/DownloadTask.java:326-425 | as corrected: once the code is accepted the run ends in PAUSE, ERROR or FINISH |
| Transfer.Answered | okserver/src/main/java/com/lzy/okserver/download/DownloadTask.java:299-425 | as corrected: once a response has arrived the run ends in PAUSE, ERROR or FINISH |
| Transfer.Run | okserver/src/main/java/com/lzy/okserver/download/DownloadTask.java:256-425 | as corrected: every run ends in PAUSE, ERROR or FINISH; a failed request.execute() ends in ERROR with the transport failure and with every file kept |
| Transfer.Stream | okserver/src/main/java/com/lzy/okserver/download/DownloadTask.java:437-440 | the chunk loop changes only the status, speed and currentSize of the record |
| Transfer.DownloadAsWritten | okserver/src/main/java/com/lzy/okserver/download/DownloadTask.java:430-449 | download() as written keeps filePath, tempFileName and folder |
| Transfer.Download | okserver/src/main/java/com/lzy/okserver/download/DownloadTask.java:430-449 | download() as corrected keeps filePath, tempFileName and folder |
| RunProperties.StreamWritesEveryChunk | okserver/src/main/java/com/lzy/okserver/download/DownloadTask.java:437-440 | while LOADING, a body of chunks is written in full: the file grows by the bytes received, currentSize counts them, and the loop ends because the body is exhausted |
| RunProperties.StreamExtendsTrace | okserver/src/main/java/com/lzy/okserver/download/DownloadTask.java:437-440 | the chunk loop only appends to the trace |
| RunProperties.StreamStopsOnPause | okserver/src/main/java/com/lzy/okserver/download/DownloadTask.java:224-226 | a pause between chunks stops the loop. The bytes written before it stay on disk and in currentSize; the status is PAUSE with speed 0; a chunk read after the pause is not written |
| RunProperties.ResumePosition | okserver/src/main/java/com/lzy/okserver/download/DownloadTask.java:258-282 | the resume position is never negative and equals currentSize. It is kept exactly when it is 0, or when it is positive and either filePath is empty or the partial file exists, and then nothing changes. Otherwise it is 0, the record is reset to NONE with speed 0 and currentSize 0, and written with one Update. The files are untouched |
| RunProperties.RangeOnlyWhenResuming | okserver/src/main/java/com/lzy/okserver/download/DownloadTask.java:288-291 | If-Range and Range are put on the request exactly when a change token is known and the position is positive; nothing else changes |
| RunProperties.NetworkErrorEnds | okserver/src/main/java/com/lzy/okserver/download/DownloadTask.java:299-303 | 404 or any code of 500 or more ends the run in ERROR with a network error; files and change token are kept |
| RunProperties.RangeNotSatisfiableResets | okserver/src/main/java/com/lzy/okserver/download/DownloadTask.java:304-311 | 416 clears the change token, zeroes currentSize and fraction, and ends in ERROR with the file-expired cause |
| RunProperties.TokenRecorded | okserver/src/main/java/com/lzy/okserver/download/DownloadTask.java:312-324 | on any other code the change token becomes the ETag, or Last-Modified when the ETag is empty. A 200 resets the position, currentSize and fraction to 0; other codes keep them; the record is then written with an Update |
| RunProperties.TotalResolution | okserver/src/main/java/com/lzy/okserver/download/DownloadTask.java:331-337 | a known total is kept; otherwise the content length is taken; if that is unknown too, Long.MAX_VALUE is used |
| RunProperties.BadResumeExpires | okserver/src/main/java/com/lzy/okserver/download/DownloadTask.java:363-370 | a positive position without its file, or a position past the total, ends in ERROR with breakpoint expired and touches no file |
| RunProperties.AlreadyCompleteFinishes | okserver/src/main/java/com/lzy/okserver/download/DownloadTask.java:374-388 | a position equal to the total and to the file's length finishes without streaming, with filePath holding those bytes |
| RunProperties.PostSettles | okserver/src/main/java/com/lzy/okserver/download/DownloadTask.java:451-527 | a post in PAUSE, ERROR or FINISH ends the trace with the update of the final record followed by its delivery |
| RunProperties.ErrorSettles | okserver/src/main/java/com/lzy/okserver/download/DownloadTask.java:493-504 | postOnError leaves the task settled in ERROR |
| RunProperties.CompleteSettles | okserver/src/main/java/com/lzy/okserver/download/DownloadTask.java:377-383 | finishing (rename, then postOnFinish) leaves the task settled in FINISH |
| RunProperties.CheckFileSettles | okserver/src/main/java/com/lzy/okserver/download/DownloadTask.java:356-388 | the file check either ends the run settled or continues with the trace unchanged |
| RunProperties.PrepareSettles | okserver/src/main/java/com/lzy/okserver/download/DownloadTask.java:326-354 | the preparation either ends the run settled or continues with the trace unchanged |
| RunProperties.RespondSettles | okserver/src/main/java/com/lzy/okserver/download/DownloadTask.java:299-324 | the code check either ends the run settled or continues with the trace only extended |
| RunProperties.WriteBodySettles | okserver/src/main/java/com/lzy/okserver/download/DownloadTask.java:390-425 | opening, streaming and reconciling always end settled |
| RunProperties.AcceptedSettles | okserver/src/main/java/com/lzy/okserver/download/DownloadTask.java:326-425 | once the code is accepted, the run ends settled |
| RunProperties.AnsweredSettles | okserver/src/main/java/com/lzy/okserver/download/DownloadTask.java:299-425 | once a response has arrived, the run ends settled |
| RunProperties.RunSettles | okserver/src/main/java/com/lzy/okserver/download/DownloadTask.java:256-425 | every run() ends in PAUSE, ERROR or FINISH. Its last two effects are the update of the final record and the delivery of that record; earlier effects are kept |
| RunProperties.DownloadWhole | okserver/src/main/java/com/lzy/okserver/download/DownloadTask.java:430-449 | a body of chunks alone leaves the task LOADING with every byte counted and written; the placeholder total becomes the bytes received |
| RunProperties.ReconcileLoading | okserver/src/main/java/com/lzy/okserver/download/DownloadTask.java:406-424 | after a full loop, the task finishes exactly when the file length equals the total, with fraction 1 and the bytes in filePath; otherwise it ends in ERROR with breakpoint expired. Sizes, token, request and path are kept |
| RunProperties.ResumeReachesBody | okserver/src/main/java/com/lzy/okserver/download/DownloadTask.java:312-362 | a 206 on a resumable record reaches the body with the path, file, total and request unchanged and the new change token recorded |
| RunProperties.BodyStreamedWhole | okserver/src/main/java/com/lzy/okserver/download/DownloadTask.java:390-425 | writing a whole body from position s: bytes s plus received are counted; the task finishes exactly when that reaches the resolved total, with path, request and token kept; otherwise it ends in ERROR with breakpoint expired |
| RunProperties.BodyKeepsRecord | okserver/src/main/java/com/lzy/okserver/download/DownloadTask.java:390-425 | writing a body keeps request, change token and filePath, and leaves the resolved total |
| RunProperties.BodyWroteAll | okserver/src/main/java/com/lzy/okserver/download/DownloadTask.java:390-425 | writing a whole body leaves filePath set, with every byte counted, and finishes exactly when the total is reached |
| RunProperties.RunResumes | okserver/src/main/java/com/lzy/okserver/download/DownloadTask.java:256-297 | with a partial file present, run() keeps currentSize as the resume position |
| RunProperties.ResumeAsksForRest | okserver/src/main/java/com/lzy/okserver/download/DownloadTask.java:286-317 | a resume with a known token asks for bytes=currentSize- under If-Range, and records the server's new token |
| RunProperties.ResumeAppends | okserver/src/main/java/com/lzy/okserver/download/DownloadTask.java:256-425 | a 206 resume of a partial file appends the rest. currentSize ends at the old size plus the bytes received; the task finishes with filePath holding them exactly when that equals totalSize |
| RunProperties.ResumeKeepsRecord | okserver/src/main/java/com/lzy/okserver/download/DownloadTask.java:312-425 | a 206 keeps filePath and request and records the new change token |
| RunProperties.ResumeWroteAll | okserver/src/main/java/com/lzy/okserver/download/DownloadTask.java:326-425 | after a 206 every byte of the body is counted on top of the resume position, and the task finishes exactly at totalSize |
| RunProperties.ResumedBodyWroteAll | okserver/src/main/java/com/lzy/okserver/download/DownloadTask.java:390-425 | the resumed body is written after the bytes already on disk |
| RunProperties.RestartReachesBody | okserver/src/main/java/com/lzy/okserver/download/DownloadTask.java:318-373 | a 200 reaches the body writing from byte 0 into an emptied file, with the resolved total and the new token |
| RunProperties.RunAnswered | okserver/src/main/java/com/lzy/okserver/download/DownloadTask.java:256-292 | before the response is read, run() changes only the position and the request headers, never the total |
| RunProperties.RestartKeepsRecord | okserver/src/main/java/com/lzy/okserver/download/DownloadTask.java:317-337 | a 200 records the new token, sets filePath, and resolves the total |
| RunProperties.RestartWroteAll | okserver/src/main/java/com/lzy/okserver/download/DownloadTask.java:319-425 | after a 200 the body is counted from 0 and the task finishes exactly when it reaches the resolved total |
| RunProperties.FullResponseRestarts | okserver/src/main/java/com/lzy/okserver/download/DownloadTask.java:319-425 | whatever was on disk, a 200 rewrites the file from byte 0. Token and total are taken from the response; the task finishes with filePath holding the body exactly when the body has the total's length |
| RunProperties.OverlongBodyExceedsTotal | okserver/src/main/java/com/lzy/okserver/download/DownloadTask.java:319-337 | the code does not keep currentSize within a known totalSize: on a 200 a body longer than the resolved total (a stale total kept from an earlier attempt, or a body longer than its Content-Length) ends with currentSize above totalSize and not in FINISH |
| RunProperties.UnknownLengthFinishes | okserver/src/main/java/com/lzy/okserver/download/DownloadTask.java:331-443 | with no length known anywhere, a fully read body always finishes; total and currentSize become the bytes received, and filePath holds them |
| RunProperties.PauseWithPlaceholderFinishesEarly | okserver/src/main/java/com/lzy/okserver/download/DownloadTask.java:441-443 | as written: a pause in a body of unknown length turns the placeholder total into the bytes so far. The next run(), with the change token and a 206 answer, resumes at that position and takes the already-complete branch: it reports FINISH with totalSize and currentSize equal to the partial length |
| RunProperties.PauseKeepsPlaceholder | okserver/src/main/java/com/lzy/okserver/download/DownloadTask.java:441-443 | as corrected: a paused unknown-length download keeps the placeholder total, and the next run() with a 206 answer asks for the rest and goes on to write the body from the bytes so far |
| RunProperties.ResumeAtTotalFinishes | okserver/src/main/java/com/lzy/okserver/download/DownloadTask.java:374-383 | a 206 for a position equal to the total whose file holds exactly those bytes finishes without streaming, with total, currentSize and request kept |
| RunProperties.UpdateKeepsOrder | okserver/src/main/java/com/lzy/okserver/download/DownloadTask.java:529-532 | updateDatabase keeps notify-after-persist |
| RunProperties.ErrorKeepsOrder | okserver/src/main/java/com/lzy/okserver/download/DownloadTask.java:493-504 | postOnError keeps notify-after-persist |
| RunProperties.CompleteKeepsOrder | okserver/src/main/java/com/lzy/okserver/download/DownloadTask.java:377-383 | finishing keeps notify-after-persist |
| RunProperties.StreamKeepsOrder | okserver/src/main/java/com/lzy/okserver/download/DownloadTask.java:437-440 | the chunk loop keeps notify-after-persist |
| RunProperties.WriteBodyKeepsOrder | okserver/src/main/java/com/lzy/okserver/download/DownloadTask.java:390-425 | opening, streaming and reconciling keep notify-after-persist |
| RunProperties.CheckFileKeepsOrder | okserver/src/main/java/com/lzy/okserver/download/DownloadTask.java:356-388 | the file check keeps notify-after-persist |
| RunProperties.PrepareKeepsOrder | okserver/src/main/java/com/lzy/okserver/download/DownloadTask.java:326-354 | the preparation keeps notify-after-persist |
| RunProperties.AcceptedKeepsOrder | okserver/src/main/java/com/lzy/okserver/download/DownloadTask.java:326-425 | the accepted part of a run keeps notify-after-persist |
| RunProperties.RespondKeepsOrder | okserver/src/main/java/com/lzy/okserver/download/DownloadTask.java:299-324 | the code check keeps notify-after-persist |
| RunProperties.CheckBreakpointKeepsOrder | okserver/src/main/java/com/lzy/okserver/download/DownloadTask.java:258-282 | the breakpoint check keeps notify-after-persist |
| RunProperties.RunKeepsPersistOrder | okserver/src/main/java/com/lzy/okserver/download/DownloadTask.java:256-425 | in every run, every delivery directly follows, in the trace, an Update of the very record it delivers |
| Lifecycle.Register | okserver/src/main/java/com/lzy/okserver/download/DownloadTask.java:153-160 | a listener is stored under its tag, replacing any listener with that tag; null is ignored; nothing else changes |
| Lifecycle.UnRegister | okserver/src/main/java/com/lzy/okserver/download/DownloadTask.java:162-174 | the tag is gone from the map, every other listener stays, and nothing is added |
| Lifecycle.RegisterThenUnRegister | okserver/src/main/java/com/lzy/okserver/download/DownloadTask.java:153-174 | registering a listener and then unregistering its tag leaves the map without that tag |
| Lifecycle.Save | okserver/src/main/java/com/lzy/okserver/download/DownloadTask.java:145-151 | with folder and fileName set, filePath becomes their join and nothing else in the record changes; otherwise the record is kept. The record is then upserted into the store under its tag, with one Replace; the other rows, the files, the listeners, the task table, the queue and the runnable are kept |
| Lifecycle.SettersKeepNamesFilled | okserver/src/main/java/com/lzy/okserver/download/DownloadTask.java:93-118 | folder, fileName and tempFileName take a non-blank argument and ignore a null or blank one, so names that are unset or non-blank stay so; a fileName set through them is never empty |
| Lifecycle.StartRefused | okserver/src/main/java/com/lzy/okserver/download/DownloadTask.java:176-179 | start() on a task missing from the task table or the store changes nothing |
| Lifecycle.Start | okserver/src/main/java/com/lzy/okserver/download/DownloadTask.java:176-202 | start() keeps listeners, task table and files, and queues at most one new runnable while dropping none |
| Lifecycle.VerifyFinished | okserver/src/main/java/com/lzy/okserver/download/DownloadTask.java:185-198 | a finished task re-checked by start() ends in FINISH or in ERROR with the storage cause, and no file changes |
| Lifecycle.CheckedFile | okserver/src/main/java/com/lzy/okserver/download/DownloadTask.java:189-192 | the file inspected is filePath itself when that file exists or no suffix is set |
| Lifecycle.StartQueues | okserver/src/main/java/com/lzy/okserver/download/DownloadTask.java:180-184 | from NONE, PAUSE or ERROR: NONE is written with an Update and announced, then WAITING; exactly one new runnable, not queued before, is queued; the store holds the WAITING record |
| Lifecycle.StartIgnoredWhileBusy | okserver/src/main/java/com/lzy/okserver/download/DownloadTask.java:199-201 | a WAITING or LOADING task is never queued twice |
| Lifecycle.StartVerifiesFinished | okserver/src/main/java/com/lzy/okserver/download/DownloadTask.java:185-198 | a FINISH task is not queued. It finishes again exactly when filePath is set and the inspected file holds totalSize bytes; otherwise it fails with a storage error |
| Lifecycle.CheckedFileFallback | okserver/src/main/java/com/lzy/okserver/download/DownloadTask.java:189-192 | when filePath is missing and a suffix is set, the file inspected is fileName plus suffix in filePath's folder |
| Lifecycle.PauseOutcomes | okserver/src/main/java/com/lzy/okserver/download/DownloadTask.java:220-230 | pause() takes the runnable out of the queue. WAITING becomes PAUSE, written with an Update and announced; LOADING becomes PAUSE with speed 0 and nothing else; other statuses are left alone |
| Lifecycle.PauseIdempotent | okserver/src/main/java/com/lzy/okserver/download/DownloadTask.java:220-230 | pausing twice leaves the same queue and record as pausing once |
| Lifecycle.Pause | okserver/src/main/java/com/lzy/okserver/download/DownloadTask.java:220-230 | pause() keeps listeners, task table, runnable and files, and only removes from the queue |
| Lifecycle.DeleteFilesAsWritten | okserver/src/main/java/com/lzy/okserver/download/DownloadTask.java:207-208 | as written: the deletion throws exactly when tempFileName is null; filePath is deleted in any case, and no file is added or changed |
| Lifecycle.DeleteFilesRemovesDownload | okserver/src/main/java/com/lzy/okserver/download/DownloadTask.java:207-208 | as corrected: afterwards neither filePath nor the file being written exists, every other file is untouched, and nothing throws |
| Lifecycle.DeleteFiles | okserver/src/main/java/com/lzy/okserver/download/DownloadTask.java:207-208 | as corrected: the deletion only removes files and never changes one |
| Lifecycle.Restart | okserver/src/main/java/com/lzy/okserver/download/DownloadTask.java:204-215 | as corrected: restart() keeps listeners and task table and leaves currentSize 0 |
| Lifecycle.RestartQueuesFromZero | okserver/src/main/java/com/lzy/okserver/download/DownloadTask.java:204-215 | as corrected: restart() of a task in the task table always queues it again: WAITING from byte 0, files gone, record in the store, and a new runnable queued |
| Lifecycle.RestartRefusedOnlyWhenUnlisted | okserver/src/main/java/com/lzy/okserver/download/DownloadTask.java:204-215 | the start() at the end of restart() refuses exactly when the task is missing from the task table |
| Lifecycle.RestartAsWritten | okserver/src/main/java/com/lzy/okserver/download/DownloadTask.java:204-215 | as written: restart() keeps listeners and task table whether or not the deletion throws |
| Lifecycle.RestartWithoutTempNameStalls | okserver/src/main/java/com/lzy/okserver/download/DownloadTask.java:204-215 | as written, without a temp file name restart() stops after pause() and the deletion of filePath: the record, store and trace are those pause() left, the task is neither reset nor WAITING, and its runnable is out of the queue though its file is gone |
| Lifecycle.Remove | okserver/src/main/java/com/lzy/okserver/download/DownloadTask.java:242-253 | as corrected: remove() takes exactly the task's tag out of the task table and clears the listeners |
| Lifecycle.RemoveForgets | okserver/src/main/java/com/lzy/okserver/download/DownloadTask.java:242-253 | as corrected: after remove() the record is gone from the store and the task from the table, its runnable is not queued, onRemove is the last delivery, and the listeners are cleared. Other records stay; without isDeleteFile no file changes |
| Lifecycle.RemoveAsWritten | okserver/src/main/java/com/lzy/okserver/download/DownloadTask.java:242-253 | as written: unless remove(true) meets a null tempFileName, the listeners are cleared and the tag leaves the task table |
| Lifecycle.RemoveWithoutTempNameKeepsRecord | okserver/src/main/java/com/lzy/okserver/download/DownloadTask.java:242-253 | as written, remove(true) without a temp file name throws after deleting filePath: the stored record, the task table and the listeners stay, and the trace ends as pause() left it, with no onRemove |
| Download.DownloadTask.constructor | okserver/src/main/java/com/lzy/okserver/download/DownloadTask.java:72-84 | a new task has status NONE, total -1, the given tag and folder, and no listeners |
| Download.DownloadTask.FromRecord | okserver/src/main/java/com/lzy/okserver/download/DownloadTask.java:86-91 | a task restored from a record holds that record and no listeners |
| Download.DownloadTask.Folder | okserver/src/main/java/com/lzy/okserver/download/DownloadTask.java:93-100 | the record afterwards is Lifecycle.SetFolder of the record before |
| Download.DownloadTask.FileName | okserver/src/main/java/com/lzy/okserver/download/DownloadTask.java:102-109 | the record afterwards is Lifecycle.SetFileName of the record before |
| Download.DownloadTask.TempFileName | okserver/src/main/java/com/lzy/okserver/download/DownloadTask.java:111-118 | the record afterwards is Lifecycle.SetTempFileName of the record before |
| Download.DownloadTask.UpdateDatabase | okserver/src/main/java/com/lzy/okserver/download/DownloadTask.java:529-532 | writes exactly one Update of the current record |
| Download.DownloadTask.Replace | okserver/src/main/java/com/lzy/okserver/download/DownloadTask.java:149 | writes exactly one Replace of the current record |
| Download.DownloadTask.Deliver | okserver/src/main/java/com/lzy/okserver/download/DownloadTask.java:455-459 | one delivery of the record to the listeners registered now |
| Download.DownloadTask.Post | okserver/src/main/java/com/lzy/okserver/download/DownloadTask.java:451-527 | the state afterwards is Records.Post of the state before |
| Download.DownloadTask.PostOnStart | okserver/src/main/java/com/lzy/okserver/download/DownloadTask.java:451-460 | the state afterwards is Records.PostOnStart of the state before |
| Download.DownloadTask.PostWaiting | okserver/src/main/java/com/lzy/okserver/download/DownloadTask.java:462-471 | the state afterwards is Records.PostWaiting of the state before |
| Download.DownloadTask.PostPause | okserver/src/main/java/com/lzy/okserver/download/DownloadTask.java:473-482 | the state afterwards is Records.PostPause of the state before |
| Download.DownloadTask.PostLoading | okserver/src/main/java/com/lzy/okserver/download/DownloadTask.java:484-491 | the state afterwards is Records.PostLoading of the state before |
| Download.DownloadTask.PostOnError | okserver/src/main/java/com/lzy/okserver/download/DownloadTask.java:493-504 | the state afterwards is Records.PostOnError of the state before |
| Download.DownloadTask.PostOnFinish | okserver/src/main/java/com/lzy/okserver/download/DownloadTask.java:506-517 | the state afterwards is Records.PostOnFinish of the state before |
| Download.DownloadTask.PostOnRemove | okserver/src/main/java/com/lzy/okserver/download/DownloadTask.java:519-527 | onRemove goes to the listeners registered before, and then the listener map is empty |
| Download.DownloadTask.Register | okserver/src/main/java/com/lzy/okserver/download/DownloadTask.java:153-160 | the task afterwards is Lifecycle.Register of the task before |
| Download.DownloadTask.UnRegister | okserver/src/main/java/com/lzy/okserver/download/DownloadTask.java:162-167 | the task afterwards is Lifecycle.UnRegister by the listener's tag |
| Download.DownloadTask.UnRegisterTag | okserver/src/main/java/com/lzy/okserver/download/DownloadTask.java:169-174 | the task afterwards is Lifecycle.UnRegister by the tag |
| Download.DownloadTask.Save | okserver/src/main/java/com/lzy/okserver/download/DownloadTask.java:145-151 | the task afterwards is Lifecycle.Save of the task before |
| Download.DownloadTask.VerifyFinished | okserver/src/main/java/com/lzy/okserver/download/DownloadTask.java:185-198 | the state afterwards is Lifecycle.VerifyFinished of the state before |
| Download.DownloadTask.Start | okserver/src/main/java/com/lzy/okserver/download/DownloadTask.java:176-202 | the task afterwards is Lifecycle.Start of the task before; it reports refusal exactly when the task was not saved |
| Download.DownloadTask.Pause | okserver/src/main/java/com/lzy/okserver/download/DownloadTask.java:220-230 | the task afterwards is Lifecycle.Pause of the task before |
| Download.DownloadTask.DeleteFiles | okserver/src/main/java/com/lzy/okserver/download/DownloadTask.java:207-208 | as corrected: the files afterwards are Lifecycle.DeleteFiles of the files before |
| Download.DownloadTask.Restart | okserver/src/main/java/com/lzy/okserver/download/DownloadTask.java:204-215 | as corrected: the task afterwards is Lifecycle.Restart of the task before; it reports refusal exactly when the task was not in the task table |
| Download.DownloadTask.Remove | okserver/src/main/java/com/lzy/okserver/download/DownloadTask.java:242-253 | as corrected: the task afterwards is Lifecycle.Remove of the task before; the result says whether the task table held it |
| Download.DownloadTask.CheckBreakpoint | okserver/src/main/java/com/lzy/okserver/download/DownloadTask.java:258-282 | state and position afterwards are Transfer.CheckBreakpoint of the state before |
| Download.DownloadTask.AttachRange | okserver/src/main/java/com/lzy/okserver/download/DownloadTask.java:288-291 | the state afterwards is Transfer.AttachRange of the state before |
| Download.DownloadTask.Respond | okserver/src/main/java/com/lzy/okserver/download/DownloadTask.java:299-324 | the state and phase afterwards are Transfer.Respond of the state before |
| Download.DownloadTask.Prepare | okserver/src/main/java/com/lzy/okserver/download/DownloadTask.java:326-354 | the state and phase afterwards are Transfer.Prepare of the state before |
| Download.DownloadTask.CheckFile | okserver/src/main/java/com/lzy/okserver/download/DownloadTask.java:356-388 | the state and phase afterwards are Transfer.CheckFile of the state before |
| Download.DownloadTask.Complete | okserver/src/main/java/com/lzy/okserver/download/DownloadTask.java:377-383 | the state afterwards is Transfer.Complete of the state before |
| Download.DownloadTask.WriteChunk | okserver/src/main/java/com/lzy/okserver/download/DownloadTask.java:438-439 | one chunk is written and announced as Records.PostLoading of Transfer.WriteChunk |
| Download.DownloadTask.Download | okserver/src/main/java/com/lzy/okserver/download/DownloadTask.java:430-449 | as corrected: the while loop leaves the state and ending that Transfer.Download gives |
| Download.DownloadTask.Reconcile | okserver/src/main/java/com/lzy/okserver/download/DownloadTask.java:406-424 | the state afterwards is Transfer.Reconcile of the state before |
| Download.DownloadTask.WriteBody | okserver/src/main/java/com/lzy/okserver/download/DownloadTask.java:390-425 | as corrected: the state afterwards is Transfer.WriteBody of the state before |
| Download.DownloadTask.Run | okserver/src/main/java/com/lzy/okserver/download/DownloadTask.java:256-425 | as corrected: the state afterwards is Transfer.Run of the state before, so every RunProperties lemma holds of the imperative run() |
| Schema.Descriptor | okgo/src/main/java/com/lzy/okgo/db/DBHelper.java:61-106 | definition: the columns each table's chain of addColumn calls gives; Schema.TransferTablesAgree, Schema.CacheKeyedByKey and Schema.CookieKeyedByComposite state what they hold |
| Schema.TransferTablesAgree | okgo/src/main/java/com/lzy/okgo/db/DBHelper.java:72-106 | the download and upload chains, transcribed separately, describe the same 17 columns; tag is their only primary key; file_suffix and temp_filename are their last two columns |
| Schema.CacheKeyedByKey | okgo/src/main/java/com/lzy/okgo/db/DBHelper.java:61-64 | the cache table's only primary key is key, and it has no composite key |
| Schema.CookieKeyedByComposite | okgo/src/main/java/com/lzy/okgo/db/DBHelper.java:66-70 | the cookie table has no single-column key; its one key is the composite of host, name and domain, and each of them is a varchar column |
| Schema.CreateAllInOrder | okgo/src/main/java/com/lzy/okgo/db/DBHelper.java:110-115 | onCreate creates cache, cookie, download and upload in that order, each from its descriptor |
| Schema.CreateAll | okgo/src/main/java/com/lzy/okgo/db/DBHelper.java:110-115 | definition: the four creations of onCreate; Schema.CreateAllInOrder states their order and content |
| Schema.Drops | okgo/src/main/java/com/lzy/okgo/db/DBHelper.java:141-149 | definition: the drops of the fallback; Schema.DropsExactlyStale and Schema.DropsInTableOrder state what they drop |
| Schema.Migration | okgo/src/main/java/com/lzy/okgo/db/DBHelper.java:118-154 | definition: the statements of onUpgrade for a version pair; the three Upgrade lemmas state them case by case |
| Schema.DropsExactlyStale | okgo/src/main/java/com/lzy/okgo/db/DBHelper.java:141-149 | the fallback issues only drops, and drops a table exactly when it needs an upgrade |
| Schema.DropsInTableOrder | okgo/src/main/java/com/lzy/okgo/db/DBHelper.java:142-149 | the drops follow table order, so no table is dropped twice |
| Schema.UpgradeFromVersion2 | okgo/src/main/java/com/lzy/okgo/db/DBHelper.java:136-140 | from version 2 to 3 temp_filename is added to download and then to upload, and nothing is dropped or created |
| Schema.UpgradeFromVersion1 | okgo/src/main/java/com/lzy/okgo/db/DBHelper.java:123-152 | from version 1 to 3 the four columns are added, and then the fallback still runs, because the second if is not chained to the first |
| Schema.UpgradeOtherwise | okgo/src/main/java/com/lzy/okgo/db/DBHelper.java:141-152 | every other version pair drops exactly the stale tables, recreates all four, and adds no column |
| Schema.AddedColumnsAreDescribed | okgo/src/main/java/com/lzy/okgo/db/DBHelper.java:123-140 | every column the migration adds is a column of that table's version-3 descriptor, with the same type |
| Schema.TableEntity.AddColumn | okgo/src/main/java/com/lzy/okgo/db/DBHelper.java:61-64 | addColumn appends the column and returns the same entity, for chaining |
| Schema.Database.ExecSql | okgo/src/main/java/com/lzy/okgo/db/DBHelper.java:111 | execSQL appends exactly that statement |
| Schema.DBHelper.Describe | okgo/src/main/java/com/lzy/okgo/db/DBHelper.java:61-106 | a chain of addColumn calls leaves the entity with those columns appended, in order |
| Schema.DBHelper.constructor | okgo/src/main/java/com/lzy/okgo/db/DBHelper.java:50-107 | the helper's four fresh entities name the four tables and hold their descriptors |
| Schema.DBHelper.OnCreate | okgo/src/main/java/com/lzy/okgo/db/DBHelper.java:110-115 | issues exactly the four creations of CreateAll |
| Schema.DBHelper.AddFromVersion1 | okgo/src/main/java/com/lzy/okgo/db/DBHelper.java:123-135 | issues exactly the four ALTERs of the (1, 3) block |
| Schema.DBHelper.AddFromVersion2 | okgo/src/main/java/com/lzy/okgo/db/DBHelper.java:136-140 | issues exactly the two ALTERs of the (2, 3) block |
| Schema.DBHelper.DropStale | okgo/src/main/java/com/lzy/okgo/db/DBHelper.java:142-149 | issues exactly the drops of the stale tables |
| Schema.DBHelper.SecondBlock | okgo/src/main/java/com/lzy/okgo/db/DBHelper.java:136-152 | issues the (2, 3) ALTERs or, for any other pair, the drops and then onCreate |
| Schema.DBHelper.OnUpgrade | okgo/src/main/java/com/lzy/okgo/db/DBHelper.java:118-154 | issues exactly Migration(old, new, stale), whose content the Upgrade lemmas give |
| Schema.DBHelper.OnDowngrade | okgo/src/main/java/com/lzy/okgo/db/DBHelper.java:157-159 | a downgrade issues the same statements as an upgrade between the same versions |

## Left out

- Threads. The model leaves out the thread pool, `runOnUiThread`, the priority ordering of the runnables and the store's lock.
  - Listener dispatch is one `Deliver` effect per post, to the listeners registered when the post runs. The map's iteration order is unspecified.
  - A pause from another thread during the chunk loop is a `Flip` step in the body.
- I/O. HTTP (`request.execute`, the response headers and body), file creation, opening and seeking are inputs.
  - `Attempt.exchange` carries the response or the failure. `folderCreated` and `fileOpens` say whether the folder and the file could be made.
  - Reading is the step sequence of the body.
- `HttpUtils.getNetFileName` is the `netFileName` field of the response. `getAbsolutePath` is taken to be the joined path.
- Records.UpdateDatabase: the model takes `Progress.buildUpdateContentValues` (not part of this model) to carry the whole record, so an `Update` rewrites every column of an existing row. If that builder leaves columns out, the store claims that follow an `Update` (the store contents in Lifecycle.StartQueues, Records.PostEffects and the rows after a post) hold only for the columns it writes; the trace-order claims of Records.PersistedBeforeNotified and RunProperties.RunKeepsPersistOrder do not depend on it.
- `Progress.changeProgress`: its throttled recomputation of fraction, speed and time is not modelled. Every chunk writes the record with an Update and announces it (`postLoading`), and fraction is only set at the points `run()` sets it outright.
- The setters `folder`, `fileName` and `tempFileName` (lines 93-118) are modelled: they ignore a null or blank argument (`Lifecycle.SetFolder`, `SetFileName`, `SetTempFileName` and the `Download.DownloadTask` methods of the same names). The warning they log is left out. A record read back from the store may still hold blank names; the model does not assume otherwise.
- The setters `priority`, `extra1` and `fileSuffix` (lines 119-127 and 139-142) are plain assignments, and the model sets those fields in the record directly. `extra2` and `extra3` (lines 129-137) are not modelled.
- The `HttpUtils.checkNotNull` calls at lines 73, 87, 163 and 170 are left out. The tag, the record, the listener and the tag argument are non-null values in the model, so the NullPointerException they guard against cannot arise.
- The fields `url`, `date`, `extra2`, `extra3` and the Request object are left out, except for the two range headers `run()` sets on it.
- `IOUtils.delFileOrFolder` deletes one path. Folders and recursive deletion are not modelled.
- `remove()` is `remove(false)` and is not a separate member. The task that `remove(isDeleteFile)` returns is reduced to whether the task table held it.
- A thrown `IllegalStateException` from `start()` is the `refused` result of `Download.DownloadTask.Start`.
- Lifecycle.Restart: uses the corrected deletion, which deletes the temp file only when a temp file name is set. As written, `restart()` of a task without `tempFileName` throws at line 208 and queues nothing; Lifecycle.RestartWithoutTempNameStalls states that, over Lifecycle.RestartAsWritten.
- Lifecycle.RestartQueuesFromZero: uses the same corrected deletion as Lifecycle.Restart, for the same reason.
- Download.DownloadTask.Restart: uses the same corrected deletion as Lifecycle.Restart, for the same reason.
- Lifecycle.Remove: uses the corrected deletion. As written, `remove(true)` of a task without `tempFileName` throws at line 246, before the store delete, `removeTask` and `postOnRemove`; Lifecycle.RemoveWithoutTempNameKeepsRecord states that, over Lifecycle.RemoveAsWritten.
- Lifecycle.RemoveForgets: uses the same corrected deletion as Lifecycle.Remove, for the same reason.
- Download.DownloadTask.Remove: uses the same corrected deletion as Lifecycle.Remove, for the same reason.
- Download.DownloadTask.DeleteFiles: models the corrected deletion (Lifecycle.DeleteFiles); the as-written one is Lifecycle.DeleteFilesAsWritten.
- Transfer.WriteBody: uses the corrected `download()` (Transfer.Download), which replaces the Long.MAX_VALUE placeholder only when the body was read to its end. As written (lines 441-443) the placeholder is replaced on every exit without an exception, pauses included; Transfer.DownloadAsWritten and RunProperties.PauseWithPlaceholderFinishesEarly state that.
- Transfer.Accepted: uses the same corrected `download()` as Transfer.WriteBody, for the same reason.
- Transfer.Answered: uses the same corrected `download()` as Transfer.WriteBody, for the same reason.
- Transfer.Run: uses the same corrected `download()` as Transfer.WriteBody, for the same reason.
- Download.DownloadTask.Download: uses the same corrected `download()` as Transfer.WriteBody, for the same reason.
- Download.DownloadTask.WriteBody: uses the same corrected `download()` as Transfer.WriteBody, for the same reason.
- Download.DownloadTask.Run: uses the same corrected `download()` as Transfer.WriteBody, for the same reason.
- On a 200, `run()` does not reset a stale totalSize that a previous attempt stored. The model keeps this as written.
- currentSize ≤ totalSize is not an invariant of the code, and the model does not claim it. RunProperties.OverlongBodyExceedsTotal shows a 200 whose body is longer than the resolved total (a stale total, or a body longer than its Content-Length): the run ends with currentSize above totalSize.
- `Schema`: `DBUtils.isNeedUpgradeTable` is not part of this model. Its answer for each table is the fixed set `Database.stale`, read when the fallback runs; the effect of the ALTERs on that answer is not modelled.
- `Schema`: `buildTableString` and the SQL text are abstracted to the statement they build (`CreateTable` with its columns, `AddColumn`, `DropTable`). `ColumnEntity` is reduced to a name, a type and its primary-key and not-null flags, or a composite key.
- `Schema.DBHelper.Describe`: the constructor's chained `addColumn` calls are one loop over each descriptor, one call per column in source order. This keeps the proof within the solver's budget.

## Findings

| source | as written | input that shows it | evidently intended | confidence | as-written member | corrected member |
|---|---|---|---|---|---|---|
| okserver/src/main/java/com/lzy/okserver/download/DownloadTask.java:207-208 | `restart()` and `remove(true)` build `new File(progress.folder, progress.tempFileName)` even when `tempFileName` is null, which throws a NullPointerException after filePath was already deleted; `remove(true)` repeats the two lines at 245-246 | any task created without `tempFileName(...)`, then `restart()` or `remove(true)` | delete the temp file only when a temp file name is set | not executed | Lifecycle.RestartWithoutTempNameStalls (over Lifecycle.RestartAsWritten) and Lifecycle.RemoveWithoutTempNameKeepsRecord (over Lifecycle.RemoveAsWritten) | Lifecycle.DeleteFilesRemovesDownload (over Lifecycle.DeleteFiles, used by Restart and Remove) and Lifecycle.RestartQueuesFromZero |
| okserver/src/main/java/com/lzy/okserver/download/DownloadTask.java:441-443 | after the chunk loop `download()` replaces the Long.MAX_VALUE placeholder by currentSize also when the loop stopped because of a pause; the paused record then has totalSize == currentSize, so the next `run()` takes the "already complete" branch (lines 374-383) and reports FINISH for a partial file | a server without Content-Length that sends an ETag or Last-Modified; one chunk; then `pause()`; then `start()`, whose request is answered with 206 | replace the placeholder only when the body was read to its end | not executed | RunProperties.PauseWithPlaceholderFinishesEarly (over Transfer.DownloadAsWritten) | RunProperties.PauseKeepsPlaceholder (over Transfer.Download, used by WriteBody) |
