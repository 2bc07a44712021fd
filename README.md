# WhisperDesktop coordination core, modelled in Dafny

WhisperDesktop is a desktop voice-to-text tool. This project models its coordination layer.

**The later rewrite (`src/`)**
- Recordings are queued as file paths on a process-wide event bus.
- A background worker turns each path into a result record (text plus segments).
- The application controller drains the result queue into an SQLite store. It deletes the audio file and re-announces the result on the bus.
- Around this sit:
  - a recorder state machine;
  - a configuration manager with a recursive merge;
  - a UI status machine with a history preview;
  - an error-collecting logger.

**The earlier rewrite (`whisper_desktop/`, copied unchanged as `whisper_desktop_v3/`)**
- An audio chunk buffer.
- A sentinel-terminated transcription loop.
- A small SQLite table with delete.
- A settings record with its dictionary round trip.

**A script** scores transcriptions against ground truth with a loose string comparison.

**How the foreign pieces are modelled**
- The Whisper engine, PyAudio, SQLite, Qt, the clock and the file system become parameters.
- Python objects are one `Value` datatype (module `Values`). This keeps `dict.get` defaults, truthiness and `isinstance` checks exact.
- Callbacks are abstract `Handler`s: an identity plus whether calling it raises. A publish returns the trace of calls it made.
- Components that talk to the bus or the file system return an ordered `Effect` trace: put, publish, insert, file removal, callback.
- Queues are sequences. SQLite tables are sequences of rows with an AUTOINCREMENT counter.
- Loops that the source runs in place are Dafny methods with loop invariants. Each is proved against a recursive specification function, and the properties are proved about that function.

Modules, one file each:

| module | file |
|---|---|
| `Values` | Python objects |
| `Text` | `str.strip`, `str.split` and `join` |
| `Tables` | the SQL queries |
| `EventBus` | the bus |
| `TranscriberWorker` | the worker |
| `StorageManager` | the store |
| `Database` | the earlier table |
| `Recorder` | the recorder |
| `ApplicationController` | the controller |
| `Audio` | the chunk buffer |
| `Transcription` | the earlier loop |
| `ConfigManager` | the configuration manager |
| `Settings` | the settings record |
| `UiController` | the window logic |
| `Logging` | both logger files |
| `LabeledAudios` | the script |

## Model

| member | source | states |
|---|---|---|
| EventBus.Bus.constructor | src/event_bus/event_bus.py:34-38 | every event tag starts with an empty subscriber list; exactly the 'transcription' and 'result' queues exist, both empty |
| EventBus.BusSlot.Get | src/event_bus/event_bus.py:27-32 | `EventBus()` returns the stored instance when there is one; otherwise it creates, initialises and stores a fresh bus, so later calls return that same bus |
| EventBus.BusSlot.constructor | src/event_bus/event_bus.py:24 | before the first `EventBus()` there is no instance |
| EventBus.Bus.GetQueue | src/event_bus/event_bus.py:41-42 | the queue is returned exactly when the name is known; an unknown name gives None |
| EventBus.Bus.Subscribe | src/event_bus/event_bus.py:49-51 | the handler is appended at the end of that tag's list; every other tag's list and all queues are unchanged |
| EventBus.Bus.Unsubscribe | src/event_bus/event_bus.py:53-56 | that tag's list loses the first occurrence of the handler, or is unchanged if the handler is absent; nothing else changes |
| EventBus.RemoveFirst | src/event_bus/event_bus.py:55-56 | removing an absent handler changes nothing; the result's multiset is the input's minus one copy of the handler |
| EventBus.RemoveFirstAt | src/event_bus/event_bus.py:55-56 | when the first occurrence is at index i, the result is the list before i followed by the list after i, in order |
| EventBus.UnsubscribeRemovesOne | src/event_bus/event_bus.py:51-56 | one unsubscribe drops exactly one copy; after unsubscribing a handler registered once, a publish never calls it |
| EventBus.Bus.Publish | src/event_bus/event_bus.py:44-47 | the calls made and whether an exception escaped are exactly those of `Dispatch` over the tag's subscribers, in registration order, stopping at the first raising callback |
| EventBus.DispatchReachesAll | src/event_bus/event_bus.py:44-47 | when no callback raises, publish calls every subscribed callback once, in order, with the same payload, and raises nothing |
| EventBus.DispatchStopsAtFirstRaise | src/event_bus/event_bus.py:44-47 | when the first raising callback is at position k, callbacks 0..k are called in order, no later one is called, and the exception escapes |
| EventBus.CallCount | src/event_bus/event_bus.py:46-47 | a handler subscribed n times receives the payload n times per publish |
| EventBus.DispatchCallsFrom | src/event_bus/event_bus.py:46-47 | every call a publish makes goes to a subscribed handler and carries the published payload |
| EventBus.CallsOf | src/event_bus/event_bus.py:46-47 | one call per handler, same length, the i-th call to the i-th handler with the payload |
| EventBus.RaisingSubscriberBlocksTheNext | src/event_bus/event_bus.py:44-47 | with a raising first subscriber and a well-behaved second one, only the first is called and the exception escapes |
| EventBus.Bus.PublishIsolated | src/event_bus/event_bus.py:44-47 | the intended publish: its trace equals the isolated dispatch, which calls every subscriber in order and never raises |
| EventBus.IsolatedCallsEachAsSubscribed | tests/test_event_bus.py:32-53 | with isolation, publish never raises, and each handler is called exactly as many times as it is subscribed, whether or not it raises |
| EventBus.Bus.AddQueue | src/event_bus/event_bus.py:58-61 | a new name gets an empty plain queue; an existing name keeps its original queue, so a repeat call is a no-op; subscribers are unchanged |
| EventBus.Bus.AddResultQueue | src/event_bus/event_bus.py:63-66 | a new name gets an empty ResultQueue; an existing name keeps its queue; subscribers are unchanged |
| EventBus.Bus.Put | src/event_bus/event_bus.py:41-42 | `get_queue(name).put(item)` appends the item at the tail of that queue only; with an unknown name the call fails and nothing changes |
| EventBus.Bus.Take | src/event_bus/event_bus.py:41-42 | the oldest item is removed and returned (FIFO); an empty or unknown queue gives None and nothing changes |
| EventBus.PutThenTake | tests/test_event_bus.py:26-30 | a put followed by a take on an empty queue returns the same item and leaves the queues as they were |
| EventBus.TagListed | src/event_bus/event_bus.py:12-17 | every event tag is among the tags the bus initialises |
| TranscriberWorker.Worker.constructor | src/whisperdesktop/transcriber/transcriber_worker.py:16-32 | the worker keeps its `max_loops` and its bus, and the stop event starts cleared |
| TranscriberWorker.Worker.Run | src/whisperdesktop/transcriber/transcriber_worker.py:34-88 | if the model fails to load, nothing is dequeued and nothing happens; otherwise the loop counts exactly `Iterations` passes and dequeues the first min(passes, queued) items in order; the result queue and the effects are the fold of `HandleJob` over exactly those items |
| TranscriberWorker.IterationsBounded | src/whisperdesktop/transcriber/transcriber_worker.py:51-57 | never more passes (so dequeue attempts) than `max_loops`, nor more than begin before the stop flag reads set; none at all once stop is set; exactly `max_loops` when the stop flag is not set first |
| TranscriberWorker.Worker.HandleOne | src/whisperdesktop/transcriber/transcriber_worker.py:57-88 | one dequeued item is handled exactly as `HandleJob` specifies |
| TranscriberWorker.HandleJobShape | src/whisperdesktop/transcriber/transcriber_worker.py:57-88 | one item yields one of three outcomes: nothing (None); the TRANSCRIPTION_REQUESTED publish alone, with no result (engine failure or raising subscriber); or requested, then the put of its result, then TRANSCRIPTION_COMPLETED with that result |
| TranscriberWorker.NoneIsSkipped | src/whisperdesktop/transcriber/transcriber_worker.py:58-59 | a None item produces no event and no result |
| TranscriberWorker.FailureYieldsNoResult | src/whisperdesktop/transcriber/transcriber_worker.py:61-88 | an engine failure is caught: the item was announced as requested but yields no result and no completion event |
| TranscriberWorker.HandleJobSucceeds | src/whisperdesktop/transcriber/transcriber_worker.py:61-86 | when no requested-subscriber raises and the engine succeeds, the item yields exactly its result record |
| TranscriberWorker.HandleAllBracketsPuts | src/whisperdesktop/transcriber/transcriber_worker.py:61-86 | over any run of items, every result put is immediately preceded by TRANSCRIPTION_REQUESTED for the same audio path and immediately followed by TRANSCRIPTION_COMPLETED with that result; there are never more results than items |
| TranscriberWorker.AllSucceedOneResultEach | src/whisperdesktop/transcriber/transcriber_worker.py:57-84 | when every item transcribes and no subscriber raises, there is exactly one result per dequeued item, in dequeue order |
| TranscriberWorker.ExpectedResultsInOrder | src/whisperdesktop/transcriber/transcriber_worker.py:77-84 | the k-th expected result names the k-th dequeued item as its `audio_path` |
| TranscriberWorker.ResultContents | src/whisperdesktop/transcriber/transcriber_worker.py:67-83 | the result has exactly the five keys; `audio_path` is the item; `text` is the segment texts joined by single spaces and stripped; `segments` holds one record per segment, in engine order, copying id, start, end and text |
| TranscriberWorker.BuildResult | src/whisperdesktop/transcriber/transcriber_worker.py:67-83 | the accumulation loop (`text += seg.text + " "`, one record per segment) produces exactly `ResultOf` |
| TranscriberWorker.Worker.Stop | src/whisperdesktop/transcriber/transcriber_worker.py:90-91 | sets the stop event and changes nothing else |
| TranscriberWorker.Worker.Shutdown | src/whisperdesktop/transcriber/transcriber_worker.py:93-95 | sets the stop event and changes nothing else |
| TranscriberWorker.RunOnce | src/whisperdesktop/transcriber/transcriber_worker.py:51-57 | with `max_loops=1` and a non-empty queue, exactly the first item is taken and the rest stay queued |
| Text.StripSpec | src/whisperdesktop/transcriber/transcriber_worker.py:79 | `strip()` keeps a contiguous middle part of the string; what it removes on either side is whitespace; the result neither starts nor ends with whitespace |
| Text.StripIgnoresTrailingSpace | src/whisperdesktop/transcriber/transcriber_worker.py:70-79 | whitespace appended after the text disappears in the final strip |
| Text.SpacedConcatStripsLikeJoin | whisper_desktop/transcription.py:82 | the later worker's `text += seg + " "` then strip equals the earlier worker's `" ".join(segs).strip()` on every input |
| Text.Split | src/ui/ui_controller.py:156 | `split()` returns non-empty words containing no whitespace |
| Text.SplitJoin | src/ui/ui_controller.py:156-157 | splitting words that were joined by single spaces gives back the same words |
| StorageManager.ArgumentError | src/storage/storage_manager.py:52-55 | the arguments pass exactly when the text is a non-empty string and the segments are a list; a bad text is reported first, with its message |
| StorageManager.InvalidLeavesTable | src/storage/storage_manager.py:52-55 | invalid arguments raise ValueError before the table is touched, whether or not the database would work |
| StorageManager.SaveRoundTrip | src/storage/storage_manager.py:58-81 | with valid arguments, a database error raises RuntimeError and leaves the table as it was. Otherwise exactly one row is inserted with the next id, whether or not the publish raises. The AUTOINCREMENT invariant holds afterwards. The new row reads back by its id with the given text, segments and path. Every other id reads as before. A returned id is the new id |
| StorageManager.Storage.constructor | src/storage/storage_manager.py:10-30 | a fresh database: an empty table whose first id will be 1 |
| StorageManager.Storage.Save | src/storage/storage_manager.py:38-81 | the result and the new table are exactly `SaveSpec`. The arguments are validated first. A failing database step (connection, JSON encoding, binding, insert or commit) raises RuntimeError and inserts nothing. Otherwise the row is inserted and committed, and TRANSCRIPTION_COMPLETED {id, timestamp, text} is published; a raising subscriber turns into RuntimeError with the row kept. A saved row reads back by the returned id; every other id is unchanged; a returned id is positive |
| StorageManager.Storage.Insert | src/storage/storage_manager.py:63-71 | the insert and commit append the row under the next id, advance the counter, keep the AUTOINCREMENT invariant, and leave every other id reading as before |
| StorageManager.Storage.Get | src/storage/storage_manager.py:83-112 | returns a row of the table with that id, and None exactly when no row has it |
| StorageManager.Storage.GetRecent | src/storage/storage_manager.py:116-147 | at most `limit` rows (all of them for a negative limit), each a row of the table, newest timestamp first; no row of the table that was left out is newer than any row returned |
| StorageManager.NeverSavedIsNone | src/storage/storage_manager.py:95-105 | an id at or above the next id, or below 1, reads as None |
| StorageManager.SaveTwice | src/storage/storage_manager.py:63-79 | two successful saves return strictly increasing ids, and both rows read back, whatever the database does on either save |
| Tables.RecentSpec | src/storage/storage_manager.py:128-137 | `ORDER BY timestamp DESC LIMIT n` returns a sub-multiset of the rows, sorted newest first, with the SQL length rule; no row of the table that was left out is newer than any row returned |
| Tables.TailNotNewer | src/storage/storage_manager.py:132-133 | in a list sorted newest first, no row after the first n is newer than any of those n |
| Tables.PrefixSplit | src/storage/storage_manager.py:132-133 | the rows a LIMIT leaves out are exactly the tail after the first n |
| Tables.SortDesc | src/storage/storage_manager.py:132 | the sorted rows are a permutation of the table |
| Tables.SortDescSorted | whisper_desktop/database.py:40-46 | `ORDER BY timestamp DESC` is a permutation of the table ordered newest first |
| Tables.SqlLimit | whisper_desktop/database.py:44 | `LIMIT n` keeps the first min(n, rows) rows, or all of them when n is negative |
| Tables.Lookup | src/storage/storage_manager.py:95-105 | `WHERE id = ?` then `fetchone()`: a row of the table with that id, or None exactly when no row has it |
| Tables.LookupNeverAssigned | src/storage/storage_manager.py:95-105 | under AUTOINCREMENT, an id at or beyond the counter, or below 1, finds nothing |
| Tables.Remove | whisper_desktop/database.py:63-66 | `DELETE ... WHERE id = ?` keeps exactly the rows with another id and never adds rows |
| Tables.Affected | whisper_desktop/database.py:68 | `rowcount` is the number of rows the delete removed |
| Tables.InsertAutoIncrement | whisper_desktop/database.py:29-34 | an insert under AUTOINCREMENT gives the new row the next id. That row is found by its id, and the invariant holds with the counter advanced |
| Tables.LookupAppendOther | whisper_desktop/database.py:52-57 | an insert leaves the lookup of every other id unchanged |
| Tables.AffectedIffFound | whisper_desktop/database.py:63-68 | a delete affects at least one row exactly when a row with that id exists |
| Tables.RemoveKeepsOthers | whisper_desktop/database.py:63-66 | a delete leaves the lookup of every other id as it was |
| Tables.RemoveKeepsAutoIncrement | whisper_desktop/database.py:59-68 | a delete keeps the AUTOINCREMENT invariant with the same counter, so no later insert reuses a deleted id |
| Tables.RemoveGone | whisper_desktop/database.py:63-66 | after a delete, no row has that id |
| Tables.LexTrans | whisper_desktop/database.py:43 | the text order that timestamps are sorted by is transitive |
| Tables.LexTotal | whisper_desktop/database.py:43 | any two timestamps are comparable in that order |
| Database.DatabaseManager.constructor | whisper_desktop/database.py:6-23 | an empty table whose first id will be 1 |
| Database.DatabaseManager.Add | whisper_desktop/database.py:25-34 | one row (id, text, now, duration, mode) is appended. Its id is the next id, which is returned and then advanced. It reads back by that id, and every other id reads as before |
| Database.DatabaseManager.Get | whisper_desktop/database.py:48-57 | returns the row with that id, or None exactly when there is none |
| Database.DatabaseManager.GetRecent | whisper_desktop/database.py:36-46 | at most `limit` rows of the table, newest first; nothing left out is newer |
| Database.DatabaseManager.Delete | whisper_desktop/database.py:59-68 | returns true exactly when a row with that id existed; afterwards that id is gone, every other row is untouched, and the id counter is unchanged |
| Database.DeleteTwice | whisper_desktop/database.py:59-68 | deleting the same id twice: the second call reports nothing deleted |
| Database.DeleteThenAdd | whisper_desktop/database.py:25-68 | after a delete, the next add gets a larger id, never the deleted one |
| Recorder.RecordingPath | src/whisperdesktop/recorder/recorder.py:46-47 | the path is `recordings/recording_<stamp>.wav` |
| Recorder.Recorder.constructor | src/whisperdesktop/recorder/recorder.py:22-34 | idle: no file, no stream, no wave file, toggle mode |
| Recorder.Recorder.StartRecording | src/whisperdesktop/recorder/recorder.py:38-64 | while recording, only a warning and nothing changes. Otherwise the mode is set and the steps run in order: directory, path, wave file, stream, RECORDING_STARTED(path). A failing step, or a raising subscriber, is caught and clears the flag; whatever the earlier steps set up stays |
| Recorder.Recorder.StopRecording | src/whisperdesktop/recorder/recorder.py:73-91 | when idle: None and nothing changes. Otherwise: the flag is cleared; the stream and wave file are closed; the path is put on 'transcription', then RECORDING_STOPPED(path) is published. The path is returned unless a step raised |
| Recorder.Recorder.ToggleRecording | src/whisperdesktop/recorder/recorder.py:93-97 | when recording it stops, appending the path to the 'transcription' queue; otherwise it starts in toggle mode, records when every step succeeds and no subscriber raises, stays idle when a step fails, and returns None |
| Recorder.Recorder.Cleanup | src/whisperdesktop/recorder/recorder.py:99-106 | an active recording is stopped before the audio system is terminated: stream and file are closed, and its path is appended to the 'transcription' queue when that queue exists. When idle only the audio system is terminated: the queues, the stream and the WAV file stay as they were, so a stream or file that a failed start left open is never closed. Afterwards nothing records |
| Recorder.FailedStartLeaksWave | src/whisperdesktop/recorder/recorder.py:38-106 | a start that fails at opening the stream, followed by cleanup, leaves the recorder terminated and idle with the WAV file still open |
| Recorder.ToggleTwice | src/whisperdesktop/recorder/recorder.py:93-97 | toggling twice from idle records one file and appends exactly its path to the 'transcription' queue |
| ApplicationController.Drain | src/whisperdesktop/application_controller.py:64-92 | the drain takes at least one result when any is queued and never more than are queued. The table only grows: the earlier rows stay in place, and the id counter advances by the number of rows added |
| ApplicationController.Controller.CheckResultQueue | src/whisperdesktop/application_controller.py:64-92 | the loop removes from the front of 'result' exactly the results `Drain` takes. The table and the effects are those of `Drain`. With no 'result' queue nothing happens |
| ApplicationController.Controller.TakeResult | src/whisperdesktop/application_controller.py:67-90 | one dequeue plus one step of `Drain`: the oldest result leaves the queue and is handled |
| ApplicationController.Controller.HandleResult | src/whisperdesktop/application_controller.py:69-90 | handling one result does exactly what `ReconcileOne` specifies. A falsy result is dropped. Otherwise it is saved with text defaulting to "", segments to [] and path to None. The file is removed when both the id and the path are truthy. TRANSCRIPTION_COMPLETED {id, text, segments} is published. A raising save, including a database error, ends the drain |
| ApplicationController.DrainEmptiesQueue | src/whisperdesktop/application_controller.py:67-90 | when every result is acceptable and no subscriber raises, the drain empties the queue. The table becomes the earlier rows followed by `SavedRows` of the truthy results, and the id counter advances by their number |
| ApplicationController.Truthies | src/whisperdesktop/application_controller.py:69 | the results the drain saves are truthy, and there are no more of them than results |
| ApplicationController.ReconcileOne | src/whisperdesktop/application_controller.py:69-90 | one step keeps the earlier rows in place, adds at most one row, and advances the id counter by the rows it adds |
| ApplicationController.SavedRows | src/whisperdesktop/application_controller.py:71-75 | one row per saved result |
| ApplicationController.SavedRowsAt | src/whisperdesktop/application_controller.py:71-75 | the k-th saved row holds the next id plus k, the k-th truthy result's text, its segments (default []) and its audio_path (default None) |
| ApplicationController.ReconcileSaves | src/whisperdesktop/application_controller.py:69-90 | a truthy acceptable result, with no raising subscriber, is saved under the next id with the `.get` defaults, has exactly the `SaveEffects`, and the drain goes on |
| ApplicationController.DrainEffects | src/whisperdesktop/application_controller.py:67-90 | when every result is acceptable and no subscriber raises, the effects are, for each truthy result in turn, its insert, the store's announcement, the removal of a truthy audio path, and the controller's completion event, with consecutive ids |
| ApplicationController.DrainEffectsSaved | src/whisperdesktop/application_controller.py:69-90 | for a saved head result, the drain's effects are its own effects followed by those of the rest |
| ApplicationController.DrainEffectsDropped | src/whisperdesktop/application_controller.py:69 | a falsy head result adds no effect and is not counted among the saved results |
| ApplicationController.DrainSavesHead | src/whisperdesktop/application_controller.py:66-90 | for a saved head result the drain takes it, adds its row and effects, and goes on with the rest |
| ApplicationController.DrainRowsDropped | src/whisperdesktop/application_controller.py:69 | a falsy head result is taken without changing the table |
| ApplicationController.SaveEffectsCompletion | src/whisperdesktop/application_controller.py:84-89 | saving one result announces exactly one controller completion event, carrying its id, text and segments |
| ApplicationController.OneCompletionPerSave | src/whisperdesktop/application_controller.py:84-89 | over the effects of a drain's saves, the controller's completion events are exactly `CompletionPayloads`: one per saved row, in order |
| ApplicationController.CompletionPayloads | src/whisperdesktop/application_controller.py:84-89 | one completion payload per saved result |
| ApplicationController.CompletionPayloadsAt | src/whisperdesktop/application_controller.py:84-89 | the k-th completion event announces the k-th saved row's id (the next id plus k), with that result's text (default "") and segments (default []) |
| ApplicationController.FalsyResultDropped | src/whisperdesktop/application_controller.py:69 | a falsy result is taken off the queue with no save and no publish |
| ApplicationController.RejectedResultStopsDrain | src/whisperdesktop/application_controller.py:66-92 | a result the save rejects, or whose database step fails, ends the drain at once: nothing saved, removed or published, and later results stay queued |
| ApplicationController.DrainRemovalsFollowSaves | src/whisperdesktop/application_controller.py:71-90 | every file removal comes right after a save that inserted a row and right before the completion event, and removes a truthy path |
| ApplicationController.ReconcileOneRemoval | src/whisperdesktop/application_controller.py:77-83 | within one result's handling, a removal only follows a successful insert |
| ApplicationController.DrainUnfold | src/whisperdesktop/application_controller.py:67-92 | a drain is one step on the oldest result followed by the drain of the rest, unless that step aborted |
| ApplicationController.Controller.constructor | src/whisperdesktop/application_controller.py:11-43 | the controller shares one bus between storage and recorder, and subscribes its three request handlers to START_, STOP_ and TOGGLE_RECORDING_REQUESTED, at the end of each list; the queues are unchanged |
| ApplicationController.Controller.OnStartRecordingRequested | src/whisperdesktop/application_controller.py:46-50 | when already recording nothing changes. Otherwise the mode becomes toggle; a failing step leaves the recorder idle; a start whose steps succeed opens the file and stream at the recording path, publishes RECORDING_STARTED, and records unless a subscriber raised |
| ApplicationController.Controller.OnStopRecordingRequested | src/whisperdesktop/application_controller.py:52-56 | when idle nothing happens. Otherwise stream and file are closed, the path is appended to the 'transcription' queue, and RECORDING_STOPPED is published; without that queue the queues are unchanged. Afterwards nothing records |
| ApplicationController.Controller.OnToggleRecordingRequested | src/whisperdesktop/application_controller.py:58-62 | when recording it stops, appending the path to the 'transcription' queue. Otherwise it starts in toggle mode, with the queues untouched: it records at the recording path when every step succeeds and no subscriber raises, and stays idle when a step fails |
| Audio.AudioManager.constructor | whisper_desktop/audio.py:16-41 | idle, no stream, empty buffer, no listener |
| Audio.AudioManager.SetListener | whisper_desktop/audio.py:41 | sets or clears the per-chunk listener and nothing else |
| Audio.AudioManager.StartRecording | whisper_desktop/audio.py:43-82 | a no-op while recording. Otherwise the flag is set, the buffer emptied and the stream opened. A failed open clears the flag again and re-raises, leaving the buffer empty |
| Audio.AudioManager.StreamCallback | whisper_desktop/audio.py:51-61 | while recording, exactly one chunk is appended and handed to the listener if there is one; otherwise the frames are dropped |
| Audio.AudioManager.StopRecording | whisper_desktop/audio.py:84-97 | when idle, the empty byte string; otherwise the flag is cleared, the stream dropped, and every buffered chunk's data returned in arrival order; the buffer is kept |
| Audio.AudioManager.AddChunk | whisper_desktop/audio.py:99-103 | appends the chunk whatever the recording state, and hands it to the listener once |
| Audio.AudioManager.Cleanup | whisper_desktop/audio.py:113-118 | a still-referenced stream is closed and the audio system released; flag and buffer are unchanged |
| Audio.JoinChunks | whisper_desktop/audio.py:96 | no chunks join to the empty byte string |
| Audio.JoinChunksAppend | whisper_desktop/audio.py:96 | joining distributes over concatenation: bytes come out in arrival order |
| Audio.JoinChunksLength | whisper_desktop/audio.py:96 | the joined audio is as long as all chunks together |
| Audio.RecordSession | whisper_desktop/audio.py:43-97 | start, n stream callbacks, stop: the returned audio is the n buffers concatenated in order, and the buffer holds one chunk per callback |
| Transcription.SameTextAsWorker | whisper_desktop/transcription.py:82 | the earlier loop's text equals the later worker's text on the same segments |
| Transcription.TextTrimmed | whisper_desktop/transcription.py:82 | the stored text neither starts nor ends with whitespace |
| Transcription.HandleJob | whisper_desktop/transcription.py:66-102 | one audio job adds exactly `Adds` rows: at most one, and only when the bytes convert and the model succeeds |
| Transcription.Adds | whisper_desktop/transcription.py:67-93 | a job adds at most one row |
| Transcription.FailureKeepsLast | whisper_desktop/transcription.py:99-102 | a model failure stores nothing and keeps whatever the last transcription was; the callback receives the prefixed error message |
| Transcription.RunSpec | whisper_desktop/transcription.py:57-109 | the loop never takes more entries than are queued |
| Transcription.RunStopsAtSentinel | whisper_desktop/transcription.py:57-64 | every audio job queued before the sentinel is taken. The sentinel is taken too and ends the run, with `task_done` once more. Nothing queued after it is looked at |
| Transcription.RunInsertsThenNotifies | whisper_desktop/transcription.py:86-98 | with a callback set, every row insert is immediately followed by the callback, so the text is stored before the callback sees it |
| Transcription.RunStep | whisper_desktop/transcription.py:57-109 | a run starting at an audio job is that job's row, effects and transcription followed by the run of the rest |
| Transcription.ResumeFinished | whisper_desktop/transcription.py:57-109 | a resumed run with nothing left has done exactly what the whole run does |
| Transcription.TranscriptionManager.constructor | whisper_desktop/transcription.py:8-23 | empty queue, not processing, no last transcription |
| Transcription.TranscriptionManager.AddAudio | whisper_desktop/transcription.py:116-118 | the bytes are enqueued at the tail and nothing else changes |
| Transcription.TranscriptionManager.StopProcessing | whisper_desktop/transcription.py:111-114 | clears the flag, then enqueues the sentinel |
| Transcription.TranscriptionManager.GetTranscription | whisper_desktop/transcription.py:126-128 | the last transcription, or "" before the first one |
| Transcription.TranscriptionManager.StartProcessing | whisper_desktop/transcription.py:51-109 | sets the flag and runs the loop. Queue, acknowledgements, last transcription, rows and effects afterwards are exactly those of `RunSpec` over the queue |
| Transcription.TranscriptionManager.Loop | whisper_desktop/transcription.py:56-109 | with the flag set, the state afterwards is `RunSpec` over the queue. With the flag cleared while waiting in `get()`, exactly the next job is taken. Otherwise nothing happens |
| Transcription.TranscriptionManager.ResumeGet | whisper_desktop/transcription.py:60-109 | resumed inside `get()` with the flag cleared: exactly the next entry is taken |
| Transcription.TranscriptionManager.Drain | whisper_desktop/transcription.py:57-109 | with the flag set, jobs are taken until the sentinel or the end of the queue, as `RunSpec` says |
| Transcription.TranscriptionManager.TakeJob | whisper_desktop/transcription.py:58-109 | one entry leaves the queue and is acknowledged. The sentinel stops the loop with no effect. An audio job appends its rows to the table |
| Transcription.TranscriptionManager.Handle | whisper_desktop/transcription.py:66-102 | the try-block for one job does exactly `HandleJob`. The last transcription becomes the new text when there is one. The table grows by the job's rows |
| Transcription.StopWhileBusy | whisper_desktop/transcription.py:111-114 | a stop while a job runs ends the loop at the next check, leaving the queued jobs and the sentinel untouched |
| Transcription.StopWhileWaiting | whisper_desktop/transcription.py:111-114 | a stop while the loop waits on an empty queue: the sentinel is taken, acknowledged, and the loop ends |
| ConfigManager.Section.constructor | src/config/config_manager.py:18-46 | a section dictionary holding the given entries |
| ConfigManager.DefaultValues | src/config/config_manager.py:18-46 | the defaults have exactly the five built-in sections |
| ConfigManager.NewSections | src/config/config_manager.py:18-46 | one new, distinct section object per built-in section, holding its defaults |
| ConfigManager.ConfigurationManager.constructor | src/config/config_manager.py:15-47 | the live configuration is a shallow copy of the defaults: the same section objects, holding the built-in values |
| ConfigManager.DeepMerge | src/config/config_manager.py:49-54 | the merged dictionary has the keys of both sides |
| ConfigManager.MergeKeepsAndOverwrites | src/config/config_manager.py:49-54 | keys the source does not mention keep their value; a source value wins outright unless both sides hold a dictionary |
| ConfigManager.MergeIdentities | src/config/config_manager.py:49-54 | merging an empty source changes nothing; merging into an empty target yields the source |
| ConfigManager.MergeSelf | src/config/config_manager.py:49-54 | merging a dictionary into itself gives it back |
| ConfigManager.MergeIdempotent | src/config/config_manager.py:49-54 | applying the same update twice is the same as applying it once |
| ConfigManager.MergeOneMore | src/config/config_manager.py:50-54 | one more source key changes only that key, as one loop pass does |
| ConfigManager.DeepUpdate | src/config/config_manager.py:49-54 | the in-place loop leaves the section holding exactly `DeepMerge` of its old entries and the source |
| ConfigManager.ConfigurationManager.GetConfig | src/config/config_manager.py:80-89 | no section: the whole table. Unknown section: None. No key: a copy of the section. Unknown key: None. Otherwise the value |
| ConfigManager.ConfigurationManager.SectionFor | src/config/config_manager.py:92-93 | the existing section, or a new empty one under that name; nothing else changes |
| ConfigManager.ConfigurationManager.SetConfig | src/config/config_manager.py:91-104 | afterwards the key reads back as the value; other sections are untouched. An unchanged value returns True with no save and no event. Otherwise it writes, then saves; only a successful save publishes CONFIG_CHANGED {section, key, value} and returns True; a raising subscriber escapes |
| ConfigManager.Announce | src/config/config_manager.py:97-111 | a failed save returns False with no event; otherwise the tag is published and True returned unless a subscriber raises |
| ConfigManager.ConfigurationManager.ResetToDefaults | src/config/config_manager.py:106-111 | the live table becomes the defaults table itself (same section objects), then save-and-announce CONFIG_RESET |
| ConfigManager.ResetKeepsChange | src/config/config_manager.py:91-111 | as written, after `set_config("ui", "theme", v)` and a reset, `theme` still reads v, not the default |
| ConfigManager.ConfigurationManager.ResetToDefaultsDeep | src/config/config_manager.py:106-111 | the intended reset: fresh section objects holding the built-in defaults, then save-and-announce CONFIG_RESET |
| ConfigManager.ConfigurationManager.InstallDefaults | src/config/config_manager.py:107 | the state change of the intended reset: the five sections, each a fresh object holding its defaults |
| ConfigManager.DeepResetRestores | src/config/config_manager.py:106-111 | with the intended reset, the same set-then-reset sequence reads the default back |
| Settings.ToDict | whisper_desktop/settings.py:17-24 | the dictionary has exactly the five field names as keys |
| Settings.FromDict | whisper_desktop/settings.py:26-28 | `Settings(**data)` succeeds exactly when every key is a field name |
| Settings.FromDictToDict | whisper_desktop/settings.py:17-28 | a record's dictionary converts back to the same record |
| Settings.ToDictFromDict | whisper_desktop/settings.py:9-28 | a dictionary of known keys comes back as the defaults overridden by that dictionary |
| Settings.UpdateChangesNamedFields | whisper_desktop/settings.py:52-55 | an update fails exactly on an unknown keyword; otherwise it sets the named fields and keeps the rest |
| Settings.EmptyUpdate | whisper_desktop/settings.py:52-55 | an update with no keywords gives the same record back |
| Settings.LoadSettings | whisper_desktop/settings.py:35-43 | a missing or unreadable file gives the defaults, as does data that is not a dictionary of known keys; otherwise the record the data describes |
| Settings.SaveThenLoad | whisper_desktop/settings.py:35-50 | a file saved from a record loads back as that record |
| Settings.SettingsManager.constructor | whisper_desktop/settings.py:31-33 | the settings are what `load_settings` gives for the file |
| Settings.SettingsManager.SaveSettings | whisper_desktop/settings.py:45-50 | a successful write stores the record's dictionary. An open that fails leaves the file as it was. A dump that fails after the open truncated the file leaves it unparsable, so it later loads as the defaults. Failures are swallowed, and the settings are unchanged |
| Settings.SettingsManager.UpdateSettings | whisper_desktop/settings.py:52-56 | an unknown keyword raises before anything changes; otherwise the settings become the updated record and are saved, with the file as `SaveSettings` leaves it |
| UiController.LabelsDistinct | src/ui/ui_controller.py:8-12 | two statuses show the same label exactly when they are the same status |
| UiController.Take | src/ui/ui_controller.py:156 | `words[:15]`: the first min(15, n) words |
| UiController.PreviewSpec | src/ui/ui_controller.py:156-159 | read back as words, a preview is the text's words when there are at most 15; otherwise it is the first 15, the last carrying "..." |
| UiController.CutWords | src/ui/ui_controller.py:156-159 | the first n words joined and followed by "..." read back as those words, the last carrying "..." |
| UiController.PreviewWordCount | src/ui/ui_controller.py:156-159 | a preview never shows more than 15 words, and shows all of them when the text has no more |
| UiController.HistoryItems | src/ui/ui_controller.py:150-161 | no transcriptions gives the single "No transcription history" line; otherwise one "<timestamp> - <preview>" line per transcription, in order |
| UiController.FillHistory | src/ui/ui_controller.py:153-161 | the refill loop produces exactly `HistoryItems` |
| UiController.UIController.constructor | src/ui/ui_controller.py:15-38 | the four status handlers are subscribed to RECORDING_STARTED, RECORDING_STOPPED, TRANSCRIPTION_REQUESTED and TRANSCRIPTION_COMPLETED, at the end of each list, and the queues are unchanged; the window is idle, with the label showing "Ready", the button unchecked, and the history fetched once |
| UiController.UIController.UpdateStatus | src/ui/ui_controller.py:130-131 | the label shows the current status's text; nothing else changes |
| UiController.UIController.OnRecordingStarted | src/ui/ui_controller.py:97-100 | recording, with the button checked |
| UiController.UIController.OnRecordingStopped | src/ui/ui_controller.py:102-106 | transcribing, with the button unchecked and a reset scheduled after 1000 ms |
| UiController.UIController.OnTranscriptionRequested | src/ui/ui_controller.py:108-110 | transcribing, with the button as it was |
| UiController.UIController.OnTranscriptionCompleted | src/ui/ui_controller.py:112-113 | saved, with a reset scheduled after 3000 ms |
| UiController.UIController.SetStatusSaved | src/ui/ui_controller.py:133-136 | saved, with a reset scheduled after 3000 ms |
| UiController.UIController.ResetStatus | src/ui/ui_controller.py:138-140 | back to idle from any status |
| UiController.UIController.OnEvent | src/ui/ui_controller.py:91-113 | the four subscribed events move the status as their handlers do; every other event leaves it alone; only RECORDING_STOPPED and TRANSCRIPTION_COMPLETED schedule a reset |
| UiController.UIController.OnRecordClicked | src/ui/ui_controller.py:115-119 | a checked button publishes TOGGLE_RECORDING_REQUESTED; an unchecked one publishes STOP_RECORDING_REQUESTED |
| UiController.UIController.OnPttPressed | src/ui/ui_controller.py:121-122 | pressing push-to-talk publishes START_RECORDING_REQUESTED |
| UiController.UIController.OnPttReleased | src/ui/ui_controller.py:124-125 | releasing push-to-talk publishes STOP_RECORDING_REQUESTED |
| UiController.UIController.RefreshHistory | src/ui/ui_controller.py:142-161 | the history data becomes the ten most recent transcriptions, or none when the fetch fails; the dropdown becomes `HistoryItems` of them; the status is unchanged |
| Logging.PySliceFrom | src/utils/logger.py:59-60 | Python's `lst[start:]`: a negative start counts from the end and is clipped at the front |
| Logging.RecentErrors | src/utils/logger.py:59-60 | `_errors[-limit:]`: limit 0 gives every error; a positive limit gives the last min(limit, n); a negative one drops the first -limit |
| Logging.ErrorReporter.constructor | src/utils/logger.py:36-38 | no errors yet |
| Logging.ErrorReporter.OnErrorEvent | src/utils/logger.py:43-57 | a non-dictionary payload raises and files nothing. Otherwise exactly one record is appended: message, CRITICAL or ERROR from `critical`, and traceback. A dialog is shown exactly for a truthy `critical` when the GUI is available |
| Logging.ErrorReporter.GetRecentErrors | src/utils/logger.py:59-60 | the same slice as `RecentErrors` over the filed errors |
| Logging.ReporterFilesLoggedErrors | src/utils/logger.py:108-121 | the reporter files `error` as ERROR with no traceback, `critical` as CRITICAL, and `exception` as ERROR with its traceback |
| Logging.Logger.constructor | src/utils/logger.py:73-77 | no bus and no reporter before initialisation |
| Logging.Logger.LogError | src/utils/logger.py:108-111 | with a bus, publishes ERROR {message}, exactly as the bus dispatches it; without one, nothing |
| Logging.Logger.LogCritical | src/utils/logger.py:112-115 | with a bus, publishes ERROR {message, critical: True}; without one, nothing |
| Logging.Logger.LogException | src/utils/logger.py:116-121 | with a bus, publishes ERROR {message, traceback}; without one, nothing |
| Logging.LoggerClass.constructor | src/utils/logger.py:62-65 | no instance, not initialised |
| Logging.LoggerClass.Construct | src/utils/logger.py:67-100 | always the same instance. The first call sets it up with the bus and an empty reporter. Later calls skip the body of `__init__` |
| Logging.ConstructTwice | src/utils/logger.py:67-76 | two calls return the same logger, initialised once |
| Logging.PackageLoggerClass.constructor | src/whisperdesktop/utils/logger.py:61-64 | no instance yet |
| Logging.PackageLoggerClass.Construct | src/whisperdesktop/utils/logger.py:66-70 | the instance is created and initialised on the first call only; later calls return it |
| Logging.ExpiredIff | src/utils/logger.py:145-146 | a log is past retention exactly when at least retention + 1 whole days (in microseconds) have passed |
| Logging.ExpiredMonotone | src/utils/logger.py:145-146 | a file older than an expired one is expired too |
| Logging.RotatedPresentIncreasing | src/utils/logger.py:127-129 | the rotated logs are visited in increasing index order, each at most once |
| Logging.RotatedPresentComplete | src/utils/logger.py:127-129 | an index is visited exactly when it lies in 1..backup_count and its rotated log exists |
| Logging.ArchiveOldLogs | src/whisperdesktop/utils/logger.py:92-104 | the loop visits exactly `RotatedPresent` and moves those whose move succeeds; a failed move does not stop it |
| Logging.SucceededSnoc | src/utils/logger.py:132-135 | one more visited log adds itself to the moved list exactly when its move succeeds |
| Logging.Deleted | src/utils/logger.py:143-149 | never more deletions than archived logs |
| Logging.DeletedAreExpired | src/utils/logger.py:143-147 | only a log whose time could be read and that is past retention is ever removed |
| Logging.CleanupOldLogs | src/whisperdesktop/utils/logger.py:106-118 | the loop removes exactly `Deleted`; a failure to read a time or to remove a file does not stop it |
| LabeledAudios.RemoveNonWord | scripts/transcribe_labeled_audios.py:13 | the result holds only word characters and is no longer than the input |
| LabeledAudios.Lower | scripts/transcribe_labeled_audios.py:13 | lower-casing keeps the length and maps each character |
| LabeledAudios.NormIsLowerWords | scripts/transcribe_labeled_audios.py:12-13 | `norm` is deletion of non-word characters then lower-casing; its strip never removes anything |
| LabeledAudios.PunctuationIgnored | scripts/transcribe_labeled_audios.py:10-14 | inserting non-word characters anywhere never changes the verdict |
| LabeledAudios.CaseIgnored | scripts/transcribe_labeled_audios.py:10-14 | a text is soft-equal to its lower-cased form |
| LabeledAudios.WordsSignificant | scripts/transcribe_labeled_audios.py:10-14 | two texts of lower-case word characters are soft-equal exactly when they are equal |
| LabeledAudios.RemoveNonWordAppend | scripts/transcribe_labeled_audios.py:13 | deletion distributes over concatenation |
| LabeledAudios.RemovedComeFrom | scripts/transcribe_labeled_audios.py:13 | every character kept is a word character of the input |
| LabeledAudios.LowerCommutes | scripts/transcribe_labeled_audios.py:13 | deletion and lower-casing commute, and lower-casing is idempotent |
| LabeledAudios.SoftEqualEquivalence | scripts/transcribe_labeled_audios.py:10-14 | soft equality is reflexive, symmetric and transitive |
| LabeledAudios.Resolve | scripts/transcribe_labeled_audios.py:27-29 | a relative file is taken inside the labelled folder |
| LabeledAudios.ResolveAbsolute | scripts/transcribe_labeled_audios.py:30 | an absolute file resolves to a path exactly when the file is that path inside the working directory; one outside it fails |
| LabeledAudios.Judge | scripts/transcribe_labeled_audios.py:43-49 | an entry is judged exactly when there is a transcription and a ground truth, and then matches exactly when the two are soft-equal |
| LabeledAudios.MatchesAtMostTotal | scripts/transcribe_labeled_audios.py:43-49 | never more matches than judged entries, nor more judged entries than entries |
| LabeledAudios.CountsSnoc | scripts/transcribe_labeled_audios.py:43-49 | one more outcome advances the counters exactly as the loop body does |
| LabeledAudios.Evaluate | scripts/transcribe_labeled_audios.py:16-49 | the intended run, with queues that can be cleared: it aborts exactly when some entry's path does not resolve. Otherwise there is one outcome per entry, recording its transcription, the datestamp and its judgement, and `matches`/`total` count the matches and judged entries |
| LabeledAudios.EvaluateAsWritten | scripts/transcribe_labeled_audios.py:26-32 | the run as written: any non-empty list of entries raises at the first `queue.clear()`, with nothing recorded or counted; an empty list finishes with zero counts |

## Left out

- I/O and foreign calls become parameters or are not modelled:
  - the Whisper engine, PyAudio streams and WAV writing;
  - SQLite connections and JSON (de)serialisation, with JSON assumed to round-trip. Whether a save's database step succeeds is a parameter: the model does not work out which values sqlite3 cannot bind or `json` cannot encode;
  - file existence, moves and removals, the clock, and `datetime.now()`.
- One clock reading serves a whole drain, loop or evaluation. Each call would read the clock anew, but nothing modelled depends on the difference.
- Concurrency is not modelled: locks, the worker process, asyncio, Qt's event loop and timers. A scheduled reset is returned as its delay in milliseconds.
- The worker's stop flag is observed through a count of the iterations that begin before it reads set, instead of an unbounded loop.
- Floats are opaque: durations, VAD threshold, opacity and language probability. Only `0.0` is known to be falsy.
- Equality between Python values of different types, such as `1 == True`, is structural in the model.
- Equal timestamps: the model orders them by insertion. SQLite leaves their order unspecified.
- Logging text (`print`, `logger.info/error`) is not modelled. The controller, the recorder and the transcriber worker use `whisperdesktop.utils.logger.Logger`, whose `error()` only writes a log record, so their caught exceptions publish nothing. The UI's history refresh uses `src.utils.logger.Logger`, whose `error()` also publishes ERROR {message} on the bus: the model drops that one publish. The logging handlers, the rotating file handler and the critical-error dialog widget are left out; only whether the dialog is shown is modelled.
- Default arguments: `get_recent_transcriptions(limit=10)`, `get_recent_transcriptions(limit=50)` and `get_recent_errors(limit=10)` take `limit` as a required parameter in the model; every caller passes it explicitly.
- The configuration manager:
  - `_load_config` is never called by the source and is not modelled beyond the merge it uses;
  - its class-level singleton is not modelled;
  - nested dictionaries below a section are values, so aliasing is modelled at section level only.
- The earlier loop starts from a loaded model: a failed load raises from the constructor or from `start_processing` and is not modelled. A callback that raises inside the transcription `try` is not modelled either.
- Recorder: the audio callback that writes frames to the WAV file is not modelled.
- The UI:
  - Qt widgets, layout, window flags and the 10-second history timer are left out;
  - Qt's toggling of the checked state before `clicked` fires is not modelled, so `OnRecordClicked` reads the state as it is;
  - each history item is read through its fields, not `dict.get`.
- The labelled-audio script:
  - `\w` and `lower()` are taken as ASCII;
  - a JSON `null` ground truth, which makes `soft_equal` raise, is not modelled;
  - path normalisation by `pathlib` is not modelled;
  - running one worker per entry is abstracted into a function from path to transcription.
- Logging:
  - the reporter's bus subscription is not modelled;
  - `Logger.__init__`'s archive and cleanup calls are modelled as separate methods;
  - archive file names and timestamps are not modelled;
  - the environment-configurable constants are parameters.
- Subscribers are abstract: whether a `Handler` raises does not depend on the payload, and a handler cannot publish or subscribe on the bus while it is being called.
- EventBus.Bus.AddResultQueue: the model takes the bus as intended. As written, `class ResultQueue(Queue)` subclasses `multiprocessing.Queue`, which is a factory method, not a class, so importing the module raises TypeError.
- EventBus.TagListed: the model's event tags include the ones the other modules use (ERROR, CONFIG_CHANGED, CONFIG_RESET and the *_RECORDING_REQUESTED tags). `EventType` as written declares only the four recording and transcription tags, so those uses would raise AttributeError.
- Settings.SettingsManager.SaveSettings: a dump that fails part-way leaves a truncated prefix of the JSON text, which the model states as a file that does not parse.
- `EventBus.Bus.PublishIsolated` is the corrected publish. The other components publish through the as-written `Publish`, because their own error paths depend on it: a storage save raising RuntimeError, the recorder clearing its flag.

## Findings

| source | as written | input that shows it | evidently intended | confidence | as-written member | corrected member |
|---|---|---|---|---|---|---|
| src/event_bus/event_bus.py:44-47 | publish calls the callbacks with no exception handling: the first raising callback ends the loop and the exception escapes to the publisher | a raising subscriber followed by a second one on the same tag: the second is never called and `publish` raises | a raising callback is isolated and logged, and the others still run; tests/test_event_bus.py:32-39 expects publish not to raise | not executed | EventBus.RaisingSubscriberBlocksTheNext | EventBus.IsolatedCallsEachAsSubscribed |
| src/config/config_manager.py:106-111 | `_config` is a shallow copy of `_default_config`, so `set_config` writes into the section the defaults share, and `reset_to_defaults` copies that changed section back | `set_config("ui", "theme", "light")` then `reset_to_defaults()`: `get_config("ui", "theme")` is still "light" | a reset restores the built-in defaults | not executed | ConfigManager.ResetKeepsChange | ConfigManager.DeepResetRestores |
| scripts/transcribe_labeled_audios.py:31-32 | after resolving its path, each entry calls `transcription_queue.queue.clear()`, but the bus's queues are `multiprocessing` queues, which have no `queue` attribute, so the first entry raises AttributeError before anything is transcribed | any non-empty `files.json`, such as one entry `{"file": "a.wav", "ground_truth": "hi"}`: the run stops at the first entry with nothing written back | each entry starts from empty queues, is transcribed once and judged | not executed | LabeledAudios.EvaluateAsWritten | LabeledAudios.Evaluate |
