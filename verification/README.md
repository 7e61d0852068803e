# fast-sub: a Dafny model of its job manager, event stream, subtitles and configuration

This project models the parts of fast-sub in which many threads, file formats or arithmetic meet, and
proves properties of the model. Run `dafny verify dfyconfig.toml` to check all of it.

Loops and objects that change step by step are methods and classes. Each is proved against a function
of its inputs or of its old state, and the lemmas are about these functions.

## What is modelled

**The job manager** (`JobManager`, `JobProtocol`, `JobRuns`, `JobLife`, `JobSaves`, `JobFindings`).
`Manager` is the class, one method for each section that holds the mutex. `JobProtocol` is a state machine: a thread is what is left
of a call of Create, Cancel, Delete, schedule or run, and its steps interleave with those of any other
thread. A file write is two steps, one that truncates and one that fills in; either can fail, two writes
of one file can overlap and leave a mixture, and the daemon can crash between any two steps, also inside
a recovery, whose own writes can fail unnoticed as well. The invariant says where each id is
(inserted and not yet enqueued, queued, running, ended), who still owes a call of schedule, how the
queue relates to the history, and which requests must be on disk. `JobRuns` draws the conclusions over
whole runs. `JobLife` says what each step does to a job, how a run ends and what a shutdown means.
`JobSaves` follows the writes of a run and says which jobs a restart finds and when the saved copy of an
ended job is the job. `JobFindings` holds runs, written out step by step, that show limits of what the
code promises.

**The event log and its stream** (`EventLog`, `Sse`). The store with its file, its bounded buffer and the
array the buffer shares with the filter of `DropReplayBefore`; the Go printer of Server-Sent Events; the
TypeScript parser that is fed arbitrary chunks. The two meet in a round trip across the languages, and
with the replay in a theorem about a client that reconnects. Compare sections 9.2.5 and 9.2.6 of the
WHATWG HTML Living Standard for the format.

**Subtitles** (`Chunking`, `Wrapping`, `TidyText`, `LineWidths`, `Refine`, `RefineFacts`, `CueShape`, `Srt`,
`SrtRoundTrip`). Line breaking, repair of times, splitting by words or evenly, printing and parsing of SubRip text. To say that
text is conserved, `Squeeze` removes white space and `Fields` lists the words; to say that breaking is
optimal, a layout is any way to group the words into lines that fit or are one word. `LineWidths` and
`CueShape` say how wide the lines, how long the cues and how spaced the words are.

**Two algorithms with a short specification** (`EditDistance`, `Intervals`). The rolling-row distance
against edit scripts, and silence and speech as sets of points in time.

**Two text round trips** (`ConfigFile`, `ConfigLines`, `ConfigReading`, `ConfigRead`, `ConfigRoundTrip`,
`ConfigView`; `PlainText`, `PlainTextFacts`, `Translations`). The configuration file with its quoting and
comments, from a patched view to the file and back; and plain text that travels through subtitles, to a
translator and back.

`Text` and `Numbers` hold the string and number operations of the standard libraries, `Extrema` the
larger and smaller of two numbers, `Wrappers` the option and result types.

## What the proofs found

- A cancel that lands between the insertion of a job and its enqueueing is overwritten: `enqueue` queues
  the canceled job, and it runs (`JobFindings.CancelInWindowIsOverwritten`, `JobFindings.CanceledJobRuns`).
  `JobRuns.OnlyEnqueueRevives` shows that this is the only way an ended job changes within one process.
- A job whose creation failed on a write stays listed as created, and the process never runs it
  (`JobLife.FailedCreateGivesUp`, `JobLife.GivenUpStays`).
- `os.WriteFile` truncates in place. A crash between the two halves of a rewrite loses a job that had been
  saved and queued and was never deleted (`JobFindings.RewriteLosesJob`). A job that was never deleted can
  be read after a crash exactly when its job.json was once completed and no truncation of it was left
  unfilled (`JobSaves.ReadableIff`), and a restart finds exactly those jobs (`JobSaves.RestartRecovers`).
- `saveJob` encodes under the mutex and writes after it, so that saves of one job can finish out of order.
  Without a crash or a failed write, a job that has succeeded can be left with a job.json that says
  "queued", and runs again after the next restart (`JobFindings.FinishedJobRunsAgain`). When nothing is
  under way, the file of an ended job is the job exactly when no save encoded before its last change
  finished after one encoded since, and no truncation was left unfilled (`JobSaves.SavedAtRest`).
- The missing-request branch of recovery is out of reach for every job that was never deleted
  (`JobSaves.RestartRecovers`), but a deleted job can reach it, when its directory is made again under a
  late write (`JobFindings.DeletedJobReturnsWithoutRequest`). A job takes it exactly when a complete write
  of a waiting copy stands and no write of its request does (`JobSaves.GivenUpIff`).
- The event log stays sound exactly when it is never reopened after all its events were dropped
  (`EventLog.RunSound`), and an id is given twice exactly when something is appended after such a reopening
  (`EventLog.IdsStayDistinct`, `EventLog.EmptiedLogReusesIds`).
- A stream can be cut at any character. The parser takes over an id at its id line and hands the event over
  at the empty line, so that a client that resumes with the id it is left with misses exactly one event if
  the cut lies between the two, and none otherwise (`EventLog.ResumeIsExact`, `EventLog.CutEventIsMissed`).
- A SubRip round trip loses text exactly when a normalised text has a blank line inside
  (`SrtRoundTrip.RoundTrip`; `SrtRoundTrip.BlankLineCutsText` shows "a", a blank line, "b" read back as "a").
  Refined text never has one (`SrtRoundTrip.RefinedRoundTrip`).
- Saved and loaded again, the settings of the view are the same exactly when none of its texts is empty,
  has a line break, or has a '#' behind an odd number of quotation marks, and either no provider text makes
  the file unparsable or the view showed nothing but defaults (`ConfigView.PatchedRoundTrip`). The output
  directory `say "#1` comes back as `say \` (`ConfigView.CommentCutsSetting`); one provider address `"x#`
  returns every setting of the view to its default (`ConfigView.ProviderTextLosesAll`). An address with a
  line break can bring a section of its own along and set the language (`ConfigView.LineBreakSetsLanguage`).
  A carriage return does no harm.
- Plain-text translation always keeps the number of lines, as `desktop-tests/README.md:105` asks. A line
  that is a number or contains an arrow is not translated; if a translatable line comes later, the
  translations move up (`PlainTextFacts.IdentityTranslation`): under a translator that changes nothing the
  lines "12" and "hello" become "hello" twice (`PlainTextFacts.NumberLineIsReplaced`).

## Model

| member | source | states |
|---|---|---|
| `JobManager.TerminalState` | internal/jobs/scheduler.go:80-90 | Canceled exactly when the context is done or the job is being canceled, else succeeded exactly when the runner returned no error, else failed; kept with it are the cancellation error in the first case and the runner's own error, if any, in the others. |
| `JobManager.Without` | internal/jobs/scheduler.go:92-100 | Every other id stays as often as it was queued, and the given one is gone. |
| `JobProtocol.WithoutConcat` | internal/jobs/scheduler.go:92-100 | Filtering a queue filters its parts one after the other, so the ids that stay keep their order. |
| `JobManager.Manager.constructor` | internal/jobs/manager.go:34-65 | A manager opened on any directory listing, whichever of its own writes fail, holds the recovered memory and leaves the recovered disk; it satisfies the invariant if the outcomes stored in the job files are well formed. |
| `JobManager.Manager.RecoverJobs` | internal/jobs/store.go:13-68 | The loop over the directories ends with exactly the recovered jobs, requests, queue and files, given how each write ends. |
| `JobManager.Manager.RecoverJob` | internal/jobs/store.go:22-66 | One directory: an active job becomes interrupted, a waiting job is queued again with its request or interrupted without it, an ended job is kept, an unreadable job.json is skipped; the rewrite of job.json may be made, refused or cut short, which changes the file and nothing else. |
| `JobManager.Manager.InsertJob` | internal/jobs/manager.go:117-133 | The lock section of Create inserts the job and its request and keeps the invariant. |
| `JobManager.Manager.EnqueueJob` | internal/jobs/scheduler.go:10-17 | The lock section of enqueue sets the status and appends the id, whatever the job's status was; nothing happens for a job that is gone. |
| `JobManager.Manager.ScheduleOnce` | internal/jobs/scheduler.go:23-41 | One turn starts the head of the queue if and only if the manager is open, the queue is not empty and a slot is free; otherwise nothing changes. |
| `JobManager.Manager.Schedule` | internal/jobs/scheduler.go:23-43 | Undisturbed, the loop starts exactly the first queued jobs, in order, as many as slots are free, changes no other job, and stops where nothing more can start. |
| `JobManager.Manager.FinishRun` | internal/jobs/scheduler.go:57-70 | The section that ends run stores status, result and error by the terminal state and gives the slot back; a job that is gone is left alone. |
| `JobManager.Manager.RemoveQueued` | internal/jobs/scheduler.go:92-100 | The filter loop computes the queue without the id. |
| `JobManager.Manager.CancelJob` | internal/jobs/manager.go:225-258 | Per status: a waiting job is withdrawn from the queue and ended, a running one becomes canceling, a canceling one is left alone, any other is refused; the invariant is kept. |
| `JobManager.Manager.DeleteJob` | internal/jobs/manager.go:260-274 | Only ended jobs are removed, with their request; the error says which jobs are refused. |
| `JobManager.Manager.SetJobStage` | internal/jobs/state.go:25-31 | Changes the stage of a known job and nothing else. |
| `JobManager.Manager.SetJobProgress` | internal/jobs/state.go:33-41 | Sets the percentage of a known job, the current count to it and the total to one hundred, and nothing else. |
| `JobManager.CancelKeepsInv` | internal/jobs/manager.go:225-258 | Every outcome of Cancel keeps the invariant. |
| `JobManager.RecoveryKeepsJobs` | internal/jobs/store.go:13-68 | Recovery takes over exactly the jobs with a readable job.json, ended ones unchanged, the others queued or ended; file and memory then agree exactly where no rewrite was due or the rewrite succeeded. |
| `JobManager.RewrittenIff` | internal/jobs/store.go:27-66 | Recovery writes a job.json again exactly when it changes the job. |
| `JobManager.RecoveryRestartable` | internal/jobs/store.go:27-66 | A recovery that stopped anywhere, with any of its writes made, refused or cut short, leaves what a second one turns into the uninterrupted result without exactly the jobs whose job.json the first truncated and did not write. |
| `JobProtocol.StepKeepsInv` | internal/jobs/scheduler.go:10-78 | Every lock section, every half of every file write, every fork, crash, interrupted recovery and restart keeps the whole invariant: queue, slots, pending calls, owed schedule calls, order and disk. |
| `JobProtocol.ScheduleKeeps` | internal/jobs/scheduler.go:23-43 | A turn of schedule, interleaved anywhere, keeps the invariant. |
| `JobProtocol.RunEndKeeps` | internal/jobs/scheduler.go:57-78 | The job is still there when its worker ends, so the missing-job return is never taken; the section keeps the invariant. |
| `JobProtocol.WithdrawKeeps` | internal/jobs/manager.go:233-239 | Canceling a waiting job, also in its insert-to-enqueue window, keeps the invariant. |
| `JobProtocol.DeleteKeeps` | internal/jobs/manager.go:260-279 | Deleting keeps the invariant, whatever calls and writes for the job are still under way. |
| `JobProtocol.JobWriteKeeps` | internal/jobs/store.go:89-97 | Both halves of a job.json write, succeeding, failing, cut short or mixed with another, keep every request that recovery could need ahead of its job. |
| `JobProtocol.CrashKeeps` | internal/jobs/store.go:13-68 | A crash, and a crash inside a recovery after any of its writes, keep the invariant of the directory. |
| `JobProtocol.BootKeeps` | internal/jobs/manager.go:47-64 | A restart on whatever a crash left behind, whichever of its own writes fail, establishes the invariant, with a call of schedule owed. |
| `JobRuns.RunKeepsInv` | internal/jobs/manager.go:225-279 | The invariant holds in every state of every run. |
| `JobRuns.NoLostWakeup` | internal/jobs/scheduler.go:10-43 | In every reachable state in which a queued job could start, some thread still owes a call of schedule. |
| `JobRuns.NothingStranded` | internal/jobs/scheduler.go:45-78 | When no thread is left, no slot is taken, everything started was given back, and unless shut down nothing is queued and every job is ended or was never enqueued. |
| `JobRuns.SlotsBounded` | internal/jobs/scheduler.go:26-35 | The running set is exactly the jobs with an active status, never exceeds the limit, and each job takes and gives back its slot at most once. |
| `JobRuns.FirstInFirstOut` | internal/jobs/scheduler.go:10-43 | In every state the started ids followed by the queue are the enqueue history without the ids canceled while queued. |
| `JobRuns.WorkersFindTheirJob` | internal/jobs/scheduler.go:45-62 | A worker always finds its job, with an active status. |
| `JobRuns.WithdrawnNeverStarts` | internal/jobs/manager.go:233-239 | A job canceled while queued is never started later by the same process. |
| `JobRuns.OnlyEnqueueRevives` | internal/jobs/scheduler.go:10-21 | A step changes an ended job that is not deleted if and only if it is the enqueue section of the call that created it. |
| `JobRuns.TerminalIsFinal` | internal/jobs/state.go:16-23 | Past enqueue an ended job keeps status, result and error until it is deleted or the process ends; a result is there exactly on success, an error exactly otherwise. |
| `JobRuns.CancelingStep` | internal/jobs/scheduler.go:57-90 | A step leaves a canceling job canceling, or ends it as canceled when its worker returns. |
| `JobRuns.AcceptedCancelHolds` | internal/jobs/manager.go:240-250 | Once a running job was accepted for cancellation its status is canceling and then canceled, whatever the runner returns. |
| `JobLife.RunEndsAs` | internal/jobs/scheduler.go:57-90 | A worker that has returned leaves its job canceled if and only if the manager was shut down, the job's context was canceled or its cancel was accepted; otherwise succeeded with the result when the runner returned no error, and failed with exactly its error when it did. |
| `JobLife.ContextsStep` | internal/jobs/manager.go:67-82 | The manager's context is canceled by a shutdown alone, a job's own by the signal of an accepted cancel alone. |
| `JobLife.StatusStep` | internal/jobs/scheduler.go:10-43 | Within one process a job appears, as created, by Create alone and disappears by deleting it once it has ended alone; its status changes when its creator enqueues it, when it is started from the head of the queue, when its run ends, when it is canceled while it waits or runs, and by no other step. |
| `JobLife.CancelStep` | internal/jobs/manager.go:225-258 | A waiting job is ended with the early cancellation error and leaves the queue, a running one is marked and keeps its slot, any other is left alone; no other job changes. |
| `JobLife.ReportStep` | internal/jobs/scheduler.go:48-56 | A report replaces the stage if it names one and the progress if it has a percentage, and nothing else. |
| `JobLife.RequestsStep` | internal/jobs/manager.go:130-133 | Requests are taken in by Create and dropped by an accepted Delete, and change in no other way. |
| `JobLife.DeleteStep` | internal/jobs/manager.go:260-279 | An accepted delete is to remove the directory, and the removal leaves nothing of it. |
| `JobLife.FailedCreateGivesUp` | internal/jobs/manager.go:134-138 | When a write of Create fails, nobody is to enqueue the job any more. |
| `JobLife.GivenUpStays` | internal/jobs/manager.go:134-138 | A job that Create gave up on stays created until it is canceled; the process never queues it and never runs it. |
| `JobLife.ShutdownCancels` | internal/jobs/manager.go:67-82 | Within one process a job that is active when the manager is shut down never ends as anything but canceled, whatever its runner returns. |
| `JobLife.ClosedStartsNothing` | internal/jobs/scheduler.go:26-29 | After a shutdown no step starts a job. |
| `JobRuns.RestartIdempotent` | internal/jobs/store.go:13-68 | Restarting, crashing and restarting again gives the same memory but for exactly the jobs whose job.json the first restart truncated and did not write, and leaves every file that it wrote as it is. |
| `JobSaves.ReadableIff` | internal/jobs/store.go:89-97 | Over every run, a job that was never deleted can be read from disk if and only if its job.json was once completed and, since it was last truncated or garbled, completed again. |
| `JobSaves.RestartRecovers` | internal/jobs/store.go:13-97 | A restart after a crash at any point of any run holds the invariant with no slot in use; of the jobs never deleted exactly those come back whose job.json was once written and not left broken: ended ones as saved, active ones interrupted with the restart error, waiting ones queued with their request, in the order of the listing. |
| `JobSaves.FilesHold` | internal/jobs/store.go:70-97 | Over every run, for deleted jobs too, job.json and request.json hold a value if and only if that value was written completely and nothing was done to the file since: no truncation, no other write, no removal of the directory. |
| `JobSaves.GivenUpIff` | internal/jobs/store.go:40-55 | A restart interrupts a job for lack of its request if and only if a complete write of a waiting copy of it stands and no write of its request does; every such job was deleted. |
| `JobSaves.TraceTrack` | internal/jobs/store.go:89-97 | In every run each pending copy of a job is the job itself if it was encoded since the job last changed, and of a state before its end otherwise; the same holds of the file; and an ended job is saved, or its save has failed, or a thread is still to save it. |
| `JobSaves.SavedCopyIsTheJob` | internal/jobs/store.go:89-97 | The file is the job when the save that finished last was encoded since the job last changed and no truncation was left unfilled; for an ended job that was not revived by its late enqueue, only then. |
| `JobSaves.SavedAtRest` | internal/jobs/scheduler.go:57-78 | With no thread left and no up-to-date save failed, the file of an ended job is the job if and only if no save encoded before its last change finished after one encoded since, and no truncation was left unfilled. |
| `JobSaves.EndedJobSurvives` | internal/jobs/store.go:13-97 | A succeeded, failed or canceled job comes back from a crash as it was if and only if its last finished save was up to date and its file whole; otherwise it is missing, queued again or interrupted. |
| `JobFindings.CancelInWindowIsOverwritten` | internal/jobs/scheduler.go:10-15 | A reachable run in which a cancel between insertion and enqueueing is overwritten: the canceled job becomes queued. |
| `JobFindings.CanceledJobRuns` | internal/jobs/scheduler.go:10-43 | A reachable state in which that canceled job runs, with the error of its cancellation still on it. |
| `JobFindings.RewriteLosesJob` | internal/jobs/store.go:173-180 | A reachable state with a job that is queued, saved and never deleted, and that one more half of a write, a crash and a restart lose. |
| `JobFindings.FinishedJobRunsAgain` | internal/jobs/scheduler.go:19-21 | A state reached without a failed write or a crash, with nothing under way, in which a job has succeeded, its file says queued, and a restart runs it a second time. |
| `JobFindings.DeletedJobReturnsWithoutRequest` | internal/jobs/store.go:41-55 | A reachable run in which a deleted job comes back after a crash and takes the missing-request branch. |
| `EventLog.Store.constructor` | internal/events/events.go:46-70 | An opened store has the file's events, the next id, and the newest events up to the limit in its buffer. |
| `EventLog.Store.Append` | internal/events/events.go:72-101 | An append that no other overlaps takes the next id and adds the event to the end of file and buffer. |
| `EventLog.Store.Replay` | internal/events/events.go:103-124 | The branches and the filter loop compute the specified events and loss flag. |
| `EventLog.Store.DropReplayBefore` | internal/events/events.go:145-166 | The file keeps exactly the events from the id on; the buffer, whose backing array the second loop reuses, holds what that overwriting leaves, element by element. |
| `EventLog.StepSound` | internal/events/events.go:46-166 | One operation keeps ids contiguous and new if and only if it is not a reopening of a file emptied of its events. |
| `EventLog.RunSound` | internal/events/events.go:46-166 | A run of appends, drops and reopenings keeps exactly the newest events retained and the next id new if and only if no reopening finds the file emptied of its events. |
| `EventLog.ReplayIs` | internal/events/events.go:103-124 | Whatever was dropped, replay returns the newest events from the one asked for on, or all that are retained when everything was asked for or the next one was dropped. |
| `EventLog.IdsStayDistinct` | internal/events/events.go:46-166 | No two events of a run get the same id if and only if nothing is appended after a reopening that found the file emptied. |
| `EventLog.EmptiedLogReusesIds` | internal/events/events.go:61-68 | A run that drops everything and reopens gives two different events the same id. |
| `EventLog.ReplayExact` | internal/events/events.go:103-124 | Replay returns all events ever appended after the id if and only if none of them was dropped; a loss is reported exactly for a positive id, a non-empty file and a dropped next event. |
| `EventLog.ResumeIsExact` | internal/daemon/sse.go:46-64 | Printer, chunked parser, header and replay together, for a client that already holds any number of events, heartbeats among the frames, and a cut at any character: if nothing it has not got was dropped, resuming with the id it is left with gives exactly the rest if and only if the cut is not between a complete id line and the end of its frame; there exactly that event is missed. |
| `EventLog.CutEventIsMissed` | desktop/main/client/daemonClient.ts:756-777 | A stream cut behind the id and type lines of the first event hands nothing over, leaves the client with that event's id, and the replay for that id is empty. |
| `Sse.ResponseWriter.WriteSSE` | internal/daemon/sse.go:101-115 | Appends exactly the frame of the event: an id line only for a positive id, a type line, a data line, an empty line. |
| `Sse.ResponseWriter.WriteAll` | internal/daemon/sse.go:60-63 | Writes the frames of all events in order. |
| `Sse.MergeEventData` | internal/daemon/sse.go:117-146 | The loop over the fields, in any order, adds exactly the fields that are not reserved; reserved fields and all others keep their value, no data changes nothing, and any other data goes under one key. |
| `Sse.StreamSSE` | desktop/main/client/daemonClient.ts:750-778 | The incremental parser, fed any chunks, does what reading the whole text line by line does. |
| `Sse.FrameDispatched` | desktop/main/client/daemonClient.ts:763-776 | Whatever lines a frame has, in any order, one event is handed over at its end: its type is that of the last type line or heartbeat, its payload that of all data lines together, other lines are ignored, and the id is that of the last id line. |
| `Sse.RoundTrip` | desktop/main/client/daemonClient.ts:750-778 | For every list of events and every chunking, the parser dispatches exactly the printed events if and only if every type and payload is one line without white space at its ends; it then returns the id of the last event with a positive id. |
| `Sse.CutConnection` | desktop/main/client/daemonClient.ts:756-778 | A connection cut at any character hands over exactly the events whose whole frame was received, in order; the id returned is that of the last of them that has one, or the next event's if the cut lies behind its id line. |
| `EditDistance.Compute` | src/fast_sub/benchmark/text_metrics.py:32-46 | The two rolling rows compute the distance of the full recurrence. |
| `EditDistance.ErrorRate` | src/fast_sub/benchmark/text_metrics.py:26-29 | No value exactly for an empty reference; otherwise the distance divided by the reference length. |
| `EditDistance.DistanceIsLeastCost` | src/fast_sub/benchmark/text_metrics.py:32-46 | Some script of inserts, deletes and substitutions turns one list into the other at the cost of the distance, and no script is cheaper. |
| `EditDistance.Symmetric` | src/fast_sub/benchmark/text_metrics.py:32-46 | The distance is symmetric. |
| `EditDistance.Bounds` | src/fast_sub/benchmark/text_metrics.py:32-46 | The distance lies between the difference of the lengths and the longer length. |
| `EditDistance.ZeroIffEqual` | src/fast_sub/benchmark/text_metrics.py:32-46 | The distance is zero exactly for equal lists. |
| `EditDistance.Compose` | src/fast_sub/benchmark/text_metrics.py:32-46 | Two scripts one after the other can be done by one script at no more cost. |
| `EditDistance.Triangle` | src/fast_sub/benchmark/text_metrics.py:32-46 | The triangle inequality. |
| `Intervals.BoundIntervals` | src/fast_sub/media/service.py:245-263 | The loop computes the fold of clipping and merging over the intervals sorted by start. |
| `Intervals.BoundedSilence` | src/fast_sub/media/service.py:245-263 | For any intervals and duration the result is in order with strict gaps, lies inside the media, and covers exactly those points of the media that some interval covers. |
| `Intervals.SpeechSegments` | src/fast_sub/media/service.py:266-280 | The cursor loop computes the specified speech intervals. |
| `Intervals.SpeechIsComplement` | src/fast_sub/media/service.py:266-280 | The speech is exactly the points of the media outside the silence. |
| `Intervals.SpeechSeparated` | src/fast_sub/media/service.py:266-280 | No two speech intervals touch. |
| `Intervals.TotalsAddUp` | src/fast_sub/media/service.py:73-74 | The two total durations add up to the length of the media. |
| `Intervals.BuildAnalysis` | src/fast_sub/media/service.py:69-74 | The pieces together: the silence is what some interval covers of the media; silence and speech, each in separated intervals, partition the media as point sets and as durations; without a duration there is no speech. |
| `Chunking.SplitChunk` | internal/subtitle/refine.go:231-263 | The word loop and the rune loop compute the greedy packing or the slices. |
| `Chunking.FewestLines` | internal/subtitle/refine.go:231-263 | For several words the lines are a layout in which every line fits or is one word, and no layout of the words has fewer lines. |
| `Chunking.CountMonotone` | internal/subtitle/refine.go:236-247 | A longer current line never saves a line and costs at most one. |
| `LineWidths.ChunksOfOneWord` | internal/subtitle/refine.go:254-262 | A text of at most one word is cut every maxChars characters: the pieces are the text, none is empty or wider, all but the last are as wide as allowed, and there are as many as that takes. |
| `LineWidths.ChunksWidth` | internal/subtitle/refine.go:231-263 | No line is wider than allowed, unless it is one of several words. |
| `LineWidths.PlainLenCounts` | internal/subtitle/refine.go:300-308 | The length counts the characters that are not control characters. |
| `LineWidths.WrappedOneWord` | internal/subtitle/refine.go:265-276 | Wrapping a text of one word without control characters cuts the word every maxChars characters. |
| `LineWidths.WrappedWidth` | internal/subtitle/refine.go:265-276 | No wrapped line of any text is wider than allowed, unless it is one of several words. |
| `LineWidths.FieldsWrapped` | internal/subtitle/refine.go:265-276 | Wrapping a text of several words keeps every word whole and apart from the next. |
| `LineWidths.CueTextsWidth` | internal/subtitle/refine.go:200-229 | A text that fits on two lines is one cue; otherwise every cue fits on two lines or is one word, and no two cues that follow each other would fit together. |
| `Wrapping.NormalizeText` | internal/subtitle/srt.go:58-66 | The in-place loop computes the trimmed lines of the trimmed text. |
| `Wrapping.WrapSubtitleText` | internal/subtitle/refine.go:265-276 | The loop with its merge branch computes the wrapped text. |
| `Wrapping.TextChunks` | internal/subtitle/refine.go:200-229 | The nested loops compute the cue texts. |
| `Wrapping.SqueezeWrapped` | internal/subtitle/refine.go:265-276 | Wrapping changes nothing but white space. |
| `Wrapping.SqueezeCueTexts` | internal/subtitle/refine.go:200-263 | Cutting a text into cues changes nothing but white space. |
| `TidyText.WrappedTidy` | internal/subtitle/refine.go:265-276 | Wrapping a text that is not blank gives non-empty trimmed lines whose only white space is the blank. |
| `TidyText.NormalizedTidy` | internal/subtitle/srt.go:58-66 | Normalising leaves such text as it is. |
| `TidyText.MergeNeverTaken` | internal/subtitle/refine.go:268-274 | For text without control characters the merge branch is never taken. |
| `TidyText.WrapsIntoFewestLines` | internal/subtitle/refine.go:265-276 | For such text wrapping keeps the fewest lines any layout of the words can have. |
| `Refine.RepairTimeline` | internal/subtitle/refine.go:64-82 | The loop computes the repaired segments. |
| `Refine.RepairedTimeline` | internal/subtitle/refine.go:64-82 | Every repaired segment lasts, and none starts before the one ahead of it has ended. |
| `Refine.TimelineUnchanged` | internal/subtitle/refine.go:64-82 | Repairing changes nothing on segments that are already in order and last. |
| `Refine.RepairIdempotent` | internal/subtitle/refine.go:64-82 | Repairing twice is repairing once. |
| `CueShape.RepairedAt` | internal/subtitle/refine.go:64-82 | Each repaired segment starts at the latest of zero, its own start and the end of the one ahead, and keeps its own end if that is later, else lasts the least time; text and words stay. |
| `CueShape.CleanedFirst` | internal/subtitle/refine.go:49-62 | Blank segments go; the others keep words and times, negative ones raised to zero, and their text is normalised. |
| `Refine.ValidWords` | internal/subtitle/refine.go:142-163 | The loop computes the kept words, or none when a time is out of order. |
| `CueShape.ValidWordsAre` | internal/subtitle/refine.go:142-163 | The valid words are all that are not blank, trimmed, if every word ends no earlier than it starts and starts at most a millisecond before the last one ended; else there are none. |
| `Refine.JoinWordTexts` | internal/subtitle/refine.go:175-187 | The loop joins the words that are not blank. |
| `CueShape.SentenceSpaced` | internal/subtitle/refine.go:175-187 | Where words are spaced, the words of the sentence are those of its texts: no two are glued. |
| `CueShape.SentenceUnspaced` | internal/subtitle/refine.go:175-187 | Where they are not, the sentence has exactly the characters of its texts: nothing is put between them. |
| `Refine.SplitSegmentByWords` | internal/subtitle/refine.go:113-140 | The loop computes the cues of the valid words; it reports success exactly when there is one. |
| `Refine.SplitSegment` | internal/subtitle/refine.go:87-108 | One segment: by words if it has valid ones, else evenly by time, with the same choices as the code. |
| `Refine.SplitLongSegments` | internal/subtitle/refine.go:84-111 | The loop over the segments concatenates their parts. |
| `Refine.RefineSegments` | internal/subtitle/refine.go:24-34 | The pipeline computes the refined segments. |
| `RefineFacts.RefinedConservesText` | internal/subtitle/refine.go:84-187 | With white space removed, the cue texts are the texts of the segments, or their valid words where there are any: nothing lost, added or moved. |
| `RefineFacts.RefinedIsPlayable` | internal/subtitle/refine.go:24-34 | Every cue starts at or after zero, lasts, does not overlap an earlier one, and has tidy text. |
| `RefineFacts.EvenRefinement` | internal/subtitle/refine.go:84-111 | Without valid words the second repair is the identity and the parts of each repaired segment tile it exactly, each lasting at least half a second if there are several. |
| `RefineFacts.RefinedEmpty` | internal/subtitle/refine.go:49-62 | No cue comes out exactly when every text is blank. |
| `RefineFacts.ByWordsFacts` | internal/subtitle/refine.go:113-187 | The word path is taken exactly when a segment has valid words, and keeps their characters. |
| `CueShape.ByWordsShape` | internal/subtitle/refine.go:113-198 | The cues made of word timestamps take the valid words in order, each as many as fit on two lines and into the longest time; each has the times of its first and last word, and blanks between words unless the language is Chinese, Japanese or Korean by name or, left open, by its characters. |
| `CueShape.EvenSplitShape` | internal/subtitle/refine.go:84-111 | A segment without valid words is cut into texts that fit on two lines or are one word, into its lines where a part would last too long, in parts of equal time; it stays whole when that is one text or a part would last less than half a second. |
| `CueShape.LineLimit` | internal/subtitle/refine.go:278-298 | The widest line is what the options say, else 22 where the language is Chinese, Japanese or Korean by name or, left open, by a character of some text that came in, else 42. |
| `CueShape.RefinedLinesFit` | internal/subtitle/refine.go:24-34 | No line of any refined cue is wider than that, unless it is one word. |
| `Srt.FormatTimestamp` | internal/subtitle/srt.go:68-77 | The successive remainders print the nearest whole number of milliseconds as hours, minutes and seconds below sixty, and three digits. |
| `Srt.MillisNearest` | internal/subtitle/srt.go:69 | A time is printed in the nearest whole number of milliseconds. |
| `Srt.TimestampShape` | internal/subtitle/srt.go:70-76 | A timestamp has at least two digits for the hours, two below sixty for minutes and seconds, three for the milliseconds, and they add up to the time. |
| `Srt.RenderSrt` | internal/subtitle/srt.go:27-56 | The loop renders all cues, or returns the error of the first segment that fails. |
| `Srt.NonEmptyLines` | internal/runtime/whispercpp/whispercpp.go:452-462 | The loop keeps the trimmed lines that are not empty. |
| `Srt.ParseBlock` | internal/runtime/whispercpp/whispercpp.go:292-318 | One block gives a segment, nothing, or the error, with the same choices as the code. |
| `Srt.ParseSrt` | internal/runtime/whispercpp/whispercpp.go:288-328 | The loop over the blocks computes the parsed segments or the first error. |
| `SrtRoundTrip.TimestampRoundTrip` | internal/runtime/whispercpp/whispercpp.go:412-434 | A printed timestamp parses to exactly the milliseconds it was printed from. |
| `SrtRoundTrip.RenderedIff` | internal/subtitle/srt.go:45-56 | Rendering succeeds exactly for ordered times from zero on and text that is not blank. |
| `SrtRoundTrip.FirstRefused` | internal/subtitle/srt.go:27-56 | An error of rendering names the first segment that cannot be shown, by its number and its fault. |
| `SrtRoundTrip.RenderedBlocks` | internal/subtitle/srt.go:27-43 | The rendered text is one block for each segment: its number counted from one, its times, the lines of its text. |
| `SrtRoundTrip.CueRoundTrip` | internal/runtime/whispercpp/whispercpp.go:292-318 | One rendered cue without a blank line parses to its segment. |
| `SrtRoundTrip.NumberIsOptional` | internal/runtime/whispercpp/whispercpp.go:297-301 | A cue without its number is read as the same segment. |
| `SrtRoundTrip.WindowsBreaks` | internal/runtime/whispercpp/whispercpp.go:289-290 | Carriage returns ahead of the line breaks change nothing. |
| `SrtRoundTrip.PointOrComma` | internal/runtime/whispercpp/whispercpp.go:412-434 | Milliseconds may also follow a point. |
| `SrtRoundTrip.RoundTrip` | internal/runtime/whispercpp/whispercpp.go:288-328 | Rendering and parsing gives the segments back, every time within half a millisecond and text normalised, if and only if there is a segment and no normalised text has a blank line. |
| `SrtRoundTrip.BlankLineCutsText` | internal/runtime/whispercpp/whispercpp.go:288-318 | The text "a", a blank line, "b" is rendered and read back as the text "a". |
| `SrtRoundTrip.RefinedRoundTrip` | internal/subtitle/srt.go:27-77 | Refined segments always render, and read back with every text as it was and every time within half a millisecond. |
| `ConfigFile.StripComment` | internal/config/config.go:409-422 | The scan cuts the line at the first '#' outside quotation marks. |
| `ConfigFile.ParseFile` | internal/config/config.go:156-206 | The loop over the lines computes the configuration or the first error with its line. |
| `ConfigFile.Save` | internal/config/config.go:110-123 | The writers produce exactly the specified lines, section by section. |
| `ConfigFile.WriteUiConfig` | internal/config/config.go:338-361 | The UI section: header, schema version, one line per field that is set, an empty line. |
| `ConfigFile.WriteProviderConfig` | internal/config/config.go:367-380 | A provider section, or nothing when all its fields are zero. |
| `ConfigLines.EscapeRoundTrip` | internal/config/config.go:405-432 | Unescaping undoes escaping for every string. |
| `ConfigLines.OutcomeIff` | internal/config/config.go:409-422 | A quoted text comes back as it was if and only if every '#' in it has an even number of quotation marks ahead of it. |
| `ConfigLines.ReadItem` | internal/config/config.go:167-183 | A written line sets its key to the exact outcome of its text, or is refused where there is none. |
| `ConfigReading.SectionNames` | internal/config/config.go:181-197 | Each section has several names that mean the same, and a key in a section of another name has no effect. |
| `ConfigReading.KeyRefused` | internal/config/config.go:225-226 | A raw key is refused in every provider section. |
| `ConfigReading.BlanksIgnored` | internal/config/config.go:167-180 | White space around a line, its name and its value means nothing. |
| `ConfigReading.CommentIgnored` | internal/config/config.go:409-422 | What follows a '#' on a line without quotation marks means nothing. |
| `ConfigRead.SectionsReadBack` | internal/config/config.go:156-206 | The whole written file is read back as the outcome of every field, or refused exactly when some text has no outcome. |
| `ConfigRoundTrip.ParsedUnbroken` | internal/config/config.go:156-206 | No value read from any file has a line break. |
| `ConfigRoundTrip.RefusedAt` | internal/config/config.go:156-206 | A file that is refused is refused for its first line that cannot be read, whose number is given. |
| `ConfigRoundTrip.FileRoundTrip` | internal/config/config.go:102-206 | Saving and parsing gives the same settings if and only if no written text has a line break or a '#' behind an odd number of quotation marks, and the file limit is not negative. |
| `ConfigView.MergeConfigView` | internal/daemon/config_handlers.go:217-283 | Whatever the order of the keys, each field takes the patch's value of the right type and keeps its own otherwise. |
| `ConfigView.TruncatedIs` | internal/daemon/config_handlers.go:217-283 | A number of the patch becomes the whole number next to it towards zero. |
| `ConfigView.ApplyLoadedUiConfig` | internal/daemon/config_handlers.go:334-384 | Each field takes the file's value if it is set there and keeps its own otherwise. |
| `ConfigView.LoadView` | internal/daemon/config_handlers.go:75-107 | The UI fields of the loaded view are the defaults with what the file sets; a refused file leaves the defaults. |
| `ConfigView.PatchedRoundTrip` | internal/daemon/config_handlers.go:322-405 | A view that was patched, saved and loaded again shows the same settings if and only if no text of the patched view is empty, has a line break, or has a '#' behind an odd number of quotation marks, and the provider texts are readable or the view shows the defaults. |
| `ConfigView.CommentCutsSetting` | internal/config/config.go:409-422 | A setting with a '#' behind one quotation mark is read back cut, with a backslash at its end. |
| `ConfigView.ProviderTextLosesAll` | internal/daemon/config_handlers.go:75-107 | One provider address `"x#` makes the file unparsable, and every UI setting returns to its default, whatever the other settings are. |
| `ConfigView.LineBreakSetsLanguage` | internal/config/config.go:363-407 | A provider address with line breaks is saved as lines of their own, which can set the language, whatever language was saved. |
| `PlainText.PlainTextLayout` | internal/jobs/runner_translate.go:301-314 | The loop computes the trimmed lines, translatable exactly where not blank. |
| `PlainText.PlainTextLayoutToSyntheticSrt` | internal/jobs/runner_translate.go:316-339 | The loop prints one numbered cue for each translatable line, or one empty cue if there is none. |
| `PlainText.TranslatedSrtCueTexts` | internal/jobs/runner_translate.go:361-388 | The loop with its flushes computes the cue texts, without lines taken for numbers or timing. |
| `PlainText.NormalizeTranslatedPlainTextLine` | internal/jobs/runner_translate.go:411-424 | The loop joins the trimmed lines that are not blank. |
| `PlainText.TranslatedCueTextsToPlainText` | internal/jobs/runner_translate.go:390-409 | The loop gives each translatable line the next translation, or its own text once there is none left. |
| `PlainTextFacts.SqueezeNormalizedLine` | internal/jobs/runner_translate.go:411-424 | Making a cue one line changes nothing but white space. |
| `Translations.FieldsNormalizedLine` | internal/jobs/runner_translate.go:411-424 | Making a cue one line keeps its words: none is glued to the next. |
| `PlainTextFacts.KeepsLines` | internal/jobs/runner_translate.go:390-409 | Whatever subtitles the translator returns, the output has one line for each line of the input, and a line is blank exactly when its input line is. |
| `PlainTextFacts.SyntheticCues` | internal/jobs/runner_translate.go:316-388 | Read back, the synthetic subtitles give exactly the texts that are not skipped, in order. |
| `Translations.TranslationsArrive` | internal/jobs/runner_translate.go:361-388 | Every cue text of a translator's subtitles, of any number of lines, arrives whole and in order. |
| `Translations.TranslatedText` | internal/jobs/runner_translate.go:301-424 | From the text to the translator and back, line by line: blank for blank, the translation with one blank between its lines for each line that has one, and the line itself where too few came back. |
| `PlainTextFacts.IdentityTranslation` | internal/jobs/runner_translate.go:301-424 | A translator that returns its input gives back the text with every line trimmed if and only if no line that is a number or has an arrow is followed by a line that is not. |
| `PlainTextFacts.NumberLineIsReplaced` | internal/jobs/runner_translate.go:361-409 | Given back untranslated, the two lines "12" and "hello" become "hello" twice. |
| `TidyText.NormalizedTrimmed` | internal/subtitle/srt.go:58-66 | Normalised text is trimmed, has no carriage return, and is empty exactly for blank text. |

## Left out

- HTTP routes, authentication, the desktop windows and the user interface: the job manager's callers are arbitrary.
- FFmpeg, whisper.cpp, the Python workers and the translation commands: a runner emits arbitrary updates and returns an arbitrary result or error.
- Model installation, downloads, provider checks, argument parsing, reports, and the BLEU and chrF scores.
- Jobs: validation and defaults in Create, the times of a job, `List`, `Result` and `Logs` (which only read), and the wait of at most fifteen seconds in `Shutdown`. Ids are fresh.
- Jobs: `saveJob` reads the pointer under the mutex and encodes the job after releasing it; the model does both in one step, so a mixture of two versions of a job in one file does not occur in it.
- Jobs: a write is a truncation and a completion; what a write leaves that was cut short or mixed with another is taken to be unreadable, whatever prefix or tail it has. Removing a directory is one step that succeeds or does nothing. A write under way while its directory is removed and made again fills the new file if another write has created it by then; this concerns deleted jobs alone. A directory is what the two JSON files hold; the log, tmp, outputs and worker directories are not modelled.
- Jobs: event stores appear only as something that can create a job's directory again. JSON is an opaque value with an inverse, redaction changes nothing.
- JobRuns.TerminalIsFinal: is about one process. `JobSaves.EndedJobSurvives` says exactly when an ended job also survives a crash, and `JobFindings.FinishedJobRunsAgain` shows that it need not.
- Jobs: a restart accepts calls at once, while in the code the first call of schedule has returned before the manager does; the runs of `JobFindings` do not use this.
- JobSaves.SavedAtRest: a job canceled before it was enqueued and revived by its enqueue keeps only the direction from the condition to equality, since an old and a new copy of it can be equal.
- EventLog.Store.Append: appends do not overlap. Two that do can reach the file in the other order, since the file is written outside the lock. Subscribers, their channels and the gap between replay and subscription are left out, as are lines that a crash cuts off.
- EventLog.ResumeIsExact: takes the header as decimal digits, which is all the printer writes. The retry loop of the desktop client is left out; it ends after a stream that ended, and after an error connects again with the id it began with, so that it does not itself resume with an id the parser was left with.
- Sse.StreamSSE: chunks are sequences of characters; a cut inside the bytes of one character is the decoder's business. Parsing the JSON of a payload, and an exception it may raise, are left out.
- Sse.MergeEventData: values of fields are opaque strings.
- Seconds are real numbers: rounding of binary floating point, infinities and the not-a-number value, with the checks for them, are left out, as is a time beyond the 64-bit range of milliseconds (a requirement of the round trips).
- EditDistance.ErrorRate: the quotient before it is rounded to three decimals.
- Intervals.BuildAnalysis: the ratios, their rounding, the averages, warnings and recommendations.
- Refine.RefineSegments: the confidence of a word, which is only passed along. `strings.ToLower` is modelled on the characters that become the letters it is compared with.
- Refine.SplitLongSegments: is stated for segments whose text is not blank, which is what `dropBlankSegments` leaves.
- Srt.ParseSrt: `strconv.ParseFloat` is modelled on decimal syntax with an optional exponent, without hexadecimal numbers, underscores, infinities, or errors of range. The JSON parser of whisper.cpp results is left out.
- Text is a sequence of characters: invalid UTF-8, and case folding beyond the letters above, are left out.
- ConfigFile.ParseFile: the scanner's limit of 64 kilobytes a line, file errors, and the temporary file and rename of Save. The text is what the file holds.
- ConfigRoundTrip.FileRoundTrip: the file limit is at most the largest 64-bit integer, as a Go int is.
- ConfigView.MergeConfigView: the nested provider maps of a view, which `openAIConfigFromView` turns into provider settings; provider settings are arbitrary in the file round trip and without line breaks in the view round trip.
- ConfigView.LoadView: the provider part of the view, which is built from the provider settings.
- ConfigView.PatchedRoundTrip: of the patch validation, the part about the UI fields; provider texts with a line break, which are read as lines of their own; `ConfigView.LineBreakSetsLanguage` shows what they can do.
- PlainTextFacts.IdentityTranslation: asks for fewer than 2^63 lines, so that every cue number is read as one.
- PlainText: reading and writing the files, and the layout of a translation that is not plain text.
