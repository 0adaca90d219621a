# Polymux: locks, runs, transfers, page trees and codecs, modelled in Dafny

The project models the parts of Polymux whose correctness cannot be seen in one function, and proves what
they promise for every input, every interleaving or every reachable state.

- **The per-key lock** (`Locks`). `KeyedMutex.run` is cut at its awaits into steps over promise tails; other
  callers, settling works and promise reactions interleave freely.
- **The agent run loop** (`Messages`, `Control`, `Tools`, `Runner*`, `RunLog`, `Persistence`, `EventQueue`). A
  state is the run at one of its awaits, an action is what the awaited party answers or what another party does
  meanwhile (a steered message, a cancellation). A list of actions is one interleaving, and the theorems hold
  for all of them. `RunnerLoop` is the same loop as a class that updates the variables of `#execute` in place,
  keeps the invariant of `RunnerInvariant` and follows the transition system under every interleaving. `RunLog`
  reads turns, messages and tool batches off the event log. `RunnerStory` tells the context and the log of a run
  entry by entry from the answers it got, `RunnerContext` says what a reader of the context can rely on, and
  `RunnerTurns` when another turn or another model call follows and what a completed run has passed.
- **Resumable transfers** (`Http`, `Chunks`, `Dropbox`, `GoogleDrive`, `Download`). The provider is a state
  machine that is the authority on its own offset; requests are dropped, repeated or their answers lost, reads
  are short and streams break anywhere. The wire forms are those of RFC 9110: Range (section 14.2),
  Content-Range (14.4), 206 (15.3.7), Retry-After (10.2.3).
- **The page tree** (`AxTree`, `Frames`, `Snapshot`, `SnapshotLines`, `SnapshotCycles`, `Session`,
  `Decimal`). Frame trees are renamed and spliced into the main tree, the result is walked into lines with refs,
  and a session gives the refs out. A well-formed node list is one that lists a finite forest (`AxTree.Lists`).
- **Pure algorithms** (`Protobuf`, `Rewrite`, `Patterns`, `CursorGeometry`, `CursorPath`). The codec follows the
  sections "Base 128 Varints" and "Message Structure" of the Protocol Buffers Encoding specification; the cursor
  geometry is over real numbers.

What the code relies on and the model therefore states as contracts or builds in: the event sink, the steer
listeners and the `afterTool` promises do not throw; tools report progress only while they run; turn limits, tool
budgets and request attempts are integers; an uploaded file and a downloaded object do not change meanwhile.

Places where a promise turned out not to hold, with the exact condition:

- The comment on `committedOffset` (packages/drive/src/google-drive.ts:656-657) says that a 308 without `Range` means
  the provider holds nothing; the caller goes on after the chunk instead (line 343). The model follows the code:
  `GoogleDrive.SendKeepsPrefix` and `GoogleDrive.UploadResumable` say exactly when the offset gone on from is the
  provider's, and `GoogleDrive.MissingRangeSkipsChunk` shows the skipped chunk.
- A clean end of a stream is taken for the end of the object: `Download.DownloadIsWhole` says exactly when the
  destination is the whole object, `Download.CutDownloadCounts` shows a cut one being accepted.
- Not every message the user has seen is stored: a run stopped while `beforeComplete` is being asked has its answer in
  the context, unrejected, and in no row (`Persistence.RowCanBeMissing`). `RunnerKept.StoredAtTheEnd` and
  `Persistence.RowsOfRun` say that this is the only such stop.
- A run that failed, or was cancelled through its request only, still accepts steering that nobody will read:
  `RunnerSteering.FailedRunStillAccepts`, an if and only if, and `RunnerStops.SteeringCanBeLost`.
- A pattern longer than a chunk is never found, and the empty pattern is found twice at every border between chunks:
  `Patterns.ChunkedIsPlain` (an if and only if, for every pattern), `Patterns.LongPatternIsMissed` and
  `Patterns.EmptyPatternRepeats`.
- A page whose child lists lead back to a node makes the walk endless: `SnapshotCycles.EndsIffAcyclic`, and
  `SnapshotCycles.LoopNeverEnds` at one node.
- A field of 2^70 or more is written and cannot be read back: `Protobuf.RoundTrip` covers both cases,
  `Protobuf.LargeNumberIsLost` is one such field.
- A Dropbox upload that is reported as failed may have committed the file, when the answer to the finishing request was
  lost: `Dropbox.UploadSession` says exactly when.

`dafny verify dfyconfig.toml` checks the whole project.

## Model

| member | source | states |
|---|---|---|
| `Locks.KeyedMutex.Run` | packages/core/src/locks.ts:25-35 | a call queues behind the key's tail, or starts at once when there is none; the lock's invariant is kept |
| `Locks.KeyedMutex.AfterEarlier` | packages/core/src/locks.ts:33-35 | a waiting call starts once the tail before it is resolved; the invariant is kept |
| `Locks.KeyedMutex.Finally` | packages/core/src/locks.ts:36-37 | a settled work, fulfilled or rejected, releases its own tail and passes its own outcome on; the invariant is kept |
| `Locks.KeyedMutex.AfterTail` | packages/core/src/locks.ts:42-44 | the key is dropped exactly if the tail is still this call's; the invariant is kept |
| `Locks.KeyedMutex.Held` | packages/core/src/locks.ts:48-51 | true exactly while the newest call on the key is not forgotten; when false every call on the key is through its `finally` |
| `Locks.InvStep` | packages/core/src/locks.ts:25-46 | every step of every party keeps the invariant: each call is linked to the one before it on its key, the table names the newest unforgotten call |
| `Locks.MutualExclusion` | packages/core/src/locks.ts:25-46 | in every interleaving at most one work per key runs at a time |
| `Locks.StartOrder` | packages/core/src/locks.ts:25-46 | works on a key start in the order `run` was called, each after every earlier one's `finally` |
| `Locks.HeldMeans` | packages/core/src/locks.ts:38-51 | a key is in the table if and only if its newest call is unforgotten; a missing key has neither holder nor waiter |
| `Locks.Progress` | packages/core/src/locks.ts:31-46 | while a call is unfinished some step other than a new call is enabled, also after rejections; only a running work is left to the work itself |
| `Locks.WorkShrinks` | packages/core/src/locks.ts:25-46 | every step that is not a new call uses up some of a finite amount of work |
| `Locks.StuckIsFinished` | packages/core/src/locks.ts:42-46 | when only a new call could step, every call is finished and the table is empty |
| `Locks.RunsDry` | packages/core/src/locks.ts:25-46 | without new callers every run is finite, and one that can go no further leaves an empty table and every call finished |
| `Locks.OwnOutcome` | packages/core/src/locks.ts:34-37 | in every interleaving what a caller is told is the outcome its own work settled with, and nothing before that; no other work's rejection changes it |
| `Locks.EveryCall` | packages/core/src/locks.ts:25-33 | every call of `run` is one of the lock's calls, under the key it was made for, in call order |
| `Control.AgentRunControl.Cancel` | packages/core/src/control.ts:16-18 | sets the abort and nothing else |
| `Control.AgentRunControl.Steer` | packages/core/src/control.ts:20-25 | accepted exactly when neither cancelled nor sealed; a refused message changes nothing, an accepted one goes to the end of the queue |
| `Control.AgentRunControl.DrainSteering` | packages/core/src/control.ts:38-40 | hands over the whole queue in order and empties it |
| `Control.AgentRunControl.SealSteeringIfEmpty` | packages/core/src/control.ts:42-48 | seals exactly on an empty queue, and from then on nothing is accepted; a refusal changes nothing |
| `Tools.OneLifecycle` | packages/core/src/runner.ts:512-596 | a call with an outcome emits one start first, one end last that tells the outcome, and only progress between; one that passes an abort on emits no end |
| `Tools.OutcomeOfFate` | packages/core/src/runner.ts:512-596 | what the model is told for each way a call can go: unknown tool, hook, block, thrown error, abort, result; which end event and how many progress reports |
| `Tools.Results` | packages/core/src/runner.ts:531-594 | one result per call, in call order, under the call's id and name, with the output and the error flag of its outcome |
| `Tools.ExecuteSequentially` | packages/core/src/runner.ts:604-606 | results if and only if no call passes an abort on, then one per call with all events in call order; otherwise the events stop with the first such call |
| `Tools.OneAfterTheOther` | packages/core/src/runner.ts:604-606 | all events of a call come after those of every earlier call and before those of every later one |
| `Tools.ParallelBatch` | packages/core/src/runner.ts:598-603 | under every interleaving of an unaborted parallel batch each call still has one start and one end, and the results come in call order, each with its call's id, name, output and error flag |
| `RunnerInvariant.SoundStep` | packages/core/src/runner.ts:173-499 | every answer, steered message and cancellation keeps the whole invariant of a run: steering conserved, turns and calls bounded, every turn ended once, completed messages kept, tools within budget, content of one source |
| `RunnerInvariant.Promises` | packages/core/src/runner.ts:173-499 | what the invariant means for the run's own variables, at every await and on completion |
| `RunnerLoop.AgentRun.Answered` | packages/core/src/runner.ts:173-499 | the stretch of the loop after any await, updating the loop's variables in place, keeps the invariant and follows the transition system whose context and log `RunnerStory.StoryOfRun` tells; an answer nobody awaits changes nothing |
| `RunnerLoop.Execute` | packages/core/src/runner.ts:130-499 | under every interleaving the context and the log are those the answers tell, with the result of every tool call in its place; accepted steering is in the context, being drained or queued; turns and model calls are bounded; a completed run has read all steering, takes no more, and reports the non-blank text of its last context message |
| `Runner.ResumeLogs` | packages/core/src/runner.ts:173-499 | a step never rewrites the log, and adds only the kinds of event that its await allows |
| `Messages.OneBlock` | packages/core/src/runner.ts:328-333 | a block is a call, a text or neither |
| `Messages.CallsOfParts` | packages/core/src/runner.ts:328-330 | the calls of a message are those of its parts, in order |
| `Messages.TextOfParts` | packages/core/src/runner.ts:331-333 | the text of a message is that of its parts, joined by a newline where both have some |
| `RunnerStory.NextTells` | packages/core/src/runner.ts:173-499 | what every action at every await adds to the context and to the log, from what the model and the callbacks have said so far |
| `RunnerStory.StoryOfRun` | packages/core/src/runner.ts:173-499 | in every run the context is the request's messages and then exactly what each answer adds: drained steering, drafts, repair messages, tool results; the log is exactly what each answer says; the run's variables hold what was heard |
| `RunnerContext.ContextGrows` | packages/core/src/runner.ts:173-499 | what is in a context stays where it is, whatever follows |
| `RunnerContext.ContextBegins` | packages/core/src/runner.ts:130-147 | the context of every run begins with the request's messages |
| `RunnerContext.EveryCallAnswered` | packages/core/src/runner.ts:375-416 | in the context of every run each tool call of the model has its result in its place, by id and name, unless the model was told that tools are gone or the run stopped right there; and every tool result answers such a call |
| `RunnerContext.ToolResultsFollow` | packages/core/src/runner.ts:397-408 | what the tools returned, output and error flag under each call's id and name, follows the message that called them, in call order, in every continuation of the run |
| `RunnerContext.RepairsOfRun` | packages/core/src/runner.ts:334-445 | the repair messages of every context are those `reviewFinal` and `beforeComplete` gave and the two fixed prompts, in the order they came |
| `RunnerTurns.LoopGoesOn` | packages/core/src/runner.ts:178-182 | an unaborted run at the top of its loop opens another turn if and only if there is no limit, or it is not reached, or fewer than three turns went over it and the last message was refused or the tool budget is spent |
| `RunnerTurns.StreamOver` | packages/core/src/runner.ts:298-325 | after every stream the model is asked again if and only if the error was transient, nothing was shown and fewer than three calls were made; the message is judged if and only if there was no error and a message; otherwise the run ends |
| `RunnerTurns.CompletedRunWasPassed` | packages/core/src/runner.ts:352-445 | no run completes unless, in its last turn, `reviewFinal` had nothing to repair and `beforeComplete` nothing outstanding, where the request asks them |
| `RunnerTurns.RunSignsOff` | packages/core/src/runner.ts:456-498 | a run that is over says so last, once, and with its status; no other run says so |
| `RunnerSteering.ConservedStep` | packages/core/src/runner.ts:184-188 | every action at every await keeps the conservation of steering |
| `RunnerSteering.SteeringConserved` | packages/core/src/runner.ts:184-188 | at every await of every run the accepted messages are those in the context in order, then those being drained, then those queued; announced are exactly those in the context |
| `RunnerSteering.CompletedRunReadEverything` | packages/core/src/runner.ts:418-454 | a completed run has an empty queue, had every accepted message in the context cloned for its last turn, and takes no further steering |
| `RunnerSteering.FailedRunStillAccepts` | packages/core/src/runner.ts:477-498 | a run that is over accepts a message if and only if it neither completed nor was cancelled through its control |
| `RunnerStops.SteeringCanBeLost` | packages/core/src/runner.ts:319-325 | a run that failed on its first stream, and still takes a message |
| `RunnerBounds.Delays` | packages/core/src/runner.ts:33-39 | the waits of a turn are 1 s after one failed call and 3 s after two |
| `RunnerBounds.BoundedStep` | packages/core/src/runner.ts:178-182 | every action keeps the account of turns, repair turns, model calls and waits |
| `RunnerBounds.RunIsBounded` | packages/core/src/runner.ts:147-182 | with turn limit M a run takes at most M+3 turns; every turn makes at most 3 model calls and waits at most 3 s, whatever the mix of repairs, steering and tools |
| `RunnerProgress.AnswerUsesUp` | packages/core/src/runner.ts:178-454 | any answer short of another stream event lowers a natural number that counts the answers left |
| `RunnerProgress.StepUsesUp` | packages/core/src/runner.ts:178-454 | whatever interleaves, that number falls with an answer, stays with a stream event or a cancellation, and grows only by one for an accepted message |
| `RunnerProgress.RunGoesOn` | packages/core/src/runner.ts:173-499 | at every await of every run that is not over some answer takes it on |
| `RunnerProgress.RunTerminates` | packages/core/src/runner.ts:178-470 | over any interleaving, a run with turn limit M takes at most 3 + 14 (M + 3) answers and one more per accepted message, stream events aside |
| `RunnerSynthesis.BudgetEndsInAnswer` | packages/core/src/runner.ts:192-224 | however a run goes on after the batch that spends its budget: the next turn it announces is the following one, without tools; it ends without that turn only if aborted or past M+3 turns, opens it only within M+3 turns, and announces nothing in it only if `transformContext` threw |
| `RunnerBudget.ToolBudget` | packages/core/src/runner.ts:192-224 | in every run tools execute in at most B turns, and a turn offers tools exactly while fewer than B batches were started |
| `RunnerContent.ContentFromLastAttempt` | packages/core/src/runner.ts:245-317 | in every run all text, reasoning and tool-call deltas of a turn come from one model call, the last one of that turn |
| `RunnerMessages.TurnsEndOnce` | packages/core/src/runner.ts:334-456 | every turn that reaches its end emits exactly one of `message.completed` and `message.final_rejected`, no turn two; "final" appears once in a completed run and never otherwise |
| `RunnerMessages.CompletedRunHasAnswer` | packages/core/src/runner.ts:372-373 | a completed run's `lastAgentMessage` is the non-blank text of its last context message, which calls no tools |
| `RunnerKept.StoredMessages` | packages/core/src/runner.ts:342-456 | at every await of every run the completed messages are the context's model messages whose turn accepted them; they are all but the rejected drafts if and only if every such turn is decided, which in a run that goes on fails exactly between the last message and its acceptance |
| `RunnerKept.StoredAtTheEnd` | packages/core/src/runner.ts:432-498 | of every run that is over, completed, failed or cancelled, the completed messages are the context's model messages without the rejected drafts if and only if it was not stopped inside `beforeComplete` |
| `RunnerStops.AnswerCanBeLost` | packages/core/src/runner.ts:372-445 | a run whose `beforeComplete` throws: failed, its answer in the context, neither completed nor rejected |
| `RunnerKept.KeptIsNotRejected` | packages/core/src/runner.ts:342-456 | where every turn has one end, accepted and not rejected are the same messages |
| `Persistence.Storage.PersistEvent` | packages/agent/src/runtime.ts:1047-1074 | text and tool-call fragments are not stored, every other event is; a completed message adds one row when there is a conversation, an empty id being none |
| `Persistence.RowsFollowLog` | packages/agent/src/runtime.ts:1063-1073 | in a conversation the rows of a log are its completed messages in order with as many finals; without one there are none |
| `Persistence.RowsBelong` | packages/agent/src/runtime.ts:1047-1073 | every row carries the conversation of its run and the message and phase of a completed message; all events but text and tool-call fragments are stored |
| `Persistence.StoredInOrder` | packages/agent/src/runtime.ts:1047-1058 | what is stored of later events comes after what is stored of earlier ones |
| `Persistence.RowsInOrder` | packages/agent/src/runtime.ts:1063-1073 | the rows of later events come after those of earlier ones |
| `Persistence.Storage.PersistRun` | packages/agent/src/runtime.ts:1047-1074 | persisting a log event by event appends exactly its stored events and its rows |
| `Persistence.RowsOfRun` | packages/agent/src/runtime.ts:1059-1073 | in every run of a conversation the rows are the model messages whose turn accepted them, one of them final if and only if the run completed; they are the context's model messages without the rejected drafts exactly outside `beforeComplete` and the seal, and for a run that is over exactly if it was not stopped inside `beforeComplete`; a run outside any conversation has no rows |
| `Persistence.RowCanBeMissing` | packages/agent/src/runtime.ts:1059-1063 | a failed run whose unrejected answer has no row |
| `EventQueue.AsyncEventQueue.Push` | packages/core/src/runner.ts:60-65 | keeps the queue's promise over all calls so far, this one included: the k-th `next` has the k-th value pushed before close |
| `EventQueue.AsyncEventQueue.Close` | packages/core/src/runner.ts:67-71 | keeps that promise: every `next` beyond the pushed values is done, buffered values stay |
| `EventQueue.AsyncEventQueue.Next` | packages/core/src/runner.ts:75-81 | keeps that promise for one more call, answered at once or later |
| `EventQueue.History` | packages/core/src/runner.ts:55-84 | for every sequence of calls the k-th `next` gets the k-th value pushed before close, or done if there were fewer; values and waiters are never both non-empty |
| `Http.Request` | packages/drive/src/http.ts:94-136 | the retry loop computes its recursive specification: which answers return, which errors are retried by status, hook and named wait, which end the loop, and that an aborted caller is told at once |
| `Http.AttemptLeadsTo` | packages/drive/src/http.ts:94-136 | what one attempt leads to: an error status is retried if and only if it is one of the six listed or hooked, and its named wait is within a minute; a transport failure unless the caller aborted; the last attempt is the last |
| `Http.ReturnedWhen` | packages/drive/src/http.ts:94-136 | a success is returned if and only if the answer to the last delivery arrived and is one |
| `Http.RequestActs` | packages/drive/src/http.ts:94-133 | whatever was dropped, lost or refused, the provider acted on at most `attempts` deliveries, and an answer heard is its answer to the last of them |
| `Chunks.FileHandle.Read` | packages/drive/src/chunks.ts:59-64 | a read brings some of the asked bytes to the right place and leaves the earlier ones alone |
| `Chunks.FileChunks.Next` | packages/drive/src/chunks.ts:51-77 | the chunk at the offset sent back, else where the last ended, is whole however short the reads; nothing at or past the end |
| `Chunks.UploadInChunks` | packages/drive/src/chunks.ts:102-122 | the loop computes the recursive upload: send, and go on from where the provider says it is |
| `Dropbox.RepeatedAppend` | packages/drive/src/dropbox.ts:273-279 | however often an append is delivered the bytes count once, and a repetition is answered with the true offset |
| `Dropbox.RepeatedFinish` | packages/drive/src/dropbox.ts:260-271 | however often a finish is delivered the file is committed once |
| `Dropbox.SendKeepsPrefix` | packages/drive/src/dropbox.ts:258-285 | a send from the provider's offset resumes at the provider's new offset, finishes only with the whole file, and on failure leaves a prefix; the file is committed if and only if it was a finishing send the provider acted on |
| `Dropbox.UploadSession` | packages/drive/src/dropbox.ts:258-286 | every send starts at the provider's offset; it holds a prefix throughout and exactly the file when done, after ceil(total / chunk) sends; the upload ends by itself, and early if and only if the file is empty; the file is committed, also when the caller is told of a failure, if and only if the provider acted on the finishing send |
| `Dropbox.UploadSucceeds` | packages/drive/src/dropbox.ts:258-286 | an upload of a non-empty file succeeds if and only if, from the network alone, every append is acted on and heard, as a success with its body or as a 409 that names the offset, and the first delivery of the finish that is acted on is the one answered, with its body |
| `Dropbox.ChunkCountIsCeiling` | packages/drive/src/chunks.ts:52-53 | the number of chunks is the ceiling of size over chunk size |
| `GoogleDrive.PutKeepsPrefix` | packages/drive/src/google-drive.ts:321-336 | a delivered chunk leaves a prefix of the file; the file is created exactly when it is whole; a stated range is the provider's offset |
| `GoogleDrive.SendKeepsPrefix` | packages/drive/src/google-drive.ts:321-343 | a send keeps the prefix under repetition and loss, is done only with the whole file, and goes on from the provider's offset if and only if the 308 stated a range or the chunk was taken to its end |
| `GoogleDrive.HeardIsTrue` | packages/drive/src/google-drive.ts:321-343 | over any repeated and lost deliveries of a chunk, what the provider is heard to say is true of what it holds |
| `GoogleDrive.UploadResumable` | packages/drive/src/google-drive.ts:321-344 | the provider always holds a prefix and, when done, the file; every send starts at its offset if and only if every send that went on, the last aside, stated a range or was taken to its end; an upload of a non-empty file that ends early has lost bytes and followed a 308 that was neither |
| `GoogleDrive.UploadSucceeds` | packages/drive/src/google-drive.ts:321-344 | an upload has succeeded if and only if the answer to its last delivery came through, body and all, from a provider that had the whole file |
| `GoogleDrive.HealthyUpload` | packages/drive/src/google-drive.ts:321-344 | on a network that answers, from a provider that keeps what it is sent, every non-empty file is uploaded |
| `GoogleDrive.MissingRangeSkipsChunk` | packages/drive/src/google-drive.ts:343-343 | a 308 without range from a provider that kept nothing makes the upload of a one-chunk file end early with nothing held |
| `Download.Disk.Pipe` | packages/drive/src/download.ts:88-96 | a stream appends only when resuming on a 206, and otherwise replaces the partial file by what arrived |
| `Download.Disk.Fetch` | packages/drive/src/download.ts:66-106 | the attempt loop leaves the partial file, the end and the asked offsets of its recursive specification, and the merged expectation |
| `Download.DownloadToFile` | packages/drive/src/download.ts:66-122 | destination, partial file and outcome are those of the specification, failing paths included |
| `Download.AttemptsKeepPrefix` | packages/drive/src/download.ts:73-106 | from any prefix on disk every attempt leaves a prefix; at a clean end the partial file is the whole object if and only if the last stream brought all it was asked for |
| `Download.AttemptsResume` | packages/drive/src/download.ts:73-106 | every request asks from the size of the partial file |
| `Download.DownloadIsSafe` | packages/drive/src/download.ts:66-122 | at most 10 opens, always a prefix on disk; every failing path leaves the destination untouched, and a changed destination is a verified prefix |
| `Download.DownloadCounts` | packages/drive/src/download.ts:113-140 | after a clean end the file counts if and only if its length is the stated size and its lower-cased digest the lower-cased stated one, where stated; each is the known one where that is set, even to null, and the described one otherwise |
| `Download.DownloadEnds` | packages/drive/src/download.ts:73-111 | the object is opened again after every broken stream until one ends cleanly, there is nothing to read, `open` throws, or ten have broken; the caller is told which |
| `Download.DownloadIsWhole` | packages/drive/src/download.ts:113-140 | an accepted download is the whole object if and only if its last stream was whole; a stated size that is the object's makes sure of it |
| `Download.CutDownloadCounts` | packages/drive/src/download.ts:88-96 | a stream that ends cleanly too early, with nothing to check against, is accepted cut |
| `Frames.AxTreeWithFrames` | packages/browser/src/handlers.js:578-622 | the loops compute the recursive splice over the main nodes; the list is untouched when frames are switched off |
| `Frames.SplicedKeeps` | packages/browser/src/handlers.js:613-618 | a main node changes in nothing but its children, and not before its own turn |
| `Frames.PrefixesDiffer` | packages/browser/src/handlers.js:604-605 | the prefixes of two elements never begin the same id |
| `Frames.SpliceOneLists` | packages/browser/src/handlers.js:601-619 | one frame spliced into a well-formed list whose ids do not begin with its prefix gives a well-formed list: its tree below its iframe, the same roots |
| `Frames.SplicedIsForest` | packages/browser/src/handlers.js:578-622 | the whole splice of well-formed trees is a well-formed forest with unique ids, the main tree's roots, and exactly the main ids and the renamed frame ids |
| `Frames.FrameNodesKept` | packages/browser/src/handlers.js:601-619 | every node of every expanded frame is in the page under its prefixed id with its own role, name, backend id and ignored flag |
| `Frames.WhatExpands` | packages/browser/src/handlers.js:583-599 | a node's frame is spliced in if and only if its role is an iframe's in any letter case, it has an element, and the page answers for it with at least one node |
| `Snapshot.Renderer.constructor` | packages/browser/src/snapshot.js:112-120 | the table maps each id to its last node; nothing is rendered yet |
| `Snapshot.Renderer.Format` | packages/browser/src/snapshot.js:122-143 | which nodes get no line; an actionable one takes the next ref for its own element, any other takes none |
| `Snapshot.Renderer.Emit` | packages/browser/src/snapshot.js:145-158 | a line exactly for the nodes the options show at that depth, numbered on from the counter |
| `Snapshot.Renderer.Walk` | packages/browser/src/snapshot.js:145-166 | over any finite unfolding of the child lists the walk ends, calls on its nodes in tree order, and appends exactly their lines |
| `Snapshot.Renderer.WalkChildren` | packages/browser/src/snapshot.js:162-165 | children that do not exist are skipped, the others walked in order |
| `Snapshot.RenderAxTree` | packages/browser/src/snapshot.js:103-170 | lines, refs and visited nodes of the whole rendering, from the roots or from the first node when there are none |
| `SnapshotLines.WalkEnds` | packages/browser/src/snapshot.js:162-168 | on a well-formed list the walk ends and visits every node exactly once |
| `SnapshotCycles.EndsIffAcyclic` | packages/browser/src/snapshot.js:162-165 | for any node list, the walk ends if and only if no node it reaches can be reached from itself through child lists |
| `SnapshotCycles.CyclicNeverEnds` | packages/browser/src/snapshot.js:162-165 | a cycle of any length leaves no finite unfolding |
| `SnapshotCycles.LoopNeverEnds` | packages/browser/src/snapshot.js:162-165 | a page of one node that is its own child |
| `SnapshotLines.AncestorsUnique` | packages/browser/src/snapshot.js:115-115 | the chain of `parentId`s above a node is unique |
| `SnapshotLines.LinesInOrder` | packages/browser/src/snapshot.js:145-168 | the lines are those of the shown nodes in the order of the tree |
| `SnapshotLines.LinesPlaced` | packages/browser/src/snapshot.js:145-168 | in every snapshot of a well-formed list each line is indented by its number of ancestors with lines, counted along `parentId`s, and a node has a line if and only if the options show it there |
| `SnapshotLines.WhoIsShown` | packages/browser/src/snapshot.js:122-158 | for every node of a well-formed list, spelled out by role, name, element, options and ancestors: whether it has a line, and whether that line acts on its element |
| `SnapshotLines.StartsWhere` | packages/browser/src/snapshot.js:115-116 | the walk starts from the nodes without a parent, and from the first node where there is none |
| `SnapshotLines.LastWins` | packages/browser/src/snapshot.js:112-113 | of two nodes with one id the later is found |
| `SnapshotLines.RefMapAt` | packages/browser/src/snapshot.js:136-141 | each number of a snapshot names its own element |
| `SnapshotLines.RefMapSize` | packages/browser/src/handlers.js:152-152 | a snapshot holds as many refs as lines that act on something |
| `SnapshotLines.RefReads` | packages/browser/src/snapshot.js:136-138 | a ref reads `e` and its number in decimal |
| `SnapshotLines.RefsOfLines` | packages/browser/src/snapshot.js:136-141 | the ref a line shows is in the table and stands for that line's element |
| `SnapshotLines.RefsDiffer` | packages/browser/src/snapshot.js:136-141 | no two lines show the same ref |
| `Session.Session.constructor` | packages/browser/src/session.js:23-29 | a new session has no refs, counts from zero and has no events behind it |
| `Session.Session.Snapshot` | packages/browser/src/handlers.js:137-152 | the refs become exactly those of the new lines, numbered on from the counter; the session stays the one its events make |
| `Session.Session.StopSession` | packages/browser/src/session.js:66-69 | no ref resolves afterwards, and the counter stays |
| `Session.Session.ResolveRef` | packages/browser/src/targets.js:105-110 | over everything that happened to the session: a ref of the last snapshot resolves to the element it was shown for, one of any earlier snapshot, of a stopped session or of none is unknown |
| `Session.PageSnapshot` | packages/browser/src/handlers.js:137-151 | the snapshot of a page with frames ends, meets every node of every tree once, and places every line |
| `Session.FrameRefsResolve` | packages/browser/src/handlers.js:137-152 | a node of a frame is shown by the same rules as any other, and where it can be acted on its line shows a ref that resolves to the node's own backend id |
| `Session.NamesDisjoint` | packages/browser/src/session.js:26-29 | over any run of snapshots and stops no name is given out twice |
| `Session.RefNeverChanges` | packages/browser/src/handlers.js:147-152 | a ref resolves if and only if no later snapshot or stop has happened, and then only to the element it was given out for |
| `Session.OnlyGivenRefs` | packages/browser/src/targets.js:105-110 | a ref that resolves was given out by some snapshot |
| `Protobuf.WriteVarint` | scripts/wechat/wechat_wire_inject.py:47-54 | the loop writes the shortest groups of seven bits |
| `Protobuf.ReadVarint` | scripts/wechat/wechat_wire_inject.py:34-44 | the loop reads at most ten groups, and fails on a truncated or longer number |
| `Protobuf.VarintMeans` | scripts/wechat/wechat_wire_inject.py:47-54 | the bytes of a number hold seven bits each, low ones first, the high bit on all but the last, and no empty last group |
| `Protobuf.VarintReadBack` | scripts/wechat/wechat_wire_inject.py:34-54 | a written number is read back exactly if it fits the room, and not at all otherwise |
| `Protobuf.RewrittenVarint` | scripts/wechat/wechat_wire_inject.py:34-54 | writing a number that was read takes no more bytes, and the same bytes if and only if they were minimal |
| `Protobuf.WriteField` | scripts/wechat/wechat_wire_inject.py:79-84 | tag, then the value or the length and the bytes |
| `Protobuf.EncodeFields` | scripts/wechat/wechat_wire_inject.py:77-85 | the loop writes the fields in order |
| `Protobuf.ReadField` | scripts/wechat/wechat_wire_inject.py:61-72 | the field at an offset and where it ends, or failure on truncation and other wire types |
| `Protobuf.Fields` | scripts/wechat/wechat_wire_inject.py:57-74 | the loop parses the whole message or fails |
| `Protobuf.FieldRoundTrip` | scripts/wechat/wechat_wire_inject.py:61-84 | a written field is read back, whatever follows it, if and only if its tag and value or length stay below 2^70 |
| `Protobuf.RoundTrip` | scripts/wechat/wechat_wire_inject.py:57-85 | `_fields(_encode(fs))` is `fs` for lists that stay below 2^70 and fails for all others |
| `Protobuf.SpecificationExamples` | scripts/wechat/wechat_wire_inject.py:77-85 | the two examples of the encoding specification, byte for byte |
| `Protobuf.LargeNumberIsLost` | scripts/wechat/wechat_wire_inject.py:34-54 | a field holding 2^70 is written and cannot be read |
| `Protobuf.ReencodedField` | scripts/wechat/wechat_wire_inject.py:61-84 | a field that was read fits, and is written in no more bytes, the same ones if and only if its varints were minimal |
| `Protobuf.Reencoded` | scripts/wechat/wechat_wire_inject.py:57-85 | re-encoding a parsable message is never longer, and identical if and only if every varint was minimal |
| `Rewrite.ReplaceBaseString` | scripts/wechat/wechat_wire_inject.py:88-100 | the one recipient string is replaced and returned; a missing, duplicate or undecodable one fails |
| `Rewrite.RewriteEntry` | scripts/wechat/wechat_wire_inject.py:117-139 | the children of the armed entry with recipient, content and type swapped; missing or duplicate ones fail |
| `Rewrite.RewriteMessage` | scripts/wechat/wechat_wire_inject.py:103-142 | the loop over the outer fields computes the specified outcome: nothing, failure or the rewritten message |
| `Rewrite.NoMatchMeans` | scripts/wechat/wechat_wire_inject.py:110-141 | for parsable input there is no result if and only if no field-2 entry holds the sentinel |
| `Rewrite.ChildIsSwapped` | scripts/wechat/wechat_wire_inject.py:120-136 | by wire numbers: a rewritten child keeps number and wire type, carries the ordered recipient, content or type where it is one, and is otherwise the same |
| `Rewrite.Swapped` | scripts/wechat/wechat_wire_inject.py:139-142 | a parsed message with one field replaced reads back as that list if and only if the new field fits |
| `Rewrite.RewriteIsExact` | scripts/wechat/wechat_wire_inject.py:103-142 | a result decodes to the original outer fields in order but for the one armed entry, whose children differ only in recipient, content and type; it reads back exactly while lengths stay below the limit |
| `Rewrite.RewritesWhen` | scripts/wechat/wechat_wire_inject.py:103-142 | there is a result if and only if exactly one field-2 entry holds the sentinel, that entry has one content, one type and readable recipients, and the ordered recipient can be decoded; it names the recipient the entry had and the ordered one |
| `Patterns.Find` | scripts/wechat/wechat_native_task_lldb.py:538-540 | the first occurrence at or after an offset, or none |
| `Patterns.SearchChunk` | scripts/wechat/wechat_native_task_lldb.py:536-542 | the occurrences that fit one chunk, while there is room for matches |
| `Patterns.FindMemoryPattern` | scripts/wechat/wechat_native_task_lldb.py:527-546 | the loop returns the first `maximum` addresses the overlapping chunks give together, or all if there are fewer; where the search is seamless these are the first `maximum` addresses of the plain search |
| `Patterns.OccurrencesExact` | scripts/wechat/wechat_native_task_lldb.py:527-546 | the plain whole-range search lists exactly the occurrences |
| `Patterns.OccurrencesAscend` | scripts/wechat/wechat_native_task_lldb.py:527-546 | the plain search is strictly ascending, so nothing is repeated |
| `Patterns.ChunkedFrom` | scripts/wechat/wechat_native_task_lldb.py:530-545 | from any chunk border on the chunks give the plain search, or nothing when the pattern is longer than a chunk |
| `Patterns.ChunkedIsPlain` | scripts/wechat/wechat_native_task_lldb.py:527-546 | for every pattern, the chunked search is the plain one if and only if the pattern fits a chunk or does not occur, or is empty and the range is one chunk |
| `Patterns.EmptyPatternRepeats` | scripts/wechat/wechat_native_task_lldb.py:530-545 | the empty pattern is reported twice in a row at every border between two chunks |
| `Patterns.LongPatternIsMissed` | scripts/wechat/wechat_native_task_lldb.py:531-545 | a range that is one pattern longer than a chunk: the plain search finds it, the chunks do not |
| `CursorGeometry.HandleIsLongest` | packages/browser/src/cursor-motion.js:154-171 | the handle is the longest of at most the requested length that stays in the viewport, for every direction |
| `CursorGeometry.HandleInside` | packages/browser/src/cursor-motion.js:154-171 | a handle of a point in the viewport is in the viewport |
| `CursorGeometry.CubicIsNested` | packages/browser/src/cursor-motion.js:173-191 | the weighted sum is three rounds of straight interpolation |
| `CursorGeometry.CubicBetween` | packages/browser/src/cursor-motion.js:173-191 | a curve stays between the least and the greatest of its points |
| `CursorGeometry.CubicMoves` | packages/browser/src/cursor-motion.js:173-191 | a curve moves at most three times the spread of its points times the progress made |
| `CursorGeometry.SlopeIsRate` | packages/browser/src/cursor-motion.js:193-211 | the tangent is the curve's rate of change, up to a second-order remainder given exactly |
| `CursorPath.PathEnds` | packages/browser/src/cursor-motion.js:524-545 | a path is at its start for progress up to 0 and at its end from 1 on |
| `CursorPath.PathInBox` | packages/browser/src/cursor-motion.js:524-545 | a path never leaves a box that holds its points, at any progress |
| `CursorPath.PathMoves` | packages/browser/src/cursor-motion.js:524-545 | a path of any number of segments is Lipschitz continuous, across its joins too |
| `CursorPath.PathCandidates` | packages/browser/src/cursor-motion.js:297-401 | the nested loops give the two plain curves and the eighteen arcs, in order |
| `CursorPath.CandidatesLead` | packages/browser/src/cursor-motion.js:297-401 | every candidate leads from start to end |
| `CursorPath.CandidatesLean` | packages/browser/src/cursor-motion.js:250-401 | every candidate leaves its start and reaches its end along the click direction, by its tangents at 0 and 1 |
| `CursorPath.NormalLeans` | packages/browser/src/cursor-motion.js:297-360 | the side an arc bulges to first is square to the way and not away from the click direction |
| `CursorPath.ArcBulges` | packages/browser/src/cursor-motion.js:250-295 | where the halves of an arc meet: off the middle of the way along the normal and the click direction, with handles along the way, as far before as after |
| `CursorPath.SizesOfPlan` | packages/browser/src/cursor-motion.js:302-378 | handles, arc distance and arc handle are in proportion to the distance between two limits each; the cap of nine tenths of the distance never counts |
| `CursorPath.ArcsSpread` | packages/browser/src/cursor-motion.js:378-401 | where each of the eighteen arcs has its join and how long its handles are: three distances a quarter apart, three handles 35 % apart, two sides that mirror |
| `CursorPath.SingleStaysInside` | packages/browser/src/cursor-motion.js:297-360 | between points of the viewport a single-segment path stays in the viewport at every progress |
| `CursorPath.ArcIsSmooth` | packages/browser/src/cursor-motion.js:250-295 | an arc leaves its join with the velocity it reached it with |
| `CursorPath.RemainsInside` | packages/browser/src/cursor-motion.js:419-464 | true exactly when the start and all 24 samples of every segment are inside the margin |
| `CursorPath.SampledClose` | packages/browser/src/cursor-motion.js:419-464 | a path sampled inside the margin strays from it by at most a sixteenth of its spread, at every progress |
| `CursorPath.ChoosePath` | packages/browser/src/cursor-motion.js:502-522 | the first least-score candidate among those sampled inside the margin, or among all when there are none |

## Left out

- References to the context: the host may hold the same array, and `cloneContext` exists for that; contexts are values here.
- The wording of the two repair prompts, which nothing depends on.
- Emitting several events in a row is one step: between them only steering and cancelling could arrive, which touch nothing those events depend on.
- Usage totals, durations, compaction status, prompt footprints and the text of error objects in the run loop.
- `Control.AgentRunControl.Steer`: the notification of steer listeners is not modelled, nor `onSteer` and `peekSteering`, which only observe.
- Turn limits and tool budgets that are not integers; event sinks, steer listeners or `afterTool` hooks that throw.
- Events of different tools of a parallel batch after an abort: the remaining tools may still emit.
- `Chunks.UploadInChunks`: watched for at most `patience` sends, because a Google session that keeps nothing and says so may go on for ever; Dropbox uploads are proved to end by themselves.
- The chunk size is a parameter of every transfer theorem rather than the constant the source passes.
- The "truncated while it was being uploaded" error of `fileChunks` and progress callbacks: the file does not change during the upload.
- `Http.Request`: backoff times, jitter and timeouts are not modelled; waits are bounded only through the retry-after cap.
- Header and body parsing (`contentRange`, `committedOffset`, `incorrectOffset`, JSON), OAuth, listing, moving and renaming: the model starts from the parsed answer.
- Digest functions are uninterpreted; `dropboxContentHash` is not part of this model.
- OneDrive uploads (packages/drive/src/onedrive.ts), which drive the same loop.
- `Snapshot.Renderer.Format`: the text of a line beyond its indent and ref (quoting, values, properties, urls) is not modelled, nor the truncation to `maxChars`.
- Frames inside frames, which the code does not expand either; locators, selectors and the other browser handlers.
- `CursorPath.ChoosePath`: the score is a parameter, and so are the click direction, travel direction and distance of a plan, which come from square roots and angles; scores that are not numbers are not captured.
- Springs, angles and rendering of the cursor.
- Queued `undefined` values in `AsyncEventQueue`, which `next` would take for an empty buffer.
- `Patterns.FindMemoryPattern`: the range is readable throughout; short and failing reads, and everything else that talks to the debugger, are not part of this model.
- Integer widths: identifiers, offsets and counters are unbounded, as they are below 2^53 in the source.
