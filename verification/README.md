# Verification of ShipIt-AI's run, knowledge and claims protocols

A Dafny model of the parts of ShipIt-AI that must survive crashes, retries and late
writers, with proofs of what they keep. `dafny verify dfyconfig.toml` checks all of it.

- **Agent runs** (`run_*.dfy`, `agent_loop.dfy`, `tool_calls.dfy`, `model_view.dfy`,
  `housekeeping.dfy`). Every SQL statement of the run store is a function on a run's rows
  (`run_model.dfy`); the store changes its rows in place and is proved to do exactly those
  statements (`run_store.dfy`). `run_protocol.dfy` interleaves any number of workers, the API and
  the sweep: workers stop anywhere, are overtaken, and go on late. `recordStep`,
  `addWarning` and `finishToolCall` carry no holder check, and no proof assumes one. The
  loop of one worker (`agent_loop.dfy`) runs on that store with others acting before each
  of its statements; it is proved to be an execution of the protocol, and `own` lists what
  it did itself. What it must do about each call is in `tool_calls.dfy`.
  `run_last_step.dfy` says what becomes of the calls of a last step, `run_refusals.dfy`
  shows the ways a holder is refused, `run_recovery.dfy` is about the clocks that free
  a run, and `run_stream.dfy` is the live stream of a run.
- **The knowledge index** (`knowledge_*.dfy`, `index_*.dfy`). One document against a sink
  and any number of workers (`knowledge_protocol.dfy`), the store in place
  (`knowledge_store.dfy`), whose methods are that protocol's actions
  (`knowledge_link.dfy`), a document through the pipeline, an execution of the protocol
  on the store (`index_pipeline.dfy`), and the worker's loop (`index_loop.dfy`).
- **The chunker** (`texts.dfy`, `split_text.dfy`, `packing.dfy`, `chunking.dfy`,
  `chunks.dfy`), on UTF-16 code units.
- **Smaller cores**: claims of a graph node (`claims.dfy`), schema migrations
  (`migrations.dfy`), string similarity (`string_similarity.dfy`), redaction
  (`redaction.dfy`). `sequences.dfy` holds laws several of them share.

Where another party may act between two statements, a method without effect of its own
(`Others`, `World`, `Await`) stands for it: what it may have done is its contract, and
callers know nothing else. Nondeterministic choices (`*`) stand for failures, clocks, the
model, the linter and the signal that stops a worker.

Time is a number that only grows. SHA-256 is taken as injective: a content hash is the
title and the segments it covers, without the authors' display names. A vector is a
function of the model and the embedded text.

## Where the code falls short of a plainer claim

- The stall clock is moved by whoever sends `recordStep`, a new warning or a cancel
  request, also by a worker that has lost the run (`LateStepRestartsTheClock`) and by a
  cancel request repeated (`RepeatedCancelRestartsTheClock`): `failStalled` then waits
  again. `ClockStandsIff`, `LateWorkerMovesIff` and `OutsiderMovesIff` say what moves it.
- A job the queue refuses ends a sweep before stalled runs are failed and idle chats
  closed (`RefusedJobLeavesItStalled`); exactly then (`Sweep`), and `CutShortEndsIff` says
  what is left of the stalled.
- The bound on model steps and on what is run after the last one is for one drive. When
  the worker is gone between appending a last step that asks and ending the run, another
  one runs the calls (`CrashRunsALastStepsCall`): that can happen exactly when nobody has
  asked to cancel and the store would still start one of them (`LastStepCallsRunIff`).
- A worker that holds the run is told that it has lost it when it is to start a call that
  was in flight under another worker and that one records the outcome after the listing
  (`LateOutcomeIsRefused`); when the call is such a write and its tool is not offered any
  more (`GoneToolIsRefused`) or has become a read (`ToolTurnedReadIsRefused`); or when the
  message repeats the id of a call it has settled itself (`RepeatedIdIsRefused`). These
  are all (`RefusedToItsHolderIff`). In the first and the last case the next worker finds
  the outcome. In the others the next one is refused the same way, and unless somebody
  records an outcome the stall clock runs on (`SettlingAloneStalls`).
- The marks `markUnchanged`, `markSkipped`, `releaseClaim` and `markFailed` test only that
  the row is being indexed: with two workers, or two versions, an edit can be lost
  (`LateMarkLosesAnEdit`). None is, in a run of any number of workers, exactly when every
  such mark meets the row it was decided on (`NoEditIsLostIff`); one loop's always do
  (`OneLoopLosesNoEdit`).
- A window overlap of two would drop a piece (`OverlapOfTwoDropsAPiece`); 0 and 1 are used.
- The date and the first line in a thread's prefix may be cut inside a surrogate pair
  (`PairIsCut`; `ThreadPrefixIsWellFormedIff` says when).
- The content hash covers neither kind, reference, container name nor display names,
  which chunks show: "the chunks of this content" means of some document with this hash.

## Model

| member | source | states |
|---|---|---|
| RunInvariants.StatementKeepsRowInv | packages/agents/src/run-store.ts:393-667 | every statement, from any sender, keeps the row consistent: a lease exactly while running, a finish time exactly when over, no cancel request on a queued or waiting run |
| RunInvariants.StatementIsMonotone | packages/agents/src/run-store.ts:393-804 | no statement takes back a message, a count, a warning, a cancel request, an ending or a call's outcome |
| RunInvariants.ScriptKeeps | packages/agents/src/run-store.ts:393-804 | both of the above over every sequence of statements at any times |
| RunInvariants.QueuedIsClaimable | packages/agents/src/run-store.ts:393-410 | from a new run on, whatever was done to it, a queued run can be claimed by anyone |
| RunInvariants.LostWorkerIsFenced | packages/agents/src/run-store.ts:478-501 | a worker that lost the run and has not claimed it again changes nothing through append, start, finish, park or renew |
| RunInvariants.EndedRunIsFrozen | packages/agents/src/run-store.ts:563-588 | after the end no worker adds a message or starts a call, and status, output and error stand |
| RunStores.NextSeq | packages/agents/src/run-store.ts:478-501 | the next number is above every number there is, and the length of a gap-free transcript |
| RunStores.InsertMessages | packages/agents/src/run-store.ts:295-312 | inserted rows continue the numbering without a gap and the transcript in order |
| RunStores.RunStore.Create | packages/agents/src/run-store.ts:324-361 | a new run is queued with its opening messages from number 0, no other run changes |
| RunStores.RunStore.ListMessages | packages/agents/src/run-store.ts:503-510 | exactly the messages above the given number, each under its own, for any integer |
| RunStores.RunStore.Claim | packages/agents/src/run-store.ts:393-410 | succeeds exactly for a queued run or an expired lease without a cancel request; a takeover leaves the progress clock alone |
| RunStores.RunStore.Renew | packages/agents/src/run-store.ts:413-427 | held exactly while the run is running under this name; reports a cancel request only then |
| RunStores.RunStore.ExpiredLeases | packages/agents/src/run-store.ts:434-441 | exactly the running runs with a lapsed lease that nobody asked to cancel |
| RunStores.RunStore.CancelAbandoned | packages/agents/src/run-store.ts:447-456 | cancels exactly the cancelled runs whose worker let the lease lapse, all at once |
| RunStores.RunStore.RequeueStaleQueued | packages/agents/src/run-store.ts:464-472 | stamps and returns exactly the runs queued for too long |
| RunStores.RunStore.AppendMessages | packages/agents/src/run-store.ts:478-501 | appends the messages after the last one and stamps progress, only for the holder if one is named |
| RunStores.RunStore.RecordStep | packages/agents/src/run-store.ts:517-538 | counts one step and its tokens whoever holds the run |
| RunStores.RunStore.AddWarning | packages/agents/src/run-store.ts:545-556 | adds a warning once; a repeated one changes nothing, the progress clock included |
| RunStores.RunStore.Finish | packages/agents/src/run-store.ts:563-588 | the first ending stands; a later one returns nothing and one by another than the holder of a live run is refused |
| RunStores.RunStore.WaitForInput | packages/agents/src/run-store.ts:596-623 | parks a running run, or settles a cancel that came meanwhile |
| RunStores.RunStore.AddUserMessage | packages/agents/src/run-store.ts:626-646 | takes a message exactly while the run waits for input, and queues it |
| RunStores.RunStore.RequestCancel | packages/agents/src/run-store.ts:653-667 | cancels a run no worker holds at once, marks one that is running, leaves an ended one alone |
| RunStores.RunStore.StartToolCall | packages/agents/src/run-store.ts:683-716 | starts a call for the holder only: a new one, a pending one, or a read still executing; never a write in flight or a call with an outcome |
| RunStores.RunStore.FinishToolCall | packages/agents/src/run-store.ts:723-750 | records the outcome of a call in flight and returns the outcome that stands |
| RunStores.RunStore.FailStalled | packages/agents/src/run-store.ts:778-791 | fails exactly the running runs without progress for twice their timeout |
| RunStores.RunStore.CloseIdleChats | packages/agents/src/run-store.ts:794-804 | ends exactly the chats that waited longer than the idle time |
| RunProtocol.Reachable | packages/agents/src/run-store.ts:393-804 | over every interleaving of any number of workers, the API and the sweep: lease, transcript, author and call invariants hold together |
| RunProtocol.WritesRunAtMostOnce | packages/agents/src/run-store.ts:683-750 | a call started under a tool that is not a read is started once in all, by any worker and whatever the tool is elsewhere or later, and its tool run at most once; every run of a tool follows its own start, and none starts after the end |
| RunProtocol.UnreadStartIsFirst | packages/agent-runner/src/loop/agent-loop.ts:441-459 | such a start gets through only where the call had no row: one in flight was in flight when its holder listed the rows |
| RunProtocol.DoKeepsKnown | packages/agent-runner/src/loop/agent-loop.ts:394-396 | what a holder has listed stays true of the rows in flight, but for what it starts itself, whatever the others do |
| RunProtocol.TranscriptsAreWellFormed | packages/agent-runner/src/loop/agent-loop.ts:173-248 | a message with calls is last or answered by the very next one, once per call and in call order; appends of different claims do not interleave |
| RunProtocol.SuccessIsTheAnswer | packages/agent-runner/src/loop/agent-loop.ts:185-197 | a run that succeeded rests on an answer without open calls, and a task's output is that answer |
| RunProtocol.ActionsAreMonotone | packages/agents/src/run-store.ts:478-501 | along every interleaving the transcript and its authors only grow |
| RunProtocol.AnswersIff | packages/agent-runner/src/model/messages.ts:14-26 | the answers the grammar allows to a message are exactly those built from one output for each call, in call order and under the calls' ids and names |
| RunProtocol.OthersKeepRely | packages/agent-runner/src/loop/agent-loop.ts:98-139 | whatever the others do, a worker that still holds the run held it all along and finds the transcript as it left it |
| RunRecovery.NoLiveRunIsStranded | packages/agent-runner/src/process/housekeeping.ts:49-67 | in every reachable live state, once its clock has passed, a claim or a sweep statement matches the run; a running one at the latest after twice its timeout |
| RunRecovery.ClockStandsIff | packages/agents/src/run-store.ts:393-804 | over every run the stall clock stands exactly while no action stamps the run, and then the run is stalled exactly when twice its timeout has passed since |
| RunRecovery.DoMovesIff | packages/agents/src/run-store.ts:393-804 | each action, of whomever, stamps exactly where its statement does: takeovers, renewals, starts and outcomes of calls, known warnings and refused writes do not |
| RunRecovery.LateWorkerMovesIff | packages/agents/src/run-store.ts:517-556 | of all a worker may do to a running run it does not hold, counting a step and a new warning move its clock, and nothing else |
| RunRecovery.OutsiderMovesIff | packages/agents/src/run-store.ts:653-667 | of the API's and the sweep's statements a running run's clock is moved by a cancel request, a failure, and the two endings whose time has come |
| RunRecovery.LateStepRestartsTheClock | packages/agent-runner/src/loop/agent-loop.ts:219-227 | an input: a worker that lost the run counts a refused step, and the run that is stalled under its new holder looks fresh |
| RunRecovery.RepeatedCancelRestartsTheClock | packages/agents/src/run-store.ts:653-667 | an input: a second cancel request alone makes a stalled run look fresh |
| RunRecovery.SweepLeavesNoneBehind | packages/agent-runner/src/process/housekeeping.ts:49-67 | of a complete sweep between whose statements anybody may act: each run overdue when it began is over, or on the queue, or was touched by somebody before its statement came; what a statement ended stays ended |
| RunRecovery.OverdueStays | packages/agent-runner/src/process/housekeeping.ts:49-67 | a clock that has run out has run out at every later moment of the sweep, unless the row was touched |
| Housekeepings.Housekeeping.EnqueueAll | packages/agent-runner/src/process/housekeeping.ts:56-59 | puts the ids on the queue one by one and stops at the first refusal |
| Housekeepings.Housekeeping.Requeue | packages/agent-runner/src/process/housekeeping.ts:52-59 | cancels the abandoned, then queues exactly the runs without a worker and those queued too long, as they are at that moment; or stops where the queue refused |
| Housekeepings.Housekeeping.Sweep | packages/agent-runner/src/process/housekeeping.ts:49-67 | with others acting between: each of the statements is done to every run as it is at its moment, in order, and the queue got exactly who needs a worker; complete exactly when the queue took every job, and otherwise neither the stalled nor the idle were ended |
| RunRecovery.CutShortEndsIff | packages/agent-runner/src/process/housekeeping.ts:49-67 | what a sweep cut short does to a stalled run: it is cancelled exactly when it is abandoned too, and otherwise as it was and still stalled |
| RunRecovery.RefusedJobLeavesItStalled | packages/agent-runner/src/process/housekeeping.ts:56-60 | an input: one run's job is refused, and a run stalled under a worker that renews its lease runs on |
| AgentLoops.AgentLoop.Process | packages/agent-runner/src/loop/agent-loop.ts:98-139 | claims under a fresh name and drives; without a claim it changes nothing; at most the steps left are taken |
| AgentLoops.AgentLoop.Drive | packages/agent-runner/src/loop/agent-loop.ts:141-249 | without its model the run fails at once; otherwise a warning for every grant it cannot honour, then the rounds |
| AgentLoops.AgentLoop.Rounds | packages/agent-runner/src/loop/agent-loop.ts:168-249 | terminates from any transcript by (steps left, what the last message is) whatever the others do; takes at most min(own, ceiling) steps, a chat its turn's; after a last step that asked nothing is started or run; a holder settles calls only after a step before the last that asked, or as it found them when it claimed |
| AgentLoops.AgentLoop.Turn | packages/agent-runner/src/loop/agent-loop.ts:173-248 | each turn stops, takes a step, or brings the transcript closer to the next one; it settles calls exactly when the transcript it read ends in them, and only then starts or runs any |
| AgentLoops.AgentLoop.ModelTurn | packages/agent-runner/src/loop/agent-loop.ts:199-248 | a step is taken only with steps left; before the last one the note is added once; a last step that asks ends the run |
| AgentLoops.AgentLoop.Model | packages/agent-runner/src/loop/agent-loop.ts:206-247 | whatever comes of a model call, no tool is started, and a last step that asks stops |
| AgentLoops.AgentLoop.TakeStep | packages/agent-runner/src/loop/agent-loop.ts:232-247 | the worker's own statements are exactly: append, then count, then what the step's end calls for; a refused append is all |
| AgentLoops.AgentLoop.CloseStep | packages/agent-runner/src/loop/agent-loop.ts:235-247 | a last step that asks fails the run, an answer cut off leaves a warning, nothing else is done |
| AgentLoops.AgentLoop.CheckBeforeStep | packages/agent-runner/src/loop/agent-loop.ts:280-319 | passes only uncancelled and within all four limits of the row as read; otherwise the one statement it sends names what is exceeded or the cancel, and a lost lease sends none |
| AgentLoops.FirstExceeded | packages/agent-runner/src/loop/agent-loop.ts:298-318 | none exactly within all limits; otherwise the code names a limit that is reached |
| AgentLoops.AgentLoop.StopAfterFailedCall | packages/agent-runner/src/loop/agent-loop.ts:357-376 | a failed model call ends the run with its error, an aborted one as the signal says: not at all, cancelled, or timed out |
| AgentLoops.AgentLoop.Reject | packages/agent-runner/src/loop/agent-loop.ts:219-231 | a refusal or an empty step is counted and then fails the run |
| AgentLoops.AgentLoop.AnswerCalls | packages/agent-runner/src/loop/agent-loop.ts:176-184 | results are appended only when every call has an outcome, each output the listed one or that of what this worker did about its call, in call order |
| AgentLoops.AgentLoop.SettleCalls | packages/agent-runner/src/loop/agent-loop.ts:385-482 | reads first, then writes: each call gives the model the outcome it had when listed, or what this worker did about it since as its plan wants: refused, given up, or started, run and recorded; every start is one the protocol allows, and nothing is sent that moves the run's clock |
| AgentLoops.AgentLoop.PlanAll | packages/agent-runner/src/loop/agent-loop.ts:399-473 | every call is reused, put among the writes (a write, a deletion or one that may have happened) or among the rest, in call order; none is forgotten and none that has an outcome is run |
| AgentLoops.AgentLoop.SettleWrite | packages/agent-runner/src/loop/agent-loop.ts:441-507 | an interrupted write is recorded as of unknown outcome and not run; any other is started, run for that start and recorded with what the model is told, with nothing of the worker's own in between but a record of success it was told has failed; it is lost exactly when it had to be started and, at that moment, the worker did not hold the run or the call had an outcome or was in flight under no read |
| AgentLoops.AgentLoop.RunAndRecord | packages/agent-runner/src/loop/agent-loop.ts:494-507 | a success whose record is reported to have failed, whether it got through or not, is recorded as a failure, and that is what the model is told |
| AgentLoops.AgentLoop.BeginRead | packages/agent-runner/src/loop/agent-loop.ts:405-472 | the first statement of any other call: its start, or the row of its refusal; lost exactly when, at that moment, the run was gone or the call was not to be started |
| ToolCalls.RefusedToItsHolderIff | packages/agent-runner/src/loop/agent-loop.ts:394-472 | in every reachable state a start the holder planned from the rows it listed is refused exactly when by now the call has an outcome, recorded since it listed the call as open, or is in flight under no read, as listed, with its tool gone or become a read; but for calls the worker has tried before, of which only the outcome and the flight are said |
| RunRefusals.GoneToolIsRefused | packages/agent-runner/src/loop/agent-loop.ts:404-432 | an input: the tool is gone, and the holder of a live run cannot record that |
| RunRefusals.ToolTurnedReadIsRefused | packages/agent-runner/src/loop/agent-loop.ts:450-472 | an input: the tool has become a read, is planned to be run, and refused |
| RunRefusals.LateOutcomeIsRefused | packages/agents/src/run-store.ts:723-750 | an input: the worker that lost the run records its read's outcome after the new holder has listed it, and the new holder's start is refused |
| RunRefusals.RepeatedIdIsRefused | packages/agent-runner/src/loop/agent-loop.ts:394-472 | an input: a message repeats an id, the worker has settled the first of the calls, and the second, planned from the same listing, is refused |
| RunRefusals.SettlingAloneStalls | packages/agents/src/run-store.ts:778-791 | a run that asks for a write in flight goes nowhere by being taken over and settled by however many workers: until somebody records the outcome its transcript and its clock stand, and it is stalled exactly when twice its timeout has passed |
| AgentLoops.AgentLoop.Start | packages/agents/src/run-store.ts:683-716 | a start gets through exactly when the sender holds the run and the call has no row or is a read in flight |
| AgentLoops.AgentLoop.AdvanceRead | packages/agent-runner/src/loop/agent-loop.ts:484-507 | each statement of a read: its start or refusal, its tool run for its own start, the record of what the model is told, and of a failure after a record that was reported to have failed; the other reads stay where they are |
| AgentLoops.AgentLoop.SettleReads | packages/agent-runner/src/loop/agent-loop.ts:462-475 | the reads under way all at once, their statements in any order between one another; each is refused, or started, run once for its start and recorded, in that order; when one is refused the calls are given up, while the others may go on for a while |
| AgentLoops.AgentLoop.SettleWrites | packages/agent-runner/src/loop/agent-loop.ts:475-480 | one after the other and after a look at the signal, exactly the named writes are settled, each output at its call's place, earlier ones untouched |
| AgentLoops.AgentLoop.Append | packages/agent-runner/src/loop/agent-loop.ts:534-538 | an append that gets through was made on the transcript as read, by the holder |
| AgentLoops.AgentLoop.End | packages/agent-runner/src/loop/agent-loop.ts:540-563 | one finish statement under the holder's name; finished means the run is over |
| AgentLoops.AgentLoop.Park | packages/agent-runner/src/loop/agent-loop.ts:185-192 | the answer of a chat parks it, or ends it when a cancel came meanwhile |
| AgentLoops.AgentLoop.Succeed | packages/agent-runner/src/loop/agent-loop.ts:193-196 | the answer of a task ends it with that text |
| RunLastStep.LastStepCallsRunIff | packages/agent-runner/src/loop/agent-loop.ts:232-247 | after an asking last step some continuation starts a call of it exactly when no cancel was asked for and the store would still start one; never does the worker that took the step |
| RunLastStep.CrashRunsALastStepsCall | packages/agent-runner/src/loop/agent-loop.ts:232-247 | an input: the worker is gone before it ends the run, and another runs the write the last step asked for |
| RunLastStep.AuthorStartsNothing | packages/agent-runner/src/loop/agent-loop.ts:236-243 | whatever happens, a worker whose last step asked starts nothing any more |
| RunLastStep.LostStartsNothing | packages/agents/src/run-store.ts:683-716 | nor does one that has lost the run |
| RunLastStep.ClosedStartsNothing | packages/agents/src/run-store.ts:393-410 | once a cancel is asked for and the holder is done, nobody starts anything |
| ModelView.ForModelKeepsGrammar | packages/agent-runner/src/loop/agent-loop.ts:601-607 | the model gets, in order and each once, the messages before the question at hand but notes, and all from there on; the grammar and how it ends are kept |
| RunStreams.ProtocolGrows | packages/agents/src/run-store.ts:478-510 | every interleaving of the run protocol is a world the stream may assume |
| RunStreams.MessageKeepsOrder | packages/api-server/src/routes/runs.ts:413-417 | sending the next message keeps the stream in order |
| RunStreams.RunStream.SendMessages | packages/api-server/src/routes/runs.ts:413-417 | listed rows go out in order, each once, none when the reader has hung up |
| RunStreams.RunStream.SendRest | packages/api-server/src/routes/runs.ts:413-423 | end goes out only after all messages and a record of the finished run |
| RunStreams.RunStream.CatchUp | packages/api-server/src/routes/runs.ts:397-428 | sent messages are always the transcript after the resume point without gap or repeat, and the last record shows the last status seen; a catch-up not cut short leaves nothing there was unsent, and ends the stream of a run that was over |
| RunStreams.RunStream.Serve | packages/api-server/src/routes/runs.ts:392-449 | that holds under any pattern of announcements, lost ones and failed reads |
| KnowledgeProtocol.ChunksAgreeWithTheirContent | packages/knowledge/src/store.ts:654-781 | for any number of workers and any sink: stored chunks are what the version that wrote them makes of a document with the content of indexed_hash, none without it, none for deleted or restricted ones; one content fails at most five times |
| KnowledgeProtocol.DoKeepsInv | packages/knowledge/src/store.ts:887-1003 | each action of the sink or of a late worker keeps that |
| KnowledgeProtocol.NoEditIsLostIff | packages/knowledge/src/store.ts:933-964 | for any number of workers and versions: in every state of a run the status tells the truth of content, hash and version exactly when every unchanged mark that takes effect meets chunks of the content and version it names and every skip mark a row with nothing to index |
| KnowledgeProtocol.DoTellsIff | packages/knowledge/src/store.ts:887-1003 | the first mark that does not meet its row is what breaks it, and no other action of anybody does |
| KnowledgeProtocol.NoEditIsLost | packages/knowledge/src/index-loop.ts:66-109 | of such a run: indexed means the chunks are those of the content there is now by the version on record, skipped that there is nothing to index |
| KnowledgeProtocol.OneLoopLosesNoEdit | packages/knowledge/src/index-loop.ts:66-109 | a single loop's marks always meet the row they were decided on, so with one loop the status tells the truth in every state |
| KnowledgeProtocol.LateMarkLosesAnEdit | packages/knowledge/src/store.ts:937-943 | an input: two workers, and a late unchanged mark makes content indexed that never was |
| KnowledgeProtocol.NoDocumentIsStranded | packages/knowledge/src/store.ts:843-860 | a live document is done, out of attempts, or can be claimed once its wait is over |
| KnowledgeModel.ApplyAllAppend | packages/knowledge/src/store.ts:669-744 | statements of a transaction one after the other |
| KnowledgeStores.KnowledgeStore.StoreBatch | packages/knowledge/src/store.ts:600-757 | accepted exactly when the container is known, selected and at the checkpoint the run holds; then every document did its upserts in order and its deletion, the checkpoint moves, and the counts are the entries with new content and the live documents deleted; refused, nothing changed |
| KnowledgeStores.KnowledgeStore.UpsertAll | packages/knowledge/src/store.ts:654-742 | each document took its batch entries in order; the count is that of the entries whose content its document did not have before |
| KnowledgeStores.KnowledgeStore.TombstoneAll | packages/knowledge/src/store.ts:759-781 | empties exactly the live documents named and counts them |
| KnowledgeStores.KnowledgeStore.PruneMissing | packages/knowledge/src/store.ts:783-834 | empties what a listing leaves out, spares what it could not see, and believes an empty listing only the second time |
| KnowledgeStores.KnowledgeStore.PurgeBatch | packages/knowledge/src/store.ts:517-555 | the longest waiting deselected containers, none passed over for a later one, lose their documents and checkpoint, those gone at the source their row |
| KnowledgeStores.KnowledgeStore.SelectContainer | packages/knowledge/src/store.ts:421-443 | deselecting asks for a purge, selecting takes it back, a container gone at the source is not selected |
| KnowledgeStores.KnowledgeStore.UpsertContainers | packages/knowledge/src/store.ts:290-299 | a complete listing marks the rest gone and changes neither selection nor checkpoint |
| KnowledgeStores.KnowledgeStore.ClearConnector | packages/knowledge/src/store.ts:222-251 | empty containers go at once, the others are deselected, gone and marked for purging |
| KnowledgeStores.KnowledgeStore.DeleteTombstones | packages/knowledge/src/store.ts:1012-1018 | exactly the old tombstones go |
| KnowledgeStores.KnowledgeStore.ClaimPending | packages/knowledge/src/store.ts:843-860 | claims only what is pending, stale or due again, oldest first, as many as the limit allows |
| KnowledgeStores.KnowledgeStore.ReplaceChunks | packages/knowledge/src/store.ts:887-931 | writes exactly when the row is still the claim for this content, chunks and marks together |
| KnowledgeStores.KnowledgeStore.MarkUnchanged | packages/knowledge/src/store.ts:937-944 | marks a row that is still being indexed, whichever content it has |
| KnowledgeStores.KnowledgeStore.MarkSkipped | packages/knowledge/src/store.ts:950-964 | the same, with the chunks and the hash gone |
| KnowledgeStores.KnowledgeStore.KeepClaim | packages/knowledge/src/store.ts:973-980 | renews exactly the claim for this content |
| KnowledgeStores.KnowledgeStore.ReleaseClaim | packages/knowledge/src/store.ts:987-993 | hands a claim back without an attempt spent |
| KnowledgeStores.KnowledgeStore.MarkFailed | packages/knowledge/src/store.ts:995-1003 | one attempt more and the backoff's start |
| KnowledgeStores.KnowledgeStore.Poll | packages/connector-sdk/src/knowledge/harness.ts:194-220 | the batches a run stores are each stored on the checkpoint the run held; it ends short of the last one only where the container is gone, deselected or not at that checkpoint |
| KnowledgeStores.CheckpointIsTheLatest | packages/knowledge/src/store.ts:746-754 | the checkpoint is the one of the last accepted batch that brought one since the container's last purge, and there is none exactly when there is no such batch |
| KnowledgeStores.BatchKeepsDocs | packages/knowledge/src/store.ts:669-755 | after a batch every document holds what the replay of accepted batches says, in a container that is selected |
| KnowledgeStores.ScriptShadow | packages/knowledge/src/store.ts:669-744 | a batch leaves of a document its last version in it, or nothing when it is deleted too |
| KnowledgeStores.WorkersKeepShadow | packages/knowledge/src/store.ts:843-1003 | indexing never changes what a document holds or where it belongs |
| KnowledgeStores.PurgeKeepsContainers | packages/knowledge/src/store.ts:529-547 | a purge starts the container afresh and leaves no document without a home |
| KnowledgeStores.OldestFirst | packages/knowledge/src/store.ts:843-860 | a limited choice passes nobody over for a later one |
| IndexPipeline.Indexer.IndexDocument | packages/knowledge/src/index-pipeline.ts:50-136 | the last word to the store is the skip, the unchanged mark or the rebuild of the document as claimed; a failure writes nothing, and superseded means that the row is not the claim any more |
| IndexPipeline.Indexer.Prepare | packages/knowledge/src/index-pipeline.ts:65-117 | whatever was reused, however requests were sliced, the rows are those of a rebuild |
| IndexPipeline.Indexer.EmbedAll | packages/knowledge/src/index-pipeline.ts:86-113 | after the last slice of a hundred every missing text has its vector, the claim renewed before each later slice |
| IndexPipeline.Indexer.EmbedSlice | packages/knowledge/src/index-pipeline.ts:95-112 | goes on exactly with an answer of one vector per text, each of the right dimension, and then each text has its own; anything else ends the document's turn |
| IndexPipeline.Indexer.WithRetry | packages/knowledge/src/embedder.ts:134-151 | one to five calls, the claim renewed before each but the first; a renewal the store refused, the row being no longer the claim, is the last thing that happens |
| IndexPipeline.Indexer.StillClaimed | packages/knowledge/src/index-pipeline.ts:88-93 | a renewal holds exactly while the row is the claim for this content |
| IndexPipeline.Indexer.Write | packages/knowledge/src/index-pipeline.ts:119-135 | written exactly when the row, as it is at that moment, is still the claim; it is the protocol's write, and then the row holds these chunks for its own content |
| IndexPipeline.StoredIsRebuilt | packages/knowledge/src/index-pipeline.ts:50-136 | in every run of sink and workers the stored chunks are the rebuild, by the version that made them, of a document with the indexed content, and every vector is that of its own text |
| IndexPipeline.TakeUp | packages/knowledge/src/index-loop.ts:88-97 | a worker of any version begins on its claim as a worker of that protocol |
| IndexPipeline.RebuildIsReplace | packages/knowledge/src/index-pipeline.ts:119-135 | what the pipeline writes is the protocol's replace of the claimed document |
| KnowledgeLinks.BatchIsRun | packages/knowledge/src/store.ts:669-744 | an accepted batch is, for each document, a run of the protocol's sink |
| KnowledgeLinks.ScriptIsRun | packages/knowledge/src/store.ts:600-757 | and so is every transaction of the sink, statement by statement |
| KnowledgeLinks.ClaimIsAction | packages/knowledge/src/store.ts:843-860 | a claim of the store is the claim of a new task that holds the row as claimed |
| KnowledgeLinks.PruneIsRun | packages/knowledge/src/store.ts:783-834 | a prune is a tombstone for exactly the documents it names |
| KnowledgeLinks.RemovalIsRun | packages/knowledge/src/store.ts:517-555 | a removal is a purge for exactly the documents it takes |
| IndexPipeline.Rows | packages/knowledge/src/index-pipeline.ts:121-132 | every draft has a vector and it is that of its own prefix and text |
| IndexPipeline.Reusable | packages/knowledge/src/store.ts:871-878 | the vectors stored for this model, each under the text it is of |
| IndexPipeline.ToEmbed | packages/knowledge/src/index-pipeline.ts:76-78 | exactly the drafts without a vector at hand |
| IndexLoops.EveryItemOnce | packages/knowledge/src/index-loop.ts:194-207 | however the hands are scheduled every claimed document is worked once, at most the limit at a time |
| IndexLoops.Work | packages/knowledge/src/index-loop.ts:78-107 | a stopping worker hands its document back, a failure is recorded, nothing else is reported twice |
| IndexLoops.IndexLoop.Turn | packages/knowledge/src/index-loop.ts:153-191 | it waits only when no wake-up came since its claim began, and one that comes then ends the wait |
| IndexLoops.IndexLoop.Kick | packages/knowledge/src/index-loop.ts:135-138 | a wake-up ends the wait or is remembered |
| SplitText.SplitLosesNothing | packages/knowledge/src/chunking.ts:227-257 | parts are not empty and at most 4 x maxTokens long, all text but white space survives in order, well-formed text gives well-formed parts |
| SplitText.SplitLongText | packages/knowledge/src/chunking.ts:227-257 | the loop computes exactly those parts and terminates for maxTokens of at least 1 |
| SplitText.CutHard | packages/knowledge/src/chunking.ts:240-249 | the inner loop cuts behind whole surrogate pairs only |
| SplitText.HardCutsKeep | packages/knowledge/src/chunking.ts:240-249 | its pieces are the unit, in order, within the limit |
| SplitText.ParagraphsKeep | packages/knowledge/src/chunking.ts:235-235 | splitting at empty lines loses line breaks only |
| SplitText.SentencesKeep | packages/knowledge/src/chunking.ts:236-236 | splitting behind a sentence loses white space only |
| SplitText.TakeKeeps | packages/knowledge/src/chunking.ts:237-253 | one paragraph or sentence goes to the parts or the buffer whole, within the limit |
| Texts.TrimKeeps | packages/knowledge/src/chunking.ts:231-234 | trimming loses white space only and breaks no pair |
| Packing.PackingLosesNothing | packages/knowledge/src/chunking.ts:193-224 | with the overlaps used, 0 and 1, windows without what they repeat are the fitted pieces, each window repeats exactly the end of the one before, and is small |
| Packing.Pack | packages/knowledge/src/chunking.ts:193-224 | the loop computes exactly those windows |
| Packing.NothingIsDropped | packages/knowledge/src/chunking.ts:219-223 | the trailing window is never taken for mere overlap |
| Packing.OverlapOfTwoDropsAPiece | packages/knowledge/src/chunking.ts:208-223 | with an overlap of two it is, and a piece is lost |
| Packing.FittedKeeps | packages/knowledge/src/chunking.ts:195-203 | fitting loses no text and every piece fits |
| Packing.WindowIsSmall | packages/knowledge/src/chunking.ts:208-218 | a window's estimate is below the target or that of one piece and its overlap |
| Packing.PlaceKeeps | packages/knowledge/src/chunking.ts:208-218 | one more piece keeps all that |
| Chunking.GroupsKeepPieces | packages/knowledge/src/chunking.ts:82-166 | whatever the kind, the groups hold every rendered segment once and in order; only threads overlap, by one |
| Chunking.GroupByHeading | packages/knowledge/src/chunking.ts:98-114 | the loop starts a group where the heading changes |
| Chunking.GroupChannelDay | packages/knowledge/src/chunking.ts:153-166 | the loop starts a group after a pause longer than the gap |
| Chunks.ChunksLoseNothing | packages/knowledge/src/chunking.ts:58-78 | what a document's chunks bring is every segment's piece in order, cut to size, and so all its text |
| Chunks.ChunksAreSmall | packages/knowledge/src/chunking.ts:58-78 | no estimate above max(chunkTokens - 1, maxChunkTokens), for a thread max(chunkTokens - 1, 2 x maxChunkTokens + 1); no chunk without a segment |
| Chunks.ChunkTextsAreWellFormed | packages/knowledge/src/chunking.ts:58-78 | well-formed segments give well-formed chunk texts |
| Chunks.ThreadPrefixIsWellFormedIff | packages/knowledge/src/chunking.ts:139-145 | a thread's prefix is well-formed exactly when neither the cut of its date nor that of its first line falls inside a pair |
| Chunks.PairIsCut | packages/knowledge/src/chunking.ts:142-143 | an input: a first line of 79 letters and a pair leaves half of the pair in the prefix |
| Chunks.JoinedIff | packages/knowledge/src/chunking.ts:142-143 | joined parts are well-formed exactly when each part is |
| Chunks.ChunkDocument | packages/knowledge/src/chunking.ts:58-78 | the loops compute exactly those chunks, numbered through |
| Chunks.Distinct | packages/knowledge/src/chunking.ts:65-65 | the segment keys of a chunk, each once |
| Claims.ManualClaimsStand | packages/core-writer/src/writer.ts:242-307 | over every order of merges and edits the manual claims stored are those set and not reverted, the last per person and property, and no others |
| Claims.MergeKeepsManual | packages/core-writer/src/claims/resolver.ts:64-83 | merging a connector's claims touches no manual claim |
| Claims.Node.WriteNode | packages/core-writer/src/neo4j/queries.ts:54-129 | a stale delivery writes nothing; a moved revision writes no claims; otherwise the merge is as if read and written at once |
| Claims.Node.SetManualClaim | packages/api-server/src/services/manual-edit-service.ts:105-163 | one claim per person and property, serialised with every other write |
| Claims.Node.RevertManualClaim | packages/api-server/src/services/manual-edit-service.ts:171-210 | takes the claim back, or changes nothing at all when there is none |
| Claims.Node.LoadClaimsLocked | packages/api-server/src/services/claim-write-helpers.ts:42-60 | moves the revision before anything is read |
| Claims.Node.WriteClaims | packages/api-server/src/services/claim-write-helpers.ts:63-72 | what is written is the next state of the replay |
| Claims.Writer.ProcessNode | packages/core-writer/src/writer.ts:205-328 | at most three tries; the key is recorded exactly when the payload was written or refused as stale, and stale exactly when the last try met a newer version; written, it is in the replay |
| Claims.Writer.Resolve | packages/core-writer/src/claims/resolver.ts:64-83 | the loop computes the merge by source, source id and property |
| Migrations.PlanMigrations | packages/agents/src/migrate.ts:56-96 | a plan exactly when every file is named right, no two share a version and none comes too late; it is the unrecorded files in ascending order |
| Migrations.VersionIsTheName | packages/agents/src/migrate.ts:42-47 | a name has a version exactly when it is that version's four digits, an underscore, a description and .sql |
| Migrations.IndexFiles | packages/agents/src/migrate.ts:60-76 | misnamed and clashing files are found, and nothing else is refused |
| Migrations.Database.RunMigrations | packages/agents/src/migrate.ts:158-219 | recorded versions only grow in order; a run that returns has recorded every file, one that rejects has changed nothing |
| Migrations.Database.RunInTransaction | packages/agents/src/migrate.ts:198-208 | effect and record are both there or both not, also when a commit that got through is reported as an error |
| Migrations.Database.RunOutside | packages/agents/src/migrate.ts:186-197 | recorded only after it took effect |
| Migrations.Database.Apply | packages/agents/src/migrate.ts:182-211 | a crash before, between or inside the files leaves a consistent prefix |
| Migrations.Database.Deploys | packages/agents/src/migrate.ts:158-219 | over any sequence of runs and directories: in order, and all files of every run that returned stay recorded |
| Migrations.EffectAndRecord | packages/agents/src/migrate.ts:198-208 | a committed file keeps the transactional effects equal to the transactional records |
| StringSimilarity.JaroMeans | packages/api-server/src/services/string-similarity.ts:10-40 | between 0 and 1; 1 for equal strings only; 0 exactly when no equal characters lie within the window |
| StringSimilarity.PairsAreEqual | packages/api-server/src/services/string-similarity.ts:14-29 | both strings have equally many marks |
| StringSimilarity.ComputeJaro | packages/api-server/src/services/string-similarity.ts:10-40 | arrays and pointer compute the definition |
| StringSimilarity.NextMark | packages/api-server/src/services/string-similarity.ts:33-38 | the pointer stays inside as long as marks are left |
| StringSimilarity.CountTranspositions | packages/api-server/src/services/string-similarity.ts:31-38 | counts where the paired characters of the two strings differ in order |
| StringSimilarity.MarkPairs | packages/api-server/src/services/string-similarity.ts:14-29 | marks greedily within the window, as the definition does |
| StringSimilarity.JaroWinkler | packages/api-server/src/services/string-similarity.ts:43-54 | at least the Jaro score of the normalised strings, at most 1, 1 for equal ones only, raised only for good matches with a common beginning |
| Redaction.RedactionIsExact | packages/knowledge/src/redaction.ts:69-87 | merging and splicing is one marker for each maximal union of touching ranges; without the markers it is the uncovered text in order |
| Redaction.RedactText | packages/knowledge/src/redaction.ts:57-88 | the loops compute that for ranges in any order, and the count is the number of unions |
| Redaction.SortIsStable | packages/knowledge/src/redaction.ts:69-72 | sorting puts the starts in order, loses nothing and swaps no two ranges that start together |
| Redaction.MergedAreUnions | packages/knowledge/src/redaction.ts:75-82 | the merged ranges are apart, begin and end where ranges do under the first one's rule, hold every range and cover nothing else |
| Redaction.Splice | packages/knowledge/src/redaction.ts:83-86 | splicing from the end is one pass from the left |
| Redaction.PassKeepsTheRest | packages/knowledge/src/redaction.ts:83-86 | between the markers stands exactly the uncovered text |
| Redaction.NoDirectiveIsLeft | packages/knowledge/src/redaction.ts:28-36 | the linter's copy has the text's length and no directive in it |

## Left out

- Postgres, Redis, BullMQ, Neo4j, the embedding model and secretlint: each statement or call is one atomic step or an uninterpreted function.
- Agent definitions, tool-policy resolution, approvals (`waiting_approval`), run lists, the daily usage table and the UUID check of run ids: they decide nothing the properties are about; the daily total is an arbitrary number.
- Policy, decision and service columns of a tool call, and `tokensOnDay`: written or read, never tested by the store.
- AgentLoops.AgentLoop.SettleCalls: hands the model this worker's own result, as the program does, also when a late finish recorded another one first, which then is the outcome that stands.
- AgentLoops.AgentLoop.SettleWrite: error values are single texts here, and a result is cut at a number of whole characters; the program counts code units and then drops half a pair.
- The model client is taken to return assistant messages of which only the last asks for tools; the grammar rests on it.
- A database error ends a drive where it happens, as a worker that stops; only the one that the program catches, of a record of success, is modelled.
- Heartbeat timers and the abort signal: a worker may renew, stop or be told to stop at any step; the first reason stands.
- RunStreams.RunStream.CatchUp: does not model HTTP headers, pings or a resume number sent as an empty header; a reader that hangs up stops everything but a pending end without messages, as in the program.
- `queueOrFail` appears as the API's right to fail a run at any time.
- KnowledgeStores.KnowledgeStore.StoreBatch: documents are keyed by external id within one connector; principals, participants, ACLs, URLs, redaction counts and stamps other than the index's are left out, and so is the `selected` flag's setter that asks for no purge, which only tests call.
- `beginConnectorLife`, `markVisited`, the visibility acknowledgement and the order in which containers are visited.
- IndexPipeline.Indexer.EmbedDocuments: the title passed along as a hint is not part of what a vector depends on; backoff lengths are left out.
- IndexLoops.IndexLoop.Turn: the heartbeat, statistics and log lines are left out, and the loop is one turn at a time, since it ends only by `stop`.
- Chunking: dates are read and formatted by two functions given from outside.
- Claims: one node; the ranking of claims, effective properties, audit events, edges, counters, identity matching, the absence sweep and the verification service are left out. A connector is taken to bring no claim of a `manual:` source.
- Migrations: the text of a file is reduced to whether it asks to run outside a transaction; that an invalid index keeps it from being recorded is one of the reasons it may not get done. The four-digit versions are numbers.
- StringSimilarity: real numbers instead of floating point; trimming and lower-casing are a function given from outside; the trigram and set measures are left out.
- Redaction: `stripNul` and the segment loop; ranges lie inside the text.
