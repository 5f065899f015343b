# Verified models of the agent runtime's protocols

A Dafny 4.11 project that models the concurrent protocols and two transformations of the agent
monorepo and proves what they keep over every run. `dafny verify dfyconfig.toml` checks everything.

Asynchronous code is modelled as a step function: one step is the code between two awaits, and a run
is any sequence of actions. The scheduler, tools, hooks, the model stream, transports, the server and
the caller choose the actions; an action that does not apply changes nothing. Code that updates
objects in place is also modelled as a class whose methods follow the code's branches and are proved
against the step functions. Modules whose name ends in `Conduct`, `Progress` or `Meaning` say from
the outside what the step functions answer: from the actions, scripts, events or documents alone.

| Part | Modules |
|---|---|
| Agent loop and wrapper | `Transcript`, `EventGrammar`, `ToolBatch`, `BatchConduct`, `AgentSession`, `AgentTranscripts`, `AgentInvariant`, `AgentTurns`, `MailLedger`, `AgentMail`, `AgentTheorems`, `AgentConduct`, `AgentProgress`, `AgentRaces`, `AgentObjects` |
| Browser executor | `Outbox`, `OutboundQueues`, `Handshake`, `HandshakeConduct`, `CommandReplies`, `CommandGate` |
| Model catalog | `ModelCatalog` |
| Client | `Requests`, `Leases`, `LeaseConduct`, `ClientState`, `ClientConduct` |
| Schema renderer | `JsonValues`, `JsonPointer`, `TypeRender`, `RenderBudget`, `SchemaContexts`, `SchemaTypes`, `SchemaText`, `SchemaMeaning` |
| Proxy stream | `Strings`, `ProxyStream`, `ProxyConduct` |

## Assumptions

- Hooks documented as non-throwing do not throw; listeners neither change transcripts nor call
  `connect` or `reconnect` from inside a callback.
- Tool-call ids within one assistant message are distinct; an assistant stream sends one `start`.
- Prompts, steering, follow-ups and hook extras are user or custom messages; assistant and
  tool-result messages come from the stream and the tools.
- UUIDs are fresh: a generation, token, request or connection is named by its creation number.
- Validation, tool bodies and before/after hooks are a script per call that fixes whether it is
  answered, fails, is blocked or executes, and with which text, error flag and terminate flag.
- A model store's operation takes effect at most once, between its call and its return.
- The session calls a prompt's `preflightResult` only while that prompt is running.
- `JSON.stringify` of a JSON value and the layout of a non-empty object type never spell `unknown`.

## Results that qualify a promise

- `Agent.continue` drains the steering queue before its hook runs, and a prompt can start a run during
  that hook. If that run is still busy when the hook returns, the drained messages vanish
  (`AgentRaces.PreludeRaceLosesSteering`). If it is over by then but drained steering of its own, nothing
  vanishes and later messages are delivered before earlier ones (`AgentRaces.PreludeRaceInverts`). Within
  one process steering is conserved as long as neither happens, and, the messages being distinct, only
  then (`AgentTheorems.QueuesConserved`, `AgentTheorems.OrderlyHistory`); at the hook's return it is
  conserved exactly if the agent is idle (`AgentTheorems.HookReturnConserves`). Follow-ups are conserved
  always.
- A superseded model refresh never updates memory and never starts a store operation again, but one
  already in flight can still take effect, so a deleted provider's list can reappear in the store
  (`ModelCatalog.StaleStoreReachable`). `ModelCatalog.StoreFreshIff` gives the exact condition.
- A lease acquire or release that straddles an invalidation breaks the count
  (`Leases.StraddlingAcquireMiscounts`, `Leases.StraddlingReleaseMiscounts`). After a removal or a
  disconnection the count stays right in every further use if and only if no acquire or release was under
  way (`Leases.RemovalExact`, `Leases.DisconnectionExact`). A disconnection deactivates every handle if
  and only if the count is positive or no handle is of the present generation
  (`Leases.DisconnectionDeactivatesIff`), so a handle that the count misses survives one
  (`Leases.MiscountedSurvivesDisconnection`).
- A reset of the client's cache does not outlast an attach in flight: its failure puts the old snapshot
  back, and a new connection's lower revision is then ignored (`ClientState.OldSnapshotShadowsNew`).
  Nothing survives the reset if and only if no attach in flight holds a snapshot of the session
  (`ClientState.ResetExact`).
- The executor marks its initial snapshot as sent before it offers it to the outbound queue, so a
  generation can become active although the queue refused the snapshot, until the refusal closes it.
  `Handshake.ActiveWithoutSnapshotIff` and `Handshake.RefusedIff` say exactly when, and
  `Handshake.OversizedSnapshotActivates` is such a run from the start.
- The pointer resolver departs from section 4 of RFC 6901 in two ways. It drops empty reference tokens
  (`JsonPointer.EmptyKeySkipped`), and it does not step into arrays, so that a reference such as
  `#/anyOf/0` finds nothing (`JsonPointer.ArrayTokenRefused`). It agrees with the standard in every
  document if and only if no key of the path is empty or an array index (`JsonPointer.PointerExact`);
  `JsonPointer.PointerResolves` says what it computes for every path.
- The type rendered for a schema is inhabited by every value that JSON Schema admits, except through three
  kinds of schema. An object or array schema without `type` admits values of every other type
  (`SchemaMeaning.TypelessAdmitsNull`); a tuple schema admits shorter arrays
  (`SchemaMeaning.TupleAdmitsEmpty`); and `items` beside `prefixItems` is rendered without the leading
  elements, which is right if and only if every value such an element can have inhabits the type of
  `items` (`SchemaMeaning.LeadingExact`). Everywhere else it holds (`SchemaMeaning.ValidValuesInhabit`).
- The documentation of `findPendingToolCalls` speaks of the last assistant message; the code also
  requires that message to have stopped for tool use. The model follows the code.

## Model

| member | source | states |
|---|---|---|
| `Transcript.FindPendingToolCalls` | packages/agent/src/agent-loop.ts:133-150 | The backward loop computes the specified pending calls for every transcript |
| `Transcript.PendingIsOpen` | packages/agent/src/agent-loop.ts:128-150 | The backward scan equals an independent forward reading: the last tool-use turn's unanswered calls in source order, or nothing |
| `Transcript.PendingIds` | packages/agent/src/agent-loop.ts:128-150 | After a tool-use turn the ids found are exactly those without a result; nothing outstanding means nothing found |
| `Transcript.AnsweredAtMostOnce` | packages/agent/src/agent-loop.ts:128-150 | In a legal transcript two results for one id are separated by a new assistant message |
| `Transcript.TurnAccount` | packages/agent/src/agent-loop.ts:128-150 | In a legal transcript each call of the open turn is outstanding and has no result, or has exactly one |
| `EventGrammar.OneAgentSpan` | packages/agent/src/agent-loop.ts:111-119 | A complete trace starts with its only agent_start and ends with its only agent_end |
| `EventGrammar.TurnsAlternate` | packages/agent/src/agent-loop.ts:352-482 | Each turn_start is followed by a turn_end with no turn event between |
| `EventGrammar.MessagesNest` | packages/agent/src/agent-loop.ts:525-599 | Every message start, update and end lies on one start-to-end span with nothing but updates between |
| `EventGrammar.ToolEventsNest` | packages/agent/src/agent-loop.ts:968-1009 | Every tool start, update and end lies on one start-to-end span of its call within one turn |
| `EventGrammar.ToolSpanUnique` | packages/agent/src/agent-loop.ts:1076-1084 | After its end a call is not mentioned again in its turn, so each start has exactly one end |
| `ToolBatch.StepInv` | packages/agent/src/agent-loop.ts:703-824 | Every step of a sequential, parallel or resumed batch keeps slots, reports and the plan consistent, and keeps outcomes undisturbed without an abort |
| `ToolBatch.StepSeen` | packages/agent/src/agent-loop.ts:759-824 | Under any interleaving of tools every emitted event is accepted by the event grammar |
| `ToolBatch.ParallelMatchesSequential` | packages/agent/src/agent-loop.ts:703-824 | With outcomes fixed and no abort, any parallel schedule gives the same result messages, message events and terminate flag as sequential execution, in source order |
| `ToolBatch.AnswersPrefix` | packages/agent/src/agent-loop.ts:640-676 | Whatever the signal does, a finished batch answered a prefix of its calls, in order, each once; all of them when undisturbed |
| `ToolBatch.CanFinish` | packages/agent/src/agent-loop.ts:703-824 | From every state of a batch some undisturbed schedule finishes it |
| `ToolBatch.ExecuteSequential` | packages/agent/src/agent-loop.ts:703-757 | The sequential loop reports each call's outcome until the signal fires, with the terminate flag of the whole batch |
| `ToolBatch.TerminatesIff` | packages/agent/src/agent-loop.ts:852-855 | A finished, undisturbed batch ends the run exactly if nothing was answered in advance and, by the scripts, some call insists or all of at least one agree |
| `BatchConduct.RunSays` | packages/agent/src/agent-loop.ts:898-966 | In any run each result is its call's own answer, failure, refusal or tool result by its script; or, only if the call was blocked or still to execute, says that it was aborted; without an abort every call has its own |
| `BatchConduct.StartsOnlyReady` | packages/agent/src/agent-loop.ts:898-966 | A call begins to execute only when it was announced, nothing stands against it and the signal is not aborted |
| `BatchConduct.ExecutionKeepsResult` | packages/agent/src/agent-loop.ts:968-1067 | A call that began to execute is reported with its tool's own result, aborted or not, and its end carries that error flag |
| `BatchConduct.AbortStopsCalls` | packages/agent/src/agent-loop.ts:748-750 | Once the signal is aborted no further call executes, and beyond those answered in advance at most one more is announced |
| `BatchConduct.EndsTruthful` | packages/agent/src/agent-loop.ts:1076-1084 | Over every run a call's end is in the trace exactly if the call is settled, with its result's error flag |
| `BatchConduct.UpdatesWhileExecuting` | packages/agent/src/agent-loop.ts:968-1009 | Progress of a tool is passed on exactly until the tool returns |
| `BatchConduct.OneAtATime` | packages/agent/src/agent-loop.ts:703-757 | In sequential execution at most one call is under way |
| `BatchConduct.ParallelRunsTogether` | packages/agent/src/agent-loop.ts:759-824 | In parallel execution some schedule has all calls of a batch executing at once |
| `AgentInvariant.StepKeeps` | packages/agent/src/agent-loop.ts:313-483 | Every action of loop and wrapper keeps copy agreement, grammar, legality, resume and control-flow invariants |
| `AgentTurns.StepTurns` | packages/agent/src/agent-loop.ts:392-436 | Every action keeps: the open turn is the message being settled, the trace accounts for the transcript, and closing events are truthful |
| `AgentMail.StepMoves` | packages/agent/src/agent.ts:406-441 | Every action keeps the ledger of queued, held and delivered messages, disorder included |
| `MailLedger.LedgerExact` | packages/agent/src/agent.ts:406-441 | With distinct messages the ledger's flag says exactly whether nothing is lost and nothing out of order |
| `AgentTranscripts.ResumePlanRearranges` | packages/agent/src/agent-loop.ts:648-675 | A resumed batch settles a permutation of the pending calls; exactly the replay-safe ones execute |
| `AgentTheorems.CopiesAgree` | packages/agent/src/agent-loop.ts:392-436 | At every turn_end and at agent_end the wrapper's transcript, the starting transcript plus new messages, and the unreplaced loop context are one sequence; no call is pending |
| `AgentTheorems.TraceInGrammar` | packages/agent/src/agent-loop.ts:352-482 | Every run's trace is a prefix of the grammar, complete once the run is over; the wrapper's pending calls are the executions open in the trace |
| `AgentTheorems.ClosingEventsTruthful` | packages/agent/src/agent-loop.ts:404-482 | Anywhere in a run's trace a turn_end carries exactly the tool results ended since its turn's start, in order, each answering a call of its message; an agent_end carries exactly the messages ended since the run's start |
| `AgentTheorems.NeverAnsweredTwice` | packages/agent/src/agent-loop.ts:157-177 | Over all runs with any number of crashes and resumes no call is answered twice |
| `AgentTheorems.BatchSettles` | packages/agent/src/agent-loop.ts:640-676 | At any moment of a batch, aborted or not, its unreported calls have no result and every other call of its message exactly one; after an unaborted batch every call has exactly one and none is found pending |
| `AgentTheorems.CrashLeavesPending` | packages/agent/src/agent-loop.ts:133-150 | A crash in the batch of a tool-use message leaves exactly its unreported calls to be found, and those are exactly its calls without a result |
| `AgentTheorems.ResumeSettlesExactlyOnce` | packages/agent/src/agent-loop.ts:157-177 | From any idle session with pending calls, under any schedule, resuming to the end of the unaborted batch extends the transcript by results only, every call of the interrupted message has exactly one result, and nothing is pending |
| `AgentTheorems.ResumedBatchPlan` | packages/agent/src/agent-loop.ts:640-676 | The batch a resumed run begins settles exactly the outstanding calls, non-replayable ones without execution |
| `AgentTheorems.ResumeReplaysOnlySafe` | packages/agent/src/agent-loop.ts:640-676 | For as long as that batch lasts only replay-safe tools execute; every other call is reported with the interruption error and its text |
| `AgentTheorems.QueuesConserved` | packages/agent/src/agent.ts:406-441 | Over all runs of a process: follow-ups are conserved in order; steering is if nothing overtook or dropped a prelude of `continue`, and with distinct messages only if; at the end of a run nothing is held |
| `AgentTheorems.OrderlyHistory` | packages/agent/src/agent-loop.ts:344-345 | Conservation is broken by exactly two kinds of step, while a prelude is held and a run is active: a poll that finds steering, and the return of the hook |
| `AgentTheorems.HookReturnConserves` | packages/agent/src/agent.ts:419-429 | At the return of the hook of `continue` conservation survives if and only if the agent is idle |
| `AgentTheorems.OneAtATimeHolds` | packages/agent/src/agent-loop.ts:376-400 | In one-at-a-time mode at most one message per queue is injected between two requests |
| `AgentTheorems.AbortFreezesQueues` | packages/agent/src/agent-loop.ts:341-345 | While an aborted run lasts nothing is removed from a queue |
| `AgentProgress.ResultsAreAnswered` | packages/agent/src/agent-loop.ts:356-431 | After an unaborted batch whose scripts do not vote to end the run, whatever happens, the run makes another request before it ends, and it can |
| `AgentProgress.TerminatingBatchEnds` | packages/agent/src/agent-loop.ts:404-482 | After a batch whose scripts vote to end it, with nothing queued, the run makes no further request and reaches its end |
| `AgentProgress.BatchDecidesRun` | packages/agent/src/agent-loop.ts:419-431 | Over every run, after an unaborted batch the run has more to do exactly unless nothing was answered in advance and some outcome forces the end or all agree to it |
| `AgentProgress.PlainAnswerEnds` | packages/agent/src/agent-loop.ts:411-420 | An answer without calls ends the run when nothing is queued; a failed or aborted answer ends it whatever is queued |
| `AgentProgress.AsksBeforeEnding` | packages/agent/src/agent-loop.ts:356-406 | A run bound for a request cannot end before making it |
| `AgentProgress.FollowUpsDecide` | packages/agent/src/agent-loop.ts:469-481 | Follow-ups found where the run would stop keep it going; without any, or aborted, it ends |
| `AgentProgress.PromptsAndAborts` | packages/agent/src/agent.ts:392-403 | A prompt starts a run exactly if none is active; an abort takes hold of a run in progress and of nothing else |
| `AgentConduct.TruncatedNeverExecutes` | packages/agent/src/agent-loop.ts:609-634 | Over every run no call of a truncated answer executes, and each one reported says that it was cut off |
| `AgentConduct.StreamedCallsExecute` | packages/agent/src/agent-loop.ts:424-429 | The batch of a streamed answer takes its calls in order; none is answered in advance unless the answer was truncated |
| `AgentConduct.ShowsWhatStreams` | packages/agent/src/agent.ts:632-672 | Over every run the wrapper shows exactly the message begun or updated last and not ended; with suppression no answer ends with anything but calls |
| `AgentConduct.SteeringIsTaken` | packages/agent/src/agent-loop.ts:344-348 | An unaborted run takes waiting steering at the end of a turn, and before the next if it found none; only a run begun by `continue` skips its first look |
| `AgentConduct.HookDelivers` | packages/agent/src/agent-loop.ts:382-400 | Everything taken from a queue is in context and new messages when the model is asked, in order, followed by what the hook added to steering |
| `AgentConduct.PreparedContext` | packages/agent/src/agent-loop.ts:357-373 | A context returned by a preparation hook is used; otherwise the context stays |
| `AgentConduct.ProseIsQuiet` | packages/agent/src/agent-loop.ts:543-560 | A suppressed prose delta updates the answer under way and is not announced |
| `AgentConduct.ContinueIff` | packages/agent/src/agent.ts:406-441 | `continue` goes on exactly if the last message awaits an answer or something is queued; steering goes first and leaves follow-ups alone |
| `AgentRaces.PreludeRaceLosesSteering` | packages/agent/src/agent.ts:406-441 | A concrete run in which a prompt during the steering hook of `continue` loses a steering message |
| `AgentRaces.PreludeRaceInverts` | packages/agent/src/agent.ts:406-441 | A reachable session that was passed `a`, then `b`, lost nothing, and delivered `b` before `a` |
| `AgentObjects.PendingMessageQueue.Drain` | packages/agent/src/agent.ts:170-183 | Takes everything or the first message; taken and remaining messages are the old queue in order |
| `AgentObjects.Agent.BeginRun` | packages/agent/src/agent.ts:574-589 | Refused exactly while a run is active; otherwise the run starts with the transcript kept |
| `AgentObjects.Agent.ProcessEvent` | packages/agent/src/agent.ts:632-672 | The reducer is the one the session machine uses, whose three fields the run theorems read off the trace |
| `AgentObjects.Agent.FinishRun` | packages/agent/src/agent.ts:617-623 | The agent is idle afterwards and its transcript is kept |
| `AgentObjects.SteeringSource.TakeSteering` | packages/agent/src/agent.ts:562-568 | Nothing once aborted; the first poll after `continue` is skipped; otherwise a drain |
| `Outbox.RunInv` | packages/browser-engine/src/executor.ts:504-571 | Over every run: byte budgets of the whole queue and of ordinary frames, sent frames plus waiting frames are the accepted ones, an open queue never stalls |
| `Outbox.SentInOrder` | packages/browser-engine/src/executor.ts:504-535 | Frames go out one at a time in acceptance order, none twice |
| `Outbox.PromisesSettle` | packages/browser-engine/src/executor.ts:276-306 | Every accepted frame's promise is settled once its send returned or the generation closed, resolved exactly if the send completed while open |
| `Outbox.ResolvedIffSent` | packages/browser-engine/src/executor.ts:504-535 | Over every run, from the actions alone: a promise is resolved if and only if a send returned successfully while its frame was in flight in the open queue |
| `Outbox.FailedSendCloses` | packages/browser-engine/src/executor.ts:514-521 | A failed send in an open queue closes the generation and its frame's promise is rejected |
| `Outbox.ControlAlwaysFits` | packages/browser-engine/src/executor.ts:558-564 | A legal control frame that fits in what outstanding control frames leave of the reserve is never refused |
| `OutboundQueues.OutboundQueue.Enqueue` | packages/browser-engine/src/executor.ts:536-571 | The list with holes, head index and byte counter implement the specified admission; while open the counter is the bytes from the head plus the in-flight frame |
| `OutboundQueues.OutboundQueue.SendReturned` | packages/browser-engine/src/executor.ts:504-535 | A returning send resolves its promise and goes on, or fails the generation, as specified; it changes nothing after closing |
| `OutboundQueues.OutboundQueue.FailGeneration` | packages/browser-engine/src/executor.ts:276-306 | Closing rejects exactly the unsettled promises |
| `Handshake.StepInv` | packages/browser-engine/src/executor.ts:1089-1320 | Every action keeps the generation invariant |
| `Handshake.OneOpenGeneration` | packages/browser-engine/src/executor.ts:1220-1320 | Over every run at most one generation is open and it is the current one |
| `Handshake.ClosedAbsorbs` | packages/browser-engine/src/executor.ts:276-306 | A closed generation's record never changes again |
| `Handshake.ActiveAfterHandshake` | packages/browser-engine/src/executor.ts:1089-1162 | An active generation heard one ready message, then its acknowledgement, then commands, all with this session, generation and binding, and its snapshot had been built |
| `Handshake.ActiveWithoutSnapshotIff` | packages/browser-engine/src/executor.ts:662-683 | A live bootstrap generation can become active without its snapshot in the outbound queue if and only if the snapshot was built and the queue refused it |
| `Handshake.RefusedIff` | packages/browser-engine/src/executor.ts:557-565 | The queue of any run refuses the snapshot exactly if it exceeds a frame or does not fit beside the outstanding bytes in the ordinary share |
| `Handshake.OversizedSnapshotActivates` | packages/browser-engine/src/executor.ts:662-683 | From the start: a snapshot larger than a frame is refused and the next acknowledgement activates its generation |
| `Handshake.CommandsOnlyWhileActive` | packages/browser-engine/src/executor.ts:1163-1182 | Host commands are acted on only by the current generation while active |
| `Handshake.OldInputIsInert` | packages/browser-engine/src/executor.ts:1089-1090 | Callbacks of a generation that is not current change nothing |
| `Handshake.TerminalFreezes` | packages/browser-engine/src/executor.ts:1304-1320 | Once terminal or disposed every generation is closed and none is ever created |
| `HandshakeConduct.MessageDecides` | packages/browser-engine/src/executor.ts:1089-1182 | Over every run a message keeps its generation open exactly if it continues the conversation ready, acknowledgement, commands with this identity and what it needs is in place; it is then recorded, and any other closes the generation |
| `HandshakeConduct.ClosingDecides` | packages/browser-engine/src/executor.ts:1121-1139 | A message that closes a generation ends the executor unless it is a rejection of it at the right stage and not for its version |
| `HandshakeConduct.ConnectIff` | packages/browser-engine/src/executor.ts:1304-1320 | A new generation begins exactly if the executor is not at its end, its session is unchanged and no generation is open |
| `HandshakeConduct.FailureDecides` | packages/browser-engine/src/executor.ts:276-306 | A failure closes the open generation; the executor is at its end exactly if it was fatal |
| `HandshakeConduct.EndsTheExecutor` | packages/browser-engine/src/executor.ts:307-313 | A lost session ends the executor when it is looked at, disposal always |
| `HandshakeConduct.ReconnectsAfterRejection` | packages/browser-engine/src/executor.ts:1121-1139 | After such a rejection the next attempt gets a generation of its own |
| `HandshakeConduct.HandshakeCompletes` | packages/browser-engine/src/executor.ts:1089-1182 | From the start, for every session and binding, the handshake completes and a command is heard |
| `Handshake.Executor.HandleMessage` | packages/browser-engine/src/executor.ts:1089-1196 | The message handlers' branches implement the specified step |
| `Handshake.Executor.TryConnect` | packages/browser-engine/src/executor.ts:1304-1320 | Connecting implements the specified step |
| `Handshake.Executor.VerifyLogicalSession` | packages/browser-engine/src/executor.ts:307-313 | A changed session identity closes the current generation and is terminal |
| `Handshake.Executor.Dispose` | packages/browser-engine/src/executor.ts:1351-1381 | Disposal closes the current generation and is terminal |
| `CommandReplies.AtMostOneReply` | packages/browser-engine/src/executor.ts:1050-1087 | Over every run no command has two queued replies |
| `CommandReplies.EndingAnswersOnce` | packages/browser-engine/src/executor.ts:1050-1087 | When a command ends in an open generation, one reply of the kind that its ending and the byte budget call for is queued, or it waits to report a failure, or the generation closes |
| `CommandReplies.RecoveryAnswersOnce` | packages/browser-engine/src/executor.ts:1035-1049 | After a refused rejection: one failure reply, or the command is doomed, or the generation closes |
| `CommandReplies.DoomedCloses` | packages/browser-engine/src/executor.ts:1083-1086 | Over every run, a command whose failure could not be queued is done only once its generation is closed |
| `CommandReplies.ExactlyOneReply` | packages/browser-engine/src/executor.ts:1050-1087 | Over every run, in an open generation a command whose reply is being written or that is done has exactly one logged reply, and any other none |
| `CommandReplies.FinishedMeansDelivered` | packages/browser-engine/src/executor.ts:1050-1087 | A command that is over while its generation is open has a reply whose send completed |
| `CommandReplies.AbortAlwaysAnswered` | packages/browser-engine/src/executor.ts:575-602 | An abort's result that fits in the free reserve is always queued |
| `CommandReplies.PendingTable` | packages/browser-engine/src/executor.ts:1050-1087 | While open, pending ids are exactly the unfinished commands', all distinct; once closed there are none |
| `CommandReplies.CommandsTakenOn` | packages/browser-engine/src/executor.ts:1050-1056 | Over every run the commands on record are exactly those that arrived while open under an id not in use, in order |
| `CommandReplies.ArrivalDecides` | packages/browser-engine/src/executor.ts:1050-1056 | A new command starts running; one that reuses the id of an unfinished command closes the generation |
| `CommandReplies.SettledFreesId` | packages/browser-engine/src/executor.ts:1080-1082 | Once its reply's write has settled a command gives its id back |
| `CommandGate.AlwaysOneOwner` | packages/browser-engine/src/executor.ts:906-1020 | Under every interleaving at most one prompt or model change owns the session and at most the limit of ordinary commands run |
| `CommandGate.SuspendedIff` | packages/browser-engine/src/executor.ts:906-996 | Over every run a command is suspended exactly if it was let in (a prompt or model change into an idle session where others only steer, steering into a free slot) and has not ended since |
| `CommandGate.CommandGate.BeginPrompt` | packages/browser-engine/src/executor.ts:912-930 | Admitted exactly when usable, below the limit, idle and unowned; each flag is set exactly while its owner runs |
| `CommandGate.CommandGate.Preflight` | packages/browser-engine/src/executor.ts:930-937 | Acceptance moves the prompt from preflight to active, and marks extension commands busy |
| `CommandGate.CommandGate.EndPrompt` | packages/browser-engine/src/executor.ts:938-946 | All flags of the prompt are cleared; an unaccepted prompt is invalid |
| `CommandGate.CommandGate.BeginSteer` | packages/browser-engine/src/executor.ts:947-955 | Steering is limited by count only |
| `CommandGate.CommandGate.BeginSetModel` | packages/browser-engine/src/executor.ts:971-996 | Takes the configuration slot exactly when the session is idle and unowned and the model known |
| `CommandGate.CommandGate.RunSetThinking` | packages/browser-engine/src/executor.ts:997-1022 | Same guard, leaving every flag and the count as before |
| `CommandGate.CommandGate.BeginAbort` | packages/browser-engine/src/executor.ts:956-970 | At most one abort at a time, never during preflight or an extension command |
| `ModelCatalog.StepInv` | packages/ai/src/models.ts:320-365 | Every action keeps the publication chain, store and refresh invariants |
| `ModelCatalog.StoreNeverOverlaps` | packages/ai/src/models.ts:338-365 | A provider's store mutations never overlap |
| `ModelCatalog.GenerationsNeverDecrease` | packages/ai/src/models.ts:338-365 | Store mutations start and land, and updates run, with non-decreasing generations |
| `ModelCatalog.StepTouches` | packages/ai/src/models.ts:346-358 | An update runs only for the current unaborted generation and on the installed provider; a store mutation starts only for the current generation |
| `ModelCatalog.UpdatesAreSettled` | packages/ai/src/models.ts:338-365 | Over every run the updates are exactly the generation, provider and list of the publications settled as updated, each once, in chain order |
| `ModelCatalog.TurnDecides` | packages/ai/src/models.ts:343-358 | A publication whose turn comes is dropped if its refresh is superseded or aborted; otherwise it starts its store operation or, with nothing to store, settles as updated |
| `ModelCatalog.ReturnDecides` | packages/ai/src/models.ts:346-358 | A store operation that returns settles its publication as updated exactly if it succeeded and its refresh is still the newest and not aborted |
| `ModelCatalog.SupersessionAborts` | packages/ai/src/models.ts:320-329 | Replacing, deleting and refreshing move the generation on and abort the refresh under way |
| `ModelCatalog.RefreshPublishes` | packages/ai/src/models.ts:331-365 | A refresh works under a new generation on the provider installed when it begins; what it publishes joins the end of the chain |
| `ModelCatalog.SupersededStaysSilent` | packages/ai/src/models.ts:320-329 | After supersession no older refresh updates memory or starts a store mutation |
| `ModelCatalog.StoreFreshIff` | packages/ai/src/models.ts:346-358 | No older publication ever changes the store afterwards if and only if none had a store operation in flight that was yet to land |
| `ModelCatalog.StaleStoreReachable` | packages/ai/src/models.ts:346-358 | A concrete run in which a deleted provider's list reappears in the store |
| `ModelCatalog.Catalog.SupersedeProviderRefresh` | packages/ai/src/models.ts:320-329 | The maps move one provider's generation on and abort its refresh, leaving all others |
| `ModelCatalog.Catalog.SetProvider` | packages/ai/src/models.ts:269-272 | Installing implements the specified step for that provider and no other |
| `ModelCatalog.Catalog.DeleteProvider` | packages/ai/src/models.ts:274-277 | Deleting implements the specified step for that provider and no other |
| `ModelCatalog.Catalog.ClearProviders` | packages/ai/src/models.ts:279-284 | The loop, in any order, is the specified clearing of every provider at once |
| `ModelCatalog.Catalog.BeginProviderRefresh` | packages/ai/src/models.ts:331-336 | A refresh starts a generation of its own on the installed provider |
| `ModelCatalog.CurrentModels` | packages/ai/src/models.ts:766-774 | Every id looks up to its last dynamic entry or else to the baseline; baseline positions are kept; appended ids are new and distinct |
| `Requests.SettledExactlyOnce` | packages/client/src/client.ts:222-240 | Over every run each request is pending or was settled exactly once, a resolved one with its own command; nothing is pending unless connected |
| `Requests.ResolvedOnlyByResponse` | packages/client/src/client.ts:327-352 | Over every run, from the actions: a request is resolved only if data of its own connection carried a successful response to it with its own command |
| `Requests.ResponseEnds` | packages/client/src/client.ts:327-352 | A pending request answered on its own connection ends resolved, or with the server's error and the connection still up, or as a mismatch that takes the connection down |
| `Requests.StrayMessages` | packages/client/src/client.ts:327-337 | A response to no pending request, or a second hello, takes the connection down; an event does not |
| `Requests.DownLoses` | packages/client/src/client.ts:363-373 | A connection that goes down loses every pending request |
| `Requests.RequestPends` | packages/client/src/client.ts:222-240 | A request is numbered, bound to its connection, and pending exactly if it could be encoded and sent; each failure has its own outcome |
| `Requests.ConnectingWorks` | packages/client/src/connection.ts:66-90 | Connecting takes an open transport and then the server's hello, nothing else |
| `Requests.OutcomeIsFinal` | packages/client/src/client.ts:363-373 | Outcomes never change and ids are never reused across reconnects |
| `Requests.AnsweredByOwnConnection` | packages/client/src/connection.ts:142-160 | Data settles only requests issued on the connection it arrived on |
| `Requests.HandshakeSettlesOnce` | packages/client/src/connection.ts:66-90 | Every connect promise is settled exactly once, when its connection stops connecting |
| `Requests.RequestClient.Request` | packages/client/src/client.ts:222-240 | Issuing implements the specified step, encoding and send failures included |
| `Requests.RequestClient.HandleResponse` | packages/client/src/client.ts:327-352 | Unknown, failed, mismatched and matching responses implement the specified step |
| `Requests.RequestClient.HandleData` | packages/client/src/connection.ts:142-160 | The message loop stops when the connection goes down and implements the specified step |
| `Requests.RequestClient.FailConnection` | packages/client/src/connection.ts:225-231 | Going down rejects every pending request |
| `Requests.RequestClient.RejectPendingRequests` | packages/client/src/client.ts:369-373 | The table is emptied and each of its promises rejected |
| `Requests.RequestClient.Connect` | packages/client/src/connection.ts:66-77 | A new connection number each time, only from disconnected |
| `Leases.LedgerBalances` | packages/client/src/client.ts:414-445 | On every run whose invalidations find no acquire or release under way, the count is the number of live tokens and an exclusive token is alone |
| `LeaseConduct.ReserveIff` | packages/client/src/client.ts:414-426 | On such runs a lease is reserved exactly if no live one stands against it: shared leases go together, an exclusive one stands alone; it waits for the release under way |
| `LeaseConduct.CreateIff` | packages/client/src/client.ts:414-426 | A created session is held exclusively at once, exactly if nobody holds it |
| `LeaseConduct.GrantIff` | packages/client/src/client.ts:184-210 | An acquire is granted exactly when the detach request it found in flight has settled |
| `LeaseConduct.ReleaseDecides` | packages/client/src/client.ts:264-286 | The last holder's release asks the server to detach, any other is over at once |
| `LeaseConduct.DetachDecides` | packages/client/src/client.ts:268-300 | A successful detach ends the lease; a failed one restores the handle, or ends it if its holder gives up |
| `LeaseConduct.SharedLeasesCoexist` | packages/client/src/client.ts:414-426 | A concrete run with two shared leases active side by side |
| `Leases.RemovalExact` | packages/client/src/client.ts:435-440 | After a removal every further use keeps the count right if and only if no acquire or release was under way |
| `Leases.DisconnectionExact` | packages/client/src/client.ts:442-445 | The same of a disconnection |
| `Leases.RemovalDeactivates` | packages/client/src/client.ts:435-440 | A removal deactivates every handle, whatever is under way |
| `Leases.DisconnectionDeactivatesIff` | packages/client/src/client.ts:442-445 | In any run a disconnection deactivates every handle if and only if the count is positive or no handle is of the present generation |
| `Leases.DisconnectionDeactivates` | packages/client/src/client.ts:442-445 | On runs that keep the count right a disconnection deactivates every handle |
| `Leases.InvalidatedForever` | packages/client/src/client.ts:242-301 | An outdated handle is never active again, in any run whatever |
| `Leases.StraddlingAcquireMiscounts` | packages/client/src/client.ts:184-210 | A concrete run in which an acquire across a removal ends with two live leases, one exclusive, and a count of one |
| `Leases.StraddlingReleaseMiscounts` | packages/client/src/client.ts:264-301 | A concrete run in which a release across a removal gives back the lease of an acquire that waited for its detach |
| `Leases.MiscountedSurvivesDisconnection` | packages/client/src/client.ts:442-445 | That handle is active again after a disconnection and a new attachment |
| `Leases.LeaseTable.ReserveSessionLease` | packages/client/src/client.ts:414-426 | Reserving implements the ledger step for that session and no other |
| `Leases.LeaseTable.ReleaseSessionLease` | packages/client/src/client.ts:428-433 | Releasing implements the ledger step for that session and no other |
| `Leases.LeaseTable.InvalidateSessionLeases` | packages/client/src/client.ts:435-440 | Invalidation implements the ledger step for that session and no other |
| `Leases.LeaseTable.InvalidateAllSessionLeases` | packages/client/src/client.ts:442-445 | The loop invalidates exactly the sessions that have a lease |
| `ClientState.OneAttachInFlight` | packages/client/src/client.ts:193-203 | Over every run at most one attach per session is in flight, because acquires share it |
| `ClientState.AttachedAgrees` | packages/client/src/state.ts:77-113 | Over every run a session marked attached never has a stored snapshot saying otherwise |
| `ClientState.RevisionNeverDecreases` | packages/client/src/state.ts:106-113 | A stored revision never decreases until an explicit forget, removal or reset |
| `ClientState.ServerRevisionNeverDecreases` | packages/client/src/state.ts:100-104 | The server snapshot's revision never decreases until a reset |
| `ClientConduct.ServerIsNewest` | packages/client/src/state.ts:100-104 | Over every run the server snapshot is the newest to arrive since the last reset |
| `ClientConduct.ArrivalIff` | packages/client/src/state.ts:106-113 | A session snapshot is taken in, with its mark, exactly if the stored one is not newer; nothing else changes |
| `ClientConduct.DetachTakesMark` | packages/client/src/state.ts:79-84 | A detach takes the mark away, the stored snapshot says so and is otherwise untouched |
| `ClientConduct.RemovalForgets` | packages/client/src/state.ts:91-94 | A removed session leaves neither mark nor snapshot |
| `ClientConduct.ConnectionLost` | packages/client/src/state.ts:23-31 | Losing the connection takes every mark and no snapshot; a reset takes everything |
| `ClientConduct.AcquireIff` | packages/client/src/client.ts:193-203 | An acquire makes a request exactly if there is none to share, and sets the stored snapshot aside |
| `ClientConduct.EndDecides` | packages/client/src/client.ts:212-220 | A successful attach leaves the cache alone; a failed one puts back what it set aside unless something arrived meanwhile |
| `ClientConduct.EndedIsNotReused` | packages/client/src/client.ts:199-203 | An attach that has ended is not shared once a waiter went on |
| `ClientState.NewestWins` | packages/client/src/state.ts:106-113 | After any deliveries the cache holds the newest snapshot of each session, and its attachment mark |
| `ClientState.DeliveryOrderIrrelevant` | packages/client/src/state.ts:106-113 | The same snapshots in another order leave the same stored snapshot |
| `ClientState.FailedAttachUndone` | packages/client/src/client.ts:212-220 | A failed attach with nothing in between leaves the cache as it was |
| `ClientState.ResetExact` | packages/client/src/state.ts:23-27 | Nothing stored before a reset survives it until the server sends the session again, if and only if no attach in flight holds a snapshot of it |
| `ClientState.OldSnapshotShadowsNew` | packages/client/src/state.ts:55-57 | A concrete run in which a snapshot comes back after a reset and hides the new connection's |
| `ClientState.OverlappingBracketsDisagree` | packages/client/src/state.ts:49-57 | Why attaches are shared: two of one session in flight could leave the cache in disagreement |
| `ClientState.ClientState.ApplySessionSnapshot` | packages/client/src/state.ts:106-113 | The method implements the specified update, forced or not |
| `ClientState.ClientState.ApplyDetach` | packages/client/src/state.ts:79-84 | Detaching implements the specified update |
| `ClientState.ClientState.ForgetSessionSnapshot` | packages/client/src/state.ts:49-53 | Forgetting returns what it removes and keeps the attachment mark |
| `ClientState.ClientState.RestoreSessionSnapshot` | packages/client/src/state.ts:55-57 | Restoring never overwrites a stored snapshot |
| `JsonPointer.ResolveRef` | packages/codemode/src/declarations.ts:240-249 | The segment loop computes the specified resolution, malformed percent sequences included |
| `JsonPointer.PointerResolves` | packages/codemode/src/declarations.ts:240-249 | For every path whose keys the fragment codec carries, the pointer resolves to the subschema its non-empty keys lead to |
| `JsonPointer.PointerExact` | packages/codemode/src/declarations.ts:240-249 | For carried paths the resolver agrees with section 4 of RFC 6901, array tokens included, in every document if and only if no key is empty or an array index |
| `JsonPointer.ArrayTokenRefused` | packages/codemode/src/declarations.ts:245-246 | A reference into an array finds nothing where the standard finds a schema |
| `JsonPointer.PointerRoundTrip` | packages/codemode/src/declarations.ts:240-249 | For non-empty percent-free keys the pointer resolves to exactly the subschema at the path |
| `JsonPointer.UnescapeInverts` | packages/codemode/src/declarations.ts:244 | Decoding `~1` before `~0` inverts the escaping of every key |
| `JsonPointer.WrongOrderFails` | packages/codemode/src/declarations.ts:244 | The other decoding order does not |
| `JsonPointer.EmptyKeySkipped` | packages/codemode/src/declarations.ts:243 | A concrete path with an empty key that resolves to another value |
| `TypeRender.ToType` | packages/codemode/src/declarations.ts:251-308 | Terminates for every schema; expansions never decrease and never exceed the limit |
| `TypeRender.WithTypeSmaller` | packages/codemode/src/declarations.ts:284 | Replacing a type array by one of its entries makes the schema smaller, so nested type arrays terminate |
| `TypeRender.UniqueMeaning` | packages/codemode/src/declarations.ts:215-219 | A union lists the same alternatives, each once, in order of first appearance |
| `TypeRender.NamesSorted` | packages/codemode/src/declarations.ts:330 | Property names are rendered in order, each as often as it occurs |
| `RenderBudget.ToTypeShift` | packages/codemode/src/declarations.ts:251-308 | A rendering that stays below its limit is the same under any other budget it stays below, from any starting count |
| `RenderBudget.LimitIrrelevant` | packages/codemode/src/declarations.ts:228-231 | Raising the limit never changes a rendering that did not reach it |
| `SchemaContexts.SchemaContext.Render` | packages/codemode/src/declarations.ts:251-308 | With the shared mutable context: the set of references on the path is restored, exceptions included, and text and counter are the specified ones |
| `SchemaContexts.SchemaContext.RenderReference` | packages/codemode/src/declarations.ts:255-267 | Expanding a reference implements the specification and restores the path |
| `SchemaContexts.SchemaContext.RenderAll` | packages/codemode/src/declarations.ts:273-284 | The loop threads the counter through siblings as specified |
| `SchemaContexts.SchemaContext.RenderArray` | packages/codemode/src/declarations.ts:310-321 | Array and tuple rendering implements the specification |
| `SchemaContexts.SchemaContext.RenderObject` | packages/codemode/src/declarations.ts:327-355 | Object rendering implements the specification |
| `SchemaContexts.RenderSchema` | packages/codemode/src/declarations.ts:228-231 | The whole rendering in a fresh context with limit 32; longer than the bound gives `unknown` |
| `SchemaText.RendersItsType` | packages/codemode/src/declarations.ts:251-355 | A schema without references renders as the print of its type, with no expansion, whatever the path and the count |
| `SchemaMeaning.ValidValuesInhabit` | packages/codemode/src/declarations.ts:251-355 | Where objects and arrays say so in `type` and there are no tuples, every value JSON Schema admits inhabits the rendered type: const, enum, anyOf, oneOf, allOf, type, properties, required, additionalProperties, items, prefixItems |
| `SchemaMeaning.InhabitantsAreValid` | packages/codemode/src/declarations.ts:251-355 | Where the keyword the renderer decides on loses nothing, every inhabitant of the rendered type is valid |
| `SchemaMeaning.TextMeansSchema` | packages/codemode/src/declarations.ts:228-231 | The whole rendering without references: the text of a type every valid value inhabits, and only those where nothing is lost; a text that is too long gives way to `unknown` |
| `SchemaMeaning.ReferenceRenders` | packages/codemode/src/declarations.ts:255-267 | A reference on the path, past the limit or without target renders the type of all values and costs nothing; any other to a reference-free target renders the target's type and costs one |
| `SchemaMeaning.TypelessAdmitsNull` | packages/codemode/src/declarations.ts:300-304 | Every object or array schema without `type` admits a value outside its type |
| `SchemaMeaning.TupleAdmitsEmpty` | packages/codemode/src/declarations.ts:314-319 | Every tuple schema admits the empty array, which is outside its type |
| `SchemaMeaning.LeadingExact` | packages/codemode/src/declarations.ts:311-313 | `items` beside `prefixItems` renders a type of all valid arrays if and only if each value a reachable leading element can have inhabits the type of `items` |
| `Strings.SplitAppend` | packages/agent/src/proxy.ts:194-196 | Splitting may stop anywhere and go on with the unfinished last part |
| `ProxyStream.FeedRefinesBatch` | packages/agent/src/proxy.ts:183-213 | The incremental line splitter yields the data lines and the rest of splitting the whole text at once |
| `ProxyStream.ChunkingIrrelevant` | packages/agent/src/proxy.ts:183-213 | Every cut of the same text yields the same data lines in order |
| `ProxyStream.BlocksAreTheirDeltas` | packages/agent/src/proxy.ts:240-343 | After any accepted events a block exists exactly where one was started and equals the concatenation of its deltas since its last start |
| `ProxyStream.EndQuotesTheWhole` | packages/agent/src/proxy.ts:266-278 | The text quoted by an end event is that concatenation |
| `ProxyConduct.WireArrives` | packages/agent/src/proxy.ts:194-206 | Every framed data line arrives, once and in order, and nothing else does |
| `ProxyConduct.AcceptedIff` | packages/agent/src/proxy.ts:240-343 | A sequence of events is accepted exactly if every delta, and every end of a text or of thinking, comes after a start of its kind at its index |
| `ProxyConduct.SilentIff` | packages/agent/src/proxy.ts:326-343 | An event is passed on unless it ends a tool call where none is open |
| `ProxyConduct.TailsFollowEnds` | packages/agent/src/proxy.ts:266-343 | A text or thinking block carries its last end's signature; a tool call what its end or else its start gave it, and the argument text since |
| `ProxyConduct.StopIsLastReason` | packages/agent/src/proxy.ts:345-355 | The stop reason is the one of the last done or error event |
| `ProxyConduct.ConsumeIsProcessAll` | packages/agent/src/proxy.ts:198-212 | The loop makes the message that the parsed events make, and stops at the first that does not belong |
| `ProxyConduct.StreamRoundTrip` | packages/agent/src/proxy.ts:183-213 | End to end: events framed between any other lines and cut anywhere make the message they make unframed |
| `ProxyStream.PartialMessage.ProcessProxyEvent` | packages/agent/src/proxy.ts:240-370 | The in-place reducer implements the specified event step; a raising event changes nothing |
| `ProxyStream.PartialMessage.ReadAll` | packages/agent/src/proxy.ts:183-213 | The read loop ends as if the whole text had been split at once and its events handled until one raised |

## Left out

- LLM providers, authentication, `fetch`, the UTF-8 decoder, wire codecs and argument validation are parameters or absent.
- Runs in which a hook or listener throws: only that `FinishRun` returns the agent to idle.
- Agent state that carries no control flow (error message, model, timestamps, usage), changing a queue's mode during a session, and clearing queues.
- A second `continue` during the hook of the first: the code drains another steering batch, the model ignores the call.
- Queued messages across a crash: the queues live in memory, so each process has a ledger of its own.
- Async bodies as heap objects: the agent loop, handshake generations, publications and lease handles are values in a sequence updated by step functions, so aliasing between JavaScript objects is not captured.
- Executor transcript projection, snapshot building and progress frames: outcomes chosen by the adversary.
- Connect re-entered from a transport factory or a listener; store operations that take effect after they were reported failed.
- Lease cleanup and reconciliation after a failed detach, and joining an attach already in flight: they change what is requested, not the ledger.
- Listener registration and notification of the client.
- Aborting the proxy's read loop, and parsing a tool call's partial argument text.
- JavaScript's inherited properties in the pointer resolver's `in` test; UTF-16 order of property names outside the basic plane; the text layout of object types with descriptions, quoting of property names and `JSON.stringify`, which are function parameters.
- JSON Schema keywords that the renderer ignores (bounds, patterns, formats, `not`, `if`) and references inside validity: the meaning of a rendered type is stated for schemas without references. Numbers are whole, so `integer` and `number` admit the same values, and `integer` is not counted among the schemas whose type loses nothing.
- Thinking-level clamping, environment lookup, CLI, configuration, migrations and generated data: finite tables or plumbing.
