# Verified models of the agent, the model registry and the wire client

The project models the stateful cores of the repository and proves what holds over all their runs.

| module | models |
|---|---|
| `Transcript` | tool declarations in system messages: replay, delta, and their rewriting before a model request |
| `ToolBatch` | sequential, parallel and truncated tool batches, for every completion order |
| `AgentEvents` | the events of a run and the reducer that rebuilds the agent's state from them |
| `AgentLoop`, `AgentLoopProperties`, `AgentLoopQueues`, `AgentLoopTurns` | the loop as a machine whose steps are turns, and what all its runs keep |
| `AgentRun` | `PendingMessageQueue`, `Agent` and the nested loops of a run as objects, proved against that machine |
| `ModelOverlay`, `ModelRefresh`, `ModelRegistry`, `ModelCost` | visible models, refresh generations and publications, the registry object, tiered cost |
| `ConnectionLifecycle`, `ClientRequests`, `ServiceSubscription`, `WriteQueue` | the wire client: attempts, requests, subscriptions, the bounded write queue |
| `ManagedUpdate` | managed self-updates: updaters and cleaners that interleave and crash between any two file system calls |
| `JsonCheck`, `ProxyStream`, `TranscriptPacker` | the strict-JSON validator, the proxy's stream reader, the transcript packer |

Asynchronous code is a machine over its steps: a run is any sequence of actions, so every interleaving is a
run. Promises are cells that keep what first settled them. The model's stream, tools, hooks, codecs, files and
sockets are inputs of the steps and may answer anything. Where the source updates objects, classes do the same
and each method is proved to take exactly the machine's step; the theorems are about the machine.

Results that are not what one might expect:

- Replay gives the executable tools only if tools of the same name are declared alike. Two executable tools
  with the same name and different declarations make a transcript on which declaring fails
  (`Transcript.DeclaringIsExactIffConsistent`, `Transcript.ClashingTranscript`).
- The context grows by exactly the streamed message if and only if the stream starts at most once
  (`AgentLoop.StreamResponseMeaning`).
- A callback that disconnects and reconnects in the middle of a chunk lets later messages of the chunk reach the
  new attempt (`ConnectionLifecycle.MidChunkReconnectLeaks`); `ConnectionLifecycle.MessagesStayHomeIff` says
  exactly which runs do that.
- The second flush of the packing loop, in its branch for oversized transcripts, is unreachable
  (`TranscriptPacker.PackTranscripts`).
- A `toolcall_delta` after its `toolcall_end` appends to the text "undefined"
  (`ProxyStream.LateDeltaSaysUndefined`); `ProxyStream.StreamedCalls` says exactly when the accumulator of a tool
  call is the concatenation of its deltas.
- An update whose staging directory cannot be removed keeps the lock, and blocks every other update and cleanup,
  until its process exits (`ManagedUpdate.StuckUntilExit`); `ManagedUpdate.LockReturnedIff` gives the condition.
- If two tool calls of one message share an id, the agent may show no pending call while one executes
  (`AgentEvents.SharedIdClashes`); `AgentEvents.PendingCallsAreLiveIff` says exactly when.

## Model

| member | source | states |
|---|---|---|
| `Transcript.GetCurrentTools` | packages/ai/src/utils/transcript.ts:58-66 | the two nested loops compute the fold of all system messages, removals before additions |
| `Transcript.ReplayIsDistinct` | packages/ai/src/utils/transcript.ts:58-66 | replaying any transcript gives every tool name at most once |
| `Transcript.DeltaEffect` | packages/ai/src/utils/transcript.ts:150-167 | what applying the computed delta does to the declaration of each name, also for targets with repeated names |
| `Transcript.DeltaReachesTarget` | packages/ai/src/utils/transcript.ts:150-167 | applying the delta to the current tools gives the target tools, name by name, when the target declares each name once |
| `Transcript.DeclareToolChanges` | packages/agent/src/agent-loop.ts:332-362 | the backward scan and rewrite compute `Declared` |
| `Transcript.DeclaredReplaysDelta` | packages/agent/src/agent-loop.ts:332-374 | replaying the committed and the rewritten pending messages is the delta applied to the tools declared before the rewritten message |
| `Transcript.DeclaringIsExact` | packages/agent/src/agent-loop.ts:332-374 | after declaring, replay yields exactly the executable tools, whatever tool fields the pending messages carried |
| `Transcript.DeclaringIsExactIffConsistent` | packages/agent/src/agent-loop.ts:332-374 | declaring is exact on all transcripts if and only if executable tools of the same name are declared alike |
| `Transcript.ClashingTranscript` | packages/agent/src/agent-loop.ts:332-374 | two unlike tools of the same name: a transcript on which declaring is not exact |
| `Transcript.DeclaringKeepsMessages` | packages/agent/src/agent-loop.ts:332-374 | apart from tool fields, pending messages keep order and content; at most one system message is added |
| `ToolBatch.SequentialIsOrderly` | packages/agent/src/agent-loop.ts:527-581 | a sequential batch is orderly: every kept call begins, ends and reports once, in that order, updates in between, results a prefix of the calls in source order |
| `ToolBatch.ParallelIsOrderly` | packages/agent/src/agent-loop.ts:583-657 | so is a parallel batch under every completion order, and no tool executes before every kept call is prepared |
| `ToolBatch.TruncatedIsOrderly` | packages/agent/src/agent-loop.ts:475-500 | a truncated message fails every call, executes none and never ends the run |
| `ToolBatch.KeptExactly` | packages/agent/src/agent-loop.ts:527-581 | a count that ends at the first abort, or at the last call without one, is the number of kept calls |
| `ToolBatch.PrepareAllMeaning` | packages/agent/src/agent-loop.ts:583-620 | the preparation loop keeps exactly those calls, records the preparation of each, executes none, and stops exactly at the first abort |
| `ToolBatch.RunBatchIsOrderly` | packages/agent/src/agent-loop.ts:505-520 | whichever way a batch is executed, it is orderly |
| `ToolBatch.ExecuteSequential` | packages/agent/src/agent-loop.ts:527-581 | the sequential loop yields the specified finals, trace and completeness |
| `ToolBatch.ExecuteOne` | packages/agent/src/agent-loop.ts:703-861 | one call: preparation, execution and finalization with their events |
| `ToolBatch.ExecuteParallel` | packages/agent/src/agent-loop.ts:583-657 | the preparation loop, the completions in any order and the report loop yield the specified batch |
| `ToolBatch.FailTruncated` | packages/agent/src/agent-loop.ts:475-500 | the loop over the calls of a truncated message |
| `ToolBatch.ExecuteToolCalls` | packages/agent/src/agent-loop.ts:505-520 | the choice among the three, by stop reason, mode and the tools' own wishes |
| `AgentEvents.ReducerRebuildsTranscript` | packages/agent/src/agent.ts:561-608 | reducing any events adds exactly the ended messages to the agent's transcript |
| `AgentEvents.PendingCallsAreLiveIff` | packages/agent/src/agent.ts:561-608 | at every point of a trace the agent's pending calls are the executing ones if and only if no call ends while another one with its id executes |
| `AgentEvents.PendingCallsAreLive` | packages/agent/src/agent.ts:561-608 | so with distinct ids they are the executing calls at every point |
| `AgentEvents.SharedIdClashes` | packages/agent/src/agent.ts:561-608 | a batch of two calls with one id, the second naming no tool: the first waits for its execution and nothing is pending |
| `AgentEvents.OnlyLiveArePending` | packages/agent/src/agent.ts:561-608 | whatever the ids, a pending call is an executing one |
| `AgentEvents.BatchPendingCalls` | packages/agent/src/agent.ts:561-608 | of every batch, with any ids: only executing calls are pending at any point, exactly these if and only if nothing clashes, and none once the batch is complete |
| `AgentLoop.StreamResponseMeaning` | packages/agent/src/agent-loop.ts:380-466 | the streamed message ends once, and the context grows by it alone if and only if the stream starts at most once |
| `AgentLoopProperties.TranscriptAgreement` | packages/agent/src/agent-loop.ts:101-150 | over every run the ended messages, the returned messages, the final event's payload and the growth of the agent's state are the same sequence |
| `AgentLoopProperties.TurnAgrees` | packages/agent/src/agent-loop.ts:178-319 | every turn keeps that agreement |
| `AgentLoopQueues.ContextOfEveryRun` | packages/agent/src/agent-loop.ts:162-320 | if no hook replaces the context, the loop context grows by the same sequence |
| `AgentLoopQueues.ContextGrowth` | packages/agent/src/agent-loop.ts:178-319 | from any state, over any turns |
| `AgentLoopQueues.RequestsOfEveryRun` | packages/agent/src/agent-loop.ts:210-241 | at every model request of every run, replaying the request's context gives exactly its executable tools |
| `AgentLoopQueues.EveryRequestIsExact` | packages/agent/src/agent-loop.ts:210-241 | every turn adds one request, and it is exact, also when `prepareNextTurn` swapped the context |
| `AgentLoopQueues.VisibleDeclared` | packages/agent/src/agent-loop.ts:332-374 | declaring changes nothing that is visible besides tool fields |
| `AgentLoopQueues.TurnsConserve` | packages/agent/src/agent.ts:142-173 | what was enqueued is what finished turns took, then what the turn at hand took, then what is queued; turns inject what they take |
| `AgentLoopQueues.RunConserves` | packages/agent/src/agent-loop.ts:203-216 | every run keeps that account |
| `AgentLoopQueues.RunAccounts` | packages/agent/src/agent-loop.ts:203-241 | in every run each turn injects exactly the messages taken for it |
| `AgentLoopQueues.StoppedHoldsNothing` | packages/agent/src/agent-loop.ts:294-319 | when the run stops, nothing taken from a queue is left out of the transcript |
| `AgentLoopTurns.OneMessagePerTurnOfEveryRun` | packages/agent/src/agent.ts:142-173 | in one-at-a-time mode no turn of any run takes more than one message from either queue |
| `AgentLoopTurns.OneMessagePerTurn` | packages/agent/src/agent-loop.ts:203-216 | the same from any state that fulfils it |
| `AgentLoopTurns.QueueConservation` | packages/agent/src/agent.ts:142-173 | for every interleaving of `steer` and `followUp` with a run that stops: the transcript is what each turn injected, its answer and its results, turn by turn; a turn injects what was taken for it; each queue's messages are what the turns took from it, in order, followed by what is still queued |
| `AgentLoopTurns.EventGrammar` | packages/agent/src/agent-loop.ts:116-148 | events are agent_start, one or more turns with one streamed assistant message each, and one final agent_end |
| `AgentLoopTurns.TurnGrammar` | packages/agent/src/agent-loop.ts:178-319 | every turn keeps the event log in that grammar, also when it stops or waits midway |
| `AgentLoopTurns.AnotherTurnIff` | packages/agent/src/agent-loop.ts:262-319 | after a turn that neither failed nor was aborted, another follows exactly when `finishTurn` did not end the run and there is a non-terminating batch, a queued message or a continue decision |
| `AgentLoopTurns.HardExitStops` | packages/agent/src/agent-loop.ts:241-255 | a failed or aborted turn is the last |
| `AgentLoopTurns.ContinueAddsNothing` | packages/agent/src/agent-loop.ts:293-313 | a continue decision changes nothing when another turn is due anyway |
| `AgentRun.PendingMessageQueue.Drain` | packages/agent/src/agent.ts:142-173 | takes all messages or the first, and keeps the rest in order |
| `AgentRun.PendingMessageQueue.PeekMessages` | packages/agent/src/agent.ts:142-173 | what the next drain takes, without taking it |
| `AgentRun.Agent.ProcessEvent` | packages/agent/src/agent.ts:561-608 | the fields follow the reducer |
| `AgentRun.Agent.Prompt` | packages/agent/src/agent.ts:370-378 | refused without effect while active; otherwise a run: the call resolves and the agent is idle exactly when the run has stopped, and transcript and queues are those of the machine |
| `AgentRun.Agent.RunPromptMessages` | packages/agent/src/agent.ts:429-443 | a run over the given prompts from a snapshot of the agent, resolved exactly when it has stopped |
| `AgentRun.Agent.RunContinuation` | packages/agent/src/agent.ts:445-455 | a run from the transcript alone, resolved exactly when it has stopped |
| `AgentRun.Agent.Continue` | packages/agent/src/agent.ts:381-408 | exactly when each refusal happens, with nothing changed, and otherwise which run is made, resolved exactly when it has stopped |
| `AgentRun.Agent.ContinueFromQueues` | packages/agent/src/agent.ts:391-405 | the queues supply the prompts, steering first, and the run is made from what is left queued |
| `AgentRun.ContinueBegins` | packages/agent/src/agent.ts:381-408 | `continue` begins a run as the theorems want it, and what it drains counts before what stays queued |
| `AgentRun.Agent.FinishRun` | packages/agent/src/agent.ts:546-552 | the transient state is cleared, the transcript kept |
| `AgentRun.Agent.BeginRun` | packages/agent/src/agent.ts:503-526 | the state in which a run starts |
| `AgentRun.Agent.SettleRun` | packages/agent/src/agent.ts:503-526 | the transient state is cleared only once the loop has returned |
| `AgentRun.Agent.Steer` | packages/agent/src/agent.ts:296-303 | appends to the steering queue and to nothing else |
| `AgentRun.Agent.FollowUp` | packages/agent/src/agent.ts:296-303 | appends to the follow-up queue and to nothing else |
| `AgentRun.LoopRun.RunLoop` | packages/agent/src/agent-loop.ts:162-320 | the two nested loops are the machine's run over the same turns |
| `AgentRun.LoopRun.RunInnerLoop` | packages/agent/src/agent-loop.ts:181-298 | the inner loop is a stretch of that run |
| `AgentRun.LoopRun.RunTurn` | packages/agent/src/agent-loop.ts:182-297 | one pass of the inner loop is one turn |
| `AgentRun.LoopRun.PrepareTurn` | packages/agent/src/agent-loop.ts:183-207 | hook, second steering poll and turn_start |
| `AgentRun.LoopRun.InjectPending` | packages/agent/src/agent-loop.ts:209-216 | declares and injects the pending messages, with their events |
| `AgentRun.LoopRun.StreamAssistantResponse` | packages/agent/src/agent-loop.ts:380-466 | the loop over stream events updates the context in place as specified |
| `AgentRun.LoopRun.RunToolCalls` | packages/agent/src/agent-loop.ts:257-277 | runs the batch and appends its results to context and new messages |
| `AgentRun.LoopRun.PollSteeringMessages` | packages/agent/src/agent.ts:464-501 | polls the steering queue, or skips the poll once |
| `AgentRun.LoopRun.PollFollowUpMessages` | packages/agent/src/agent.ts:464-501 | polls the follow-up queue |
| `AgentRun.LoopRun.StartWithPrompts` | packages/agent/src/agent-loop.ts:101-125 | the start of a run with prompts |
| `AgentRun.LoopRun.StartBare` | packages/agent/src/agent-loop.ts:127-150 | the start of a continuation |
| `ModelOverlay.CurrentModels` | packages/ai/src/models.ts:788-796 | the merge loops compute the visible list |
| `ModelOverlay.LookupMeaning` | packages/ai/src/models.ts:328-330 | lookup by id finds the last overlay entry, else the first baseline entry |
| `ModelOverlay.PositionsKept` | packages/ai/src/models.ts:788-796 | baseline ids keep their positions; new overlay ids come once, behind them |
| `ModelOverlay.RestoreIsFaithfulIff` | packages/ai/src/models.ts:823-849 | restoring gives back the persisted models if and only if all carry the provider's id |
| `ModelOverlay.RestoreShowsSameList` | packages/ai/src/models.ts:823-849 | a fresh provider that restores such an entry shows the same list |
| `ModelRefresh.EveryInterleaving` | packages/ai/src/models.ts:332-458 | in every interleaving of refreshes, replacements and publications: publications never overlap, generations of writes and updates never decrease, at most one unfinished refresh is un-aborted |
| `ModelRefresh.NoOverlap` | packages/ai/src/models.ts:350-377 | at most one publication is between its first check and its settlement |
| `ModelRefresh.UpdatesAreCurrent` | packages/ai/src/models.ts:367-369 | an update in memory is always of the newest generation with an un-aborted signal; nothing else but a replacement changes the dynamic models |
| `ModelRefresh.ReplacedShowsItsOwn` | packages/ai/src/models.ts:281-289 | after any run, a replaced provider shows its own dynamic models or those of a publication begun later, never those of an earlier refresh |
| `ModelRefresh.ReplacementIsClean` | packages/ai/src/models.ts:332-370 | the same from any state in which it holds |
| `ModelRefresh.PublishedIsPersisted` | packages/ai/src/models.ts:350-377 | when a fetched publication returns true, the store holds exactly its entry and the visible models are the baseline overridden by it |
| `ModelRefresh.OnlyCompletePublishesWrites` | packages/ai/src/models.ts:350-377 | a publication that writes returns true only by its last step |
| `ModelRegistry.Models.SupersedeProviderRefresh` | packages/ai/src/models.ts:332-341 | next generation, the registered controller aborted; other providers untouched |
| `ModelRegistry.Models.BeginProviderRefresh` | packages/ai/src/models.ts:343-348 | supersedes and registers a fresh controller |
| `ModelRegistry.Models.FinishRefresh` | packages/ai/src/models.ts:443-447 | unregisters the controller only if it is still the registered one |
| `ModelRegistry.Models.SetProvider` | packages/ai/src/models.ts:281-284 | supersedes this provider's refresh, no other, and shows the new object's models |
| `ModelRegistry.Models.DeleteProvider` | packages/ai/src/models.ts:286-289 | the same on deletion |
| `ModelRegistry.Models.ClearProviders` | packages/ai/src/models.ts:291-296 | every provider that is known or has a registered refresh is superseded exactly once |
| `ModelRegistry.Models.PublishProviderModels` | packages/ai/src/models.ts:350-377 | queues a publication behind the last one |
| `ModelRegistry.Models.ProceedPublication` | packages/ai/src/models.ts:357-366 | the first staleness check, then the store operation or the conclusion |
| `ModelRegistry.Models.StoreSucceeds` | packages/ai/src/models.ts:361-365 | the store holds the entry of the publication at hand, which goes on to its second check |
| `ModelRegistry.Models.StoreFails` | packages/ai/src/models.ts:361-371 | the publication settles as failed and never updates, whether or not the operation took effect |
| `ModelRegistry.Models.ConcludePublication` | packages/ai/src/models.ts:367-370 | the second staleness check, then the update |
| `ModelRegistry.Models.ForgetChain` | packages/ai/src/models.ts:371-375 | forgets the chain only if nothing was queued since |
| `ModelRegistry.Models.GetModel` | packages/ai/src/models.ts:328-330 | the lookup over the provider's visible models |
| `ModelCost.SelectRates` | packages/ai/src/models.ts:900-910 | the rates of the highest strictly exceeded threshold, else the base rates |
| `ModelCost.CalculateCost` | packages/ai/src/models.ts:900-920 | the cost at those rates, its total the sum of its parts |
| `ModelCost.InForceIsUnique` | packages/ai/src/models.ts:900-910 | the rates in force are determined |
| `ModelCost.OrderDoesNotMatter` | packages/ai/src/models.ts:900-910 | with distinct thresholds any listing order gives the same rates |
| `ModelCost.MoreTokensNeverCostLess` | packages/ai/src/models.ts:900-920 | if higher tiers never have lower rates, adding tokens of any kind never lowers the cost |
| `ConnectionLifecycle.EveryRun` | packages/client/src/connection.ts:67-244 | in every run with any re-entrant callbacks: an opened transport that is not current was closed by the client or reported its end; handshakes settle once, at most; connected is entered only by a hello with the expected server id that came from the attempt itself |
| `ConnectionLifecycle.StaleIsIgnored` | packages/client/src/connection.ts:120-161 | open-completion, data, close, errors and failing sends of an attempt that is not current leave the lifecycle alone; a late transport is closed |
| `ConnectionLifecycle.HandledAtHomeIff` | packages/client/src/connection.ts:143-161 | the messages of a chunk are all handled on their own attempt if and only if no callback before the last leaves the connection reopened |
| `ConnectionLifecycle.MessagesStayHomeIff` | packages/client/src/connection.ts:157-160 | the same condition, chunk by chunk, for whole runs |
| `ConnectionLifecycle.NoReconnectNoLeak` | packages/client/src/connection.ts:157-160 | it holds whenever no callback of a message calls `connect` |
| `ConnectionLifecycle.MidChunkReconnectLeaks` | packages/client/src/connection.ts:157-160 | on every connected state, a callback that reconnects in mid-chunk makes the old attempt's next message fail the new attempt |
| `ConnectionLifecycle.NeverBackHome` | packages/client/src/connection.ts:67-91 | no callback brings an attempt back once it is down or replaced |
| `ConnectionLifecycle.ClientConnection.Open` | packages/client/src/connection.ts:67-91 | refused unless disconnected; otherwise the next attempt |
| `ConnectionLifecycle.ClientConnection.FailConnection` | packages/client/src/connection.ts:234-240 | disconnects, settles a pending handshake, calls back |
| `ConnectionLifecycle.ClientConnection.FailAndCloseConnection` | packages/client/src/connection.ts:227-232 | the same, then closes the transport that was current before the callback |
| `ConnectionLifecycle.ClientConnection.TransportOpened` | packages/client/src/connection.ts:120-134 | adopts the transport if the attempt is still connecting, else closes it |
| `ConnectionLifecycle.ClientConnection.TransportClosed` | packages/client/src/connection.ts:80-84 | the transport's own end counts only while its attempt is current |
| `ConnectionLifecycle.ClientConnection.HandleServerMessage` | packages/client/src/connection.ts:163-213 | the handshake and its checks after each callback |
| `ConnectionLifecycle.ClientConnection.ReceiveData` | packages/client/src/connection.ts:143-161 | the dispatch loop |
| `ClientRequests.EveryRun` | packages/client/src/client.ts:238-302 | in every run: an unsettled request is pending or its rejection is under way; entries belong to the connection at hand; cancels are sent once, for aborted and sent requests, on the connection of the request |
| `ClientRequests.NothingLeftBehind` | packages/client/src/client.ts:345-377 | once the disconnect handling has run, nothing is pending and every accepted request is settled |
| `ClientRequests.FirstEventWins` | packages/client/src/client.ts:238-302 | an accepted request is settled by the first of its events (response, abort, disconnect, dispose, encoding failure), to what that event says, and never again |
| `ClientRequests.StepSettles` | packages/client/src/client.ts:265-377 | one step settles a request if and only if it is such an event and the request is unsettled |
| `ClientRequests.ResponseConsumesOne` | packages/client/src/client.ts:333-342 | a response consumes its own entry and no other; without an entry it fails the connection and nothing else |
| `ClientRequests.SecondResponseFails` | packages/client/src/client.ts:333-337 | whatever happens in between, a second response to a request fails the connection and settles nothing |
| `ClientRequests.LateResponseIsIgnored` | packages/client/src/client.ts:257-264 | an aborted request stays pending: its late response is matched, consumed and settles no promise; only one that cannot be transformed fails the connection |
| `ClientRequests.EntriesNeverReturn` | packages/client/src/client.ts:361-368 | a consumed entry never comes back |
| `ClientRequests.RequestClient.SendRequest` | packages/client/src/client.ts:238-298 | refusal, registration, and the way out when encoding fails |
| `ClientRequests.RequestClient.RequestSent` | packages/client/src/client.ts:298-301 | the late cancel of a request aborted while it was being sent |
| `ClientRequests.RequestClient.ReceiveResponse` | packages/client/src/client.ts:333-342 | takes the entry, then resolves, rejects or fails the connection |
| `ClientRequests.RequestClient.SignalAborted` | packages/client/src/client.ts:257-264 | rejects and cancels, keeping the entry |
| `ClientRequests.RequestClient.TakePendingRequest` | packages/client/src/client.ts:361-368 | removes the entry and its abort listener |
| `ClientRequests.RequestClient.RejectPendingRequests` | packages/client/src/client.ts:370-377 | the loop rejects every entry that was pending, in the order of the requests, and no other |
| `ClientRequests.RequestClient.ConnectionLost` | packages/client/src/client.ts:345-350 | afterwards nothing is pending |
| `ClientRequests.RequestClient.LoseConnection` | packages/client/src/connection.ts:227-240 | the state changes before the handler runs |
| `ClientRequests.RequestClient.DisposeClient` | packages/client/src/client.ts:379-392 | rejects everything first, then disconnects |
| `ServiceSubscription.SubscriptionOrder` | packages/client/src/client.ts:172-236 | for every interleaving of updates, response, `start()` and disposal: the decoder sees the snapshot, then every update in arrival order; delivered, queued and undecoded together are the arrivals |
| `ServiceSubscription.DeliveredInOrder` | packages/client/src/client.ts:417-421 | in every run, also after disposal or disconnect, what the listener got is a prefix of what the decoder made of the arrivals |
| `ServiceSubscription.DeliveriesNeverOverlap` | packages/client/src/client.ts:417-421 | in every run the listener is called once for each delivered update, in order, and each call settles before the next |
| `ServiceSubscription.ActiveServiceListener.HandleUpdate` | packages/client/src/client.ts:313-332 | queues, decodes or delivers an update by the state of the subscription |
| `ServiceSubscription.ActiveServiceListener.Hydrate` | packages/client/src/client.ts:198-206 | decodes the snapshot and everything that waited |
| `ServiceSubscription.ActiveServiceListener.DecodeWaiting` | packages/client/src/client.ts:201-203 | the loop stops at the first update that does not decode |
| `ServiceSubscription.ActiveServiceListener.StartDelivery` | packages/client/src/client.ts:217-221 | delivers what was queued, once |
| `ServiceSubscription.ActiveServiceListener.DeliverNext` | packages/client/src/client.ts:417-421 | calls the listener with the head of the chain |
| `ServiceSubscription.ActiveServiceListener.DisposeSubscription` | packages/client/src/client.ts:222-234 | unregisters, once |
| `WriteQueue.WriteSettlesOnce` | packages/client/src/unix.ts:186-234 | under every order of callback, drain, close and return, a write settles at most once, and successfully only after its callback and, if the socket refused it, a drain behind the refusal |
| `WriteQueue.SettledStays` | packages/client/src/unix.ts:202-214 | later events change nothing |
| `WriteQueue.EveryInterleaving` | packages/client/src/unix.ts:161-177 | pending bytes are always the total length of accepted unsettled sends and within the limit; chunks reach the socket in send order, each after the earlier one settled |
| `WriteQueue.SuccessIsEarned` | packages/client/src/unix.ts:186-234 | in every run, a send that succeeded saw its callback and, if the socket refused its write, a drain after that |
| `WriteQueue.ClosedIsFinal` | packages/client/src/unix.ts:179-187 | after close no further chunk reaches the socket |
| `WriteQueue.SocketWrite.FinishWrite` | packages/client/src/unix.ts:208-214 | settles successfully once callback and any required drain are in, and only once |
| `WriteQueue.SocketWrite.FailWrite` | packages/client/src/unix.ts:202-207 | fails an unsettled write, and only once |
| `WriteQueue.SocketWrite.OnDrain` | packages/client/src/unix.ts:194-197 | counts only while the drain listener is on |
| `WriteQueue.SocketWrite.OnCallback` | packages/client/src/unix.ts:219-226 | fails the write or records its completion |
| `WriteQueue.SocketWrite.OnReturned` | packages/client/src/unix.ts:227-229 | a refused write needs a drain |
| `WriteQueue.UnixByteTransport.SendChunk` | packages/client/src/unix.ts:161-177 | refused when closed or over the limit; otherwise a copy is queued |
| `WriteQueue.UnixByteTransport.CloseTransport` | packages/client/src/unix.ts:179-184 | closes once |
| `WriteQueue.UnixByteTransport.BeginWrite` | packages/client/src/unix.ts:186-187 | writes only when its turn has come and the socket is usable |
| `WriteQueue.UnixByteTransport.HandleSocketEvent` | packages/client/src/unix.ts:186-234 | an event reaches the closures of the write under way; the send settles as its promise does, successfully only after callback and any required drain |
| `WriteQueue.UnixByteTransport.ReleaseSend` | packages/client/src/unix.ts:172-174 | gives the bytes back |
| `ManagedUpdate.CurrentIsVerified` | packages/coding-agent/src/package-manager-cli.ts:126-221 | for every interleaving of updaters and cleaners with crashes anywhere, current-version names a release whose tree passes verification |
| `ManagedUpdate.OthersKeepTheirStage` | packages/coding-agent/src/package-manager-cli.ts:137-221 | no step of another process touches the staging directory, or the progress, of a live updater |
| `ManagedUpdate.MutualExclusion` | packages/coding-agent/src/package-manager-cli.ts:150-184 | at most one live process is between taking and giving back the lock |
| `ManagedUpdate.SuccessMeansCurrent` | packages/coding-agent/src/package-manager-cli.ts:171-221 | an updater that gives back the lock with success leaves its version current |
| `ManagedUpdate.StuckUntilExit` | packages/coding-agent/src/package-manager-cli.ts:217-220 | in every run, an updater that failed to remove its stage holds the lock until its process exits: no other process gets past its attempt to take it, and nothing on disk changes |
| `ManagedUpdate.LockReturnedIff` | packages/coding-agent/src/package-manager-cli.ts:217-220 | a process that has the lock and takes all its steps gives it back if and only if the removal of a stage that it made never fails |
| `ManagedUpdate.StuckIff` | packages/coding-agent/src/package-manager-cli.ts:217-220 | a process without crash is stuck exactly when that removal failed |
| `ManagedUpdate.RunPreserves` | packages/coding-agent/src/package-manager-cli.ts:126-221 | releases never change once there, new ones pass verification, entries of others in the staging directory are never touched, and current-version never disappears |
| `ManagedUpdate.SweepIsComplete` | packages/coding-agent/src/package-manager-cli.ts:137-148 | a sweep without failures leaves no staging directory of any dead updater |
| `ManagedUpdate.ManagedInstall.RunManagedSelfUpdate` | packages/coding-agent/src/package-manager-cli.ts:171-221 | whatever fails, an update is a run of its process; success makes a verified version current; with a live holder nothing happens |
| `ManagedUpdate.ManagedInstall.UpdateLocked` | packages/coding-agent/src/package-manager-cli.ts:187-220 | the body under the lock, with its cleanup on every way out |
| `ManagedUpdate.ManagedInstall.ProvideRelease` | packages/coding-agent/src/package-manager-cli.ts:197-215 | a release that is there is verified and reused; otherwise it is staged |
| `ManagedUpdate.ManagedInstall.StageRelease` | packages/coding-agent/src/package-manager-cli.ts:203-215 | a release is added only with a tree that passed |
| `ManagedUpdate.ManagedInstall.Promote` | packages/coding-agent/src/package-manager-cli.ts:213-215 | the verified tree, unchanged, becomes the release |
| `ManagedUpdate.ManagedInstall.ActivateManagedRelease` | packages/coding-agent/src/package-manager-cli.ts:126-135 | current-version is the new version or what it was |
| `ManagedUpdate.ManagedInstall.RenameIntoPlace` | packages/coding-agent/src/package-manager-cli.ts:129-131 | write and rename, all or nothing |
| `ManagedUpdate.ManagedInstall.CleanUp` | packages/coding-agent/src/package-manager-cli.ts:217-220 | removes the stage and gives back the lock exactly when there is no stage or it can be removed; keeps the lock otherwise |
| `ManagedUpdate.ManagedInstall.TakeLock` | packages/coding-agent/src/package-manager-cli.ts:176-184 | never taken from a live holder |
| `ManagedUpdate.ManagedInstall.CleanupManagedStaging` | packages/coding-agent/src/package-manager-cli.ts:137-148 | failures are swallowed |
| `ManagedUpdate.ManagedInstall.SweepEntries` | packages/coding-agent/src/package-manager-cli.ts:140-144 | the loop over the entries ends at the first failure |
| `ManagedUpdate.ManagedInstall.CleanupManagedInstall` | packages/coding-agent/src/package-manager-cli.ts:150-169 | does nothing while a live process holds the lock |
| `JsonCheck.Checker.Check` | packages/chord/src/json.ts:8-50 | with its ancestor set the validator answers as the depth-only check does, and restores the set on every way out |
| `JsonCheck.Checker.IsJsonValue` | packages/chord/src/json.ts:4-6 | true exactly when every value within reach is well formed and at most 512 steps away |
| `JsonCheck.DepthCheckMeaning` | packages/chord/src/json.ts:8-50 | the depth-only check says exactly that, over all paths |
| `JsonCheck.CyclesFail` | packages/chord/src/json.ts:15-16 | no value on a cycle passes at any depth |
| `JsonCheck.CyclicIsNotStrict` | packages/chord/src/json.ts:15-16 | nor does a value that reaches a cycle |
| `JsonCheck.SharingIsHarmless` | packages/chord/src/json.ts:4-50 | a well-formed node is strict if its children are, however many of its slots share one child |
| `ProxyStream.ChunkingDoesNotMatter` | packages/agent/src/proxy.ts:204-245 | for every way of cutting the text, exactly the newline-split lines of the whole text are processed |
| `ProxyStream.LoopMeaning` | packages/agent/src/proxy.ts:204-230 | after any chunks, all complete lines are processed and the buffer is the last, incomplete one |
| `ProxyStream.SplitContinues` | packages/agent/src/proxy.ts:204-230 | text that arrives later only continues the last line |
| `ProxyStream.BlocksAreTheirDeltas` | packages/agent/src/proxy.ts:270-380 | under any interleaving, a text or thinking block is the concatenation of its own deltas since its start and a tool call is what its own deltas and ends make of it; a stream that throws leaves the blocks of the events before |
| `ProxyStream.StreamedCalls` | packages/agent/src/proxy.ts:342-381 | for every stream: a call's accumulator is the concatenation of its deltas if and only if it has not ended since its start, or its deltas before the last end spell "undefined" and another follows; an ended call is the one its end carries if and only if no delta follows |
| `ProxyStream.LateDeltaSaysUndefined` | packages/agent/src/proxy.ts:342-381 | start, end, delta: the accumulator is "undefined" followed by the delta, and the arguments are parsed from that |
| `ProxyStream.AccumulatorIffOpen` | packages/agent/src/proxy.ts:342-381 | the condition for one block |
| `ProxyStream.EndedCallIffNoDelta` | packages/agent/src/proxy.ts:368-381 | what a call is after an end |
| `ProxyStream.CompletedMeaning` | packages/agent/src/proxy.ts:270-406 | an event that throws changes nothing, and no later event is processed |
| `ProxyStream.LinesAreEvents` | packages/agent/src/proxy.ts:192-202 | processing lines builds what the events before the first line that throws build |
| `ProxyStream.TextRebuildsBlocks` | packages/agent/src/proxy.ts:192-380 | so however the text is cut, the blocks handed out are those of the events in its lines, up to the first line that throws |
| `ProxyStream.Reader.HandleLine` | packages/agent/src/proxy.ts:192-202 | one line |
| `ProxyStream.Reader.HandleEvent` | packages/agent/src/proxy.ts:270-406 | the message under reconstruction is changed in place as specified |
| `ProxyStream.Reader.Read` | packages/agent/src/proxy.ts:204-245 | the read, split and flush loops mean the whole text |
| `TranscriptPacker.PackTranscripts` | scripts/session-transcripts.ts:196-241 | the loop writes exactly the greedy files, numbered in order; its second flush is never reached |
| `TranscriptPacker.PackSplits` | scripts/session-transcripts.ts:196-241 | every transcript once and in order, every file a single transcript or within the limit |
| `TranscriptPacker.PackIsOptimal` | scripts/session-transcripts.ts:196-241 | no order-preserving split into such files has fewer files, from any point of the loop |
| `TranscriptPacker.PackingIsCorrectAndMinimal` | scripts/session-transcripts.ts:196-241 | both, for all transcripts |

## Left out

- Throwing hooks and listeners, and `handleRunFailure` in packages/agent/src/agent.ts: runs are those in which nothing throws.
- `transformContext` and `convertToLlm`: taken as the identity. A context that a hook returns is a value, so aliasing between contexts is not captured.
- `details`, usage and timestamps of messages and tool results, and prompt sections of system messages: they have no part in any property here. Absent and empty tool fields are identified.
- Liveness: a model may request tools forever, so the results are about all finite runs.
- The model store is assumed to take effect no later than its promise settles; credentials and the network phases of a refresh are not modelled.
- `AbortSignal` in the proxy, and the byte decoder, JSON parser and salvaging parser there: parameters. Lengths of texts are counted in characters.
- ModelCost.CalculateCost: exact rationals, so no floating-point rounding.
- TranscriptPacker.PackTranscripts: transcripts are required to be nonempty, which their session header at scripts/session-transcripts.ts:187 guarantees.
- JsonCheck.Checker.Check: the object graph is a map from references to property tables, and accessors with side effects are not modelled.
- ManagedUpdate: the lock is mutual exclusion that a dead holder loses; a live holder that stalls so long that its lock turns stale is not modelled. Version syntax, downloads and `npm ci` are arbitrary answers, and a tree is judged by what its program prints.
- `Client.connect()` clearing the hello of a connection that is up, attachments and their listeners, and service catalogues.
- `connection.ts` does not distinguish a disconnect that the user asked for from a failure in its lifecycle, so the model has one action for both.
- Provider HTTP calls, the model catalogue, authentication, framing and delta codecs, user interface, command line and migrations: input and output, or functions with nothing hard about them.
