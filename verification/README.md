# Verified model of the chat agent server's protocols

The server answers chat messages for users of messaging platforms. Its difficult parts are small protocols
that have to survive crashes, cancellation, retries and input that arrives in arbitrary pieces. This project
models those protocols in Dafny and proves what each of them guarantees over all inputs or all runs.

| file | what it models |
|---|---|
| `PrivateJournal.dfy`, `PrivateClaim.dfy`, `PrivateAnswers.dfy` | claimed private requests: the request journal, the stored completion, takeovers and recovery, and what an undisturbed attempt comes to |
| `StreamSettlement.dfy`, `StreamEndings.dfy` | the settlement of one streamed response: generator, finalizer, claim completion, done frame, delivery |
| `ColdBody.dfy` | the lazily started response body: pulls, cancellation, closing and the failure of its claim |
| `SseParser.dfy`, `SseStreams.dfy`, `Utf8.dfy` | the incremental parser of server-sent events, byte-wise UTF-8 decoding and the printer |
| `StreamCoalescing.dfy` | normalisation and coalescing of stream events, and the loop that emits them |
| `AuditOutbox.dfy`, `AuditRecords.dfy` | the governance audit outbox with commits that may raise although they were applied |
| `PrivateBuffer.dfy` | the buffer that merges a user's messages, its owners, followers and deadline waiters |
| `Breaker.dfy`, `Routing.dfy`, `RoutingRules.dfy`, `Failover.dfy` | the circuit breaker, candidate filtering and ordering, and the candidate and retry loop |
| `Registry.dfy`, `ProviderSnapshot.dfy`, `RegistryRules.dfy` | record normalisation and the replacement of a provider's models |
| `McpDispatch.dfy` | calling a tool of an MCP server over a bounded number of reconnects |
| `Pagination.dfy` | the cursor loop of the model reply log |
| `PyValue.dfy`, `Text.dfy`, `Sorting.dfy` | Python values, strings and stable sorting as the code above uses them |

`dafny verify dfyconfig.toml` checks the whole project.

How the parts are built. Objects and loops of the source are classes and methods whose postconditions tie the
new state to a specification: a function of the old state, or a predicate that leaves only one result. The
lemmas then prove what the source promises about that specification. Protocols between tasks are step systems,
one step from one await or commit to the next, and their theorems are about every sequence of steps.

What the code does and its comments or intent do not say:

- An ill-formed UTF-8 byte discards the events that were completed earlier in the same chunk, so the events
  seen then depend on the chunking; `SseParser.ChunkingIrrelevantIff` says exactly when.
- The parser differs from the event-stream format of the WHATWG HTML Standard, sections 9.2.5 and 9.2.6: it
  flushes at the end of input, strips all whitespace around a payload and does not end a line at a lone
  carriage return. The model follows the code.
- A comment at `clients/new_api_client.py:1241-1243` says that authorisation errors do not count against a
  model; the code charges the model that answered 401 or 403 (`Failover.AbortChargesTheModel`).
- The turn of a claimed request is written without a check of the claim, so a takeover of a claim whose owner
  can still write unchecked can give two answers or replace a stored completion; `PrivateClaim.TakeoverHarmlessIff`
  says exactly when.
- A stored reply that the archive changed is rejected on recovery (`PrivateClaim.RecoverFinds`).
- A refused failure report leaves a changed row in the session (`AuditOutbox.PendingRowReturned`,
  `AuditOutbox.PendingRowPublished`); `AuditOutbox.RepeatMisleadsIff` says exactly when a later call misleads.
- A pull of the cold body that is cancelled while the claim is being failed leaves the body open; only the owner's
  refusal to resume then keeps the response from starting (`ColdBody.RefusalNeededIff`).
- A model id with surrounding whitespace is looked up trimmed and stored untrimmed
  (`ProviderSnapshot.ReplaceIdempotentIff`).

## Model

| member | source | states |
|---|---|---|
| `PrivateJournal.ChatRepository.EnsureRequestJournal` | api/chat_persistence.py:271-343 | for every pattern of locked and failed commits, either the slot holds exactly the journalled thread and nothing else changed, or nothing did; the error is the one the reference names |
| `PrivateJournal.ChatRepository.PersistClaimedTurn` | api/chat_persistence.py:346-480 | journal, answer and completion become durable in one step exactly when some retry commits; retries leave no second answer |
| `PrivateJournal.ChatRepository.PersistClaimCompletion` | api/chat_persistence.py:483-569 | the completion is stored once; an equal one is accepted again, a different one is refused without change |
| `PrivateJournal.OtherJournalRefused` | api/chat_recovery.py:294-317 | a journal of another request is a mismatch for every reader and writer, two journals are corruption |
| `PrivateJournal.LandsIff` | core/sqlite_retry.py:44-97 | a commit goes through if one of four tries commits and all before it found the database locked |
| `PrivateClaim.OneJournal` | api/chat_persistence.py:288-320 | over every run, overlapping owners included, a session and message id have at most one user row, and its fingerprint never changes |
| `PrivateClaim.DifferentInputRejected` | api/chat_recovery.py:204-220 | an attempt with another input or platform for a journalled message fails without writing anything |
| `PrivateClaim.StepInv` | api/routes.py:1126-1384 | every step of a run with safe takeovers keeps attempts, claims, rows and responses consistent; attempts may overlap while the old owner is paused before the bridge or waits in it |
| `PrivateClaim.EnterStep` | core/inbound_claim_lifecycle.py:205-238 | the check before the bridge lets only an attempt that still owns its claim, with nothing stored, call the model |
| `PrivateClaim.BridgeStep` | api/chat_route_runner.py:246-293 | the check after the bridge lets an attempt go on to write only with the claim still its own and nothing stored |
| `PrivateClaim.ExactlyOnce` | api/chat_persistence.py:378-467 | over every run with safe takeovers, crashes anywhere and writes that outlive their cancelled attempt, at most one answer per request, and every response returned or replayed equals the stored completion |
| `PrivateClaim.ResponsesAgree` | api/routes.py:1126-1198 | from an empty database all responses ever sent for a claim are the same |
| `PrivateClaim.NeverRunsAgain` | api/routes.py:1168-1198 | once a completion is stored it never changes, no answer is added and the model is never called again for that claim |
| `PrivateClaim.RecoverFinds` | api/chat_recovery.py:320-360 | recovery finds nothing exactly when nothing is stored, the stored completion when the archive kept its reply, and otherwise reports corruption |
| `PrivateClaim.TakeoverReturns` | api/routes.py:1152-1198 | a takeover with the same input returns the stored completion if and only if it is no reply or the archive kept the reply; in neither case does it reach the model |
| `PrivateClaim.ReplayIsStored` | core/inbound_idempotency.py:616-627 | a completed claim is answered with the stored completion and changes nothing |
| `PrivateClaim.OverlapHarms` | api/chat_persistence.py:378-467 | taking over a claim whose owner can write unchecked: from Acquired, Journaled, Fresh and a turn ready or in flight two answers can follow, from a completion ready or in flight the stored one can be replaced |
| `PrivateClaim.TakeoverHarmlessIff` | core/inbound_idempotency.py:531-557 | taking a claim in progress or a failed one is harmless in every continuation if and only if its owner, or a thread it left, cannot write unchecked |
| `PrivateClaim.HazardByStage` | api/routes.py:1152-1198 | that condition read off the owner's stage, the stored completion and the journal |
| `PrivateAnswers.BridgedRunAnswers` | api/chat_route_runner.py:258-286 | from every state, an undisturbed attempt at a free claim with nothing answered calls the model once; the response is sent once, the archive holds the sanitised answer, the journal the turn's text, and the claim is completed; new claims and takeovers alike |
| `PrivateAnswers.EarlyAnswerResponds` | api/routes.py:1270-1294 | the same without the model for an answer that is ready before the bridge |
| `PrivateAnswers.EarlyCompletionResponds` | api/chat_persistence.py:483-569 | and for an outcome without a reply: nothing is archived, and the journal keeps the given or its own text |
| `PrivateAnswers.AttemptIffFree` | core/inbound_idempotency.py:569-630 | a request gets an attempt and the claim exactly when the claim is new, failed or expired; otherwise it is replayed or told to wait, and nothing changes |
| `PrivateAnswers.FailFrees` | core/inbound_idempotency.py:746-804 | an owner that fails its claim frees it without waiting for the lease |
| `PrivateAnswers.CrashKeepsLease` | core/inbound_idempotency.py:531-545 | a lost owner keeps its claim until the lease expires, and no longer |
| `PrivateAnswers.StrangersAreStopped` | core/inbound_claim_lifecycle.py:205-238 | an attempt that lost its claim cannot cross the bridge or change the claim |
| `StreamSettlement.SettlementSafety` | api/chat_route_runner.py:377-591 | over every interleaving at most one finalizer, claim completion, delivery and push; done and push each only with the turn stored and the claim durably completed, a private push only with its outbox row; never both |
| `StreamSettlement.EveryRunSettles` | api/chat_route_runner.py:440-591 | every run has at most nineteen steps, nobody waits forever, and it ends in exactly one of done, delivery and suppression with the claim settled unless a cancellation took the attempt away |
| `StreamSettlement.StepKeeps` | api/chat_streaming_result.py:152-204 | the order of storing, completing, registering and pushing is kept by every step of every party |
| `StreamSettlement.QuietMeansDone` | api/chat_route_runner.py:394-591 | without outside interruptions no party is ever stuck waiting for another |
| `StreamEndings.DoneIff` | api/chat_route_runner.py:509-575 | over every run that is over, the client gets its done frame if and only if it stayed until the hand-off, the finalizer returned, and the claim, if any, was completed |
| `StreamEndings.ReturnsIff` | api/chat_streaming_result.py:360-444 | a finalizer returns its result if and only if nothing raised in it |
| `StreamEndings.UndisturbedIsDone` | api/chat_route_runner.py:509-575 | a response that nobody leaves, in which nothing raises and no completion fails, ends with its done frame |
| `StreamEndings.SuppressedIff` | api/chat_route_runner.py:536-556 | both endings are suppressed if and only if the generator itself learned that the claim was not completed |
| `StreamEndings.PushedIff` | api/chat_route_runner.py:440-496 | the answer is pushed once if and only if the client left early, the result was stored and the claim completed, there is something to say, and neither delivery, registration nor push failed |
| `StreamEndings.DeliveredIff` | api/chat_route_runner.py:576-591 | a delivery is started if and only if neither of the other endings applies |
| `StreamEndings.ClaimIsCompleted` | api/chat_route_runner.py:440-496 | where nothing raises, no completion fails and the delivery is not cancelled or left unregistered, the claim is completed whenever the client leaves; a blank answer needs no registration |
| `StreamEndings.BrokenFinalizerFailsClaim` | api/chat_streaming_result.py:435-444 | a finalizer that fails its claim leaves it failed, with neither done nor push |
| `ColdBody.AtMostOnce` | api/chat_route_runner.py:141-243 | whatever the consumer does, at most one inner iterator and one claim failure |
| `ColdBody.ExactlyOneOwner` | api/chat_route_runner.py:141-243 | for every consumer, those that pull on after an exception included: never both started and failed, and exactly one of them once the body is closed and no pull is under way |
| `ColdBody.ClosingDecides` | api/chat_route_runner.py:212-243 | a close that runs to its end leaves exactly one of started and failed |
| `ColdBody.FirstPullStarts` | api/chat_route_runner.py:169-196 | an undisturbed first pull creates and starts the inner response, and no claim is failed |
| `ColdBody.LaterPullYields` | api/chat_route_runner.py:169-196 | a later pull goes straight to it, and an item leaves the body open |
| `ColdBody.InnerEndCloses` | api/chat_route_runner.py:197-210 | its end or an error in it closes the body without failing the claim |
| `ColdBody.FailedResumeFailsClaim` | api/chat_route_runner.py:200-205 | an owner that does not resume has its claim failed, and then the body is closed |
| `ColdBody.CloseUnpulledFailsClaim` | api/chat_route_runner.py:212-243 | closing a body that was never pulled fails its claim |
| `ColdBody.CloseStartedKeepsClaim` | api/chat_route_runner.py:212-243 | closing a started body leaves the claim to the inner response |
| `ColdBody.FailingPullLeavesClosing` | api/chat_route_runner.py:197-210 | while a closer is at work a pull that raises does not close the body |
| `ColdBody.RefusalNeededIff` | core/inbound_claim_lifecycle.py:128-135 | if the owner did not refuse to resume once a claim failure had begun, one more pull would start a failed response if and only if the body was left open |
| `ColdBody.CancelledWaitLeavesOpen` | api/chat_route_runner.py:200-210 | a pull cancelled while the claim is being failed leaves the body open |
| `ColdBody.ClosedUndecidedIff` | api/chat_route_runner.py:169-243 | for every consumer, a closed body is neither started nor failed if and only if no failure has begun and a pull still waits for the owner to resume |
| `ColdBody.StoppingUndecidedIff` | api/chat_route_runner.py:169-243 | for a consumer that stops after an exception, if and only if a pull still waits for the owner to resume |
| `ColdBody.UndecidedPullFails` | api/chat_route_runner.py:185-203 | that pull then fails the claim however its resume ends |
| `ColdBody.CancelledCloseUndecided` | api/chat_route_runner.py:212-243 | a close cancelled while it waits for a pull reaches such a state |
| `SseParser.IterSse` | clients/reply_route_chat_completion_adapter.py:544-584 | the incremental loop yields what the reference gives for its chunks, errors included |
| `SseParser.FinishCollects` | clients/reply_route_chat_completion_adapter.py:555-584 | the line-by-line machine equals splitting the whole text into blocks at blank lines |
| `SseParser.ChunkBoundariesIrrelevant` | clients/reply_route_chat_completion_adapter.py:544-584 | for every text and every chunking of its encoding the events and the error are those of the line-splitting reference |
| `SseParser.ChunkingIrrelevantIff` | clients/reply_route_chat_completion_adapter.py:544-584 | for arbitrary bytes the result is independent of the chunking if and only if they are well formed or the text before the first ill-formed byte delivers nothing |
| `SseParser.IllFormedByteMakesChunkingMatter` | clients/reply_route_chat_completion_adapter.py:564-577 | after any printed events an ill-formed byte makes the result depend on the chunking |
| `SseParser.PrintParseRoundTrip` | api/chat_response_contract.py:64-65 | printing events, encoding and parsing under any chunking returns exactly those events |
| `SseStreams.TerminatedStream` | clients/reply_route_chat_completion_adapter.py:553-560 | a stream with `[DONE]` anywhere between its events or at its end gives exactly the events and ends normally |
| `SseStreams.TerminatorIgnored` | clients/reply_route_chat_completion_adapter.py:553-560 | the terminator may stand wherever no event is open, and what follows is still read |
| `SseStreams.OtherLinesIgnored` | clients/reply_route_chat_completion_adapter.py:566-575 | a line that is neither blank nor starts with `data:` may stand before any other line and changes nothing |
| `SseStreams.BlockIsOneEvent` | clients/reply_route_chat_completion_adapter.py:553-575 | the `data:` lines of a block give one event whose text has them as its lines; a payload that is no object, or no JSON, ends the run with its own error |
| `SseStreams.BlankIff` | clients/reply_route_chat_completion_adapter.py:566-570 | a line ends a block if and only if it holds nothing but carriage returns |
| `Utf8.DecodeConcat` | clients/reply_route_chat_completion_adapter.py:548-577 | incremental decoding of two pieces equals decoding of the whole |
| `Utf8.DecodeEncodeAll` | clients/reply_route_chat_completion_adapter.py:548-577 | decoding an encoded text gives it back with nothing pending |
| `Utf8.DecodesIffEncoded` | clients/reply_route_chat_completion_adapter.py:548-577 | bytes decode without a remainder if and only if they are the encoding of the text they decode to |
| `StreamCoalescing.StreamEventCoalescer.Feed` | api/chat_streaming_helpers.py:14-27 | output and held text together mean what was held before plus the event |
| `StreamCoalescing.StreamEventCoalescer.Flush` | api/chat_streaming_helpers.py:29-34 | hands out exactly the held text and empties the coalescer |
| `StreamCoalescing.DeltaNormalized` | api/chat_response_contract.py:29-40 | a delta keeps all its fields, with its text |
| `StreamCoalescing.FinalNormalized` | api/chat_response_contract.py:42-54 | a final event is rebuilt from text, replace and source with their defaults |
| `StreamCoalescing.OtherNormalized` | api/chat_response_contract.py:56-59 | any other named status passes unchanged |
| `StreamCoalescing.DroppedEvents` | api/chat_response_contract.py:25-61 | what has no status, or no text where text is needed, is dropped |
| `StreamCoalescing.MeaningOfEvent` | api/chat_streaming_helpers.py:14-27 | a delta means its characters in order, anything else itself |
| `StreamCoalescing.CollectReady` | api/chat_streaming_helpers.py:37-59 | a batch means what was taken from the queue: everything ready for a delta, one event otherwise; the coalescer is empty afterwards |
| `StreamCoalescing.WaitForEvents` | api/chat_sse_loop.py:47-83 | every wait either emits what arrived or one heartbeat |
| `StreamCoalescing.IterChatStreamEvents` | api/chat_sse_loop.py:38-100 | for every queue content and arrival schedule the frames without heartbeats have the same delta text and the same other events in the same order as the normalised input; heartbeats only in idle waits; it ends only when the producer is done or the schedule is used up; the last flush emits nothing |
| `StreamCoalescing.ClientReadsInput` | api/chat_response_contract.py:25-65 | a client that parses any chunking of the printed frames reads that meaning |
| `AuditOutbox.AuditSession.StageAdminAudit` | core/admin_audit.py:157-225 | adds the normalised record, accepts the same facts again, refuses other facts or texts without change |
| `AuditOutbox.AuditSession.PrepareExternal` | core/admin_audit.py:272-380 | new session state and result as the reference gives them, for the given or the generated id, for every commit outcome and for sessions with pending changes |
| `AuditOutbox.AuditSession.FinalizeExternal` | core/admin_audit.py:412-519 | the same, with the read-back after a failed commit and the best-effort mark |
| `AuditOutbox.AuditSession.FailExternal` | core/admin_audit.py:522-580 | the same, including the row that is changed before its record is refused |
| `AuditOutbox.AuditSession.ReconcilePrepared` | core/admin_audit.py:594-630 | promotes the prepared intents in query order, stopping at one without its record |
| `AuditOutbox.StepKeeps` | core/admin_audit.py:272-630 | every call on a session without pending changes keeps the database sound and reports truthfully: a normal return names a durable row, a failed preparation or a conflict changed nothing, a failed resolution leaves the intent open; changes stay pending if and only if a failure was refused |
| `AuditOutbox.OutboxSafety` | core/admin_audit.py:272-630 | over every run with every commit outcome, each intent has its prepared record, a resolved one its matching record and never changes again, and records are only added |
| `AuditOutbox.NeverBothOutcomes` | core/admin_audit.py:425-580 | no run records both success and failure of one event |
| `AuditOutbox.FailuresAreRecorded` | core/admin_audit.py:522-580 | from an empty database, with each failure reported for its own intent, every failed intent has exactly its own failure record |
| `AuditRecords.RunRecordsSay` | core/admin_audit.py:272-580 | after every run from an empty database each intent's records name its actor, action, object and address, the event and phase, and the request, every field of the result, or the error; and there is no record of another outcome |
| `AuditRecords.PrepareRecords` | core/admin_audit.py:333-362 | after a normal return the record under `id:prepared` has the action with `.prepared`, the trimmed texts and the request, and a new row is prepared and empty |
| `AuditRecords.FinalizeRecords` | core/admin_audit.py:469-493 | after a normal return the record under `id:finalized` has the intent's own action, the trimmed target and every field of the result |
| `AuditRecords.FailRecords` | core/admin_audit.py:545-561 | after a normal return for the intent itself the record under `id:failed` has the action with `.failed` and the error |
| `AuditRecords.PrepareDoneIff` | core/admin_audit.py:272-380 | a new intent is prepared if and only if its texts are accepted and the commit took effect |
| `AuditRecords.FinalizeDoneIff` | core/admin_audit.py:425-519 | an open intent is finalized if and only if it is named truly, the texts are accepted and the commit took effect |
| `AuditRecords.FailDoneIff` | core/admin_audit.py:522-580 | an open intent is failed if and only if error and texts are accepted and the commit took effect |
| `AuditRecords.UnconfirmedIsMarked` | core/admin_audit.py:412-422 | after a lost commit the intent is ambiguous with the name of the error, if the second commit takes effect |
| `AuditRecords.StagedTwice` | core/admin_audit.py:157-225 | a record is added under its id and changes no other; staged again it is accepted if and only if it says the same |
| `AuditRecords.RestartMarks` | core/admin_audit.py:594-630 | the start-up pass turns exactly the prepared intents ambiguous and says why |
| `AuditOutbox.RepeatMisleadsIff` | core/admin_audit.py:522-580 | for every database and every commit outcome, repeating a failure report on the same session returns a row that is not durable if and only if the first report was refused after it changed the row |
| `AuditOutbox.PendingRowReturned` | core/admin_audit.py:545-561 | what that repeated report returns and what the database holds |
| `AuditOutbox.PendingRowPublished` | core/admin_audit.py:545-561 | preparing any other intent on a session left so makes the row durable against its records |
| `PrivateBuffer.JoinConcat` | api/chat_private_buffer.py:36-37 | joining two lists is joining their joins |
| `PrivateBuffer.MergedSlotJoins` | api/chat_private_buffer.py:86-91 | merging a message into the last slot keeps the joined text |
| `PrivateBuffer.MergeFilesUnion` | api/chat_private_buffer.py:40-45 | merging adds exactly the new non-empty names, each once, in order |
| `PrivateBuffer.MergeBufferedFiles` | api/chat_private_buffer.py:40-45 | the loop computes that merge |
| `PrivateBuffer.PrivateBufferStore.BeginOrAppend` | api/chat_private_buffer.py:57-100 | starts or extends the user's buffer, moves the deadline and sets the change event |
| `PrivateBuffer.PrivateBufferStore.Finalize` | api/chat_private_buffer.py:179-198 | sets the events of the user's buffer and removes it if asked |
| `PrivateBuffer.PrivateBufferStore.CheckDeadline` | api/chat_private_buffer.py:109-160 | one turn of the waiting loop: gone, due, or asleep with the current deadline and event |
| `PrivateBuffer.PrivateBufferStore.RenewChanged` | api/chat_private_buffer.py:147-152 | a woken waiter replaces the change event only if it is still the one it waited for |
| `PrivateBuffer.BufferSafety` | api/chat_private_buffer.py:57-198 | in every reachable state no done event that was handed out is orphaned, no waiter sleeps through a change, and every buffer stands for all messages it accepted |
| `PrivateBuffer.SnapshotCoversOwnMessages` | api/chat_private_buffer.py:162-171 | until its buffer is finalized an owner's snapshot stands for exactly the messages and files accepted so far, in at most the allowed number of slots |
| `PrivateBuffer.OwnBufferRemainsIff` | api/chat_private_buffer.py:68-84 | in every reachable state the user's next message leaves an owner's buffer in place if and only if that buffer was not finalized |
| `PrivateBuffer.StaleOwnerSeesReplacement` | api/chat_private_buffer.py:162-198 | a run in which an owner finds a replacement |
| `PrivateBuffer.WaiterDueIff` | api/chat_private_buffer.py:109-160 | over every run a waiter is due if and only if the window of its user's last message has passed, longer if that message had files; else it sleeps exactly until then |
| `PrivateBuffer.JoinWords` | api/chat_private_buffer.py:36-37 | empty messages are ignored and two others joined by a line of three dashes |
| `PrivateBuffer.MessageOpensOrJoins` | api/chat_private_buffer.py:68-100 | a message to an open buffer takes a slot while there is one and wakes the waiters; any other opens a buffer with fresh events |
| `PrivateBuffer.FinalizeWakes` | api/chat_private_buffer.py:179-198 | finalizing sets both events and removes the buffer if asked, and nothing else |
| `Breaker.ModelFailureTracker.RecordFailure` | clients/model_registry.py:267-276 | memory and file after a failure |
| `Breaker.ModelFailureTracker.RecordSuccess` | clients/model_registry.py:278-283 | memory and file after a success, which saves only if there was a failure count |
| `Breaker.ModelFailureTracker.SyncIsDisabled` | clients/model_registry.py:285-296 | the answer, and memory and file after a cooldown ran out |
| `Breaker.CrashConsistency` | clients/model_registry.py:243-296 | over every run with a clock that does not go back, reloading at any later time gives memory without its expired cooldowns |
| `Breaker.CrashConsistencyIff` | clients/model_registry.py:243-283 | from an arbitrary file this holds for all runs if and only if every cooldown still running has a failure count |
| `Breaker.BreakerLaw` | clients/model_registry.py:267-296 | a model is disabled exactly when its failure streak reaches the threshold, until the last failure plus the capped exponential cooldown |
| `Breaker.BlockedExactly` | clients/model_registry.py:285-301 | the check is true exactly before that expiry |
| `Breaker.CooldownMonotone` | clients/model_registry.py:271-274 | cooldowns lie between base and cap and never shrink with more failures |
| `Breaker.CooldownDoubles` | clients/model_registry.py:271-274 | the first cooldown is the base, each further failure doubles it, and the cap bounds them |
| `Breaker.ExpiryMonotone` | clients/model_registry.py:267-276 | another failure never brings the expiry forward |
| `Routing.FilterCandidates` | clients/new_api_client.py:924-945 | the loop selects exactly the models the filters admit at its start, although the breaker drops expired cooldowns while it runs; it raises at the first id that is no string |
| `Routing.GetOrderedCandidates` | clients/new_api_client.py:905-956 | the selected models in key order, or the error of an unsortable record or of an id that is no string |
| `Routing.SelectedExactly` | clients/new_api_client.py:924-945 | a model is selected if and only if some row of it passes every filter and the breaker |
| `Routing.OrderedPermutesAndRanks` | clients/model_registry.py:43-87 | the order is a permutation; normal candidates precede below-floor paid ones, which precede the last resorts; within a bucket by total price, then fewer modalities, then more intelligence |
| `Routing.KeyDistinguishes` | clients/model_registry.py:43-87 | different rows have different keys, so the key is a strict total order |
| `Routing.OrderIsUnique` | clients/new_api_client.py:950-956 | any arrangement that respects the key is the returned one |
| `Routing.TiesKeepRowOrder` | clients/new_api_client.py:950-956 | models alike in everything keep the order of their rows |
| `RoutingRules.SelectedOnFields` | clients/new_api_client.py:924-945 | a plain record is selected if and only if its id, tags, flags, capabilities and price pass and a row of it is not blocked |
| `RoutingRules.BucketOnFields` | clients/model_registry.py:55-66 | the bucket read off intelligence, prices and the fallback flag |
| `RoutingRules.PriceOf` | clients/model_registry.py:23-30 | a number from zero up is a price, anything else costs 999 |
| `RoutingRules.IntelligenceOf` | clients/model_registry.py:33-40 | intelligence that is no finite number is zero |
| `RoutingRules.ModalitiesByDefault` | clients/model_registry.py:68-80 | a model that lists no modalities counts images, audio and video by flag and tags |
| `RoutingRules.ListedModalities` | clients/model_registry.py:68-80 | a model that lists them counts each kind but the first of either list, and tagged audio and video that its inputs lack |
| `RoutingRules.TagWords` | clients/model_registry.py:58 | tags are read trimmed and in lower case |
| `RoutingRules.LimitFromBudget` | clients/new_api_client.py:919-922 | a query without a limit is limited by the budget |
| `Failover.ChatCompletion` | clients/new_api_client.py:1055-1370 | the nested loop follows the policy to its end, returns the policy's verdict and leaves the breaker as the policy's events leave it |
| `Failover.PolicyDeterminesLog` | clients/new_api_client.py:1055-1370 | for each sequence of answers there is exactly one complete run |
| `Failover.TriesAreOrdered` | clients/new_api_client.py:1058-1068 | tries go through candidates and attempts in order |
| `Failover.TriedIsPrefix` | clients/new_api_client.py:1058-1068 | no candidate is skipped |
| `Failover.AllFailedMeansAllTried` | clients/new_api_client.py:1058-1370 | total failure is reported only after every candidate was tried and no answer was usable |
| `Failover.SuccessIsFirstValid` | clients/new_api_client.py:1065-1215 | the result is the first valid answer |
| `Failover.BreakerUntouchedIff` | clients/new_api_client.py:1241-1262 | the breaker is untouched if and only if every answer neither succeeded nor counts as a failure; 400, 413 and 422 do not count |
| `Failover.AbortChargesTheModel` | clients/new_api_client.py:1241-1262 | in a run a 401 or 403 is the last answer whatever candidates remain, the verdict is its code, and the breaker is charged for that model after what the earlier tries told it |
| `Failover.AttemptedIsDistinct` | clients/new_api_client.py:1065-1067 | the reported list names each tried model once |
| `Failover.NextTry` | clients/new_api_client.py:1251-1286 | an unreadable 200 and every error but 400, 413, 422 and 429 is tried again while attempts are left; those, timeouts and network errors go to the next candidate |
| `Failover.RunEndsOn` | clients/new_api_client.py:1065-1370 | a run ends on a valid answer, a refused payload, a cancellation, 401 or 403, and otherwise only after the last candidate |
| `Failover.BreakerSilentOn` | clients/new_api_client.py:1241-1249 | the breaker hears nothing exactly of runs whose answers are all 400, 413 or 422 or that end before an answer |
| `Failover.EffectOf` | clients/new_api_client.py:1187-1249 | what each kind of answer tells the breaker |
| `Failover.VerdictOn` | clients/new_api_client.py:1365-1370 | what the caller gets, by the last answer |
| `Registry.NormalizeStable` | clients/model_registry.py:90-184 | a normalised record used as its own fallback changes nothing, unknown evidence included |
| `RegistryRules.PriceInherited` | clients/model_registry.py:90-101 | an own price counts, else the replaced record's, else 999 |
| `RegistryRules.CapabilityDeclared` | clients/model_registry.py:145-175 | an own capability counts, as explicit unless it gives evidence |
| `RegistryRules.EvidenceGiven` | clients/model_registry.py:165-172 | the evidence a record gives is kept, cut to eighty characters |
| `RegistryRules.CapabilityNested` | clients/model_registry.py:145-153 | a nested descriptor counts where there is no own field |
| `RegistryRules.CapabilityInherited` | clients/model_registry.py:154-172 | else the replaced record is believed and marked as inherited |
| `RegistryRules.CapabilityUnknown` | clients/model_registry.py:160-172 | else the capability is denied and its evidence unknown |
| `RegistryRules.WordsForBool` | clients/model_registry.py:104-115 | yes and no in words, anything else says nothing |
| `RegistryRules.OtherFieldsKept` | clients/model_registry.py:90-184 | every other field is kept |
| `ProviderSnapshot.ModelRegistry.ReplaceProviderModels` | clients/model_registry.py:703-767 | the models and the reported number of changes as the reference gives them |
| `ProviderSnapshot.ReplaceSeparates` | clients/model_registry.py:715-751 | other providers keep their models and order |
| `ProviderSnapshot.ProviderHoldsSnapshot` | clients/model_registry.py:726-744 | the provider ends with exactly the first record of each id, normalised, strictly ascending by id |
| `ProviderSnapshot.ReplaceIdempotent` | clients/model_registry.py:703-767 | repeating the call changes no model and reports no change, if each first record of an id has a trimmed id or inherits nothing |
| `ProviderSnapshot.ReplaceIdempotentIff` | clients/model_registry.py:703-767 | every registry is left unchanged by the repeated call if and only if each first record of an id has a trimmed id or declares both prices and all capabilities itself |
| `ProviderSnapshot.UntrimmedIdForgets` | clients/model_registry.py:728-740 | for every other snapshot, a registry whose models the repeated call changes |
| `RegistryRules.AdoptedPrice` | clients/model_registry.py:728-740 | a record without a price takes the one its provider had under the same id |
| `RegistryRules.AdoptedFields` | clients/model_registry.py:733-740 | an adopted record is the raw one under the provider's name |
| `RegistryRules.NoChangeIff` | clients/model_registry.py:746-761 | no change is reported if and only if nothing changed |
| `RegistryRules.NewRecordCounts` | clients/model_registry.py:746-761 | a new record and a record that is gone count once |
| `RegistryRules.ChangedRecordCounts` | clients/model_registry.py:746-761 | a record that differs counts once |
| `McpDispatch.ListTools` | clients/mcp.py:239-299 | a listing is complete and within the budget, or fails with the first thing that went wrong |
| `McpDispatch.TwentyPages` | clients/mcp.py:244-270 | a listing ends with the first of at most twenty pages that announces no other |
| `McpDispatch.BudgetBursts` | clients/mcp.py:250-258 | a page that bursts the budget ends the listing |
| `McpDispatch.Call` | clients/mcp.py:348-430 | the sessions and the outcome form a run: every session but the last was retried and the last one decides |
| `McpDispatch.RunDetermined` | clients/mcp.py:348-430 | the far side's behaviour determines the run |
| `McpDispatch.DispatchAfterMatch` | clients/mcp.py:358-379 | a dispatch follows a complete listing of the same session that holds the tool with the caller's schema |
| `McpDispatch.DispatchIff` | clients/mcp.py:361-379 | a session that connected and listed dispatches if and only if the last descriptor with the tool's name has the caller's schema; otherwise its body ends in schema drift |
| `McpDispatch.DriftIsFinal` | clients/mcp.py:371-379 | schema drift ends the run and is what the caller sees |
| `McpDispatch.SoundSessionDecides` | clients/mcp.py:380-416 | a sound first session is the only one: reply returned, failure or cancellation passed on, any other error ambiguous |
| `McpDispatch.UnreachableRetries` | clients/mcp.py:417-430 | if no session can connect, all allowed sessions are tried and the failure is retryable |
| `McpDispatch.StopIsFinal` | clients/mcp.py:402-403 | a cancellation is passed on at once |
| `McpDispatch.AtMostOneDispatch` | clients/mcp.py:355-430 | over all reconnects at most one dispatch, in the last session; a result means one, with that session's reply |
| `McpDispatch.FailureTellsDispatches` | clients/mcp.py:399-430 | a failure is ambiguous if and only if there was a dispatch; a retryable one means none, after exactly the allowed sessions |
| `Pagination.ModelReplies` | api/admin_routes.py:503-571 | one page is the first matching rows below the cursor, and `has_more` is true exactly when another match exists |
| `Pagination.PageOnFields` | api/admin_routes.py:503-571 | at most the asked number of rows between one and a hundred, every one wanted by role, session, group, kind and cursor, newest first, none newer than the last one missing, and more to come exactly if one was left out |
| `Pagination.RestOfMatches` | api/admin_routes.py:540-571 | the next cursor leaves exactly the matches that were not shown |
| `Pagination.PagesListEveryMatch` | api/admin_routes.py:503-571 | following the cursor lists every match once in descending order, although newer rows keep arriving |

## Left out

- FastAPI routing, authentication, SQLAlchemy queries and HTTP or WebSocket transport: plumbing around the modelled operations; the database is committed and pending values.
- Lease clocks and renewal of claims: a step decides whether a lease has expired.
- PrivateClaim.ExactlyOnce: assumes that a claim in progress is not taken over while its owner can write unchecked; `PrivateClaim.TakeoverHarmlessIff` shows that this is exactly what it needs.
- SHA-256 and JSON internals: a fingerprint stands for its input, a JSON text is an abstract encoding with the round trip it needs, and numbers that compare equal but print differently are not told apart.
- PrivateJournal.ChatRepository.PersistClaimedTurn: conversation turns, sensitive-data rows and block assignment of the same transaction are not modelled, because recovery reads none of them.
- ColdBody.ExactlyOneOwner: takes from the claim owner that a resume does not return once a claim failure has begun (core/inbound_claim_lifecycle.py:128-135 and 350-378); a cancellation of the failure task itself is not modelled.
- The bridge runner, the owner guard and the drain of the stream queue in `StreamSettlement.dfy`: the finalizer succeeds or fails at any time instead.
- Floating-point rounding and overflow of costs and cooldowns: exact reals, so the overflow of a very large exponent is not modelled.
- Order of breaker updates that the failover loop starts as background tasks: they take effect in the order of the calls.
- Unhashable modality items in the routing key, model profile inference and `select_model`: heuristics beside the modelled order.
- Pagination.ModelReplies: the total count of the response is not modelled, and row ids are positive.
- Races between database sessions in the audit outbox, audit records without an event id, and the order of the list of unresolved intents: they depend on isolation or only add a sort.
- StreamCoalescing.IterChatStreamEvents: the schedule of arrivals is a parameter; timeouts are the moments at which a heartbeat is emitted.
- Tracing, logging, runtime events and telemetry: no effect on results.
- Redaction of MCP payloads, tool discovery and the admin facades: they would only add easy members.
