# Verification of the telemetry pipeline

Emulated devices send telemetry over WebSockets to an ingest instance, which publishes it to RabbitMQ with confirms; a
processing instance consumes it and writes events, device state and alerts to MongoDB. This project models the decision
logic of that pipeline in Dafny and proves what its documentation promises across failures: no confirmed message is lost,
duplicates have no effect, and an older message never overwrites newer state.

`dafny verify dfyconfig.toml` checks everything.

## How the models are built

- **Ingest publisher** (`PublisherState`, `Ledger`, `Publisher`, `PublisherSteps`, `PublisherRuns`, `AmqpPublisher`). The
  state machine and its shell are functions on one publisher value; `PublisherSteps` shows what each entry point keeps
  between two turns; `PublisherRuns` puts the publisher into a world with channels, a broker and a clock and proves the
  guarantees over every run. The class `AmqpPublisher`, with its ledger and stall clock objects, its event queue and its
  re-entry flag, is proved against those functions.
- **Ingest server** (`Flow`, `IngestServer`, `IngestRuns`, `IngestHistory`, `DeviceServer`). Windows, connections, the
  reading rule and the shutdown drain, composed with the publisher's world; `IngestHistory` says what each state means of
  the run behind it; `DeviceServer` holds the connection and server objects with their shared instance window.
- **Processing writes** (`Aggregation`, `StateUpdate`, `Convergence`, `Processing`, `Handler`). The update pipeline is
  plain JSON run by an evaluator of the aggregation operators it uses; handlers are a concurrent step system over three
  atomic store operations, and the `Handler` methods are one handler inside that system.
- **Processing consumer** (`ConsumerState`, `Consumer`, `ConsumerRuns`, `ConsumerSettlement`, `ConsumerCounts`,
  `ConsumerClosing`, `ConsumerProgress`, `ConsumerQueue`, `ConsumerStranding`, `AmqpConsumer`). Events apply at once,
  effects lag on a serial queue; the life invariant ties machine state, queued effects and registrations together, the
  settlement invariant ties what is held to what was sent to the broker, and the `AmqpConsumer` object carries both.
  `ConsumerCounts` says what each step sends and counts, `ConsumerClosing` that nothing is left behind, and
  `DeliveryRuns` joins the consumer with the store: an ack stands for the writes of its message.
- **Emulator** (`Session`, `Chaos`, `Outbox`, `Device`) and **load oracle** (`Load`, `EndToEnd`). Order keys at their
  source, what chaos may rearrange, the bounded outbox, and the generator whose expectation the processing side meets.

A message is taken as validated: an identity names one message, which `Session` and `Load` prove of what is generated.
Two assumptions about the broker are in `PublisherRuns.Enabled`: it acks only what it enqueued or has returned before, and
a delivery tag comes once per channel (`ConsumerRuns.Enabled`). Clocks are arbitrary inputs, except that the stall theorem
takes a clock that does not go back. Random draws are arbitrary values in their range.

## Findings

- An open consumer with a ready store and nothing left to do need not consume: it can be left registering with no
  registration and no request or reply under way. It is in that state exactly when the last reply to a `consume` on its link
  was lost, in one of two ways (`ConsumerStranding.ConsumesUnlessReplyLost`, `StrandedByLostReply`): a broker cancel of the
  registration came before the accept, which the machine ignores (`apps/processing/src/consumer-state.ts:259-262`) and
  `#consume` then drops (`apps/processing/src/consumer.ts:596-598`); or the `consume` was refused, which dispatches no event
  (`apps/processing/src/consumer.ts:577-582`) because the source takes the end of the link, the cause of the refusal, for the
  real event. Both are reached from a new consumer (`SomeRunStrands`), and only the end of that link or a stop leads out
  (`StrandedStays`). By the source's own reasoning that end follows a refusal; after an early cancel nothing is on its way.
- `parseMessageId` reads back an identity exactly when its device id has no colon and is not empty and both numbers are
  safe naturals (`MessageId.ParseReadsBack`).

## Model

| member | source | states |
|---|---|---|
| `PublisherRuns.NothingConfirmedIsLost` | apps/ingest/src/publisher.ts:116-120 | in every run of publisher, channels and broker: every accepted message is either confirmed or in the ledger with its own arguments, never both, never neither; a confirmed one was confirmed once, and the broker had enqueued it as it was accepted; accepted = confirmed + unconfirmed |
| `PublisherRuns.LeavesOnlyOnCurrentAck` | apps/ingest/src/publisher.ts:465-561 | in every run the only step that takes an entry out of the ledger is an ack of the current generation, of a wire of that entry which the broker enqueued and did not return: returned, nacked and late-acked messages stay |
| `PublisherRuns.SentExactlyWhileReady` | apps/ingest/src/publisher.ts:489-534 | in every run: while ready every entry is sent on the current generation; otherwise, unless stopped, every entry is pending and `sentCount` is 0; `sentCount` is the real count; within one generation the channel takes each entry at most once and in id order |
| `PublisherRuns.NeverStuck` | apps/ingest/src/publisher.ts:288-401 | in every run: exactly one continuation of the current generation (attempt, close, timer or link), and its end leads out of the state; a send never lacks its channel; the listeners were told the present readiness |
| `PublisherRuns.StallMeansSilence` | apps/ingest/src/publisher.ts:563-573 | a confirm-stall recycle happens only if, for more than the whole timeout, every world of the run was in the same wait: same connection, ready and unblocked, something sent, no ack |
| `PublisherRuns.WaitingSinceMeans` | apps/ingest/src/ledger.ts:88-119 | the start of a wait is what it says: every later world of the run is in that same wait |
| `PublisherRuns.SilenceMeansStall` | apps/ingest/src/publisher.ts:563-573 | the converse, in every run: the check recycles with `confirm_stall` exactly when the present wait has lasted longer than the timeout, however much was sent meanwhile, and otherwise changes nothing |
| `PublisherRuns.EverySendAwaitsItsAnswer` | apps/ingest/src/publisher.ts:536-561 | in every run each entry of a ready publisher was taken by this very channel and has had no ack, nack or return on it |
| `PublisherRuns.RefusalRecycles` | apps/ingest/src/publisher.ts:450-557 | in every run a nack or a return on the present connection recycles it by name, begins its close and makes every entry pending again; only a return is counted |
| `PublisherRuns.SentBeforeMeansTaken` | apps/ingest/src/ledger.ts:53-63 | in every run what is marked as sent before was taken by some channel: `republished` counts no first send |
| `PublisherRuns.StepKeepsInv` | apps/ingest/src/publisher.ts:121-668 | every step of publisher, channels and broker keeps the ledger account, the one continuation and the stall clock |
| `PublisherRuns.StepIsCalm` | apps/ingest/src/publisher.ts:223-253 | every step but a publish and a current ack keeps all entries, ids and confirmations |
| `PublisherRuns.AckKeepsAccount` | apps/ingest/src/publisher.ts:536-561 | an ack of the current generation is of an enqueued, not returned wire, and confirms exactly the entry of that wire |
| `PublisherRuns.ContinuationMovesOn` | apps/ingest/src/publisher.ts:288-401 | from rest, each continuation leads on: an attempt with its channel and no trigger met to ready, or past it when the sending recycles, any other to a backoff with the first trigger or its own named reason; a close to the backoff with the same attempt and reason; the timer to the next generation |
| `PublisherRuns.SomeRunConfirms` | apps/ingest/src/publisher.ts:555-557 | the guarantees are about runs that exist: for every message some run accepts it and confirms it |
| `PublisherSteps.SuccessSendsAll` | apps/ingest/src/publisher.ts:229-253 | a successful attempt sends the whole ledger in order on the new channel, counting what was sent before, or recycles exactly once, with the reason of the first entry whose publish throws or whose channel closes inside it |
| `PublisherSteps.SendAllSends` | apps/ingest/src/publisher.ts:488-500 | `send_pending` offers the pending entries in order and stops at the first one the channel refuses; without a trigger all of them are sent; each that was sent before is counted |
| `PublisherSteps.TriggersRecycleOnce` | apps/ingest/src/publisher-state.ts:264-278 | any number of queued triggers of one generation recycle a ready connection once, with the reason of the first |
| `PublisherSteps.SendNowKeepsQuiet` | apps/ingest/src/publisher.ts:185-192 | a publish in ready marks the entry sent, or recycles once and leaves it pending, also when the channel closes inside the call |
| `PublisherSteps.TriggerKeepsQuiet` | apps/ingest/src/publisher.ts:659-661 | a trigger of the current generation recycles a ready connection; one of another generation changes nothing |
| `Publishers.QueueShrinks` | apps/ingest/src/publisher.ts:229-253 | the dispatch loop ends: only a success sends, and a send queues nothing but triggers |
| `PublisherState.FirstTriggerIsTheCause` | apps/ingest/src/publisher-state.ts:178-262 | an attempt that met a trigger never becomes ready on its generation, and backs off with the reason of that first trigger |
| `PublisherState.AttemptCountsFailures` | apps/ingest/src/publisher-state.ts:178-278 | over every run the attempt number is the number of last connections that failed, counted from when each became ready and when it ended; only one that stayed ready for the reset time starts it over |
| `PublisherState.BackoffsFollowFailures` | apps/ingest/src/publisher-state.ts:151-278 | over every run each backoff asked for carries the number of failures in a row and the reason that is kept, and one is asked for exactly on entering a backoff |
| `PublisherState.BlockedUntilUnblocked` | apps/ingest/src/publisher-state.ts:244-299 | a blocked connection is not ready again before it is unblocked, over every run |
| `PublisherState.ReadyExactlyWhileUnblocked` | apps/ingest/src/publisher-state.ts:222-300 | over every run a connection is ready exactly when the last the broker said of it was not a block, whether it came while connecting or once ready |
| `PublisherState.GenerationNeverFalls` | apps/ingest/src/publisher-state.ts:95-117 | the generation never falls over a run |
| `PublisherState.BackoffStays` | apps/ingest/src/publisher-state.ts:151-176 | a backoff changes nothing within its generation |
| `AmqpPublishers.AmqpPublisher.constructor` | apps/ingest/src/publisher.ts:148-159 | a new publisher is the initial state; the confirm timeout is three heartbeats |
| `AmqpPublishers.AmqpPublisher.Dispatch` | apps/ingest/src/publisher.ts:229-253 | the object with its event queue and re-entry flag computes the specified dispatch; an event dispatched inside effects waits behind them |
| `AmqpPublishers.AmqpPublisher.Run` | apps/ingest/src/publisher.ts:255-286 | each effect changes the object as specified and queues what it dispatches |
| `AmqpPublishers.AmqpPublisher.SendAllPending` | apps/ingest/src/publisher.ts:488-500 | the sending loop computes the specified `send_pending` |
| `AmqpPublishers.AmqpPublisher.Send` | apps/ingest/src/publisher.ts:508-534 | one send, inside the loop and outside it, with a trigger running inside the publish call |
| `AmqpPublishers.AmqpPublisher.Publish` | apps/ingest/src/publisher.ts:185-192 | into the ledger, and out at once in ready |
| `AmqpPublishers.AmqpPublisher.OnConfirm` | apps/ingest/src/publisher.ts:536-561 | acks remove exactly the entry they confirm; nacks recycle; a callback of another generation is ignored |
| `AmqpPublishers.AmqpPublisher.OnReturn` | apps/ingest/src/publisher.ts:450-486 | a return of the current generation is counted and recycles; any other is ignored |
| `AmqpPublishers.AmqpPublisher.EndAttempt` | apps/ingest/src/publisher.ts:295-401 | how an attempt ends: link and success while it may continue, nothing when stopped, a failure otherwise |
| `AmqpPublishers.AmqpPublisher.EndClose` | apps/ingest/src/publisher.ts:580-599 | the end of a close drops the reference if it is still that model, and reports the generation that asked |
| `AmqpPublishers.AmqpPublisher.FireTimer` | apps/ingest/src/publisher.ts:638-657 | an elapsed backoff is reported with the generation that armed it |
| `AmqpPublishers.AmqpPublisher.CheckStall` | apps/ingest/src/publisher.ts:563-573 | the stall check recycles exactly under its guard |
| `AmqpPublishers.AmqpPublisher.Start` | apps/ingest/src/publisher.ts:173-183 | the start elapses the initial backoff |
| `AmqpPublishers.AmqpPublisher.StopPublisher` | apps/ingest/src/publisher.ts:216-221 | the stop disarms the timer the shell holds and stops the machine |
| `Ledgers.AddKeepsWellFormed` | apps/ingest/src/ledger.ts:35-46 | a new entry has a fresh id and the ids of the ledger grow by it |
| `Ledgers.PendingInOrder` | apps/ingest/src/ledger.ts:48-51 | the pending entries are all of them, in insertion order |
| `Ledgers.MarkKeepsWellFormed` | apps/ingest/src/ledger.ts:53-63 | marking sent keeps ids and the incremental count right, also when repeated |
| `Ledgers.ConfirmRemoves` | apps/ingest/src/ledger.ts:65-77 | a confirm removes exactly that entry, and a second one nothing |
| `Ledgers.ConfirmRemovesId` | apps/ingest/src/ledger.ts:65-77 | the ids after a confirm are the ids before without that one |
| `Ledgers.ConfirmKeepsWellFormed` | apps/ingest/src/ledger.ts:65-77 | the kept sent count stays the real one and never underflows |
| `Ledgers.LoseKeepsWellFormed` | apps/ingest/src/ledger.ts:79-85 | a loss makes every entry pending, keeps every id and zeroes the count |
| `Ledgers.Ledger.Add` | apps/ingest/src/ledger.ts:35-46 | the object adds as specified |
| `Ledgers.Ledger.PendingEntries` | apps/ingest/src/ledger.ts:48-51 | the filter loop returns the pending entries in order |
| `Ledgers.Ledger.MarkSent` | apps/ingest/src/ledger.ts:53-63 | the object marks as specified |
| `Ledgers.Ledger.Confirm` | apps/ingest/src/ledger.ts:65-77 | the object removes as specified and hands back the entry whose callback runs |
| `Ledgers.Ledger.Lose` | apps/ingest/src/ledger.ts:79-85 | the loop over the entries makes all of them pending |
| `Ledgers.StallClock.Sent` | apps/ingest/src/ledger.ts:99-104 | the object computes the specified clock: the wait starts when the count rises to one |
| `Ledgers.StallClock.Acked` | apps/ingest/src/ledger.ts:106-109 | an ack restarts the wait, or ends it when nothing is sent |
| `IngestRuns.WindowsCountTheLedger` | apps/ingest/src/server.ts:186-255 | in every run of server and publisher: the instance window holds the ledger, each open connection its own entries, no window underflows, and a connection reads exactly when the publisher is ready and both windows are open |
| `IngestRuns.DrainLosesNoWakeUp` | apps/ingest/src/server.ts:257-267 | in every run: received = confirmed + unconfirmed, also across closed connections; an unfinished drain still waits for a connection or a confirm; one that ended early left nothing |
| `IngestRuns.StatsAreTotals` | apps/ingest/src/server.ts:121-133 | the running totals are everything received and everything turned away, across closed connections |
| `IngestHistory.ReadsBelowTheCaps` | apps/ingest/src/server.ts:186-217 | in every run the windows have the configured caps: a connection reads only while its own unconfirmed messages and all of them together are below them, and a ready instance pauses it only above half of one |
| `IngestHistory.RefusingMeansStruck` | apps/ingest/src/connection.ts:188-272 | in every run a connection is being closed exactly because a binary message or an error came on it or the drain budget ran out with it open, and it takes nothing more in |
| `IngestHistory.DrainMeansAsked` | apps/ingest/src/server.ts:135-163 | in every run the drain is not begun exactly while nobody asked for it, and under way exactly while it was asked for, has budget left and was never without a connection and a message |
| `IngestHistory.BudgetEndsTheDrain` | apps/ingest/src/server.ts:269-294 | out of its budget the drain reports the open connections and the unconfirmed messages, every connection is being closed, nothing else changes, and the report stays |
| `IngestRuns.ArrivalKeepsInv` | apps/ingest/src/server.ts:52-294 | every step of the ingest keeps windows, reading and drain right |
| `IngestRuns.ReceiveKeepsInv` | apps/ingest/src/connection.ts:206-253 | one message from socket to ledger keeps the invariant, also when publishing flips readiness inside the call |
| `IngestRuns.ConfirmKeepsOk` | apps/ingest/src/connection.ts:278-297 | one confirm keeps windows, reading and drain right, also after its connection closed |
| `IngestRuns.HeardKeepsOk` | apps/ingest/src/server.ts:88-90 | a change of readiness reaches every connection |
| `IngestRuns.CloseKeepsOk` | apps/ingest/src/server.ts:219-236 | a close adds the totals up and re-checks the drain |
| `IngestRuns.AcceptKeepsOk` | apps/ingest/src/server.ts:186-217 | an accepted connection starts under the rule |
| `IngestRuns.ShutdownKeepsOk` | apps/ingest/src/server.ts:141-163 | starting the drain, and its end at the budget, keep the invariant |
| `Flow.ClosedMeansFull` | apps/ingest/src/flow.ts:1-54 | a window is closed exactly when its count reached the cap and has stayed above half of it since |
| `Flow.Window.Add` | apps/ingest/src/flow.ts:28-36 | `closed` is reported only on the closing edge |
| `Flow.Window.Remove` | apps/ingest/src/flow.ts:38-53 | `reopened` is reported only on the reopening edge; an empty window is left unchanged |
| `DeviceServers.DeviceConnection.ApplyReadingRule` | apps/ingest/src/connection.ts:137-168 | an open connection reads exactly under the rule; a closed one is untouched |
| `DeviceServers.IngestServer.ApplyRuleToAll` | apps/ingest/src/server.ts:251-255 | the loop applies the rule to every connection object |
| `DeviceServers.IngestServer.Accept` | apps/ingest/src/server.ts:186-217 | a new connection with its own window |
| `DeviceServers.IngestServer.OnMessage` | apps/ingest/src/connection.ts:206-253 | the accounting of one message around the publish call, on the shared instance window |
| `DeviceServers.IngestServer.CountIn` | apps/ingest/src/connection.ts:242-246 | both windows count before the publish; the edges are reported |
| `DeviceServers.IngestServer.OnRejected` | apps/ingest/src/connection.ts:214-238 | a rejected message is counted once, and a binary one starts the close |
| `DeviceServers.IngestServer.OnClose` | apps/ingest/src/server.ts:219-236 | the connection leaves the set, its totals stay, the drain is checked |
| `DeviceServers.IngestServer.CheckDrain` | apps/ingest/src/server.ts:257-267 | the drain ends once no connection is open and nothing is unconfirmed |
| `DeviceServers.IngestServer.OnConfirmed` | apps/ingest/src/connection.ts:278-297 | the confirmation callback of one message |
| `DeviceServers.IngestServer.OnPublishAnswered` | apps/ingest/src/connection.ts:278-297 | the entry a confirm callback removes runs its own connection's confirmation, with the ledger already without it; any other answer only passes a change of readiness on |
| `DeviceServers.IngestServer.Shutdown` | apps/ingest/src/server.ts:141-163 | a second shutdown changes nothing |
| `DeviceServers.IngestServer.EndDrainAtBudget` | apps/ingest/src/server.ts:269-284 | what is left is reported and every connection is closed |
| `DeviceServers.IngestServer.Stats` | apps/ingest/src/server.ts:121-133 | the loop adds open and closed connections up |
| `MessageId.ParseReadsBack` | apps/ingest/src/amqp-message.ts:52-75 | parsing the identity string gives the identity back exactly when the device id is non-empty and colon-free and both numbers are safe naturals |
| `MessageId.IdentityStringInjective` | packages/shared/src/identity.ts:15-23 | no two such identities share a string |
| `MessageId.ColonNeverParses` | apps/ingest/src/amqp-message.ts:57-64 | an id with a colon in its device id is never parsed |
| `StateUpdate.PipelineMeansMerge` | apps/processing/src/state-update.ts:44-91 | evaluating the pipeline on any stored document replaces the section and `lastEvent` exactly when missing or older, whatever the payload text |
| `StateUpdate.PipelineStoresTheMessage` | apps/processing/src/state-update.ts:50-91 | what the pipeline stores, by field name and literal value: for each payload shape its own fields under the watermark exactly when newer than the section, `lastEvent` with its type name exactly when newer than all, and every other field as it was |
| `StateUpdate.OutcomeMeans` | apps/processing/src/state-update.ts:93-108 | created exactly without a document, stale exactly when the merge changes nothing, applied exactly when the section is this message now and was not |
| `StateUpdate.GapMeans` | apps/processing/src/state-update.ts:110-125 | a gap is reported exactly when a key of the session lies strictly between the last one and the message, and names both ends |
| `StateUpdate.GuardMeansIsNewer` | apps/processing/src/state-update.ts:24-42 | the guard expression evaluates to `isNewer` of the key and the stored watermark, or true when it is missing |
| `StateUpdate.UnquotedTextIsRead` | apps/processing/src/state-update.ts:44-49 | without `$literal` a text that begins with `$` would be read as a field path |
| `StateUpdate.WatermarkWins` | apps/processing/src/state-update.ts:52-61 | the watermark fields win over payload fields of the same name |
| `StateUpdate.MergeKeepsCoherent` | packages/shared/src/documents.ts:21-32 | `lastEvent` is the maximum of the section keys and agrees with its own section |
| `StateUpdate.StaleChangesNothing` | apps/processing/src/state-update.ts:93-108 | the outcome is stale exactly when the whole document is unchanged |
| `StateUpdate.GapImpliesApplied` | apps/processing/src/state-update.ts:110-125 | a reported sequence gap implies the message was applied |
| `Convergence.MergeAllSummarizes` | test/harness/load.ts:223-253 | applying any sequence of deliveries leaves the per-section and per-device maxima |
| `Convergence.SummaryIsUnique` | test/harness/load.ts:223-253 | those maxima determine the document up to receive times |
| `Convergence.OrderAndDuplicatesDoNotMatter` | packages/shared/src/identity.ts:34-43 | two delivery sequences of the same messages, in any order and multiplicity, end in the same state |
| `Processing.EveryRunIsBacked` | scripts/state-check.js:21-137 | in every run of any number of handlers with crashes, aborts and writes that take effect after their failure was reported or their handler is gone: no identity twice, every watermark and alert belongs to a stored event, every acknowledged message is settled |
| `Processing.AcknowledgedRunsConverge` | scripts/state-check.js:30-137 | once every stored event has had an acknowledged delivery, each section is the newest stored event of its type and the alerts are the error diagnostics |
| `Processing.OneAlertPerErrorDiagnostic` | scripts/state-check.js:106-137 | as many alerts as error diagnostics |
| `Processing.StoredAsDelivered` | apps/processing/src/handler.ts:170-246 | in every run, whoever retried, crashed or landed late, each stored event, section and alert is field for field what some delivery of it brought, with the time that delivery was received |
| `Processing.CallKeepsSound` | apps/processing/src/store.ts:34-52 | one store call, with any fate, keeps the store sound and growing and the handler on its way |
| `Processing.LandKeepsInv` | apps/processing/src/store.ts:34-52 | a write that takes effect late keeps the store sound and growing |
| `Processing.StepKeepsInv` | apps/processing/src/handler.ts:170-246 | every step of the concurrent handlers keeps the invariant |
| `Handler.ProcessDelivery` | apps/processing/src/handler.ts:97-168 | the verdict from what the last store call met: `ack` exactly when it ended done, `reject` exactly when it failed permanently or threw, abandoned for a closing store exactly when it failed as closed, for an unavailable one exactly when max(1, attempts) attempts ended transiently, for an abort exactly when it was told to stop before a call; an `ack` means every write of the message is in the store |
| `Handler.RunAttempt` | apps/processing/src/handler.ts:170-246 | the write sequence with its abort checks; an acknowledging attempt reports what its own writes met |
| `Handler.ApplyTwice` | apps/processing/src/handler.ts:195-206 | the upsert is tried once more after a collision, not a third time |
| `Handler.Store.Call` | apps/processing/src/store.ts:34-52 | one store call between the calls of others; it may fail after taking effect |
| `Handler.Store.InsertEvent` | apps/processing/src/store.ts:46-46 | `duplicate` exactly when the identity was stored |
| `Handler.Store.ApplyState` | apps/processing/src/store.ts:47-50 | the answer carries the document as it was before the write |
| `Handler.Store.InsertAlert` | apps/processing/src/store.ts:51-51 | `duplicate` exactly when the alert was there |
| `ConsumerSettlement.OneLiveRegistration` | apps/processing/src/consumer.ts:544-565 | in every run at most one registration is live, the last one on the current link, and the guard against a second one is never reached |
| `ConsumerSettlement.ActiveMeansRegistered` | apps/processing/src/consumer-state.ts:71-74 | in every run an open machine has its link, an active one a live registration, and once the queue is done a live registration means active; consuming is the active status |
| `ConsumerSettlement.SettledOnce` | apps/processing/src/consumer.ts:664-787 | in every run each delivery is settled at most once, and only deliveries that came |
| `ConsumerSettlement.SettledThroughLive` | apps/processing/src/consumer.ts:713-737 | acks and rejects are sent only by the handler of that delivery through a registration live on the current link that holds it; nacks only by a return |
| `ConsumerSettlement.CountersConserve` | apps/processing/src/consumer.ts:623-711 | received = acked + rejected + failed + abandoned + in flight, acked = created + applied + stale, returned = nacks sent |
| `ConsumerCounts.SendsExactlyWhatIsDue` | apps/processing/src/consumer.ts:629-787 | in every run each step sends exactly what is due: the settlement of the verdict when its registration still carries it, the nacks of a return, and nothing else |
| `ConsumerCounts.ReturnGivesBack` | apps/processing/src/consumer.ts:763-787 | in every run a return on its own open link nacks with requeue everything it holds, in order, or what comes before the first nack that throws; it counts them and holds nothing any more |
| `ConsumerCounts.CountersTally` | apps/processing/src/consumer.ts:623-711 | in every run each of the counters is the number of times its own thing happened |
| `ConsumerCounts.PausedSinceReturn` | apps/processing/src/consumer.ts:758-787 | in every run the consumer reports itself paused exactly from a return until it is registered again |
| `ConsumerClosing.ReturnWaitsForHandlers` | apps/processing/src/consumer.ts:758-769 | in every run a return waits for all the handlers that ran when it began |
| `ConsumerClosing.UnwantedIsCancelled` | apps/processing/src/consumer.ts:739-756 | in every run, until it stopped, a live registration the machine does not consume through was cancelled at the broker or its cancel is queued |
| `ConsumerClosing.TakenAwayIsAborted` | apps/processing/src/consumer-state.ts:179-262 | in every run, when the broker cancels or the link ends under a consumer that consumes or drains, its handlers are told to stop |
| `ConsumerClosing.DrainAlwaysEnds` | apps/processing/src/consumer.ts:229-273 | in every run a draining consumer has its drain under way, and the end of it, in turn or at the budget, stops it |
| `ConsumerClosing.LinksAreClosed` | apps/processing/src/consumer.ts:808-850 | in every run every link the consumer ever had is the present one, has ended, or its close was begun; a stopped consumer whose queue is done has none |
| `ConsumerClosing.EndedLinksAreGone` | apps/processing/src/consumer.ts:512-542 | in every run the consumer never holds a link that has ended, also not one that ended during its attempt, and the end of the link of a draining consumer stops it |
| `ConsumerStranding.ConsumesUnlessReplyLost` | apps/processing/src/consumer.ts:566-602 | in every run an open consumer with a ready store and nothing left to do consumes exactly when the last reply to a `consume` on its link was an accept with no cancel of that registration before it |
| `ConsumerStranding.StrandedByLostReply` | apps/processing/src/consumer.ts:577-602 | in every run an open consumer is stranded (registering, no request or reply under way) exactly when that last reply was a refusal, or an accept behind the cancel; otherwise a registering one has exactly one request or reply under way |
| `ConsumerStranding.StrandsExactly` | apps/processing/src/consumer.ts:566-602 | of all steps exactly such a reply, on the link of a registering consumer, strands one that was not |
| `ConsumerStranding.StrandedStays` | apps/processing/src/consumer-state.ts:259-262 | a stranded consumer stays so exactly until its own link ends or it is stopped |
| `ConsumerStranding.SomeRunStrands` | apps/processing/src/consumer.ts:577-602 | both ways are reached from a new consumer, with the store ready and nothing left to do |
| `ConsumerStranding.EarlyCancelStrands` | apps/processing/src/consumer.ts:594-602 | from every registering consumer a cancel before the accept leads there, with the machine unchanged by both |
| `ConsumerStranding.StepWaits` | apps/processing/src/consumer.ts:275-298 | a machine begins to register with a request, and only the reply uses the request up |
| `DeliveryRuns.AcksAreBehindWrites` | apps/processing/src/consumer.ts:629-672 | in every run of the consumer with the store and the handlers of every instance, an ack is sent only for a message whose writes are all in the store |
| `DeliveryRuns.AckedStoreIsChecked` | scripts/state-check.js:21-137 | once the consumer has sent an ack for every stored message, the store passes its result check |
| `DeliveryRuns.MoveKeepsInv` | apps/processing/src/consumer.ts:633-672 | every move of consumer and store keeps each delivery under way tied to its own handler, and each ack to its writes |
| `ConsumerQueue.LostStoreIsWatched` | apps/processing/src/consumer.ts:790-806 | in every run a working consumer that lost a ready store has a watch running or queued, until a watch ends |
| `ConsumerQueue.ReturnsAfterAbort` | apps/processing/src/consumer.ts:763-787 | in every run a return works only on a registration whose handlers were told to stop |
| `ConsumerSettlement.RunKeepsInv` | apps/processing/src/consumer.ts:125-136 | every run keeps the life and settlement invariants |
| `ConsumerRuns.StepKeepsLife` | apps/processing/src/consumer.ts:275-298 | every step keeps machine state, queued effects and registrations tied together |
| `ConsumerRuns.StepIsEvent` | apps/processing/src/consumer.ts:275-298 | whatever a step does to its registrations and its queue, to the machine it does its one event and nothing else |
| `ConsumerRuns.ConsumeKeepsLife` | apps/processing/src/consumer.ts:548-565 | when the queue comes to a consume on the current link, no registration is live |
| `ConsumerRuns.CancelKeepsLife` | apps/processing/src/consumer.ts:604-616 | a broker cancel voids the registration before the machine asks for another |
| `ConsumerRuns.ReplyKeepsLife` | apps/processing/src/consumer.ts:566-602 | every way a consume reply ends keeps the invariant |
| `ConsumerRuns.LinkEndedKeepsLife` | apps/processing/src/consumer.ts:512-542 | the first end of a link voids its registration; later ends change nothing |
| `ConsumerRuns.ReturnedKeepsLife` | apps/processing/src/consumer.ts:758-787 | after a return the registration is void |
| `ConsumerRuns.EffectKeepsLife` | apps/processing/src/consumer.ts:300-331 | taking the next effect off the queue keeps the invariant |
| `ConsumerRuns.DrainOverKeepsLife` | apps/processing/src/consumer.ts:229-273 | the end of a drain, also at its budget ahead of the queue, keeps the invariant |
| `ConsumerSettlement.DeliveryKeepsOk` | apps/processing/src/consumer.ts:617-627 | a delivery is held and counted once, or left alone on a void registration |
| `ConsumerSettlement.HandleKeepsOk` | apps/processing/src/consumer.ts:633-711 | the end of a handler keeps settlement and counters right |
| `ConsumerSettlement.ReturnKeepsOk` | apps/processing/src/consumer.ts:763-787 | a return settles only what is still held |
| `ConsumerProgress.OneWayOn` | apps/processing/src/consumer.ts:339-380 | in every run a connecting consumer has exactly one attempt under way and a backing-off one exactly one timer, of its own generation, and its end leads on |
| `ConsumerProgress.StepKeepsProgress` | apps/processing/src/consumer.ts:903-924 | every step keeps the one attempt or timer |
| `ConsumerState.OneWatchPerLoss` | apps/processing/src/consumer-state.ts:143-177 | over every run the store watch is asked for exactly once per loss of a ready store outside draining; open and active implies ready, open and idle implies not |
| `ConsumerState.StoreReadyIsLastReport` | apps/processing/src/consumer-state.ts:104-177 | over every run, until the stop, the machine knows what the store last reported, whatever happened to links and registrations meanwhile |
| `ConsumerState.ConsumesOnlyWhileReady` | apps/processing/src/consumer-state.ts:60-74 | over every run nothing is consumed before the store was first reported ready, nor after it was reported gone |
| `ConsumerState.AttemptCountsFailures` | apps/processing/src/consumer-state.ts:179-244 | over every run the attempt number is the number of last links that failed, counted from when each opened and closed |
| `ConsumerState.BackoffsFollowFailures` | apps/processing/src/consumer-state.ts:179-244 | over every run each backoff asked for carries the number of failures in a row and its own reason, and one is asked for exactly on entering a backoff |
| `AmqpConsumers.AmqpConsumer.constructor` | apps/processing/src/consumer.ts:146-170 | a new consumer is the initial state, and the invariants of every run hold of it; each entry point below keeps them |
| `AmqpConsumers.AmqpConsumer.Start` | apps/processing/src/consumer.ts:200-203 | the start elapses the initial backoff |
| `AmqpConsumers.AmqpConsumer.ReportStoreReady` | apps/processing/src/consumer.ts:205-208 | the ready store is reported to the machine |
| `AmqpConsumers.AmqpConsumer.Dispatch` | apps/processing/src/consumer.ts:279-287 | the event at once, its effects behind all earlier ones |
| `AmqpConsumers.AmqpConsumer.RunEffect` | apps/processing/src/consumer.ts:289-331 | the object runs the next effect as specified |
| `AmqpConsumers.AmqpConsumer.BeginConsume` | apps/processing/src/consumer.ts:548-565 | one registration object on the current link |
| `AmqpConsumers.AmqpConsumer.OnReply` | apps/processing/src/consumer.ts:566-602 | the three ends of a consume call |
| `AmqpConsumers.AmqpConsumer.OnLinkEnded` | apps/processing/src/consumer.ts:518-542 | the link and its registration are dropped once |
| `AmqpConsumers.AmqpConsumer.OnDelivery` | apps/processing/src/consumer.ts:605-627 | held, counted and handed to its own handler while live |
| `AmqpConsumers.AmqpConsumer.OnCancel` | apps/processing/src/consumer.ts:605-616 | the registration is void before the event |
| `AmqpConsumers.AmqpConsumer.OnHandled` | apps/processing/src/consumer.ts:633-711 | counters by verdict, then the settlement |
| `AmqpConsumers.AmqpConsumer.Settle` | apps/processing/src/consumer.ts:664-711 | the accounting of one verdict and its settlement, on the object |
| `AmqpConsumers.AmqpConsumer.Acknowledge` | apps/processing/src/consumer.ts:713-737 | nothing is acknowledged through a void registration |
| `AmqpConsumers.AmqpConsumer.BeginCancel` | apps/processing/src/consumer.ts:739-756 | only a registration with a tag is cancelled |
| `AmqpConsumers.AmqpConsumer.ReturnAll` | apps/processing/src/consumer.ts:763-787 | the nack loop up to the first throw, then the registration is empty and void |
| `AmqpConsumers.AmqpConsumer.NackHeld` | apps/processing/src/consumer.ts:769-781 | the loop nacks what is held up to the first throw and counts it; nothing on another link or a closed one |
| `AmqpConsumers.AmqpConsumer.ReturnHeld` | apps/processing/src/consumer.ts:763-787 | the registration empty and void, and the queue free to go on |
| `AmqpConsumers.AmqpConsumer.DropLink` | apps/processing/src/consumer.ts:820-828 | link and registration are gone before the close is awaited |
| `AmqpConsumers.AmqpConsumer.EndAttempt` | apps/processing/src/consumer.ts:339-457 | how an attempt ends |
| `AmqpConsumers.AmqpConsumer.EndWatch` | apps/processing/src/consumer.ts:790-806 | a watch that ends ready is reported |
| `AmqpConsumers.AmqpConsumer.BeginStop` | apps/processing/src/consumer.ts:229-239 | the stop, and the drain it may begin |
| `AmqpConsumers.AmqpConsumer.EndDrain` | apps/processing/src/consumer.ts:239-273 | the end of the drain, in turn or at the budget |
| `ConsumerState.ReturnsAfterCancel` | apps/processing/src/consumer-state.ts:155-167 | held deliveries are only returned after the cancel and the abort |
| `ConsumerState.LeavingActiveCleansUp` | apps/processing/src/consumer-state.ts:119-171 | what an active consumer asks for when it stops being one, event by event |
| `Session.KeysIncrease` | apps/emulator/src/session.ts:84-99 | for any clock the generated keys strictly increase |
| `Session.NoGapWithinSession` | apps/emulator/src/session.ts:170-186 | within a session the sequence numbers run from 1 without a gap, and an earlier session has a smaller id |
| `Session.GeneratedKeysAreUnique` | apps/emulator/src/session.ts:41-44 | one key, one message |
| `Session.FleetKeysAreUnique` | apps/emulator/src/device.ts:52-54 | devices with different ids never share an identity |
| `Session.DegradedUntilRecovered` | apps/emulator/src/generator.ts:141-158 | after any readings the state is degraded exactly when one was past 90 percent or 75 degrees and none since was back at 85 and 70 |
| `Session.PullHolds` | apps/emulator/src/generator.ts:66-140 | no draw moves a reading out of its bounds, nor farther from its baseline than ten steps |
| `Session.DeviceSession.StepWalk` | apps/emulator/src/generator.ts:105-140 | every step keeps the readings in bounds and near the baseline; with `Session.HealthyStaysCool` a device that is not faulty never overheats |
| `Session.HealthyStaysCool` | apps/emulator/src/generator.ts:28-52 | within ten steps of a healthy baseline the temperature is below every threshold, so a healthy device has sent no error diagnostic (`DeviceSession.Valid`) |
| `Session.DeviceSession.Start` | apps/emulator/src/session.ts:84-91 | a new session id above the last one, the clock's when that leads; `online` at sequence number 1; each clock reading where it belongs |
| `Session.DeviceSession.Restart` | apps/emulator/src/session.ts:93-99 | a power cycle opens a later session with its readings at the baseline and its counters, overheating flag and state reset |
| `Session.DeviceSession.Tick` | apps/emulator/src/session.ts:105-129 | the whole list of payloads in order: the readings; every fifth tick the counters; the state when it changed; an error on the way into overheating, else a warning on the way into degraded, else an info or nothing; consecutive numbers |
| `Session.DeviceSession.DueCounters` | apps/emulator/src/session.ts:111-114 | counters every fifth tick, at most fifty more than before, with the uptime of a clock reading; no other tick touches them |
| `Session.DeviceSession.ChangeState` | apps/emulator/src/session.ts:116-121 | a status exactly when the derived state changes |
| `Session.DeviceSession.Diagnostic` | apps/emulator/src/session.ts:152-167 | at most one diagnostic, which one, and with which literals |
| `Session.DeviceSession.Counters` | apps/emulator/src/session.ts:196-209 | the uptime is a second clock reading past the start, and none when the clock was set back |
| `Session.DeviceSession.Heartbeat` | apps/emulator/src/session.ts:137-139 | the current state with the next key |
| `Session.DeviceSession.Farewell` | apps/emulator/src/session.ts:141-144 | `offline` with the next key |
| `Session.DeviceSession.Envelope` | apps/emulator/src/session.ts:169-186 | each message consumes exactly one sequence number and reads the clock once |
| `Chaos.OnceOrTwice` | apps/emulator/src/chaos.ts:67-74 | chaos sends every message once or twice for each time it came in, and nothing else |
| `Chaos.OnlyNeighboursSwap` | apps/emulator/src/chaos.ts:87-94 | what came two or more messages earlier goes out first, every copy of it |
| `Chaos.ChaosPolicy.Apply` | apps/emulator/src/chaos.ts:95-110 | exactly what the draws say: the first whether it goes twice, the next, with a free slot, whether it waits; a held message goes out behind the next; output and slot together are the input, rearranged by copies and swaps of neighbours |
| `Chaos.ChaosPolicy.FlushHeld` | apps/emulator/src/chaos.ts:112-117 | the slot goes out as it is |
| `Chaos.ChaosPolicy.ClearHeld` | apps/emulator/src/chaos.ts:119-122 | a power cycle empties the slot |
| `Outboxes.Outbox.Push` | apps/emulator/src/outbox.ts:36-40 | appends; full, it first evicts the oldest non-diagnostic, or the oldest of all; never more than the bound |
| `Outboxes.Outbox.Evict` | apps/emulator/src/outbox.ts:55-59 | the victim is the oldest non-diagnostic, and the rest keeps its order |
| `Outboxes.Outbox.Peek` | apps/emulator/src/outbox.ts:42-45 | the head is left in place |
| `Outboxes.Outbox.Shift` | apps/emulator/src/outbox.ts:47-49 | the head leaves |
| `Outboxes.PumpOutbox` | apps/emulator/src/device.ts:29-47 | what was written is a prefix of the queue and is on the wire; the pump ends at an empty queue or at the first refusal, which leaves its message at the head |
| `Devices.DeviceClient.Generate` | apps/emulator/src/device.ts:175-181 | what was generated goes through chaos into the outbox; a running device keeps its refresh timer armed, or the status that arms it waits in the slot |
| `Devices.DeviceClient.Push` | apps/emulator/src/device.ts:183-196 | everything pushed is written, dropped and counted, cleared, or still waiting, in order; a status arms the refresh timer, unless stopped |
| `Devices.DeviceClient.Pump` | apps/emulator/src/device.ts:155-161 | the wire extends in queue order, until the queue is empty or the connection refuses |
| `Devices.DeviceClient.OnTick` | apps/emulator/src/device.ts:168-173 | one tick of the session, all of it generated and then pumped; nothing once stopped |
| `Devices.DeviceClient.OnHeartbeat` | apps/emulator/src/device.ts:209-217 | one status with the current state, generated and then pumped; nothing once stopped |
| `Devices.DeviceClient.PrepareShutdown` | apps/emulator/src/device.ts:141-153 | the slot and then the farewell are queued past chaos: the farewell is the last message |
| `Devices.DeviceClient.OnConnectionChaos` | apps/emulator/src/device.ts:226-244 | a disconnect sends the slot to the outbox and loses nothing; a power cycle opens a later session with `online` and loses exactly the held slot and the outbox; nothing once stopped |
| `Devices.WrittenWasGenerated` | apps/emulator/src/device.ts:49-55 | whatever reaches the wire was generated by this device |
| `Devices.LatestSurvivorWins` | apps/emulator/src/device.ts:176-245 | any delivery order and multiplicity of what survives leaves each section at its latest-generated surviving message, and `lastEvent` at the latest of all |
| `Load.Distribute` | test/harness/load.ts:118-147 | refuses exactly the impossible sizes; counts sum to the messages with one at least per device; the hot device has its share to within half a message, or as much as leaves the others one; the rest is even, remainder first |
| `Load.DeviceStream` | test/harness/load.ts:149-176 | the numbered messages up to swaps of pairs that do not overlap; none at nought percent, every pair at a hundred |
| `Load.StreamContents` | test/harness/load.ts:149-176 | one message for each sequence number and nothing else |
| `Load.BuildMessage` | test/harness/load.ts:63-116 | the sequence number decides key, time, type, counters, texts and error diagnostics; states and readings are drawn in their ranges |
| `Load.PickDevice` | test/harness/load.ts:186-203 | the weighted scan always lands on a device that has something left, each for as many draws as it has left |
| `Load.Interleave` | test/harness/load.ts:178-205 | the interleaving is a merge: every stream goes out whole and in its own order |
| `Load.WithDuplicates` | test/harness/load.ts:207-221 | the same messages in order, some twice in a row, counted; none at nought percent, all at a hundred |
| `Load.ExpectationOf` | test/harness/load.ts:223-253 | the expectation is the identities, maxima and alerts of the first copies; every other send is a duplicate |
| `Load.GenerateLoad` | test/harness/load.ts:255-277 | for all sizes, percentages and draws the consistency throw is unreachable, and the expectation is that of all sends |
| `Load.LoadDeviceIdInjective` | test/harness/load.ts:54-57 | two indices never share a device id, also past the padding |
| `Load.LoadDeviceIdShape` | test/harness/load.ts:52-57 | the prefix, a dash, and the index in four digits, or in as many more as it needs |
| `Load.LoadIdentityInjective` | test/harness/load.ts:54-57 | within a load the identity string names device and sequence number for every prefix |
| `EndToEnd.PipelineMeetsExpectation` | test/harness/load.ts:12-17 | in every run, once every send has had an acknowledged delivery, stored events, section keys, `lastEvent` keys and alerts are those of the expectation |
| `EndToEnd.ConsumerMeetsExpectation` | test/harness/load.ts:12-17 | the same seen from the broker: once the consumer has sent an ack for every send, the store stands at the expectation |
| `EndToEnd.DeviceMeetsExpectation` | test/harness/load.ts:32-43 | one device: its document stands at the expected keys |

## Left out

- Logging, redaction and log effects: they decide nothing.
- JSON and UTF-8 decoding, zod schemas and configuration: a delivery or a socket message is a validated message or a rejection.
- amqplib, `ws`, sockets, HTTP, DNS, signals and exit codes: only the events they deliver are modelled.
- The MongoDB driver, index creation, error mapping and ping loop of `store.ts`: the three-operation port contract stands for them, and the class of a failure is any of the three.
- Backoff delays, jitter and timeouts as durations: a timer is a step that may happen; only the stall timeout and the two reset times compare clock values.
- One `now` per publisher step: the source reads the clock again inside a step, which no branch compares with the earlier reading.
- Readiness listeners do not publish synchronously, and a publish inside a listener is not modelled.
- A readiness that changes and changes back within one publisher step: the rule is applied for the last readiness the listeners heard, which is where the two applications in the source end as well.
- The server's connections are objects, but the `WebSocket` behind one is not: liveness pings, close codes and `readyState` are left out, and any connection may fail or close at any time.
- `IngestRuns` keeps the server as a value: the object form of `DeviceServer` is proved against the same functions, but `OnConfirmed` takes the owner's id where the source closes over the connection object.
- Handles of links are named by their generation: an attempt opens at most one.
- Waiting of `stop()` for the queue and the handlers: the drain may end at any moment in the model, in turn or at its budget, so every interleaving the source has is covered.
- Progress of the broker, the store and the network: only safety, unreachable throws and the existence of the one continuation are claimed, none out of registering, where `ConsumerStranding` says exactly when nothing is under way.
- Nacks of a return do not need a live registration in the source, and none is claimed.
- The `republished` counter over a whole run: `SuccessSendsAll` says what each resend adds, `SentBeforeMeansTaken` that a first send adds nothing; a send whose channel closed inside the call is not marked, in the source as here.
- `nextConnectionChaos`, `parseChaosModes` and the PRNG: draws are arbitrary within their range, and a percentage matters only at nought and a hundred; readings are exact reals, rounded to two decimals as in the source.
- The encoded text kept beside each outbox entry, and the intervals of the `DeviceClient` timers: a tick, a heartbeat or a connection event may come at any time; whether the refresh timer is armed is modelled.
- Reconnect logic of the emulator's connection: `write` takes or refuses a message, arbitrarily.
- `mergeExpected`, `extractRawIdentity`, the health servers and the Docker and Vitest infrastructure: easy members or support code of the tests.
- Load.Distribute: `messages * hotShare` is exact over the reals, where the source rounds a double.
