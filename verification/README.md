# Verification of the cheetah-signaling core

Models, in Dafny, of the stateful components of the signaling server, and proofs of what they
promise over whole runs. `dafny verify dfyconfig.toml` checks everything.

| files | component |
|---|---|
| `Operation`, `Dispatch`, `CommandDispatcher` | the operation aggregate and the write-ahead command dispatcher |
| `Inbox`, `InboxService`, `Delivery` | the deduplicating inbox, and both ends of command delivery composed |
| `SimClock`, `SimWire`, `SimFault`, `SimDevice`, `SimPlatform`, `SimHarness` | the GB28181 simulator: timer wheel, lossy network, devices, registrar, event loop |
| `Media`, `MediaLife`, `MediaStore`, `MediaDriver`, `MediaCommands`, `MediaCallbacks` | media sessions and bindings, the unit of work, and the handlers that drive them |
| `MediaMigration`, `MediaReconcile`, `MediaPass`, `MediaVerdicts` | migration to another media node, and the reconcile pass |
| `FragmentKeys`, `FragmentBuffer`, `Reassembly` | reassembly of fragmented catalog and record responses |
| `AdmissionSink` | admission control with coalescing, shedding and a dead-letter queue |
| `RateLimiter`, `RateLimits` | the token-bucket rate limiter |
| `EventCache` | the bounded event cache and its consumers |
| `OperationReconciler`, `OperationPaging`, `OperationTimeouts` | timing out operations over two paged listings |
| `Importer` | the chunked migration importer |

Components that update state in place are classes or methods over a unit of work, proved against
functions or transition systems on values; protocols are transition systems whose runs may crash,
interleave and lose commits anywhere. Clocks, identifiers, fault draws, node answers, storage
failures and the moves of other writers are parameters or free choices.

## What the code does not do

Where the code falls short of its own comments or of an expected property, the model follows the
code, and the exact condition is proved.

- **Crash recovery of the dispatcher.** The comment on `dispatch` says that after a crash between
  recording an attempt and sending it the next call re-uses the attempt and sends. The re-used copy
  is saved unchanged, so the revision guard rejects it every time: an operation is sent at most once
  ever, and an undisturbed call sends if and only if no unsent attempt is stored
  (`Dispatch.ReuseNeverSaves`, `Dispatch.StrandedNeverSends`, `CommandDispatchers.NothingLostDecides`). Every operation can be stranded this way
  (`Dispatch.CrashStrands`, `Dispatch.CrashAfterSendStrands`).
- **Simulator termination.** The loop ends for every validated scenario whose duration is below the
  largest 64-bit time, and for none at it (`SimHarness.Harness.Tick`, `SimHarness.Harness.Run`).
- **Stop callbacks.** Two transitions precede one save when the session is active or the binding
  active or under verification, so such a callback never takes effect
  (`MediaCallbacks.HandleMediaEvent`).
- **Refused stop commands.** Rows that are already terminal are saved unchanged, so the refusal is
  recorded if and only if neither is terminal (`MediaCommands.DispatchStop`).
- **Migration races.** The events of a converged session are appended before the save; if another
  writer was faster the save fails, the error path commits the event anyway, and the outbox no longer
  matches the tables. This happens exactly when the session (unless already active) or the new
  binding changed while the node was being asked, as an early callback does
  (`MediaMigration.SettleReconnect`, `MediaMigration.EarlyCallbackRaces`).
- **Stale buckets.** Dropping them is invisible if and only if the capacity is at most sixty times
  the refill rate (`RateLimits.CleanupIsNeutral`, `RateLimits.CleanupIsNotNeutral`). The quota is
  kept when requests take the lock in the order of the times they read (`RateLimits.QuotaHolds`), and
  for no limiting configuration can this be dropped (`RateLimits.SwappedTimesBreakTheQuota`).
- **Fragment names.** Two fragments share a name exactly when their sorted keys consist of the same
  comma-separated pieces (`FragmentKeys.SameNameSamePieces`). Without commas only the empty fragment and
  the one whose single key is `empty` do (`FragmentKeys.PlainKeysTellApart`). The fragments whose name
  nobody else can have are exactly those of one key, other than `empty`, that cannot be divided at a
  comma into two keys in order (`FragmentKeys.UnmistakableIff`).
- **Refusals that do not fit.** A migration that fails leaves the session failed, unless the node's
  refusal is too long to be recorded: then the session keeps its state, active or not, while its old
  binding is over (`MediaMigration.MigrateOrFail`, `MediaPass.GraceIsKept`).
- **Cursors nobody has reached.** The event stream accepts a start cursor beyond the last event. A
  consumer that is woken before that cursor is reached is sent the buffer from the beginning, and only
  then (`EventCaches.OriginIsStart`).

## Assumptions

- A unit of work reads its own writes, and a commit is applied as a whole or not at all; it may be
  applied and still be reported as failed.
- A save accepts a row whose revision is one above the stored one, or a row that is absent.
- Each owner epoch of a device is issued to one node.
- A frame that is not corrupted parses to the message it was made from; a corrupted one does not parse.
- Only holders of the sink's lock send to its channel.
- The unit of work of the timeout run sees no writes but its own.
- An aggregate update keeps the row's id (`Importers.Rules.Sane`).

## Model

| member | source | states |
|---|---|---|
| `Operations.FindUnsent` | crates/application/cheetah-signal-application/src/command_dispatcher.rs:279-294 | The id found belongs to an attempt that is still unsent; nothing is found exactly when no attempt is unsent. |
| `Operations.Start` | crates/domain/cheetah-domain/src/operation.rs:544-574 | Only a pending operation starts; it then runs one revision on, with its dispatch attempts unchanged. |
| `Operations.RecordAttempt` | crates/domain/cheetah-domain/src/operation.rs:842-856 | Fails exactly when the command has no step; otherwise appends one unsent attempt to that step and changes neither status nor other attempts. |
| `Operations.MarkAttempt` | crates/domain/cheetah-domain/src/operation.rs:863-916 | Fails exactly when the attempt is unknown; otherwise changes the status of that one attempt and bumps the revision once. |
| `Operations.Fail` | crates/domain/cheetah-domain/src/operation.rs:576-624 | Completing with a failure: possible exactly for a running operation, which keeps its attempts and is failed one revision on. |
| `Dispatch.Reachable` | crates/application/cheetah-signal-application/src/command_dispatcher.rs:45-214 | In every state of every run of any number of dispatchers that crash anywhere and any other writers: attempt ids are distinct, at most one attempt is unsent, at most one dispatcher is between recording an attempt and settling it, and no private copy is newer than the stored operation. |
| `Dispatch.AtMostOneSend` | crates/application/cheetah-signal-application/src/command_dispatcher.rs:45-150 | The bus accepts the command of an operation at most once over any run, whatever crashes. |
| `Dispatch.SendIsCovered` | crates/application/cheetah-signal-application/src/command_dispatcher.rs:100-127 | Write-ahead: when the bus accepts a command the stored operation holds exactly one unsent attempt and it is the sender's; the send itself changes no row. |
| `Dispatch.ReuseNeverSaves` | crates/application/cheetah-signal-application/src/command_dispatcher.rs:100-113 | The save on the path that re-uses a recorded attempt is rejected by the revision guard in every case, because nothing has changed the copy. |
| `Dispatch.StrandedNeverSends` | crates/application/cheetah-signal-application/src/command_dispatcher.rs:38-44 | From a stored unsent attempt that no dispatcher is handling, no run ever sends again and the attempts never change: the documented recovery does not happen. |
| `Dispatch.CrashStrands` | crates/application/cheetah-signal-application/src/command_dispatcher.rs:100-127 | Every operation that has a step once started can get there: a crash right after recording the attempt ends a run in such a state with the operation running and its command not sent. |
| `Dispatch.CrashAfterSendStrands` | crates/application/cheetah-signal-application/src/command_dispatcher.rs:124-127 | So does a crash between the accepted send and its marking, with the command sent once and never marked. |
| `CommandDispatchers.CommandDispatcher.SaveOperation` | crates/application/cheetah-signal-application/src/command_dispatcher.rs:216-224 | Succeeds exactly when the revision is the next one and the commit is applied and reported; an ambiguous commit stores the row and reports failure. |
| `CommandDispatchers.CommandDispatcher.Record` | crates/application/cheetah-signal-application/src/command_dispatcher.rs:100-113 | Is a move of the transition system; reaches the send exactly when no unsent attempt is stored, the step exists and the commit is applied. |
| `CommandDispatchers.CommandDispatcher.Deliver` | crates/application/cheetah-signal-application/src/command_dispatcher.rs:115-214 | From the owner lookup on it follows the transition system; it sends exactly when the owner holds the expected epoch and the bus accepts; the row, its attempt and the result are stated for every outcome of the two commits. |
| `CommandDispatchers.CommandDispatcher.Refuse` | crates/application/cheetah-signal-application/src/command_dispatcher.rs:128-214 | Nacking the attempt and then failing the operation is a trail of moves; the row and the result are stated for every outcome of either commit: unsent, nacked and running, or nacked and failed. |
| `CommandDispatchers.CommandDispatcher.Dispatch` | crates/application/cheetah-signal-application/src/command_dispatcher.rs:45-214 | One invocation is a trail of moves of the transition system, touches no other operation, and leaves status, attempts and result as stated for every outcome of its four commits, the lookup and the bus. |
| `CommandDispatchers.NothingLostDecides` | crates/application/cheetah-signal-application/src/command_dispatcher.rs:45-214 | With nothing lost the command is sent if and only if the stored operation is neither finished nor sent, has a step and no unsent attempt, the owner holds the expected epoch and the bus accepts; otherwise such an operation has failed with its attempt nacked. |
| `CommandDispatchers.RefusedForGood` | crates/application/cheetah-signal-application/src/command_dispatcher.rs:168-250 | A command refused with nothing lost is refused for good: the next invocation, whatever it meets, sends nothing and returns the failed operation as it is. |
| `Inbox.Reachable` | crates/application/cheetah-signal-application/src/inbox.rs:224-415 | The invariant of the receiving side holds in every state of every run with stale owner lookups, redelivery, forwarding and ambiguous commits. |
| `Inbox.CommittedAtMostOnce` | crates/application/cheetah-signal-application/src/inbox.rs:289-415 | The effects of one command are committed at most once, exactly when its row is stored, and no stored row is ever pending. |
| `Inbox.HandlerRunsOnEpochOwner` | crates/application/cheetah-signal-application/src/inbox.rs:237-268 | The handler only ever runs on the node to which the command's expected epoch was issued, however stale the lookups. |
| `Inbox.NothingIsLost` | crates/application/cheetah-signal-application/src/inbox.rs:228-287 | A command that arrived is still on some subject, has a stored row, or was terminated as undecodable or stale. |
| `Inbox.CopyLeavesForAReason` | crates/application/cheetah-signal-application/src/inbox.rs:332-374 | A copy leaves its subject only once a row is stored, by termination, or behind a later copy of the same command. |
| `Inbox.FinishedRowSilencesHandler` | crates/application/cheetah-signal-application/src/inbox.rs:300-330 | Once the row is stored and open transactions have ended, the handler never runs again and the row never changes, over any continuation. |
| `Inbox.DuplicateIsAcked` | crates/application/cheetah-signal-application/src/inbox.rs:300-330 | A delivery that finds the stored row is acked without running the handler or committing anything. |
| `InboxServices.InboxService.HandleDelivery` | crates/application/cheetah-signal-application/src/inbox.rs:224-287 | Handling one delivery is a trail of moves of the transition system; the copy stays exactly when the verdict is nak; the handler is called exactly for a decodable, owned, epoch-matching, unprocessed command; row, committed effects and verdict are stated for every outcome of the surroundings. |
| `InboxServices.VerdictIff` | crates/application/cheetah-signal-application/src/inbox.rs:224-415 | Over every outcome: terminated exactly if undecodable, stale, or failed for good under a reported commit; acked exactly if forwarded, already processed, or handled under a reported commit; effects committed exactly once if the handler's transaction is staged and its commit not lost, with the status its outcome calls for. |
| `InboxServices.HandledOnce` | crates/application/cheetah-signal-application/src/inbox.rs:300-374 | A message handled under a reported commit is acked when it comes again, and nothing more is committed for it. |
| `InboxServices.InboxService.Process` | crates/application/cheetah-signal-application/src/inbox.rs:289-415 | The transaction is a trail of moves; the handler runs exactly when the row could be inserted; no other message's row is touched; the row becomes accepted, duplicate or failed with the handler's outcome and the verdict follows it, for every outcome of begin, insert, completion and commit. |
| `Delivery.EndToEnd` | crates/application/cheetah-signal-application/src/command_dispatcher.rs:45-214 | Both sides composed: at most one accepted send, effects committed at most once and only after an attempt was stored, the handler only on the epoch's node, and an accepted command never lost. |
| `SimClock.FiresInOrder` | tools/gb28181-simulator/src/clock.rs:25-127 | However scheduling and firing interleave, nothing queued is due in the past, the clock never runs backwards and events fire in strict (due, sequence) order. |
| `SimClock.TimerWheel.Pop` | tools/gb28181-simulator/src/clock.rs:122-128 | Takes the least entry by due time and sequence and moves the clock to it; the clock assertion never fails. |
| `SimClock.TimerWheel.Schedule` | tools/gb28181-simulator/src/clock.rs:102-113 | Queues one entry with the next sequence number, clamping a past due time to now. |
| `SimFault.SweepIsExact` | tools/gb28181-simulator/src/fault.rs:97-214 | The sweep against the rules one by one: a frame is lost exactly when a drop rule fires at its turn; one that is not lost is delayed, duplicated or corrupted exactly when a rule of that kind fires at its turn. |
| `SimFault.LatencyGrows` | tools/gb28181-simulator/src/fault.rs:120-152 | A delay that fires adds its extra time and at most its jitter, a reordering four base latencies per place of its window, capped; no other rule adds anything. |
| `SimFault.FaultEngine.Traverse` | tools/gb28181-simulator/src/fault.rs:105-185 | The loop over the rules computes the sweep and consumes exactly its draws, also when a drop ends it early. |
| `SimFault.FaultEngine.constructor` | tools/gb28181-simulator/src/fault.rs:67-87 | The engine holds the faults of the scenario in order, SIP errors apart from the others. |
| `SimFault.FaultEngine.Apply` | tools/gb28181-simulator/src/fault.rs:97-214 | What arrives, the draws consumed and the counters of drops, delays, reorders, duplicates and corruptions are those of the sweep; every frame is dropped, delivered once or delivered twice. |
| `SimFault.FaultEngine.SipErrorFor` | tools/gb28181-simulator/src/fault.rs:218-230 | The injected status is that of the first error rule for the class whose draw fires; it lies between 300 and 699 and is counted. |
| `SimDevice.RegistrationIsEarned` | tools/gb28181-simulator/src/device.rs:154-186 | Registration is won only by a 2xx received while registering, announced exactly when it is won, and lost only by a new start; registering and registered exclude each other. |
| `SimDevice.RequestsAreEarned` | tools/gb28181-simulator/src/device.rs:117-242 | A step sends at most two messages and reports at most one event; any request that is not a REGISTER is a MESSAGE, sent only when registered or in answer to a request. |
| `SimDevice.RequestsAreAnswered` | tools/gb28181-simulator/src/device.rs:190-242 | Every request is answered finally exactly once, with success exactly for the methods a device serves; the catalog is sent exactly when it is asked for by name and can be encoded; the registration does not change. |
| `SimDevice.TimerBeats` | tools/gb28181-simulator/src/device.rs:117-150 | On its timer a registered device sends a keepalive and any other begins to register. |
| `SimDevice.Device.Step` | tools/gb28181-simulator/src/device.rs:109-242 | A step refines the pure reaction function on the device's state. |
| `SimPlatform.SuccessHasACause` | tools/gb28181-simulator/src/platform.rs:89-143 | At most one response; it is a 2xx only for an accepted REGISTER or a MESSAGE, and only an authorized REGISTER is accepted. |
| `SimPlatform.EveryRequestIsAnswered` | tools/gb28181-simulator/src/platform.rs:61-143 | Every request is answered exactly once: a REGISTER without credentials is challenged; with them, like any MESSAGE, it succeeds exactly if no error was drawn. |
| `SimPlatform.PlatformPeer.OnInbound` | tools/gb28181-simulator/src/platform.rs:61-143 | Refines the pure reply function; the registry changes only by an accepted REGISTER of the sender. |
| `SimHarness.WeightDrops` | tools/gb28181-simulator/src/harness.rs:93-151 | Replacing one queued event by boundedly many later ones lowers the sum of base^(time left) over the queue. |
| `SimHarness.RegisteredWereAccepted` | tools/gb28181-simulator/src/harness.rs:269-288 | If every registered device was accepted at least once, the number registered is at most the number of acceptances. |
| `SimHarness.TwoRoundTripsRegister` | tools/gb28181-simulator/src/device.rs:109-186 | From any state, start, challenge, authorized REGISTER and acceptance register any device in two round trips. |
| `SimHarness.ComingKept` | tools/gb28181-simulator/src/harness.rs:127-255 | Without faults, whatever event is processed, a device whose handshake fits into the time is registered or has the next message of its handshake queued, due at its fixed time. |
| `SimHarness.Harness.Send` | tools/gb28181-simulator/src/harness.rs:225-255 | Every message sent is counted and dropped, queued or queued twice; without faults it arrives once, unchanged, a base latency later; the balance of sent, dropped, duplicated, delivered and queued frames is kept. |
| `SimHarness.Harness.StepDevice` | tools/gb28181-simulator/src/harness.rs:177-184 | A device step keeps the truth of everything in flight, the report's ledger and the frame balance, and queues boundedly many later events. |
| `SimHarness.Harness.DeliverFrame` | tools/gb28181-simulator/src/harness.rs:186-223 | A delivered frame is parsed and routed; a corrupted one is only counted; the invariant holds again afterwards. |
| `SimHarness.Harness.RunStep` | tools/gb28181-simulator/src/harness.rs:153-175 | A scripted step sends exactly one request to every device that is registered and can be addressed. |
| `SimHarness.Harness.Seed` | tools/gb28181-simulator/src/harness.rs:104-112 | Establishes the run invariant: exactly one lifecycle timer per device. |
| `SimHarness.Harness.Process` | tools/gb28181-simulator/src/harness.rs:127-175 | Handling one event keeps the run invariant: truthful and punctual frames, one lifecycle timer per device, frames balanced, registered devices never reverting; it steps exactly the device concerned and, without faults, sends its answer. |
| `SimHarness.Harness.Tick` | tools/gb28181-simulator/src/harness.rs:93-102 | One turn of the loop continues exactly when the next event is within the duration; below the largest time every turn lowers the weight, at the largest time the loop never stops. |
| `SimHarness.Harness.Run` | tools/gb28181-simulator/src/harness.rs:93-102 | Every validated UDP scenario shorter than the largest time terminates; registered devices were accepted by the platform, their number equals the reported one and is at most the acceptances, and no frame is unaccounted for. On any network no device is registered that starts less than four latencies before the end; without faults every other device is, so that all are reported registered if the stagger leaves room for the handshake. |
| `MediaLife.SessionLife` | crates/domain/cheetah-domain/src/media_session.rs:340-595 | Between any two moments of any life of a session: one revision per move, generations count the bumps, every other move goes at least one stage further so that there are at most five, nothing follows the end, the owner epoch never changes, and the wish to stop is recorded before stopping and never withdrawn. |
| `MediaLife.BindingLife` | crates/domain/cheetah-domain/src/media_binding.rs:200-292 | Between any two moments of any life of a binding: one revision per move, session, node and epochs unchanged, dated by the last move, never back to an earlier era, nothing after the end, and released only after having been releasing. |
| `MediaLife.TaskLife` | crates/domain/cheetah-domain/src/operation.rs:544-624 | The media service begins and ends an operation, each at most once and in this order; the outcome is that of the end. |
| `Media.StepExplained` | crates/application/cheetah-signal-application/src/media_service_helpers.rs:9-50 | A saved transition together with its event keeps the tables equal to what strictly replaying the outbox yields. |
| `Media.StrayUnexplained` | crates/application/cheetah-signal-application/src/media_service_helpers.rs:9-50 | An event whose row was not saved can never be reconciled with the tables by a replay. |
| `MediaStore.UnitOfWork.SaveSession` | crates/domain/cheetah-domain/src/in_memory.rs:44-72 | A save is accepted only when the row is absent or its revision is exactly the previous one. |
| `MediaStore.UnitOfWork.SaveBinding` | crates/domain/cheetah-domain/src/in_memory.rs:44-72 | The same guard for bindings. |
| `MediaStore.UnitOfWork.SaveTask` | crates/domain/cheetah-domain/src/in_memory.rs:44-72 | The same guard for operations. |
| `MediaStore.UnitOfWork.AppendAndSaveSession` | crates/application/cheetah-signal-application/src/media_service_reconciliation.rs:455-459 | On success row and event agree; a refused save leaves the event in the transaction and makes it unexplainable. |
| `MediaStore.UnitOfWork.SaveAndAppendSession` | apps/cheetah-signaling/src/gb_event_sink/media_session.rs:26-54 | Row and event change together or not at all. |
| `MediaStore.ElsewhereIsGood` | crates/application/cheetah-signal-application/src/media_service_command.rs:47-72 | Whatever lawful transitions other writers commit between two transactions, the outbox keeps explaining the tables. |
| `MediaDriver.HandleMediaSessionEvent` | apps/cheetah-signaling/src/gb_event_sink/media_session.rs:60-245 | On every path the outbox explains the tables; a handled event takes the session exactly where it asks, one revision and one event per transition, with the envelope last; on working storage only an over-long reason stops it. |
| `MediaDriver.WishIsGranted` | apps/cheetah-signaling/src/gb_event_sink/media_session.rs:60-245 | Where an event leads: a start to active unless the session is stopping or over, a stop to stopped, a failure to failed, a session that is over nowhere; the same event again changes nothing. |
| `MediaCommands.ExecuteMediaCommand` | crates/application/cheetah-signal-application/src/media_service_command.rs:18-84 | The operation is started under its own commit before the node is asked; succeeds on working storage exactly for a pending operation. |
| `MediaCommands.DispatchStart` | crates/application/cheetah-signal-application/src/media_service_command_start.rs:21-301 | On every path the outbox explains the tables; on working storage the answer is applied if and only if the freshly read rows allow it, and then session, binding and operation reach the states of that answer and no other row changes. |
| `MediaCommands.ApplyCompleted` | crates/application/cheetah-signal-application/src/media_service_command_start.rs:83-150 | The two session transitions of a synchronous start are saved one by one and told by one event each. |
| `MediaCommands.ApplyAccepted` | crates/application/cheetah-signal-application/src/media_service_command_start.rs:151-230 | An accepted or unknown start leaves the session inviting, the binding active and the operation running. |
| `MediaCommands.ApplyRefused` | crates/application/cheetah-signal-application/src/media_service_command_start.rs:231-296 | A refused start fails session, binding and operation together. |
| `MediaCommands.DispatchStop` | crates/application/cheetah-signal-application/src/media_service_command.rs:89-459 | As for start; in particular a refusal is recorded if and only if neither session nor binding is already terminal. |
| `MediaCommands.StopCompleted` | crates/application/cheetah-signal-application/src/media_service_command.rs:153-262 | A completed stop ends session and binding from any state, leaving terminal ones exactly as they were. |
| `MediaCommands.StopAccepted` | crates/application/cheetah-signal-application/src/media_service_command.rs:270-363 | An accepted or unknown stop records the intent once and leaves the operation running. |
| `MediaCommands.StopRefused` | crates/application/cheetah-signal-application/src/media_service_command.rs:385-444 | Fails without any committed change if session or binding is terminal, since their unchanged rows are saved again. |
| `MediaCallbacks.AfterIsExplained` | crates/application/cheetah-signal-application/src/media_service_callback.rs:34-287 | After any callback the outbox explains the tables as it did before. |
| `MediaCallbacks.Idempotent` | crates/application/cheetah-signal-application/src/media_service_callback.rs:34-156 | Applying a callback twice leaves the same tables and outbox as applying it once, for every callback and every state. |
| `MediaCallbacks.TerminalAbsorbs` | crates/application/cheetah-signal-application/src/media_service_callback.rs:172-287 | A callback never changes a terminal session, binding or operation, and no row appears or disappears. |
| `MediaCallbacks.TargetRows` | crates/application/cheetah-signal-application/src/media_service_callback.rs:172-287 | Revisions grow by exactly the number of transitions; every other row is untouched. |
| `MediaCallbacks.StopOfActiveSessionIsLost` | crates/application/cheetah-signal-application/src/media_service_callback.rs:221-240 | A stop callback for an active session, though it passes every fence, changes nothing. |
| `MediaCallbacks.HandleMediaEvent` | crates/application/cheetah-signal-application/src/media_service_callback.rs:34-150 | Applied exactly under the listed fences and states. Then, by kind: a start activates session and binding and the operation succeeds; a stop ends the session, releases a releasing binding and the operation succeeds unless a reason was given; a failure fails whatever is not over. A late callback changes nothing. |
| `MediaCallbacks.ApplyStarted` | crates/application/cheetah-signal-application/src/media_service_callback.rs:172-210 | Prepares the rows of a start, saving the intermediate state; the operation succeeds. |
| `MediaCallbacks.ApplyStopped` | crates/application/cheetah-signal-application/src/media_service_callback.rs:212-254 | Prepares the rows of a stop, two transitions for one save where the session is active or the binding in use; the operation fails exactly if a reason was given. |
| `MediaCallbacks.ApplyFailed` | crates/application/cheetah-signal-application/src/media_service_callback.rs:256-290 | Fails session and binding unless they are over; the operation fails. |
| `MediaMigration.ConvergeActive` | crates/application/cheetah-signal-application/src/media_service_reconciliation_support.rs:22-75 | On working storage succeeds exactly for a settling session whose rows, where they must change, are still those that were read; a failure leaves the outbox unexplainable. |
| `MediaMigration.FailSession` | crates/application/cheetah-signal-application/src/media_service_reconciliation.rs:475-497 | Fails session and binding once each and touches no other row. |
| `MediaMigration.SettleReconnect` | crates/application/cheetah-signal-application/src/media_service_reconnect.rs:197-372 | The outbox still explains the committed tables if and only if the node refused or no other writer changed the session (unless it is already active) or the new binding while the node was being asked. Undisturbed, the operation succeeds, stays running if the outcome is unknown, and fails if the node refused. |
| `MediaMigration.EarlyCallbackRaces` | crates/application/cheetah-signal-application/src/media_service_callback.rs:182-202 | A started callback that arrives before the answer is such a change. |
| `MediaMigration.ReplaceBinding` | crates/application/cheetah-signal-application/src/media_service_reconnect.rs:48-163 | The old binding is failed and a fresh binding, in the session's owner epoch, and its operation are created in one commit, or nothing is. |
| `MediaMigration.Reconnect` | crates/application/cheetah-signal-application/src/media_service_reconnect.rs:26-376 | Undisturbed, the session moves exactly when the node does not refuse; then it is active and bound to the offered node. |
| `MediaMigration.MigrateOrFail` | crates/application/cheetah-signal-application/src/media_service_reconciliation.rs:500-703 | Undisturbed, it never errs; the old binding is terminal, other sessions keep their rows, new bindings are the session's own; a moved session is active in the next generation and bound to the offered node, any other is failed, except that a refusal too long to be recorded leaves its state as it was. |
| `MediaReconcile.ReleaseBinding` | crates/application/cheetah-signal-application/src/media_service_reconciliation.rs:448-473 | The binding ends released and the session stopped or stopping, nobody else's row changing. |
| `MediaReconcile.Repair` | crates/application/cheetah-signal-application/src/media_service_reconciliation.rs:233-281 | A session on a listed node gets the disposition its rows and the node's report call for, with its effect on session and binding. |
| `MediaReconcile.Attend` | crates/application/cheetah-signal-application/src/media_service_reconciliation.rs:340-410 | A session on a missing node gets the disposition its rows, the node's class and the grace period call for, with its effect on session and binding. |
| `MediaReconcile.Collect` | crates/application/cheetah-signal-application/src/media_service_reconciliation.rs:128-163 | Over any paging that lists every session once, the snapshot holds each session with a live binding exactly once, sorted by what is to be done. |
| `MediaReconcile.LedgerStep` | crates/application/cheetah-signal-application/src/media_service_reconciliation.rs:165-413 | Dealing with one more session keeps the account of decisions, counters, outcomes and untouched rows. |
| `MediaPass.Reconcile` | crates/application/cheetah-signal-application/src/media_service_reconciliation.rs:116-446 | A successful pass gives every session with a live binding exactly one disposition, and the counters equal the numbers of dispositions; on working storage without other writers it always succeeds, is a pass in the sense of the lemmas below, and keeps the outbox explaining the tables. |
| `MediaVerdicts.PassDecides` | crates/application/cheetah-signal-application/src/media_service_reconciliation.rs:186-413 | A pass over a wanted session with one live binding. On a listed, unprotected node that is not draining: reported at its own epoch it is active where it is, both rows unchanged if it was; reported at another epoch both rows fail. Draining or not reported: moved, or failed, with its binding over. On any other node by what the second lookup finds: moved if the node is gone or left with its lease run out; left alone if its lease holds and it left or is healthy; else marked when active and bound, left alone until the grace is over, moved after it or when not active. |
| `MediaVerdicts.EndedIsReleased` | crates/application/cheetah-signal-application/src/media_service_reconciliation.rs:448-473 | A pass over a session to be ended releases its binding and stops it, or takes it to stopping if it was active. |
| `MediaVerdicts.HealthyIsLeftAlone` | crates/application/cheetah-signal-application/src/media_service_reconciliation.rs:247-281 | Over any number of passes a wanted, active, bound session whose node keeps reporting it at its epoch keeps both rows exactly as they are. |
| `MediaPass.FirstPass` | crates/application/cheetah-signal-application/src/media_service_reconciliation.rs:186-317 | Every session on a listed, unshielded node is dealt with, and exactly those. |
| `MediaPass.SecondPass` | crates/application/cheetah-signal-application/src/media_service_reconciliation.rs:319-413 | Every remaining session is dealt with after its node is looked up again. |
| `MediaPass.OnePass` | crates/application/cheetah-signal-application/src/media_service_reconciliation.rs:359-406 | An active session on a registered but unhealthy node is found with its only live binding, gets the disposition called for and its effect, and unless migrated still lives on that binding. |
| `MediaPass.GraceIsKept` | crates/application/cheetah-signal-application/src/media_service_reconciliation.rs:371-392 | Over any number of passes: marked by the first, left alone by every pass within the grace period; the first pass after it ends the binding, and the session is active on the node that took it or failed, active without a node exactly if a refusal could not be recorded; whatever happens to other sessions in between. |
| `FragmentKeys.FragmentKey` | apps/cheetah-signaling/src/gb_catalog_buffer.rs:52-59 | The name of a fragment does not depend on the order in which the map yields its keys. |
| `FragmentKeys.ListingIsUnique` | apps/cheetah-signaling/src/gb_catalog_buffer.rs:56-58 | A set of keys has only one sorted listing. |
| `FragmentKeys.SameNameSamePieces` | apps/cheetah-signaling/src/gb_catalog_buffer.rs:49-59 | For any two sets of keys, empty ones and commas included: they share a name if and only if their keys, in order, consist of the same comma-separated pieces. |
| `FragmentKeys.PlainKeysTellApart` | apps/cheetah-signaling/src/gb_catalog_buffer.rs:49-59 | Sets of comma-free keys share a name if and only if they are equal, or one is empty and the other is the single key `empty`. |
| `FragmentKeys.UnmistakableIff` | apps/cheetah-signaling/src/gb_catalog_buffer.rs:49-59 | No other set has the name of a set if and only if it is a single key that is not `empty` and has no comma at which the part before sorts strictly before the part after. |
| `FragmentKeys.CommasCollide` | apps/cheetah-signaling/src/gb_catalog_buffer.rs:49-59 | Any two keys, one sorting before the other, share their name with the one key that joins them by a comma. |
| `FragmentBuffers.ReceivedNum` | apps/cheetah-signaling/src/gb_catalog_buffer.rs:105-110 | The saturating sum is the capped true sum, whatever the order. |
| `FragmentBuffers.Deduplicate` | apps/cheetah-signaling/src/gb_catalog_buffer.rs:170-174 | The batch has exactly the keys that occur, and each key its last item. |
| `FragmentBuffers.FragmentBuffer.IsComplete` | apps/cheetah-signaling/src/gb_catalog_buffer.rs:112-149 | Decides completeness by distinct items or by exactly reached declared counts. |
| `FragmentBuffers.FragmentBuffer.Accumulate` | apps/cheetah-signaling/src/gb_catalog_buffer.rs:161-270 | In every state both size limits hold and every stored transfer is incomplete; only the transfer addressed changes, as the absorbing function says. |
| `FragmentBuffers.NotTakenIn` | apps/cheetah-signaling/src/gb_catalog_buffer.rs:161-215 | A response that declares nothing is emitted at once; one that declares too much, finds no room or begins with too many items changes nothing; one item too many ends a transfer without a result. |
| `FragmentBuffers.TakenIn` | apps/cheetah-signaling/src/gb_catalog_buffer.rs:195-270 | Any other fragment adds its items; the transfer is then emitted and forgotten, or kept and dated anew, and emitted if it has as many items as it declared. |
| `FragmentBuffers.FragmentBuffer.Evict` | apps/cheetah-signaling/src/gb_catalog_buffer.rs:272-285 | Exactly the transfers idle for longer than the time to live go; the limits still hold. |
| `Reassembly.CompleteIffAll` | apps/cheetah-signaling/src/gb_catalog_buffer.rs:112-149 | A transfer holding some of the parts is complete exactly when it holds all of them. |
| `Reassembly.SilentUntilLast` | apps/cheetah-signaling/src/gb_catalog_buffer.rs:61-75 | For any order of arrival with any repetitions nothing is emitted while a part is missing. |
| `Reassembly.LastEmitsUnion` | apps/cheetah-signaling/src/gb_catalog_buffer.rs:61-75 | The arrival that completes the set emits exactly the union of all parts, and the transfer is forgotten. |
| `Reassembly.LastArrivalDates` | apps/cheetah-signaling/src/gb_catalog_buffer.rs:230-285 | A transfer that is kept is dated by its last arrival, whatever arrived before. |
| `AdmissionSink.Conserved` | apps/cheetah-signaling/src/gb_event_sink/mod.rs:163-355 | In every sink the operations can produce, the events given to it are, as a multiset, those in the channel or the worker's hand, those finished, the queued dead letters and those gone; admitted ones are finished in the order sent; and the code's counters satisfy the equations between emitted, coalesced, shed, admitted, dead-lettered, redriven, exhausted, displaced, queued and dropped. |
| `AdmissionSink.AdmissionState.Emit` | apps/cheetah-signaling/src/gb_event_sink/mod.rs:222-262 | An event is coalesced exactly when its key is remembered, and then an event with that key is on its way; only low-priority events are shed, only others dead-lettered; an admitted one is appended to what is in flight; with the channel open and room in it only overload keeps a low-priority event out. |
| `AdmissionSink.AdmissionState.DeadLetter` | apps/cheetah-signaling/src/gb_event_sink/mod.rs:275-282 | A full queue loses exactly its oldest entry, and that is accounted for. |
| `AdmissionSink.AdmissionState.Redrive` | apps/cheetah-signaling/src/gb_event_sink/mod.rs:290-336 | While the channel is open the chosen number of dead letters leaves the queue and reaches the channel in order, even if the worker receives meanwhile; none is put back or given up. |
| `AdmissionSink.AdmissionState.Environment` | apps/cheetah-signaling/src/gb_event_sink/mod.rs:179-186 | A receive at any moment keeps the pending count equal to the channel length plus the event just taken. |
| `AdmissionSink.AdmissionState.Observe` | crates/foundation/cheetah-signal-types/src/admission/backlog.rs:60-86 | Over the whole sequence of observations: overloaded if and only if some observation reached the high watermark and no later one was at the low watermark or below. |
| `AdmissionSink.AdmissionState.Remember` | crates/foundation/cheetah-signal-types/src/admission/coalescer.rs:41-52 | A duplicate is reported exactly for a remembered key; the limit on remembered keys holds. |
| `AdmissionSink.AdmissionState.BeginWork` | apps/cheetah-signaling/src/gb_event_sink/mod.rs:179-188 | Taking the received event off the pending count keeps every invariant; the count never underflows. |
| `AdmissionSink.AdmissionState.FinishWork` | apps/cheetah-signaling/src/gb_event_sink/mod.rs:200-208 | The event in hand becomes the last finished one; releasing its key leaves every other remembered key represented. |
| `RateLimiters.RateLimiter.Check` | crates/api/cheetah-http-api/src/rate_limit.rs:101-160 | Refines the step function; the bucket map never exceeds its bound; a limiter that is switched off admits everything and changes nothing. |
| `RateLimiters.RateLimiter.CleanUp` | crates/api/cheetah-http-api/src/rate_limit.rs:112-130 | Drops exactly the stale buckets; the loop that would drop the oldest never has anything to do. |
| `RateLimiters.RateLimiter.MakeRoom` | crates/api/cheetah-http-api/src/rate_limit.rs:132-140 | At most one bucket is dropped, and only to keep the bound. |
| `RateLimits.CleanupIsNeutral` | crates/api/cheetah-http-api/src/rate_limit.rs:112-116 | If the capacity is at most sixty times the refill rate, every decision about a key never dropped for room equals that of a limiter that keeps all buckets. |
| `RateLimits.CleanupIsNotNeutral` | crates/api/cheetah-http-api/src/rate_limit.rs:112-116 | If it is more, there is a run, for every such configuration, in which cleanup changes a decision. |
| `RateLimits.WindowPaid` | crates/api/cheetah-http-api/src/rate_limit.rs:142-159 | Tokens left plus requests admitted since a window began never exceed capacity plus refill, on the limiter that keeps all buckets. |
| `RateLimits.QuotaHolds` | crates/api/cheetah-http-api/src/rate_limit.rs:101-160 | In any window a key never dropped for room is admitted at most capacity plus rate times the window's length. |
| `RateLimits.PatientIsAdmitted` | crates/api/cheetah-http-api/src/rate_limit.rs:101-160 | Nobody is refused without need: in any window a request is admitted if, with it, no more have been admitted than the window refilled, up to the capacity; for every configuration and however buckets are dropped. |
| `RateLimits.SwappedTimesBreakTheQuota` | crates/api/cheetah-http-api/src/rate_limit.rs:106-110 | Times are read before the lock: for every limiting configuration there is a run, not in the order of its times, that admits one more than the capacity in a window of no length. |
| `RateLimits.TimesIsProduct` | crates/api/cheetah-http-api/src/rate_limit.rs:147-151 | The refill function is the product of rate and time. |
| `EventCaches.EventCache.Push` | crates/api/cheetah-http-api/src/event_cache.rs:57-102 | The buffer is exactly the last pushes, at most the capacity, with consecutive cursors; running out of cursors starts over; an undecodable envelope changes nothing. |
| `EventCaches.EventCache.EventsAfter` | crates/api/cheetah-http-api/src/event_cache.rs:115-135 | Returns, in order, exactly the buffered events after the cursor whose tenant, device and type are those asked for. |
| `EventCaches.SelectIsMatching` | crates/api/cheetah-http-api/src/event_cache.rs:115-135 | Reading the buffer equals filtering everything ever pushed from the later of cursor and eviction point. |
| `EventCaches.ExactlyOnce` | crates/api/cheetah-http-api/src/handlers/events.rs:76-115 | For any start cursor and any interleaving of pushes, polls and wakes a consumer gets events at most once and in order, and once woken it has got every matching one since the cursor it reads from if and only if none left the cache unseen. |
| `EventCaches.OriginIsStart` | crates/api/cheetah-http-api/src/handlers/events.rs:98-109 | The cursor it reads from is the one it asked for, unless it was woken when something, but less than it asked to skip, had been pushed; then it is the beginning. |
| `EventCaches.PromptMissesNothing` | crates/api/cheetah-http-api/src/handlers/events.rs:76-115 | A consumer that asks for an existing cursor and never lets more than the capacity be pushed between two polls gets every matching event, once and in order. |
| `OperationReconcilers.StatusCursor.Next` | crates/application/cheetah-signal-application/src/operation_reconciler.rs:133-170 | Hands out the next of what remains or reports none; an empty page loses nothing and makes progress. |
| `OperationReconcilers.Reconcile` | crates/application/cheetah-signal-application/src/operation_reconciler.rs:50-107 | Over any finite paging, empty pages included: it ends, stays within the budget, examines a prefix of each listing and all of it unless the budget runs out, times out exactly the due ones examined, and with non-empty pages keeps the two sides within one of each other until one is exhausted. |
| `OperationReconcilers.DueIsTimedOut` | crates/application/cheetah-signal-application/src/operation_reconciler.rs:80-101 | Among the operations examined on a listing exactly those of its status whose deadline has come are timed out. |
| `OperationPaging.ChainCovers` | crates/storage/cheetah-storage-api/include/list_impl.rs:22-56 | Pages fetched by cursor from a store that changes only at or below the cursor list every operation of the first store exactly once. |
| `OperationPaging.TimingOutMovesNothing` | crates/application/cheetah-signal-application/src/operation_reconciler.rs:83-99 | The reconciler's own updates move nothing behind the cursor of either listing. |
| `OperationPaging.UnmovedChains` | crates/application/cheetah-signal-application/src/operation_reconciler.rs:64-104 | Nor do any number of them between two fetches. |
| `OperationTimeouts.Repository.List` | crates/storage/cheetah-storage-api/include/list_impl.rs:22-43 | A page is the first rows behind the cursor in ascending order, and a next cursor is given exactly when rows remain. |
| `OperationTimeouts.StatusCursor.Next` | crates/application/cheetah-signal-application/src/operation_reconciler.rs:133-170 | On rows that the run itself is changing: hands out each row that had the status at first once, as it was, and nothing only when all have been handed out. |
| `OperationTimeouts.Reconcile` | crates/application/cheetah-signal-application/src/operation_reconciler.rs:50-107 | Fetching its pages from the rows it is changing, with any page size: it ends, no save is refused, every row is as it was or was pending or running with its deadline come and has timed out one revision on, at most the budget of them; with budget to spare no pending or running row is left whose deadline has come, every such row having been examined once. |
| `Importers.Importer.Sort` | apps/cheetah-migration-tool/src/importer.rs:100-155 | Sorts the records as the declarative fold does, with exactly one event per device at the same position. |
| `Importers.Importer.BuildParentProtocols` | apps/cheetah-migration-tool/src/importer/parents.rs:12-27 | Exactly the parents declared by a device-like record with a parseable protocol have one, and it is that of the last such record. |
| `Importers.ParentKnown` | apps/cheetah-migration-tool/src/importer.rs:144-152 | The protocol of a parent is that of its last declaration; a parent nobody declares is taken to speak the channel's own protocol, or else GB28181. |
| `Importers.SortedHolds` | apps/cheetah-migration-tool/src/importer.rs:100-155 | The devices are exactly what the chosen device-like records map to, the pending channels exactly the chosen channel records, each with its parent's protocol. |
| `Importers.ParentDeviceResolver.Resolve` | apps/cheetah-migration-tool/src/importer/parents.rs:43-61 | The cached answer is always what the table would say. |
| `Importers.Importer.FlushDevices` | apps/cheetah-migration-tool/src/importer.rs:287-374 | Success, tables, outbox and counters are those of handling the devices one after the other, for every chunk size. |
| `Importers.Importer.FlushChannels` | apps/cheetah-migration-tool/src/importer.rs:376-521 | The same for channels, with one resolver across all chunks. |
| `Importers.Importer.Import` | apps/cheetah-migration-tool/src/importer.rs:85-285 | Whether the import succeeds, what it writes and what it counts do not depend on the checkpoint interval; an interval of zero is an error that changes nothing. |
| `Importers.RecordsAddUp` | apps/cheetah-migration-tool/src/importer.rs:94-155 | Records read equal imported, existing, conflicting, invalid, filtered and ignored ones together. |
| `Importers.DeviceWriteMeans` | apps/cheetah-migration-tool/src/importer.rs:302-368 | A device is written exactly if it is new and its id free, or exists, is not to be skipped and the rules update it; then its row is that of the rules and one event tells it; otherwise nothing changes. |
| `Importers.ChannelWriteMeans` | apps/cheetah-migration-tool/src/importer.rs:395-515 | The same for channels, which are invalid exactly if the parent's name is, the parent is unknown, or the rules make nothing of the record. |
| `Importers.OneEventEach` | apps/cheetah-migration-tool/src/importer.rs:287-521 | An import tells exactly one event for each record it counts as imported. |
| `Importers.ExistingIsUpdated` | apps/cheetah-migration-tool/src/importer.rs:302-368 | Without skipping, a device that exists, is imported once and may be updated ends with the row the rules give it, and that is told. |
| `Importers.RerunWritesNothing` | apps/cheetah-migration-tool/src/importer.rs:302-368 | Running a finished import again, skipping what exists, succeeds and writes neither row nor event, whatever the first run did with existing rows. |

## Left out

- Expiry of processed-message records, and the in-process bus whose ack does nothing.
- Step statuses, results, errors and timestamps of operations other than those named; 32-bit and 64-bit overflow of revisions, `CSeq` and `SN` counters.
- SIP, XML, SOAP, JSON, CSV codecs and the TCP half-packet fault; XML and URI failures of one message are one flag, `encodable`.
- Fault probabilities: every draw is a free choice, so nothing is said about rates; the generators of the rules are one numbered stream of draws.
- SimHarness.Harness.Run: the transcript, its hash and the percentile figures of the report are not modelled.
- Texts of errors: only whether they are within the length limits of the aggregates.
- Creation of sessions and the request side of start and stop; playback control commands; forced cleanup of a node.
- The clock is read once per handler call where the code reads it several times; no property depends on the difference.
- An outbox append that fails on its own, apart from the save beside it.
- MediaPass.Reconcile: orphaned sessions and the counters of nodes and reported sessions are not modelled; other writers are considered for the answer to a migration, not between all commits of a pass.
- MediaReconcile.Move: says nothing about where a migration that failed half-way leaves the session on storage that fails.
- Reassembly.SilentUntilLast: the buffer has room for the transfer and does not evict it meanwhile.
- Reassembly.LastEmitsUnion: the buffer has room for the transfer and does not evict it meanwhile.
- The per-tenant checks and headers around the rate limiter; rounding of its arithmetic.
- `EventCache::latest_cursor`, `watch`, and consumers across a cursor overflow.
- The importer's dry run, its action items, secrets and per-kind counts; errors that abort an import half-way, after which what is committed does depend on the checkpoint interval.
- Process assembly, HTTP and gRPC servers, authentication, SQL, message buses, plugin host, leases and assignment.
