# Verified model of the OCPP proxy

The proxy sits between one or more OCPP 1.6 chargers and a Central System. It
forwards every frame byte for byte, publishes what it sees over MQTT, and lets a
controller send a few Calls of its own to a charger. This project models its
stateful parts in Dafny and proves what they keep over every run:

* the charger session (`Session*.dfy`, `CommandDesk.dfy`, `LocalCalls.dfy`,
  `Forwarding.dfy`, `Commands.dfy`): one task multiplexing charger frames, Central
  System frames, proxy commands, timers, cancellation, upstream loss and reconnect;
* the non-blocking MQTT publisher (`Publisher*.dfy`);
* the retained snapshot as a fold over the message history, and its durable copy
  (`Snapshot.dfy`, `SnapshotStore.dfy`);
* the connection registry and the command router under every interleaving of
  connection handlers (`Registry.dfy`);
* the arithmetic and naming these rest on (`Backoff.dfy`, `LimitPolicy.dfy`,
  `Topics.dfy`), and shared sequence lemmas (`Prelude.dfy`).

## How the model is built

Each stateful component appears twice. A value model (`State`, `Event` or `Input`,
`Step`, `Run`) says what one step does; the theorems are about `Run` from the
initial state, for every sequence of inputs. A class with the program's own fields
then updates them in place, and every method is proved to change its `View()`
exactly as the value model's step does. An arm of the session's select loop runs
to completion, so one arm is one step. An input the loop could not take at that
moment leaves the state unchanged.

Logs (`taken`, `results`, `sent`, `read`, `delivered`, `heard`, `line`, `queued`, `handed`,
`evicted`, `reapplied`, `durable`, `displaced`, `routedInOrder`) have no counterpart in the program; they
are what the theorems speak about. A tag or source number on a message is its
position in such a log.

Assumptions, each visible in a type or a `requires`:

* Times are real milliseconds of one clock that never runs back. The program reads
  a wall clock and a monotonic clock.
* A text is a parsed frame (kind, id, action, answer status, raw text) or malformed
  text; parsing itself is not part of this model. Rust's floats become reals plus
  one value for "not a finite number".
* A send that fails delivers nothing.
* The MQTT request channel is a count of free slots that the environment refills.
* For the reconnection window only: sleeps are exact, and a connection attempt ends
  within the connect timeout.
* For the durable copy only: renaming is atomic, synced data survives a crash, so does
  a rename that has returned (the program does not sync the directory), and
  serialisation round-trips every map whose numbers a float can hold (which numbers
  those are is a parameter, and every limit folded in is one of them).

## Where the code differs from its documentation

The model follows the code. Each difference is a lemma; where it concerns a run, a
run from the start shows it.

* The README of the proxy (`README.md:220-222`) says a response whose id carries
  the proxy's prefix is consumed. It is consumed only while its Call is in flight;
  a late one reaches the Central System
  (`SessionUpstream.LateAnswersReachTheCentralSystem`,
  `SessionExamples.LateAnswerIsDelivered`).
* What a charger sends while a reconnect is being retried is read and discarded
  (`SessionUpstream.FateIsDecidedOnReading`,
  `SessionExamples.TextWhileRetryingIsDiscarded`).
* A queued limit command that a full queue drops is reported as superseded by a
  newer one, also when there is none (`SessionExamples.OverflowCallsALimitSuperseded`).
  That is exactly when the label is wrong
  (`SessionResults.SupersededIsWrongIffALimitIsDropped`,
  `SessionResults.OtherwiseANewerLimitWasTaken`).
* A command that lands in the inbox after the teardown drain gets no result
  (`SessionCommands.LateCommandsAreLost`, `SessionExamples.LateCommandIsNeverReported`);
  one that lands there before gets one
  (`SessionResults.ReportedIffItArrivesBeforeTheDrain`).
* "Last one wins" (`README.md:223-224`) counts a limit the publisher sends again as
  new. A limit a controller gave meanwhile is lost to the older one exactly when it is
  still queued as the session takes that one
  (`SessionResults.UserLimitLostIffAReapplyIsTaken`,
  `SessionExamples.ReapplyOverridesTheUser`).
* Another StopTransaction with no start in between resets the delivered energy to
  unknown (`Snapshot.EnergyIsKnownIffBothReadingsAre`,
  `Snapshot.SecondStopForgetsTheEnergy`).
* The registry and the router are locked separately, so a displaced handler can
  register with the router after its successor; once it cleans up, the live session
  has no route for commands (`Registry.LiveSessionCanLoseItsRoute`;
  `Registry.RouterReachesLastRegistrant` says exactly when). Generations are drawn
  outside the registry lock, so the theorems do not say the largest one wins.
* An accepted limit is a fixpoint of the policy for every request exactly when the
  floor, rounded to a tenth, is not strictly between 0 and the floor
  (`LimitPolicy.StableIffFloorSurvivesRounding`). The configuration check admits
  other floors: with 6.04 A a re-apply turns a running limit into a pause
  (`LimitPolicy.ReapplyCanPause`).
* A limit stays suspended from re-applying after any later limit command that was
  not accepted (`Snapshot.StandingIffLatestResultAccepted`,
  `Snapshot.RefusalSuspendsTheStandingLimit`).
* `online` is said to come before everything else. If a ConnAck finds no free slot and
  the snapshots queued behind `online` fill the buffer, `online` is evicted and the
  connection is never announced
  (`PublisherEvents.OnlineIsLostIffSnapshotsFillTheBuffer`).
* The count of flushed messages leaves out the part of the backlog that is handed over
  together with `online`, and no flush is announced if that is all of it
  (`PublisherReconnect.ConnAckStartsTheCount`).
* A backlog needs one tick more than it has messages while the command subscription
  is still owed, because the subscription takes the first free slot
  (`PublisherReconnect.BacklogGoneIffEnoughFreed`,
  `PublisherReconnect.OneTickPerMessageIsNotEnough`).
* The publisher's buffer outgrows its configured size by one message at each ConnAck
  that finds it full and the channel without a slot, and by nothing else
  (`PublisherRuns.BufferOutgrowsIff`, `PublisherRuns.BoundIsReached`).
* The Central System's own Call also stops holding the line when the charger reuses
  that Call's id for a Call of its own (`SessionLine.CentralCallsGoFirst`,
  `SessionExamples.ReusedIdFreesTheLine`).

## Model

| member | source | states |
|---|---|---|
| `SessionCommands.CommandsAreConserved` | src/session.rs:617-713 | in every reachable state, the multiset of requests taken from the inbox is the multiset reported plus those queued plus the one in flight |
| `SessionCommands.EveryTakenCommandIsReported` | src/session.rs:352-389 | after teardown every request taken has exactly one result, and of all that arrived only those still in the inbox have none |
| `SessionCommands.LateCommandsAreLost` | src/session.rs:379-389 | once drained, a session takes and reports nothing more, whatever arrives |
| `SessionResults.ReportedIffItArrivesBeforeTheDrain` | src/session.rs:352-389 | over every run that drains, a command that arrives has at least as many results in the end as it had arrived times exactly if the session had not drained when it arrived |
| `SessionCommands.QueueIsCoalesced` | src/command.rs:708-730 | in every reachable state the queue is within capacity, holds at most one limit command, keeps arrival order, and a queued limit command is the newest one taken |
| `SessionCommands.LastLimitWins` | src/session.rs:629-652 | any limit command sent was at that moment the newest limit command the session had taken |
| `SessionCommands.UniqueIdsAreDistinct` | src/command.rs:751-760 | no two Calls sent in a session carry the same id |
| `SessionCommands.EveryUniqueIdFits` | src/command.rs:751-760 | every id sent is built from the clock and its own sequence number, and has at most 36 characters for 13-digit milliseconds and 16-digit sequence numbers |
| `SessionCommands.AnswersReportTheirOwnRequest` | src/session.rs:457-471 | a result that came from an answer reports the one request whose own Call carried the answered id |
| `SessionResults.SupersededIsWrongIffALimitIsDropped` | src/session.rs:629-637 | over every run, a step reports some request superseded that is still the newest limit taken exactly if it takes a command that is not a limit into a full queue whose oldest entry is a limit |
| `SessionResults.OtherwiseANewerLimitWasTaken` | src/session.rs:629-637 | in every other case a request reported superseded was the newest limit taken until this very step took another limit command |
| `SessionResults.EveryRequestIsReportedInTime` | src/session.rs:661-713 | once a tick has come a timeout after a request was issued and another tick a timeout after that one, the request has at least as many results as it had been taken times at the first tick |
| `SessionResults.TickLeavesOnlyYoung` | src/command.rs:788-810 | after a tick every queued request was queued before and is younger than the timeout |
| `SessionReasons.EveryResultHasItsReason` | src/session.rs:629-713 | over every run each result any input adds has its reason: a status derived from an answer is the one that answer means for the command, and Invalid, Superseded, Rejected, Timeout and NotConnected each say what befell that request at that moment |
| `SessionReasons.EveryAnswerIsReported` | src/command.rs:625-676 | over every run an answer to the Call in flight is reported at once, for the request of that Call, with the status it means for the command |
| `SessionSending.NothingWaitsOnAClearLine` | src/session.rs:745-816 | over every run, after each tick, command taken, answer consumed or frame relayed the session is closing, or a Call is in flight, or a Central System Call younger than the grace waits, or the queue is empty |
| `SessionSending.FirstPermittedGoesOut` | src/session.rs:768-815 | over every run, what those inputs send is the first permitted request of the queue, those before it are reported invalid in order, and a charger that is gone makes it NotConnected and the session close |
| `SessionExamples.OverflowCallsALimitSuperseded` | src/session.rs:629-637 | a run from the start in which the only limit command ever taken is reported superseded |
| `SessionExamples.LateCommandIsNeverReported` | src/session.rs:379-389 | a run from the start after which a command sits in the inbox of a drained session, and no later input gives it a result |
| `SessionResults.LimitIsTheUsersIffNotAReapply` | src/mqtt.rs:775-803 | in every reachable state a queued limit command, and any sent one when it was sent, is the newest that came from a controller exactly if it is not a re-applied one |
| `SessionResults.UserLimitLostIffAReapplyIsTaken` | src/mqtt.rs:775-803 | over every run, a controller's limit is reported superseded in favour of a re-applied one exactly if the session takes a re-applied limit while a controller's is queued |
| `SessionExamples.ReapplyOverridesTheUser` | src/mqtt.rs:796-802 | a run from the start in which a queued 10 A of a controller is superseded by a re-applied 16 A |
| `SessionPolicy.OnlyPermittedCallsAreSent` | src/command.rs:358-431 | over every run each Call sent is one the configuration permits (a non-negative limit, a listed key, a triggerable message), and each request reported invalid is one it does not |
| `SessionPolicy.NoCallExceedsTheCeiling` | src/command.rs:287-333 | over every run the Call in flight carries a limit exactly if it sets one, it is the one the policy applies to the request, and it is at most half a tenth above the configured ceiling |
| `SessionCommands.StepKeepsCommands` | src/session.rs:419-742 | every step keeps conservation, coalescing, numbering and attribution |
| `SessionLine.ProxyCallsTakeTurns` | src/session.rs:745-816 | between two proxy Calls lies the first one's answer, or its timeout no sooner than configured |
| `SessionLine.CentralCallsGoFirst` | src/command.rs:55-59 | no proxy Call within the grace after a forwarded Central System Call unless a response with its id, or a charger's Call reusing the id, was forwarded in between |
| `SessionExamples.ReusedIdFreesTheLine` | src/forwarder.rs:79-96 | a run from the start in which the proxy sends a Call in the same instant as the Central System, because the charger reused that Call's id |
| `SessionLine.HeldExactlyWhileCentralWaits` | src/forwarder.rs:137-150 | the line is held exactly while some forwarded Central System Call younger than the grace is unanswered |
| `SessionLine.StepKeepsLine` | src/session.rs:419-742 | every step keeps turn taking, the match between the line and the Call in flight, and between the line and the tracker |
| `SessionTracker.TrackerHoldsTheOpenCalls` | src/forwarder.rs:79-130 | after any sequence of frames and sweeps the tracker holds a Call exactly if it is the latest frame with its id and no sweep found it too old |
| `SessionTracker.AnswersResolveToTheirCall` | src/forwarder.rs:344-367 | the action published for a response is that of the open Call with its id, whichever side sent it, and Unknown if there is none |
| `SessionTracker.SessionTracksWhatItPasses` | src/forwarder.rs:298-342 | in every run the session's tracker is that of exactly the frames it passed on, in both directions, and of its sweeps |
| `SessionDownstream.ChargerHearsWhatIsSaid` | src/session.rs:556-600 | over every run the charger is sent exactly the Central System's texts, byte for byte, in order and once, parseable or not |
| `SessionUpstream.DeliveryIsVerbatim` | src/session.rs:474-505 | every text delivered is, byte for byte, a text read from the charger, and none that answered a proxy Call in flight when it was read |
| `SessionUpstream.DeliveryKeepsOrder` | src/session.rs:258-288 | deliveries keep the order of reading across all reconnects, and no text is delivered twice |
| `SessionUpstream.DeliveredIsSubsequenceOfRead` | src/forwarder.rs:403-422 | what the Central System receives over all reconnects is a subsequence of what the charger sent |
| `SessionUpstream.FateIsDecidedOnReading` | src/session.rs:449-525 | a text is delivered, or buffered for the next connection, exactly if the session was forwarding when it was read, it was not the answer to the proxy Call in flight, and it was a frame or its send succeeded; no later input changes that |
| `SessionUpstream.ForwardedCountIsExact` | src/state.rs:168-177 | the upstream buffer holds at most one frame and none while forwarding, and the charger-to-central count is exactly the parsed frames delivered, replays included |
| `SessionPhases.EveryDeliveryHasItsCause` | src/session.rs:474-525 | over every run each input adds to what the Central System received, and to what waits for it, exactly what it should: a text on a send that succeeds, a frame kept on one that fails, what waited on a connection that takes it |
| `SessionPhases.ConnectReplaysOrTriesAgain` | src/session.rs:258-303 | over every run a connection that takes what waits delivers it in order and forwarding begins; any other delivers nothing, keeps it, and the session connects again |
| `SessionUpstream.LateAnswersReachTheCentralSystem` | src/session.rs:457-471 | an answer to a Call the proxy sent is consumed exactly while that Call is in flight, and delivered otherwise |
| `SessionExamples.LateAnswerIsDelivered` | src/session.rs:457-471 | a run from the start in which the answer to a timed-out proxy Call, its id carrying the proxy's prefix, is delivered to the Central System |
| `SessionExamples.TextWhileRetryingIsDiscarded` | src/session.rs:223-237 | a run from the start in which a text is read while the session waits to try again, and is neither delivered nor kept after any later inputs |
| `SessionWindow.ClosesWithinTheWindow` | src/session.rs:181-239 | from losing the upstream with no connect succeeding, the charger is closed with 1001 no earlier than the window and no later than max(window, first delay) + connect timeout + 1 ms |
| `SessionWindow.AttemptsAreFinite` | src/session.rs:193-221 | a session still trying has not passed that bound, and its attempts are at most the charger's messages plus as many as fit the bound at the shortest delay |
| `SessionWindow.RunKeepsRested` | src/session.rs:248-249 | in every reachable state without an outage the backoff is at its initial value |
| `SessionPhases.EveryMoveHasItsCause` | src/session.rs:165-328 | over every run, when the session closes, drains, forwards, pauses and retries, each exactly, from the input and what was there before |
| `SessionPhases.CloseCodeTellsWhy` | src/session.rs:40-46 | over every run the close code is 1001 exactly if a failed attempt found the window run out, and 1000 otherwise |
| `SessionPhases.RetriesFollowTheClosedForm` | src/session.rs:181-221 | over every run the n-th failure since the last successful connect sleeps min(initial × 2^n, max), counting from zero, cut to what is left of the window, or closes |
| `SessionPhases.PausesFollowTheClosedForm` | src/session.rs:310-327 | over every run losing the upstream pauses for that same delay, uncut |
| `SessionTask.ChargerSession.constructor` | src/session.rs:136-163 | a new session is the model's initial state |
| `SessionTask.ChargerSession.RunSession` | src/session.rs:127-412 | the whole session, run in place, ends in the state the model's run gives |
| `SessionTask.ChargerSession.Handle` | src/session.rs:447-742 | one pass through the loop changes the fields exactly as one model step |
| `SessionTask.ChargerSession.OnChargerText` | src/session.rs:449-553 | a charger text is consumed, forwarded, buffered or dropped as the model says |
| `SessionTask.ChargerSession.OnCentralText` | src/session.rs:556-600 | a Central System text is tracked once sent, and a failed send ends the session |
| `SessionTask.ChargerSession.SendLocalCalls` | src/session.rs:745-816 | the next valid queued Call is sent if nothing is in flight and the line is not held; rejected ones are reported on the way |
| `SessionTask.ChargerSession.CompleteLocalCall` | src/session.rs:818-852 | the Call in flight is cleared and its own request reported with the answer's meaning |
| `SessionTask.ChargerSession.ExpireCommands` | src/session.rs:661-713 | overdue requests and an overdue Call leave the queue and are reported as timed out, in that order |
| `SessionTask.ChargerSession.OnConnectFailed` | src/session.rs:181-239 | a failed attempt closes after the window and otherwise sleeps the backoff capped by what is left of it |
| `SessionTask.ChargerSession.OnConnectOk` | src/session.rs:248-288 | backoff and window reset, the buffer is replayed, and only a complete replay counts and leads to forwarding |
| `SessionTask.ChargerSession.LoseUpstream` | src/session.rs:310-327 | the outage clock starts if it was not running and the task sleeps one backoff delay |
| `SessionTask.ChargerSession.TearDown` | src/session.rs:330-389 | queue, Call in flight and inbox are reported, in that order, and left empty |
| `CommandDesk.PumpSendsAtMostOne` | src/session.rs:768-815 | one attempt to send puts at most one Call on the wire, and leaves a Call in flight exactly if it did |
| `LocalCalls.LocalCallQueue.Push` | src/command.rs:708-730 | the loop leaves exactly the coalesced queue and returns exactly the displaced requests |
| `LocalCalls.LocalCallQueue.Expire` | src/command.rs:788-810 | the queue keeps exactly the requests younger than the timeout and returns the others and an overdue Call |
| `LocalCalls.LocalCallQueue.TakeResponse` | src/command.rs:744-786 | the Call in flight is claimed exactly by its own id, once |
| `LocalCalls.LocalCallQueue.Drain` | src/command.rs:812-815 | everything held is returned and nothing is kept |
| `LocalCalls.PushConserves` | src/command.rs:708-730 | queueing loses and duplicates nothing: old queue plus the request is new queue plus displaced |
| `LocalCalls.PushCoalesces` | src/command.rs:708-730 | capacity, at most one limit command and arrival order are kept |
| `LocalCalls.ExpireConserves` | src/command.rs:788-810 | expiry splits the queue and keeps its order |
| `Commands.UniqueIdsDiffer` | src/command.rs:751-760 | ids drawn with different sequence numbers differ whatever the clock said |
| `Commands.UniqueIdFits` | src/command.rs:751-760 | the 36-character limit of section 4.1.4 of OCPP-J 1.6 |
| `Forwarding.CallTracker.HasRecentPendingIn` | src/forwarder.rs:137-150 | the search answers whether some pending Call in that direction is younger than the age |
| `Forwarding.CallTracker.CleanupExpired` | src/forwarder.rs:106-130 | exactly the entries younger than the limit stay, and the count of the others is returned |
| `Forwarding.MessageForwarder.ForwardMessage` | src/forwarder.rs:298-342 | the raw text goes out unchanged, and the Call is tracked or resolved only if it did |
| `Forwarding.MessageForwarder.FlushUpstream` | src/forwarder.rs:405-422 | a replay delivers a prefix in order and keeps the rest, the frame whose send failed included |
| `Forwarding.MessageForwarder.BufferUpstream` | src/forwarder.rs:369-385 | the frame is last, and a full buffer loses exactly its oldest |
| `Forwarding.MessageForwarder.EvictExpiredMessages` | src/forwarder.rs:459-500 | exactly the frames within the age limit stay, in order |
| `PublisherRuns.EveryMessageHasOnePlace` | src/mqtt.rs:1112-1183 | every message ever queued is at all times in exactly one of handed over, evicted, buffered |
| `PublisherRuns.PublishedInQueueingOrder` | src/mqtt.rs:810-824 | `online` aside, handed over followed by buffered is the order of queueing minus the evicted messages |
| `PublisherRuns.TheOldestAreEvicted` | src/mqtt.rs:1167-1183 | in every run whatever was evicted is older than whatever is still buffered, `online` aside |
| `PublisherEvents.NothingIsEvictedThatFits` | src/mqtt.rs:1167-1183 | in every run an event whose messages fit into the buffer evicts nothing |
| `PublisherEvents.EveryEventQueuesItsMessages` | src/mqtt.rs:925-1048 | in every run an event queues its own message, the refusal it led to, and a charge point's new snapshot exactly if it moved a field; a ConnAck queues `online` and every snapshot; nothing else is queued |
| `PublisherEvents.EveryEntryIsRemembered` | src/mqtt.rs:974-991 | after any run what is remembered of a charge point is what was stored with every entry about it folded in, in order |
| `PublisherEvents.NewChargePointsShowTheirHistory` | src/mqtt.rs:974-991 | so for one nothing was stored about it is what its history declares |
| `PublisherEvents.EverySlotIsAccountedFor` | src/mqtt.rs:615-643 | in every run each free slot stays free or goes to one message or to the subscription, which is owed from a ConnAck on until a slot is there; nothing is handed over without a connection |
| `PublisherEvents.OnlineIsLostIffSnapshotsFillTheBuffer` | src/mqtt.rs:810-831 | in every run `online` is the next message handed over after a ConnAck, except that without a free slot it is evicted exactly if the snapshots queued behind it fill the buffer |
| `PublisherRuns.BufferIsBounded` | src/mqtt.rs:1170-1183 | the buffer never exceeds max(1, limit) plus the number of ConnAcks |
| `PublisherRuns.BufferOutgrowsIff` | src/mqtt.rs:810-824 | in any run, an event takes the buffer over its limit exactly if it is a ConnAck with an `online` to announce that finds the buffer full and the channel without a slot |
| `PublisherRuns.FreeSlotsKeepTheLimit` | src/mqtt.rs:1170-1183 | a run whose ConnAcks each find a free slot stays within the limit |
| `PublisherRuns.BoundIsReached` | src/mqtt.rs:810-824 | for every number of ConnAcks a run from the start reaches the bound exactly |
| `PublisherRuns.ReappliedIffTheLinksCameUp` | src/mqtt.rs:1028-1039 | over every run, a standing limit is sent again exactly when both links of its charge point are up and were not at the last report before, and it is the one then standing |
| `PublisherRuns.StepKeeps` | src/mqtt.rs:845-922 | every event keeps placement, order, flush accounting, the bound, and that a connected publisher waits only for slots |
| `PublisherReconnect.CurrentSnapshotIsLast` | src/mqtt.rs:604-613 | right after a ConnAck the last message on each charge point's snapshot topic is its current snapshot, whatever backlog or evictions, if the buffer can hold one message per charge point |
| `PublisherReconnect.OpenFlushCountsExactly` | src/mqtt.rs:1145-1163 | an open flush has a non-empty buffer and has counted exactly what was handed over since it began |
| `PublisherReconnect.FlushClosesOnlyWhenEmpty` | src/mqtt.rs:1148-1162 | in every run, if an event closes an open flush, nothing that was waiting when the event came is still waiting |
| `PublisherReconnect.OnlyConnAcksStartFlushes` | src/mqtt.rs:1191-1206 | no event but a ConnAck opens a flush or moves the point its count starts from |
| `PublisherReconnect.ConnAckStartsTheCount` | src/mqtt.rs:604-613 | after a whole ConnAck in any run a flush is open exactly if the free slots do not suffice for the backlog and `online`, with the exact count it shows and the point that count starts from |
| `PublisherReconnect.BacklogGoneIffEnoughFreed` | src/mqtt.rs:868-879 | with nothing new, a backlog is gone after some ticks exactly if they freed one slot per message and one for a subscription still owed |
| `PublisherReconnect.FlushFinishes` | src/mqtt.rs:868-879 | with a slot per tick it is gone after as many ticks as messages remain, plus one for a subscription owed |
| `PublisherReconnect.OneTickPerMessageIsNotEnough` | src/mqtt.rs:618-643 | after a first ConnAck that finds the channel full, one message waits and one tick that frees one slot does not move it |
| `PublisherTask.MqttPublisher.Handle` | src/mqtt.rs:845-1048 | one event changes the publisher's fields exactly as one model step |
| `PublisherTask.MqttPublisher.OnConnAck` | src/mqtt.rs:604-613 | `online`, backlog, snapshots and subscription, in that order |
| `PublisherTask.MqttPublisher.DrainBuffer` | src/mqtt.rs:1125-1165 | the loop hands over as much of the front as there are slots, in order, and settles the flush |
| `PublisherTask.MqttPublisher.BufferMessage` | src/mqtt.rs:1167-1183 | the message is last, and a full buffer loses exactly its oldest |
| `PublisherTask.MqttPublisher.RepublishSnapshots` | src/mqtt.rs:1062-1079 | one snapshot per charge point is queued, in the order given |
| `PublisherTask.MqttPublisher.PublishAndFold` | src/mqtt.rs:972-991 | the event is queued before the snapshot, and the snapshot only if a field moved |
| `PublisherTask.MqttPublisher.OnLinkChanged` | src/mqtt.rs:1027-1040 | the status is queued and recorded, and the standing limit is sent again only when both links have just come up |
| `Snapshot.SnapshotEqualsHistory` | src/mqtt.rs:165-256 | after any history the folded snapshot equals a declarative scan of it, field by field |
| `Snapshot.EnergyIsKnownIffBothReadingsAre` | src/mqtt.rs:195-207 | the delivered energy is meterStop minus the meterStart of the last StartTransaction Call since the previous stop, known exactly if both are; a stop right after a stop resets it |
| `Snapshot.SecondStopForgetsTheEnergy` | src/mqtt.rs:195-218 | a history in which a StopTransaction sent twice leaves 500 Wh and then nothing |
| `Snapshot.TimeMarksTheLatestMove` | src/mqtt.rs:223-227 | the snapshot's time is that of the latest entry that changed a field other than the times |
| `Snapshot.LimitTimeMarksTheLatestMove` | src/mqtt.rs:248-254 | the limit's time is that of the latest limit result that changed a field |
| `Snapshot.MovesIffHistoryDoes` | src/mqtt.rs:223-228 | an entry changes the snapshot exactly if it changes what the history stands for |
| `Snapshot.StandingIffLatestResultAccepted` | src/mqtt.rs:782-789 | a limit stands exactly if the very latest limit result was an accepted set |
| `Snapshot.RefusalSuspendsTheStandingLimit` | src/mqtt.rs:234-256 | a history in which a refused limit leaves the accepted one shown but no longer re-sent |
| `Snapshot.ReappliesChangeNothing` | src/mqtt.rs:775-803 | with a floor that is a multiple of 0.1 A, any number of accepted re-applies leaves the whole snapshot, times included, as it is |
| `Snapshot.ChargePointState.Apply` | src/mqtt.rs:165-228 | the in-place update is the fold, and returns true exactly if a field other than the time changed |
| `Snapshot.ChargePointState.ApplyCommandResult` | src/mqtt.rs:234-256 | the same for the outcome of a command |
| `SnapshotStore.FileSystem.SaveInner` | src/snapshot_store.rs:143-163 | in every disk state on the way, the file is the old one or the complete, synced new one; whichever call fails, the old one stays |
| `SnapshotStore.SnapshotKeeper.Record` | src/mqtt.rs:974-991 | one event is folded in and a save tried only if a field moved; what loads from the disk is memory as of the latest save that succeeded, an absent entry reading as the default |
| `SnapshotStore.CrashRecoversBeforeOrAfter` | src/snapshot_store.rs:112-163 | a crash in the middle of an event and a reload recover every snapshot as it was durable before, or as it is after the event |
| `SnapshotStore.MemoryAndDiskStayInStep` | src/snapshot_store.rs:69-141 | after any mix of events, failed saves and crashes, from any first disk, the disk holds memory as of the latest save that succeeded, and memory as it is unless a save has failed since |
| `SnapshotStore.MemoryIsTheFold` | src/mqtt.rs:974-991 | until the next crash every charge point is remembered as what was stored with all its events folded in, failed saves included |
| `SnapshotStore.RestartLosesAtMostTheLatestEvent` | src/snapshot_store.rs:112-163 | after any such run a crash loses at most the event it interrupted and what a failed save left behind, and never half of an event |
| `Registry.OneLiveSessionPerChargePoint` | src/downstream.rs:161-184 | under every interleaving, a registered session is neither displaced nor deregistered exactly if it is the one in the map, so there is at most one per charge point |
| `Registry.DisplacedAreCancelled` | src/downstream.rs:166-183 | exactly the displaced sessions have been cancelled, so no live one is, and generations are distinct |
| `Registry.CleanupRemovesOnlyItsOwn` | src/downstream.rs:186-205 | no session's cleanup removes another's entry from the registry or the router, and its own is gone afterwards |
| `Registry.RouterReachesLastRegistrant` | src/command.rs:850-870 | a running session can be reached through the router exactly if no other handler for its id registered with the router after it |
| `Registry.LiveSessionCanLoseItsRoute` | src/downstream.rs:209-251 | an interleaving after which the live session has no route |
| `Registry.ConnectionRegistry.RegisterConnection` | src/downstream.rs:161-184 | a new generation is drawn, the connection is in the map under it, and whoever it displaced is cancelled |
| `Registry.ConnectionRegistry.Deregister` | src/downstream.rs:192-205 | the entry goes only if it is still this generation's, and the result says whether it did |
| `Registry.CommandRouter.Dispatch` | src/command.rs:876-891 | a request is appended to the session's inbox or nothing changes, and which error is reported when, exactly |
| `Registry.CommandRouter.Deregister` | src/command.rs:860-870 | the same guard for the router |
| `LimitPolicy.CeilingHolds` | src/command.rs:287-333 | a request is refused exactly if it is not a non-negative number, and the ceiling is exceeded by at most 0.05 A for any bounds |
| `LimitPolicy.AppliedIsInRange` | src/command.rs:287-333 | with bounds that are multiples of 0.1 A the applied limit is 0 or in range, and within 0.05 A of an in-range request |
| `LimitPolicy.PausesIffBelowTheFloor` | src/command.rs:287-333 | a request pauses exactly if it is below the floor, one above the ceiling gets the ceiling, and one in range is applied, each to within half a tenth |
| `LimitPolicy.AppliedIsMonotone` | src/command.rs:287-333 | asking for more never yields less |
| `LimitPolicy.HalvesRoundUp` | src/command.rs:296-296 | halfway between two tenths of an ampere rounds up |
| `LimitPolicy.StableIffFloorSurvivesRounding` | src/command.rs:287-333 | applying an applied limit again changes nothing, for every request, exactly if the rounded floor is not strictly between 0 and the floor |
| `LimitPolicy.ReapplyCanPause` | src/config.rs:379-431 | bounds the configuration check admits for which a re-apply pauses a running limit |
| `LimitPolicy.ReapplyKeepsTheStandingLimit` | src/mqtt.rs:775-803 | any number of re-applies keeps the limit if the floor is a multiple of 0.1 A |
| `LimitPolicy.ProfileLimitIsFaithful` | src/command.rs:438-449 | the profile asks for the applied amperes, or for amperes × voltage × phases (one if not configured) to within half a tenth; more never asks for less, and a pause stays a pause |
| `Topics.ParseOfPrint` | src/command.rs:84-104 | parsing a built command topic returns its id and kind, for every non-empty slash-free id |
| `Topics.PrintOfParse` | src/command.rs:84-104 | every accepted topic equals the one rebuilt from its parse |
| `Topics.AcceptedIffSubscribed` | src/command.rs:46-49 | a topic is accepted exactly if it matches a subscription (section 4.7.1.3 of MQTT 3.1.1) and its id level is not empty |
| `Topics.ResultTopicIsNeverACommand` | src/command.rs:72-75 | the proxy's result topic is never taken for a command, for any id, slashes included |
| `Topics.PrintIsInjective` | src/mqtt.rs:1234-1252 | over slash-free ids no two topics the proxy uses share a name, whatever action a charger names |
| `Topics.TopicsAreNamedAsDocumented` | src/mqtt.rs:1234-1252 | every topic has the name its subscribers rely on |
| `Backoff.DelayIsClosedForm` | src/models.rs:186-195 | the n-th delay is min(initial × multiplier^n, max), counting from zero |
| `Backoff.DelaysNeverShrink` | src/models.rs:186-195 | delays never shrink and never exceed the maximum |
| `Backoff.ExponentialBackoff.NextDelay` | src/models.rs:186-195 | the delay returned is the closed form at the number of delays since construction or reset |
| `Backoff.ExponentialBackoff.Reset` | src/models.rs:197-200 | the next delay is the first again |

## Left out

- SessionLine.CentralCallsGoFirst: a tracker age below the grace shortens the promise to that age, because housekeeping then forgets the Call earlier.
- SessionWindow.ClosesWithinTheWindow: assumes positive delays and that the charger neither hangs up nor is displaced during the outage, which would end the session in another way.
- PublisherReconnect.CurrentSnapshotIsLast: says nothing when there are more charge points than the buffer holds, since the last ones then evict the first ones.
- Registry: handlers that panic between two steps are not modelled; nor is the shared downstream state, which is one flag for all charge points.
- Sockets, TLS, the WebSocket and MQTT client libraries, and the writer task of the charger connection: their outcomes are inputs.
- Parsing and serialising JSON, the payload shapes of commands and results, human-readable details, and the parsing of command payloads.
- The forwarder's downstream buffer, which the session never fills.
- The counts of dropped messages and of frames sent to the charger.
- Delivery of events from sessions to the publisher, which is best effort: results are results emitted.
- SessionResults.EveryRequestIsReportedInTime: the period of the command tick is not part of the model, so the bound is stated in ticks; no tick comes while the session is reconnecting.
- `health_status`, configuration loading, logging, shutdown and subprotocol checks.
