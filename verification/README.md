# nestjs-messenger: delivery and settlement

A Dafny 4.11 model of the message delivery and settlement protocol of nestjs-messenger: five
transports that keep track of deliveries in different ways, and the worker, retry and dead-letter
loop on top of them. The questions it answers are whether a message can be lost, duplicated, retried
for ever or stranded, for every interleaving of any number of consumers.

`dafny verify dfyconfig.toml` checks everything.

## How it is built

Transports that run against a server are state machines. A step is one committed statement or
command, or the code between two awaits; an event that cannot happen leaves the state unchanged, so
a theorem about `Run` speaks of every sequence of events, crashes and lost replies included. Each
machine keeps a record of the run (which copy each entry carries, the newest copy of each message,
what was acked) in which the theorems are stated. Objects that update their fields are classes whose
methods are proved against the functions the machines are made of.

| file | what it holds |
|---|---|
| `Common.dfy`, `Envelopes.dfy`, `Serializer.dfy` | envelopes, stamps, grouping, the JSON serializer |
| `InMemory.dfy`, `Pipeline.dfy`, `Worker.dfy` | the reference transport, the middlewares, the consuming loop |
| `WorkerRuns.dfy`, `WorkerHistory.dfy`, `WorkerEnds.dfy`, `Refusals.dfy`, `FailedMessages.dfy` | workers over many in-memory transports: conservation, origin, how each delivery ends, retry bound and where it ends, dead-letter undo |
| `SqlTable.dfy`, `SqlRuns.dfy`, `SqlLeases.dfy`, `SqlTransport.dfy` | the lease table, its instances, and the transport object |
| `MysqlClaims.dfy`, `MysqlRuns.dfy` | the three-statement claim, and the instances of `SqlRuns.dfy` with these claims |
| `TransientRetry.dfy`, `Backoff.dfy` | the retry around contended statements, the retry strategy |
| `RedisRuns.dfy`, `RedisLeases.dfy`, `RedisProgress.dfy`, `RedisTransport.dfy` | stream, pending list and delayed set; when an entry is handed out again; how everything comes back; the transport object |
| `KafkaRuns.dfy`, `KafkaLoss.dfy`, `KafkaOffsets.dfy`, `KafkaTransport.dfy` | partition logs and committed offsets; when a message is lost, and when an offset falls back; the transport object |
| `PubSubRuns.dfy`, `PubSubAcks.dfy` | the leased subscription, and how messages leave it |
| `WakeUps.dfy`, `Drain.dfy` | the buffer with parked consumers, and closing, shared in shape by the broker transports |
| `HandlerLoop.dfy` | running the handlers of one message |

Messages are numbered where identity matters, and a copy of a message is known by the message it
copies and by whether it decodes. Times and delays are reals; ids and offsets are unbounded.
A transport's name is its alias throughout.

## Where the code does not do what one might expect

Each of these has a theorem with the exact condition, or a concrete run.

- The bound of `maxRetries + 1` handler failures holds unless dead-lettering is refused: with a
  configured failure alias that no transport has, or one that is closing, the message is rejected and
  handled again for ever, whatever `maxRetries` is (`WorkerHistory.DeadLetterGoesThroughIff`,
  `Refusals.RefusalsAreUnbounded`).
- The comment on `HandleMessageMiddleware` says that a redelivered message does not run again the
  handlers that succeeded. `RetryMiddleware` re-sends the envelope it was given, so after a retry it
  does (`HandlerLoop.RetryForgetsHandled`, `HandlerLoop.RetryRepeatsReturned`). Within one pass, of
  two handlers with the same name only the first runs (`HandlerLoop.FirstPassRunsAllIff`).
- A Redis process that dies, or whose connection is quit or fails, or one of whose appends fails, while
  `drainDueDelayed` appends what it popped loses exactly what it had not appended
  (`RedisRuns.PromotionCrashLosesIff`).
- A pull from a Kafka transport can lose a message exactly when it goes past an open message of the
  same partition that the same instance has taken: one in flight, one whose reject has not published
  its copy yet, or one whose reject failed (`KafkaLoss.PullIsSafeIff`, and `KafkaLoss.SecondPullLoses`
  for the run). An acked message may be overtaken before its commit; then nothing is lost, but the
  committed offset can fall back (`KafkaOffsets.PromptMayFall`).
- An abort of a consumer that was woken but has not resumed can leave a message beside a parked
  consumer that nobody wakes (`WakeUps.AbortLosesIff`, `WakeUps.AbortStrandsMessage`).
- An SQL consumer looks at `closing` before it awaits setup and claim, and not again. One that is past
  that look when `close()` is called, in setup, about to claim, or with a claim out, can still put a
  row into the registry, possibly after the connection is gone (`Drain.LateEntryIff`,
  `Drain.DisconnectWithDelivery`, `Drain.ClaimAfterClose`).
- With a negative redeliver timeout a claimed row is at once claimable again and draining a queue
  never ends (`SqlTable.DrainEndsIff`).
- A message retried by hand while a worker takes it from the failure transport exists twice from then
  on; it is never lost (`FailedMessages.RetryBesideWorker`, `FailedMessages.LateRetry`).
- A retry by hand gives back the envelope as first received, plus the name of the bus if it had none,
  exactly when the entry carries no delay and names its bus; both hold of every dead letter on a
  failure transport that is not the message's own origin (`FailedMessages.UndoIsExactIff`,
  `FailedMessages.DeadLetterUndo`).

## Model

| member | source | states |
|---|---|---|
| `WorkerRuns.EachCopyInOnePlace` | packages/messenger/src/cli/worker.ts:74-89 | After any run of workers on in-memory transports, every dispatched copy is in exactly one place: one queue, one registry of deliveries, handled, or dropped as exhausted; also when a re-send was refused because a transport is closing |
| `WorkerRuns.StepMakesOneCall` | packages/messenger/src/cli/worker.ts:74-89 | Each step of the machine changes the transports by at most one transport call, so whatever holds of every call holds of every run |
| `WorkerRuns.DispatchShape` | packages/messenger/src/retry/retry.middleware.ts:43-91 | A dispatch is done exactly when the handlers returned, and kept on any error that is not theirs; it leaves every transport alone or appends one envelope to one of them: the retry to its origin, or the dead letter to the failure transport |
| `WorkerRuns.FinishLives` | packages/messenger/src/retry/retry.middleware.ts:54-91 | Finishing a dispatch moves its copy to the transport it was re-sent to, ends it, or leaves it where it was, and touches no other copy |
| `WorkerRuns.RunConserves` | packages/messenger/src/cli/worker.ts:42-66 | The conservation invariant holds after every run |
| `WorkerEnds.DeliveryEnds` | packages/messenger/src/retry/retry.middleware.ts:43-99 | From every reachable state, the end of a dispatch and the settle after it change the transports by one ack, one reject, or one send and one ack: rejected exactly when the error was not a handler's, the retry's origin or the failure transport does not accept, or the delay is refused; the copy is put down as handled exactly when it was, as dropped exactly when it was out of retries with no failure transport; a failure counts once, a throw once, and no other copy counts |
| `WorkerEnds.EndedIff` | packages/messenger/src/cli/worker.ts:74-89 | In any step, a copy becomes handled exactly when a delivery of it ends handled, and dropped exactly when one gives up; both are for good |
| `WorkerEnds.HandledEnds` | packages/messenger/src/cli/worker.ts:82-83 | A handled delivery changes nothing when its dispatch ends and one ack later its entry is gone, its copy handled, every tally as it was |
| `WorkerEnds.HandledIsAcked` | packages/messenger/src/retry/retry.middleware.ts:45 | However much happens between the end of a handled dispatch and its settle, the settle is one ack and nothing else; in no continuation is the copy in any entry again |
| `WorkerEnds.HandledForGood` | packages/messenger/src/cli/worker.ts:82-83 | A handled copy stays handled and is never queued or delivered again, in any run |
| `WorkerEnds.FailureTells` | packages/messenger/src/retry/retry.middleware.ts:65-91 | A retry is one new entry at the end of its origin's queue, due after exactly the strategy's wait, counting one more; a dead letter is one at the end of the failure transport's, due at once, with the error's class and text and the transport it was received from |
| `WorkerHistory.OriginIsStable` | packages/messenger/src/middleware/failed-message-processing.middleware.ts:14-24 | In every reachable state, with workers on the failure transport too, all SentToFailureTransportStamps of an entry name the transport it was first received from, and every retry goes there |
| `WorkerHistory.RetryGoesHome` | packages/messenger/src/retry/retry.middleware.ts:65-70 | A handler failure within the budget re-sends to the transport the message was first received from, or to nobody |
| `WorkerHistory.RunKeepsFaithful` | packages/messenger/src/retry/retry.middleware.ts:72-91 | Without its bookkeeping, an entry is at every point of every run the envelope that was first received |
| `WorkerHistory.RetriesAreBounded` | packages/messenger/src/retry/multiplier-retry-strategy.ts:73-75 | Handler failures within the budget number at most maxRetries, in all at most maxRetries + 1 plus the dead-letterings refused, and exactly maxRetries + 1 when the message was dead-lettered and nothing else interfered |
| `WorkerHistory.StepKeepsBalanced` | packages/messenger/src/retry/retry.middleware.ts:65-70 | The retry count of a copy is the count it arrived with plus its failures and rejects so far: it strictly grows with each re-send and reject |
| `WorkerHistory.DeadLetterGoesThroughIff` | packages/messenger/src/retry/retry.middleware.ts:72-91 | Past the budget a failure is dead-lettered or dropped exactly when no failure transport is configured or the configured one accepts; otherwise the message is rejected and counts one refused dead-lettering |
| `Refusals.RefusedFailsForever` | packages/messenger/src/retry/retry.middleware.ts:93-98 | While a configured failure transport does not accept, a message that fails any number of times in a row is retried what its budget leaves it and refused every time after that, for every maxRetries and every answer of the strategy |
| `Refusals.RefusalsAreUnbounded` | packages/messenger/src/retry/retry.middleware.ts:93-98 | For every maxRetries, every message, every failure alias other than the transport's own, registered (and closing) or not, and every n, some run from empty transports has dead-lettering refused exactly n times |
| `Worker.OneIsSettled` | packages/messenger/src/cli/worker.ts:74-89 | A delivery that is acked leaves its transport without its entry, one that is rejected with a copy at the end of the queue, and neither changes what else is in flight |
| `Worker.Worker.HandleOne` | packages/messenger/src/cli/worker.ts:74-89 | Only the outcome of the dispatch decides: the receiver's state afterwards is that of one ack or one reject |
| `Worker.Worker.Run` | packages/messenger/src/cli/worker.ts:42-66 | The loop is the function `Loop`: every message pulled is settled before the next, nothing is left in flight, what left the queue was acked, and the message limit is kept (with a limit of 0 one message is still processed) |
| `Worker.HandlesAllThatIsDue` | packages/messenger/src/cli/worker.ts:51-58 | A worker without a limit whose messages are all due and resolve handles them all, in order, and leaves the queue empty |
| `Pipeline.SendMessage` | packages/messenger/src/middleware/send-message.middleware.ts:19-35 | The loop over senders is FanOut: a received envelope is passed through unsent, one without senders too, any other is sent to each in turn and the pipeline stops there |
| `Pipeline.FanOutDelivers` | packages/messenger/src/middleware/send-message.middleware.ts:26-29 | With distinct aliases each listed transport gets exactly one new entry, the message with stamps added, and no other changes; the fan-out fails exactly when some listed transport is missing or closing |
| `Pipeline.FanOutStays` | packages/messenger/src/middleware/send-message.middleware.ts:26-29 | A fan-out that failed at one sender tries no later one: its outcome is that of the senders up to there |
| `Pipeline.FanOutTouches` | packages/messenger/src/middleware/send-message.middleware.ts:26-29 | A fan-out changes no transport that is not listed |
| `Pipeline.RetryCountGrows` | packages/messenger/src/retry/retry.middleware.ts:65-70 | A re-sent and a rejected envelope count exactly one retry more than the one they replace |
| `Pipeline.RetryCountStays` | packages/messenger/src/retry/retry.middleware.ts:86-90 | Delivery, the pipeline before the handlers, and dead-lettering leave the count alone |
| `Pipeline.ProcessFailedKeepsUndone` | packages/messenger/src/middleware/failed-message-processing.middleware.ts:14-24 | Restoring the original ReceivedStamp changes nothing but bookkeeping |
| `Pipeline.DeadLetteringKeepsUndone` | packages/messenger/src/retry/retry.middleware.ts:86-90 | Dead-lettering changes nothing but bookkeeping |
| `FailedMessages.DeadLetterUndo` | packages/messenger/src/transport/failed-message-manager.ts:85-138 | After any run, retrying a message from a failure transport it did not start on appends to its origin the envelope first received there with exactly the six bookkeeping classes removed and takes it off the failure transport; or the origin refuses and nothing changes |
| `FailedMessages.UndoIsExactIff` | packages/messenger/src/transport/failed-message-manager.ts:118-138 | On any transport of any reachable state, what a retry would re-send is the envelope first received with exactly its bookkeeping removed if and only if the entry carries no delay and names its bus |
| `FailedMessages.ResendableIsUndone` | packages/messenger/src/transport/failed-message-manager.ts:131-136 | The five stamp removals of a retry undo the whole bookkeeping of a dead letter, order kept |
| `FailedMessages.RetryAll` | packages/messenger/src/transport/failed-message-manager.ts:96-106 | The loop over a listing taken beforehand re-sends and acks in order and stops at the first refusal, which leaves the rest |
| `FailedMessages.RetryAllRemovesPrefix` | packages/messenger/src/transport/failed-message-manager.ts:96-106 | However far it gets, retryAll has taken exactly the messages it reports, a prefix of the failure queue, off it, all of them exactly when there is no error; behind the rest are only the copies of retried messages whose origin is the failure transport itself |
| `FailedMessages.LateRetry` | packages/messenger/src/transport/failed-message-manager.ts:85-138 | Whatever happened to the transports since a retry found its message: with an open origin other than the failure transport the clean copy is appended there, no entry of its id is left on the failure transport, and no later settle of that id has an effect |
| `FailedMessages.RetryBesideWorker` | packages/messenger/src/transport/failed-message-manager.ts:85-138 | When a worker takes the message between the find and the re-send it exists twice: in the worker's hands and on its origin; neither settle of the worker puts it back |
| `FailedMessages.RetryFailsIff` | packages/messenger/src/transport/failed-message-manager.ts:85-93 | A retry finds nothing exactly when no entry has the id, and then changes nothing; it fails exactly when the entry names no origin or its origin is missing or closing, each with its own error |
| `InMemory.ApplyKeepsConsistent` | packages/messenger/src/transport/in-memory.ts:39-159 | Every call keeps ids unique across queue and registry, never issued twice, and leaves a close call parked only while something is in flight |
| `InMemory.ClosingOnlyDrains` | packages/messenger/src/transport/in-memory.ts:65-66 | Once closing, no call puts anything in flight, and parked close calls stay parked until nothing is |
| `InMemory.CloseDrains` | packages/messenger/src/transport/in-memory.ts:107-114 | After a close call in any state, and whatever calls follow it, exactly the close calls so far are parked, this one among them, while something is in flight; once nothing is, nobody is, and nothing is in flight that was not then |
| `InMemory.LastSettleDrains` | packages/messenger/src/transport/in-memory.ts:152-159 | The call that empties the registry of a closing transport is the ack or reject of its last delivery, and only that |
| `InMemory.ClosersStayParked` | packages/messenger/src/transport/in-memory.ts:107-114 | While the registry is not empty, close calls park behind one another and none resumes |
| `InMemory.FirstDue` | packages/messenger/src/transport/in-memory.ts:141-146 | The first entry whose time has come, none before it being due; nothing exactly when none is due |
| `InMemory.SentIsTakenIff` | packages/messenger/src/transport/in-memory.ts:53-63 | A sent message is the next one taken exactly when its delay is over and none queued before it is due |
| `InMemory.RejectedIsTakenIff` | packages/messenger/src/transport/in-memory.ts:89-105 | A rejected message is the next one taken at once, exactly when none queued before it is due |
| `InMemory.AckSettlesOnce` | packages/messenger/src/transport/in-memory.ts:80-87 | A second ack, or a reject after an ack, changes nothing |
| `InMemory.RejectSettlesOnce` | packages/messenger/src/transport/in-memory.ts:89-105 | A second reject, or an ack after a reject, changes nothing: one copy only |
| `InMemory.InMemoryTransport.constructor` | packages/messenger/src/transport/in-memory.ts:42-51 | A new transport is empty and open |
| `InMemory.InMemoryTransport.Send` | packages/messenger/src/transport/in-memory.ts:53-63 | Refused when closing; otherwise the envelope is queued under a fresh id, due after its delay, and returned with that id |
| `InMemory.InMemoryTransport.NextMessageId` | packages/messenger/src/transport/in-memory.ts:135-139 | Ids are the printed counter, which moves on |
| `InMemory.InMemoryTransport.Poll` | packages/messenger/src/transport/in-memory.ts:65-76 | Ends when aborted or closing; otherwise the first due entry moves to the registry and is delivered with its two local stamps |
| `InMemory.InMemoryTransport.Settle` | packages/messenger/src/transport/in-memory.ts:152-159 | The id leaves the registry, and the parked close calls resume exactly when it is then empty |
| `InMemory.InMemoryTransport.Ack` | packages/messenger/src/transport/in-memory.ts:80-87 | Removes the entry from queue and registry, resuming every parked close call exactly when the registry is then empty; an envelope without id is an error |
| `InMemory.InMemoryTransport.Reject` | packages/messenger/src/transport/in-memory.ts:89-105 | A delivery in flight is replaced by a copy under a fresh id with one retry more, resuming every parked close call exactly when the registry is then empty; any other is left alone |
| `InMemory.InMemoryTransport.Close` | packages/messenger/src/transport/in-memory.ts:107-114 | Sets closing and parks the call behind the others exactly when something is in flight; nothing else changes |
| `InMemory.InMemoryTransport.List` | packages/messenger/src/transport/in-memory.ts:123-128 | The first entries up to the limit, each with its id, nothing removed |
| `Serializer.GroupByClass` | packages/messenger/src/envelope/envelope.ts:60-78 | The grouping loop yields the classes in order of first appearance, each with exactly its stamps in order |
| `Serializer.JsonSerializer.constructor` | packages/messenger/src/serializer/json-serializer.ts:64-70 | The registry maps each name to the last class given under it, the built-in stamps first |
| `Serializer.JsonSerializer.Encode` | packages/messenger/src/serializer/json-serializer.ts:72-90 | The nested loops produce the encoding of the message and of the grouped stamps without the two local classes |
| `Serializer.WireStampsFacts` | packages/messenger/src/serializer/json-serializer.ts:73-81 | Grouping for the wire keeps, class by class, exactly the sendable stamps in order, and doing it twice is doing it once |
| `Serializer.RoundTrip` | packages/messenger/src/serializer/json-serializer.ts:72-143 | With every class registered, decoding an encoding gives back the message, per sendable class the exact stamp list and last stamp, none of the two local classes; and encoding that again gives the same encoding |
| `Serializer.RoundTripIff` | packages/messenger/src/serializer/json-serializer.ts:136-143 | For a serializer built from given types, the round trip keeps the content exactly when the registry finds every class involved under its own name |
| `Serializer.DecodesIff` | packages/messenger/src/serializer/json-serializer.ts:92-161 | Whatever arrives: it decodes exactly when it names a registered type, its body is a JSON object, and its stamps header is absent or an array of well-formed, registered stamps; the message then has exactly the body's fields, and there is one stamp for each entry, in order |
| `Serializer.RefusedFor` | packages/messenger/src/serializer/json-serializer.ts:92-161 | What does not decode is refused for the first thing wrong with it, a bad stamp for the first bad entry's first failed check |
| `Serializer.EncodingIsStable` | packages/messenger/src/serializer/json-serializer.ts:73-81 | Encoding the regrouped envelope is encoding the original |
| `Serializer.LastOnTheWire` | packages/messenger/src/envelope/envelope.ts:52-54 | The last stamp of every sendable class survives regrouping |
| `Envelopes.DropKeepsLast` | packages/messenger/src/envelope/envelope.ts:44-54 | Removing some classes leaves the last stamp of every other as it was and removes theirs |
| `Envelopes.LastIsEndOfAll` | packages/messenger/src/envelope/envelope.ts:52-65 | The last stamp of a class is the end of the list of all of that class |
| `SqlTable.DrainAgrees` | packages/transport-sql/src/postgres.driver.ts:160-178 | At a frozen clock and a non-negative lease, repeated claims return exactly the counted rows, each once, in the order of the listing restricted to claimable rows, and then nothing |
| `SqlTable.DrainEndsIff` | packages/transport-sql/src/postgres.driver.ts:351-362 | The claim after the counted ones comes back empty exactly when the lease is not negative or nothing was claimable |
| `SqlTable.ClaimShrinks` | packages/transport-sql/src/postgres.driver.ts:351-362 | A claim takes exactly the first claimable row, by due time then id, out of what is claimable |
| `SqlTable.RestrictedInOrder` | packages/transport-sql/src/postgres.driver.ts:160-167 | Ordering some of the rows is ordering all of them and leaving the others out |
| `SqlTable.InsertedIsDueIff` | packages/transport-sql/src/postgres.driver.ts:378-382 | A new row can be claimed exactly on its queue and from its due time on |
| `SqlTable.InOrderFacts` | packages/transport-sql/src/postgres.driver.ts:160-167 | The listing holds each row once, ordered by due time and id |
| `SqlTable.ListingIsFront` | packages/transport-sql/src/postgres.driver.ts:160-167 | The listing is the front of the queue: its earliest rows by due time and then id, as many as asked for or as there are, in order |
| `SqlTable.ClaimTakesEarliest` | packages/transport-sql/src/postgres.driver.ts:351-362 | A claim stamps the earliest row of its queue that is due and not leased, by due time and then id, and no other; it comes back empty exactly when there is none |
| `SqlRuns.AtLeastOnce` | packages/transport-sql/src/sql.transport.ts:171-192 | For any number of instances, crashes, expired leases, stale acks and rejects and lost commit replies, the newest copy of every decodable message is a row of the table until that very copy is acked |
| `SqlRuns.RowComesBack` | packages/transport-sql/src/postgres.driver.ts:351-362 | A row, whoever claimed it before, is claimed again by any instance of its queue once it is due and its lease is over |
| `SqlRuns.SentIsStored` | packages/transport-sql/src/sql.transport.ts:128-141 | A send through an open transport adds one row: on its queue, undelivered, due after its delay, the newest copy of a new message |
| `SqlRuns.ClaimedIsDelivered` | packages/transport-sql/src/sql.transport.ts:143-169 | A claimed row that decodes enters its claimer's registry and nothing else changes but its stamp; one that does not is deleted |
| `SqlRuns.AckedIsGone` | packages/transport-sql/src/sql.transport.ts:171-181 | Once the delete of an ack has committed, however much happened in between, its row is gone for good: in no continuation is it a row again, or claimed by anyone |
| `SqlRuns.RejectedIsGone` | packages/transport-sql/src/sql.transport.ts:183-192 | Once the redelivery of a reject has committed, exactly the new copy, due after its delay, stands in place of the row, which is gone for good |
| `SqlRuns.RowCanBeHandled` | packages/transport-sql/src/sql.transport.ts:143-181 | From every reachable state, whoever holds its lease, a new instance can claim any decodable row of its queue in time, take it into its hands, ack it and delete exactly it |
| `SqlRuns.ClosedRefuses` | packages/transport-sql/src/sql.transport.ts:128-131 | In any run after a close, a send through that transport does nothing |
| `SqlRuns.DeadIsSilent` | packages/transport-sql/src/sql.transport.ts:171-192 | What a dead process had left of its settles never reaches the table, not even when its name starts again |
| `SqlLeases.SuccessiveClaimsAreApart` | packages/transport-sql/src/postgres.driver.ts:351-362 | In any run two successive claims of one row are more than the second claimer's timeout apart |
| `SqlLeases.ClaimsAreApart` | packages/transport-sql/src/postgres.driver.ts:351-362 | With no negative timeout, any two claims of one row are |
| `SqlLeases.LeaseExclusion` | packages/transport-sql/src/sql.transport.ts:143-192 | In every run in which deliveries end within every instance's timeout, crashes and lost replies included, no row is in two hands and every unacked decodable message has exactly one row |
| `SqlLeases.SecondHandIff` | packages/transport-sql/src/postgres.driver.ts:351-362 | After any timely run, a claim of a row that is in hand puts it in two hands exactly when the row is on the claimer's queue, due, and claimed longer ago than the claimer's timeout |
| `SqlTransport.SqlTransport.Send` | packages/transport-sql/src/sql.transport.ts:128-141 | Refused when closing; otherwise one row with the encoded envelope, due after its delay, whose id is returned as a stamp |
| `SqlTransport.SqlTransport.Poll` | packages/transport-sql/src/sql.transport.ts:143-169 | One uninterrupted pass of the loop: end, wait, discard a row that does not decode, or register and deliver the claimed row |
| `SqlTransport.SqlTransport.MayPass` | packages/transport-sql/src/sql.transport.ts:144-144 | A consumer goes on exactly when neither aborted nor closing; this is its only look at closing |
| `SqlTransport.SqlTransport.ClaimRow` | packages/transport-sql/src/sql.transport.ts:148-151 | The claim, issued whether or not close was called meanwhile: the first claimable row, stamped, or none and no change |
| `SqlTransport.SqlTransport.Receive` | packages/transport-sql/src/sql.transport.ts:159-167 | A claimed row that does not decode is deleted; any other is registered and delivered, also when close was called while it was awaited |
| `SqlTransport.SqlTransport.Release` | packages/transport-sql/src/sql.transport.ts:317-324 | The id leaves the registry and the parked close calls resume exactly when it is then empty |
| `SqlTransport.SqlTransport.Ack` | packages/transport-sql/src/sql.transport.ts:171-181 | Deletes the row of the stamped id, delivered by this instance or not |
| `SqlTransport.SqlTransport.Reject` | packages/transport-sql/src/sql.transport.ts:183-192 | Only a delivery of this instance is redelivered: copy in and original out in one transaction |
| `SqlTransport.SqlTransport.List` | packages/transport-sql/src/sql.transport.ts:194-205 | The loop over the ordered rows delivers those that decode, in order |
| `SqlTransport.SqlTransport.Find` | packages/transport-sql/src/sql.transport.ts:207-216 | Only a text of digits can be an id; the row found is delivered if it decodes |
| `SqlTransport.SqlTransport.Close` | packages/transport-sql/src/sql.transport.ts:230-242 | A second close returns at once; the first is parked exactly while something is in flight |
| `SqlTransport.ParseIdOfDecimal` | packages/transport-sql/src/sql.transport.ts:326-334 | The id stamped on a message is read back as the id of its row |
| `SqlTransport.SentIsDelivered` | packages/transport-sql/src/sql.transport.ts:304-315 | A stored envelope is delivered with its message, every sendable last stamp, and the local stamps of this transport and row |
| `SqlTransport.RejectedComesBack` | packages/transport-sql/src/sql.transport.ts:263-275 | The copy a reject stores is delivered with the same message, exactly one retry more and every other sendable last stamp |
| `MysqlClaims.RunRefines` | packages/transport-sql/src/mysql.driver.ts:84-117 | Every interleaving of lock, update and commit or rollback has the table of a run of atomic claims, each of a row claimable at its own stamp; the rows returned are those claimed, in order, but for the ones whose commit reply was lost |
| `MysqlClaims.StepRefines` | packages/transport-sql/src/mysql.driver.ts:93-111 | Of a claim's statements only the commit of an updated row shows in the table |
| `MysqlClaims.OpenClaimsDiffer` | packages/transport-sql/src/mysql.driver.ts:94-99 | Claims under way at the same time have different rows |
| `MysqlClaims.DestroyedClaimLeavesNothing` | packages/transport-sql/src/mysql.driver.ts:112-115 | A connection destroyed after any of the statements leaves table, locks and replies as they were |
| `MysqlClaims.SelectPicks` | packages/transport-sql/src/mysql.driver.ts:93-99 | The locking select picks the first claimable row, by due time then id, that no open claim has locked, and nothing exactly when all claimable ones are locked |
| `MysqlClaims.ClaimEnds` | packages/transport-sql/src/mysql.driver.ts:84-111 | A claim left to itself ends, beside whatever else is open: with that row stamped and answered and its locks gone, or with an empty answer and nothing changed |
| `MysqlClaims.CommitReturns` | packages/transport-sql/src/mysql.driver.ts:106-111 | The driver returns a claimed row exactly when it sees the reply of the commit; lost or not, the row is claimed |
| `MysqlClaims.MysqlServer.ClaimOne` | packages/transport-sql/src/mysql.driver.ts:84-117 | Beside any other open transactions, the statement sequence stamps and returns the first claimable row nobody has locked when it succeeds and changes nothing when any statement fails; with no other transaction success is the atomic claim |
| `MysqlRuns.RunRefines` | packages/transport-sql/src/mysql.driver.ts:84-117 | Every run of the instances with MySQL's claims, their statements interleaved with sends, settles, crashes and lost replies, is a run of the machine with atomic claims |
| `MysqlRuns.StepRefines` | packages/transport-sql/src/mysql.driver.ts:88-111 | Each statement of a claim is no step of that machine, but for the commit of an updated row, which is one claim whose reply arrives or not |
| `MysqlRuns.AtLeastOnce` | packages/transport-sql/src/mysql.driver.ts:84-150 | With these claims too the newest copy of every decodable message is a row of the table until that very copy is acked |
| `MysqlRuns.LeaseExclusion` | packages/transport-sql/src/mysql.driver.ts:84-117 | With these claims too, while deliveries end within every lease, no row is in two hands and every unacked decodable message has exactly one row |
| `MysqlRuns.CloseClaimsDiffer` | packages/transport-sql/src/mysql.driver.ts:94-109 | With no negative timeout, claims of any run whose stamps are no further apart than the later claimer's timeout, overlapping ones among them, take different rows, their replies lost or not |
| `MysqlRuns.ClaimEnds` | packages/transport-sql/src/mysql.driver.ts:84-117 | An instance's claim left to itself is one atomic claim of the first claimable unlocked row, its reply seen or lost, or nothing, and leaves no transaction |
| `MysqlRuns.DestroyedClaimLeavesNothing` | packages/transport-sql/src/mysql.driver.ts:112-115 | Cut off at any statement, it is as if it had never begun |
| `TransientRetry.WithTransientRetry` | packages/transport-sql/src/transient-retry.ts:26-48 | Each attempt acts on the state the one before it left; the operation runs at most max(1, attempts) times with one sleep fewer, every run but the last a retried transient failure, and the total sleep stays under the geometric bound |
| `TransientRetry.SleepIsNear` | packages/transport-sql/src/transient-retry.ts:43-45 | Sleep k is within half a millisecond of 10 % around base * 2^(k-1), never negative, and 0 for a negative base |
| `TransientRetry.SleepSpans` | packages/transport-sql/src/transient-retry.ts:43-45 | The middle draw sleeps the doubled base, the least draw a tenth less, and a greater draw never less |
| `TransientRetry.TotalIsBounded` | packages/transport-sql/src/transient-retry.ts:43-45 | The first n sleeps sum to at most 1.1 * base * (2^n - 1) + n/2 |
| `TransientRetry.Redeliver` | packages/transport-sql/src/mysql.driver.ts:126-150 | For any pattern of endings of the attempts: every attempt but the last rolled back, so success adds exactly one copy under a new id and deletes exactly the original; an error does the same when its commit got through and changes no row otherwise |
| `TransientRetry.Transact` | packages/transport-sql/src/mysql.driver.ts:134-148 | One attempt, statement by statement: committed it has moved the copy in and the original out, rolled back it has at most used up an id |
| `TransientRetry.LastCommits` | packages/transport-sql/src/transient-retry.ts:34-46 | Attempts that all roll back but the last, which commits, leave one copy and no original |
| `Backoff.CappedGrows` | packages/messenger/src/retry/multiplier-retry-strategy.ts:77-79 | The unjittered wait is non-negative, never shrinks with the retry count, and stays under the cap when one is set |
| `Backoff.CreatedIff` | packages/messenger/src/retry/multiplier-retry-strategy.ts:24-40 | Exactly the documented option values are accepted, and each given value is used |
| `Backoff.BackoffsGrow` | packages/messenger/src/retry/multiplier-retry-strategy.ts:77-82 | Without jitter and cap the waits of a message form a geometric progression: each is the multiplier times the one before |
| `Backoff.ExactBackoff` | packages/messenger/src/retry/multiplier-retry-strategy.ts:77-82 | Without jitter and cap a fresh message waits the base delay first, maxRetries times, and in all exactly the base delay times the geometric sum of the multiplier |
| `Backoff.GeometricCloses` | packages/messenger/src/retry/multiplier-retry-strategy.ts:77-82 | The geometric sum in closed form |
| `Backoff.CapCutsWait` | packages/messenger/src/retry/multiplier-retry-strategy.ts:79 | With a cap, each wait is the smaller of the cap and the wait without one |
| `Backoff.JitterSpans` | packages/messenger/src/retry/multiplier-retry-strategy.ts:83-85 | The middle draw gives the rounded unjittered wait, the least draw the whole jitter less, a greater draw never less, and mirrored draws lie on either side of the middle |
| `Backoff.DefaultBackoff` | packages/messenger/src/retry/multiplier-retry-strategy.ts:44-50 | With the defaults a message that keeps failing waits three times, about 1, 2 and 4 seconds, each within 10 % |
| `Backoff.WaitIsNear` | packages/messenger/src/retry/multiplier-retry-strategy.ts:77-86 | The wait is non-negative and within jitter * capped + 1/2 of the unjittered one, equal to it without jitter |
| `Backoff.BackoffsAre` | packages/messenger/src/retry/retry.middleware.ts:65-70 | A message that keeps failing is resent until its count reaches maxRetries, each wait within its bounds from below and above |
| `Backoff.TotalBackoff` | packages/messenger/src/retry/multiplier-retry-strategy.ts:73-86 | For every accepted choice of options and every draw, a message first received without retries is resent exactly maxRetries times and waits in all at most (1 + jitter) times the geometric sum plus maxRetries / 2 |
| `HandlerLoop.Handle` | packages/messenger/src/middleware/handle-message.middleware.ts:23-48 | The loop skips handlers already stamped, stamps each that returns, and stops at the first that throws with the envelope so far |
| `HandlerLoop.PassTakesFromTodo` | packages/messenger/src/middleware/handle-message.middleware.ts:31-37 | With distinct names a pass takes handlers off the front of those still to run, and stops exactly when none is left or the next one throws |
| `HandlerLoop.ResumptionRunsEachOnce` | packages/messenger/src/middleware/handle-message.middleware.ts:23-52 | With distinct names and any failure pattern, rerunning on each error's envelope until success lets every handler not yet handled return exactly once, in order, and a further pass runs none |
| `HandlerLoop.FirstPassRunsAllIff` | packages/messenger/src/middleware/handle-message.middleware.ts:50-52 | A first pass in which none throws runs every handler exactly when the names are distinct |
| `HandlerLoop.RetryForgetsHandled` | packages/messenger/src/retry/retry.middleware.ts:54-70 | After the retry middleware's re-send, delivered by any transport and through the middlewares again, every handler that was to run is to run again, whether or not it returned |
| `HandlerLoop.RetryRepeatsReturned` | packages/messenger/src/retry/retry.middleware.ts:50-50 | So when the redelivered copy's handlers all return, exactly the handlers to be run the first time run again, each that returned before the failure a second time |
| `RedisRuns.AlwaysDeliverable` | packages/transport-redis/src/redis-streams.transport.ts:205-310 | For any consumers dying at any await outside a promotion, the newest copy of every decodable message is acked, an unread entry, a pending entry still in the stream, a delayed member, or about to be appended |
| `RedisRuns.NeverBeforeDue` | packages/transport-redis/src/redis-streams.transport.ts:235-244 | In any run, crashes included, no delayed copy is in the stream before it is due |
| `RedisRuns.PromotionCrashLosesIff` | packages/transport-redis/src/redis-streams.transport.ts:235-244 | A crash inside the promotion, or a failed append that the process survives, loses a message exactly when its newest copy had been popped and not yet appended |
| `RedisProgress.EverythingCanBeHandled` | packages/transport-redis/src/redis-streams.transport.ts:123-149 | After any run without a crash inside a promotion, a consumer that starts can, whatever its batch size and idle time, by its own loop and the end of promotions under way, take into its hands and ack every newest decodable copy that no one acked before |
| `RedisProgress.Flushes` | packages/transport-redis/src/redis-streams.transport.ts:240-243 | Promotions under way in any consumers can be carried to their end, which changes nothing but the stream |
| `RedisProgress.Pulls` | packages/transport-redis/src/redis-streams.transport.ts:205-210 | Once all is promoted and idle, every pull whose batch is handled leaves fewer entries pending or unread |
| `RedisProgress.NothingIsOwed` | packages/transport-redis/src/redis-streams.transport.ts:246-277 | With nothing delayed, being promoted, pending or unread, every newest decodable copy was acked |
| `RedisRuns.AdvancedKeeps` | packages/transport-redis/src/redis-streams.transport.ts:279-289 | Each single command of a settle (store the copy, then XACK, then XDEL) keeps every newest unacked copy deliverable |
| `RedisRuns.ReclaimedKeeps` | packages/transport-redis/src/redis-streams.transport.ts:246-260 | Reclaiming stalled entries, which drops deleted ones from the pending list, keeps every newest unacked copy deliverable; that it takes stalled entries only is in `RedisLeases` |
| `RedisRuns.ReadKeeps` | packages/transport-redis/src/redis-streams.transport.ts:262-277 | Handing out unread entries keeps every newest unacked copy deliverable, now as pending ones |
| `RedisLeases.SuccessiveHandOutsAreApart` | packages/transport-redis/src/redis-streams.transport.ts:246-260 | In any run, an entry is first handed out by the read that reaches it and afterwards only by reclaims, each at least its own idle time after the hand-out before it |
| `RedisLeases.OnlyTheseHandOut` | packages/transport-redis/src/redis-streams.transport.ts:205-210 | No other step gives a consumer an entry, so the record of the hand-outs is complete |
| `RedisLeases.FreshIsLeftAlone` | packages/transport-redis/src/redis-streams.transport.ts:246-260 | A reclaim leaves an entry that has not been idle long enough exactly where it is |
| `RedisLeases.LeaseExclusion` | packages/transport-redis/src/redis-streams.transport.ts:246-260 | In any run in which nobody has an entry in hand for longer than the idle time of whoever reclaims, no entry is in the hands of two consumers |
| `RedisLeases.SecondHandIff` | packages/transport-redis/src/redis-streams.transport.ts:246-260 | After any such run, a reclaim makes a second hand exactly when it takes an entry somebody else still has |
| `RedisLeases.SettledIsNeverHandedOut` | packages/transport-redis/src/redis-streams.transport.ts:286-289 | An entry that has left the pending list after its read is never handed out again, in any continuation |
| `RedisLeases.AckedIsGone` | packages/transport-redis/src/redis-streams.transport.ts:151-159 | From every reachable state, an uninterrupted ack takes exactly its entry out of the pending list and the stream, and no continuation hands it out again |
| `RedisLeases.RejectReplaces` | packages/transport-redis/src/redis-streams.transport.ts:279-289 | An uninterrupted reject stores exactly one new copy of the message and takes exactly the rejected entry out |
| `RedisLeases.ReadTakesOldest` | packages/transport-redis/src/redis-streams.transport.ts:262-277 | A read takes the oldest unread entries in order, as many as asked for or as there are, and leaves the others unread |
| `RedisLeases.PopTakesAllDue` | packages/transport-redis/src/redis-streams.transport.ts:57-60 | The promotion script takes exactly the messages that are due, each once, and leaves the others with their times |
| `RedisLeases.ClosedIsQuiet` | packages/transport-redis/src/redis-streams.transport.ts:131-147 | In any run after its close, a consumer sends and delivers nothing, and what it has in flight only shrinks |
| `RedisLeases.DroppedStaysPending` | packages/transport-redis/src/redis-streams.transport.ts:131-139 | What a consumer drops of its batch when it stops is not delivered by it and stays pending |
| `RedisTransport.RedisStreamsTransport.Send` | packages/transport-redis/src/redis-streams.transport.ts:115-121 | Refused when closing; otherwise one new copy, delayed or appended |
| `RedisTransport.RedisStreamsTransport.Enqueue` | packages/transport-redis/src/redis-streams.transport.ts:291-316 | A positive delay puts the copy in the sorted set at its due time, otherwise it is appended to the stream |
| `RedisTransport.RedisStreamsTransport.Acknowledge` | packages/transport-redis/src/redis-streams.transport.ts:286-289 | The entry leaves the pending list, then the stream |
| `RedisTransport.RedisStreamsTransport.DrainDueDelayed` | packages/transport-redis/src/redis-streams.transport.ts:235-244 | Uninterrupted, the loop ends with nothing left to append and the state of all its appends |
| `RedisTransport.AppendAllAppends` | packages/transport-redis/src/redis-streams.transport.ts:240-243 | A finished promotion has appended each popped member once, in the popped order, under consecutive new ids |
| `RedisTransport.RedisStreamsTransport.YieldNext` | packages/transport-redis/src/redis-streams.transport.ts:131-147 | The next entry is registered and delivered, or acknowledged when it does not decode; once closing nothing happens |
| `RedisTransport.RedisStreamsTransport.Release` | packages/transport-redis/src/redis-streams.transport.ts:339-346 | The id leaves the registry and the parked close call resumes exactly when it is then empty |
| `RedisTransport.RedisStreamsTransport.Ack` | packages/transport-redis/src/redis-streams.transport.ts:151-159 | An uninterrupted ack is the release and the two commands of the machine |
| `RedisTransport.RedisStreamsTransport.Reject` | packages/transport-redis/src/redis-streams.transport.ts:180-189 | Only a delivery of this instance is redelivered; uninterrupted, that is the release and the three commands of the machine |
| `RedisTransport.RedisStreamsTransport.Close` | packages/transport-redis/src/redis-streams.transport.ts:191-200 | The first close is parked exactly while something is in flight |
| `KafkaRuns.CrashSafety` | packages/transport-kafka/src/kafka.transport.ts:147-195 | When nobody pulls past an open message of the partition that it has taken itself (other partitions do not matter), every committed offset has passed only messages acked, undecodable, or copied anew, and the newest copy of an unacked message is still to be read from there; crashes and failed settles included |
| `KafkaLoss.PullIsSafeIff` | packages/transport-kafka/src/kafka.transport.ts:149-195 | The discipline is exact: after any run that keeps it, a pull leaves every continuation that keeps it safe if and only if the instance has taken no open message of the partition of the buffer's head |
| `KafkaLoss.RejectIsOvertaken` | packages/transport-kafka/src/kafka.transport.ts:182-195 | A reject whose copy is not published yet is overtaken by a pull from its partition just like a delivery |
| `KafkaLoss.FailureIsOvertaken` | packages/transport-kafka/src/kafka.transport.ts:284-287 | So is a reject whose publish failed |
| `KafkaRuns.IdleIsPrompt` | packages/messenger/src/cli/worker.ts:42-66 | A consumer that settles each message before it pulls the next, and ends when a settle fails, keeps the discipline |
| `KafkaRuns.PullKeeps` | packages/transport-kafka/src/kafka.transport.ts:149-165 | A pull that overtakes nothing keeps the invariant: what is taken stands behind settled messages only, and whatever lies before the fetch position is in the buffer, taken or settled |
| `KafkaOffsets.CommittedNeverFalls` | packages/transport-kafka/src/kafka.transport.ts:317-322 | When each instance works on one message of a partition at a time, no committed offset ever moves back, crashes and failed settles included |
| `KafkaOffsets.PromptMayFall` | packages/transport-kafka/src/kafka.transport.ts:317-322 | Acked but not committed, a message may be overtaken safely; the commits in the wrong order then take the committed offset from 2 back to 1 |
| `KafkaOffsets.ClosedIsQuiet` | packages/transport-kafka/src/kafka.transport.ts:138-166 | In any run after its close, an instance sends and delivers nothing, and what it has in flight only shrinks |
| `KafkaRuns.RestartRedelivers` | packages/transport-kafka/src/kafka.transport.ts:225-250 | After any such run, whoever is assigned a partition and reads it to its end has in its buffer the newest copy of every message there that is neither acked nor undecodable |
| `KafkaLoss.SecondPullLoses` | packages/transport-kafka/src/kafka.transport.ts:317-322 | From an empty log: with the first message of a partition handed out, the second is pulled, acked and committed and the process dies; the first is open and below the committed offset |
| `KafkaRuns.CommitKeepsSettled` | packages/transport-kafka/src/kafka.transport.ts:317-322 | A commit goes past settled messages only, whatever the offset was before |
| `KafkaRuns.PublishedGrows` | packages/transport-kafka/src/kafka.transport.ts:284-287 | A published copy settles every older copy of its message in the log and unsettles nothing |
| `KafkaTransport.KafkaTransport.OnMessage` | packages/transport-kafka/src/kafka.transport.ts:246-250 | The next message of the partition joins the end of the buffer |
| `KafkaTransport.KafkaTransport.Pull` | packages/transport-kafka/src/kafka.transport.ts:149-166 | One pass of the loop: end, wait, commit past what does not decode, or register and deliver the head; unless it overtakes an open message of the partition it keeps the machine's invariant |
| `KafkaTransport.KafkaTransport.Ack` | packages/transport-kafka/src/kafka.transport.ts:169-180 | Only a delivery of this instance is acked: release, then commit one past it |
| `KafkaTransport.KafkaTransport.Reject` | packages/transport-kafka/src/kafka.transport.ts:182-195 | Only a delivery of this instance is rejected: the copy is in the log before the original is committed past |
| `KafkaTransport.KafkaTransport.Publish` | packages/transport-kafka/src/kafka.transport.ts:295-306 | The copy joins the end of its partition's log as the newest of its message |
| `KafkaTransport.KafkaTransport.Commit` | packages/transport-kafka/src/kafka.transport.ts:317-322 | The committed offset becomes one past the message, whatever it was |
| `KafkaTransport.KafkaTransport.Release` | packages/transport-kafka/src/kafka.transport.ts:369-376 | The delivery leaves the registry and the parked close call resumes exactly when it is then empty |
| `PubSubRuns.AtLeastOnce` | packages/transport-google-pubsub/src/google-pubsub.transport.ts:137-163 | Whatever is pushed to whom and whichever clients die with buffered acks, the newest copy of a decodable message stays in the subscription until that very copy is acked |
| `PubSubAcks.SettledThenFlushed` | packages/transport-google-pubsub/src/google-pubsub.transport.ts:137-163 | After an ack, a published reject or a discarded poison message, once the same live client has flushed that ack, whatever happens in between, the message is gone: no continuation stores it again or pushes it |
| `PubSubAcks.AckedLeaves` | packages/transport-google-pubsub/src/google-pubsub.transport.ts:146-147 | In every run, an acked message that is still stored has its ack buffered in a live client, or a client died with it |
| `PubSubAcks.SettledLeaves` | packages/transport-google-pubsub/src/google-pubsub.transport.ts:126-163 | So has every copy that was rejected and replaced, or discarded as poison |
| `PubSubAcks.LeavesIff` | packages/transport-google-pubsub/src/google-pubsub.transport.ts:146-147 | A message leaves the subscription exactly when an ack a live client has buffered for it is flushed |
| `PubSubAcks.GoneForGood` | packages/transport-google-pubsub/src/google-pubsub.transport.ts:146-147 | What has left is never stored or pushed again, in any continuation |
| `PubSubAcks.RejectReplaces` | packages/transport-google-pubsub/src/google-pubsub.transport.ts:250-259 | A reject that is published and flushed leaves exactly the new copy in place of the one rejected, as the newest of its message |
| `PubSubAcks.SettlesOnce` | packages/transport-google-pubsub/src/google-pubsub.transport.ts:137-163 | After an ack or a reject neither has any effect on that delivery any more |
| `PubSubAcks.PublishesOnce` | packages/transport-google-pubsub/src/google-pubsub.transport.ts:250-259 | A rejected delivery is published once |
| `PubSubAcks.FailedPublishesNothing` | packages/transport-google-pubsub/src/google-pubsub.transport.ts:250-259 | A failed publish leaves the message stored and is not made up for |
| `PubSubAcks.TakesInOrder` | packages/transport-google-pubsub/src/google-pubsub.transport.ts:115-134 | In any run a client takes, each once and in order, what was pushed to it |
| `PubSubAcks.StoredCanBeHandled` | packages/transport-google-pubsub/src/google-pubsub.transport.ts:113-148 | From every reachable state a new client can take, ack and remove any stored message that decodes, and nothing else changes |
| `PubSubAcks.ComesBackAfterCrash` | packages/transport-google-pubsub/src/google-pubsub.transport.ts:113-148 | So can a client that died and starts anew: nothing stored is lost with it |
| `PubSubAcks.ClosedIsQuiet` | packages/transport-google-pubsub/src/google-pubsub.transport.ts:99-116 | In any run after its close, a client sends and takes nothing, and what it has in flight only shrinks |
| `WakeUps.NoLostWakeUp` | packages/transport-kafka/src/kafka.transport.ts:343-360 | For any consumers and arrivals with no woken consumer aborted before it resumes: while one is parked the buffered messages do not outnumber the live woken ones, one of whom takes the head of the buffer next |
| `WakeUps.AbortLosesIff` | packages/transport-kafka/src/kafka.transport.ts:343-353 | Aborting a live woken consumer breaks that exactly when someone is parked and every live woken consumer has its message |
| `WakeUps.AbortStrandsMessage` | packages/transport-google-pubsub/src/google-pubsub.transport.ts:284-301 | Two consumers park, one message wakes the first, who is aborted: the message waits beside a parked consumer nobody wakes |
| `WakeUps.StepKeepsCovered` | packages/transport-kafka/src/kafka.transport.ts:147-167 | Every push, turn, close, error and harmless abort keeps the wake-up invariant |
| `WakeUps.LongTurnIsTurns` | packages/transport-google-pubsub/src/google-pubsub.transport.ts:113-132 | A turn that skips messages without suspending is a run of plain turns |
| `WakeUps.FirstInFirstOut` | packages/transport-kafka/src/kafka.transport.ts:147-167 | In any run, the messages handed out, in order, and then the buffer are what was buffered and then what arrived: nothing is lost, doubled or overtaken |
| `WakeUps.NothingTakenAfterClose` | packages/transport-kafka/src/kafka.transport.ts:149-165 | After a close or a stream error no turn of any continuation takes a message |
| `WakeUps.Bridge.WakeOne` | packages/transport-kafka/src/kafka.transport.ts:355-360 | The longest-parked consumer is woken, if any |
| `WakeUps.Bridge.WakeAll` | packages/transport-kafka/src/kafka.transport.ts:362-367 | The loop over the snapshot leaves nobody parked and everybody woken |
| `WakeUps.Bridge.OnMessage` | packages/transport-kafka/src/kafka.transport.ts:246-250 | The message joins the end of the buffer and one parked consumer is woken |
| `WakeUps.Bridge.OnError` | packages/transport-google-pubsub/src/google-pubsub.transport.ts:197-200 | The error is kept for every later turn and everybody is woken |
| `WakeUps.Bridge.Close` | packages/transport-kafka/src/kafka.transport.ts:201-202 | Closing wakes everybody |
| `WakeUps.Bridge.OnAbort` | packages/transport-kafka/src/kafka.transport.ts:343-353 | A parked consumer whose signal fires is woken |
| `WakeUps.Bridge.Turn` | packages/transport-kafka/src/kafka.transport.ts:149-165 | Stop when aborted or closing, throw after a stream error, park on an empty buffer, else take its head |
| `WakeUps.Bridge.TurnPastPoison` | packages/transport-google-pubsub/src/google-pubsub.transport.ts:115-131 | The loop goes round at once past every message that does not decode |
| `Drain.DisconnectComesLast` | packages/transport-kafka/src/kafka.transport.ts:182-218 | The connection goes only after every delivery in flight at close was released and the very promise that settles it had run all its commands or failed |
| `Drain.NothingEntersAfterClose` | packages/transport-google-pubsub/src/google-pubsub.transport.ts:165-181 | In the transports without an awaited claim nothing enters the registry after close, and the close call resumes only when it is empty, which it then stays |
| `Drain.CloseCanEnd` | packages/transport-kafka/src/kafka.transport.ts:197-218 | From every reachable state with a close under way there are settles of what is in flight and ends of what is tracked after which the transport is disconnected: nothing is stuck |
| `Drain.SettledIsUntracked` | packages/transport-kafka/src/kafka.transport.ts:388-397 | A tracked promise is tracked until it ends or fails, and no longer |
| `Drain.ClosedRefuses` | packages/transport-kafka/src/kafka.transport.ts:138-141 | Closing is for good, and from then on a send does nothing |
| `Drain.LateEntryIff` | packages/transport-sql/src/sql.transport.ts:144-166 | After a close an id can still enter exactly when a consumer is past its look at closing: in setup or before its claim while that can still reach the database, or with a claim out or come back |
| `Drain.DisconnectWithDelivery` | packages/transport-sql/src/sql.transport.ts:144-166 | A claim out at close ends in a run with the connection gone and a delivery in flight |
| `Drain.ClaimAfterClose` | packages/transport-sql/src/sql.transport.ts:144-166 | So does a consumer that was still in setup at close, when no claim was out |
| `Drain.Registry.Deliver` | packages/transport-redis/src/redis-streams.transport.ts:137-146 | Delivered exactly when not closing |
| `Drain.Registry.Release` | packages/transport-redis/src/redis-streams.transport.ts:339-346 | The parked close call resumes only with an empty registry |
| `Drain.Registry.Settle` | packages/transport-kafka/src/kafka.transport.ts:182-195 | A delivery in flight is released and its whole settle tracked in one go; any other is left alone |
| `Drain.Registry.Close` | packages/transport-redis/src/redis-streams.transport.ts:191-203 | A second close returns at once; the first parks while something is in flight, else waits for the promises tracked now |

## Left out

- WorkerHistory.RetriesAreBounded: the bound counts refused dead-letterings on top of `maxRetries + 1`, because the code rejects and retries those without end.
- FailedMessages.DeadLetterUndo: asks that the failure transport is not the message's own origin, whose queue also holds entries that were never dead-lettered; `FailedMessages.UndoIsExactIff` covers every transport.
- FailedMessages.RetryAll: over the in-memory listing, which has no limit of its own; the SQL and Redis listings stop at 100 entries by default, and retryAll with them.
- MysqlClaims.OpenClaimsDiffer: speaks of claims that hold a row at the same time; a claim begun before another's commit may still take that row later, once its lease is over, which `MysqlRuns.CloseClaimsDiffer` bounds.
- RedisRuns.AlwaysDeliverable: excludes a crash, failed append or quit connection inside a promotion, where the code loses messages; `RedisRuns.PromotionCrashLosesIff` says which. Two `get` loops on one transport object are two consumers of the machine, whose registries are then apart.
- RedisLeases.LeaseExclusion: asks that nothing is in hand for longer than a reclaimer's idle time, which `RedisLeases.SecondHandIff` shows to be exact; it speaks of two consumers, the ids of one reclaim being any list.
- RedisLeases.AckedIsGone: uninterrupted; an ack cut short leaves its entry pending, and once the XACK got through `RedisLeases.SettledIsNeverHandedOut` holds whatever follows.
- KafkaRuns.CrashSafety: asks that no pull overtakes, which `KafkaLoss.PullIsSafeIff` shows to be exact.
- KafkaOffsets.CommittedNeverFalls: asks for one message of a partition at a time; `KafkaOffsets.PromptMayFall` shows the fall without it.
- WakeUps.NoLostWakeUp: asks that no woken consumer is aborted before it resumes; `WakeUps.AbortLosesIff` says when that matters.
- Drain.NothingEntersAfterClose: not for SQL, whose setup and claim are awaited between the check and the addition; `Drain.LateEntryIff` says what can enter there.
- Worker.Worker.Run: takes its number of turns, the signal, the outcomes and the clock as parameters; the runtime limit is part of the signal.
- MysqlClaims.MysqlServer.ClaimOne: its statements run one after the other, at one moment; interleavings are in the machine of the same module.
- SqlTransport.SqlTransport.Poll: its awaits uninterrupted; what happens in between is in `SqlRuns`, and a close in between in `Drain`.
- RedisTransport.RedisStreamsTransport.Reject: uninterrupted; interleavings, crashes and failed commands are in `RedisRuns`.
- KafkaTransport.KafkaTransport.Reject: uninterrupted; interleavings, crashes and failed commits are in `KafkaRuns`.
- Database and broker clients, pools, DSN parsing, table, topic and subscription creation, LISTEN connections and Postgres's notification waits.
- Consumer-group rebalancing, Pub/Sub ack deadlines, wall-clock timers and `abortableSleep`: a monotone clock and arbitrary events stand for them.
- Rounding of stored times to milliseconds, and stamps read by different servers' clocks: one clock, exact times.
- JSON text, Date values and prototypes: texts stand for the JSON values they parse to; `redeliveredAt` of a RedeliveryStamp is not modelled.
- Floating-point overflow, NaN and infinite options, offsets above 2^53.
- Dropping and re-creating a table with its ids: ids are never reused; ids used up by rolled-back inserts appear in `TransientRetry` only.
- Entries of a Redis stream that are acknowledged but never deleted, such as discarded ones: they are no longer deliverable and cost only space.
- RedisProgress.EverythingCanBeHandled: says what a new consumer can reach, not that a scheduler takes it there; how far one XAUTOCLAIM scans past entries that are not idle is not modelled, and does not matter in the run it exhibits, where no such entry comes first.
- Removing one failed message by hand, which is a find and an ack.
- `FailedMessageManager` beside running workers: its calls are proved from every state the workers can reach, but are not events of the worker machine; `FailedMessages.LateRetry` and `FailedMessages.RetryBesideWorker` say what an interleaved retry does.
- Sends from inside handlers, user middlewares and synchronous dispatch: a user middleware that throws is the outcome `Infrastructure`.
- Handler registry, routing lookup, error mapping, stream reply parsing, the NestJS module, the CLI and the failed-message view: table lookups and display.
