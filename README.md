# Signal-iOS outbound message sending, modelled in Dafny

This project models two parts of Signal-iOS that prepare and send outgoing messages.

**The outbound message job queue (`MessageSenderJobQueue`).** Its behaviour is modelled as its tests pin it down (module `JobQueue`, file `JobQueue.dfy`).
- `add` records a job for an outgoing message and hands back a completion promise. A persisted message gets a stored job record. An "invisible" transient message is kept in memory only.
- `setUp` starts dispatch. It sends the queued jobs one at a time, in insertion order.
- The sender's answer decides each attempt:
  - success deletes the record and resolves the promise;
  - an error adds one to the record's `failureCount`;
  - a retryable error leaves the job waiting for a retry while `failureCount` stays within `maxRetries` (110);
  - otherwise the record becomes `permanentlyFailed`, stays in the store, and the promise is rejected.
- `runAnyQueuedRetry` runs the earliest pending retry now, or returns nil when none is pending.
- The scripted `FakeMessageSender` answers each send with the next entry of `stubbedFailingErrors` and logs every message it is handed in `sentMessages`.

The queue is a class whose methods update its fields. Each method is proved against a pure state-transition function on `QueueState`: `Enqueue`, `Attempt` (one dispatch) and `AttemptAll` (dispatch of a sequence of jobs in order). Lemmas about those functions prove:
- first-in-first-out sending;
- one scripted answer consumed per send;
- delivery under an all-success script;
- that a job settles within `maxRetries + 1` sends.

A table invariant (`JobsConsistent`) covers ids, records, promises and the two queues. It is preserved by every operation.

The five scenarios of `MessageSenderJobQueueTest` are methods of module `MessageSendJobQueueTest`. Each builds a fresh sender and queue, drives them as the test does, and returns what the test inspects. The test's assertions are their postconditions. Two reads are the model's additions, not steps or assertions of the tests: the `FetchLatest` of the transient job in `SendingInvisibleMessage`, and the final `RunAnyQueuedRetry` in `PermanentFailure`.

**Per-destination message-body preparation (`AttachmentMultisend.prepareForSending`).** This is module `AttachmentMultisend`.
- One draft body goes to several conversations.
- A body without mentions, or no body at all, is validated at most once and shared by every destination.
- A body with mentions is hydrated for each destination's thread, and each hydrated body is validated on its own.
- A conversation without a thread fails the whole call before any validation.
- The first validation error fails the whole call.
- On success there is one `Destination` per conversation, in input order.

The lookup, hydration and validation collaborators are parameters: the function fields of `Collaborators`.

`Wrappers.dfy` holds the `Option` and `Result` types both modules use.

## Model

| member | source | states |
|---|---|---|
| JobQueue.MessageSenderJobQueue.constructor | SignalServiceKit/tests/Network/MessageSendJobQueueTest.swift:15 | A new queue has no jobs, no promises, nothing queued, is not set up, and satisfies the table invariant |
| JobQueue.MessageSenderJobQueue.Add | SignalServiceKit/tests/Network/MessageSendJobQueueTest.swift:26-31 | `add` hands out the next id and records a ready job with no failures and a pending promise. A transient message is kept out of the store. Before set-up the job joins the end of the lane. After set-up it is dispatched at once. The invariant is kept |
| JobQueue.MessageSenderJobQueue.Track | SignalServiceKit/tests/Network/MessageSendJobQueueTest.swift:18-30 | The bookkeeping part of `add`: the next id gets a ready record with no failures and a pending promise and joins the end of the lane. The table invariant is kept |
| JobQueue.MessageSenderJobQueue.SetUp | SignalServiceKit/tests/Network/MessageSendJobQueueTest.swift:34 | `setUp` leaves the queue set up with an empty lane. The new state is the dispatch, in order, of every job that was in the lane |
| JobQueue.MessageSenderJobQueue.DrainLane | SignalServiceKit/tests/Network/MessageSendJobQueueTest.swift:62-65 | The dispatch loop empties the lane. Its effect equals `AttemptAll` over the old lane, and the invariant is kept |
| JobQueue.MessageSenderJobQueue.Execute | SignalServiceKit/tests/Network/MessageSendJobQueueTest.swift:188-204 | One execution of a job equals `Attempt`: the message is sent once, and the record and promise are settled or a retry is queued. The invariant is restored |
| JobQueue.MessageSenderJobQueue.RecordOutcome | SignalServiceKit/tests/Network/MessageSendJobQueueTest.swift:139-148 | Records an attempt's outcome: a delivered job's record is deleted and its promise resolved; a job awaiting a retry gets its new record and joins the end of the retry queue; a failed job keeps its new record and its promise is rejected with the error. Nothing else changes |
| JobQueue.MessageSenderJobQueue.RunAnyQueuedRetry | SignalServiceKit/tests/Network/MessageSendJobQueueTest.swift:125-151 | Returns nil exactly when no retry is pending, and then nothing changes. Otherwise it returns the earliest pending retry's id, and the new state is one attempt at that job with it removed from the retry queue |
| JobQueue.MessageSenderJobQueue.AllRecords | SignalServiceKit/tests/Network/MessageSendJobQueueTest.swift:106-113 | `allRecords(status:)` returns the stored records with that status in insertion order (`RecordsWithStatus`) |
| JobQueue.RecordsWithStatusMembers | SignalServiceKit/tests/Network/MessageSendJobQueueTest.swift:106-114 | A record is among those found for a status exactly when it has that status and is stored under some issued id |
| JobQueue.MessageSenderJobQueue.FetchLatest | SignalServiceKit/tests/Network/MessageSendJobQueueTest.swift:208-215 | `fetchLatest` finds a job's record exactly when the store holds it, and returns the stored record |
| JobQueue.FakeMessageSender.SendMessage | SignalServiceKit/tests/Network/MessageSendJobQueueTest.swift:33-36 | Each send appends the message to `sentMessages` and answers the first scripted result, which it consumes. An exhausted script answers success |
| JobQueue.AfterAttempt | SignalServiceKit/tests/Network/MessageSendJobQueueTest.swift:119-148 | The retry policy. A success delivers the job. Any error adds exactly one failure to the record, for the same message. A retryable error leaves the job `ready` for a retry exactly when the new count stays within `maxRetries` (110). Otherwise the job becomes `permanentlyFailed` with that error |
| JobQueue.SettleIsBounded | SignalServiceKit/tests/Network/MessageSendJobQueueTest.swift:119-121 | Whatever the sender answers, a job with at most `maxRetries` failures settles after 1 to `maxRetries + 1 - failureCount` sends. A job that fails ends `permanentlyFailed` with its failure count raised by exactly the number of sends, and at most `maxRetries + 1` |
| JobQueue.RetryableErrorsExhaustRetries | SignalServiceKit/tests/Network/MessageSendJobQueueTest.swift:119-148 | A job that only meets retryable errors is sent exactly `maxRetries + 1 - failureCount` more times. It ends `permanentlyFailed` with `failureCount == maxRetries + 1`, failed with the retryable error |
| JobQueue.SettleMatchesRetriedAttempts | SignalServiceKit/tests/Network/MessageSendJobQueueTest.swift:124-151 | Consider a job that is the only one awaiting a retry (or about to be dispatched with none pending), retried whenever its retry is pending. After `Settle`'s number of sends, its message went out that many times and no retry is left. The job is deleted with a resolved promise, or its record and rejection are those `Settle` computes |
| JobQueue.AttemptAllSendsInOrder | SignalServiceKit/tests/Network/MessageSendJobQueueTest.swift:39-67 | Dispatching distinct queued jobs sends each job's message exactly once, in queue order, whatever the sender answers |
| JobQueue.AttemptAllConsumesScript | SignalServiceKit/tests/Network/MessageSendJobQueueTest.swift:61-62 | Dispatching distinct queued jobs consumes exactly one scripted answer per job |
| JobQueue.AttemptAllDeliversAll | SignalServiceKit/tests/Network/MessageSendJobQueueTest.swift:61-65 | With a success answer for each of them, every dispatched job's promise resolves, its record is deleted, and no retry is scheduled |
| JobQueue.AttemptAllFramesOthers | SignalServiceKit/tests/Network/MessageSendJobQueueTest.swift:63-65 | Dispatching some jobs leaves the record and promise of every other job unchanged |
| JobQueue.AttemptFramesOthers | SignalServiceKit/tests/Network/MessageSendJobQueueTest.swift:63-65 | One attempt leaves the record and promise of every other job unchanged |
| JobQueue.AttemptSendsOnce | SignalServiceKit/tests/Network/MessageSendJobQueueTest.swift:33-36 | An attempt at a job with a record sends that job's message once and consumes one scripted answer |
| JobQueue.EnqueueKeepsJobsConsistent | SignalServiceKit/tests/Network/MessageSendJobQueueTest.swift:30 | A new ready job with the next id and a pending promise keeps the table invariant |
| JobQueue.DequeueKeepsJobsConsistent | SignalServiceKit/tests/Network/MessageSendJobQueueTest.swift:129 | Taking a job off the lane or the retry queue makes it the single job in flight. The rest of the table stays consistent |
| JobQueue.AttemptKeepsJobsConsistent | SignalServiceKit/tests/Network/MessageSendJobQueueTest.swift:143-144 | The attempt at the job in flight restores the invariant whatever the outcome: delivered (record gone, promise resolved), retried (ready and re-queued), or `permanentlyFailed` with a rejected promise |
| MessageSendJobQueueTest.MessageIsSent | SignalServiceKit/tests/Network/MessageSendJobQueueTest.swift:14-37 | With a succeeding sender, one job added before set-up is sent exactly once, as that message, and its promise resolves |
| MessageSendJobQueueTest.RespectsQueueOrder | SignalServiceKit/tests/Network/MessageSendJobQueueTest.swift:39-67 | Any number of jobs added before set-up, with all-success answers, are sent exactly in insertion order, each once. Every promise resolves |
| MessageSendJobQueueTest.AddEach | SignalServiceKit/tests/Network/MessageSendJobQueueTest.swift:42-60 | Adding one persisted job per message before set-up queues ids 0, 1, ... in message order, each with a new ready record for its message, and sends nothing |
| MessageSendJobQueueTest.InOrderDelivery | SignalServiceKit/tests/Network/MessageSendJobQueueTest.swift:61-66 | Dispatching those jobs with one success answer each sends exactly the messages, in order, and resolves every promise |
| MessageSendJobQueueTest.SendingInvisibleMessage | SignalServiceKit/tests/Network/MessageSendJobQueueTest.swift:69-83 | A transient message added after set-up is sent once and its promise resolves. The model adds a `FetchLatest` read, which the test does not make; it finds no stored record of the job |
| MessageSendJobQueueTest.NewQueueWithPersistedJob | SignalServiceKit/tests/Network/MessageSendJobQueueTest.swift:86-117 | One persisted job added before set-up gives exactly one ready record, with `failureCount == 0` |
| MessageSendJobQueueTest.FirstRetryableFailure | SignalServiceKit/tests/Network/MessageSendJobQueueTest.swift:119-122 | Set-up's first attempt against 111 retryable errors fails once and leaves the job ready, retry pending, promise pending |
| MessageSendJobQueueTest.RetryableFailureStep | SignalServiceKit/tests/Network/MessageSendJobQueueTest.swift:124-131 | Each forced retry adds one failure and one send. The retry that passes `maxRetries` fails the job for good and rejects its promise |
| MessageSendJobQueueTest.ForceRetriesUntilSettled | SignalServiceKit/tests/Network/MessageSendJobQueueTest.swift:124-137 | Forcing the pending retry until the promise settles takes the job from its first retryable failure to its `maxRetries + 1`st: permanently failed, promise rejected, message sent `maxRetries + 1` times |
| MessageSendJobQueueTest.RetryableFailure | SignalServiceKit/tests/Network/MessageSendJobQueueTest.swift:85-152 | The outcome is one ready record with `failureCount == 0`. With 111 retryable errors and retries forced until the promise settles: the message is sent 111 times, the stored record ends `permanentlyFailed` with `failureCount == 111`, the promise is rejected, and `runAnyQueuedRetry` then returns nil |
| MessageSendJobQueueTest.UnretryableFailure | SignalServiceKit/tests/Network/MessageSendJobQueueTest.swift:188-191 | One unretryable error gives one send, a `permanentlyFailed` record with one failure, a rejected promise and no retry |
| MessageSendJobQueueTest.PermanentFailure | SignalServiceKit/tests/Network/MessageSendJobQueueTest.swift:154-205 | One ready record with `failureCount == 0`. After one unretryable error, exactly one send, a stored `permanentlyFailed` record with `failureCount == 1`, a rejected promise, and no pending retry. That last fact is read with a `RunAnyQueuedRetry` call the model adds; the test does not make it |
| AttachmentMultisend.CanShareMessageBody | SignalUI/AttachmentMultisend/AttachmentMultisend+OversizeText.swift:28 | The body is shared exactly when it is absent or has no mentions |
| AttachmentMultisend.HydratedBodyFor | SignalUI/AttachmentMultisend/AttachmentMultisend+OversizeText.swift:41-47 | A pre-destination gets a hydrated body exactly when the body is not shared and exists. That body is the draft hydrated for the destination's own thread |
| AttachmentMultisend.ValidateSharedBody | SignalUI/AttachmentMultisend/AttachmentMultisend+OversizeText.swift:58-74 | No body means no validation and a nil shared body. Otherwise the result is the validator's answer for the original body, a value or an error |
| AttachmentMultisend.ValidateHydratedBody | SignalUI/AttachmentMultisend/AttachmentMultisend+OversizeText.swift:87-103 | A destination with no hydrated body gets nil with no validation. Otherwise the result is the validator's answer for the hydrated body turned back into a forwardable body |
| AttachmentMultisend.PreDestinations | SignalUI/AttachmentMultisend/AttachmentMultisend+OversizeText.swift:36-54 | Fails with the missing-thread error exactly when some conversation has no thread. Otherwise there is one pre-destination per conversation, in order, each with that conversation, its thread and a body hydrated for that thread (none when the body is shared or absent) |
| AttachmentMultisend.ShareBody | SignalUI/AttachmentMultisend/AttachmentMultisend+OversizeText.swift:75-81 | One destination per pre-destination, in order, keeping its conversation and thread. All destinations carry the same validated body |
| AttachmentMultisend.ValidationInputsWhenAllHydrated | SignalUI/AttachmentMultisend/AttachmentMultisend+OversizeText.swift:86-103 | When every pre-destination has a hydrated body, the per-thread loop hands each of them to the validator exactly once, in order |
| AttachmentMultisend.PrepareEachBody | SignalUI/AttachmentMultisend/AttachmentMultisend+OversizeText.swift:84-110 | Succeeds exactly when every per-thread validation does. Then there is one destination per pre-destination, in order, carrying the validation of its own hydrated body (nil, with no validation, when it has none). On failure the error is the first failing validation's, and nothing after it was validated |
| AttachmentMultisend.PrepareForSending | SignalUI/AttachmentMultisend/AttachmentMultisend+OversizeText.swift:19-111 | A missing thread fails the call with no validation. On success there is one destination per conversation, in order, with its thread. Without mentions, the body is validated at most once, on the original, and shared (nil for a nil body); the call fails exactly when that validation does, with its error. With mentions, each destination carries the validation of the body hydrated for its own thread; the call fails exactly when one of them does, with the first failure's error |

## Left out

- JobQueue.MessageSenderJobQueue.FetchLatest: returns `None` for a job whose record is no longer stored. The source's `fetchLatest` returns a record and halts with `owsFail` when the record was removed; `None` stands for that failure.
- The queue's implementation is not part of this model: `MessageSenderJobQueue`, `MessageSenderJobRecord` and `JobRecordFinderImpl` are only seen through the test. Their behaviour is reconstructed from its assertions and from the record's statuses (`ready` to `executing`, then deleted, `ready` again or `permanentlyFailed`).
- JobQueue.FakeMessageSender.SendMessage: an exhausted `stubbedFailingErrors` script is taken as success. The fake sender's code is not part of this model, and every test supplies at least as many entries as sends.
- The retry count is fixed at `maxRetries = 110`, the figure the test says matches the sender. Any retryable error increments `failureCount`, and the job is retried while the new count is at most 110.
- Backoff delays, retry timers and the background task that polls `runAnyQueuedRetry` are not modelled. A pending retry waits in a FIFO sequence until `RunAnyQueuedRetry` runs it. The test's polling loop becomes a loop that calls `RunAnyQueuedRetry` until the promise settles.
- High-priority jobs, several dispatch lanes and recovery of persisted ready records when the process restarts are not modelled. `setUp` only dispatches what was added to this queue object.
- Database transactions (`awaitableWrite`, `read`) are sequential in-memory updates. The store is the map of persisted jobs' records, with ids from an insertion counter.
- `async`/`await`, `Task.detached`, continuations and `DispatchQueue` are sequential calls. Promises are values (pending, resolved, rejected with an error).
- The `executing` status only exists inside one call of `Execute`. No caller can observe it between operations.
- The record of a transient job that fails permanently stays in the queue's memory. It is never part of the store.
- `OutgoingMessageFactory`, `PreparedOutgoingMessage.restore` and the message's content are left out. A message is its `uniqueId`.
- Thread lookup (`getOrCreateThread`), hydration (`forForwarding`, `asMessageBodyForForwarding`), mention detection (`ranges.hasMentions`, a boolean of the body) and `prepareOversizeTextsIfNeeded` are parameters. Their code is not part of this model. The validator's error is an opaque code.
- `db` and `attachmentValidator` as objects are folded into those collaborator functions.
- Signal/ConversationView/ConversationViewController+MessageActionsDelegate.swift (presentation code) and SignalServiceKit/Payments/TSPaymentModel.h (declarations only) are not part of this model.
