/**
 * The queue scenarios of `MessageSenderJobQueueTest`, each as a method that builds a
 * fresh sender and queue, drives them as the test does and returns what the test
 * inspects; the postconditions are the test's assertions.
 */
module MessageSendJobQueueTest {
  import opened Wrappers
  import opened JobQueue

  /** `test_messageIsSent`: one persisted job and a sender that succeeds. */
  method MessageIsSent(message: OutgoingMessage) returns (sent: seq<OutgoingMessage>, promise: PromiseState)
    ensures sent == [message]
    ensures promise == Resolved
  {
    var sender := new FakeMessageSender();
    var jobQueue := new MessageSenderJobQueue(sender);
    var id := jobQueue.Add(Persisted(message));
    sender.stubbedFailingErrors := [None];
    jobQueue.SetUp();
    sent, promise := sender.sentMessages, jobQueue.promises[id];
  }

  /** The test's write transaction: adds one persisted job per message, in order, before set-up. */
  method AddEach(jobQueue: MessageSenderJobQueue, messages: seq<OutgoingMessage>) returns (ids: seq<JobId>)
    requires jobQueue.Valid() && !jobQueue.isSetUp
    requires jobQueue.records == map[] && jobQueue.lane == [] && jobQueue.pendingRetries == [] && jobQueue.nextJobId == 0
    requires jobQueue.sender.sentMessages == [] && jobQueue.sender.stubbedFailingErrors == []
    modifies jobQueue, jobQueue.sender
    ensures jobQueue.Valid() && !jobQueue.isSetUp
    ensures jobQueue.lane == ids && jobQueue.pendingRetries == [] && |ids| == |messages|
    ensures forall j :: 0 <= j < |ids| ==> ids[j] == j
    ensures forall j :: 0 <= j < |ids| ==> ids[j] in jobQueue.records && jobQueue.records[ids[j]] == NewJobRecord(messages[j])
    ensures jobQueue.sender.sentMessages == [] && jobQueue.sender.stubbedFailingErrors == []
  {
    ids := [];
    while |ids| < |messages|
      invariant jobQueue.Valid() && !jobQueue.isSetUp
      invariant jobQueue.lane == ids && jobQueue.pendingRetries == [] && jobQueue.nextJobId == |ids| <= |messages|
      invariant forall j :: 0 <= j < |ids| ==> ids[j] == j
      invariant forall j :: 0 <= j < |ids| ==> ids[j] in jobQueue.records && jobQueue.records[ids[j]] == NewJobRecord(messages[j])
      invariant jobQueue.sender.sentMessages == [] && jobQueue.sender.stubbedFailingErrors == []
    {
      var id := jobQueue.Add(Persisted(messages[|ids|]));
      ids := ids + [id];
    }
  }

  /** Dispatching the jobs `AddEach` queued, with one success answer each, sends the messages in order and resolves every promise. */
  lemma InOrderDelivery(w: QueueState, ids: seq<JobId>, messages: seq<OutgoingMessage>)
    requires |ids| == |messages|
    requires forall j :: 0 <= j < |ids| ==> ids[j] == j
    requires forall j :: 0 <= j < |ids| ==> ids[j] in w.records && w.records[ids[j]] == NewJobRecord(messages[j])
    requires w.sent == [] && w.script == seq(|messages|, _ => None)
    ensures AttemptAll(w, ids).sent == messages
    ensures forall j :: 0 <= j < |ids| ==> ids[j] in AttemptAll(w, ids).promises && AttemptAll(w, ids).promises[ids[j]] == Resolved
  {
    assert MessagesOf(w.records, ids) == messages;
    AttemptAllSendsInOrder(w, ids);
    AttemptAllDeliversAll(w, ids);
  }

  /** `test_respectsQueueOrder`: jobs added before set-up are sent in insertion order, each once. */
  method RespectsQueueOrder(messages: seq<OutgoingMessage>) returns (sent: seq<OutgoingMessage>, promises: seq<PromiseState>)
    ensures sent == messages
    ensures |promises| == |messages|
    ensures forall i :: 0 <= i < |promises| ==> promises[i] == Resolved
  {
    var sender := new FakeMessageSender();
    var jobQueue := new MessageSenderJobQueue(sender);
    var ids := AddEach(jobQueue, messages);
    sender.stubbedFailingErrors := seq(|messages|, _ => None);
    ghost var before := jobQueue.State();
    jobQueue.SetUp();
    InOrderDelivery(before, ids, messages);
    sent := sender.sentMessages;
    var settled := jobQueue.promises;
    promises := seq(|ids|, i requires 0 <= i < |ids| && ids[i] in settled => settled[ids[i]]);
  }

  /** `test_sendingInvisibleMessage`: a transient job added after set-up is dispatched at once. */
  method SendingInvisibleMessage(message: OutgoingMessage)
    returns (sent: seq<OutgoingMessage>, promise: PromiseState, stored: Option<JobRecord>)
    ensures sent == [message]
    ensures promise == Resolved
    ensures stored == None
  {
    var sender := new FakeMessageSender();
    var jobQueue := new MessageSenderJobQueue(sender);
    sender.stubbedFailingErrors := [None];
    jobQueue.SetUp();
    var id := jobQueue.Add(Transient(message));
    sent, promise, stored := sender.sentMessages, jobQueue.promises[id], jobQueue.FetchLatest(id);
  }

  /**
   * The write transaction the failure tests open: a fresh queue, not yet set up, holding
   * one persisted job (id 0) for `message`; then the finder's read of the ready records.
   */
  method NewQueueWithPersistedJob(message: OutgoingMessage)
    returns (sender: FakeMessageSender, jobQueue: MessageSenderJobQueue, id: JobId, readyRecords: seq<JobRecord>)
    ensures fresh(sender) && fresh(jobQueue)
    ensures readyRecords == [JobRecord(message, Ready, 0)]
    ensures jobQueue.Valid() && jobQueue.sender == sender && !jobQueue.isSetUp
    ensures id == 0 && jobQueue.lane == [0] && jobQueue.nextJobId == 1 && jobQueue.transientJobs == {}
    ensures jobQueue.State() == QueueState(map[0 := NewJobRecord(message)], map[0 := Pending], [], [], [])
  {
    sender := new FakeMessageSender();
    jobQueue := new MessageSenderJobQueue(sender);
    id := jobQueue.Add(Persisted(message));
    assert jobQueue.Store() == map[0 := NewJobRecord(message)];
    readyRecords := jobQueue.AllRecords(Ready);
  }

  /**
   * The queue of `RetryableFailure` after job 0 (carrying `message`) met `failures`
   * retryable errors: retried while `failures <= MaxRetries`, permanently failed after.
   */
  function AfterRetryableFailures(message: OutgoingMessage, failures: nat): QueueState
    requires 1 <= failures <= MaxRetries + 1
  {
    var exhausted := failures > MaxRetries;
    QueueState(
      map[0 := JobRecord(message, if exhausted then PermanentlyFailed else Ready, failures)],
      map[0 := if exhausted then Rejected(RetryableError) else Pending],
      if exhausted then [] else [0],
      seq(MaxRetries + 1 - failures, _ => Some(RetryableError)),
      seq(failures, _ => message))
  }

  /** The first attempt, started by set-up, fails once and schedules a retry. */
  lemma FirstRetryableFailure(message: OutgoingMessage, w: QueueState)
    requires w.records == map[0 := NewJobRecord(message)] && w.promises == map[0 := Pending] && w.retries == []
    requires w.script == seq(MaxRetries + 1, _ => Some(RetryableError)) && w.sent == []
    ensures AttemptAll(w, [0]) == AfterRetryableFailures(message, 1)
  {
    assert AttemptAll(w, [0]) == AttemptAll(Attempt(w, 0), []);
    assert NextResult(w.script) == Some(RetryableError);
    assert RestOfScript(w.script) == seq(MaxRetries, _ => Some(RetryableError));
  }

  /** Each forced retry fails once more; the one that exceeds `MaxRetries` fails the job for good. */
  lemma RetryableFailureStep(message: OutgoingMessage, failures: nat)
    requires 1 <= failures <= MaxRetries
    ensures Attempt(AfterRetryableFailures(message, failures).(retries := []), 0) ==
              AfterRetryableFailures(message, failures + 1)
  {
    var w := AfterRetryableFailures(message, failures).(retries := []);
    assert NextResult(w.script) == Some(RetryableError);
    assert RestOfScript(w.script) == seq(MaxRetries - failures, _ => Some(RetryableError));
    assert w.sent + [message] == seq(failures + 1, _ => message);
  }

  /**
   * The test's retry trigger: forces the pending retry until the job's promise settles.
   * Starting after the first retryable failure, it ends after the `MaxRetries + 1`st.
   */
  method ForceRetriesUntilSettled(jobQueue: MessageSenderJobQueue, message: OutgoingMessage)
    requires jobQueue.Valid() && jobQueue.lane == [] && jobQueue.transientJobs == {}
    requires jobQueue.State() == AfterRetryableFailures(message, 1)
    modifies jobQueue, jobQueue.sender
    ensures jobQueue.Valid() && jobQueue.transientJobs == {}
    ensures jobQueue.State() == AfterRetryableFailures(message, MaxRetries + 1)
  {
    ghost var failures: nat := 1;
    while jobQueue.promises[0] == Pending
      invariant 1 <= failures <= MaxRetries + 1
      invariant jobQueue.Valid() && jobQueue.lane == [] && jobQueue.transientJobs == {}
      invariant jobQueue.State() == AfterRetryableFailures(message, failures)
      decreases MaxRetries + 1 - failures
    {
      RetryableFailureStep(message, failures);
      var retried := jobQueue.RunAnyQueuedRetry();
      failures := failures + 1;
    }
  }

  /**
   * `test_retryableFailure`: a sender that answers `MaxRetries + 1` retryable errors, and
   * retries forced until the promise settles. The job is sent `MaxRetries + 1` times, its
   * stored record ends permanently failed with that failure count, its promise is
   * rejected and no retry remains.
   */
  method RetryableFailure(message: OutgoingMessage)
    returns (readyRecords: seq<JobRecord>, latest: Option<JobRecord>, sent: seq<OutgoingMessage>,
             promise: PromiseState, retryAfter: Option<JobId>)
    ensures readyRecords == [JobRecord(message, Ready, 0)]
    ensures latest == Some(JobRecord(message, PermanentlyFailed, MaxRetries + 1))
    ensures sent == seq(MaxRetries + 1, _ => message)
    ensures promise == Rejected(RetryableError)
    ensures retryAfter == None
  {
    var sender, jobQueue, id;
    sender, jobQueue, id, readyRecords := NewQueueWithPersistedJob(message);
    sender.stubbedFailingErrors := seq(MaxRetries + 1, _ => Some(RetryableError));
    FirstRetryableFailure(message, jobQueue.State());
    jobQueue.SetUp();
    ForceRetriesUntilSettled(jobQueue, message);
    latest, sent, promise := jobQueue.FetchLatest(id), sender.sentMessages, jobQueue.promises[id];
    retryAfter := jobQueue.RunAnyQueuedRetry();
  }

  /** The single attempt of `PermanentFailure`: one failure, permanently failed, no retry. */
  lemma UnretryableFailure(message: OutgoingMessage, w: QueueState)
    requires w.records == map[0 := NewJobRecord(message)] && w.promises == map[0 := Pending] && w.retries == []
    requires w.script == [Some(UnretryableError)] && w.sent == []
    ensures AttemptAll(w, [0]) ==
              QueueState(map[0 := JobRecord(message, PermanentlyFailed, 1)], map[0 := Rejected(UnretryableError)],
                         [], [], [message])
  {
    assert AttemptAll(w, [0]) == AttemptAll(Attempt(w, 0), []);
  }

  /**
   * `test_permanentFailure`: one unretryable error. The job is sent once, its stored
   * record ends permanently failed with one failure, its promise is rejected and no
   * retry is pending.
   */
  method PermanentFailure(message: OutgoingMessage)
    returns (readyRecords: seq<JobRecord>, latest: Option<JobRecord>, sent: seq<OutgoingMessage>,
             promise: PromiseState, retryAfter: Option<JobId>)
    ensures readyRecords == [JobRecord(message, Ready, 0)]
    ensures latest == Some(JobRecord(message, PermanentlyFailed, 1))
    ensures sent == [message]
    ensures promise == Rejected(UnretryableError)
    ensures retryAfter == None
  {
    var sender, jobQueue, id;
    sender, jobQueue, id, readyRecords := NewQueueWithPersistedJob(message);
    sender.stubbedFailingErrors := [Some(UnretryableError)];
    UnretryableFailure(message, jobQueue.State());
    jobQueue.SetUp();
    latest, sent, promise := jobQueue.FetchLatest(id), sender.sentMessages, jobQueue.promises[id];
    retryAfter := jobQueue.RunAnyQueuedRetry();
  }
}
