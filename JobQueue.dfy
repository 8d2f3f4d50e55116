/**
 * The outbound message job queue (`MessageSenderJobQueue`) and the scripted sender
 * (`FakeMessageSender`) its tests drive it with.
 *
 * A job is a `JobRecord` (message, status, failure count). Persisted jobs are also
 * visible in the durable store; transient ("invisible") jobs live in memory only.
 * Jobs wait in a FIFO lane until `SetUp` starts dispatch; each attempt hands the
 * job's message to the sender, and the sender's outcome decides whether the job is
 * delivered (record deleted, promise resolved), waits for a retry (failure count
 * incremented, promise still pending) or fails for good (record kept as
 * `PermanentlyFailed`, promise rejected). A pending retry is run by
 * `RunAnyQueuedRetry`; timers and backoff delays are not modelled.
 */
module JobQueue {
  import opened Wrappers

  /** `maxRetries` of message sends: a job may fail this many times and still be retried. */
  const MaxRetries: nat := 110

  type JobId = nat

  datatype OutgoingMessage = OutgoingMessage(uniqueId: nat)

  /** Restored from a persisted job record, or transient: never written to the store. */
  datatype PreparedOutgoingMessage =
    | Persisted(message: OutgoingMessage)
    | Transient(message: OutgoingMessage)

  datatype JobStatus = Ready | Executing | PermanentlyFailed

  datatype JobRecord = JobRecord(message: OutgoingMessage, status: JobStatus, failureCount: nat)

  /** `OWSRetryableError` and `OWSUnretryableError`. */
  datatype SendError = RetryableError | UnretryableError

  /** The completion promise `add` hands back. */
  datatype PromiseState = Pending | Resolved | Rejected(error: SendError)

  /** What one send attempt does to a job. */
  datatype AttemptOutcome =
    | Delivered
    | RetryPending(record: JobRecord)
    | Failed(record: JobRecord, error: SendError)

  function NewJobRecord(message: OutgoingMessage): JobRecord {
    JobRecord(message, Ready, 0)
  }

  /**
   * The classification of one attempt: success delivers; any error counts one more
   * failure; a retryable error is retried while the count stays within `MaxRetries`,
   * anything else fails the job permanently.
   */
  function AfterAttempt(record: JobRecord, result: Option<SendError>): (outcome: AttemptOutcome)
    ensures outcome.Delivered? <==> result.None?
    ensures outcome.RetryPending? <==> result == Some(RetryableError) && record.failureCount < MaxRetries
    ensures !outcome.Delivered? ==>
              outcome.record.message == record.message && outcome.record.failureCount == record.failureCount + 1
    ensures outcome.RetryPending? ==> outcome.record.status == Ready
    ensures outcome.Failed? ==> outcome.record.status == PermanentlyFailed && outcome.error == result.value
  {
    match result
    case None => Delivered
    case Some(e) =>
      var failureCount := record.failureCount + 1;
      if e == RetryableError && failureCount <= MaxRetries then
        RetryPending(record.(status := Ready, failureCount := failureCount))
      else
        Failed(record.(status := PermanentlyFailed, failureCount := failureCount), e)
  }

  /** The next scripted outcome: an exhausted script means success. */
  function NextResult(script: seq<Option<SendError>>): Option<SendError> {
    if script == [] then None else script[0]
  }

  function RestOfScript(script: seq<Option<SendError>>): seq<Option<SendError>> {
    if script == [] then [] else script[1..]
  }

  /**
   * One job run on its own until it settles: the final outcome and the number of
   * sends it took, each send consuming one scripted result.
   */
  function Settle(record: JobRecord, script: seq<Option<SendError>>): (AttemptOutcome, nat)
    decreases |script|
  {
    match AfterAttempt(record, NextResult(script))
    case RetryPending(next) =>
      var (outcome, sends) := Settle(next, script[1..]);
      (outcome, sends + 1)
    case outcome => (outcome, 1)
  }

  /** A job settles after at most `MaxRetries + 1` sends in all, whatever the sender answers. */
  lemma {:induction false} SettleIsBounded(record: JobRecord, script: seq<Option<SendError>>)
    requires record.failureCount <= MaxRetries
    ensures !Settle(record, script).0.RetryPending?
    ensures 1 <= Settle(record, script).1 <= MaxRetries + 1 - record.failureCount
    ensures Settle(record, script).0.Failed? ==>
              Settle(record, script).0.record.status == PermanentlyFailed &&
              record.failureCount < Settle(record, script).0.record.failureCount <= MaxRetries + 1
    ensures Settle(record, script).0.Failed? ==>
              Settle(record, script).0.record.failureCount == record.failureCount + Settle(record, script).1
    decreases |script|
  {
    match AfterAttempt(record, NextResult(script))
    case RetryPending(next) =>
      SettleIsBounded(next, script[1..]);
    case _ =>
  }

  /**
   * A job that only ever meets retryable errors is sent exactly `MaxRetries + 1 - failureCount`
   * more times and ends permanently failed with `failureCount == MaxRetries + 1`.
   */
  lemma {:induction false} RetryableErrorsExhaustRetries(record: JobRecord, script: seq<Option<SendError>>)
    requires record.failureCount <= MaxRetries
    requires |script| >= MaxRetries + 1 - record.failureCount
    requires forall i :: 0 <= i < |script| ==> script[i] == Some(RetryableError)
    ensures Settle(record, script) ==
              (Failed(record.(status := PermanentlyFailed, failureCount := MaxRetries + 1), RetryableError),
               MaxRetries + 1 - record.failureCount)
    decreases |script|
  {
    assert NextResult(script) == Some(RetryableError);
    if record.failureCount < MaxRetries {
      var next := record.(status := Ready, failureCount := record.failureCount + 1);
      assert AfterAttempt(record, NextResult(script)) == RetryPending(next);
      RetryableErrorsExhaustRetries(next, script[1..]);
    }
  }

  /** The queue's observable state together with the sender's. */
  datatype QueueState = QueueState(
    records: map<JobId, JobRecord>,
    promises: map<JobId, PromiseState>,
    retries: seq<JobId>,
    script: seq<Option<SendError>>,
    sent: seq<OutgoingMessage>)

  /** `add`: a new ready record with no failures and a pending promise. */
  function Enqueue(w: QueueState, id: JobId, message: OutgoingMessage): QueueState {
    w.(records := w.records[id := NewJobRecord(message)], promises := w.promises[id := Pending])
  }

  /**
   * Recording an attempt's outcome for job `id`: a delivered job's record is deleted and its
   * promise resolved; a job awaiting a retry is queued for it; a failed job's promise is rejected.
   */
  function Apply(w: QueueState, id: JobId, outcome: AttemptOutcome): QueueState {
    match outcome
    case Delivered => w.(records := w.records - {id}, promises := w.promises[id := Resolved])
    case RetryPending(next) => w.(records := w.records[id := next], retries := w.retries + [id])
    case Failed(next, e) => w.(records := w.records[id := next], promises := w.promises[id := Rejected(e)])
  }

  /** One dispatch of job `id`: send its message, then apply the attempt's outcome. */
  function Attempt(w: QueueState, id: JobId): QueueState {
    if id !in w.records then w
    else
      var record := w.records[id];
      Apply(w.(script := RestOfScript(w.script), sent := w.sent + [record.message]), id,
            AfterAttempt(record, NextResult(w.script)))
  }

  /** Dispatch of `ids` one after the other, in order. */
  function AttemptAll(w: QueueState, ids: seq<JobId>): QueueState
    decreases |ids|
  {
    if ids == [] then w else AttemptAll(Attempt(w, ids[0]), ids[1..])
  }

  predicate NoDuplicates(ids: seq<JobId>) {
    forall i, j :: 0 <= i < j < |ids| ==> ids[i] != ids[j]
  }

  /**
   * The job table's invariant while the jobs in `inFlight` are being executed: ids are
   * issued in order and every record has a promise; every queued job is ready with a pending
   * promise and queued once; every other record is a permanent failure with a
   * rejected promise; a job whose record is gone was delivered.
   */
  ghost predicate JobsConsistent(
    records: map<JobId, JobRecord>, promises: map<JobId, PromiseState>, queued: seq<JobId>,
    nextJobId: nat, inFlight: set<JobId>)
  {
    && (forall id :: id in records ==> id in promises)
    && (forall id :: id in promises ==> id < nextJobId)
    && NoDuplicates(queued)
    && (forall id :: id in queued ==> id in records && records[id].status == Ready && promises[id] == Pending)
    && (forall id :: id in inFlight ==>
          id !in queued && id in records && records[id].status == Ready && promises[id] == Pending)
    && (forall id :: id in records && id !in inFlight && id !in queued ==>
          records[id].status == PermanentlyFailed && promises[id].Rejected?)
    && (forall id :: id in promises && id !in records ==> promises[id] == Resolved)
  }

  /** Taking job `id` off a queue for execution makes it the one job in flight. */
  lemma DequeueKeepsJobsConsistent(
    records: map<JobId, JobRecord>, promises: map<JobId, PromiseState>,
    front: seq<JobId>, id: JobId, back: seq<JobId>, nextJobId: nat)
    requires JobsConsistent(records, promises, front + [id] + back, nextJobId, {})
    ensures JobsConsistent(records, promises, front + back, nextJobId, {id})
  {
    var before, after := front + [id] + back, front + back;
    assert forall x :: x in after ==> x in before;
    assert forall x :: x in before ==> x == id || x in after;
    assert before[|front|] == id;
    forall i, j | 0 <= i < j < |after|
      ensures after[i] != after[j]
    {
      var i' := if i < |front| then i else i + 1;
      var j' := if j < |front| then j else j + 1;
      assert after[i] == before[i'] && after[j] == before[j'];
    }
    if id in after {
      var k :| 0 <= k < |after| && after[k] == id;
      var k' := if k < |front| then k else k + 1;
      assert before[k'] == id && k' != |front|;
    }
  }

  /** The same, for the head of the lane. */
  lemma DequeueFirstKeepsJobsConsistent(
    records: map<JobId, JobRecord>, promises: map<JobId, PromiseState>,
    lane: seq<JobId>, retries: seq<JobId>, nextJobId: nat)
    requires lane != []
    requires JobsConsistent(records, promises, lane + retries, nextJobId, {})
    ensures JobsConsistent(records, promises, lane[1..] + retries, nextJobId, {lane[0]})
  {
    assert lane + retries == [] + [lane[0]] + (lane[1..] + retries);
    DequeueKeepsJobsConsistent(records, promises, [], lane[0], lane[1..] + retries, nextJobId);
    assert [] + (lane[1..] + retries) == lane[1..] + retries;
  }

  /** A new job, with the next id, may join a queue anywhere. */
  lemma EnqueueKeepsJobsConsistent(
    records: map<JobId, JobRecord>, promises: map<JobId, PromiseState>,
    front: seq<JobId>, back: seq<JobId>, nextJobId: nat, message: OutgoingMessage)
    requires JobsConsistent(records, promises, front + back, nextJobId, {})
    ensures JobsConsistent(records[nextJobId := NewJobRecord(message)], promises[nextJobId := Pending],
                           front + [nextJobId] + back, nextJobId + 1, {})
  {
    var before, after := front + back, front + [nextJobId] + back;
    assert forall x :: x in after ==> x == nextJobId || x in before;
    assert nextJobId !in before;
    forall i, j | 0 <= i < j < |after|
      ensures after[i] != after[j]
    {
      if i != |front| && j != |front| {
        var i' := if i < |front| then i else i - 1;
        var j' := if j < |front| then j else j - 1;
        assert after[i] == before[i'] && after[j] == before[j'];
      } else if i == |front| {
        assert after[j] == before[j - 1];
      } else {
        assert after[i] == before[i];
      }
    }
  }

  /** Executing the job in flight restores the invariant, whatever the attempt's outcome. */
  lemma AttemptKeepsJobsConsistent(s: QueueState, lane: seq<JobId>, id: JobId, nextJobId: nat)
    requires JobsConsistent(s.records, s.promises, lane + s.retries, nextJobId, {id})
    ensures JobsConsistent(Attempt(s, id).records, Attempt(s, id).promises, lane + Attempt(s, id).retries, nextJobId, {})
  {
    var s' := Attempt(s, id);
    match AfterAttempt(s.records[id], NextResult(s.script))
    case Delivered =>
      assert s'.retries == s.retries;
    case RetryPending(next) =>
      assert lane + s'.retries == (lane + s.retries) + [id];
    case Failed(next, e) =>
      assert s'.retries == s.retries;
  }

  function MessagesOf(records: map<JobId, JobRecord>, ids: seq<JobId>): (messages: seq<OutgoingMessage>)
    requires forall i :: 0 <= i < |ids| ==> ids[i] in records
    ensures |messages| == |ids|
    ensures forall i :: 0 <= i < |ids| ==> messages[i] == records[ids[i]].message
  {
    seq(|ids|, i requires 0 <= i < |ids| => records[ids[i]].message)
  }

  /** The messages of `ids` are the first one's followed by those of the rest, read from a table that agrees on the rest. */
  lemma MessagesOfAfterFirst(records: map<JobId, JobRecord>, later: map<JobId, JobRecord>, ids: seq<JobId>)
    requires ids != []
    requires forall i :: 0 <= i < |ids| ==> ids[i] in records
    requires forall i :: 1 <= i < |ids| ==> ids[i] in later && later[ids[i]] == records[ids[i]]
    ensures MessagesOf(records, ids) == [records[ids[0]].message] + MessagesOf(later, ids[1..])
  {
  }

  /** An attempt leaves every other job's record and promise as they were. */
  lemma AttemptFramesOthers(w: QueueState, id: JobId, other: JobId)
    requires other != id
    ensures other in Attempt(w, id).records <==> other in w.records
    ensures other in w.records ==> Attempt(w, id).records[other] == w.records[other]
    ensures other in Attempt(w, id).promises <==> other in w.promises
    ensures other in w.promises ==> Attempt(w, id).promises[other] == w.promises[other]
  {
  }

  /** An attempt at a job that has a record sends its message and consumes one scripted result. */
  lemma AttemptSendsOnce(w: QueueState, id: JobId)
    requires id in w.records
    ensures Attempt(w, id).sent == w.sent + [w.records[id].message]
    ensures Attempt(w, id).script == RestOfScript(w.script)
  {
  }

  /** After the first of distinct queued jobs is attempted, the others are still queued and unchanged. */
  lemma AttemptKeepsLaterJobs(w: QueueState, ids: seq<JobId>)
    requires ids != [] && NoDuplicates(ids)
    requires forall i :: 0 <= i < |ids| ==> ids[i] in w.records
    ensures NoDuplicates(ids[1..])
    ensures forall i :: 1 <= i < |ids| ==>
              ids[i] in Attempt(w, ids[0]).records && Attempt(w, ids[0]).records[ids[i]] == w.records[ids[i]]
  {
    forall i | 1 <= i < |ids|
      ensures ids[i] in Attempt(w, ids[0]).records && Attempt(w, ids[0]).records[ids[i]] == w.records[ids[i]]
    {
      AttemptFramesOthers(w, ids[0], ids[i]);
    }
  }

  /**
   * FIFO: dispatching distinct queued jobs sends each job's message exactly once, in
   * queue order, whatever the sender answers.
   */
  lemma {:induction false} AttemptAllSendsInOrder(w: QueueState, ids: seq<JobId>)
    requires NoDuplicates(ids)
    requires forall i :: 0 <= i < |ids| ==> ids[i] in w.records
    ensures AttemptAll(w, ids).sent == w.sent + MessagesOf(w.records, ids)
    decreases |ids|
  {
    if ids != [] {
      var w1 := Attempt(w, ids[0]);
      AttemptKeepsLaterJobs(w, ids);
      AttemptSendsOnce(w, ids[0]);
      AttemptAllSendsInOrder(w1, ids[1..]);
      MessagesOfAfterFirst(w.records, w1.records, ids);
      var m, rest := w.records[ids[0]].message, MessagesOf(w1.records, ids[1..]);
      assert AttemptAll(w, ids).sent == (w.sent + [m]) + rest;
      assert (w.sent + [m]) + rest == w.sent + ([m] + rest);
    }
  }

  /** Dispatching distinct queued jobs consumes exactly one scripted result per job. */
  lemma {:induction false} AttemptAllConsumesScript(w: QueueState, ids: seq<JobId>)
    requires NoDuplicates(ids)
    requires forall i :: 0 <= i < |ids| ==> ids[i] in w.records
    ensures AttemptAll(w, ids).script == if |ids| <= |w.script| then w.script[|ids|..] else []
    decreases |ids|
  {
    if ids != [] {
      var w1 := Attempt(w, ids[0]);
      AttemptKeepsLaterJobs(w, ids);
      AttemptSendsOnce(w, ids[0]);
      AttemptAllConsumesScript(w1, ids[1..]);
      if w.script != [] {
        assert |ids[1..]| <= |w1.script| ==> w1.script[|ids[1..]|..] == w.script[|ids|..];
      }
    }
  }

  /**
   * With a sender that succeeds for each of them, every dispatched job is delivered:
   * its promise resolves, its record is deleted and no retry is scheduled.
   */
  lemma {:induction false} AttemptAllDeliversAll(w: QueueState, ids: seq<JobId>)
    requires NoDuplicates(ids)
    requires forall i :: 0 <= i < |ids| ==> ids[i] in w.records
    requires forall i :: 0 <= i < |ids| && i < |w.script| ==> w.script[i].None?
    ensures forall i :: 0 <= i < |ids| ==>
              ids[i] !in AttemptAll(w, ids).records && ids[i] in AttemptAll(w, ids).promises &&
              AttemptAll(w, ids).promises[ids[i]] == Resolved
    ensures AttemptAll(w, ids).retries == w.retries
    decreases |ids|
  {
    if ids != [] {
      var w1 := Attempt(w, ids[0]);
      var rest := ids[1..];
      assert NextResult(w.script).None?;
      forall i | 0 <= i < |rest|
        ensures rest[i] in w1.records
      {
        assert rest[i] == ids[i + 1];
        AttemptFramesOthers(w, ids[0], rest[i]);
      }
      forall i | 0 <= i < |rest| && i < |w1.script|
        ensures w1.script[i].None?
      {
        assert w1.script[i] == w.script[i + 1];
      }
      AttemptAllDeliversAll(w1, rest);
      AttemptAllFramesOthers(w1, rest, ids[0]);
    }
  }

  /** Dispatching `ids` leaves the records and promises of jobs outside `ids` as they were. */
  lemma {:induction false} AttemptAllFramesOthers(w: QueueState, ids: seq<JobId>, other: JobId)
    requires other !in ids
    ensures other in AttemptAll(w, ids).records <==> other in w.records
    ensures other in w.records ==> AttemptAll(w, ids).records[other] == w.records[other]
    ensures other in AttemptAll(w, ids).promises <==> other in w.promises
    ensures other in w.promises ==> AttemptAll(w, ids).promises[other] == w.promises[other]
    decreases |ids|
  {
    if ids != [] {
      AttemptFramesOthers(w, ids[0], other);
      AttemptAllFramesOthers(Attempt(w, ids[0]), ids[1..], other);
    }
  }

  /**
   * Job `id` attempted `k` times, each attempt taking it off the retry queue first; when `id` is
   * the only job awaiting a retry, that is what `RunAnyQueuedRetry` does.
   */
  function RetriedAttempts(w: QueueState, id: JobId, k: nat): QueueState
    decreases k
  {
    if k == 0 then w else RetriedAttempts(Attempt(w.(retries := []), id), id, k - 1)
  }

  /**
   * `Settle` is what the queue does to a job that is the only one awaiting a retry (or is about
   * to be dispatched with none pending) and is retried whenever its retry is pending:
   * after `Settle`'s number of sends the job's message went out that many times, no
   * retry is left, and the job is delivered or permanently failed as `Settle` says.
   */
  lemma {:induction false} SettleMatchesRetriedAttempts(w: QueueState, id: JobId)
    requires id in w.records
    requires w.retries == [] || w.retries == [id]
    ensures var (outcome, sends) := Settle(w.records[id], w.script);
            var w' := RetriedAttempts(w, id, sends);
            && w'.sent == w.sent + seq(sends, _ => w.records[id].message)
            && w'.retries == []
            && (outcome == Delivered ==> id !in w'.records && id in w'.promises && w'.promises[id] == Resolved)
            && (outcome.Failed? ==>
                  id in w'.records && w'.records[id] == outcome.record &&
                  id in w'.promises && w'.promises[id] == Rejected(outcome.error))
    decreases |w.script|
  {
    var record := w.records[id];
    var w1 := Attempt(w.(retries := []), id);
    assert w1.sent == w.sent + [record.message];
    match AfterAttempt(record, NextResult(w.script))
    case RetryPending(next) =>
      assert w1.records[id] == next && w1.script == w.script[1..];
      assert w1.retries == [id];
      SettleMatchesRetriedAttempts(w1, id);
      var sends := Settle(next, w1.script).1;
      assert w.sent + [record.message] + seq(sends, _ => next.message) ==
             w.sent + seq(sends + 1, _ => record.message);
    case _ =>
      assert RetriedAttempts(w, id, 1) == w1;
      assert [record.message] == seq(1, _ => record.message);
  }

  /** The job records with status `status` among ids below `n`, in insertion order. */
  function RecordsWithStatus(store: map<JobId, JobRecord>, status: JobStatus, n: nat): seq<JobRecord> {
    if n == 0 then []
    else
      RecordsWithStatus(store, status, n - 1) +
      (if n - 1 in store && store[n - 1].status == status then [store[n - 1]] else [])
  }

  /** The finder returns exactly the stored records with the asked status. */
  lemma {:induction false} RecordsWithStatusMembers(store: map<JobId, JobRecord>, status: JobStatus, n: nat, r: JobRecord)
    ensures r in RecordsWithStatus(store, status, n) <==>
              r.status == status && exists id :: 0 <= id < n && id in store && store[id] == r
  {
    if n > 0 {
      RecordsWithStatusMembers(store, status, n - 1, r);
    }
  }

  /** The sender a test installs: it answers from a script, one entry per send, and logs every send. */
  class FakeMessageSender {
    var stubbedFailingErrors: seq<Option<SendError>>
    var sentMessages: seq<OutgoingMessage>

    constructor ()
      ensures stubbedFailingErrors == [] && sentMessages == []
    {
      stubbedFailingErrors := [];
      sentMessages := [];
    }

    method SendMessage(message: OutgoingMessage) returns (error: Option<SendError>)
      modifies this
      ensures sentMessages == old(sentMessages) + [message]
      ensures error == NextResult(old(stubbedFailingErrors))
      ensures stubbedFailingErrors == RestOfScript(old(stubbedFailingErrors))
    {
      sentMessages := sentMessages + [message];
      error := NextResult(stubbedFailingErrors);
      stubbedFailingErrors := RestOfScript(stubbedFailingErrors);
    }
  }

  class MessageSenderJobQueue {
    /** Every job's record: the persisted ones are also in `Store()`. */
    var records: map<JobId, JobRecord>
    var transientJobs: set<JobId>
    var promises: map<JobId, PromiseState>
    /** Jobs waiting for their first dispatch, in insertion order. */
    var lane: seq<JobId>
    /** Jobs waiting for a retry, earliest first. */
    var pendingRetries: seq<JobId>
    /** The insertion counter: ids are handed out in order. */
    var nextJobId: JobId
    var isSetUp: bool
    const sender: FakeMessageSender

    /** The queue's invariant; besides, nothing waits in the lane once dispatch has started. */
    ghost predicate Valid()
      reads this
    {
      JobsConsistent(records, promises, lane + pendingRetries, nextJobId, {}) && (isSetUp ==> lane == [])
    }

    function State(): QueueState
      reads this, sender
    {
      QueueState(records, promises, pendingRetries, sender.stubbedFailingErrors, sender.sentMessages)
    }

    /** The durable record store: the records of persisted jobs. */
    function Store(): map<JobId, JobRecord>
      reads this
    {
      map id | id in records && id !in transientJobs :: records[id]
    }

    /** `fetchLatest`: the stored record of a job, if it is still there. */
    function FetchLatest(id: JobId): (latest: Option<JobRecord>)
      reads this
      ensures latest.Some? <==> id in Store()
      ensures latest.Some? ==> latest.value == Store()[id]
    {
      if id in records && id !in transientJobs then Some(records[id]) else None
    }

    constructor (sender: FakeMessageSender)
      ensures Valid() && this.sender == sender
      ensures records == map[] && promises == map[] && transientJobs == {}
      ensures lane == [] && pendingRetries == [] && nextJobId == 0 && !isSetUp
    {
      records, promises, transientJobs := map[], map[], {};
      lane, pendingRetries := [], [];
      nextJobId, isSetUp := 0, false;
      this.sender := sender;
    }

    /**
     * `add`: records a new ready job with no failures and a pending promise. Before
     * set-up it waits at the end of the lane; after set-up it is dispatched at once.
     */
    method Add(message: PreparedOutgoingMessage) returns (id: JobId)
      requires Valid()
      modifies this, sender
      ensures Valid()
      ensures id == old(nextJobId) && nextJobId == id + 1 && isSetUp == old(isSetUp)
      ensures transientJobs == if message.Transient? then old(transientJobs) + {id} else old(transientJobs)
      ensures !isSetUp ==> lane == old(lane) + [id] && State() == Enqueue(old(State()), id, message.message)
      ensures isSetUp ==> lane == [] && State() == Attempt(Enqueue(old(State()), id, message.message), id)
    {
      id := Track(message);
      if isSetUp {
        DrainLane();
      }
    }

    /** The bookkeeping part of `add`: a new ready job at the end of the lane. */
    method Track(message: PreparedOutgoingMessage) returns (id: JobId)
      requires Valid()
      modifies this
      ensures JobsConsistent(records, promises, lane + pendingRetries, nextJobId, {})
      ensures id == old(nextJobId) && nextJobId == id + 1 && isSetUp == old(isSetUp)
      ensures transientJobs == if message.Transient? then old(transientJobs) + {id} else old(transientJobs)
      ensures lane == old(lane) + [id] && State() == Enqueue(old(State()), id, message.message)
    {
      id := nextJobId;
      EnqueueKeepsJobsConsistent(records, promises, lane, pendingRetries, id, message.message);
      nextJobId := nextJobId + 1;
      records := records[id := NewJobRecord(message.message)];
      promises := promises[id := Pending];
      if message.Transient? {
        transientJobs := transientJobs + {id};
      }
      lane := lane + [id];
      assert lane + pendingRetries == old(lane) + [id] + pendingRetries;
    }

    /** `setUp`: starts dispatch, which runs every job of the lane once, in order. */
    method SetUp()
      requires Valid()
      modifies this, sender
      ensures Valid() && isSetUp && lane == []
      ensures State() == AttemptAll(old(State()), old(lane))
      ensures nextJobId == old(nextJobId) && transientJobs == old(transientJobs)
    {
      isSetUp := true;
      DrainLane();
    }

    /** `runAnyQueuedRetry`: runs the earliest pending retry now, or reports that none is pending. */
    method RunAnyQueuedRetry() returns (retried: Option<JobId>)
      requires Valid()
      modifies this, sender
      ensures Valid()
      ensures retried.None? <==> old(pendingRetries) == []
      ensures retried.None? ==> State() == old(State())
      ensures retried.Some? ==>
                retried.value == old(pendingRetries)[0] &&
                State() == Attempt(old(State()).(retries := old(pendingRetries)[1..]), retried.value)
      ensures lane == old(lane) && nextJobId == old(nextJobId) && isSetUp == old(isSetUp)
      ensures transientJobs == old(transientJobs)
    {
      if pendingRetries == [] {
        return None;
      }
      var id := pendingRetries[0];
      assert lane + pendingRetries == lane + [id] + pendingRetries[1..];
      DequeueKeepsJobsConsistent(records, promises, lane, id, pendingRetries[1..], nextJobId);
      pendingRetries := pendingRetries[1..];
      Execute(id);
      retried := Some(id);
    }

    /** `allRecords(status:)`: the stored records with that status, in insertion order. */
    method AllRecords(status: JobStatus) returns (found: seq<JobRecord>)
      ensures found == RecordsWithStatus(Store(), status, nextJobId)
    {
      found := [];
      var id := 0;
      while id < nextJobId
        invariant 0 <= id <= nextJobId
        invariant found == RecordsWithStatus(Store(), status, id)
      {
        if id in records && id !in transientJobs && records[id].status == status {
          found := found + [records[id]];
        }
        id := id + 1;
      }
    }

    /** The dispatch loop: pops and executes lane jobs until the lane is empty. */
    method DrainLane()
      requires JobsConsistent(records, promises, lane + pendingRetries, nextJobId, {})
      modifies this, sender
      ensures Valid() && lane == []
      ensures State() == AttemptAll(old(State()), old(lane))
      ensures nextJobId == old(nextJobId) && isSetUp == old(isSetUp) && transientJobs == old(transientJobs)
    {
      while lane != []
        invariant JobsConsistent(records, promises, lane + pendingRetries, nextJobId, {})
        invariant AttemptAll(State(), lane) == AttemptAll(old(State()), old(lane))
        invariant nextJobId == old(nextJobId) && isSetUp == old(isSetUp) && transientJobs == old(transientJobs)
        decreases |lane|
      {
        var id := lane[0];
        DequeueFirstKeepsJobsConsistent(records, promises, lane, pendingRetries, nextJobId);
        lane := lane[1..];
        Execute(id);
      }
    }

    /** Records the outcome of an attempt at job `id` in the job table and the retry queue. */
    method RecordOutcome(id: JobId, outcome: AttemptOutcome)
      modifies this
      ensures outcome.Delivered? ==>
                records == old(records) - {id} && promises == old(promises)[id := Resolved] &&
                pendingRetries == old(pendingRetries)
      ensures outcome.RetryPending? ==>
                records == old(records)[id := outcome.record] && promises == old(promises) &&
                pendingRetries == old(pendingRetries) + [id]
      ensures outcome.Failed? ==>
                records == old(records)[id := outcome.record] && promises == old(promises)[id := Rejected(outcome.error)] &&
                pendingRetries == old(pendingRetries)
      ensures lane == old(lane) && nextJobId == old(nextJobId) && isSetUp == old(isSetUp)
      ensures transientJobs == old(transientJobs)
    {
      match outcome {
        case Delivered =>
          records := records - {id};
          promises := promises[id := Resolved];
        case RetryPending(next) =>
          records := records[id := next];
          pendingRetries := pendingRetries + [id];
        case Failed(next, e) =>
          records := records[id := next];
          promises := promises[id := Rejected(e)];
      }
    }

    /**
     * One attempt at job `id`, which has just left the lane or the retry queue: mark it
     * executing, send its message, then record the outcome.
     */
    method Execute(id: JobId)
      requires JobsConsistent(records, promises, lane + pendingRetries, nextJobId, {id})
      modifies this, sender
      ensures JobsConsistent(records, promises, lane + pendingRetries, nextJobId, {})
      ensures State() == Attempt(old(State()), id)
      ensures lane == old(lane) && nextJobId == old(nextJobId) && isSetUp == old(isSetUp)
      ensures transientJobs == old(transientJobs)
    {
      ghost var before := State();
      var record := records[id];
      // The job is marked executing while the send is in flight; the outcome replaces the mark.
      records := records[id := record.(status := Executing)];
      var result := sender.SendMessage(record.message);
      ghost var sent := before.(script := sender.stubbedFailingErrors, sent := sender.sentMessages);
      RecordOutcome(id, AfterAttempt(record, result));
      assert State() == Apply(sent, id, AfterAttempt(record, result));
      AttemptKeepsJobsConsistent(before, lane, id, nextJobId);
    }
  }
}
