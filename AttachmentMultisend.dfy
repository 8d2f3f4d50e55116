/**
 * Per-destination preparation of a message body for a multi-conversation send
 * (`AttachmentMultisend.prepareForSending`).
 *
 * One draft body is sent to several conversations. If the body has no mentions it
 * is validated once and shared by every destination; otherwise it is hydrated for
 * each destination's thread (mentions resolve against that thread's members) and
 * each hydrated body is validated on its own. Thread lookup, hydration and the
 * oversize-text validator are collaborators whose code is not modelled: they are
 * given as the function fields of `Collaborators`, and lookup and validation may fail.
 */
module AttachmentMultisend {
  import opened Wrappers

  datatype ConversationItem = ConversationItem(id: nat)
  datatype Thread = Thread(uniqueId: nat)

  /** A draft body; `hasMentions` says whether its text ranges include any mention. */
  datatype MessageBody = MessageBody(text: string, hasMentions: bool)
  /** A body whose mentions were resolved against one thread. */
  datatype HydratedMessageBody = HydratedMessageBody(text: string)
  /** A body accepted by the validator (long text possibly moved to an attachment). */
  datatype ValidatedMessageBody = ValidatedMessageBody(text: string, hasOversizeTextAttachment: bool)

  datatype ValidationError = ValidationError(code: nat)

  /** What `prepareForSending` throws. */
  datatype PrepareError =
    | MissingThread                        // a conversation has no thread and none could be created
    | InvalidBody(cause: ValidationError)  // the validator's own error, passed on unchanged

  /** The collaborators `prepareForSending` calls. */
  datatype Collaborators = Collaborators(
    getOrCreateThread: ConversationItem -> Option<Thread>,
    forForwarding: (MessageBody, Thread) -> HydratedMessageBody,
    asMessageBodyForForwarding: HydratedMessageBody -> MessageBody,
    // the validator applied to a single body: its one result (possibly none), or its error
    prepareOversizeTextsIfNeeded: MessageBody -> Result<Option<ValidatedMessageBody>, ValidationError>)

  datatype Destination = Destination(
    conversationItem: ConversationItem,
    thread: Thread,
    messageBody: Option<ValidatedMessageBody>)

  datatype PreDestination = PreDestination(
    conversationItem: ConversationItem,
    thread: Thread,
    messageBody: Option<HydratedMessageBody>)

  /** A body can be shared unless it has mentions; no body at all counts as having none. */
  predicate CanShareMessageBody(messageBody: Option<MessageBody>): (share: bool)
    ensures share <==> messageBody.None? || !messageBody.value.hasMentions
  {
    !(if messageBody.Some? then messageBody.value.hasMentions else false)
  }

  predicate HasThread(c: Collaborators, conversation: ConversationItem) {
    c.getOrCreateThread(conversation).Some?
  }

  predicate AllHaveThreads(c: Collaborators, conversations: seq<ConversationItem>) {
    forall i :: 0 <= i < |conversations| ==> HasThread(c, conversations[i])
  }

  function ThreadOf(c: Collaborators, conversation: ConversationItem): Thread
    requires HasThread(c, conversation)
  {
    c.getOrCreateThread(conversation).value
  }

  /** The hydrated body a pre-destination carries: none when the body is shared. */
  function HydratedBodyFor(messageBody: Option<MessageBody>, share: bool, thread: Thread, c: Collaborators)
    : (hydrated: Option<HydratedMessageBody>)
    ensures hydrated.Some? <==> !share && messageBody.Some?
    ensures hydrated.Some? ==> hydrated.value == c.forForwarding(messageBody.value, thread)
  {
    if share || messageBody.None? then None else Some(c.forForwarding(messageBody.value, thread))
  }

  /**
   * The `conversations.map` inside the write transaction: one pre-destination per
   * conversation, in order; the first conversation without a thread aborts the map.
   */
  function PreDestinations(
    messageBody: Option<MessageBody>, share: bool, conversations: seq<ConversationItem>, c: Collaborators)
    : (r: Result<seq<PreDestination>, PrepareError>)
    ensures r.Failure? <==> !AllHaveThreads(c, conversations)
    ensures r.Failure? ==> r.error == MissingThread
    ensures r.Success? ==> |r.value| == |conversations|
    ensures r.Success? ==> forall i :: 0 <= i < |conversations| ==>
              r.value[i].conversationItem == conversations[i] &&
              r.value[i].thread == ThreadOf(c, conversations[i]) &&
              r.value[i].messageBody == HydratedBodyFor(messageBody, share, r.value[i].thread, c)
    decreases |conversations|
  {
    if conversations == [] then Success([])
    else
      match c.getOrCreateThread(conversations[0])
      case None => Failure(MissingThread)
      case Some(thread) =>
        var head := PreDestination(conversations[0], thread, HydratedBodyFor(messageBody, share, thread, c));
        match PreDestinations(messageBody, share, conversations[1..], c)
        case Failure(e) => Failure(e)
        case Success(rest) => Success([head] + rest)
  }

  /** The shared branch: validate the original body once, or not at all when it is nil. */
  function ValidateSharedBody(messageBody: Option<MessageBody>, c: Collaborators)
    : (r: Result<Option<ValidatedMessageBody>, ValidationError>)
    ensures messageBody.None? ==> r == Success(None)
    ensures messageBody.Some? ==> r == c.prepareOversizeTextsIfNeeded(messageBody.value)
  {
    if messageBody.None? then Success(None) else c.prepareOversizeTextsIfNeeded(messageBody.value)
  }

  /** The shared branch's `preDestinations.map`: every destination gets the same body. */
  function ShareBody(preDestinations: seq<PreDestination>, validated: Option<ValidatedMessageBody>)
    : (r: seq<Destination>)
    ensures |r| == |preDestinations|
    ensures forall i :: 0 <= i < |r| ==>
              r[i].conversationItem == preDestinations[i].conversationItem &&
              r[i].thread == preDestinations[i].thread &&
              r[i].messageBody == validated
  {
    seq(|preDestinations|, i requires 0 <= i < |preDestinations| =>
      Destination(preDestinations[i].conversationItem, preDestinations[i].thread, validated))
  }

  /** One step of the per-thread branch: a nil hydrated body is passed on without validation. */
  function ValidateHydratedBody(hydrated: Option<HydratedMessageBody>, c: Collaborators)
    : (r: Result<Option<ValidatedMessageBody>, ValidationError>)
    ensures hydrated.None? ==> r == Success(None)
    ensures hydrated.Some? ==> r == c.prepareOversizeTextsIfNeeded(c.asMessageBodyForForwarding(hydrated.value))
  {
    if hydrated.None? then Success(None)
    else c.prepareOversizeTextsIfNeeded(c.asMessageBodyForForwarding(hydrated.value))
  }

  /** The bodies handed to the validator by the per-thread loop over `preDestinations`, in order. */
  function ValidationInputs(preDestinations: seq<PreDestination>, c: Collaborators): seq<MessageBody>
  {
    if preDestinations == [] then []
    else
      var last := preDestinations[|preDestinations| - 1];
      ValidationInputs(preDestinations[..|preDestinations| - 1], c) +
      (if last.messageBody.None? then [] else [c.asMessageBodyForForwarding(last.messageBody.value)])
  }

  /** When every pre-destination carries a hydrated body, each of them is validated once, in order. */
  lemma {:induction false} ValidationInputsWhenAllHydrated(preDestinations: seq<PreDestination>, c: Collaborators)
    requires forall i :: 0 <= i < |preDestinations| ==> preDestinations[i].messageBody.Some?
    ensures |ValidationInputs(preDestinations, c)| == |preDestinations|
    ensures forall i :: 0 <= i < |preDestinations| ==>
              ValidationInputs(preDestinations, c)[i] == c.asMessageBodyForForwarding(preDestinations[i].messageBody.value)
  {
    if preDestinations != [] {
      ValidationInputsWhenAllHydrated(preDestinations[..|preDestinations| - 1], c);
    }
  }

  /** `k` is the first pre-destination whose body the validator rejects. */
  predicate FirstInvalid(preDestinations: seq<PreDestination>, c: Collaborators, k: nat)
    requires k < |preDestinations|
  {
    ValidateHydratedBody(preDestinations[k].messageBody, c).Failure? &&
    forall j :: 0 <= j < k ==> ValidateHydratedBody(preDestinations[j].messageBody, c).Success?
  }

  /**
   * The per-thread loop: one destination per pre-destination, in order, each carrying
   * the validation of its own hydrated body; the first validation error aborts the loop
   * and nothing after it is validated.
   */
  method PrepareEachBody(preDestinations: seq<PreDestination>, c: Collaborators)
    returns (r: Result<seq<Destination>, PrepareError>, validated: seq<MessageBody>)
    ensures r.Success? <==>
              forall i :: 0 <= i < |preDestinations| ==> ValidateHydratedBody(preDestinations[i].messageBody, c).Success?
    ensures r.Success? ==> |r.value| == |preDestinations|
    ensures r.Success? ==> forall i :: 0 <= i < |preDestinations| ==>
              r.value[i] == Destination(preDestinations[i].conversationItem, preDestinations[i].thread,
                                        ValidateHydratedBody(preDestinations[i].messageBody, c).value)
    ensures r.Success? ==> validated == ValidationInputs(preDestinations, c)
    ensures r.Failure? ==>
              exists k :: (0 <= k < |preDestinations| && FirstInvalid(preDestinations, c, k) &&
                           r.error == InvalidBody(ValidateHydratedBody(preDestinations[k].messageBody, c).error) &&
                           validated == ValidationInputs(preDestinations[..k + 1], c))
  {
    var destinations: seq<Destination> := [];
    validated := [];
    var i := 0;
    while i < |preDestinations|
      invariant 0 <= i <= |preDestinations|
      invariant |destinations| == i
      invariant forall j :: 0 <= j < i ==> ValidateHydratedBody(preDestinations[j].messageBody, c).Success?
      invariant forall j :: 0 <= j < i ==>
                  destinations[j] == Destination(preDestinations[j].conversationItem, preDestinations[j].thread,
                                                 ValidateHydratedBody(preDestinations[j].messageBody, c).value)
      invariant validated == ValidationInputs(preDestinations[..i], c)
    {
      var preDestination := preDestinations[i];
      assert preDestinations[..i + 1][..i] == preDestinations[..i];
      if preDestination.messageBody.None? {
        destinations := destinations + [Destination(preDestination.conversationItem, preDestination.thread, None)];
      } else {
        var body := c.asMessageBodyForForwarding(preDestination.messageBody.value);
        validated := validated + [body];
        var validatedBody := c.prepareOversizeTextsIfNeeded(body);
        if validatedBody.Failure? {
          assert FirstInvalid(preDestinations, c, i);
          return Failure(InvalidBody(validatedBody.error)), validated;
        }
        destinations := destinations + [Destination(preDestination.conversationItem, preDestination.thread, validatedBody.value)];
      }
      i := i + 1;
    }
    assert preDestinations[..|preDestinations|] == preDestinations;
    r := Success(destinations);
  }

  /** The per-thread validation of `messageBody` hydrated for `conversation`'s thread. */
  function PerThreadValidation(messageBody: MessageBody, conversation: ConversationItem, c: Collaborators)
    : Result<Option<ValidatedMessageBody>, ValidationError>
    requires HasThread(c, conversation)
  {
    ValidateHydratedBody(Some(c.forForwarding(messageBody, ThreadOf(c, conversation))), c)
  }

  /**
   * `prepareForSending`: one destination per conversation, in order. A conversation
   * without a thread fails the call before anything is validated. A body without
   * mentions (or no body) is validated at most once and shared; otherwise each
   * destination's body is the validation of the body hydrated for its own thread.
   * `validated` lists the bodies handed to the validator, in order.
   */
  method PrepareForSending(messageBody: Option<MessageBody>, conversations: seq<ConversationItem>, c: Collaborators)
    returns (r: Result<seq<Destination>, PrepareError>, validated: seq<MessageBody>)
    ensures !AllHaveThreads(c, conversations) ==> r == Failure(MissingThread) && validated == []
    ensures r.Success? ==> AllHaveThreads(c, conversations) && |r.value| == |conversations|
    ensures r.Success? ==> forall i :: 0 <= i < |conversations| ==>
              r.value[i].conversationItem == conversations[i] && r.value[i].thread == ThreadOf(c, conversations[i])
    // shared body
    ensures CanShareMessageBody(messageBody) && AllHaveThreads(c, conversations) ==>
              validated == (if messageBody.Some? then [messageBody.value] else [])
    ensures CanShareMessageBody(messageBody) && AllHaveThreads(c, conversations) ==>
              (r.Success? <==> ValidateSharedBody(messageBody, c).Success?)
    ensures CanShareMessageBody(messageBody) && r.Failure? && AllHaveThreads(c, conversations) ==>
              r.error == InvalidBody(ValidateSharedBody(messageBody, c).error)
    ensures CanShareMessageBody(messageBody) && r.Success? ==> forall i :: 0 <= i < |conversations| ==>
              r.value[i].messageBody == ValidateSharedBody(messageBody, c).value
    ensures messageBody.None? && r.Success? ==> forall i :: 0 <= i < |conversations| ==> r.value[i].messageBody.None?
    // one body per thread
    ensures !CanShareMessageBody(messageBody) && AllHaveThreads(c, conversations) ==>
              (r.Success? <==> forall i :: 0 <= i < |conversations| ==>
                 PerThreadValidation(messageBody.value, conversations[i], c).Success?)
    ensures !CanShareMessageBody(messageBody) && r.Success? ==> forall i :: 0 <= i < |conversations| ==>
              r.value[i].messageBody ==
                PerThreadValidation(messageBody.value, conversations[i], c).value
    ensures !CanShareMessageBody(messageBody) && AllHaveThreads(c, conversations) && r.Failure? ==>
              exists k :: (0 <= k < |conversations| &&
                           PerThreadValidation(messageBody.value, conversations[k], c).Failure? &&
                           r.error == InvalidBody(PerThreadValidation(messageBody.value, conversations[k], c).error) &&
                           forall j :: 0 <= j < k ==> PerThreadValidation(messageBody.value, conversations[j], c).Success?)
    ensures !CanShareMessageBody(messageBody) && r.Success? ==>
              |validated| == |conversations| &&
              forall i :: 0 <= i < |conversations| ==>
                validated[i] == c.asMessageBodyForForwarding(c.forForwarding(messageBody.value, ThreadOf(c, conversations[i])))
  {
    var canShareMessageBody := CanShareMessageBody(messageBody);
    var preDestinations := PreDestinations(messageBody, canShareMessageBody, conversations, c);
    if preDestinations.Failure? {
      return Failure(preDestinations.error), [];
    }
    if canShareMessageBody {
      var validatedBody: Result<Option<ValidatedMessageBody>, ValidationError>;
      if messageBody.Some? {
        validated := [messageBody.value];
        validatedBody := c.prepareOversizeTextsIfNeeded(messageBody.value);
      } else {
        validated := [];
        validatedBody := Success(None);
      }
      if validatedBody.Failure? {
        return Failure(InvalidBody(validatedBody.error)), validated;
      }
      return Success(ShareBody(preDestinations.value, validatedBody.value)), validated;
    }
    ValidationInputsWhenAllHydrated(preDestinations.value, c);
    r, validated := PrepareEachBody(preDestinations.value, c);
  }
}
