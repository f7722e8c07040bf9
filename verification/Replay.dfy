/**
  enqueue and the atomic stretches of replay (public/kiosk-offline-queue-v2.js) with the field transport
  between them (public/kiosk-queue-protocol-v3.js). An await ends a stretch; any other tab may run there.
*/
module Replay {
  import opened Options
  import opened FieldProtocol
  import opened QueueRecords
  import opened QueueCommit
  import opened QueueRefinement

  // ---------------------------------------------------------------- enqueue

  datatype EnqueueResult = Accepted | QueueStateInvalid | ReplayBlocked | InvalidItem | SequenceMismatch(expected: nat)
                         | DuplicateEventId | SequenceExhausted | WriteFailed

  ghost function EnqueueOp(protocol: Protocol, store: Store, item: Item, budget: nat): (Store, EnqueueResult) {
    match LoadState(protocol, store)
    case None => (store, QueueStateInvalid)
    case Some(q) =>
      if q.status.Terminal() then (store, ReplayBlocked)
      else if !ValidItem(protocol, item) then (store, InvalidItem)
      else if item.localSequence != q.next then (store, SequenceMismatch(q.next))
      else if item.eventId in Ids(q.items) then (store, DuplicateEventId)
      else if q.next == MAX_SAFE_INTEGER then (store, SequenceExhausted)
      else
        var (after, saved) := TryCommit(protocol, store, q, Enqueued(q, item), budget);
        (after, if saved.Some? then Accepted else WriteFailed)
  }

  // ---------------------------------------------------------------- responses

  /** Error codes as far as replay tells them apart; `Listed` is any other entry of RESULT_STATUS_BY_CODE. */
  datatype Code = RevisionConflict | IdempotencyKeyReuse | EventNotFound | LegacyReviewRequired
                | Listed(expectedStatus: int) | Unlisted

  /** OkOther says ok === true under some other code than RUN_EVENT_APPLIED. */
  datatype Body = NoObject | AppliedBody(receipt: Receipt, replayed: bool) | OkOther
                | ReviewBody(eventId: string, runId: string, scheduleItemId: string) | Refusal(code: Code) | IllShaped

  datatype Response = NoAnswer | Answer(status: int, body: Body)

  /** validKioskResultV3 or validateKioskRunEventResponse, with the matching HTTP status. */
  predicate ValidResult(protocol: Protocol, status: int, body: Body) {
    match body
    case NoObject => false
    case IllShaped => false
    case OkOther => false
    case AppliedBody(_, replayed) =>
      if protocol == V2 then (status == 201 && !replayed) || (status == 200 && replayed) else status == 200
    case ReviewBody(_, _, _) => if protocol == V2 then status == 202 else status >= 400
    case Refusal(code) =>
      if protocol != V2 then status >= 400
      else match code
        case RevisionConflict => status == 409
        case IdempotencyKeyReuse => status == 409
        case Listed(expected) => status == expected
        case _ => false
  }

  /** The receipt test that allows an item to leave the queue. */
  predicate Acknowledges(protocol: Protocol, r: Receipt, head: Item) {
    if protocol == V2 then r.eventId == head.eventId && r.runId == head.runId
    else MatchesReceipt(protocol, r, head)
  }

  predicate Reviews(protocol: Protocol, status: int, body: Body, head: Item) {
    body.ReviewBody?
    && (if protocol == V2
        then body.eventId == head.eventId && body.runId == head.runId && body.scheduleItemId == head.scheduleItemId
        else status == 422)
  }

  datatype Verdict = Undecided | Confirmed | NeedsReview | Rejected

  /** The cascade of tests after `reloadHead`; all codes in CONFLICT_CODES travel with status 409. */
  function Classify(protocol: Protocol, response: Response, head: Item): Verdict {
    match response
    case NoAnswer => Undecided
    case Answer(status, body) =>
      if protocol != V2 && status == 409 && body == Refusal(LegacyReviewRequired) then Undecided
      else if body == NoObject || status < 100 || status >= 500 then Undecided
      else if status == 401 || status == 403 then Undecided
      else if !ValidResult(protocol, status, body) then Undecided
      else if body.AppliedBody? && Acknowledges(protocol, body.receipt, head) then Confirmed
      else if Reviews(protocol, status, body, head) then NeedsReview
      else if 400 <= status then Rejected
      else Undecided
  }

  /** The last lines of submitEvent: any ok body that is not this item's receipt becomes IDEMPOTENCY_KEY_REUSE. */
  function Checked(protocol: Protocol, head: Item, response: Response): Response {
    if protocol != V2 && response.Answer?
       && (response.body.OkOther?
           || (response.body.AppliedBody? && !MatchesReceipt(protocol, response.body.receipt, head)))
    then Answer(409, Refusal(IdempotencyKeyReuse))
    else response
  }

  datatype Lookup = Post | Settled(response: Response)

  /** After the receipt lookup: an unknown device-declared event is posted, a server-timed one never is. */
  function AfterLookup(protocol: Protocol, head: Item, response: Response): Lookup {
    if response == Answer(404, Refusal(EventNotFound)) then
      if head.recordingMode == ServerReceived then Settled(Answer(409, Refusal(LegacyReviewRequired))) else Post
    else Settled(Checked(protocol, head, response))
  }

  // ---------------------------------------------------------------- replay

  /** Where a replay call is waiting. V3 and V4 look the receipt up before they post. */
  datatype Phase = Refreshing(known: Option<nat>) | Looking(head: Item) | Posting(head: Item) | Finished

  /** `submitted` lists the heads this call has begun to submit, oldest first. */
  datatype Call = Call(phase: Phase, processed: nat, submitted: seq<Item>)

  function Submit(protocol: Protocol, call: Call, head: Item): Call {
    call.(phase := if protocol == V2 then Posting(head) else Looking(head), submitted := call.submitted + [head])
  }

  /** `continue`: the loop test, then the next head. */
  function Continue(protocol: Protocol, call: Call, q: Queue): Call {
    if q.items == [] then call.(phase := Finished) else Submit(protocol, call, q.items[0])
  }

  ghost function BeginReplay(protocol: Protocol, store: Store): Call {
    match LoadState(protocol, store)
    case None => Call(Finished, 0, [])
    case Some(q) => Call(Refreshing(if q.cache.Some? then Some(q.cache.value.projectionRevision) else None), 0, [])
  }

  datatype RefreshAnswer = Unavailable | NotModified | Day(projectionRevision: nat)

  function RefreshedRevision(known: Option<nat>, answer: RefreshAnswer): (r: Option<nat>)
    ensures r.Some? ==> r.value <= MAX_SAFE_INTEGER
  {
    match answer
    case Unavailable => None
    case NotModified => if known.Some? && known.value <= MAX_SAFE_INTEGER then known else None
    case Day(revision) => if revision <= MAX_SAFE_INTEGER then Some(revision) else None
  }

  /** From the refresh answer to the first submission; `syncedAt` is None when the clock is unusable. */
  ghost function AfterRefresh(protocol: Protocol, store: Store, call: Call, answer: RefreshAnswer,
                              syncedAt: Option<string>, budget: nat): (Store, Call)
    requires call.phase.Refreshing?
  {
    var stopped := call.(phase := Finished);
    var revision := RefreshedRevision(call.phase.known, answer);
    var loaded := LoadState(protocol, store);
    if syncedAt.None? || revision.None? || loaded.None? then (store, stopped)
    else
      var q := loaded.value;
      var (after, saved) :=
        TryCommit(protocol, store, q, q.(cache := Some(Cache(revision.value, syncedAt.value))), budget);
      if saved.None? || saved.value.status.Terminal() then (after, stopped)
      else (after, Continue(protocol, call, saved.value))
  }

  /** What a response leads to, once the head has been reloaded. */
  datatype Decision = Leave(call: Call) | TakeHead(counted: Call) | Mark(verdict: SyncStatus)

  ghost function Decide(protocol: Protocol, q: Queue, call: Call, head: Item, response: Response): (d: Decision)
    ensures d.TakeHead? ==> q.items != []
  {
    var counted := call.(processed := call.processed + 1);
    var present := head.eventId in Ids(q.items);
    if response.NoAnswer? || (present && q.items[0] != head) then Leave(call.(phase := Finished))
    else
      match Classify(protocol, response, head)
      case Undecided => Leave(call.(phase := Finished))
      case Confirmed =>
        if !present then Leave(Continue(protocol, counted, q))
        else if q.status.Terminal() then Leave(call.(phase := Finished))
        else TakeHead(counted)
      case NeedsReview => if !present then Leave(Continue(protocol, call, q)) else Mark(ReviewRequired)
      case Rejected => if !present then Leave(Continue(protocol, call, q)) else Mark(Conflict)
  }

  /** The dequeue is committed, or the call ends. */
  function AfterTaking(protocol: Protocol, call: Call, counted: Call, committed: (Store, Option<Queue>))
    : (Store, Call)
  {
    (committed.0,
     if committed.1.None? then call.(phase := Finished) else Continue(protocol, counted, committed.1.value))
  }

  ghost function AfterDecision(protocol: Protocol, store: Store, q: Queue, call: Call, decision: Decision, budget: nat)
    : (Store, Call)
    requires decision.TakeHead? ==> q.items != []
  {
    match decision
    case Leave(call') => (store, call')
    case TakeHead(counted) => AfterTaking(protocol, call, counted, TryCommit(protocol, store, q, Dequeued(q), budget))
    case Mark(verdict) =>
      (TryCommit(protocol, store, q, q.(status := verdict), budget).0, call.(phase := Finished))
  }

  /** From the response for `head` to the next submission or the end. */
  ghost function AfterResponse(protocol: Protocol, store: Store, call: Call, head: Item, response: Response,
                               budget: nat)
    : (Store, Call)
  {
    match LoadState(protocol, store)
    case None => (store, call.(phase := Finished))
    case Some(q) => AfterDecision(protocol, store, q, call, Decide(protocol, q, call, head, response), budget)
  }

  /** The head is taken only on its own receipt, and marked only while it is the head. */
  lemma DecisionRule(protocol: Protocol, q: Queue, call: Call, head: Item, response: Response)
    ensures match Decide(protocol, q, call, head, response)
            case Leave(call') =>
              call' == call.(phase := Finished)
              || (head.eventId !in Ids(q.items) && response.Answer? && Classify(protocol, response, head) != Undecided
                  && (call' == Continue(protocol, call, q)
                      || call' == Continue(protocol, call.(processed := call.processed + 1), q)))
            case TakeHead(counted) =>
              && q.items != [] && q.items[0] == head && !q.status.Terminal()
              && Classify(protocol, response, head) == Confirmed
              && counted == call.(processed := call.processed + 1)
            case Mark(verdict) => q.items != [] && q.items[0] == head && verdict.Terminal()
  {
    if head.eventId in Ids(q.items) { assert q.items != []; }
  }

  /** The statuses under which a receipt counts as applied. */
  predicate AppliedStatus(protocol: Protocol, status: int, replayed: bool) {
    if protocol == V2 then status == (if replayed then 200 else 201) else status == 200
  }

  /**
    The whole cascade, independent of the order of its tests: what confirms the head, what sends it to review,
    and what rejects it. Everything else, a lost answer, a server error or a missing sign-in, decides nothing.
  */
  lemma ClassifyRule(protocol: Protocol, response: Response, head: Item)
    ensures Classify(protocol, response, head) == Confirmed
            <==> && response.Answer? && response.body.AppliedBody?
                 && AppliedStatus(protocol, response.status, response.body.replayed)
                 && (if protocol != V2 then MatchesReceipt(protocol, response.body.receipt, head)
                     else response.body.receipt.eventId == head.eventId && response.body.receipt.runId == head.runId)
    ensures Classify(protocol, response, head) == NeedsReview
            <==> && response.Answer? && response.body.ReviewBody?
                 && (if protocol != V2 then response.status == 422
                     else && response.status == 202 && response.body.eventId == head.eventId
                          && response.body.runId == head.runId && response.body.scheduleItemId == head.scheduleItemId)
    ensures Classify(protocol, response, head) == Rejected
            <==> && response.Answer? && 400 <= response.status < 500 && response.status !in {401, 403}
                 && (match response.body
                     case Refusal(code) =>
                       if protocol != V2 then !(response.status == 409 && code == LegacyReviewRequired)
                       else (response.status == 409 && code in {RevisionConflict, IdempotencyKeyReuse})
                            || code == Listed(response.status)
                     case ReviewBody(_, _, _) => protocol != V2 && response.status != 422
                     case _ => false)
  {}

  /** Only a matching receipt confirms, whichever of the two requests brought it. */
  lemma OnlyReceiptsConfirm(protocol: Protocol, head: Item, response: Response)
    ensures Classify(protocol, Checked(protocol, head, response), head) == Confirmed ==>
              response.Answer? && response.body.AppliedBody? && Acknowledges(protocol, response.body.receipt, head)
    ensures AfterLookup(protocol, head, response).Settled?
            && Classify(protocol, AfterLookup(protocol, head, response).response, head) == Confirmed ==>
              response.Answer? && response.body.AppliedBody? && Acknowledges(protocol, response.body.receipt, head)
  {}

  /** A server-timed event is never posted again, and an unanswered lookup of one decides nothing. */
  lemma ServerTimedNeverPosted(protocol: Protocol, head: Item, response: Response)
    requires protocol != V2 && head.recordingMode == ServerReceived
    ensures AfterLookup(protocol, head, response).Settled?
    ensures response == Answer(404, Refusal(EventNotFound)) ==>
              Classify(protocol, AfterLookup(protocol, head, response).response, head) == Undecided
  {}
}
