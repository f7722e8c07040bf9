/**
  What a replay gets done: which answers move it on, and a run that empties any queue the server would apply.
*/
module QueueProgress {
  import opened Options
  import opened FieldProtocol
  import opened QueueRecords
  import opened QueueCommit
  import opened QueueOperations
  import opened QueueRefinement
  import opened Replay
  import opened QueueRuns
  import opened QueueSimulation

  // ---------------------------------------------------------------- what a call begins with

  /** A replay begins with the refresh, with nothing submitted or counted, or is over at once. */
  lemma BeginRule(protocol: Protocol, store: Store)
    ensures BeginReplay(protocol, store)
            == if LoadState(protocol, store).None? then Call(Finished, 0, [])
               else
                 var cache := LoadState(protocol, store).value.cache;
                 Call(Refreshing(if cache.Some? then Some(cache.value.projectionRevision) else None), 0, [])
  {}

  /** The item test of enqueue, by protocol. */
  lemma InvalidItemRule(protocol: Protocol, store: Store, item: Item, budget: nat)
    requires LoadState(protocol, store).Some? && !LoadState(protocol, store).value.status.Terminal()
    ensures EnqueueOp(protocol, store, item, budget).1 == InvalidItem
            <==> || item.eventId == "" || item.runId == "" || item.scheduleItemId == ""
                 || item.expectedRunRevision > 9007199254740991 || item.expectedScheduleRevision > 9007199254740991
                 || item.localSequence > 9007199254740991
                 || (protocol in {V3, V4} && (item.eventType == Block || item.eventType == Resume || item.detail != ""))
                 || (protocol == V4 && item.recordingMode == ServerReceived)
  {}

  // ---------------------------------------------------------------- what an answer leads to

  lemma SettledNeverPosts(protocol: Protocol, store: Store, call: Call, head: Item, response: Response, budget: nat)
    requires protocol != V2
    ensures !AfterResponse(protocol, store, call, head, response, budget).1.phase.Posting?
  {
    if LoadState(protocol, store).Some? {
      var q := LoadState(protocol, store).value;
      LeavesNeverPost(protocol, q, call, head, response);
      DecidedNeverPosts(protocol, store, q, call, Decide(protocol, q, call, head, response), budget);
    }
  }

  lemma LeavesNeverPost(protocol: Protocol, q: Queue, call: Call, head: Item, response: Response)
    requires protocol != V2
    ensures var d := Decide(protocol, q, call, head, response); d.Leave? ==> !d.call.phase.Posting?
  {}

  lemma DecidedNeverPosts(protocol: Protocol, store: Store, q: Queue, call: Call, decision: Decision, budget: nat)
    requires protocol != V2 && (decision.TakeHead? ==> q.items != [])
    requires decision.Leave? ==> !decision.call.phase.Posting?
    ensures !AfterDecision(protocol, store, q, call, decision, budget).1.phase.Posting?
  {}

  /**
    After a lookup a head is posted exactly when the server does not know it and the device has declared it;
    one that the server was to time is left where it is, and the call ends.
  */
  lemma LookupPosts(protocol: Protocol, store: Store, call: Call, response: Response, budget: nat)
    requires protocol != V2 && call.phase.Looking?
    ensures RespondOp(protocol, store, call, response, budget).1.phase.Posting?
            <==> response == Answer(404, Refusal(EventNotFound)) && call.phase.head.recordingMode == DeviceDeclared
    ensures response == Answer(404, Refusal(EventNotFound)) ==>
              RespondOp(protocol, store, call, response, budget)
              == (store, call.(phase := if call.phase.head.recordingMode == DeviceDeclared then Posting(call.phase.head)
                                        else Finished))
  {
    var head := call.phase.head;
    if response == Answer(404, Refusal(EventNotFound)) {
      if head.recordingMode == ServerReceived {
        UndecidedStops(protocol, store, call, head, Answer(409, Refusal(LegacyReviewRequired)), budget);
      }
    } else {
      SettledNeverPosts(protocol, store, call, head, Checked(protocol, head, response), budget);
    }
  }

  lemma UndecidedStops(protocol: Protocol, store: Store, call: Call, head: Item, response: Response, budget: nat)
    requires Classify(protocol, response, head) == Undecided
    ensures AfterResponse(protocol, store, call, head, response, budget) == (store, call.(phase := Finished))
  {}

  /** An ok answer that is not this event's receipt blocks the queue, on the lookup as on the post. */
  lemma WrongReceiptBlocks(protocol: Protocol, store: Store, q: Queue, call: Call, response: Response, budget: nat)
    requires protocol != V2 && Waiting(call) && Healthy(protocol, store) && LoadState(protocol, store) == Some(q)
    requires q.items != [] && q.items[0] == call.phase.head && !q.status.Terminal() && budget > 0
    requires response.Answer? && (response.body.OkOther? || response.body.AppliedBody?)
    requires response.body.AppliedBody? ==> !MatchesReceipt(protocol, response.body.receipt, call.phase.head)
    ensures var (after, call') := RespondOp(protocol, store, call, response, budget);
            LoadState(protocol, after) == Some(q.(status := Conflict)) && call' == call.(phase := Finished)
  {
    var head, refusal := call.phase.head, Answer(409, Refusal(IdempotencyKeyReuse));
    WrongReceiptIsRefusal(protocol, store, call, response, budget);
    RefusedIsMarked(protocol, store, q, call, head, refusal, budget);
    VerdictEffect(protocol, store, q, Conflict, budget);
  }

  lemma WrongReceiptIsRefusal(protocol: Protocol, store: Store, call: Call, response: Response, budget: nat)
    requires protocol != V2 && Waiting(call)
    requires response.Answer? && (response.body.OkOther? || response.body.AppliedBody?)
    requires response.body.AppliedBody? ==> !MatchesReceipt(protocol, response.body.receipt, call.phase.head)
    ensures RespondOp(protocol, store, call, response, budget)
            == AfterResponse(protocol, store, call, call.phase.head, Answer(409, Refusal(IdempotencyKeyReuse)), budget)
  {}

  lemma RefusedIsMarked(protocol: Protocol, store: Store, q: Queue, call: Call, head: Item, response: Response,
                        budget: nat)
    requires LoadState(protocol, store) == Some(q) && q.items != [] && q.items[0] == head
    requires Classify(protocol, response, head) == Rejected
    ensures AfterResponse(protocol, store, call, head, response, budget)
            == (TryCommit(protocol, store, q, q.(status := Conflict), budget).0, call.(phase := Finished))
  {
    assert head in q.items;
  }

  /** A day's revision is stored as it came, one that did not change with the revision known; an older one is not. */
  lemma RefreshStores(protocol: Protocol, store: Store, q: Queue, call: Call, answer: RefreshAnswer, at: string,
                      budget: nat)
    requires Healthy(protocol, store) && LoadState(protocol, store) == Some(q) && call.phase.Refreshing? && budget > 0
    ensures var after := AfterRefresh(protocol, store, call, answer, Some(at), budget).0;
            var revision := match answer
                            case Day(n) => if n <= 9007199254740991 then Some(n) else None
                            case NotModified =>
                              if call.phase.known.Some? && call.phase.known.value <= 9007199254740991
                              then call.phase.known else None
                            case Unavailable => None;
            LoadState(protocol, after)
            == Some(if revision.None? || (q.cache.Some? && q.cache.value.projectionRevision > revision.value) then q
                    else q.(cache := Some(Cache(revision.value, at))))
  {
    RefreshLoads(protocol, store, q, call, answer, Some(at), budget);
    var revision := RefreshedRevision(call.phase.known, answer);
    if revision.Some? { Recached(q, Cache(revision.value, at)); }
  }

  /** The call goes on to the head exactly when there is a revision and a time for it, and an open queue with items. */
  lemma RefreshLeads(protocol: Protocol, store: Store, q: Queue, call: Call, answer: RefreshAnswer, at: Option<string>,
                     budget: nat)
    requires Healthy(protocol, store) && LoadState(protocol, store) == Some(q) && call.phase.Refreshing? && budget > 0
    ensures var goesOn := at.Some? && !q.status.Terminal() && q.items != []
                          && match answer
                             case Day(n) => n <= 9007199254740991
                             case NotModified => call.phase.known.Some? && call.phase.known.value <= 9007199254740991
                             case Unavailable => false;
            AfterRefresh(protocol, store, call, answer, at, budget).1
            == if !goesOn then call.(phase := Finished)
               else if protocol == V2
               then Call(Posting(q.items[0]), call.processed, call.submitted + [q.items[0]])
               else Call(Looking(q.items[0]), call.processed, call.submitted + [q.items[0]])
  {
    var revision := RefreshedRevision(call.phase.known, answer);
    if at.Some? && revision.Some? {
      var cache := Cache(revision.value, at.value);
      RefreshEffect(protocol, store, q, cache, budget);
      RefreshCommitted(protocol, store, q, Refreshed(q, cache), call, answer, cache, budget);
    }
  }

  lemma RefreshCommitted(protocol: Protocol, store: Store, q: Queue, q': Queue, call: Call, answer: RefreshAnswer,
                         cache: Cache, budget: nat)
    requires LoadState(protocol, store) == Some(q) && call.phase.Refreshing?
    requires RefreshedRevision(call.phase.known, answer) == Some(cache.projectionRevision)
    requires TryCommit(protocol, store, q, q.(cache := Some(cache)), budget).1 == Some(q')
    ensures AfterRefresh(protocol, store, call, answer, Some(cache.lastSyncedAt), budget).1
            == if q'.status.Terminal() then call.(phase := Finished) else Continue(protocol, call, q')
  {}

  lemma Recached(q: Queue, cache: Cache)
    ensures Refreshed(q, cache)
            == if q.cache.Some? && q.cache.value.projectionRevision > cache.projectionRevision then q
               else q.(cache := Some(cache))
  {}

  // ---------------------------------------------------------------- a run that empties the queue

  /**
    The server would apply these items in order: it has an acknowledging receipt for the event, or would accept
    it now. Under V3 an event still to be applied must be one the device has declared.
  */
  ghost predicate Appliable(protocol: Protocol, server: Server, items: seq<Item>)
    decreases |items|
  {
    items == []
    || if items[0].eventId in server.receipts
       then Acknowledges(protocol, server.receipts[items[0].eventId], items[0])
            && Appliable(protocol, server, items[1..])
       else && Accepts(server.RunOf(items[0].scheduleItemId), items[0])
            && (protocol == V3 ==> items[0].recordingMode == DeviceDeclared)
            && Appliable(protocol, server.Process(items[0], ReceiptFor(protocol, items[0])), items[1..])
  }

  /** The call waits for the head of this queue. */
  ghost predicate AtHead(protocol: Protocol, w: World, c: nat, q: Queue) {
    && Inv(protocol, w) && LoadState(protocol, w.store) == Some(q) && !q.status.Terminal()
    && c in w.calls
    && (if q.items == [] then w.calls[c].phase == Finished
        else w.calls[c].phase == Posting(q.items[0]) || (protocol != V2 && w.calls[c].phase == Looking(q.items[0])))
  }

  lemma {:induction false} RunsJoin(protocol: Protocol, w: World, a: seq<Action>, b: seq<Action>)
    requires ValidRun(protocol, w, a) && ValidRun(protocol, RunFrom(protocol, w, a), b)
    ensures ValidRun(protocol, w, a + b)
    ensures RunFrom(protocol, w, a + b) == RunFrom(protocol, RunFrom(protocol, w, a), b)
    decreases |a|
  {
    if a == [] {
      assert a + b == b;
    } else {
      assert (a + b)[0] == a[0] && (a + b)[1..] == a[1..] + b;
      RunsJoin(protocol, Next(protocol, w, a[0]), a[1..], b);
    }
  }

  lemma Joined(protocol: Protocol, w: World, a: seq<Action>, w1: World, b: seq<Action>, w2: World, rest: seq<Action>)
    returns (run: seq<Action>)
    requires ValidRun(protocol, w, a) && w1 == RunFrom(protocol, w, a)
    requires ValidRun(protocol, w1, b) && w2 == RunFrom(protocol, w1, b) && ValidRun(protocol, w2, rest)
    ensures ValidRun(protocol, w, run) && RunFrom(protocol, w, run) == RunFrom(protocol, w2, rest)
  {
    RunsJoin(protocol, w1, b, rest);
    RunsJoin(protocol, w, a, b + rest);
    run := a + (b + rest);
  }

  lemma OneStep(protocol: Protocol, w: World, a: Action)
    requires Inv(protocol, w) && Enabled(protocol, w, a)
    ensures ValidRun(protocol, w, [a]) && RunFrom(protocol, w, [a]) == Next(protocol, w, a)
    ensures Inv(protocol, Next(protocol, w, a))
  {
    StepKeepsInv(protocol, w, a);
    assert [a][1..] == [];
  }

  const NOT_FOUND: Response := Answer(404, Refusal(EventNotFound))

  /** A head that is looked up and not found is posted. */
  lemma Posted404(protocol: Protocol, w: World, c: nat, q: Queue) returns (w': World)
    requires AtHead(protocol, w, c, q) && protocol != V2 && q.items != [] && w.calls[c].phase == Looking(q.items[0])
    requires q.items[0].recordingMode == DeviceDeclared
    ensures ValidRun(protocol, w, [Respond(c, NOT_FOUND, 0)])
    ensures w' == RunFrom(protocol, w, [Respond(c, NOT_FOUND, 0)]) && AtHead(protocol, w', c, q)
    ensures w'.server == w.server && w'.calls[c] == w.calls[c].(phase := Posting(q.items[0])) && q.items[0] in w'.sent
  {
    LookupPosts(protocol, w.store, w.calls[c], NOT_FOUND, 0);
    OneStep(protocol, w, Respond(c, NOT_FOUND, 0));
    w' := Next(protocol, w, Respond(c, NOT_FOUND, 0));
  }

  /** A head that has been posted is applied. */
  lemma AppliedHead(protocol: Protocol, w: World, c: nat, q: Queue) returns (w': World)
    requires AtHead(protocol, w, c, q) && q.items != [] && w.calls[c].phase == Posting(q.items[0])
    requires q.items[0].eventId !in w.server.receipts
    requires Accepts(w.server.RunOf(q.items[0].scheduleItemId), q.items[0])
    ensures var a := Process(q.items[0], ReceiptFor(protocol, q.items[0]));
            ValidRun(protocol, w, [a]) && w' == RunFrom(protocol, w, [a])
    ensures AtHead(protocol, w', c, q) && w'.calls == w.calls
    ensures w'.server == w.server.Process(q.items[0], ReceiptFor(protocol, q.items[0]))
  {
    var a := Process(q.items[0], ReceiptFor(protocol, q.items[0]));
    assert CallOk(w, c);
    OneStep(protocol, w, a);
    w' := Next(protocol, w, a);
  }

  lemma MadeReceiptAcknowledges(protocol: Protocol, q: Queue, server: Server)
    requires ValidQueue(protocol, q) && q.items != []
    requires Accepts(server.RunOf(q.items[0].scheduleItemId), q.items[0])
    ensures Acknowledges(protocol, ReceiptFor(protocol, q.items[0]), q.items[0])
    ensures protocol == V4 ==> q.items[0].recordingMode == DeviceDeclared
  {
    if protocol != V2 { SomeReceiptMatches(protocol, server.RunOf(q.items[0].scheduleItemId), q.items[0]); }
  }

  /** The answer that carries a stored receipt. */
  function AnswerWith(protocol: Protocol, receipt: Receipt): Response {
    Answer(200, AppliedBody(receipt, protocol == V2))
  }

  lemma AcknowledgedDecision(protocol: Protocol, q: Queue, call: Call, receipt: Receipt)
    requires q.items != [] && !q.status.Terminal() && Acknowledges(protocol, receipt, q.items[0])
    ensures Decide(protocol, q, call, q.items[0], AnswerWith(protocol, receipt))
            == TakeHead(call.(processed := call.processed + 1))
  {
    assert q.items[0] in q.items;
  }

  lemma AcknowledgedOp(protocol: Protocol, store: Store, q: Queue, call: Call, receipt: Receipt)
    requires Waiting(call) && q.items != [] && call.phase.head == q.items[0]
    requires Acknowledges(protocol, receipt, q.items[0]) && (protocol == V2 ==> call.phase.Posting?)
    ensures RespondOp(protocol, store, call, AnswerWith(protocol, receipt), 3)
            == AfterResponse(protocol, store, call, q.items[0], AnswerWith(protocol, receipt), 3)
  {}

  lemma TakenOp(protocol: Protocol, store: Store, q: Queue, call: Call, head: Item, response: Response, after: Store)
    requires LoadState(protocol, store) == Some(q) && q.items != []
    requires Decide(protocol, q, call, head, response) == TakeHead(call.(processed := call.processed + 1))
    requires TryCommit(protocol, store, q, Dequeued(q), 3) == (after, Some(Dequeued(q)))
    ensures AfterResponse(protocol, store, call, head, response, 3)
            == (after, Continue(protocol, call.(processed := call.processed + 1), Dequeued(q)))
  {}

  /** An answer that carries the stored receipt takes the head. */
  lemma HeadTakenOff(protocol: Protocol, store: Store, q: Queue, call: Call, receipt: Receipt)
    returns (response: Response, after: Store)
    requires Healthy(protocol, store) && LoadState(protocol, store) == Some(q) && !q.status.Terminal()
    requires Waiting(call) && q.items != [] && call.phase.head == q.items[0]
    requires Acknowledges(protocol, receipt, q.items[0]) && (protocol == V2 ==> call.phase.Posting?)
    ensures response.Answer? && response.body.AppliedBody? && response.body.receipt == receipt
    ensures RespondOp(protocol, store, call, response, 3)
            == (after, Continue(protocol, call.(processed := call.processed + 1), Dequeued(q)))
    ensures LoadState(protocol, after) == Some(Dequeued(q))
  {
    response := AnswerWith(protocol, receipt);
    DequeueEffect(protocol, store, q, 3);
    after := TryCommit(protocol, store, q, Dequeued(q), 3).0;
    AcknowledgedOp(protocol, store, q, call, receipt);
    AcknowledgedDecision(protocol, q, call, receipt);
    TakenOp(protocol, store, q, call, q.items[0], response, after);
  }

  /** The call has taken the head and goes on with the next one. */
  lemma TakenHead(protocol: Protocol, w: World, c: nat, q: Queue, receipt: Receipt) returns (a: Action, w': World)
    requires AtHead(protocol, w, c, q) && q.items != [] && q.items[0].eventId in w.server.receipts
    requires receipt == w.server.receipts[q.items[0].eventId] && Acknowledges(protocol, receipt, q.items[0])
    ensures ValidRun(protocol, w, [a]) && w' == RunFrom(protocol, w, [a])
    ensures AtHead(protocol, w', c, Dequeued(q)) && w'.server == w.server
    ensures w'.calls[c].processed == w.calls[c].processed + 1
    ensures w'.calls[c].submitted == w.calls[c].submitted + FirstOf(Dequeued(q).items)
  {
    WaitsForHead(protocol, w, c, q);
    a, w' := TakesHead(protocol, w, c, q, receipt);
    NextHead(protocol, w.calls[c].(processed := w.calls[c].processed + 1), q);
    Arrived(protocol, w', c, q, w'.calls[c]);
  }

  lemma TakesHead(protocol: Protocol, w: World, c: nat, q: Queue, receipt: Receipt) returns (a: Action, w': World)
    requires Inv(protocol, w) && Healthy(protocol, w.store) && LoadState(protocol, w.store) == Some(q)
    requires !q.status.Terminal() && q.items != [] && c in w.calls && Waiting(w.calls[c])
    requires w.calls[c].phase.head == q.items[0] && (protocol == V2 ==> w.calls[c].phase.Posting?)
    requires q.items[0].eventId in w.server.receipts && receipt == w.server.receipts[q.items[0].eventId]
    requires Acknowledges(protocol, receipt, q.items[0])
    ensures ValidRun(protocol, w, [a]) && w' == RunFrom(protocol, w, [a]) && Inv(protocol, w')
    ensures LoadState(protocol, w'.store) == Some(Dequeued(q)) && w'.server == w.server && c in w'.calls
    ensures w'.calls[c] == Continue(protocol, w.calls[c].(processed := w.calls[c].processed + 1), Dequeued(q))
  {
    var response, after := HeadTakenOff(protocol, w.store, q, w.calls[c], receipt);
    var call' := Continue(protocol, w.calls[c].(processed := w.calls[c].processed + 1), Dequeued(q));
    StoredAnswerIsHonest(protocol, w, c, response);
    a, w' := Responded(protocol, w, c, response, after, call');
  }

  lemma WaitsForHead(protocol: Protocol, w: World, c: nat, q: Queue)
    requires AtHead(protocol, w, c, q) && q.items != []
    ensures Inv(protocol, w) && Healthy(protocol, w.store)
    ensures Waiting(w.calls[c]) && w.calls[c].phase.head == q.items[0]
    ensures protocol == V2 ==> w.calls[c].phase.Posting?
  {}

  lemma StoredAnswerIsHonest(protocol: Protocol, w: World, c: nat, response: Response)
    requires c in w.calls && Waiting(w.calls[c]) && w.calls[c].phase.head.eventId in w.server.receipts
    requires response.Answer? && response.body.AppliedBody?
    requires response.body.receipt == w.server.receipts[w.calls[c].phase.head.eventId]
    ensures Enabled(protocol, w, Respond(c, response, 3))
  {}

  lemma Responded(protocol: Protocol, w: World, c: nat, response: Response, after: Store, call': Call)
    returns (a: Action, w': World)
    requires Inv(protocol, w) && Enabled(protocol, w, Respond(c, response, 3))
    requires RespondOp(protocol, w.store, w.calls[c], response, 3) == (after, call')
    ensures ValidRun(protocol, w, [a]) && w' == RunFrom(protocol, w, [a]) && Inv(protocol, w')
    ensures w'.store == after && c in w'.calls && w'.calls[c] == call' && w'.server == w.server
  {
    a := Respond(c, response, 3);
    OneStep(protocol, w, a);
    w' := Next(protocol, w, a);
  }

  lemma Arrived(protocol: Protocol, w': World, c: nat, q: Queue, call': Call)
    requires Inv(protocol, w') && q.items != [] && LoadState(protocol, w'.store) == Some(Dequeued(q))
    requires c in w'.calls && w'.calls[c] == call'
    requires if |q.items| == 1 then call'.phase == Finished
             else call'.phase == if protocol == V2 then Posting(q.items[1]) else Looking(q.items[1])
    ensures AtHead(protocol, w', c, Dequeued(q))
  {}

  lemma NextHead(protocol: Protocol, call: Call, q: Queue)
    requires q.items != []
    ensures var call' := Continue(protocol, call, Dequeued(q));
            && call'.processed == call.processed && !Dequeued(q).status.Terminal()
            && call'.submitted == call.submitted + FirstOf(Dequeued(q).items)
            && (if |q.items| == 1 then call'.phase == Finished
                else call'.phase == if protocol == V2 then Posting(q.items[1]) else Looking(q.items[1]))
  {}

  function FirstOf(items: seq<Item>): seq<Item> { if items == [] then [] else [items[0]] }

  /** The head comes to be acknowledged, if it is not yet. */
  lemma HeadApplied(protocol: Protocol, w: World, c: nat, q: Queue) returns (run: seq<Action>, w': World)
    requires AtHead(protocol, w, c, q) && q.items != [] && Appliable(protocol, w.server, q.items)
    ensures ValidRun(protocol, w, run) && w' == RunFrom(protocol, w, run) && AtHead(protocol, w', c, q)
    ensures w'.calls[c].processed == w.calls[c].processed && w'.calls[c].submitted == w.calls[c].submitted
    ensures q.items[0].eventId in w'.server.receipts
    ensures Acknowledges(protocol, w'.server.receipts[q.items[0].eventId], q.items[0])
    ensures Appliable(protocol, w'.server, q.items[1..])
  {
    if q.items[0].eventId in w.server.receipts {
      run, w' := [], w;
    } else {
      LoadedIsAssembled(protocol, w.store);
      MadeReceiptAcknowledges(protocol, q, w.server);
      var first, w1 := [], w;
      if w.calls[c].phase == Looking(q.items[0]) {
        first := [Respond(c, NOT_FOUND, 0)];
        w1 := Posted404(protocol, w, c, q);
      }
      w' := AppliedHead(protocol, w1, c, q);
      run := first + [Process(q.items[0], ReceiptFor(protocol, q.items[0]))];
      RunsJoin(protocol, w, first, [Process(q.items[0], ReceiptFor(protocol, q.items[0]))]);
    }
  }

  /** One after the other, all are taken. */
  lemma {:induction false} Drained(protocol: Protocol, w: World, c: nat, q: Queue) returns (run: seq<Action>)
    requires AtHead(protocol, w, c, q) && Appliable(protocol, w.server, q.items)
    ensures ValidRun(protocol, w, run)
    ensures var w' := RunFrom(protocol, w, run);
            && LoadState(protocol, w'.store)
               == Some(q.(items := [], status := if q.items == [] then q.status else Synced))
            && c in w'.calls && w'.calls[c].phase == Finished
            && w'.calls[c].processed == w.calls[c].processed + |q.items|
            && w'.calls[c].submitted == w.calls[c].submitted + if q.items == [] then [] else q.items[1..]
    decreases |q.items|
  {
    if q.items == [] {
      run := [];
    } else {
      var first, w1 := HeadApplied(protocol, w, c, q);
      var receipt := w1.server.receipts[q.items[0].eventId];
      var a, w2 := TakenHead(protocol, w1, c, q, receipt);
      var rest := Drained(protocol, w2, c, Dequeued(q));
      run := Joined(protocol, w, first, w1, [a], w2, rest);
      SubmittedOneByOne(w.calls[c].submitted, q.items);
    }
  }

  lemma SubmittedOneByOne(submitted: seq<Item>, items: seq<Item>)
    requires items != []
    ensures submitted + FirstOf(items[1..]) + (if items[1..] == [] then [] else items[1..][1..])
            == submitted + items[1..]
  {}

  lemma Begun(protocol: Protocol, w: World, c: nat, q: Queue) returns (w': World)
    requires Inv(protocol, w) && LoadState(protocol, w.store) == Some(q) && c !in w.calls
    ensures ValidRun(protocol, w, [Begin(c)]) && w' == RunFrom(protocol, w, [Begin(c)]) && Inv(protocol, w')
    ensures w'.store == w.store && w'.server == w.server && c in w'.calls
    ensures w'.calls[c].phase.Refreshing? && w'.calls[c].processed == 0 && w'.calls[c].submitted == []
  {
    OneStep(protocol, w, Begin(c));
    w' := Next(protocol, w, Begin(c));
  }

  lemma RefreshGoesOn(protocol: Protocol, store: Store, q: Queue, q': Queue, call: Call, answer: RefreshAnswer,
                      revision: nat, at: string, after: Store)
    requires LoadState(protocol, store) == Some(q) && call.phase.Refreshing? && !q'.status.Terminal()
    requires RefreshedRevision(call.phase.known, answer) == Some(revision)
    requires TryCommit(protocol, store, q, q.(cache := Some(Cache(revision, at))), 1) == (after, Some(q'))
    ensures AfterRefresh(protocol, store, call, answer, Some(at), 1) == (after, Continue(protocol, call, q'))
  {}

  /** The refresh goes through, and the call begins with the head. */
  lemma RefreshedHead(protocol: Protocol, w: World, c: nat, q: Queue, revision: nat, at: string) returns (w': World)
    requires Inv(protocol, w) && LoadState(protocol, w.store) == Some(q) && !q.status.Terminal() && c in w.calls
    requires w.calls[c].phase.Refreshing? && w.calls[c].processed == 0 && w.calls[c].submitted == []
    requires revision <= MAX_SAFE_INTEGER
    ensures var a := Refresh(c, Day(revision), Some(at), 1);
            ValidRun(protocol, w, [a]) && w' == RunFrom(protocol, w, [a])
    ensures AtHead(protocol, w', c, Refreshed(q, Cache(revision, at))) && w'.server == w.server
    ensures w'.calls[c].processed == 0 && w'.calls[c].submitted == FirstOf(q.items)
  {
    var after := RefreshedOp(protocol, w.store, q, w.calls[c], revision, at);
    FirstHead(protocol, w.calls[c], Refreshed(q, Cache(revision, at)));
    OneStep(protocol, w, Refresh(c, Day(revision), Some(at), 1));
    w' := Next(protocol, w, Refresh(c, Day(revision), Some(at), 1));
  }

  lemma RefreshedOp(protocol: Protocol, store: Store, q: Queue, call: Call, revision: nat, at: string)
    returns (after: Store)
    requires Healthy(protocol, store) && LoadState(protocol, store) == Some(q) && !q.status.Terminal()
    requires call.phase.Refreshing? && revision <= MAX_SAFE_INTEGER
    ensures AfterRefresh(protocol, store, call, Day(revision), Some(at), 1)
            == (after, Continue(protocol, call, Refreshed(q, Cache(revision, at))))
    ensures LoadState(protocol, after) == Some(Refreshed(q, Cache(revision, at)))
  {
    RefreshEffect(protocol, store, q, Cache(revision, at), 1);
    after := TryCommit(protocol, store, q, q.(cache := Some(Cache(revision, at))), 1).0;
    RefreshGoesOn(protocol, store, q, Refreshed(q, Cache(revision, at)), call, Day(revision), revision, at, after);
  }

  lemma FirstHead(protocol: Protocol, call: Call, q: Queue)
    requires call.submitted == []
    ensures var call' := Continue(protocol, call, q);
            && call'.submitted == FirstOf(q.items) && call'.processed == call.processed
            && (if q.items == [] then call'.phase == Finished
                else call'.phase == if protocol == V2 then Posting(q.items[0]) else Looking(q.items[0]))
  {
    if q.items != [] { assert [] + [q.items[0]] == [q.items[0]]; }
  }

  /**
    Progress: whatever the server would apply, one replay can bring it all through. From any reachable world whose
    queue is not blocked there is a run of one new call that empties it, having submitted and counted each item.
  */
  lemma ReplayCanEmpty(protocol: Protocol, w: World, q: Queue, c: nat) returns (run: seq<Action>)
    requires Inv(protocol, w) && LoadState(protocol, w.store) == Some(q) && !q.status.Terminal() && c !in w.calls
    requires Appliable(protocol, w.server, q.items)
    ensures ValidRun(protocol, w, run)
    ensures var w' := RunFrom(protocol, w, run);
            && Emptied(LoadState(protocol, w'.store), q)
            && c in w'.calls && w'.calls[c] == Call(Finished, |q.items|, q.items)
  {
    var w1 := Begun(protocol, w, c, q);
    var w2 := RefreshedHead(protocol, w1, c, q, 0, "now");
    var rest := Drained(protocol, w2, c, Refreshed(q, Cache(0, "now")));
    EmptyIsSynced(protocol, w.store, q);
    run := Joined(protocol, w, [Begin(c)], w1, [Refresh(c, Day(0), Some("now"), 1)], w2, rest);
    AllSubmitted(q.items);
  }

  lemma EmptyIsSynced(protocol: Protocol, store: Store, q: Queue)
    requires LoadState(protocol, store) == Some(q)
    ensures q.items == [] ==> q.status == Synced
  {
    LoadedIsAssembled(protocol, store);
  }

  predicate Emptied(loaded: Option<Queue>, q: Queue) {
    loaded.Some? && loaded.value.items == [] && loaded.value.status == Synced && loaded.value.next == q.next
  }

  lemma AllSubmitted(items: seq<Item>)
    ensures FirstOf(items) + (if items == [] then [] else items[1..]) == items
  {}
}
