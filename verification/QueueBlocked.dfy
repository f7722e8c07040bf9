/**
  A queue whose head has a verdict is blocked: it stays as it is in every later run. What it does not
  do is keep a replay that is already under way from submitting its head once more.
*/
module QueueBlocked {
  import opened Options
  import opened FieldProtocol
  import opened QueueRecords
  import opened QueueCommit
  import opened QueueOperations
  import opened QueueRefinement
  import opened Replay
  import opened QueueRuns
  import opened QueueSimulation

  ghost predicate Blocked(protocol: Protocol, store: Store) {
    LoadState(protocol, store).Some? && LoadState(protocol, store).value.status.Terminal()
  }

  /** Loads as before, up to the cached projection. */
  ghost predicate Frozen(protocol: Protocol, store: Store, after: Store) {
    && Blocked(protocol, store) && Blocked(protocol, after)
    && LoadState(protocol, after).value.(cache := None) == LoadState(protocol, store).value.(cache := None)
  }

  /** One step of anyone: the items, the verdict and the next number stay, and an enqueue is refused. */
  lemma StepKeepsBlocked(protocol: Protocol, w: World, a: Action)
    requires Inv(protocol, w) && Enabled(protocol, w, a) && Blocked(protocol, w.store)
    ensures Frozen(protocol, w.store, Next(protocol, w, a).store)
    ensures a.Enqueue? ==> EnqueueOp(protocol, w.store, a.item, a.budget) == (w.store, ReplayBlocked)
  {
    StepSimulates(protocol, w, a, LoadState(protocol, w.store).value);
  }

  /** Once the head has a verdict, no run changes the items, the verdict or the next number again. */
  lemma {:induction false} BlockedForever(protocol: Protocol, w: World, run: seq<Action>)
    requires Inv(protocol, w) && ValidRun(protocol, w, run) && Blocked(protocol, w.store)
    ensures Frozen(protocol, w.store, RunFrom(protocol, w, run).store)
    decreases |run|
  {
    if run != [] {
      StepKeepsInv(protocol, w, run[0]);
      StepKeepsBlocked(protocol, w, run[0]);
      BlockedForever(protocol, Next(protocol, w, run[0]), run[1..]);
    }
  }

  lemma SteppedBlocks(protocol: Protocol, w: World, a: Action, q: Queue)
    requires Enabled(protocol, w, a) && !q.status.Terminal()
    ensures Stepped(protocol, w, a, q).Some? && Stepped(protocol, w, a, q).value.status.Terminal()
            <==>
            && a.Respond? && a.budget > 0 && Delivered(protocol, w.calls[a.call], a.response).Some?
            && q.items != [] && q.items[0] == w.calls[a.call].phase.head
            && Classify(protocol, Delivered(protocol, w.calls[a.call], a.response).value, q.items[0])
               in {NeedsReview, Rejected}
  {}

  /** A verdict falls only on the event whose answer brought it, and only while that event is the head. */
  lemma VerdictLandsOnItsEvent(protocol: Protocol, w: World, a: Action)
    requires Inv(protocol, w) && Enabled(protocol, w, a) && LoadState(protocol, w.store).Some?
             && !Blocked(protocol, w.store)
    ensures var q := LoadState(protocol, w.store).value;
            Blocked(protocol, Next(protocol, w, a).store)
            <==>
            && a.Respond? && a.budget > 0 && Delivered(protocol, w.calls[a.call], a.response).Some?
            && q.items != [] && q.items[0] == w.calls[a.call].phase.head
            && Classify(protocol, Delivered(protocol, w.calls[a.call], a.response).value, q.items[0])
               in {NeedsReview, Rejected}
  {
    var q := LoadState(protocol, w.store).value;
    StepSimulates(protocol, w, a, q);
    SteppedBlocks(protocol, w, a, q);
  }

  // ---------------------------------------------------------------- submissions while blocked

  /** The answer decides on a head that someone else has already removed. */
  ghost predicate LateVerdict(protocol: Protocol, store: Store, call: Call, response: Response)
    requires Waiting(call)
  {
    && LoadState(protocol, store).Some? && call.phase.head.eventId !in Ids(LoadState(protocol, store).value.items)
    && Delivered(protocol, call, response).Some?
    && Classify(protocol, Delivered(protocol, call, response).value, call.phase.head) != Undecided
  }

  lemma BlockedDecision(q: Queue, protocol: Protocol, call: Call, head: Item, response: Response)
    requires q.items != [] && q.status.Terminal()
    ensures match Decide(protocol, q, call, head, response)
            case Leave(call') =>
              if head.eventId !in Ids(q.items) && Classify(protocol, response, head) != Undecided
              then call'.submitted == call.submitted + [q.items[0]]
              else call' == call.(phase := Finished)
            case TakeHead(_) => false
            case Mark(verdict) => verdict.Terminal() && head.eventId in Ids(q.items)
  {}

  lemma BlockedHasHead(protocol: Protocol, store: Store)
    requires Blocked(protocol, store)
    ensures LoadState(protocol, store).value.items != []
  {
    LoadedIsAssembled(protocol, store);
  }

  lemma RespondWhileBlocked(protocol: Protocol, store: Store, call: Call, response: Response, budget: nat)
    requires Blocked(protocol, store) && Waiting(call)
    ensures LoadState(protocol, store).value.items != []
    ensures RespondOp(protocol, store, call, response, budget).1.submitted
            == call.submitted + if LateVerdict(protocol, store, call, response)
                                then [LoadState(protocol, store).value.items[0]] else []
  {
    BlockedHasHead(protocol, store);
    var delivered := Delivered(protocol, call, response);
    if delivered.Some? {
      BlockedDecision(LoadState(protocol, store).value, protocol, call, call.phase.head, delivered.value);
    }
  }

  lemma RefreshWhileBlocked(protocol: Protocol, store: Store, call: Call, answer: RefreshAnswer,
                            syncedAt: Option<string>, budget: nat)
    requires Healthy(protocol, store) && Blocked(protocol, store) && call.phase.Refreshing?
    ensures AfterRefresh(protocol, store, call, answer, syncedAt, budget).1 == call.(phase := Finished)
  {
    var revision, q := RefreshedRevision(call.phase.known, answer), LoadState(protocol, store).value;
    if syncedAt.Some? && revision.Some? {
      RefreshEffect(protocol, store, q, Cache(revision.value, syncedAt.value), budget);
    }
  }

  /** Some call begins to submit an event in this step. */
  ghost predicate Submits(w: World, w': World) {
    exists c :: c in w'.calls && |w'.calls[c].submitted| > if c in w.calls then |w.calls[c].submitted| else 0
  }

  /**
    A blocked queue is not left alone altogether. A step begins a submission, of the blocked head, exactly
    when it brings a call the answer for an event that another tab has removed meanwhile: after that
    branch of the loop the status is not looked at again.
  */
  lemma BlockedSubmission(protocol: Protocol, w: World, a: Action)
    requires Inv(protocol, w) && Enabled(protocol, w, a) && Blocked(protocol, w.store)
    ensures Submits(w, Next(protocol, w, a))
            <==> a.Respond? && LateVerdict(protocol, w.store, w.calls[a.call], a.response)
  {
    if a.Refresh? {
      RefreshWhileBlocked(protocol, w.store, w.calls[a.call], a.answer, a.syncedAt, a.budget);
    } else if a.Respond? {
      RespondWhileBlocked(protocol, w.store, w.calls[a.call], a.response, a.budget);
      if LateVerdict(protocol, w.store, w.calls[a.call], a.response) { assert a.call in Next(protocol, w, a).calls; }
    } else {
      OthersSubmitNothing(protocol, w, a);
    }
  }

  lemma OthersSubmitNothing(protocol: Protocol, w: World, a: Action)
    requires Enabled(protocol, w, a) && !a.Refresh? && !a.Respond?
    ensures !Submits(w, Next(protocol, w, a))
  {}

  /** Some call posts an event in this step. */
  ghost predicate Posts(w: World, w': World) {
    exists c :: c in w'.calls && w'.calls[c].phase.Posting? && !(c in w.calls && w.calls[c].phase == w'.calls[c].phase)
  }

  /** The lookup of a head that was not known to the server is answered. */
  predicate LookupSaysPost(protocol: Protocol, call: Call, response: Response) {
    call.phase.Looking? && AfterLookup(protocol, call.phase.head, response).Post?
  }

  lemma BlockedDecisionPhase(q: Queue, protocol: Protocol, call: Call, head: Item, response: Response)
    requires q.items != [] && q.status.Terminal()
    ensures match Decide(protocol, q, call, head, response)
            case Leave(call') =>
              call'.phase == if head.eventId !in Ids(q.items) && Classify(protocol, response, head) != Undecided
                             then Submit(protocol, call, q.items[0]).phase else Finished
            case TakeHead(_) => false
            case Mark(verdict) => head.eventId in Ids(q.items)
  {}

  lemma PhaseWhileBlocked(protocol: Protocol, store: Store, call: Call, response: Response, budget: nat)
    requires Blocked(protocol, store) && Waiting(call)
    ensures LoadState(protocol, store).value.items != []
    ensures RespondOp(protocol, store, call, response, budget).1.phase
            == if LookupSaysPost(protocol, call, response) then Posting(call.phase.head)
               else if LateVerdict(protocol, store, call, response)
               then Submit(protocol, call, LoadState(protocol, store).value.items[0]).phase
               else Finished
  {
    BlockedHasHead(protocol, store);
    var delivered := Delivered(protocol, call, response);
    if delivered.Some? {
      BlockedDecisionPhase(LoadState(protocol, store).value, protocol, call, call.phase.head, delivered.value);
    }
  }

  /**
    A post needs no new submission: under V3 and V4 a head that was being looked up as the verdict fell is still
    posted when the lookup does not find it. These, and under V2 the submissions above, are the only posts while
    the queue is blocked.
  */
  lemma BlockedPost(protocol: Protocol, w: World, a: Action)
    requires Inv(protocol, w) && Enabled(protocol, w, a) && Blocked(protocol, w.store)
    ensures Posts(w, Next(protocol, w, a))
            <==>
            && a.Respond?
            && (LookupSaysPost(protocol, w.calls[a.call], a.response)
                || (protocol == V2 && LateVerdict(protocol, w.store, w.calls[a.call], a.response)))
  {
    if a.Refresh? {
      RefreshWhileBlocked(protocol, w.store, w.calls[a.call], a.answer, a.syncedAt, a.budget);
    } else if a.Respond? {
      PhaseWhileBlocked(protocol, w.store, w.calls[a.call], a.response, a.budget);
      PostsOfOne(w, Next(protocol, w, a), a.call);
      var q := LoadState(protocol, w.store).value;
      assert q.items[0].eventId in Ids(q.items);
    } else {
      OthersPostNothing(protocol, w, a);
    }
  }

  lemma PostsOfOne(w: World, w': World, c: nat)
    requires c in w.calls && c in w'.calls && w'.calls == w.calls[c := w'.calls[c]]
    ensures Posts(w, w') <==> w'.calls[c].phase.Posting? && w.calls[c].phase != w'.calls[c].phase
  {}

  lemma OthersPostNothing(protocol: Protocol, w: World, a: Action)
    requires Enabled(protocol, w, a) && !a.Refresh? && !a.Respond?
    ensures !Posts(w, Next(protocol, w, a))
  {}

  // ---------------------------------------------------------------- a run in which it happens

  lemma {:induction false} RunExtends(protocol: Protocol, w: World, run: seq<Action>, a: Action)
    requires ValidRun(protocol, w, run) && Enabled(protocol, RunFrom(protocol, w, run), a)
    ensures ValidRun(protocol, w, run + [a])
    ensures RunFrom(protocol, w, run + [a]) == Next(protocol, RunFrom(protocol, w, run), a)
    decreases |run|
  {
    if run == [] {
      assert run + [a] == [a] && [a][1..] == [];
    } else {
      assert (run + [a])[0] == run[0] && (run + [a])[1..] == run[1..] + [a];
      RunExtends(protocol, Next(protocol, w, run[0]), run[1..], a);
    }
  }

  /** A world that some run from the start reaches. */
  ghost predicate Reachable(protocol: Protocol, w: World) {
    exists run :: ValidRun(protocol, START, run) && RunFrom(protocol, START, run) == w
  }

  lemma ReachableStep(protocol: Protocol, w: World, a: Action)
    requires Reachable(protocol, w) && Enabled(protocol, w, a)
    ensures Reachable(protocol, Next(protocol, w, a)) && Inv(protocol, w)
  {
    var run :| ValidRun(protocol, START, run) && RunFrom(protocol, START, run) == w;
    RunExtends(protocol, START, run, a);
    StartInv(protocol);
    RunKeepsInv(protocol, START, run);
  }

  /** Two events of the legacy queue, the first of which starts a candidate. */
  predicate TwoEvents(x: Item, y: Item) {
    && ValidItem(V2, x) && ValidItem(V2, y) && x.localSequence == 0 && y.localSequence == 1 && x.eventId != y.eventId
    && x.eventType == Start && x.expectedRunRevision == 0
  }

  /** What a store holds, for a legacy queue without an earlier projection than revision 0. */
  ghost predicate Holds(store: Store, items: seq<Item>, status: SyncStatus) {
    && LoadState(V2, store).Some? && LoadState(V2, store).value.items == items
    && LoadState(V2, store).value.status == status && LoadState(V2, store).value.next == 2
    && (LoadState(V2, store).value.cache.Some? ==> LoadState(V2, store).value.cache.value.projectionRevision == 0)
  }

  lemma Reached(w: World)
    requires Reachable(V2, w)
    ensures Healthy(V2, w.store)
  {
    var run :| ValidRun(V2, START, run) && RunFrom(V2, START, run) == w;
    StartInv(V2);
    RunKeepsInv(V2, START, run);
  }

  lemma AddOne(w: World, q: Queue, item: Item)
    requires Reachable(V2, w) && LoadState(V2, w.store) == Some(q) && !q.status.Terminal()
    requires ValidItem(V2, item) && item.localSequence == q.next < 2 && !KnownId(w.store, item.eventId)
    ensures var w' := Next(V2, w, Enqueue(item, 3));
            && Reachable(V2, w') && LoadState(V2, w'.store) == Some(Enqueued(q, item))
            && w'.calls == w.calls && w'.server == w.server
            && (forall e :: KnownId(w'.store, e) <==> KnownId(w.store, e) || e == item.eventId)
  {
    ReachableStep(V2, w, Enqueue(item, 3));
    Reached(w);
    AcceptedStore(w.store, q, item);
  }

  lemma AcceptedStore(store: Store, q: Queue, item: Item)
    requires Healthy(V2, store) && LoadState(V2, store) == Some(q) && !KnownId(store, item.eventId)
    requires !q.status.Terminal() && ValidItem(V2, item) && item.localSequence == q.next < 2
    ensures var after := EnqueueOp(V2, store, item, 3).0;
            && LoadState(V2, after) == Some(Enqueued(q, item))
            && (forall e :: KnownId(after, e) <==> KnownId(store, e) || e == item.eventId)
  {
    assert MAX_SAFE_INTEGER > 2;
    NewEventNotQueued(V2, store, q, item);
    EnqueueCommits(V2, store, q, item, 3);
    EnqueueEffect(V2, store, q, item, 3);
  }

  lemma AtTheStart()
    ensures Reachable(V2, START) && LoadState(V2, START.store) == Some(INITIAL)
    ensures forall e :: !KnownId(START.store, e)
  {
    EmptyHealthy(V2);
    assert ValidRun(V2, START, []) && RunFrom(V2, START, []) == START;
  }

  lemma AddBoth(x: Item, y: Item) returns (w: World)
    requires TwoEvents(x, y)
    ensures Reachable(V2, w) && Holds(w.store, [x, y], Pending) && w.calls == map[] && w.server == START.server
  {
    AtTheStart();
    AddOne(START, INITIAL, x);
    w := Next(V2, START, Enqueue(x, 3));
    AddOne(w, Enqueued(INITIAL, x), y);
    w := Next(V2, w, Enqueue(y, 3));
    BothEnqueued(x, y);
  }

  lemma BothEnqueued(x: Item, y: Item)
    ensures Enqueued(Enqueued(INITIAL, x), y) == Queue(2, Pending, [x, y], None)
  {
    assert [] + [x] + [y] == [x, y];
  }

  lemma RefreshGoesOn(store: Store, q: Queue, q': Queue, call: Call, after: Store)
    requires LoadState(V2, store) == Some(q) && call.phase.Refreshing? && !q'.status.Terminal()
    requires TryCommit(V2, store, q, q.(cache := Some(Cache(0, "now"))), 1) == (after, Some(q'))
    ensures AfterRefresh(V2, store, call, Day(0), Some("now"), 1) == (after, Continue(V2, call, q'))
  {}

  lemma RefreshSubmits(store: Store, items: seq<Item>, call: Call) returns (after: Store)
    requires Healthy(V2, store) && Holds(store, items, Pending) && items != []
    requires call.phase.Refreshing? && call.processed == 0 && call.submitted == []
    ensures AfterRefresh(V2, store, call, Day(0), Some("now"), 1) == (after, Call(Posting(items[0]), 0, [items[0]]))
    ensures Holds(after, items, Pending)
  {
    var q := LoadState(V2, store).value;
    after := RefreshSubmitsHead(store, q, items, call);
    RecachedHolds(store, after, q, items);
  }

  lemma RefreshSubmitsHead(store: Store, q: Queue, items: seq<Item>, call: Call) returns (after: Store)
    requires Healthy(V2, store) && LoadState(V2, store) == Some(q) && q.items == items != [] && !q.status.Terminal()
    requires q.cache.Some? ==> q.cache.value.projectionRevision == 0
    requires call.phase.Refreshing? && call.processed == 0 && call.submitted == []
    ensures AfterRefresh(V2, store, call, Day(0), Some("now"), 1) == (after, Call(Posting(items[0]), 0, [items[0]]))
    ensures LoadState(V2, after) == Some(q.(cache := Some(Cache(0, "now"))))
  {
    after := RefreshedStore(store, q);
    RefreshTakes(store, q, q.(cache := Some(Cache(0, "now"))), call, after, items);
  }

  lemma RecachedHolds(store: Store, after: Store, q: Queue, items: seq<Item>)
    requires Holds(store, items, Pending) && LoadState(V2, store) == Some(q)
    requires LoadState(V2, after) == Some(q.(cache := Some(Cache(0, "now"))))
    ensures Holds(after, items, Pending)
  {}

  lemma RefreshedCache(q: Queue)
    requires q.cache.Some? ==> q.cache.value.projectionRevision == 0
    ensures Refreshed(q, Cache(0, "now")) == q.(cache := Some(Cache(0, "now")))
  {}

  lemma RefreshTakes(store: Store, q: Queue, q': Queue, call: Call, after: Store, items: seq<Item>)
    requires LoadState(V2, store) == Some(q) && call.phase.Refreshing? && !q'.status.Terminal()
    requires TryCommit(V2, store, q, q.(cache := Some(Cache(0, "now"))), 1) == (after, Some(q'))
    requires q'.items == items != [] && call.processed == 0 && call.submitted == []
    ensures AfterRefresh(V2, store, call, Day(0), Some("now"), 1) == (after, Call(Posting(items[0]), 0, [items[0]]))
  {
    RefreshGoesOn(store, q, q', call, after);
    FirstOfCall(call, q', items);
  }

  lemma RefreshedStore(store: Store, q: Queue) returns (after: Store)
    requires Healthy(V2, store) && LoadState(V2, store) == Some(q)
    requires q.cache.Some? ==> q.cache.value.projectionRevision == 0
    ensures TryCommit(V2, store, q, q.(cache := Some(Cache(0, "now"))), 1)
            == (after, Some(q.(cache := Some(Cache(0, "now")))))
    ensures LoadState(V2, after) == Some(q.(cache := Some(Cache(0, "now"))))
  {
    RefreshedCache(q);
    RefreshEffect(V2, store, q, Cache(0, "now"), 1);
    after := TryCommit(V2, store, q, q.(cache := Some(Cache(0, "now"))), 1).0;
  }

  lemma FirstOfCall(call: Call, q: Queue, items: seq<Item>)
    requires q.items == items != [] && call.processed == 0 && call.submitted == []
    ensures Continue(V2, call, q) == Call(Posting(items[0]), 0, [items[0]])
  {
    assert [] + [items[0]] == [items[0]];
  }

  lemma ConfirmedDecision(q: Queue, x: Item, call: Call, receipt: Receipt)
    requires q.items != [] && q.items[0] == x && !q.status.Terminal() && Acknowledges(V2, receipt, x)
    ensures Decide(V2, q, call, x, Answer(201, AppliedBody(receipt, false)))
            == TakeHead(call.(processed := call.processed + 1))
  {
    assert x in q.items;
  }

  lemma TakenGoesOn(store: Store, q: Queue, q': Queue, call: Call, head: Item, response: Response, after: Store)
    requires LoadState(V2, store) == Some(q) && q.items != []
    requires Decide(V2, q, call, head, response) == TakeHead(call.(processed := call.processed + 1))
    requires TryCommit(V2, store, q, Dequeued(q), 3) == (after, Some(q'))
    ensures AfterResponse(V2, store, call, head, response, 3)
            == (after, Continue(V2, call.(processed := call.processed + 1), q'))
  {}

  lemma GoesOnWithSecond(q: Queue, x: Item, y: Item)
    requires q.items == [x, y]
    ensures Dequeued(q) == q.(items := [y], status := Pending)
    ensures Continue(V2, Call(Posting(x), 1, [x]), Dequeued(q)) == Call(Posting(y), 1, [x, y])
  {
    assert [x, y][1..] == [y] && [x] + [y] == [x, y];
  }

  lemma SecondFollows(q: Queue, x: Item, y: Item, call: Call)
    requires q.items == [x, y] && call == Call(Posting(x), 0, [x])
    ensures Continue(V2, call.(processed := call.processed + 1), Dequeued(q)) == Call(Posting(y), 1, [x, y])
  {
    GoesOnWithSecond(q, x, y);
    assert call.(processed := call.processed + 1) == Call(Posting(x), 1, [x]);
  }

  lemma SecondHeld(after: Store, q: Queue, x: Item, y: Item)
    requires q.items == [x, y] && q.next == 2 && (q.cache.Some? ==> q.cache.value.projectionRevision == 0)
    requires LoadState(V2, after) == Some(Dequeued(q))
    ensures Holds(after, [y], Pending)
  {
    GoesOnWithSecond(q, x, y);
  }

  lemma AnswerRemoves(store: Store, x: Item, y: Item, call: Call, receipt: Receipt) returns (after: Store)
    requires Healthy(V2, store) && Holds(store, [x, y], Pending) && Acknowledges(V2, receipt, x)
    requires call == Call(Posting(x), 0, [x])
    ensures AfterResponse(V2, store, call, x, Answer(201, AppliedBody(receipt, false)), 3)
            == (after, Call(Posting(y), 1, [x, y]))
    ensures Holds(after, [y], Pending)
  {
    var q := LoadState(V2, store).value;
    ConfirmedDecision(q, x, call, receipt);
    after := TakenStore(store, q);
    TakenGoesOn(store, q, Dequeued(q), call, x, Answer(201, AppliedBody(receipt, false)), after);
    SecondFollows(q, x, y, call);
    SecondHeld(after, q, x, y);
  }

  lemma TakenStore(store: Store, q: Queue) returns (after: Store)
    requires Healthy(V2, store) && LoadState(V2, store) == Some(q) && q.items != []
    ensures TryCommit(V2, store, q, Dequeued(q), 3) == (after, Some(Dequeued(q)))
    ensures LoadState(V2, after) == Some(Dequeued(q))
  {
    DequeueEffect(V2, store, q, 3);
    after := TryCommit(V2, store, q, Dequeued(q), 3).0;
  }

  lemma RefusalBlocks(store: Store, y: Item, call: Call)
    requires Healthy(V2, store) && Holds(store, [y], Pending)
    ensures var (after, call') := AfterResponse(V2, store, call, y, Answer(409, Refusal(RevisionConflict)), 2);
            Holds(after, [y], Conflict) && call' == call.(phase := Finished)
  {
    var q := LoadState(V2, store).value;
    RefusedDecision(q, y, call);
    MarkStops(store, q, call, y, Answer(409, Refusal(RevisionConflict)));
    MarkLoads(V2, store, q, Conflict, 2);
  }

  lemma RefusedDecision(q: Queue, y: Item, call: Call)
    requires q.items == [y]
    ensures Decide(V2, q, call, y, Answer(409, Refusal(RevisionConflict))) == Mark(Conflict)
  {
    assert y in q.items;
  }

  lemma MarkStops(store: Store, q: Queue, call: Call, head: Item, response: Response)
    requires LoadState(V2, store) == Some(q) && Decide(V2, q, call, head, response) == Mark(Conflict)
    ensures AfterResponse(V2, store, call, head, response, 2)
            == (TryCommit(V2, store, q, q.(status := Conflict), 2).0, call.(phase := Finished))
  {}

  lemma LateAnswerGoesOn(store: Store, x: Item, y: Item, call: Call, receipt: Receipt)
    requires Holds(store, [y], Conflict) && Acknowledges(V2, receipt, x) && x.eventId != y.eventId
    ensures AfterResponse(V2, store, call, x, Answer(200, AppliedBody(receipt, true)), 0).1.phase == Posting(y)
  {
    var q, response := LoadState(V2, store).value, Answer(200, AppliedBody(receipt, true));
    LateDecision(q, x, y, call, receipt);
    LeaveGoesOn(store, q, call, x, response);
  }

  lemma LateDecision(q: Queue, x: Item, y: Item, call: Call, receipt: Receipt)
    requires q.items == [y] && Acknowledges(V2, receipt, x) && x.eventId != y.eventId
    ensures var d := Decide(V2, q, call, x, Answer(200, AppliedBody(receipt, true)));
            d.Leave? && d.call.phase == Posting(y)
  {
    assert x.eventId !in Ids([y]);
  }

  lemma LeaveGoesOn(store: Store, q: Queue, call: Call, head: Item, response: Response)
    requires LoadState(V2, store) == Some(q) && Decide(V2, q, call, head, response).Leave?
    ensures AfterResponse(V2, store, call, head, response, 0) == (store, Decide(V2, q, call, head, response).call)
  {}

  /** One answered request in the world around it. */
  lemma Answered(w: World, c: nat, response: Response, budget: nat) returns (w': World)
    requires Reachable(V2, w) && c in w.calls && w.calls[c].phase.Posting?
    requires Honest(V2, w.server, w.calls[c].phase.head, response)
    ensures w' == Next(V2, w, Respond(c, response, budget)) && Reachable(V2, w') && w'.server == w.server
    ensures var (after, call') := AfterResponse(V2, w.store, w.calls[c], w.calls[c].phase.head, response, budget);
            w'.store == after && w'.calls == w.calls[c := call']
  {
    ReachableStep(V2, w, Respond(c, response, budget));
    w' := Next(V2, w, Respond(c, response, budget));
  }

  lemma RefreshedWorld(w: World, c: nat, after: Store, call': Call) returns (w': World)
    requires Reachable(V2, w) && c in w.calls && w.calls[c].phase.Refreshing?
    requires AfterRefresh(V2, w.store, w.calls[c], Day(0), Some("now"), 1) == (after, call')
    ensures Reachable(V2, w') && w'.server == w.server && w'.store == after
    ensures w'.calls == w.calls[c := call'] && w'.sent == w.sent + Posted(call')
  {
    ReachableStep(V2, w, Refresh(c, Day(0), Some("now"), 1));
    w' := Next(V2, w, Refresh(c, Day(0), Some("now"), 1));
  }

  lemma FirstSubmission(w: World, items: seq<Item>, c: nat) returns (after: Store)
    requires Reachable(V2, w) && Holds(w.store, items, Pending) && items != [] && c in w.calls
    requires w.calls[c].phase.Refreshing? && w.calls[c].processed == 0 && w.calls[c].submitted == []
    ensures AfterRefresh(V2, w.store, w.calls[c], Day(0), Some("now"), 1)
            == (after, Call(Posting(items[0]), 0, [items[0]]))
    ensures Holds(after, items, Pending)
  {
    Reached(w);
    after := RefreshSubmits(w.store, items, w.calls[c]);
  }

  lemma BegunCall(w: World, c: nat) returns (w': World, call: Call)
    requires Reachable(V2, w) && LoadState(V2, w.store).Some? && c !in w.calls
    ensures Reachable(V2, w') && w'.server == w.server && w'.store == w.store && w'.sent == w.sent
    ensures w'.calls == w.calls[c := call]
    ensures call.phase.Refreshing? && call.processed == 0 && call.submitted == []
  {
    ReachableStep(V2, w, Begin(c));
    w', call := Next(V2, w, Begin(c)), BeginReplay(V2, w.store);
  }

  lemma Overwritten<K, V>(m: map<K, V>, k: K, v: V, v': V)
    ensures m[k := v][k := v'] == m[k := v']
  {}

  /** A new call refreshes and submits the head. */
  lemma StartCall(w: World, items: seq<Item>, c: nat) returns (w': World)
    requires Reachable(V2, w) && Holds(w.store, items, Pending) && items != [] && c !in w.calls
    ensures Reachable(V2, w') && Holds(w'.store, items, Pending)
    ensures w'.calls == w.calls[c := Call(Posting(items[0]), 0, [items[0]])]
    ensures w'.server == w.server && items[0] in w'.sent && w.sent <= w'.sent
  {
    var w1, call := BegunCall(w, c);
    var after := FirstSubmission(w1, items, c);
    var call' := Call(Posting(items[0]), 0, [items[0]]);
    w' := RefreshedWorld(w1, c, after, call');
    Overwritten(w.calls, c, call, call');
  }

  /** The server, knowing nothing yet, applies x. */
  lemma Applied(w: World, x: Item) returns (w': World, receipt: Receipt)
    requires Reachable(V2, w) && w.server == START.server && x in w.sent && x.eventType == Start
             && x.expectedRunRevision == 0
    ensures Reachable(V2, w') && w'.store == w.store && w'.calls == w.calls
    ensures x.eventId in w'.server.receipts && w'.server.receipts[x.eventId] == receipt && Acknowledges(V2, receipt, x)
  {
    FirstApplied(x);
    ReachableStep(V2, w, Process(x, ReceiptFor(V2, x)));
    w' := Next(V2, w, Process(x, ReceiptFor(V2, x)));
    receipt := w'.server.receipts[x.eventId];
  }

  lemma FirstApplied(x: Item)
    requires x.eventType == Start && x.expectedRunRevision == 0
    ensures var server := START.server.Process(x, ReceiptFor(V2, x));
            x.eventId in server.receipts && Acknowledges(V2, server.receipts[x.eventId], x)
  {
    assert Accepts(CANDIDATE, x);
  }

  /** Both tabs have posted x, and the server has applied it. */
  lemma BothPosted(w0: World, items: seq<Item>, x: Item) returns (w: World, receipt: Receipt)
    requires Reachable(V2, w0) && Holds(w0.store, items, Pending) && w0.server == START.server
    requires 0 !in w0.calls && 1 !in w0.calls
    requires items != [] && items[0] == x && x.eventType == Start && x.expectedRunRevision == 0
    ensures Reachable(V2, w) && Holds(w.store, items, Pending)
    ensures 0 in w.calls && 1 in w.calls && w.calls[0] == w.calls[1] == Call(Posting(x), 0, [x])
    ensures x.eventId in w.server.receipts && w.server.receipts[x.eventId] == receipt && Acknowledges(V2, receipt, x)
  {
    var w1 := StartCall(w0, items, 0);
    assert 1 !in w1.calls;
    var w2 := StartCall(w1, items, 1);
    assert w2.calls[0] == w1.calls[0];
    w, receipt := Applied(w2, x);
  }

  /**
    It does happen: two tabs post the same head, the first is acknowledged and removes it, the next event is
    refused and blocks the queue, and then the second tab's acknowledgement makes it post the blocked event.
  */
  lemma BlockedHeadIsSubmitted(x: Item, y: Item) returns (w: World, a: Action)
    requires TwoEvents(x, y)
    ensures Reachable(V2, w) && Blocked(V2, w.store) && Enabled(V2, w, a)
    ensures LoadState(V2, w.store).value.items == [y] && a.Respond?
    ensures w.calls[a.call].phase == Posting(x) && Next(V2, w, a).calls[a.call].phase == Posting(y)
  {
    var start := AddBoth(x, y);
    var w0, receipt := BothPosted(start, [x, y], x);
    Reached(w0);
    var after := AnswerRemoves(w0.store, x, y, w0.calls[0], receipt);
    var w1 := Answered(w0, 0, Answer(201, AppliedBody(receipt, false)), 3);
    Reached(w1);
    RefusalBlocks(w1.store, y, w1.calls[0]);
    w := Answered(w1, 0, Answer(409, Refusal(RevisionConflict)), 2);
    LateAnswerGoesOn(w.store, x, y, w.calls[1], receipt);
    a := Respond(1, Answer(200, AppliedBody(receipt, true)), 0);
    var w' := Answered(w, 1, a.response, 0);
  }
}
