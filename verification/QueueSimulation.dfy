/**
  The stored queue, seen through load, is an abstract queue that each step of a run changes in one go: a
  forward simulation, exact for every place at which the writes of a step may stop.
*/
module QueueSimulation {
  import opened Options
  import opened FieldProtocol
  import opened QueueRecords
  import opened QueueCommit
  import opened QueueOperations
  import opened QueueRefinement
  import opened Replay
  import opened QueueRuns

  /** What the tests see of a response: nothing while the lookup sends the head on to be posted. */
  function Delivered(protocol: Protocol, call: Call, response: Response): Option<Response>
    requires Waiting(call)
  {
    var head := call.phase.head;
    if call.phase.Posting? then Some(Checked(protocol, head, response))
    else match AfterLookup(protocol, head, response) case Post => None case Settled(r) => Some(r)
  }

  /** What the queue becomes when an answer reaches its head; a verdict, once there, stays. */
  function Judged(q: Queue, verdict: Verdict): Queue
    requires q.items != []
  {
    if q.status.Terminal() then q
    else match verdict
      case Undecided => q
      case Confirmed => Dequeued(q)
      case NeedsReview => q.(status := ReviewRequired)
      case Rejected => q.(status := Conflict)
  }

  /** An accepted enqueue whose commit is let through `budget` writes. */
  function AddedState(q: Queue, item: Item, budget: nat): Option<Queue> {
    if budget == 0 then Some(q) else if budget >= 2 then Some(Enqueued(q, item))
    else if q.items == [] then Some(q.(next := q.next + 1)) else None
  }

  function SteppedEnqueue(protocol: Protocol, q: Queue, item: Item, budget: nat): Option<Queue> {
    if PassesChecks(protocol, q, item) then AddedState(q, item, budget) else Some(q)
  }

  /** The abstract step; None is a queue that no longer loads. */
  ghost function Stepped(protocol: Protocol, w: World, a: Action, q: Queue): Option<Queue>
    requires Enabled(protocol, w, a)
  {
    match a
    case Enqueue(item, budget) =>
      SteppedEnqueue(protocol, q, item, budget)
    case Refresh(c, answer, syncedAt, budget) =>
      var revision := RefreshedRevision(w.calls[c].phase.known, answer);
      if syncedAt.None? || revision.None? || budget == 0 then Some(q)
      else Some(Refreshed(q, Cache(revision.value, syncedAt.value)))
    case Respond(c, response, budget) =>
      var delivered := Delivered(protocol, w.calls[c], response);
      if delivered.Some? && q.items != [] && q.items[0] == w.calls[c].phase.head && budget > 0
      then Some(Judged(q, Classify(protocol, delivered.value, w.calls[c].phase.head)))
      else Some(q)
    case _ => Some(q)
  }

  /** The tests of enqueue that a new event can fail. */
  predicate PassesChecks(protocol: Protocol, q: Queue, item: Item) {
    !q.status.Terminal() && ValidItem(protocol, item) && item.localSequence == q.next != MAX_SAFE_INTEGER
  }

  lemma NewEventNotQueued(protocol: Protocol, store: Store, q: Queue, item: Item)
    requires Healthy(protocol, store) && LoadState(protocol, store) == Some(q) && !KnownId(store, item.eventId)
    ensures item.eventId !in Ids(q.items) && q.next <= MAX_SAFE_INTEGER
  {
    LoadedIsAssembled(protocol, store);
    UnknownIdNotQueued(protocol, store, item.eventId);
  }

  lemma EnqueueCommits(protocol: Protocol, store: Store, q: Queue, item: Item, budget: nat)
    requires LoadState(protocol, store) == Some(q) && item.eventId !in Ids(q.items)
    ensures EnqueueOp(protocol, store, item, budget).0
            == if PassesChecks(protocol, q, item) then TryCommit(protocol, store, q, Enqueued(q, item), budget).0
               else store
  {}

  lemma AddLoads(protocol: Protocol, store: Store, q: Queue, item: Item, budget: nat, after: Store)
    requires MayEnqueue(protocol, store, q, item)
    requires after == TryCommit(protocol, store, q, Enqueued(q, item), budget).0
    ensures LoadState(protocol, after) == AddedState(q, item, budget)
  {
    EnqueueEffect(protocol, store, q, item, budget);
    LoadsPerBudget(protocol, store, q, item, budget, after);
  }

  lemma LoadsPerBudget(protocol: Protocol, store: Store, q: Queue, item: Item, budget: nat, after: Store)
    requires LoadState(protocol, store) == Some(q) && (budget == 0 ==> after == store)
    requires budget == 1 ==> LoadState(protocol, after) == if q.items == [] then Some(q.(next := q.next + 1)) else None
    requires budget >= 2 ==> LoadState(protocol, after) == Some(Enqueued(q, item))
    ensures LoadState(protocol, after) == AddedState(q, item, budget)
  {}

  lemma AddedOrNot(protocol: Protocol, store: Store, q: Queue, item: Item, budget: nat, after: Store)
    requires Healthy(protocol, store) && LoadState(protocol, store) == Some(q) && !KnownId(store, item.eventId)
    requires after
             == if PassesChecks(protocol, q, item) then TryCommit(protocol, store, q, Enqueued(q, item), budget).0
                else store
    requires q.next <= MAX_SAFE_INTEGER
    ensures LoadState(protocol, after) == SteppedEnqueue(protocol, q, item, budget)
  {
    if !PassesChecks(protocol, q, item) {
      assert after == store;
    } else {
      AddLoads(protocol, store, q, item, budget, after);
      assert LoadState(protocol, after) == AddedState(q, item, budget);
    }
  }

  lemma EnqueueLoads(protocol: Protocol, store: Store, q: Queue, item: Item, budget: nat)
    requires Healthy(protocol, store) && LoadState(protocol, store) == Some(q) && !KnownId(store, item.eventId)
    ensures LoadState(protocol, EnqueueOp(protocol, store, item, budget).0) == SteppedEnqueue(protocol, q, item, budget)
  {
    NewEventNotQueued(protocol, store, q, item);
    EnqueueCommits(protocol, store, q, item, budget);
    AddedOrNot(protocol, store, q, item, budget, EnqueueOp(protocol, store, item, budget).0);
  }

  /**
    What a caller may read from the answer of enqueue: every refusal leaves the store alone, and Accepted means
    stored. A reported write failure leaves it open: the item is stored all the same exactly when only the
    last write, the meta record, was refused.
  */
  lemma EnqueueReport(protocol: Protocol, store: Store, q: Queue, item: Item, budget: nat)
    requires Healthy(protocol, store) && LoadState(protocol, store) == Some(q) && !KnownId(store, item.eventId)
    ensures var (after, r) := EnqueueOp(protocol, store, item, budget);
            && (r == Accepted <==> PassesChecks(protocol, q, item) && budget >= 3)
            && (r == WriteFailed <==> PassesChecks(protocol, q, item) && budget < 3)
            && (r != Accepted && r != WriteFailed ==> after == store)
            && (LoadState(protocol, after) == Some(Enqueued(q, item))
                <==> r == Accepted || (r == WriteFailed && budget == 2))
  {
    NewEventNotQueued(protocol, store, q, item);
    EnqueueLoads(protocol, store, q, item, budget);
    EnqueueAnswer(protocol, store, q, item, budget);
    EnqueuedDiffers(q, item);
  }

  lemma EnqueueAnswer(protocol: Protocol, store: Store, q: Queue, item: Item, budget: nat)
    requires Healthy(protocol, store) && LoadState(protocol, store) == Some(q) && !KnownId(store, item.eventId)
    requires item.eventId !in Ids(q.items) && q.next <= MAX_SAFE_INTEGER
    ensures var (after, r) := EnqueueOp(protocol, store, item, budget);
            && (r == Accepted <==> PassesChecks(protocol, q, item) && budget >= 3)
            && (r == WriteFailed <==> PassesChecks(protocol, q, item) && budget < 3)
            && (r != Accepted && r != WriteFailed ==> after == store)
  {
    if PassesChecks(protocol, q, item) { EnqueueEffect(protocol, store, q, item, budget); }
  }

  lemma EnqueuedDiffers(q: Queue, item: Item)
    ensures Enqueued(q, item) != q && Enqueued(q, item) != q.(next := q.next + 1)
  {
    assert |Enqueued(q, item).items| == |q.items| + 1;
  }

  lemma RefreshLoads(protocol: Protocol, store: Store, q: Queue, call: Call, answer: RefreshAnswer,
                     syncedAt: Option<string>, budget: nat)
    requires Healthy(protocol, store) && LoadState(protocol, store) == Some(q) && call.phase.Refreshing?
    ensures var revision := RefreshedRevision(call.phase.known, answer);
            LoadState(protocol, AfterRefresh(protocol, store, call, answer, syncedAt, budget).0)
            == if syncedAt.None? || revision.None? || budget == 0 then Some(q)
               else Some(Refreshed(q, Cache(revision.value, syncedAt.value)))
  {
    var revision := RefreshedRevision(call.phase.known, answer);
    var after := AfterRefresh(protocol, store, call, answer, syncedAt, budget).0;
    RefreshStore(protocol, store, q, call, answer, syncedAt, budget);
    if syncedAt.Some? && revision.Some? {
      RecacheLoads(protocol, store, q, Cache(revision.value, syncedAt.value), budget, after);
    }
  }

  lemma RefreshStore(protocol: Protocol, store: Store, q: Queue, call: Call, answer: RefreshAnswer,
                     syncedAt: Option<string>, budget: nat)
    requires LoadState(protocol, store) == Some(q) && call.phase.Refreshing?
    ensures var revision := RefreshedRevision(call.phase.known, answer);
            AfterRefresh(protocol, store, call, answer, syncedAt, budget).0
            == if syncedAt.None? || revision.None? then store
               else TryCommit(protocol, store, q, q.(cache := Some(Cache(revision.value, syncedAt.value))), budget).0
  {}

  lemma RecacheLoads(protocol: Protocol, store: Store, q: Queue, cache: Cache, budget: nat, after: Store)
    requires Healthy(protocol, store) && LoadState(protocol, store) == Some(q)
    requires cache.projectionRevision <= MAX_SAFE_INTEGER
    requires after == TryCommit(protocol, store, q, q.(cache := Some(cache)), budget).0
    ensures LoadState(protocol, after) == Some(if budget == 0 then q else Refreshed(q, cache))
  {
    RefreshEffect(protocol, store, q, cache, budget);
  }

  lemma MarkLoads(protocol: Protocol, store: Store, q: Queue, verdict: SyncStatus, budget: nat)
    requires Healthy(protocol, store) && LoadState(protocol, store) == Some(q) && q.items != [] && verdict.Terminal()
    ensures LoadState(protocol, TryCommit(protocol, store, q, q.(status := verdict), budget).0)
            == Some(if budget == 0 || q.status.Terminal() then q else q.(status := verdict))
  {
    VerdictEffect(protocol, store, q, verdict, budget);
  }

  lemma TakeLoads(protocol: Protocol, store: Store, q: Queue, budget: nat)
    requires Healthy(protocol, store) && LoadState(protocol, store) == Some(q) && q.items != []
    ensures LoadState(protocol, TryCommit(protocol, store, q, Dequeued(q), budget).0)
            == Some(if budget == 0 then q else Dequeued(q))
  {
    DequeueEffect(protocol, store, q, budget);
  }

  lemma JudgedDecision(protocol: Protocol, q: Queue, call: Call, head: Item, response: Response)
    ensures match Decide(protocol, q, call, head, response)
            case Leave(_) =>
              !(q.items != [] && q.items[0] == head) || Judged(q, Classify(protocol, response, head)) == q
            case TakeHead(_) =>
              q.items != [] && q.items[0] == head && Judged(q, Classify(protocol, response, head)) == Dequeued(q)
            case Mark(verdict) =>
              && q.items != [] && q.items[0] == head && verdict.Terminal()
              && Judged(q, Classify(protocol, response, head))
                 == if q.status.Terminal() then q else q.(status := verdict)
  {
    if q.items != [] && q.items[0] == head { assert head.eventId in Ids(q.items); }
    if head.eventId in Ids(q.items) { assert q.items != []; }
  }

  lemma ResponseLoads(protocol: Protocol, store: Store, q: Queue, call: Call, head: Item, response: Response,
                      budget: nat)
    requires Healthy(protocol, store) && LoadState(protocol, store) == Some(q)
    ensures LoadState(protocol, AfterResponse(protocol, store, call, head, response, budget).0)
            == Some(if q.items != [] && q.items[0] == head && budget > 0
                    then Judged(q, Classify(protocol, response, head)) else q)
  {
    JudgedDecision(protocol, q, call, head, response);
    match Decide(protocol, q, call, head, response)
    case Leave(_) => {}
    case TakeHead(_) => TakeLoads(protocol, store, q, budget);
    case Mark(verdict) => MarkLoads(protocol, store, q, verdict, budget);
  }

  lemma RespondLoads(protocol: Protocol, store: Store, q: Queue, call: Call, response: Response, budget: nat)
    requires Healthy(protocol, store) && LoadState(protocol, store) == Some(q) && Waiting(call)
    ensures var delivered := Delivered(protocol, call, response);
            LoadState(protocol, RespondOp(protocol, store, call, response, budget).0)
            == Some(if delivered.Some? && q.items != [] && q.items[0] == call.phase.head && budget > 0
                    then Judged(q, Classify(protocol, delivered.value, call.phase.head)) else q)
  {
    var delivered := Delivered(protocol, call, response);
    if delivered.Some? { ResponseLoads(protocol, store, q, call, call.phase.head, delivered.value, budget); }
  }

  lemma EnqueueSimulates(protocol: Protocol, w: World, item: Item, budget: nat, q: Queue)
    requires Healthy(protocol, w.store) && Enabled(protocol, w, Enqueue(item, budget))
             && LoadState(protocol, w.store) == Some(q)
    ensures LoadState(protocol, EnqueueOp(protocol, w.store, item, budget).0)
            == Stepped(protocol, w, Enqueue(item, budget), q)
  {
    EnqueueLoads(protocol, w.store, q, item, budget);
  }

  lemma RefreshSimulates(protocol: Protocol, w: World, a: Action, q: Queue)
    requires Healthy(protocol, w.store) && a.Refresh? && Enabled(protocol, w, a)
             && LoadState(protocol, w.store) == Some(q)
    ensures LoadState(protocol, Next(protocol, w, a).store) == Stepped(protocol, w, a, q)
  {
    RefreshLoads(protocol, w.store, q, w.calls[a.call], a.answer, a.syncedAt, a.budget);
  }

  lemma RespondSimulates(protocol: Protocol, w: World, a: Action, q: Queue)
    requires Healthy(protocol, w.store) && a.Respond? && Enabled(protocol, w, a)
             && LoadState(protocol, w.store) == Some(q)
    ensures LoadState(protocol, Next(protocol, w, a).store) == Stepped(protocol, w, a, q)
  {
    RespondLoads(protocol, w.store, q, w.calls[a.call], a.response, a.budget);
  }

  /** The simulation: what loads after a step is the abstract step of what loaded before it. */
  lemma StepSimulates(protocol: Protocol, w: World, a: Action, q: Queue)
    requires Healthy(protocol, w.store) && Enabled(protocol, w, a) && LoadState(protocol, w.store) == Some(q)
    ensures LoadState(protocol, Next(protocol, w, a).store) == Stepped(protocol, w, a, q)
  {
    if a.Enqueue? { EnqueueSimulates(protocol, w, a.item, a.budget, q); }
    else if a.Refresh? { RefreshSimulates(protocol, w, a, q); }
    else if a.Respond? { RespondSimulates(protocol, w, a, q); }
  }

  lemma UnloadableStays(protocol: Protocol, w: World, a: Action)
    requires Enabled(protocol, w, a) && LoadState(protocol, w.store).None?
    ensures Next(protocol, w, a).store == w.store
  {}

  /** The abstract run; None, a queue that does not load, stays so. */
  ghost function SteppedRun(protocol: Protocol, w: World, run: seq<Action>, q: Option<Queue>): Option<Queue>
    requires ValidRun(protocol, w, run)
    decreases |run|
  {
    if run == [] then q
    else
      SteppedRun(protocol, Next(protocol, w, run[0]), run[1..],
                 if q.Some? then Stepped(protocol, w, run[0], q.value) else None)
  }

  /** What loads after any run is the abstract queue after the abstract run. */
  lemma {:induction false} RunSimulates(protocol: Protocol, w: World, run: seq<Action>)
    requires Inv(protocol, w) && ValidRun(protocol, w, run)
    ensures LoadState(protocol, RunFrom(protocol, w, run).store)
            == SteppedRun(protocol, w, run, LoadState(protocol, w.store))
    decreases |run|
  {
    if run != [] {
      var loaded := LoadState(protocol, w.store);
      StepKeepsInv(protocol, w, run[0]);
      if loaded.Some? {
        StepSimulates(protocol, w, run[0], loaded.value);
      } else {
        UnloadableStays(protocol, w, run[0]);
      }
      RunSimulates(protocol, Next(protocol, w, run[0]), run[1..]);
    }
  }

  /** The one abstract step that fails. */
  lemma SteppedFails(protocol: Protocol, w: World, a: Action, q: Queue)
    requires Enabled(protocol, w, a)
    ensures Stepped(protocol, w, a, q).None?
            <==> a.Enqueue? && PassesChecks(protocol, q, a.item) && q.items != [] && a.budget == 1
  {}

  /**
    The one way a queue becomes unloadable: an enqueue onto a queue with items whose writes stop between
    the sequence marker and the item. (It then stays unloadable and untouched.)
  */
  lemma OnlyMarkerCrashUnloads(protocol: Protocol, w: World, a: Action, q: Queue)
    requires Inv(protocol, w) && Enabled(protocol, w, a) && LoadState(protocol, w.store) == Some(q)
    ensures LoadState(protocol, Next(protocol, w, a).store).None?
            <==> a.Enqueue? && PassesChecks(protocol, q, a.item) && q.items != [] && a.budget == 1
  {
    StepSimulates(protocol, w, a, q);
    SteppedFails(protocol, w, a, q);
  }
}
