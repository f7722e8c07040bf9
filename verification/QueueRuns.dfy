/**
  Whole runs of the offline queue: any number of replay calls and enqueues from any number of tabs over
  one localStorage, storage writes that may stop anywhere, requests that the server may see late, often
  or never, and answers that may be lost or late. The server keeps the contract of
  docs/VCP_SHOOTING_OPERATIONS_EVOLUTION_PLAN_V2.1.md, section 4.6.
*/
module QueueRuns {
  import opened Options
  import opened FieldProtocol
  import opened QueueRecords
  import opened QueueCommit
  import opened QueueOperations
  import opened QueueRefinement
  import opened Replay

  /**
    `enqueued` and `removed` record what was seen to enter and leave the stored items; `sent` is every
    item ever posted, and any of it may reach the server at any later time.
  */
  datatype World = World(store: Store, enqueued: seq<Item>, removed: seq<Item>, calls: map<nat, Call>,
                         since: map<nat, nat>, server: Server, sent: set<Item>)

  const START: World := World(map[], [], [], map[], map[], Server(map[], map[], []), {})

  datatype Action =
    | Enqueue(item: Item, budget: nat)
    | Begin(call: nat)
    | Refresh(call: nat, answer: RefreshAnswer, syncedAt: Option<string>, budget: nat)
    | Respond(call: nat, response: Response, budget: nat)
    | Close(call: nat)
    | Process(item: Item, receipt: Receipt)
    | OthersChange(runs: map<string, Run>)

  /** A receipt that acknowledges the head is one the server has stored; every other answer may come at any time. */
  predicate Honest(protocol: Protocol, server: Server, head: Item, response: Response) {
    response.Answer? && response.body.AppliedBody? && Acknowledges(protocol, response.body.receipt, head) ==>
      head.eventId in server.receipts && server.receipts[head.eventId] == response.body.receipt
  }

  predicate Waiting(call: Call) { call.phase.Looking? || call.phase.Posting? }

  ghost predicate Enabled(protocol: Protocol, w: World, a: Action) {
    match a
    case Enqueue(item, _) => !KnownId(w.store, item.eventId)
    case Begin(c) => c !in w.calls
    case Refresh(c, _, _, _) => c in w.calls && w.calls[c].phase.Refreshing?
    case Respond(c, response, _) =>
      c in w.calls && Waiting(w.calls[c]) && Honest(protocol, w.server, w.calls[c].phase.head, response)
    case Close(c) => c in w.calls
    case Process(item, receipt) => item in w.sent && receipt.eventId == item.eventId
    case OthersChange(_) => true
  }

  /**
    Everybody outside the queue is free: a new event may be enqueued and a call begun or lost at any time, any
    answer may come that does not invent a receipt, the server may process any posted item again and again.
  */
  lemma AnythingMayHappen(protocol: Protocol, w: World, c: nat, item: Item, receipt: Receipt, response: Response,
                          answer: RefreshAnswer, syncedAt: Option<string>, runs: map<string, Run>, budget: nat)
    ensures !KnownId(w.store, item.eventId) ==> Enabled(protocol, w, Enqueue(item, budget))
    ensures c !in w.calls ==> Enabled(protocol, w, Begin(c))
    ensures c in w.calls && w.calls[c].phase.Refreshing? ==>
              Enabled(protocol, w, Refresh(c, answer, syncedAt, budget))
    ensures c in w.calls && (w.calls[c].phase.Looking? || w.calls[c].phase.Posting?)
            && (response.Answer? && response.body.AppliedBody? ==>
                  w.calls[c].phase.head.eventId in w.server.receipts
                  && w.server.receipts[w.calls[c].phase.head.eventId] == response.body.receipt) ==>
              Enabled(protocol, w, Respond(c, response, budget))
    ensures c in w.calls ==> Enabled(protocol, w, Close(c))
    ensures item in w.sent && receipt.eventId == item.eventId ==> Enabled(protocol, w, Process(item, receipt))
    ensures Enabled(protocol, w, OthersChange(runs))
  {}

  function Posted(call: Call): set<Item> { if call.phase.Posting? then {call.phase.head} else {} }

  ghost function RespondOp(protocol: Protocol, store: Store, call: Call, response: Response, budget: nat): (Store, Call)
    requires Waiting(call)
  {
    if call.phase.Posting? then
      AfterResponse(protocol, store, call, call.phase.head, Checked(protocol, call.phase.head, response), budget)
    else
      match AfterLookup(protocol, call.phase.head, response)
      case Post => (store, call.(phase := Posting(call.phase.head)))
      case Settled(r) => AfterResponse(protocol, store, call, call.phase.head, r, budget)
  }

  /** The head that `after` no longer stores. */
  ghost function Taken(protocol: Protocol, store: Store, after: Store): seq<Item> {
    match LoadState(protocol, store)
    case Some(q) => if q.items != [] && !Stored(after, q.items[0]) then [q.items[0]] else []
    case None => []
  }

  ghost function Next(protocol: Protocol, w: World, a: Action): World
    requires Enabled(protocol, w, a)
  {
    match a
    case Enqueue(item, budget) =>
      var after := EnqueueOp(protocol, w.store, item, budget).0;
      w.(store := after,
         enqueued := w.enqueued + (if Stored(after, item) && !Stored(w.store, item) then [item] else []))
    case Begin(c) =>
      w.(calls := w.calls[c := BeginReplay(protocol, w.store)], since := w.since[c := |w.removed|])
    case Refresh(c, answer, syncedAt, budget) =>
      var (after, call) := AfterRefresh(protocol, w.store, w.calls[c], answer, syncedAt, budget);
      w.(store := after, calls := w.calls[c := call], since := w.since[c := |w.removed|], sent := w.sent + Posted(call))
    case Respond(c, response, budget) =>
      var (after, call) := RespondOp(protocol, w.store, w.calls[c], response, budget);
      w.(store := after, calls := w.calls[c := call], sent := w.sent + Posted(call),
         removed := w.removed + Taken(protocol, w.store, after))
    case Close(c) => w.(calls := w.calls[c := w.calls[c].(phase := Finished)])
    case Process(item, receipt) => w.(server := w.server.Process(item, receipt))
    case OthersChange(runs) => w.(server := w.server.(runs := runs))
  }

  ghost predicate ValidRun(protocol: Protocol, w: World, run: seq<Action>)
    decreases |run|
  {
    run == [] || (Enabled(protocol, w, run[0]) && ValidRun(protocol, Next(protocol, w, run[0]), run[1..]))
  }

  ghost function RunFrom(protocol: Protocol, w: World, run: seq<Action>): World
    requires ValidRun(protocol, w, run)
    decreases |run|
  {
    if run == [] then w else RunFrom(protocol, Next(protocol, w, run[0]), run[1..])
  }

  // ---------------------------------------------------------------- the invariant

  /** An item that has been the head at some time. */
  predicate WasHead(w: World, item: Item) {
    item in w.enqueued[..if |w.removed| < |w.enqueued| then |w.removed| + 1 else |w.enqueued|]
  }

  ghost predicate Conserved(protocol: Protocol, w: World) {
    && Healthy(protocol, w.store)
    && w.enqueued == w.removed + ItemsOf(protocol, w.store)
    && Ascending(w.enqueued)
    && (forall i :: i in w.enqueued ==> KnownId(w.store, i.eventId) && i.localSequence < NextOf(w.store))
    && (forall i, j :: i in w.enqueued && j in w.enqueued && i.eventId == j.eventId ==> i == j)
  }

  /** The server has first-applied the removed items and at most the one after them, in enqueue order. */
  ghost predicate InOrder(w: World) {
    && w.server.log <= w.enqueued
    && |w.removed| <= |w.server.log| <= |w.removed| + 1
  }

  /** Exactly the applied events have a receipt, which carries their id. */
  ghost predicate ReceiptsMatchLog(server: Server) {
    && (forall i :: i in server.log ==> i.eventId in server.receipts)
    && (forall e :: e in server.receipts ==>
          server.receipts[e].eventId == e && exists i :: i in server.log && i.eventId == e)
  }

  /** What has left the queue is acknowledged by the receipt the server stores for it. */
  ghost predicate RemovedAcknowledged(protocol: Protocol, server: Server, removed: seq<Item>) {
    forall i :: i in removed ==>
      i.eventId in server.receipts && Acknowledges(protocol, server.receipts[i.eventId], i)
  }

  /** Every submission was a head, and of an item not yet removed at the refresh. */
  predicate SubmittedOk(w: World, n: nat, submitted: seq<Item>) {
    n <= |w.enqueued| && forall i :: i in submitted ==> i in w.enqueued[n..] && WasHead(w, i)
  }

  ghost predicate CallOk(w: World, c: nat)
    requires c in w.calls
  {
    var call := w.calls[c];
    && c in w.since && w.since[c] <= |w.removed| <= |w.enqueued|
    && Ascending(call.submitted)
    && SubmittedOk(w, w.since[c], call.submitted)
    && (Waiting(call) ==> call.submitted != [] && call.phase.head == call.submitted[|call.submitted| - 1])
    && (call.phase.Posting? ==> call.phase.head in w.sent)
    && (call.phase.Refreshing? ==> call.submitted == [])
  }

  /** The part of the invariant that only looks at the books, the server and the calls. */
  ghost predicate Outside(protocol: Protocol, w: World) {
    && InOrder(w) && ReceiptsMatchLog(w.server) && RemovedAcknowledged(protocol, w.server, w.removed)
    && (forall i :: i in w.sent ==> WasHead(w, i))
    && (forall c :: c in w.calls ==> CallOk(w, c))
  }

  ghost predicate Inv(protocol: Protocol, w: World) {
    Conserved(protocol, w) && Outside(protocol, w)
  }

  lemma StartInv(protocol: Protocol)
    ensures Inv(protocol, START)
  {
    EmptyHealthy(protocol);
    LoadedIsAssembled(protocol, map[]);
  }

  // ---------------------------------------------------------------- what one stretch does to the store

  /** Same items, same known events, same next number. */
  ghost predicate Kept(protocol: Protocol, store: Store, after: Store) {
    && Healthy(protocol, store) && Healthy(protocol, after)
    && ItemsOf(protocol, after) == ItemsOf(protocol, store) && NextOf(after) == NextOf(store)
    && (forall e :: KnownId(after, e) <==> KnownId(store, e))
  }

  /** The head has left, nothing else has changed. */
  ghost predicate Took(protocol: Protocol, store: Store, after: Store) {
    && Healthy(protocol, store) && Healthy(protocol, after)
    && ItemsOf(protocol, store) != [] && ItemsOf(protocol, after) == ItemsOf(protocol, store)[1..]
    && NextOf(after) == NextOf(store)
    && (forall e :: KnownId(after, e) <==> KnownId(store, e))
  }

  lemma BecameKept(protocol: Protocol, store: Store, after: Store, q: Queue, q': Queue)
    requires Healthy(protocol, store) && LoadState(protocol, store) == Some(q)
    requires Became(protocol, store, after, q') && q'.items == q.items && q'.next == q.next
    ensures Kept(protocol, store, after)
  {
    LoadedIsAssembled(protocol, store);
    LoadedIsAssembled(protocol, after);
  }

  lemma BecameTook(protocol: Protocol, store: Store, after: Store, q: Queue)
    requires Healthy(protocol, store) && LoadState(protocol, store) == Some(q) && q.items != []
    requires Became(protocol, store, after, Dequeued(q))
    ensures Took(protocol, store, after)
  {
    LoadedIsAssembled(protocol, store);
    LoadedIsAssembled(protocol, after);
  }

  lemma LoadedItems(protocol: Protocol, store: Store)
    requires LoadState(protocol, store).Some?
    ensures RecordsReadable(protocol, store) && LoadState(protocol, store).value.items == ItemsOf(protocol, store)
    ensures LoadState(protocol, store).value.next == NextOf(store)
  {
    LoadedIsAssembled(protocol, store);
  }

  ghost predicate SameCall(call: Call, call': Call) {
    call'.phase == Finished && call'.submitted == call.submitted
  }

  /** The call goes on with the head of the store it has left behind. */
  ghost predicate GoesOn(protocol: Protocol, call: Call, call': Call, after: Store) {
    && Healthy(protocol, after)
    && (if ItemsOf(protocol, after) == [] then SameCall(call, call')
        else
          && (call'.phase == Looking(ItemsOf(protocol, after)[0])
              || call'.phase == Posting(ItemsOf(protocol, after)[0]))
          && call'.submitted == call.submitted + [ItemsOf(protocol, after)[0]])
  }

  lemma RefreshKept(protocol: Protocol, store: Store, q: Queue, cache: Cache, budget: nat)
    requires Healthy(protocol, store) && LoadState(protocol, store) == Some(q)
             && cache.projectionRevision <= MAX_SAFE_INTEGER
    ensures var (after, saved) := TryCommit(protocol, store, q, q.(cache := Some(cache)), budget);
            Kept(protocol, store, after) && (saved.Some? ==> saved.value.items == ItemsOf(protocol, after))
  {
    RefreshEffect(protocol, store, q, cache, budget);
    var after := TryCommit(protocol, store, q, q.(cache := Some(cache)), budget).0;
    BecameKept(protocol, store, after, q, if budget == 0 then q else Refreshed(q, cache));
    LoadedItems(protocol, after);
  }

  lemma VerdictKept(protocol: Protocol, store: Store, q: Queue, verdict: SyncStatus, budget: nat)
    requires Healthy(protocol, store) && LoadState(protocol, store) == Some(q) && q.items != [] && verdict.Terminal()
    ensures Kept(protocol, store, TryCommit(protocol, store, q, q.(status := verdict), budget).0)
  {
    VerdictEffect(protocol, store, q, verdict, budget);
    var after := TryCommit(protocol, store, q, q.(status := verdict), budget).0;
    BecameKept(protocol, store, after, q, if budget == 0 || q.status.Terminal() then q else q.(status := verdict));
  }

  lemma DequeueTook(protocol: Protocol, store: Store, q: Queue, budget: nat)
    requires Healthy(protocol, store) && LoadState(protocol, store) == Some(q) && q.items != []
    ensures var (after, saved) := TryCommit(protocol, store, q, Dequeued(q), budget);
            && (if budget == 0 then after == store else Took(protocol, store, after))
            && (saved.Some? ==> budget > 0 && saved.value.items == ItemsOf(protocol, after))
  {
    DequeueEffect(protocol, store, q, budget);
    var after := TryCommit(protocol, store, q, Dequeued(q), budget).0;
    if budget > 0 {
      BecameTook(protocol, store, after, q);
      LoadedItems(protocol, after);
    }
  }

  lemma ContinueGoesOn(protocol: Protocol, call: Call, q: Queue, after: Store)
    requires Healthy(protocol, after) && q.items == ItemsOf(protocol, after)
    ensures GoesOn(protocol, call, Continue(protocol, call, q), after)
  {}

  lemma KeptItself(protocol: Protocol, store: Store)
    requires Healthy(protocol, store)
    ensures Kept(protocol, store, store)
  {}

  /** Either the refresh ended the call or it goes on with what was saved. */
  ghost predicate RefreshRule(protocol: Protocol, store: Store, call: Call, after: Store, call': Call) {
    Kept(protocol, store, after) && (SameCall(call, call') || GoesOn(protocol, call, call', after))
  }

  lemma RefreshSaved(protocol: Protocol, store: Store, call: Call, after: Store, saved: Option<Queue>)
    requires Kept(protocol, store, after) && (saved.Some? ==> saved.value.items == ItemsOf(protocol, after))
    ensures RefreshRule(protocol, store, call, after,
                        if saved.None? || saved.value.status.Terminal() then call.(phase := Finished)
                        else Continue(protocol, call, saved.value))
  {
    if saved.Some? { ContinueGoesOn(protocol, call, saved.value, after); }
  }

  lemma RefreshStretch(protocol: Protocol, store: Store, call: Call, answer: RefreshAnswer, syncedAt: Option<string>,
                       budget: nat)
    requires Healthy(protocol, store) && call.phase.Refreshing?
    ensures var (after, call') := AfterRefresh(protocol, store, call, answer, syncedAt, budget);
            RefreshRule(protocol, store, call, after, call')
  {
    var revision := RefreshedRevision(call.phase.known, answer);
    var loaded := LoadState(protocol, store);
    if syncedAt.None? || revision.None? || loaded.None? {
      KeptItself(protocol, store);
    } else {
      var q, cache := loaded.value, Cache(revision.value, syncedAt.value);
      RefreshKept(protocol, store, q, cache, budget);
      var (after, saved) := TryCommit(protocol, store, q, q.(cache := Some(cache)), budget);
      RefreshSaved(protocol, store, call, after, saved);
    }
  }

  /** The store may lose its head only to a receipt the server stands by. */
  ghost predicate ResponseRule(protocol: Protocol, store: Store, call: Call, head: Item, response: Response,
                               after: Store, call': Call) {
    && (Kept(protocol, store, after)
        || (Took(protocol, store, after) && LoadState(protocol, store).Some? && head == ItemsOf(protocol, store)[0]
            && Classify(protocol, response, head) == Confirmed))
    && (SameCall(call, call')
        || (GoesOn(protocol, call, call', after) && head !in ItemsOf(protocol, after)))
  }

  lemma Stopped(protocol: Protocol, store: Store, call: Call, head: Item, response: Response, after: Store)
    requires Kept(protocol, store, after)
    ensures ResponseRule(protocol, store, call, head, response, after, call.(phase := Finished))
  {}

  lemma Left(protocol: Protocol, store: Store, call: Call, head: Item, response: Response, q: Queue, counted: Call)
    requires Healthy(protocol, store) && q.items == ItemsOf(protocol, store) && head.eventId !in Ids(q.items)
    requires counted.submitted == call.submitted
    ensures ResponseRule(protocol, store, call, head, response, store, Continue(protocol, counted, q))
  {
    KeptItself(protocol, store);
    assert head !in q.items;
    ContinueGoesOn(protocol, counted, q, store);
  }

  lemma HeadConfirmed(protocol: Protocol, store: Store, call: Call, head: Item, response: Response,
                  after: Store, saved: Option<Queue>)
    requires Healthy(protocol, store) && ItemsOf(protocol, store) != [] && ItemsOf(protocol, store)[0] == head
    requires Classify(protocol, response, head) == Verdict.Confirmed && LoadState(protocol, store).Some?
    requires after == store || Took(protocol, store, after)
    requires saved.Some? ==> Took(protocol, store, after) && saved.value.items == ItemsOf(protocol, after)
    ensures ResponseRule(protocol, store, call, head, response, after,
                         if saved.None? then call.(phase := Finished)
                         else Continue(protocol, call.(processed := call.processed + 1), saved.value))
  {
    KeptItself(protocol, store);
    if saved.Some? {
      TailMembers(ItemsOf(protocol, store), head);
      ContinueGoesOn(protocol, call.(processed := call.processed + 1), saved.value, after);
    }
  }

  lemma ResponseStretch(protocol: Protocol, store: Store, call: Call, head: Item, response: Response, budget: nat)
    requires Healthy(protocol, store)
    ensures var (after, call') := AfterResponse(protocol, store, call, head, response, budget);
            ResponseRule(protocol, store, call, head, response, after, call')
  {
    KeptItself(protocol, store);
    Stopped(protocol, store, call, head, response, store);
    var loaded := LoadState(protocol, store);
    if loaded.Some? {
      var q := loaded.value;
      LoadedItems(protocol, store);
      DecisionRule(protocol, q, call, head, response);
      match Decide(protocol, q, call, head, response)
      case Leave(call') =>
        if call' != call.(phase := Finished) {
          Left(protocol, store, call, head, response, q, call);
          Left(protocol, store, call, head, response, q, call.(processed := call.processed + 1));
        }
      case TakeHead(counted) =>
        DequeueTook(protocol, store, q, budget);
        var (after, saved) := TryCommit(protocol, store, q, Dequeued(q), budget);
        HeadConfirmed(protocol, store, call, head, response, after, saved);
      case Mark(verdict) =>
        VerdictKept(protocol, store, q, verdict, budget);
        Stopped(protocol, store, call, head, response, TryCommit(protocol, store, q, q.(status := verdict), budget).0);
    }
  }

  /** The item has joined at the end. */
  ghost predicate Grew(protocol: Protocol, store: Store, after: Store, item: Item) {
    && Healthy(protocol, store) && Healthy(protocol, after) && ValidItem(protocol, item)
    && ItemsOf(protocol, after) == ItemsOf(protocol, store) + [item]
    && item.localSequence == NextOf(store) && NextOf(after) == NextOf(store) + 1
    && (forall e :: KnownId(after, e) <==> KnownId(store, e) || e == item.eventId)
  }

  /** Only the marker got through: the number is used up. */
  ghost predicate Burned(protocol: Protocol, store: Store, after: Store, item: Item) {
    && Healthy(protocol, store) && Healthy(protocol, after)
    && ItemsOf(protocol, after) == ItemsOf(protocol, store)
    && NextOf(after) == NextOf(store) + 1
    && (forall e :: KnownId(after, e) <==> KnownId(store, e) || e == item.eventId)
  }

  lemma GrewFrom(protocol: Protocol, store: Store, after: Store, q: Queue, item: Item)
    requires MayEnqueue(protocol, store, q, item)
    requires Healthy(protocol, after) && LoadState(protocol, after) == Some(Enqueued(q, item))
    requires forall e :: KnownId(after, e) <==> KnownId(store, e) || e == item.eventId
    ensures Grew(protocol, store, after, item)
  {
    LoadedItems(protocol, store);
    LoadedItems(protocol, after);
  }

  lemma BurnedFrom(protocol: Protocol, store: Store, after: Store, q: Queue, item: Item)
    requires MayEnqueue(protocol, store, q, item)
    requires Healthy(protocol, after) && Assembled(protocol, after) == q.(next := q.next + 1)
    requires forall e :: KnownId(after, e) <==> KnownId(store, e) || e == item.eventId
    ensures Burned(protocol, store, after, item)
  {
    LoadedItems(protocol, store);
  }

  lemma EnqueueCommitted(protocol: Protocol, store: Store, q: Queue, item: Item, budget: nat)
    requires MayEnqueue(protocol, store, q, item)
    ensures var after := TryCommit(protocol, store, q, Enqueued(q, item), budget).0;
            || (budget == 0 && after == store) || Burned(protocol, store, after, item)
            || Grew(protocol, store, after, item)
  {
    EnqueueEffect(protocol, store, q, item, budget);
    var after := TryCommit(protocol, store, q, Enqueued(q, item), budget).0;
    if budget >= 2 {
      GrewFrom(protocol, store, after, q, item);
    } else if budget == 1 {
      BurnedFrom(protocol, store, after, q, item);
    }
  }

  lemma EnqueueStretch(protocol: Protocol, store: Store, item: Item, budget: nat)
    requires Healthy(protocol, store) && !KnownId(store, item.eventId)
    ensures var after := EnqueueOp(protocol, store, item, budget).0;
            Kept(protocol, store, after) || Burned(protocol, store, after, item) || Grew(protocol, store, after, item)
  {
    KeptItself(protocol, store);
    var loaded := LoadState(protocol, store);
    if loaded.Some? {
      var q := loaded.value;
      LoadedIsAssembled(protocol, store);
      if !q.status.Terminal() && ValidItem(protocol, item) && item.localSequence == q.next
         && item.eventId !in Ids(q.items) && q.next != MAX_SAFE_INTEGER {
        EnqueueCommitted(protocol, store, q, item, budget);
      }
    }
  }

  // ---------------------------------------------------------------- each action keeps the invariant

  lemma UnknownNotStored(protocol: Protocol, store: Store, item: Item)
    requires Healthy(protocol, store) && !KnownId(store, item.eventId)
    ensures !Stored(store, item)
  {
    KeyIsMarked(protocol, store, item.localSequence, item.eventId);
  }

  lemma StoredIsListed(protocol: Protocol, store: Store, item: Item)
    requires ItemsReadable(protocol, store)
    ensures Stored(store, item) <==> item in ItemsOf(protocol, store)
  {}

  lemma ConservedWhenKept(protocol: Protocol, w: World, w': World)
    requires Conserved(protocol, w) && Kept(protocol, w.store, w'.store)
    requires w'.enqueued == w.enqueued && w'.removed == w.removed
    ensures Conserved(protocol, w')
  {}

  lemma ConservedWhenTaken(protocol: Protocol, w: World, w': World)
    requires Conserved(protocol, w) && Took(protocol, w.store, w'.store)
    requires w'.enqueued == w.enqueued && w'.removed == w.removed + [ItemsOf(protocol, w.store)[0]]
    ensures Conserved(protocol, w')
  {
    MoveHeadOver(w.removed, ItemsOf(protocol, w.store));
  }

  lemma MoveHeadOver(a: seq<Item>, items: seq<Item>)
    requires items != []
    ensures (a + [items[0]]) + items[1..] == a + items
  {}

  lemma ConservedWhenBurned(protocol: Protocol, w: World, w': World, item: Item)
    requires Conserved(protocol, w) && Burned(protocol, w.store, w'.store, item)
    requires w'.enqueued == w.enqueued && w'.removed == w.removed
    ensures Conserved(protocol, w')
  {}

  lemma ConservedWhenGrown(protocol: Protocol, w: World, w': World, item: Item)
    requires Conserved(protocol, w) && Grew(protocol, w.store, w'.store, item) && !KnownId(w.store, item.eventId)
    requires w'.enqueued == w.enqueued + [item] && w'.removed == w.removed
    ensures Conserved(protocol, w')
  {
    AppendAscending(w.enqueued, item);
    AppendedParts(w.removed, ItemsOf(protocol, w.store), item);
    AppendedMembers(w.enqueued, item);
    forall i | i in w'.enqueued ensures KnownId(w'.store, i.eventId) && i.localSequence < NextOf(w'.store) {
      if i != item { assert i in w.enqueued; }
    }
    forall i, j | i in w'.enqueued && j in w'.enqueued && i.eventId == j.eventId ensures i == j {
      if i in w.enqueued { assert KnownId(w.store, i.eventId); }
      if j in w.enqueued { assert KnownId(w.store, j.eventId); }
    }
  }

  lemma AppendedParts(a: seq<Item>, b: seq<Item>, item: Item)
    ensures a + b + [item] == a + (b + [item])
  {}

  lemma AppendedMembers(items: seq<Item>, item: Item)
    ensures forall i :: i in items + [item] <==> i in items || i == item
  {}

  /** Everything but the store and the books is as before, and the books have only grown. */
  ghost predicate BooksGrow(w: World, w': World) {
    && w.enqueued <= w'.enqueued && w.removed <= w'.removed && |w'.removed| <= |w'.enqueued|
  }

  lemma WasHeadStays(w: World, w': World, i: Item)
    requires BooksGrow(w, w') && WasHead(w, i)
    ensures WasHead(w', i)
  {
    var n := if |w.removed| < |w.enqueued| then |w.removed| + 1 else |w.enqueued|;
    var n' := if |w'.removed| < |w'.enqueued| then |w'.removed| + 1 else |w'.enqueued|;
    var k :| 0 <= k < n && w.enqueued[k] == i;
    assert w'.enqueued[..n'][k] == i;
  }

  lemma CallStays(w: World, w': World, c: nat)
    requires BooksGrow(w, w') && c in w.calls && CallOk(w, c)
    requires c in w'.calls && w'.calls[c] == w.calls[c] && c in w'.since && w'.since[c] == w.since[c]
    requires w.sent <= w'.sent
    ensures CallOk(w', c)
  {
    SubmittedStays(w, w', w.since[c], w.calls[c].submitted);
  }

  lemma SubmittedStays(w: World, w': World, n: nat, submitted: seq<Item>)
    requires BooksGrow(w, w') && SubmittedOk(w, n, submitted)
    ensures SubmittedOk(w', n, submitted)
  {
    forall i | i in submitted ensures i in w'.enqueued[n..] && WasHead(w', i) {
      WasHeadStays(w, w', i);
      LaterStillThere(w.enqueued, w'.enqueued, n, i);
    }
  }

  lemma LaterStillThere(a: seq<Item>, b: seq<Item>, n: nat, i: Item)
    requires a <= b && n <= |a| && i in a[n..]
    ensures i in b[n..]
  {
    var k :| 0 <= k < |a[n..]| && a[n..][k] == i;
    assert b[n..][k] == i;
  }

  lemma OutsideStays(protocol: Protocol, w: World, w': World)
    requires Outside(protocol, w) && BooksGrow(w, w')
    requires w'.server == w.server && w'.sent == w.sent && w'.calls == w.calls && w'.since == w.since
    requires w'.removed == w.removed
    ensures Outside(protocol, w')
  {
    forall i | i in w'.sent ensures WasHead(w', i) { WasHeadStays(w, w', i); }
    forall c | c in w'.calls ensures CallOk(w', c) { CallStays(w, w', c); }
  }

  lemma EnqueueKeepsInv(protocol: Protocol, w: World, item: Item, budget: nat)
    requires Inv(protocol, w) && Enabled(protocol, w, Enqueue(item, budget))
    ensures Inv(protocol, Next(protocol, w, Enqueue(item, budget)))
  {
    var w' := Next(protocol, w, Enqueue(item, budget));
    EnqueueStretch(protocol, w.store, item, budget);
    UnknownNotStored(protocol, w.store, item);
    StoredIsListed(protocol, w.store, item);
    StoredIsListed(protocol, w'.store, item);
    if Grew(protocol, w.store, w'.store, item) {
      assert item in ItemsOf(protocol, w.store) + [item];
      ConservedWhenGrown(protocol, w, w', item);
    } else if Burned(protocol, w.store, w'.store, item) {
      ConservedWhenBurned(protocol, w, w', item);
    } else {
      ConservedWhenKept(protocol, w, w');
    }
    OutsideStays(protocol, w, w');
  }

  /** Only call c is new or changed. */
  ghost predicate OtherCallsSame(w: World, w': World, c: nat) {
    forall d :: d in w'.calls && d != c ==>
      d in w.calls && w'.calls[d] == w.calls[d] && d in w'.since && d in w.since && w'.since[d] == w.since[d]
  }

  lemma OutsideWithCall(protocol: Protocol, w: World, w': World, c: nat)
    requires Outside(protocol, w) && BooksGrow(w, w') && OtherCallsSame(w, w', c)
    requires w'.server == w.server && |w'.removed| <= |w.server.log| && w'.enqueued == w.enqueued
    requires RemovedAcknowledged(protocol, w'.server, w'.removed)
    requires w.sent <= w'.sent && forall i :: i in w'.sent && i !in w.sent ==> WasHead(w', i)
    requires c in w'.calls ==> CallOk(w', c)
    ensures Outside(protocol, w')
  {
    forall d | d in w'.calls ensures CallOk(w', d) {
      if d != c { CallStays(w, w', d); }
    }
    forall i | i in w'.sent ensures WasHead(w', i) {
      if i in w.sent { WasHeadStays(w, w', i); }
    }
  }

  lemma BeginKeepsInv(protocol: Protocol, w: World, c: nat)
    requires Inv(protocol, w) && Enabled(protocol, w, Begin(c))
    ensures Inv(protocol, Next(protocol, w, Begin(c)))
  {
    var w' := Next(protocol, w, Begin(c));
    KeptItself(protocol, w.store);
    ConservedWhenKept(protocol, w, w');
    assert |w.removed| <= |w.enqueued|;
    BegunOk(protocol, w, w', c);
    OutsideWithCall(protocol, w, w', c);
  }

  lemma BegunOk(protocol: Protocol, w: World, w': World, c: nat)
    requires w'.enqueued == w.enqueued && w'.removed == w.removed && |w.removed| <= |w.enqueued|
    requires w'.calls == w.calls[c := BeginReplay(protocol, w.store)] && w'.since == w.since[c := |w.removed|]
    ensures CallOk(w', c)
  {
    assert w'.calls[c].submitted == [] && !Waiting(w'.calls[c]);
  }

  lemma CloseKeepsInv(protocol: Protocol, w: World, c: nat)
    requires Inv(protocol, w) && Enabled(protocol, w, Close(c))
    ensures Inv(protocol, Next(protocol, w, Close(c)))
  {
    var w' := Next(protocol, w, Close(c));
    KeptItself(protocol, w.store);
    ConservedWhenKept(protocol, w, w');
    FinishedOk(w, w', c);
    OutsideWithCall(protocol, w, w', c);
  }

  lemma FinishedOk(w: World, w': World, c: nat)
    requires BooksGrow(w, w') && c in w.calls && CallOk(w, c)
    requires c in w'.calls && c in w'.since && w'.since[c] == w.since[c] && SameCall(w.calls[c], w'.calls[c])
    ensures CallOk(w', c)
  {
    SubmittedStays(w, w', w.since[c], w.calls[c].submitted);
  }

  /** Where the stored head stands in the books. */
  lemma HeadPosition(protocol: Protocol, w: World)
    requires Conserved(protocol, w) && ItemsOf(protocol, w.store) != []
    ensures |w.removed| < |w.enqueued| && w.enqueued[|w.removed|] == ItemsOf(protocol, w.store)[0]
    ensures WasHead(w, ItemsOf(protocol, w.store)[0])
  {
    var head := ItemsOf(protocol, w.store)[0];
    assert w.enqueued[|w.removed|] == head;
    assert w.enqueued[..|w.removed| + 1][|w.removed|] == head;
  }

  lemma MemberOfParts(a: seq<Item>, b: seq<Item>, all: seq<Item>, k: nat)
    requires all == a + b && k < |all|
    ensures k < |a| || all[k] in b
  {
    if k >= |a| { assert all[k] == b[k - |a|]; }
  }

  /** An earlier item that is no longer stored has a lower number than the stored head. */
  lemma GoneIsEarlier(protocol: Protocol, w: World, item: Item)
    requires Conserved(protocol, w) && ItemsOf(protocol, w.store) != []
    requires item in w.enqueued && item !in ItemsOf(protocol, w.store)
    ensures item.localSequence < ItemsOf(protocol, w.store)[0].localSequence
  {
    HeadPosition(protocol, w);
    var k :| 0 <= k < |w.enqueued| && w.enqueued[k] == item;
    MemberOfParts(w.removed, ItemsOf(protocol, w.store), w.enqueued, k);
  }

  lemma AppendedSubmission(w: World, submitted: seq<Item>, head: Item, n: nat)
    requires Ascending(submitted) && n <= |w.enqueued|
    requires SubmittedOk(w, n, submitted)
    requires submitted != [] ==> submitted[|submitted| - 1].localSequence < head.localSequence
    requires head in w.enqueued[n..] && WasHead(w, head)
    ensures Ascending(submitted + [head])
    ensures SubmittedOk(w, n, submitted + [head])
  {
    forall i | i in submitted ensures i.localSequence < head.localSequence {
      var k :| 0 <= k < |submitted| && submitted[k] == i;
    }
    AppendAscending(submitted, head);
  }

  /** A call that goes on is again in order, if the head it leaves behind is gone. */
  lemma GoesOnOk(protocol: Protocol, w': World, c: nat, call: Call)
    requires Conserved(protocol, w') && c in w'.calls && c in w'.since && w'.since[c] <= |w'.removed| <= |w'.enqueued|
    requires Ascending(call.submitted)
    requires SubmittedOk(w', w'.since[c], call.submitted)
    requires GoesOn(protocol, call, w'.calls[c], w'.store)
    requires call.submitted != [] ==> call.submitted[|call.submitted| - 1] !in ItemsOf(protocol, w'.store)
    requires Posted(w'.calls[c]) <= w'.sent
    ensures CallOk(w', c)
    ensures forall i :: i in Posted(w'.calls[c]) ==> WasHead(w', i)
  {
    var items := ItemsOf(protocol, w'.store);
    if items != [] {
      HeadPosition(protocol, w');
      assert w'.enqueued[w'.since[c]..][|w'.removed| - w'.since[c]] == items[0];
      if call.submitted != [] {
        var last := call.submitted[|call.submitted| - 1];
        assert last in call.submitted && last in w'.enqueued[w'.since[c]..];
        GoneIsEarlier(protocol, w', last);
      }
      AppendedSubmission(w', call.submitted, items[0], w'.since[c]);
    }
  }

  lemma RefreshKeepsInv(protocol: Protocol, w: World, a: Action)
    requires Inv(protocol, w) && a.Refresh? && Enabled(protocol, w, a)
    ensures Inv(protocol, Next(protocol, w, a))
  {
    var w' := Next(protocol, w, a);
    var c, call := a.call, w.calls[a.call];
    RefreshStretch(protocol, w.store, call, a.answer, a.syncedAt, a.budget);
    ConservedWhenKept(protocol, w, w');
    RefreshedCall(protocol, w, w', c);
    OutsideWithCall(protocol, w, w', c);
  }

  lemma RefreshedCall(protocol: Protocol, w: World, w': World, c: nat)
    requires c in w.calls && CallOk(w, c) && w.calls[c].phase.Refreshing?
    requires Conserved(protocol, w') && c in w'.calls && c in w'.since && w'.since[c] == |w'.removed| <= |w'.enqueued|
    requires SameCall(w.calls[c], w'.calls[c]) || GoesOn(protocol, w.calls[c], w'.calls[c], w'.store)
    requires Posted(w'.calls[c]) <= w'.sent
    ensures CallOk(w', c)
    ensures forall i :: i in Posted(w'.calls[c]) ==> WasHead(w', i)
  {
    if !SameCall(w.calls[c], w'.calls[c]) { GoesOnOk(protocol, w', c, w.calls[c]); }
  }

  /** A posted or looked-up head that is answered. */
  ghost predicate RespondRule(protocol: Protocol, store: Store, call: Call, response: Response, after: Store,
                              call': Call)
    requires Waiting(call)
  {
    var head := call.phase.head;
    && (Kept(protocol, store, after)
        || (Took(protocol, store, after) && LoadState(protocol, store).Some? && head == ItemsOf(protocol, store)[0]
            && response.Answer? && response.body.AppliedBody? && Acknowledges(protocol, response.body.receipt, head)))
    && (SameCall(call, call')
        || (GoesOn(protocol, call, call', after) && head !in ItemsOf(protocol, after))
        || (call.phase.Looking? && call' == call.(phase := Posting(head)) && after == store))
  }

  lemma RespondStretch(protocol: Protocol, store: Store, call: Call, response: Response, budget: nat)
    requires Healthy(protocol, store) && Waiting(call)
    ensures var (after, call') := RespondOp(protocol, store, call, response, budget);
            RespondRule(protocol, store, call, response, after, call')
  {
    var head := call.phase.head;
    KeptItself(protocol, store);
    OnlyReceiptsConfirm(protocol, head, response);
    if call.phase.Posting? {
      ResponseStretch(protocol, store, call, head, Checked(protocol, head, response), budget);
    } else if AfterLookup(protocol, head, response).Settled? {
      ResponseStretch(protocol, store, call, head, AfterLookup(protocol, head, response).response, budget);
    }
  }

  lemma TakenWhenTook(protocol: Protocol, store: Store, after: Store)
    requires Took(protocol, store, after) && LoadState(protocol, store).Some?
    ensures Taken(protocol, store, after) == [ItemsOf(protocol, store)[0]]
  {
    LoadedItems(protocol, store);
    TailMembers(ItemsOf(protocol, store), ItemsOf(protocol, store)[0]);
    StoredIsListed(protocol, after, ItemsOf(protocol, store)[0]);
  }

  lemma TakenWhenKept(protocol: Protocol, store: Store, after: Store)
    requires Kept(protocol, store, after)
    ensures Taken(protocol, store, after) == []
  {
    if LoadState(protocol, store).Some? && LoadState(protocol, store).value.items != [] {
      LoadedItems(protocol, store);
      StoredIsListed(protocol, after, ItemsOf(protocol, store)[0]);
    }
  }

  lemma SamePosition(items: seq<Item>, j: nat, k: nat)
    requires Ascending(items) && j < |items| && k < |items| && items[j] == items[k]
    ensures j == k
  {}

  /** An acknowledged head has been applied: the log is one ahead of the removals. */
  lemma AcknowledgedIsApplied(protocol: Protocol, w: World, response: Response)
    requires Inv(protocol, w) && ItemsOf(protocol, w.store) != []
    requires Honest(protocol, w.server, ItemsOf(protocol, w.store)[0], response)
    requires response.Answer? && response.body.AppliedBody?
    requires Acknowledges(protocol, response.body.receipt, ItemsOf(protocol, w.store)[0])
    ensures |w.server.log| == |w.removed| + 1
    ensures RemovedAcknowledged(protocol, w.server, w.removed + [ItemsOf(protocol, w.store)[0]])
  {
    var head := ItemsOf(protocol, w.store)[0];
    HeadPosition(protocol, w);
    assert head.eventId in w.server.receipts;
    var i :| i in w.server.log && i.eventId == head.eventId;
    assert i in w.enqueued && head in w.enqueued;
    assert i == head;
    var k :| 0 <= k < |w.server.log| && w.server.log[k] == head;
    assert w.enqueued[k] == head;
    SamePosition(w.enqueued, k, |w.removed|);
  }

  lemma RespondKeepsInv(protocol: Protocol, w: World, a: Action)
    requires Inv(protocol, w) && a.Respond? && Enabled(protocol, w, a)
    ensures Inv(protocol, Next(protocol, w, a))
  {
    var w' := Next(protocol, w, a);
    var c, call := a.call, w.calls[a.call];
    RespondStretch(protocol, w.store, call, a.response, a.budget);
    RespondedBooks(protocol, w, w', a.response, call);
    RespondedCall(protocol, w, w', c, a.response);
    OutsideWithCall(protocol, w, w', c);
  }

  lemma RespondedBooks(protocol: Protocol, w: World, w': World, response: Response, call: Call)
    requires Inv(protocol, w) && Waiting(call) && Honest(protocol, w.server, call.phase.head, response)
    requires Kept(protocol, w.store, w'.store)
             || (Took(protocol, w.store, w'.store) && LoadState(protocol, w.store).Some?
                 && call.phase.head == ItemsOf(protocol, w.store)[0]
                 && response.Answer? && response.body.AppliedBody?
                 && Acknowledges(protocol, response.body.receipt, call.phase.head))
    requires w'.enqueued == w.enqueued && w'.server == w.server
    requires w'.removed == w.removed + Taken(protocol, w.store, w'.store)
    ensures Conserved(protocol, w') && BooksGrow(w, w') && |w'.removed| <= |w.server.log|
    ensures RemovedAcknowledged(protocol, w'.server, w'.removed)
  {
    if Kept(protocol, w.store, w'.store) {
      TakenWhenKept(protocol, w.store, w'.store);
      ConservedWhenKept(protocol, w, w');
    } else {
      TakenWhenTook(protocol, w.store, w'.store);
      ConservedWhenTaken(protocol, w, w');
      AcknowledgedIsApplied(protocol, w, response);
    }
  }

  lemma RespondedCall(protocol: Protocol, w: World, w': World, c: nat, response: Response)
    requires c in w.calls && CallOk(w, c) && Waiting(w.calls[c]) && BooksGrow(w, w')
    requires Conserved(protocol, w') && c in w'.calls && c in w'.since && w'.since[c] == w.since[c]
    requires RespondRule(protocol, w.store, w.calls[c], response, w'.store, w'.calls[c])
    requires w'.sent == w.sent + Posted(w'.calls[c])
    ensures CallOk(w', c)
    ensures forall i :: i in Posted(w'.calls[c]) ==> WasHead(w', i)
  {
    var call := w.calls[c];
    SubmittedStays(w, w', w.since[c], call.submitted);
    if w'.calls[c] == call.(phase := Posting(call.phase.head)) {
      assert call.phase.head in call.submitted;
    } else if !SameCall(call, w'.calls[c]) {
      GoesOnOk(protocol, w', c, call);
    }
  }

  /** Late, repeated and reordered requests: only the next item in enqueue order can be new to the server. */
  lemma NewToServerIsNext(protocol: Protocol, w: World, item: Item)
    requires Inv(protocol, w) && item in w.sent && item.eventId !in w.server.receipts
    ensures |w.server.log| == |w.removed| < |w.enqueued| && item == w.enqueued[|w.removed|]
  {
    var n := if |w.removed| < |w.enqueued| then |w.removed| + 1 else |w.enqueued|;
    assert WasHead(w, item);
    var k: nat :| k < n && w.enqueued[k] == item;
    if k < |w.server.log| { PrefixMember(w.server.log, w.enqueued, k); }
  }

  lemma PrefixMember(log: seq<Item>, all: seq<Item>, k: nat)
    requires log <= all && k < |log|
    ensures all[k] in log
  {
    assert log[k] == all[k];
  }

  lemma LoggedNext(log: seq<Item>, all: seq<Item>, item: Item)
    requires log <= all && |log| < |all| && item == all[|log|]
    ensures log + [item] <= all
  {}

  lemma ReceiptStored(server: Server, item: Item, receipt: Receipt)
    requires ReceiptsMatchLog(server) && item.eventId !in server.receipts && receipt.eventId == item.eventId
    requires Accepts(server.RunOf(item.scheduleItemId), item)
    ensures ReceiptsMatchLog(server.Process(item, receipt))
  {
    var server' := server.Process(item, receipt);
    assert server'.log == server.log + [item];
    forall e | e in server'.receipts
      ensures server'.receipts[e].eventId == e && exists i :: i in server'.log && i.eventId == e
    {
      if e == item.eventId {
        assert item in server'.log;
      } else {
        var i :| i in server.log && i.eventId == e;
        assert i in server'.log;
      }
    }
  }

  lemma SameOutsideServer(protocol: Protocol, w: World, w': World)
    requires Inv(protocol, w) && w' == w.(server := w'.server)
    requires InOrder(w') && ReceiptsMatchLog(w'.server) && RemovedAcknowledged(protocol, w'.server, w'.removed)
    ensures Inv(protocol, w')
  {
    forall c | c in w'.calls ensures CallOk(w', c) { assert CallOk(w, c); }
    forall i | i in w'.sent ensures WasHead(w', i) { assert WasHead(w, i); }
  }

  lemma ProcessedInOrder(protocol: Protocol, w: World, w': World, item: Item, receipt: Receipt)
    requires InOrder(w) && ReceiptsMatchLog(w.server) && RemovedAcknowledged(protocol, w.server, w.removed)
    requires item.eventId !in w.server.receipts && receipt.eventId == item.eventId
    requires Accepts(w.server.RunOf(item.scheduleItemId), item)
    requires |w.server.log| == |w.removed| < |w.enqueued| && item == w.enqueued[|w.removed|]
    requires w' == w.(server := w.server.Process(item, receipt))
    ensures InOrder(w') && ReceiptsMatchLog(w'.server) && RemovedAcknowledged(protocol, w'.server, w'.removed)
  {
    LoggedNext(w.server.log, w.enqueued, item);
    ReceiptStored(w.server, item, receipt);
    assert w'.server.log == w.server.log + [item];
  }

  lemma ProcessKeepsInv(protocol: Protocol, w: World, item: Item, receipt: Receipt)
    requires Inv(protocol, w) && Enabled(protocol, w, Process(item, receipt))
    ensures Inv(protocol, Next(protocol, w, Process(item, receipt)))
  {
    var w' := Next(protocol, w, Process(item, receipt));
    if item.eventId !in w.server.receipts && Accepts(w.server.RunOf(item.scheduleItemId), item) {
      NewToServerIsNext(protocol, w, item);
      ProcessedInOrder(protocol, w, w', item, receipt);
    }
    SameOutsideServer(protocol, w, w');
  }

  lemma StepKeepsInv(protocol: Protocol, w: World, a: Action)
    requires Inv(protocol, w) && Enabled(protocol, w, a)
    ensures Inv(protocol, Next(protocol, w, a))
  {
    match a
    case Enqueue(item, budget) => EnqueueKeepsInv(protocol, w, item, budget);
    case Begin(c) => BeginKeepsInv(protocol, w, c);
    case Refresh(_, _, _, _) => RefreshKeepsInv(protocol, w, a);
    case Respond(_, _, _) => RespondKeepsInv(protocol, w, a);
    case Close(c) => CloseKeepsInv(protocol, w, c);
    case Process(item, receipt) => ProcessKeepsInv(protocol, w, item, receipt);
    case OthersChange(runs) => SameOutsideServer(protocol, w, Next(protocol, w, a));
  }

  lemma {:induction false} RunKeepsInv(protocol: Protocol, w: World, run: seq<Action>)
    requires Inv(protocol, w) && ValidRun(protocol, w, run)
    ensures Inv(protocol, RunFrom(protocol, w, run))
    decreases |run|
  {
    if run != [] {
      StepKeepsInv(protocol, w, run[0]);
      RunKeepsInv(protocol, Next(protocol, w, run[0]), run[1..]);
    }
  }
}
