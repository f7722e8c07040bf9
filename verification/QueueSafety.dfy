/**
  What holds in every run of the offline queue: each event reaches the server once and in order, nothing
  is lost, numbers only go up, a replay call ends, and a blocked queue stays as it is.
*/
module QueueSafety {
  import opened Options
  import opened FieldProtocol
  import opened QueueRecords
  import opened QueueCommit
  import opened QueueOperations
  import opened Replay
  import opened QueueRuns

  // ---------------------------------------------------------------- once, in order, nothing lost

  lemma ReachableInv(protocol: Protocol, run: seq<Action>)
    requires ValidRun(protocol, START, run)
    ensures Inv(protocol, RunFrom(protocol, START, run))
  {
    StartInv(protocol);
    RunKeepsInv(protocol, START, run);
  }

  /**
    In every run, whatever tabs, crashes, lost or late messages it has: the server first-applies events in
    the order they were enqueued and none twice; what was removed and what is stored make up all that
    was enqueued; and everything removed has been applied and is acknowledged by the server's receipt.
  */
  lemma ExactlyOnceInOrder(protocol: Protocol, run: seq<Action>)
    requires ValidRun(protocol, START, run)
    ensures var w := RunFrom(protocol, START, run);
            && RecordsReadable(protocol, w.store)
            && w.enqueued == w.removed + ItemsOf(protocol, w.store)
            && w.server.log <= w.enqueued && w.removed <= w.server.log && |w.server.log| <= |w.removed| + 1
            && (forall i, j :: 0 <= i < j < |w.server.log| ==> w.server.log[i].eventId != w.server.log[j].eventId)
            && (forall i :: i in w.removed ==>
                  i.eventId in w.server.receipts && Acknowledges(protocol, w.server.receipts[i.eventId], i))
  {
    ReachableInv(protocol, run);
    var w := RunFrom(protocol, START, run);
    assert w.removed <= w.enqueued;
    forall i, j | 0 <= i < j < |w.server.log| ensures w.server.log[i].eventId != w.server.log[j].eventId {
      assert w.server.log[i] == w.enqueued[i] && w.server.log[j] == w.enqueued[j];
      assert w.enqueued[i] in w.enqueued && w.enqueued[j] in w.enqueued;
    }
    forall i | i in w.removed ensures i in w.server.log {
      var k :| 0 <= k < |w.removed| && w.removed[k] == i;
      assert w.server.log[k] == i;
    }
  }

  // ---------------------------------------------------------------- numbers only go up

  ghost predicate MovedForward(store: Store, after: Store) {
    && MetaReadable(store) && MetaReadable(after)
    && NextOf(store) <= NextOf(after) && NotOlder(CacheOf(store), CacheOf(after))
  }

  /** The stretch commits at most once. */
  ghost predicate OneCommit(protocol: Protocol, store: Store, after: Store) {
    after == store || exists base, next, budget: nat :: after == TryCommit(protocol, store, base, next, budget).0
  }

  lemma OneCommitMovesForward(protocol: Protocol, store: Store, after: Store)
    requires Healthy(protocol, store) && Healthy(protocol, after) && OneCommit(protocol, store, after)
    ensures MovedForward(store, after)
  {
    if after != store {
      var base, next, budget: nat :| after == TryCommit(protocol, store, base, next, budget).0;
      CommitMovesForward(protocol, store, base, next, budget);
    }
  }

  lemma RefreshCommitsOnce(protocol: Protocol, store: Store, call: Call, answer: RefreshAnswer,
                           syncedAt: Option<string>, budget: nat)
    requires call.phase.Refreshing?
    ensures OneCommit(protocol, store, AfterRefresh(protocol, store, call, answer, syncedAt, budget).0)
  {}

  lemma ResponseCommitsOnce(protocol: Protocol, store: Store, call: Call, head: Item, response: Response, budget: nat)
    ensures OneCommit(protocol, store, AfterResponse(protocol, store, call, head, response, budget).0)
  {
    var loaded := LoadState(protocol, store);
    if loaded.Some? {
      DecisionCommitsOnce(protocol, store, loaded.value, call, Decide(protocol, loaded.value, call, head, response),
                          budget);
    }
  }

  lemma DecisionCommitsOnce(protocol: Protocol, store: Store, q: Queue, call: Call, decision: Decision, budget: nat)
    requires decision.TakeHead? ==> q.items != []
    ensures OneCommit(protocol, store, AfterDecision(protocol, store, q, call, decision, budget).0)
  {}

  lemma RespondCommitsOnce(protocol: Protocol, store: Store, call: Call, response: Response, budget: nat)
    requires Waiting(call)
    ensures OneCommit(protocol, store, RespondOp(protocol, store, call, response, budget).0)
  {
    var head := call.phase.head;
    if call.phase.Posting? {
      ResponseCommitsOnce(protocol, store, call, head, Checked(protocol, head, response), budget);
    } else if AfterLookup(protocol, head, response).Settled? {
      ResponseCommitsOnce(protocol, store, call, head, AfterLookup(protocol, head, response).response, budget);
    }
  }

  lemma EnqueueCommitsOnce(protocol: Protocol, store: Store, item: Item, budget: nat)
    ensures OneCommit(protocol, store, EnqueueOp(protocol, store, item, budget).0)
  {}

  lemma StepCommitsOnce(protocol: Protocol, w: World, a: Action)
    requires Enabled(protocol, w, a)
    ensures OneCommit(protocol, w.store, Next(protocol, w, a).store)
  {
    match a
    case Enqueue(item, budget) => EnqueueCommitsOnce(protocol, w.store, item, budget);
    case Refresh(c, answer, syncedAt, budget) =>
      RefreshCommitsOnce(protocol, w.store, w.calls[c], answer, syncedAt, budget);
    case Respond(c, response, budget) => RespondCommitsOnce(protocol, w.store, w.calls[c], response, budget);
    case _ => {}
  }

  lemma StepMovesForward(protocol: Protocol, w: World, a: Action)
    requires Inv(protocol, w) && Enabled(protocol, w, a)
    ensures MovedForward(w.store, Next(protocol, w, a).store)
  {
    StepCommitsOnce(protocol, w, a);
    StepKeepsInv(protocol, w, a);
    OneCommitMovesForward(protocol, w.store, Next(protocol, w, a).store);
  }

  /**
    Along any run the next number and the cached projection never go back, and whatever is enqueued later
    gets a number that was never in use, also after the queue has run empty.
  */
  lemma {:induction false} NumbersNeverReused(protocol: Protocol, w: World, run: seq<Action>)
    requires Inv(protocol, w) && ValidRun(protocol, w, run)
    ensures var w' := RunFrom(protocol, w, run);
            && MovedForward(w.store, w'.store)
            && w.enqueued <= w'.enqueued
            && (forall k :: |w.enqueued| <= k < |w'.enqueued| ==> w'.enqueued[k].localSequence >= NextOf(w.store))
    decreases |run|
  {
    if run != [] {
      var w1, w' := Next(protocol, w, run[0]), RunFrom(protocol, w, run);
      StepMovesForward(protocol, w, run[0]);
      StepKeepsInv(protocol, w, run[0]);
      NumbersNeverReused(protocol, w1, run[1..]);
      NewNumber(protocol, w, run[0]);
      NumbersGrow(w.enqueued, w1.enqueued, w'.enqueued, NextOf(w.store), NextOf(w1.store));
    }
  }

  lemma NumbersGrow(before: seq<Item>, one: seq<Item>, all: seq<Item>, n: nat, m: nat)
    requires before <= one <= all && n <= m
    requires one == before || (|one| == |before| + 1 && one[|before|].localSequence == n)
    requires forall k :: |one| <= k < |all| ==> all[k].localSequence >= m
    ensures before <= all && forall k :: |before| <= k < |all| ==> all[k].localSequence >= n
  {
    assert forall k :: 0 <= k < |one| ==> all[k] == one[k];
  }

  lemma NewNumber(protocol: Protocol, w: World, a: Action)
    requires Inv(protocol, w) && Enabled(protocol, w, a)
    ensures var w' := Next(protocol, w, a);
            w'.enqueued == w.enqueued
            || (|w'.enqueued| == |w.enqueued| + 1 && w.enqueued <= w'.enqueued
                && w'.enqueued[|w.enqueued|].localSequence == NextOf(w.store))
  {
    if a.Enqueue? {
      var after := Next(protocol, w, a).store;
      EnqueueStretch(protocol, w.store, a.item, a.budget);
      StoredIsListed(protocol, w.store, a.item);
      StoredIsListed(protocol, after, a.item);
    }
  }

  // ---------------------------------------------------------------- a replay call comes to an end

  /** An ascending list drawn from another one is no longer than it. */
  lemma {:induction false} DrawnIsShorter(a: seq<Item>, b: seq<Item>)
    requires Ascending(a) && Ascending(b) && forall i :: i in a ==> i in b
    ensures |a| <= |b|
  {
    if a != [] {
      assert a[0] in b;
      forall i | i in a[1..] ensures i in b[1..] {
        var k :| 0 <= k < |a[1..]| && a[1..][k] == i;
        assert a[k + 1] == i && a[0].localSequence < i.localSequence;
        TailMembers(b, i);
        if i == b[0] { HeadIsLowest(b, a[0]); }
      }
      DrawnIsShorter(a[1..], b[1..]);
    }
  }

  /**
    No call submits an event twice: its submissions rise, and none of them had been removed when it refreshed,
    `since` being how many had.
  */
  lemma SubmissionsRise(protocol: Protocol, w: World, c: nat)
    requires Inv(protocol, w) && c in w.calls
    ensures Ascending(w.calls[c].submitted)
    ensures forall i, j :: 0 <= i < j < |w.calls[c].submitted| ==>
              w.calls[c].submitted[i].eventId != w.calls[c].submitted[j].eventId
    ensures c in w.since && w.since[c] <= |w.removed| <= |w.enqueued|
    ensures |w.calls[c].submitted| <= |w.enqueued| - w.since[c]
    ensures forall i :: i in w.calls[c].submitted ==> i in w.enqueued[w.since[c]..] && i !in w.removed[..w.since[c]]
  {
    assert CallOk(w, c);
    var submitted, pending := w.calls[c].submitted, w.enqueued[w.since[c]..];
    forall i, j | 0 <= i < j < |submitted| ensures submitted[i].eventId != submitted[j].eventId {
      assert submitted[i] in submitted && submitted[j] in submitted;
      assert submitted[i] in w.enqueued && submitted[j] in w.enqueued;
    }
    assert Ascending(pending);
    DrawnIsShorter(submitted, pending);
    NotAmongFirst(w.enqueued, w.removed, w.since[c]);
  }

  lemma NotAmongFirst(all: seq<Item>, first: seq<Item>, n: nat)
    requires Ascending(all) && first <= all && n <= |first|
    ensures forall i :: i in all[n..] ==> i !in first[..n]
  {
    forall i | i in all[n..] ensures i !in first[..n] {
      var k :| 0 <= k < |all[n..]| && all[n..][k] == i;
      assert all[n + k] == i;
    }
  }

  /**
    The head a call waits for is first in the queue as long as it is in it, and unchanged: the branch of
    reloadHead for a misplaced or altered head is never taken.
  */
  lemma SubmittedHeadStaysFirst(protocol: Protocol, w: World, c: nat, q: Queue)
    requires Inv(protocol, w) && c in w.calls && Waiting(w.calls[c]) && LoadState(protocol, w.store) == Some(q)
    requires w.calls[c].phase.head.eventId in Ids(q.items)
    ensures q.items != [] && q.items[0] == w.calls[c].phase.head
  {
    var head := w.calls[c].phase.head;
    assert CallOk(w, c);
    assert head in w.calls[c].submitted;
    LoadedItems(protocol, w.store);
    var stored: Item :| stored in q.items && stored.eventId == head.eventId;
    assert stored in w.removed + q.items;
    WasHeadPosition(w, head);
    HeadOfStored(protocol, w, head);
  }

  lemma WasHeadPosition(w: World, head: Item)
    requires WasHead(w, head)
    ensures exists k :: 0 <= k <= |w.removed| && k < |w.enqueued| && w.enqueued[k] == head
  {}

  lemma HeadOfStored(protocol: Protocol, w: World, head: Item)
    requires Conserved(protocol, w) && head in ItemsOf(protocol, w.store)
    requires exists k :: 0 <= k <= |w.removed| && k < |w.enqueued| && w.enqueued[k] == head
    ensures ItemsOf(protocol, w.store)[0] == head
  {
    var items := ItemsOf(protocol, w.store);
    var k: nat :| k <= |w.removed| && k < |w.enqueued| && w.enqueued[k] == head;
    var m: nat :| m < |items| && items[m] == head;
    assert w.enqueued[|w.removed| + m] == head;
    SamePosition(w.enqueued, k, |w.removed| + m);
  }

  function Responses(run: seq<Action>, c: nat): nat
    decreases |run|
  {
    if run == [] then 0 else (if run[0].Respond? && run[0].call == c then 1 else 0) + Responses(run[1..], c)
  }

  /** How many answers a call can still take when its submissions are at most `n`. */
  function Rank(call: Call, n: nat): int {
    match call.phase
    case Refreshing(_) => 2 * n
    case Looking(_) => 2 * (n - |call.submitted|) + 2
    case Posting(_) => 2 * (n - |call.submitted|) + 1
    case Finished => 0
  }

  lemma RespondedRank(protocol: Protocol, store: Store, call: Call, response: Response, after: Store, call': Call,
                      n: nat)
    requires Waiting(call) && RespondRule(protocol, store, call, response, after, call')
    requires |call.submitted| <= n
    ensures |call'.submitted| <= n ==> Rank(call', n) < Rank(call, n)
    ensures !call'.phase.Refreshing?
  {
    RespondedPhase(protocol, store, call, response, after, call');
    if call'.phase != Finished && call.phase.Posting? { assert |call'.submitted| == |call.submitted| + 1; }
  }

  /** After an answer a call is over, submits the next event, or posts the head it has looked up. */
  lemma RespondedPhase(protocol: Protocol, store: Store, call: Call, response: Response, after: Store, call': Call)
    requires Waiting(call) && RespondRule(protocol, store, call, response, after, call')
    ensures
      || call'.phase == Finished
      || (Waiting(call') && |call'.submitted| == |call.submitted| + 1)
      || (call.phase.Looking? && call' == call.(phase := Posting(call.phase.head)))
  {}

  lemma AnswerLowersRank(protocol: Protocol, w: World, a: Action, n: nat)
    requires Inv(protocol, w) && a.Respond? && Enabled(protocol, w, a) && |w.calls[a.call].submitted| <= n
    ensures var call' := Next(protocol, w, a).calls[a.call];
            (|call'.submitted| <= n ==> Rank(call', n) < Rank(w.calls[a.call], n)) && !call'.phase.Refreshing?
  {
    var call := w.calls[a.call];
    RespondStretch(protocol, w.store, call, a.response, a.budget);
    var (after, call') := RespondOp(protocol, w.store, call, a.response, a.budget);
    RespondedRank(protocol, w.store, call, a.response, after, call', n);
  }

  /** A call that has refreshed keeps its place in the books whatever the others do. */
  lemma OtherStepsLeaveCall(protocol: Protocol, w: World, a: Action, c: nat)
    requires Inv(protocol, w) && Enabled(protocol, w, a) && c in w.calls && !w.calls[c].phase.Refreshing?
    ensures var w' := Next(protocol, w, a);
            && c in w'.calls && !w'.calls[c].phase.Refreshing?
            && c in w.since && c in w'.since && w'.since[c] == w.since[c]
            && (w'.calls[c] == w.calls[c] || w'.calls[c].phase == Finished || (a.Respond? && a.call == c))
  {
    assert CallOk(w, c);
    if a.Respond? && a.call == c { AnswerLowersRank(protocol, w, a, |w.calls[c].submitted|); }
  }

  lemma {:induction false} AnswersBoundedFrom(protocol: Protocol, w: World, run: seq<Action>, c: nat, n: nat)
    requires Inv(protocol, w) && ValidRun(protocol, w, run)
    requires c in w.calls && !w.calls[c].phase.Refreshing? && c in w.since && |w.enqueued| <= w.since[c] + n
    requires |RunFrom(protocol, w, run).enqueued| == |w.enqueued|
    ensures |w.calls[c].submitted| <= n && Responses(run, c) <= Rank(w.calls[c], n)
    ensures c in RunFrom(protocol, w, run).calls && |RunFrom(protocol, w, run).calls[c].submitted| <= n
    decreases |run|
  {
    SubmissionsRise(protocol, w, c);
    if run != [] {
      var a, w' := run[0], Next(protocol, w, run[0]);
      StepKeepsInv(protocol, w, a);
      OtherStepsLeaveCall(protocol, w, a, c);
      NewNumber(protocol, w, a);
      NumbersNeverReused(protocol, w', run[1..]);
      AnswersBoundedFrom(protocol, w', run[1..], c, n);
      if a.Respond? && a.call == c { AnswerLowersRank(protocol, w, a, n); }
    }
  }

  /**
    As long as nothing new is enqueued, a replay call submits at most the items that were pending when it
    refreshed, and has ended or waits forever after twice as many answers (a lookup and a post for
    each), however many other tabs replay, remove or block at the same time.
  */
  lemma ReplayEnds(protocol: Protocol, w: World, a: Action, run: seq<Action>)
    requires Inv(protocol, w) && a.Refresh? && Enabled(protocol, w, a)
    requires ValidRun(protocol, Next(protocol, w, a), run)
    requires |RunFrom(protocol, Next(protocol, w, a), run).enqueued| == |w.enqueued|
    ensures var w' := RunFrom(protocol, Next(protocol, w, a), run);
            && a.call in w'.calls && RecordsReadable(protocol, w.store)
            && |w'.calls[a.call].submitted| <= |ItemsOf(protocol, w.store)|
            && Responses(run, a.call) <= 2 * |ItemsOf(protocol, w.store)|
  {
    var w1 := Next(protocol, w, a);
    StepKeepsInv(protocol, w, a);
    RefreshStretch(protocol, w.store, w.calls[a.call], a.answer, a.syncedAt, a.budget);
    AnswersBoundedFrom(protocol, w1, run, a.call, |ItemsOf(protocol, w.store)|);
  }
}
