/**
  The four commits as operations on an abstract queue, with every way they can be cut short.
*/
module QueueRefinement {
  import opened Options
  import opened FieldProtocol
  import opened QueueRecords
  import opened QueueCommit
  import opened QueueOperations

  function Enqueued(q: Queue, item: Item): Queue {
    q.(next := q.next + 1, status := Pending, items := q.items + [item])
  }

  function Dequeued(q: Queue): Queue
    requires q.items != []
  {
    q.(items := q.items[1..], status := if |q.items| == 1 then Synced else Pending)
  }

  /** What a refresh asks to store, and what the merge then keeps. */
  function Refreshed(q: Queue, cache: Cache): Queue { q.(cache := MergedCache(q.cache, Some(cache))) }

  lemma ApplySingle(store: Store, a: Write)
    ensures Apply(store, [a]) == ApplyOne(store, a)
  {
    assert [a][1..] == [];
  }

  lemma ApplyPair(store: Store, a: Write, b: Write)
    ensures Apply(store, [a, b]) == ApplyOne(ApplyOne(store, a), b)
  {
    assert [a, b][1..] == [b];
    ApplySingle(ApplyOne(store, a), b);
  }

  lemma ApplyShort(store: Store, a: Write, b: Write, c: Write)
    ensures Apply(store, []) == store
    ensures Apply(store, [a]) == ApplyOne(store, a)
    ensures Apply(store, [a, b]) == ApplyOne(ApplyOne(store, a), b)
    ensures Apply(store, [a, b, c]) == ApplyOne(ApplyOne(ApplyOne(store, a), b), c)
  {
    ApplySingle(store, a);
    ApplyPair(store, a, b);
    assert [a, b, c][1..] == [b, c];
    ApplyPair(ApplyOne(store, a), b, c);
  }

  lemma CutShort(a: Write, b: Write, c: Write, budget: nat)
    ensures Cut([a], budget) == if budget == 0 then [] else [a]
    ensures Cut([a, b], budget) == if budget == 0 then [] else if budget == 1 then [a] else [a, b]
    ensures Cut([a, b, c], budget)
            == if budget == 0 then [] else if budget == 1 then [a] else if budget == 2 then [a, b] else [a, b, c]
  {}

  /** A store with readable records loads as what they assemble to, if that is valid. */
  lemma LoadsAs(protocol: Protocol, store: Store, q: Queue)
    requires RecordsReadable(protocol, store) && q == Assembled(protocol, store) && ValidQueue(protocol, q)
    ensures LoadState(protocol, store) == Some(q)
    ensures LoadFromRecords(protocol, store) != Unreadable && Current(protocol, store) == q
  {
    if LoadFromRecords(protocol, store) == Nothing { assert NextOf(store) == 0; }
  }

  /** The result of a commit whose plan is known. */
  lemma CommitOutcome(protocol: Protocol, store: Store, base: Queue, next: Queue, writes: seq<Write>, budget: nat)
    requires ValidQueue(protocol, next) && CommitPlan(protocol, store, base, next) == Plan(writes, true)
    ensures TryCommit(protocol, store, base, next, budget)
            == (Apply(store, Cut(writes, budget)),
                if |writes| <= budget then LoadState(protocol, Apply(store, Cut(writes, budget))) else None)
  {}

  /** The four stores a commit of three writes can leave behind. */
  lemma ThreeWriteOutcome(protocol: Protocol, store: Store, base: Queue, next: Queue, a: Write, b: Write, c: Write,
                          budget: nat)
    requires ValidQueue(protocol, next) && CommitPlan(protocol, store, base, next) == Plan([a, b, c], true)
    ensures var s1 := ApplyOne(store, a); var s2 := ApplyOne(s1, b); var s3 := ApplyOne(s2, c);
            TryCommit(protocol, store, base, next, budget)
            == (if budget == 0 then store else if budget == 1 then s1 else if budget == 2 then s2 else s3,
                if budget >= 3 then LoadState(protocol, s3) else None)
  {
    CommitOutcome(protocol, store, base, next, [a, b, c], budget);
    ApplyShort(store, a, b, c);
    CutShort(a, b, c, budget);
  }

  /** A healthy successor store that loads as q and knows the same events. */
  ghost predicate Became(protocol: Protocol, store: Store, after: Store, q: Queue) {
    && Healthy(protocol, after) && LoadState(protocol, after) == Some(q)
    && (forall e :: KnownId(after, e) <==> KnownId(store, e))
  }

  // ---------------------------------------------------------------- enqueue

  ghost predicate MayEnqueue(protocol: Protocol, store: Store, q: Queue, item: Item) {
    && Healthy(protocol, store) && LoadState(protocol, store) == Some(q) && !q.status.Terminal()
    && ValidItem(protocol, item) && item.localSequence == q.next < MAX_SAFE_INTEGER && !KnownId(store, item.eventId)
  }

  lemma UnknownIdNotQueued(protocol: Protocol, store: Store, e: string)
    requires ItemsReadable(protocol, store) && !KnownId(store, e)
    ensures e !in Ids(ItemsOf(protocol, store))
  {
    forall i | i in ItemsOf(protocol, store) ensures i.eventId != e {
      assert Marked(store, i.localSequence, i.eventId);
    }
  }

  lemma AppendedValid(protocol: Protocol, q: Queue, item: Item)
    requires ValidQueue(protocol, q) && ValidItem(protocol, item)
    requires item.localSequence == q.next < MAX_SAFE_INTEGER && item.eventId !in Ids(q.items)
    ensures ValidQueue(protocol, Enqueued(q, item))
  {
    forall i | 0 <= i < |q.items| ensures q.items[i].eventId != item.eventId {
      assert q.items[i] in q.items;
    }
  }

  lemma EnqueuedValid(protocol: Protocol, store: Store, q: Queue, item: Item)
    requires MayEnqueue(protocol, store, q, item)
    ensures ValidQueue(protocol, q) && ValidQueue(protocol, Enqueued(q, item))
    ensures item.eventId !in Ids(q.items)
  {
    LoadedIsAssembled(protocol, store);
    UnknownIdNotQueued(protocol, store, item.eventId);
    AppendedValid(protocol, q, item);
  }

  lemma MarkerStage(protocol: Protocol, store: Store, q: Queue, item: Item) returns (s1: Store)
    requires MayEnqueue(protocol, store, q, item)
    ensures SequenceKey(q.next) !in store
    ensures s1 == store[SequenceKey(q.next) := MarkerOf(item)] && Healthy(protocol, s1)
    ensures Assembled(protocol, s1) == q.(next := q.next + 1)
    ensures forall e :: KnownId(s1, e) <==> KnownId(store, e) || e == item.eventId
  {
    LoadedIsAssembled(protocol, store);
    s1 := AfterMarker(protocol, store, item.localSequence, item.eventId);
  }

  lemma ItemStage(protocol: Protocol, store: Store, q: Queue, item: Item, s1: Store) returns (s2: Store)
    requires MayEnqueue(protocol, store, q, item) && SequenceKey(q.next) !in store
    requires s1 == store[SequenceKey(q.next) := MarkerOf(item)] && Healthy(protocol, s1)
    requires Assembled(protocol, s1) == q.(next := q.next + 1)
    ensures KeyOf(item) !in store
    ensures s2 == s1[KeyOf(item) := ItemRecord(item)] && Healthy(protocol, s2)
    ensures Assembled(protocol, s2) == Enqueued(q, item) && LoadState(protocol, s2) == Some(Enqueued(q, item))
    ensures FinishPlan(protocol, s2, Enqueued(q, item)) == Plan([Put(MetaKey, MetaRecord(q.next + 1, q.cache))], true)
    ensures forall e :: KnownId(s2, e) <==> KnownId(s1, e)
  {
    s2 := ItemLands(protocol, store, q, item, s1);
    EnqueuedValid(protocol, store, q, item);
    ItemLanded(protocol, q, item, s2);
  }

  lemma ItemLanded(protocol: Protocol, q: Queue, item: Item, s2: Store)
    requires ValidQueue(protocol, Enqueued(q, item))
    requires RecordsReadable(protocol, s2) && Assembled(protocol, s2) == Enqueued(q, item)
    ensures LoadState(protocol, s2) == Some(Enqueued(q, item))
    ensures FinishPlan(protocol, s2, Enqueued(q, item)) == Plan([Put(MetaKey, MetaRecord(q.next + 1, q.cache))], true)
  {
    Landed(protocol, s2, Enqueued(q, item));
  }

  lemma Landed(protocol: Protocol, s2: Store, next: Queue)
    requires RecordsReadable(protocol, s2) && Assembled(protocol, s2) == next && ValidQueue(protocol, next)
    requires !next.status.Terminal()
    ensures LoadState(protocol, s2) == Some(next)
    ensures FinishPlan(protocol, s2, next) == Plan([Put(MetaKey, MetaRecord(next.next, next.cache))], true)
  {
    LoadsAs(protocol, s2, next);
    FinishWhenDone(protocol, s2, next);
  }

  lemma ItemLands(protocol: Protocol, store: Store, q: Queue, item: Item, s1: Store) returns (s2: Store)
    requires MayEnqueue(protocol, store, q, item) && SequenceKey(q.next) !in store
    requires s1 == store[SequenceKey(q.next) := MarkerOf(item)] && Healthy(protocol, s1)
    requires Assembled(protocol, s1) == q.(next := q.next + 1)
    ensures KeyOf(item) !in store
    ensures s2 == s1[KeyOf(item) := ItemRecord(item)] && Healthy(protocol, s2)
    ensures Assembled(protocol, s2) == Enqueued(q, item)
    ensures forall e :: KnownId(s2, e) <==> KnownId(s1, e)
  {
    LoadedIsAssembled(protocol, store);
    ContiguousAscending(protocol, q);
    KeyIsMarked(protocol, store, item.localSequence, item.eventId);
    PlacedIsKnown(protocol, store, item.eventId);
    forall i | Stored(s1, i) ensures i.localSequence < item.localSequence {
      assert Stored(store, i) && i in q.items;
    }
    s2 := AfterItem(protocol, s1, item);
  }

  /** A commit put together from its three parts. */
  lemma PlanOfParts(protocol: Protocol, store: Store, base: Queue, next: Queue, removed: seq<Write>, added: seq<Write>,
                    finish: seq<Write>)
    requires ValidQueue(protocol, base) && ValidQueue(protocol, next)
    requires RemovalWrites(base.items, Ids(next.items)) == removed
    requires AdditionPlan(Apply(store, removed), next.items, Ids(base.items)) == Plan(added, true)
    requires FinishPlan(protocol, Apply(Apply(store, removed), added), next) == Plan(finish, true)
    ensures CommitPlan(protocol, store, base, next) == Plan(removed + added + finish, true)
  {}

  /** When the stored state is already the one asked for, only the meta record is left to write. */
  lemma FinishWhenDone(protocol: Protocol, mid: Store, next: Queue)
    requires RecordsReadable(protocol, mid) && Assembled(protocol, mid) == next && ValidQueue(protocol, next)
    requires !next.status.Terminal()
    ensures FinishPlan(protocol, mid, next) == Plan([Put(MetaKey, MetaRecord(next.next, next.cache))], true)
  {
    LoadsAs(protocol, mid, next);
    assert VerdictWrite(mid, next, next) == [];
    assert [] + [MetaWrite(next, next)] == [MetaWrite(next, next)];
  }

  lemma SingleAddition(store: Store, item: Item, baseIds: set<string>)
    requires SequenceKey(item.localSequence) !in store && KeyOf(item) !in store && item.eventId !in baseIds
    ensures AdditionPlan(store, [item], baseIds)
            == Plan([Put(SequenceKey(item.localSequence), MarkerOf(item)), Put(KeyOf(item), ItemRecord(item))], true)
  {
    assert [item][0] == item && [item][1..] == [];
    assert MarkerWrite(store, item) + ItemWrite(store, item)
           == [Put(SequenceKey(item.localSequence), MarkerOf(item)), Put(KeyOf(item), ItemRecord(item))];
  }

  lemma EnqueueAdditions(store: Store, q: Queue, item: Item)
    requires SequenceKey(item.localSequence) !in store && KeyOf(item) !in store && item.eventId !in Ids(q.items)
    ensures RemovalWrites(q.items, Ids(q.items + [item])) == []
    ensures AdditionPlan(store, q.items + [item], Ids(q.items))
            == Plan([Put(SequenceKey(item.localSequence), MarkerOf(item)), Put(KeyOf(item), ItemRecord(item))], true)
  {
    assert forall i :: i in q.items ==> i in q.items + [item];
    NothingRemoved(q.items, Ids(q.items + [item]));
    OnlyTailAdded(store, q.items, [item], Ids(q.items));
    SingleAddition(store, item, Ids(q.items));
  }

  lemma EnqueuePlan(protocol: Protocol, store: Store, q: Queue, item: Item, s2: Store)
    requires ValidQueue(protocol, q) && ValidQueue(protocol, Enqueued(q, item)) && item.localSequence == q.next
    requires SequenceKey(q.next) !in store && KeyOf(item) !in store && item.eventId !in Ids(q.items)
    requires s2 == store[SequenceKey(q.next) := MarkerOf(item)][KeyOf(item) := ItemRecord(item)]
    requires FinishPlan(protocol, s2, Enqueued(q, item)) == Plan([Put(MetaKey, MetaRecord(q.next + 1, q.cache))], true)
    ensures CommitPlan(protocol, store, q, Enqueued(q, item))
            == Plan([Put(SequenceKey(q.next), MarkerOf(item)), Put(KeyOf(item), ItemRecord(item)),
                     Put(MetaKey, MetaRecord(q.next + 1, q.cache))], true)
  {
    var a, b := Put(SequenceKey(q.next), MarkerOf(item)), Put(KeyOf(item), ItemRecord(item));
    var c := Put(MetaKey, MetaRecord(q.next + 1, q.cache));
    EnqueueAdditions(store, q, item);
    AddedAndFinished(protocol, store, q, Enqueued(q, item), a, b, c, s2);
  }

  /** A commit of two additions and the meta record. */
  lemma AddedAndFinished(protocol: Protocol, store: Store, base: Queue, next: Queue, a: Write, b: Write, c: Write,
                         s2: Store)
    requires ValidQueue(protocol, base) && ValidQueue(protocol, next)
    requires RemovalWrites(base.items, Ids(next.items)) == []
    requires AdditionPlan(store, next.items, Ids(base.items)) == Plan([a, b], true)
    requires s2 == ApplyOne(ApplyOne(store, a), b) && FinishPlan(protocol, s2, next) == Plan([c], true)
    ensures CommitPlan(protocol, store, base, next) == Plan([a, b, c], true)
  {
    PairAfterNothing(store, a, b);
    PlanOfParts(protocol, store, base, next, [], [a, b], [c]);
    ThreeWrites(a, b, c);
  }

  lemma ThreeWrites(a: Write, b: Write, c: Write)
    ensures [] + [a, b] + [c] == [a, b, c]
  {}

  lemma PairAfterNothing(store: Store, a: Write, b: Write)
    ensures Apply(store, []) == store
    ensures Apply(Apply(store, []), [a, b]) == ApplyOne(ApplyOne(store, a), b)
  {
    ApplyPair(store, a, b);
  }

  lemma MetaStage(protocol: Protocol, s: Store, q: Queue, next: nat, cache: Option<Cache>) returns (after: Store)
    requires Healthy(protocol, s) && Assembled(protocol, s) == q && ValidQueue(protocol, q.(cache := cache))
    requires next == q.next
    ensures after == s[MetaKey := MetaRecord(next, cache)] && Healthy(protocol, after)
    ensures LoadState(protocol, after) == Some(q.(cache := cache))
    ensures forall e :: KnownId(after, e) <==> KnownId(s, e)
  {
    after := AfterMeta(protocol, s, next, cache);
    LoadsAs(protocol, after, q.(cache := cache));
  }

  /** Writing the meta record that the records already amount to. */
  lemma MetaAgain(protocol: Protocol, s: Store, q: Queue) returns (after: Store)
    requires Healthy(protocol, s) && Assembled(protocol, s) == q && ValidQueue(protocol, q)
    ensures after == s[MetaKey := MetaRecord(q.next, q.cache)] && Healthy(protocol, after)
    ensures LoadState(protocol, after) == Some(q)
    ensures forall e :: KnownId(after, e) <==> KnownId(s, e)
  {
    assert q.(cache := q.cache) == q;
    after := MetaStage(protocol, s, q, q.next, q.cache);
  }

  /**
    An enqueue cut short after any number of writes: nothing; the marker only, which burns the number
    of an empty queue and leaves a queue with items unloadable; or the whole enqueue.
  */
  lemma EnqueueEffect(protocol: Protocol, store: Store, q: Queue, item: Item, budget: nat)
    requires MayEnqueue(protocol, store, q, item)
    ensures var (after, r) := TryCommit(protocol, store, q, Enqueued(q, item), budget);
            && Healthy(protocol, after)
            && (budget == 0 ==> after == store)
            && (budget == 1 ==>
                  && Assembled(protocol, after) == q.(next := q.next + 1)
                  && LoadState(protocol, after) == if q.items == [] then Some(q.(next := q.next + 1)) else None)
            && (budget >= 2 ==> LoadState(protocol, after) == Some(Enqueued(q, item)))
            && r == (if budget >= 3 then Some(Enqueued(q, item)) else None)
            && (forall e :: KnownId(after, e) <==> KnownId(store, e) || (budget > 0 && e == item.eventId))
  {
    var a, b := Put(SequenceKey(q.next), MarkerOf(item)), Put(KeyOf(item), ItemRecord(item));
    var c := Put(MetaKey, MetaRecord(q.next + 1, q.cache));
    EnqueueCommitPlan(protocol, store, q, item);
    ThreeWriteOutcome(protocol, store, q, Enqueued(q, item), a, b, c, budget);
    if budget == 1 {
      var s1 := MarkerLoads(protocol, store, q, item);
    } else if budget == 2 {
      var s2 := EnqueuedLoads(protocol, store, q, item);
    } else if budget > 2 {
      var s3 := FinishedLoads(protocol, store, q, item);
    }
  }

  lemma EnqueueCommitPlan(protocol: Protocol, store: Store, q: Queue, item: Item)
    requires MayEnqueue(protocol, store, q, item)
    ensures ValidQueue(protocol, Enqueued(q, item))
    ensures CommitPlan(protocol, store, q, Enqueued(q, item))
            == Plan([Put(SequenceKey(q.next), MarkerOf(item)), Put(KeyOf(item), ItemRecord(item)),
                     Put(MetaKey, MetaRecord(q.next + 1, q.cache))], true)
  {
    EnqueuedValid(protocol, store, q, item);
    var s1 := MarkerStage(protocol, store, q, item);
    var s2 := ItemStage(protocol, store, q, item, s1);
    EnqueuePlan(protocol, store, q, item, s2);
  }

  lemma EnqueuedLoads(protocol: Protocol, store: Store, q: Queue, item: Item) returns (s2: Store)
    requires MayEnqueue(protocol, store, q, item)
    ensures s2 == store[SequenceKey(q.next) := MarkerOf(item)][KeyOf(item) := ItemRecord(item)]
    ensures Healthy(protocol, s2)
    ensures forall e :: KnownId(s2, e) <==> KnownId(store, e) || e == item.eventId
    ensures Assembled(protocol, s2) == Enqueued(q, item) && LoadState(protocol, s2) == Some(Enqueued(q, item))
  {
    var s1 := MarkerStage(protocol, store, q, item);
    s2 := ItemStage(protocol, store, q, item, s1);
  }

  lemma FinishedLoads(protocol: Protocol, store: Store, q: Queue, item: Item) returns (s3: Store)
    requires MayEnqueue(protocol, store, q, item)
    ensures s3 == store[SequenceKey(q.next) := MarkerOf(item)][KeyOf(item) := ItemRecord(item)]
                  [MetaKey := MetaRecord(q.next + 1, q.cache)]
    ensures Healthy(protocol, s3) && LoadState(protocol, s3) == Some(Enqueued(q, item))
    ensures forall e :: KnownId(s3, e) <==> KnownId(store, e) || e == item.eventId
  {
    var s2 := EnqueuedLoads(protocol, store, q, item);
    s3 := MetaLoads(protocol, store, s2, Enqueued(q, item), MetaRecord(q.next + 1, q.cache), item.eventId);
  }

  lemma MetaLoads(protocol: Protocol, store: Store, s2: Store, q: Queue, meta: Record, id: string) returns (s3: Store)
    requires forall e :: KnownId(s2, e) <==> KnownId(store, e) || e == id
    requires Healthy(protocol, s2) && LoadState(protocol, s2) == Some(q) && meta == MetaRecord(q.next, q.cache)
    ensures s3 == s2[MetaKey := meta] && Healthy(protocol, s3)
    ensures LoadState(protocol, s3) == Some(q)
    ensures forall e :: KnownId(s3, e) <==> KnownId(store, e) || e == id
  {
    LoadedIsAssembled(protocol, s2);
    s3 := MetaAgain(protocol, s2, q);
  }

  lemma MarkerLoads(protocol: Protocol, store: Store, q: Queue, item: Item) returns (s1: Store)
    requires MayEnqueue(protocol, store, q, item)
    ensures SequenceKey(q.next) !in store && s1 == store[SequenceKey(q.next) := MarkerOf(item)]
    ensures Healthy(protocol, s1) && Assembled(protocol, s1) == q.(next := q.next + 1)
    ensures forall e :: KnownId(s1, e) <==> KnownId(store, e) || e == item.eventId
    ensures LoadState(protocol, s1) == if q.items == [] then Some(q.(next := q.next + 1)) else None
  {
    EnqueuedValid(protocol, store, q, item);
    s1 := MarkerStage(protocol, store, q, item);
    MarkerOnlyLoad(protocol, s1, q);
  }

  lemma ReusedIdPlan(protocol: Protocol, store: Store, q: Queue, item: Item, s2: Store)
    requires ValidQueue(protocol, q) && ValidQueue(protocol, Enqueued(q, item)) && item.localSequence == q.next
    requires SequenceKey(q.next) !in store && KeyOf(item) !in store && item.eventId !in Ids(q.items)
    requires s2 == store[SequenceKey(q.next) := MarkerOf(item)][KeyOf(item) := ItemRecord(item)]
    requires LoadFromRecords(protocol, s2) == Unreadable
    ensures CommitPlan(protocol, store, q, Enqueued(q, item))
            == Plan([Put(SequenceKey(q.next), MarkerOf(item)), Put(KeyOf(item), ItemRecord(item))], false)
  {
    EnqueueAdditions(store, q, item);
    var a, b := Put(SequenceKey(q.next), MarkerOf(item)), Put(KeyOf(item), ItemRecord(item));
    ApplyPair(store, a, b);
    assert Apply(store, []) == store;
    assert [] + [a, b] + [] == [a, b];
  }

  lemma NextSlotFree(protocol: Protocol, store: Store, q: Queue, item: Item)
    requires LoadState(protocol, store) == Some(q) && item.localSequence == q.next
    ensures ValidQueue(protocol, q) && SequenceKey(q.next) !in store && KeyOf(item) !in store
  {
    LoadedIsAssembled(protocol, store);
    KeyIsMarked(protocol, store, item.localSequence, item.eventId);
  }

  /**
    Ids must be fresh. Enqueuing the id of an event that is long gone is not refused: it writes a second
    marker for the id, and from then on the queue does not load.
  */
  lemma ReusedIdBlocksQueue(protocol: Protocol, store: Store, q: Queue, item: Item, budget: nat)
    requires Healthy(protocol, store) && LoadState(protocol, store) == Some(q) && !q.status.Terminal()
    requires ValidItem(protocol, item) && item.localSequence == q.next < MAX_SAFE_INTEGER
    requires item.eventId !in Ids(q.items) && budget >= 2
    ensures LoadState(protocol, TryCommit(protocol, store, q, Enqueued(q, item), budget).0).Some?
            <==> !KnownId(store, item.eventId)
  {
    if KnownId(store, item.eventId) {
      NextSlotFree(protocol, store, q, item);
      AppendedValid(protocol, q, item);
      var a, b := Put(SequenceKey(q.next), MarkerOf(item)), Put(KeyOf(item), ItemRecord(item));
      var s2 := ApplyOne(ApplyOne(store, a), b);
      TwoMarkersUnreadable(protocol, store, s2, q.next, item.eventId);
      ReusedIdPlan(protocol, store, q, item, s2);
      ApplyPair(store, a, b);
    } else {
      EnqueueEffect(protocol, store, q, item, budget);
    }
  }

  lemma TwoMarkersUnreadable(protocol: Protocol, store: Store, after: Store, n: nat, e: string)
    requires KnownId(store, e) && SequenceKey(n) !in store
    requires forall k :: k in store ==> k in after && after[k] == store[k]
    requires Marked(after, n, e)
    ensures LoadFromRecords(protocol, after) == Unreadable && LoadState(protocol, after) == None
  {
    var m: nat :| Marked(store, m, e);
    assert SequenceKey(m) in after && SequenceKey(n) in after && m != n;
    assert !MarkersReadable(after);
  }

  lemma MarkerOnlyLoad(protocol: Protocol, s1: Store, q: Queue)
    requires RecordsReadable(protocol, s1) && Assembled(protocol, s1) == q.(next := q.next + 1)
             && ValidQueue(protocol, q)
    requires q.next < MAX_SAFE_INTEGER
    ensures LoadState(protocol, s1) == if q.items == [] then Some(q.(next := q.next + 1)) else None
  {
    var q1 := q.(next := q.next + 1);
    if q.items == [] {
      LoadsAs(protocol, s1, q1);
    } else {
      assert q1.items[0].localSequence + |q1.items| != q1.next;
      assert !ValidQueue(protocol, q1);
    }
  }

  // ---------------------------------------------------------------- dequeue

  lemma DequeueRemovals(protocol: Protocol, q: Queue)
    requires ValidQueue(protocol, q) && q.items != []
    ensures RemovalWrites(q.items, Ids(q.items[1..]))
            == [Remove(KeyOf(q.items[0])), Remove(TerminalKey(q.items[0].eventId))]
  {
    HeadGone(protocol, q);
    NothingRemoved(q.items[1..], Ids(q.items[1..]));
  }

  lemma DequeueAdditions(store: Store, items: seq<Item>)
    requires items != []
    ensures AdditionPlan(store, items[1..], Ids(items)) == Plan([], true)
  {
    assert forall i :: i in items[1..] ==> i in items;
    NothingAdded(store, items[1..], Ids(items));
  }

  lemma DequeuePlan(protocol: Protocol, store: Store, q: Queue, s2: Store)
    requires ValidQueue(protocol, q) && q.items != [] && ValidQueue(protocol, Dequeued(q))
    requires s2 == store - {KeyOf(q.items[0])} - {TerminalKey(q.items[0].eventId)}
    requires FinishPlan(protocol, s2, Dequeued(q)) == Plan([Put(MetaKey, MetaRecord(q.next, q.cache))], true)
    ensures CommitPlan(protocol, store, q, Dequeued(q))
            == Plan([Remove(KeyOf(q.items[0])), Remove(TerminalKey(q.items[0].eventId)),
                     Put(MetaKey, MetaRecord(q.next, q.cache))], true)
  {
    DequeueRemovals(protocol, q);
    var a, b := Remove(KeyOf(q.items[0])), Remove(TerminalKey(q.items[0].eventId));
    ApplyPair(store, a, b);
    DequeueAdditions(s2, q.items);
    var c := Put(MetaKey, MetaRecord(q.next, q.cache));
    assert Apply(s2, []) == s2;
    PlanOfParts(protocol, store, q, Dequeued(q), [a, b], [], [c]);
    assert [a, b] + [] + [c] == [a, b, c];
  }

  lemma DequeuedValid(protocol: Protocol, q: Queue)
    requires ValidQueue(protocol, q) && q.items != []
    ensures ValidQueue(protocol, Dequeued(q))
  {}

  lemma HeadStage(protocol: Protocol, store: Store, q: Queue) returns (s1: Store)
    requires Healthy(protocol, store) && LoadState(protocol, store) == Some(q) && q.items != []
    ensures ValidQueue(protocol, q) && ValidQueue(protocol, Dequeued(q))
    ensures s1 == store - {KeyOf(q.items[0])} && Healthy(protocol, s1)
    ensures Assembled(protocol, s1) == Dequeued(q) && LoadState(protocol, s1) == Some(Dequeued(q))
    ensures forall e :: KnownId(s1, e) <==> KnownId(store, e)
  {
    LoadedIsAssembled(protocol, store);
    DequeuedValid(protocol, q);
    s1 := AfterHeadRemoved(protocol, store);
    LoadsAs(protocol, s1, Dequeued(q));
  }

  lemma ClearStage(protocol: Protocol, s1: Store, q: Queue) returns (s2: Store)
    requires ValidQueue(protocol, q) && q.items != []
    requires Healthy(protocol, s1) && Assembled(protocol, s1) == Dequeued(q)
    ensures s2 == s1 - {TerminalKey(q.items[0].eventId)} && Healthy(protocol, s2)
    ensures Assembled(protocol, s2) == Dequeued(q) && LoadState(protocol, s2) == Some(Dequeued(q))
    ensures FinishPlan(protocol, s2, Dequeued(q)) == Plan([Put(MetaKey, MetaRecord(q.next, q.cache))], true)
    ensures forall e :: KnownId(s2, e) <==> KnownId(s1, e)
  {
    HeadGone(protocol, q);
    DequeuedValid(protocol, q);
    s2 := AfterVerdictRemoved(protocol, s1, q.items[0].eventId);
    LoadsAs(protocol, s2, Dequeued(q));
    FinishWhenDone(protocol, s2, Dequeued(q));
  }

  /** The stores a dequeue passes through, and its plan. */
  lemma DequeueStages(protocol: Protocol, store: Store, q: Queue, a: Write, b: Write, c: Write)
    requires Healthy(protocol, store) && LoadState(protocol, store) == Some(q) && q.items != []
    requires a == Remove(KeyOf(q.items[0])) && b == Remove(TerminalKey(q.items[0].eventId))
    requires c == Put(MetaKey, MetaRecord(q.next, q.cache))
    ensures ValidQueue(protocol, Dequeued(q))
    ensures CommitPlan(protocol, store, q, Dequeued(q)) == Plan([a, b, c], true)
    ensures var s1 := ApplyOne(store, a); var s2 := ApplyOne(s1, b); var s3 := ApplyOne(s2, c);
            Became(protocol, store, s1, Dequeued(q)) && Became(protocol, store, s2, Dequeued(q))
            && Became(protocol, store, s3, Dequeued(q))
  {
    var s1 := HeadStage(protocol, store, q);
    var s2 := ClearStage(protocol, s1, q);
    DequeuePlan(protocol, store, q, s2);
    var s3 := MetaStage(protocol, s2, Dequeued(q), q.next, q.cache);
  }

  /** A dequeue cut short loads as the old state or as the new one. */
  lemma DequeueEffect(protocol: Protocol, store: Store, q: Queue, budget: nat)
    requires Healthy(protocol, store) && LoadState(protocol, store) == Some(q) && q.items != []
    ensures var (after, r) := TryCommit(protocol, store, q, Dequeued(q), budget);
            && Became(protocol, store, after, if budget == 0 then q else Dequeued(q))
            && (budget == 0 ==> after == store)
            && r == (if budget >= 3 then Some(Dequeued(q)) else None)
  {
    var a, b := Remove(KeyOf(q.items[0])), Remove(TerminalKey(q.items[0].eventId));
    var c := Put(MetaKey, MetaRecord(q.next, q.cache));
    DequeueStages(protocol, store, q, a, b, c);
    ThreeWriteOutcome(protocol, store, q, Dequeued(q), a, b, c, budget);
  }

  lemma HeadGone(protocol: Protocol, q: Queue)
    requires ValidQueue(protocol, q) && q.items != []
    ensures forall i :: i in q.items[1..] ==> i.eventId != q.items[0].eventId
  {}

  // ---------------------------------------------------------------- verdict and refresh

  lemma UnchangedItemsPlan(protocol: Protocol, store: Store, q: Queue, next: Queue)
    requires LoadState(protocol, store) == Some(q) && ValidQueue(protocol, next) && next.items == q.items
    ensures CommitPlan(protocol, store, q, next) == Plan(VerdictWrite(store, q, next) + [MetaWrite(q, next)], true)
  {
    SameItemsWrites(store, q.items);
    FinishOfLoaded(protocol, store, q, next);
    PlanOfParts(protocol, store, q, next, [], [], VerdictWrite(store, q, next) + [MetaWrite(q, next)]);
    NothingBefore(VerdictWrite(store, q, next) + [MetaWrite(q, next)]);
  }

  /** Between lists of the same items nothing is removed and nothing added. */
  lemma SameItemsWrites(store: Store, items: seq<Item>)
    ensures RemovalWrites(items, Ids(items)) == [] && Apply(store, []) == store
    ensures AdditionPlan(store, items, Ids(items)) == Plan([], true)
  {
    NothingRemoved(items, Ids(items));
    NothingAdded(store, items, Ids(items));
  }

  lemma FinishOfLoaded(protocol: Protocol, store: Store, q: Queue, next: Queue)
    requires LoadState(protocol, store) == Some(q)
    ensures ValidQueue(protocol, q)
    ensures FinishPlan(protocol, store, next) == Plan(VerdictWrite(store, q, next) + [MetaWrite(q, next)], true)
  {
    LoadedIsAssembled(protocol, store);
    LoadsAs(protocol, store, q);
  }

  lemma NothingBefore(ws: seq<Write>)
    ensures [] + [] + ws == ws
  {}

  /** A commit that only rewrites the meta record. */
  lemma MetaOnlyEffect(protocol: Protocol, store: Store, q: Queue, next: Queue, cache: Option<Cache>, budget: nat)
    requires Healthy(protocol, store) && LoadState(protocol, store) == Some(q)
    requires ValidQueue(protocol, next) && ValidQueue(protocol, q.(cache := cache))
    requires CommitPlan(protocol, store, q, next) == Plan([Put(MetaKey, MetaRecord(q.next, cache))], true)
    ensures var (after, r) := TryCommit(protocol, store, q, next, budget);
            && Healthy(protocol, after)
            && (budget == 0 ==> after == store && r == None)
            && (budget >= 1 ==> LoadState(protocol, after) == Some(q.(cache := cache)) && r == Some(q.(cache := cache)))
            && (forall e :: KnownId(after, e) <==> KnownId(store, e))
  {
    LoadedIsAssembled(protocol, store);
    var c := Put(MetaKey, MetaRecord(q.next, cache));
    CommitOutcome(protocol, store, q, next, [c], budget);
    ApplyShort(store, c, c, c);
    CutShort(c, c, c, budget);
    var s1 := MetaStage(protocol, store, q, q.next, cache);
  }

  lemma NoVerdictDue(protocol: Protocol, store: Store, q: Queue, next: Queue)
    requires LoadState(protocol, store) == Some(q) && (q.status.Terminal() || !next.status.Terminal())
    ensures VerdictWrite(store, q, next) == []
  {
    LoadedIsAssembled(protocol, store);
  }

  lemma NoVerdictPlan(protocol: Protocol, store: Store, q: Queue, next: Queue)
    requires LoadState(protocol, store) == Some(q) && ValidQueue(protocol, next)
    requires next.items == q.items && next.next == q.next
    requires q.status.Terminal() || !next.status.Terminal()
    ensures CommitPlan(protocol, store, q, next)
            == Plan([Put(MetaKey, MetaRecord(q.next, MergedCache(q.cache, next.cache)))], true)
  {
    UnchangedItemsPlan(protocol, store, q, next);
    NoVerdictDue(protocol, store, q, next);
    assert [] + [MetaWrite(q, next)] == [MetaWrite(q, next)];
  }

  lemma FirstVerdictPlan(protocol: Protocol, store: Store, q: Queue, verdict: SyncStatus)
    requires LoadState(protocol, store) == Some(q) && q.items != [] && verdict.Terminal() && !q.status.Terminal()
    ensures ValidQueue(protocol, q.(status := verdict)) && TerminalKey(q.items[0].eventId) !in store
    ensures CommitPlan(protocol, store, q, q.(status := verdict))
            == Plan([Put(TerminalKey(q.items[0].eventId), TerminalRecord(q.items[0].eventId, verdict)),
                     Put(MetaKey, MetaRecord(q.next, q.cache))], true)
  {
    var next := q.(status := verdict);
    FirstVerdictDue(protocol, store, q, verdict);
    FirstVerdictWrites(store, q, verdict);
    UnchangedItemsPlan(protocol, store, q, next);
  }

  lemma FirstVerdictWrites(store: Store, q: Queue, verdict: SyncStatus)
    requires q.items != [] && VerdictDue(store, q, q.(status := verdict))
    ensures VerdictWrite(store, q, q.(status := verdict)) + [MetaWrite(q, q.(status := verdict))]
            == [Put(TerminalKey(q.items[0].eventId), TerminalRecord(q.items[0].eventId, verdict)),
                Put(MetaKey, MetaRecord(q.next, q.cache))]
  {
    var a := Put(TerminalKey(q.items[0].eventId), TerminalRecord(q.items[0].eventId, verdict));
    var c := Put(MetaKey, MetaRecord(q.next, q.cache));
    assert [a] + [c] == [a, c];
  }

  lemma FirstVerdictDue(protocol: Protocol, store: Store, q: Queue, verdict: SyncStatus)
    requires LoadState(protocol, store) == Some(q) && q.items != [] && verdict.Terminal() && !q.status.Terminal()
    ensures ValidQueue(protocol, q.(status := verdict)) && TerminalKey(q.items[0].eventId) !in store
    ensures VerdictDue(store, q, q.(status := verdict))
  {
    LoadedIsAssembled(protocol, store);
  }

  lemma VerdictStage(protocol: Protocol, store: Store, q: Queue, verdict: SyncStatus) returns (s1: Store)
    requires Healthy(protocol, store) && LoadState(protocol, store) == Some(q) && q.items != [] && verdict.Terminal()
    requires TerminalKey(q.items[0].eventId) !in store && ValidQueue(protocol, q.(status := verdict))
    ensures s1 == store[TerminalKey(q.items[0].eventId) := TerminalRecord(q.items[0].eventId, verdict)]
    ensures Healthy(protocol, s1) && Assembled(protocol, s1) == q.(status := verdict)
    ensures LoadState(protocol, s1) == Some(q.(status := verdict))
    ensures forall e :: KnownId(s1, e) <==> KnownId(store, e)
  {
    LoadedIsAssembled(protocol, store);
    s1 := AfterVerdict(protocol, store, verdict);
    LoadsAs(protocol, s1, q.(status := verdict));
  }

  lemma FirstVerdictEffect(protocol: Protocol, store: Store, q: Queue, verdict: SyncStatus, budget: nat)
    requires Healthy(protocol, store) && LoadState(protocol, store) == Some(q) && q.items != [] && verdict.Terminal()
    requires !q.status.Terminal()
    ensures var (after, r) := TryCommit(protocol, store, q, q.(status := verdict), budget);
            && Healthy(protocol, after)
            && (budget == 0 ==> after == store)
            && (budget >= 1 ==> LoadState(protocol, after) == Some(q.(status := verdict)))
            && (r.Some? ==> budget >= 1 && r == LoadState(protocol, after))
            && (forall e :: KnownId(after, e) <==> KnownId(store, e))
  {
    var next := q.(status := verdict);
    FirstVerdictPlan(protocol, store, q, verdict);
    var e := q.items[0].eventId;
    var a, c := Put(TerminalKey(e), TerminalRecord(e, verdict)), Put(MetaKey, MetaRecord(q.next, q.cache));
    CommitOutcome(protocol, store, q, next, [a, c], budget);
    ApplyShort(store, a, c, c);
    CutShort(a, c, c, budget);
    var s1 := VerdictStage(protocol, store, q, verdict);
    var s2 := MetaStage(protocol, s1, next, q.next, q.cache);
  }

  /** A verdict on the head sticks as soon as the first write is through; an earlier verdict is never replaced. */
  lemma VerdictEffect(protocol: Protocol, store: Store, q: Queue, verdict: SyncStatus, budget: nat)
    requires Healthy(protocol, store) && LoadState(protocol, store) == Some(q) && q.items != [] && verdict.Terminal()
    ensures var (after, r) := TryCommit(protocol, store, q, q.(status := verdict), budget);
            && Became(protocol, store, after, if budget == 0 || q.status.Terminal() then q else q.(status := verdict))
            && (budget == 0 ==> after == store)
            && (r.Some? ==> r == LoadState(protocol, after))
  {
    if q.status.Terminal() {
      LoadedIsAssembled(protocol, store);
      NoVerdictPlan(protocol, store, q, q.(status := verdict));
      MetaOnlyEffect(protocol, store, q, q.(status := verdict), q.cache, budget);
    } else {
      FirstVerdictEffect(protocol, store, q, verdict, budget);
    }
  }

  lemma RecachedValid(protocol: Protocol, store: Store, q: Queue, cache: Cache)
    requires LoadState(protocol, store) == Some(q) && cache.projectionRevision <= MAX_SAFE_INTEGER
    ensures ValidQueue(protocol, q.(cache := Some(cache)))
    ensures ValidQueue(protocol, q.(cache := MergedCache(q.cache, Some(cache))))
    ensures q.status.Terminal() || !q.(cache := Some(cache)).status.Terminal()
  {
    LoadedIsAssembled(protocol, store);
  }

  lemma RefreshEffect(protocol: Protocol, store: Store, q: Queue, cache: Cache, budget: nat)
    requires Healthy(protocol, store) && LoadState(protocol, store) == Some(q)
    requires cache.projectionRevision <= MAX_SAFE_INTEGER
    ensures var (after, r) := TryCommit(protocol, store, q, q.(cache := Some(cache)), budget);
            && Became(protocol, store, after, if budget == 0 then q else Refreshed(q, cache))
            && (budget == 0 ==> after == store)
            && r == (if budget == 0 then None else Some(Refreshed(q, cache)))
  {
    RecachedValid(protocol, store, q, cache);
    NoVerdictPlan(protocol, store, q, q.(cache := Some(cache)));
    MetaOnlyEffect(protocol, store, q, q.(cache := Some(cache)), MergedCache(q.cache, Some(cache)), budget);
  }
}
