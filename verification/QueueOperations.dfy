/**
  The four commits the queue makes (enqueue, dequeue, verdict, cache refresh), each from the state it
  has just loaded, refined to what they do to an abstract queue, for every number of writes that the
  storage lets through (public/kiosk-offline-queue-v2.js, enqueue and the commits of replay).
*/
module QueueOperations {
  import opened Options
  import opened FieldProtocol
  import opened QueueRecords

  /** Verdicts are kept for the stored head or for events that are gone, never for a later item. */
  ghost predicate TerminalPlaced(store: Store, e: string) {
    && TerminalReadable(store, e) && KnownId(store, e)
    && (forall i, j :: Stored(store, i) && Stored(store, j) && i.eventId == e ==> i.localSequence <= j.localSequence)
  }

  /** The invariant of the records, kept by every operation and every interrupted operation. */
  ghost predicate Healthy(protocol: Protocol, store: Store) {
    && RecordsReadable(protocol, store)
    && (forall e :: TerminalKey(e) in store ==> TerminalPlaced(store, e))
  }

  lemma EmptyHealthy(protocol: Protocol)
    ensures Healthy(protocol, map[]) && LoadState(protocol, map[]) == Some(INITIAL)
  {
    ItemsAre(protocol, map[], []);
  }

  lemma StoredIdsDistinct(protocol: Protocol, store: Store, i: Item, j: Item)
    requires MarkersReadable(store) && ItemsReadable(protocol, store)
    requires Stored(store, i) && Stored(store, j) && (i.eventId == j.eventId || i.localSequence == j.localSequence)
    ensures i == j
  {
    assert ItemReadable(protocol, store, i.localSequence, i.eventId);
    assert ItemReadable(protocol, store, j.localSequence, j.eventId);
  }

  lemma DistinctNumbers(protocol: Protocol, store: Store, i: Item, j: Item)
    requires MarkersReadable(store) && ItemsReadable(protocol, store) && Stored(store, i) && Stored(store, j) && i != j
    ensures i.localSequence != j.localSequence
  {
    if i.localSequence == j.localSequence { StoredIdsDistinct(protocol, store, i, j); }
  }

  // ---------------------------------------------------------------- one write at a time

  /** `i` was stored before, or is new, later than all others, and without a verdict. */
  ghost predicate StoredOrLatest(store: Store, after: Store, i: Item) {
    Stored(store, i)
    || (TerminalKey(i.eventId) !in after && forall j :: Stored(after, j) ==> j.localSequence <= i.localSequence)
  }

  /** Verdicts stay well placed when none is added and items only leave or join at the end. */
  lemma TerminalsStay(store: Store, after: Store)
    requires forall e :: TerminalKey(e) in store ==> TerminalPlaced(store, e)
    requires forall e ::
               TerminalKey(e) in after ==> TerminalKey(e) in store && after[TerminalKey(e)] == store[TerminalKey(e)]
    requires forall e :: KnownId(store, e) ==> KnownId(after, e)
    requires forall i :: Stored(after, i) ==> StoredOrLatest(store, after, i)
    ensures forall e :: TerminalKey(e) in after ==> TerminalPlaced(after, e)
  {
    forall e | TerminalKey(e) in after ensures TerminalPlaced(after, e) {
      assert TerminalPlaced(store, e);
      forall i, j | Stored(after, i) && Stored(after, j) && i.eventId == e
        ensures i.localSequence <= j.localSequence
      {
        assert StoredOrLatest(store, after, i) && StoredOrLatest(store, after, j);
      }
    }
  }

  lemma MarkersWithOneMore(store: Store, after: Store, n: nat, e: string)
    requires MarkersReadable(store) && SequenceKey(n) !in store && n <= MAX_SAFE_INTEGER && e != ""
             && !KnownId(store, e)
    requires after == store[SequenceKey(n) := MarkerRecord(n, e)]
    ensures MarkersReadable(after)
    ensures forall d :: KnownId(after, d) <==> KnownId(store, d) || d == e
  {
    forall m: nat | SequenceKey(m) in after && m != n
      ensures MarkerReadable(after, m) && after[SequenceKey(m)].eventId != e
    {
      assert SequenceKey(m) in store && MarkerReadable(store, m);
      assert Marked(store, m, store[SequenceKey(m)].eventId);
    }
    forall d ensures KnownId(after, d) <==> KnownId(store, d) || d == e {
      if KnownId(store, d) { var m: nat :| Marked(store, m, d); assert Marked(after, m, d); }
      if d == e { assert Marked(after, n, d); }
      if KnownId(after, d) { var m: nat :| Marked(after, m, d); assert m == n || Marked(store, m, d); }
    }
  }

  lemma AfterMarker(protocol: Protocol, store: Store, n: nat, e: string) returns (after: Store)
    requires Healthy(protocol, store)
    requires SequenceKey(n) !in store && n <= MAX_SAFE_INTEGER && e != "" && !KnownId(store, e)
    ensures after == store[SequenceKey(n) := MarkerRecord(n, e)]
    ensures Healthy(protocol, after)
    ensures ItemsOf(protocol, after) == ItemsOf(protocol, store)
    ensures StatusOf(after, ItemsOf(protocol, after)) == StatusOf(store, ItemsOf(protocol, store))
    ensures CacheOf(after) == CacheOf(store)
    ensures NextOf(after) == if NextOf(store) <= n then n + 1 else NextOf(store)
    ensures forall d :: KnownId(after, d) <==> KnownId(store, d) || d == e
  {
    after := store[SequenceKey(n) := MarkerRecord(n, e)];
    MarkersWithOneMore(store, after, n, e);
    ItemsUnderMoreMarkers(protocol, store, after);
    SameHeadStatus(store, after, ItemsOf(protocol, store));
    FewerVerdictsPlaced(store, after);
    NextAfterMarker(store, after, n);
  }

  lemma ItemsUnderMoreMarkers(protocol: Protocol, store: Store, after: Store)
    requires ItemsReadable(protocol, store)
    requires forall k :: k in store ==> k in after && after[k] == store[k]
    requires forall k :: k in after && k.ItemKey? ==> k in store
    ensures ItemsReadable(protocol, after) && ItemsOf(protocol, after) == ItemsOf(protocol, store)
    ensures forall i :: Stored(after, i) <==> Stored(store, i)
  {
    forall m: nat, d | ItemKey(m, d) in after ensures ItemReadable(protocol, after, m, d) {
      assert ItemReadable(protocol, store, m, d);
    }
    assert forall i :: Stored(after, i) <==> Stored(store, i);
    ItemsAre(protocol, after, ItemsOf(protocol, store));
  }

  lemma NextAfterMarker(store: Store, after: Store, n: nat)
    requires MetaReadable(store) && MetaReadable(after)
    requires after.Keys == store.Keys + {SequenceKey(n)} && SequenceKey(n) !in store
    requires MetaKey in store ==> after[MetaKey] == store[MetaKey]
    ensures NextOf(after) == if NextOf(store) <= n then n + 1 else NextOf(store)
  {
    assert SequenceKey(n) in after;
    var b := NextOf(store);
    if b > 0 && SequenceKey(b - 1) in store { assert SequenceKey(b - 1) in after; }
    var c := NextOf(after);
    if SequenceKey(c - 1) in after { assert c - 1 == n || SequenceKey(c - 1) in store; }
  }

  lemma SameNext(store: Store, after: Store)
    requires MetaReadable(store) && MetaReadable(after)
    requires forall n: nat :: SequenceKey(n) in store <==> SequenceKey(n) in after
    requires MetaKey in store <==> MetaKey in after
    requires MetaKey in store ==> after[MetaKey] == store[MetaKey]
    ensures NextOf(after) == NextOf(store) && CacheOf(after) == CacheOf(store)
  {
    var b, c := NextOf(store), NextOf(after);
    if b > 0 && SequenceKey(b - 1) in store { assert SequenceKey(b - 1) in after; }
    if c > 0 && SequenceKey(c - 1) in after { assert SequenceKey(c - 1) in store; }
  }

  /** Markers are the same records in both stores. */
  ghost predicate SameMarkers(store: Store, after: Store) {
    && (forall n: nat :: SequenceKey(n) in store <==> SequenceKey(n) in after)
    && (forall n: nat :: SequenceKey(n) in store ==> store[SequenceKey(n)] == after[SequenceKey(n)])
  }

  lemma SameMarkersKnow(store: Store, after: Store)
    requires SameMarkers(store, after)
    ensures forall e :: KnownId(after, e) <==> KnownId(store, e)
    ensures MarkersReadable(store) ==> MarkersReadable(after)
  {
    forall e ensures KnownId(after, e) <==> KnownId(store, e) {
      if KnownId(store, e) { var m: nat :| Marked(store, m, e); assert Marked(after, m, e); }
      if KnownId(after, e) { var m: nat :| Marked(after, m, e); assert Marked(store, m, e); }
    }
    if MarkersReadable(store) {
      forall n: nat | SequenceKey(n) in after ensures MarkerReadable(after, n) {
        assert MarkerReadable(store, n);
      }
    }
  }

  lemma AfterItem(protocol: Protocol, store: Store, item: Item) returns (after: Store)
    requires Healthy(protocol, store) && ValidItem(protocol, item)
    requires Marked(store, item.localSequence, item.eventId) && KeyOf(item) !in store
    requires TerminalKey(item.eventId) !in store
    requires forall i :: Stored(store, i) ==> i.localSequence < item.localSequence
    ensures after == store[KeyOf(item) := ItemRecord(item)]
    ensures Healthy(protocol, after)
    ensures ItemsOf(protocol, after) == ItemsOf(protocol, store) + [item]
    ensures CacheOf(after) == CacheOf(store) && NextOf(after) == NextOf(store)
    ensures StatusOf(after, ItemsOf(protocol, after))
            == if ItemsOf(protocol, store) == [] then Pending else StatusOf(store, ItemsOf(protocol, store))
    ensures forall e :: KnownId(after, e) <==> KnownId(store, e)
  {
    after := store[KeyOf(item) := ItemRecord(item)];
    SameMarkersKnow(store, after);
    ItemsWithOneMore(protocol, store, after, item);
    SameNext(store, after);
    LatestPlaced(store, after, item);
    StatusWithOneMore(protocol, store, after, item);
  }

  lemma ItemsWithOneMore(protocol: Protocol, store: Store, after: Store, item: Item)
    requires ItemsReadable(protocol, store) && ValidItem(protocol, item)
    requires Marked(store, item.localSequence, item.eventId) && KeyOf(item) !in store
    requires forall i :: Stored(store, i) ==> i.localSequence < item.localSequence
    requires after == store[KeyOf(item) := ItemRecord(item)]
    ensures ItemsReadable(protocol, after) && ItemsOf(protocol, after) == ItemsOf(protocol, store) + [item]
    ensures forall i :: Stored(after, i) <==> Stored(store, i) || i == item
  {
    forall m: nat, d | ItemKey(m, d) in after ensures ItemReadable(protocol, after, m, d) {
      if ItemKey(m, d) in store { assert ItemReadable(protocol, store, m, d); }
    }
    var items := ItemsOf(protocol, store);
    assert forall i :: Stored(after, i) <==> Stored(store, i) || i == item;
    assert forall i :: i in items + [item] <==> i in items || i == item;
    AppendAscending(items, item);
    ItemsAre(protocol, after, items + [item]);
  }

  lemma LatestPlaced(store: Store, after: Store, item: Item)
    requires forall e :: TerminalKey(e) in store ==> TerminalPlaced(store, e)
    requires after == store[KeyOf(item) := ItemRecord(item)] && TerminalKey(item.eventId) !in store
    requires forall e :: KnownId(after, e) <==> KnownId(store, e)
    requires forall i :: Stored(store, i) ==> i.localSequence < item.localSequence
    requires forall i :: Stored(after, i) <==> Stored(store, i) || i == item
    ensures forall e :: TerminalKey(e) in after ==> TerminalPlaced(after, e)
  {
    TerminalsStay(store, after);
  }

  lemma StatusWithOneMore(protocol: Protocol, store: Store, after: Store, item: Item)
    requires ItemsReadable(protocol, store) && HeadTerminalReadable(store, ItemsOf(protocol, store))
    requires after == store[KeyOf(item) := ItemRecord(item)] && TerminalKey(item.eventId) !in store
    requires ItemsReadable(protocol, after) && ItemsOf(protocol, after) == ItemsOf(protocol, store) + [item]
    ensures HeadTerminalReadable(after, ItemsOf(protocol, after))
    ensures StatusOf(after, ItemsOf(protocol, after))
            == if ItemsOf(protocol, store) == [] then Pending else StatusOf(store, ItemsOf(protocol, store))
  {}

  lemma SameHeadStatus(store: Store, after: Store, items: seq<Item>)
    requires HeadTerminalReadable(store, items)
    requires items != [] ==> (TerminalKey(items[0].eventId) in store <==> TerminalKey(items[0].eventId) in after)
    requires forall k :: k in store && k in after && k.TerminalKey? ==> store[k] == after[k]
    ensures HeadTerminalReadable(after, items) && StatusOf(after, items) == StatusOf(store, items)
  {}

  lemma FewerVerdictsPlaced(store: Store, after: Store)
    requires forall e :: TerminalKey(e) in store ==> TerminalPlaced(store, e)
    requires forall k :: k in after && k.TerminalKey? ==> k in store && after[k] == store[k]
    requires forall e :: KnownId(store, e) ==> KnownId(after, e)
    requires forall i :: Stored(after, i) ==> Stored(store, i)
    ensures forall e :: TerminalKey(e) in after ==> TerminalPlaced(after, e)
  {
    TerminalsStay(store, after);
  }

  lemma ItemsWithoutHead(protocol: Protocol, store: Store, after: Store)
    requires MarkersReadable(store) && ItemsReadable(protocol, store) && ItemsOf(protocol, store) != []
    requires after == store - {KeyOf(ItemsOf(protocol, store)[0])}
    ensures ItemsReadable(protocol, after) && ItemsOf(protocol, after) == ItemsOf(protocol, store)[1..]
    ensures forall i :: Stored(after, i) ==> Stored(store, i)
  {
    var items := ItemsOf(protocol, store);
    var head := items[0];
    assert head in items && Stored(store, head);
    forall m: nat, d | ItemKey(m, d) in after ensures ItemReadable(protocol, after, m, d) {
      assert ItemReadable(protocol, store, m, d);
    }
    forall i ensures i in items[1..] <==> Stored(after, i) {
      TailMembers(items, i);
      if Stored(store, i) && KeyOf(i) == KeyOf(head) { StoredIdsDistinct(protocol, store, i, head); }
    }
    ItemsAre(protocol, after, items[1..]);
  }

  lemma AppendAscending(items: seq<Item>, item: Item)
    requires Ascending(items) && forall i :: i in items ==> i.localSequence < item.localSequence
    ensures Ascending(items + [item])
  {
    forall i, j | 0 <= i < j < |items| + 1
      ensures (items + [item])[i].localSequence < (items + [item])[j].localSequence
    {
      assert items[i] in items;
    }
  }

  lemma AfterMeta(protocol: Protocol, store: Store, next: nat, cache: Option<Cache>) returns (after: Store)
    requires Healthy(protocol, store) && NextOf(store) <= next <= MAX_SAFE_INTEGER
    requires cache.Some? ==> cache.value.projectionRevision <= MAX_SAFE_INTEGER
    ensures after == store[MetaKey := MetaRecord(next, cache)]
    ensures Healthy(protocol, after)
    ensures ItemsOf(protocol, after) == ItemsOf(protocol, store)
    ensures StatusOf(after, ItemsOf(protocol, after)) == StatusOf(store, ItemsOf(protocol, store))
    ensures CacheOf(after) == cache && NextOf(after) == next
    ensures forall e :: KnownId(after, e) <==> KnownId(store, e)
  {
    after := store[MetaKey := MetaRecord(next, cache)];
    SameMarkersKnow(store, after);
    KeepItems(protocol, store, after);
    if NextOf(after) > 0 && SequenceKey(NextOf(after) - 1) in after {
      assert SequenceKey(NextOf(after) - 1) in store;
    }
    SameHeadStatus(store, after, ItemsOf(protocol, store));
    FewerVerdictsPlaced(store, after);
  }

  lemma KeepItems(protocol: Protocol, store: Store, after: Store)
    requires ItemsReadable(protocol, store) && SameMarkers(store, after)
    requires forall n: nat, e :: ItemKey(n, e) in store <==> ItemKey(n, e) in after
    requires forall n: nat, e :: ItemKey(n, e) in store ==> store[ItemKey(n, e)] == after[ItemKey(n, e)]
    ensures ItemsReadable(protocol, after) && ItemsOf(protocol, after) == ItemsOf(protocol, store)
    ensures forall i :: Stored(after, i) <==> Stored(store, i)
  {
    forall m: nat, d | ItemKey(m, d) in after ensures ItemReadable(protocol, after, m, d) {
      assert ItemReadable(protocol, store, m, d);
    }
    forall i ensures Stored(after, i) <==> Stored(store, i) {
      assert KeyOf(i) in store <==> KeyOf(i) in after;
    }
    ItemsAre(protocol, after, ItemsOf(protocol, store));
  }

  lemma HeadStored(protocol: Protocol, store: Store)
    requires ItemsReadable(protocol, store)
    ensures ItemsOf(protocol, store) != [] ==> Stored(store, ItemsOf(protocol, store)[0])
  {
    if ItemsOf(protocol, store) != [] { assert ItemsOf(protocol, store)[0] in ItemsOf(protocol, store); }
  }

  lemma HeadIsLowest(items: seq<Item>, i: Item)
    requires Ascending(items) && items != [] && i in items
    ensures items[0].localSequence <= i.localSequence
  {}

  lemma AfterVerdict(protocol: Protocol, store: Store, verdict: SyncStatus) returns (after: Store)
    requires Healthy(protocol, store) && verdict.Terminal() && ItemsOf(protocol, store) != []
    requires TerminalKey(ItemsOf(protocol, store)[0].eventId) !in store
    ensures var e := ItemsOf(protocol, store)[0].eventId; after == store[TerminalKey(e) := TerminalRecord(e, verdict)]
    ensures Healthy(protocol, after)
    ensures ItemsOf(protocol, after) == ItemsOf(protocol, store)
    ensures StatusOf(after, ItemsOf(protocol, after)) == verdict
    ensures CacheOf(after) == CacheOf(store) && NextOf(after) == NextOf(store)
    ensures forall d :: KnownId(after, d) <==> KnownId(store, d)
  {
    var items := ItemsOf(protocol, store);
    var head := items[0];
    after := store[TerminalKey(head.eventId) := TerminalRecord(head.eventId, verdict)];
    SameMarkersKnow(store, after);
    KeepItems(protocol, store, after);
    SameNext(store, after);
    assert head in items && Stored(store, head);
    assert Marked(store, head.localSequence, head.eventId);
    forall d | TerminalKey(d) in after ensures TerminalPlaced(after, d) {
      if d == head.eventId {
        forall i, j | Stored(after, i) && Stored(after, j) && i.eventId == d
          ensures i.localSequence <= j.localSequence
        {
          StoredIdsDistinct(protocol, store, i, head);
          HeadIsLowest(items, j);
        }
      } else {
        assert TerminalPlaced(store, d);
      }
    }
  }

  /** Taking out the head; a verdict on it may still lie there. */
  lemma AfterHeadRemoved(protocol: Protocol, store: Store) returns (after: Store)
    requires Healthy(protocol, store) && ItemsOf(protocol, store) != []
    ensures after == store - {KeyOf(ItemsOf(protocol, store)[0])}
    ensures Healthy(protocol, after)
    ensures ItemsOf(protocol, after) == ItemsOf(protocol, store)[1..]
    ensures CacheOf(after) == CacheOf(store) && NextOf(after) == NextOf(store)
    ensures StatusOf(after, ItemsOf(protocol, after)) == if |ItemsOf(protocol, store)| == 1 then Synced else Pending
    ensures forall e :: KnownId(after, e) <==> KnownId(store, e)
  {
    after := store - {KeyOf(ItemsOf(protocol, store)[0])};
    SameMarkersKnow(store, after);
    ItemsWithoutHead(protocol, store, after);
    SameNext(store, after);
    if |ItemsOf(protocol, store)| > 1 { SecondHasNoVerdict(protocol, store); }
    FewerVerdictsPlaced(store, after);
  }

  lemma VerdictOnLowest(protocol: Protocol, store: Store, i: Item, j: Item)
    requires Healthy(protocol, store) && TerminalKey(i.eventId) in store && Stored(store, i) && Stored(store, j)
    ensures i.localSequence <= j.localSequence
  {
    assert TerminalPlaced(store, i.eventId);
  }

  lemma PlacedIsKnown(protocol: Protocol, store: Store, e: string)
    requires Healthy(protocol, store)
    ensures TerminalKey(e) in store ==> KnownId(store, e)
  {
    if TerminalKey(e) in store { assert TerminalPlaced(store, e); }
  }

  lemma SecondHasNoVerdict(protocol: Protocol, store: Store)
    requires Healthy(protocol, store) && |ItemsOf(protocol, store)| > 1
    ensures TerminalKey(ItemsOf(protocol, store)[1].eventId) !in store
  {
    var items := ItemsOf(protocol, store);
    assert items[0] in items && items[1] in items;
    assert items[0].localSequence < items[1].localSequence;
    if TerminalKey(items[1].eventId) in store { VerdictOnLowest(protocol, store, items[1], items[0]); }
  }

  lemma AfterVerdictRemoved(protocol: Protocol, store: Store, e: string) returns (after: Store)
    requires Healthy(protocol, store) && forall i :: Stored(store, i) ==> i.eventId != e
    ensures after == store - {TerminalKey(e)}
    ensures Healthy(protocol, after)
    ensures ItemsOf(protocol, after) == ItemsOf(protocol, store)
    ensures StatusOf(after, ItemsOf(protocol, after)) == StatusOf(store, ItemsOf(protocol, store))
    ensures CacheOf(after) == CacheOf(store) && NextOf(after) == NextOf(store)
    ensures forall d :: KnownId(after, d) <==> KnownId(store, d)
  {
    after := store - {TerminalKey(e)};
    SameMarkersKnow(store, after);
    KeepItems(protocol, store, after);
    SameNext(store, after);
    HeadStored(protocol, store);
    SameHeadStatus(store, after, ItemsOf(protocol, store));
    FewerVerdictsPlaced(store, after);
  }
}
