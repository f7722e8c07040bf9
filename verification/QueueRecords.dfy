/**
  How the offline queue lies in localStorage (public/kiosk-offline-queue-v2.js, createBrowserQueueStorage):
  one record per sequence marker, item and terminal verdict, plus one meta record, reassembled on load.
*/
module QueueRecords {
  import opened Options
  import opened FieldProtocol

  datatype SyncStatus = Synced | Pending | Conflict | ReviewRequired {
    predicate Terminal() { this == Conflict || this == ReviewRequired }
  }

  datatype Cache = Cache(projectionRevision: nat, lastSyncedAt: string)

  /** The state validateQueueState speaks of. */
  datatype Queue = Queue(next: nat, status: SyncStatus, items: seq<Item>, cache: Option<Cache>)

  const INITIAL: Queue := Queue(0, Synced, [], None)

  datatype Key = SequenceKey(sequence: nat) | ItemKey(position: nat, eventId: string)
               | TerminalKey(event: string) | MetaKey

  /** A stored JSON text: one of the record shapes, or something that parses as none of them. */
  datatype Record = MarkerRecord(localSequence: nat, eventId: string) | ItemRecord(item: Item)
                  | TerminalRecord(verdictOn: string, verdict: SyncStatus)
                  | MetaRecord(nextLocalSequence: nat, cache: Option<Cache>) | Malformed

  type Store = map<Key, Record>

  function KeyOf(item: Item): Key { ItemKey(item.localSequence, item.eventId) }

  function MarkerOf(item: Item): Record { MarkerRecord(item.localSequence, item.eventId) }

  // ---------------------------------------------------------------- reading

  predicate MarkerReadable(store: Store, n: nat)
    requires SequenceKey(n) in store
  {
    var record := store[SequenceKey(n)];
    record.MarkerRecord? && record.localSequence == n && n <= MAX_SAFE_INTEGER && record.eventId != ""
  }

  ghost predicate MarkersReadable(store: Store) {
    && (forall n: nat :: SequenceKey(n) in store ==> MarkerReadable(store, n))
    && (forall m: nat, n: nat :: SequenceKey(m) in store && SequenceKey(n) in store && m != n ==>
          store[SequenceKey(m)].eventId != store[SequenceKey(n)].eventId)
  }

  predicate Marked(store: Store, n: nat, e: string) {
    SequenceKey(n) in store && store[SequenceKey(n)].MarkerRecord? && store[SequenceKey(n)].eventId == e
  }

  predicate ItemReadable(protocol: Protocol, store: Store, n: nat, e: string)
    requires ItemKey(n, e) in store
  {
    var record := store[ItemKey(n, e)];
    record.ItemRecord? && ValidItem(protocol, record.item) && KeyOf(record.item) == ItemKey(n, e) && Marked(store, n, e)
  }

  ghost predicate ItemsReadable(protocol: Protocol, store: Store) {
    forall n: nat, e :: ItemKey(n, e) in store ==> ItemReadable(protocol, store, n, e)
  }

  predicate MetaReadable(store: Store) {
    MetaKey in store ==>
      && store[MetaKey].MetaRecord? && store[MetaKey].nextLocalSequence <= MAX_SAFE_INTEGER
      && (store[MetaKey].cache.Some? ==> store[MetaKey].cache.value.projectionRevision <= MAX_SAFE_INTEGER)
  }

  predicate TerminalReadable(store: Store, e: string) {
    TerminalKey(e) in store ==>
      && store[TerminalKey(e)].TerminalRecord? && store[TerminalKey(e)].verdictOn == e
      && store[TerminalKey(e)].verdict.Terminal()
  }

  /** readTerminal for a readable key. */
  function TerminalOf(store: Store, e: string): Option<SyncStatus>
    requires TerminalReadable(store, e)
  {
    if TerminalKey(e) in store then Some(store[TerminalKey(e)].verdict) else None
  }

  predicate Stored(store: Store, item: Item) {
    KeyOf(item) in store && store[KeyOf(item)] == ItemRecord(item)
  }

  // ---------------------------------------------------------------- the items in order

  predicate Ascending(items: seq<Item>) {
    forall i, j :: 0 <= i < j < |items| ==> items[i].localSequence < items[j].localSequence
  }

  /** The ids of all sequence markers: every event that was ever enqueued here. */
  ghost predicate KnownId(store: Store, e: string) {
    exists n: nat :: Marked(store, n, e)
  }

  ghost function MarkerBound(s: set<nat>): (b: nat)
    ensures forall n :: n in s ==> n < b
    ensures b == 0 || b - 1 in s
  {
    if s == {} then 0
    else
      var n :| n in s;
      var b := MarkerBound(s - {n});
      assert forall m :: m in s ==> m == n || m in s - {n};
      if n < b then b else n + 1
  }

  ghost function MarkedSequences(store: Store): set<nat> {
    set k | k in store.Keys && k.SequenceKey? :: k.sequence
  }

  ghost function ItemsBelow(store: Store, n: nat): (items: seq<Item>)
    ensures Ascending(items)
    ensures forall i ::
              i in items ==> i.localSequence < n && Stored(store, i) && Marked(store, i.localSequence, i.eventId)
    ensures forall i ::
              Stored(store, i) && Marked(store, i.localSequence, i.eventId) && i.localSequence < n ==> i in items
  {
    if n == 0 then []
    else
      var below := ItemsBelow(store, n - 1);
      if SequenceKey(n - 1) in store && store[SequenceKey(n - 1)].MarkerRecord?
         && ItemKey(n - 1, store[SequenceKey(n - 1)].eventId) in store
         && store[ItemKey(n - 1, store[SequenceKey(n - 1)].eventId)].ItemRecord?
         && KeyOf(store[ItemKey(n - 1, store[SequenceKey(n - 1)].eventId)].item)
            == ItemKey(n - 1, store[SequenceKey(n - 1)].eventId)
      then below + [store[ItemKey(n - 1, store[SequenceKey(n - 1)].eventId)].item]
      else below
  }

  /** All stored items by rising localSequence. */
  ghost function ItemsOf(protocol: Protocol, store: Store): (items: seq<Item>)
    requires ItemsReadable(protocol, store)
    ensures Ascending(items)
    ensures forall i :: i in items <==> Stored(store, i)
    ensures forall i :: i in items ==> Marked(store, i.localSequence, i.eventId)
  {
    var items := ItemsBelow(store, MarkerBound(MarkedSequences(store)));
    assert forall i :: Stored(store, i) ==> i in items by {
      forall i | Stored(store, i) ensures i in items {
        assert ItemReadable(protocol, store, i.localSequence, i.eventId);
        assert i.localSequence in MarkedSequences(store);
      }
    }
    items
  }

  /** An item key leads to a marker. */
  lemma KeyIsMarked(protocol: Protocol, store: Store, n: nat, e: string)
    requires ItemsReadable(protocol, store)
    ensures ItemKey(n, e) in store ==> Marked(store, n, e)
  {
    if ItemKey(n, e) in store { assert ItemReadable(protocol, store, n, e); }
  }

  lemma HeadMember<T>(a: seq<T>)
    requires a != []
    ensures a[0] in a
  {}

  lemma {:induction false} AscendingUnique(a: seq<Item>, b: seq<Item>)
    requires Ascending(a) && Ascending(b)
    requires forall i :: i in a <==> i in b
    ensures a == b
  {
    if a == [] {
      if b != [] { HeadMember(b); }
    } else {
      assert a[0] in b;
      assert b[0] in a;
      assert a[0] == b[0];
      forall i ensures i in a[1..] <==> i in b[1..] {
        TailMembers(a, i);
        TailMembers(b, i);
      }
      AscendingUnique(a[1..], b[1..]);
      assert a == [a[0]] + a[1..] && b == [b[0]] + b[1..];
    }
  }

  lemma TailMembers(a: seq<Item>, i: Item)
    requires a != [] && Ascending(a)
    ensures i in a[1..] <==> i in a && i != a[0]
  {
    if i in a && i != a[0] {
      var k :| 0 <= k < |a| && a[k] == i;
      assert a[1..][k - 1] == i;
    }
    if i in a[1..] {
      var k :| 0 <= k < |a[1..]| && a[1..][k] == i;
      assert a[0].localSequence < a[k + 1].localSequence;
    }
  }

  /** The way to find out what ItemsOf is: guess, and check order and membership. */
  lemma ItemsAre(protocol: Protocol, store: Store, items: seq<Item>)
    requires ItemsReadable(protocol, store) && Ascending(items)
    requires forall i :: i in items <==> Stored(store, i)
    ensures ItemsOf(protocol, store) == items
  {
    AscendingUnique(ItemsOf(protocol, store), items);
  }

  // ---------------------------------------------------------------- loadFromRecords and loadState

  ghost function NextOf(store: Store): (next: nat)
    requires MetaReadable(store)
    ensures forall n: nat :: SequenceKey(n) in store ==> n < next
    ensures MetaKey in store ==> store[MetaKey].nextLocalSequence <= next
    ensures next == 0 || SequenceKey(next - 1) in store
            || (MetaKey in store && store[MetaKey].nextLocalSequence == next)
  {
    var b := MarkerBound(MarkedSequences(store));
    assert forall n: nat :: SequenceKey(n) in store ==> n in MarkedSequences(store);
    if MetaKey in store && b < store[MetaKey].nextLocalSequence then store[MetaKey].nextLocalSequence else b
  }

  function CacheOf(store: Store): Option<Cache>
    requires MetaReadable(store)
  {
    if MetaKey in store then store[MetaKey].cache else None
  }

  ghost predicate HeadTerminalReadable(store: Store, items: seq<Item>) {
    items != [] ==> TerminalReadable(store, items[0].eventId)
  }

  ghost function StatusOf(store: Store, items: seq<Item>): SyncStatus
    requires HeadTerminalReadable(store, items)
  {
    if items == [] then Synced
    else match TerminalOf(store, items[0].eventId) case Some(v) => v case None => Pending
  }

  datatype Loaded = Nothing | Records(queue: Queue) | Unreadable

  ghost predicate RecordsReadable(protocol: Protocol, store: Store) {
    && MarkersReadable(store) && ItemsReadable(protocol, store) && MetaReadable(store)
    && HeadTerminalReadable(store, ItemsOf(protocol, store))
  }

  ghost function Assembled(protocol: Protocol, store: Store): Queue
    requires RecordsReadable(protocol, store)
  {
    var items := ItemsOf(protocol, store);
    Queue(NextOf(store), StatusOf(store, items), items, CacheOf(store))
  }

  ghost function LoadFromRecords(protocol: Protocol, store: Store): Loaded {
    if !RecordsReadable(protocol, store) then Unreadable
    else if MetaKey !in store && ItemsOf(protocol, store) == [] && (forall n: nat :: SequenceKey(n) !in store)
      then Nothing
    else Records(Assembled(protocol, store))
  }

  /** validateQueueState. */
  ghost predicate ValidQueue(protocol: Protocol, q: Queue) {
    && q.next <= MAX_SAFE_INTEGER
    && (q.cache.Some? ==> q.cache.value.projectionRevision <= MAX_SAFE_INTEGER)
    && (q.items == [] <==> q.status == Synced)
    && (forall i :: 0 <= i < |q.items| ==> ValidItem(protocol, q.items[i]))
    && (forall i, j :: 0 <= i < j < |q.items| ==> q.items[i].eventId != q.items[j].eventId)
    && (forall i :: 0 <= i < |q.items| ==> q.items[i].localSequence + (|q.items| - i) == q.next)
  }

  /** loadState: None is the failure QUEUE_STATE_INVALID. */
  ghost function LoadState(protocol: Protocol, store: Store): Option<Queue> {
    match LoadFromRecords(protocol, store)
    case Nothing => Some(INITIAL)
    case Unreadable => None
    case Records(q) => if ValidQueue(protocol, q) then Some(q) else None
  }

  /** When the state loads, it is what Assembled says, also for an empty store. */
  lemma LoadedIsAssembled(protocol: Protocol, store: Store)
    requires LoadState(protocol, store).Some?
    ensures RecordsReadable(protocol, store)
    ensures LoadState(protocol, store) == Some(Assembled(protocol, store))
    ensures ValidQueue(protocol, Assembled(protocol, store))
  {
    if LoadFromRecords(protocol, store) == Nothing {
      assert NextOf(store) == 0;
      assert Assembled(protocol, store) == INITIAL;
    }
  }

  /** Contiguous numbering ending at `next`, in the form the loops of validateQueueState check it. */
  lemma ContiguousAscending(protocol: Protocol, q: Queue)
    requires ValidQueue(protocol, q)
    ensures Ascending(q.items)
    ensures forall i, j :: i in q.items && j in q.items && i.eventId == j.eventId ==> i == j
    ensures q.items != [] ==> q.items[0].localSequence + |q.items| == q.next
  {}

  lemma {:induction false} StepsCount(items: seq<Item>)
    requires forall k :: 0 < k < |items| ==> items[k].localSequence == items[k - 1].localSequence + 1
    ensures forall i :: 0 <= i < |items| ==>
              items[i].localSequence + (|items| - i) == items[|items| - 1].localSequence + 1
    decreases |items|
  {
    if |items| > 1 {
      var front := items[..|items| - 1];
      StepsCount(front);
      assert items[|items| - 1].localSequence == front[|front| - 1].localSequence + 1;
    }
  }

  /**
    Validity as the loop decides it, comparing each number with the one before and the last with the next number:
    a queue is synced exactly when it is empty, and every number stays within the safe integers.
  */
  lemma ValidStepByStep(protocol: Protocol, q: Queue)
    ensures ValidQueue(protocol, q)
            <==> && q.next <= 9007199254740991
                 && (q.cache.Some? ==> q.cache.value.projectionRevision <= 9007199254740991)
                 && (if q.items == [] then q.status == Synced else q.status != Synced)
                 && (forall i :: i in q.items ==> ValidItem(protocol, i))
                 && (forall j, k :: 0 <= j < k < |q.items| ==> q.items[k].eventId != q.items[j].eventId)
                 && (forall k :: 0 < k < |q.items| ==> q.items[k].localSequence == q.items[k - 1].localSequence + 1)
                 && (q.items != [] ==> q.next == q.items[|q.items| - 1].localSequence + 1)
  {
    if forall k :: 0 < k < |q.items| ==> q.items[k].localSequence == q.items[k - 1].localSequence + 1 {
      StepsCount(q.items);
    }
  }
}
