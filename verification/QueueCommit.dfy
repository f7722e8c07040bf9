/**
  What one `commit` writes, and what any prefix of those writes means
  (public/kiosk-offline-queue-v2.js, commit and commitState).
*/
module QueueCommit {
  import opened Options
  import opened FieldProtocol
  import opened QueueRecords

  datatype Write = Put(key: Key, record: Record) | Remove(key: Key)

  function ApplyOne(store: Store, w: Write): Store {
    match w
    case Put(k, r) => store[k := r]
    case Remove(k) => store - {k}
  }

  function Apply(store: Store, ws: seq<Write>): Store
    decreases |ws|
  {
    if ws == [] then store else Apply(ApplyOne(store, ws[0]), ws[1..])
  }

  /** The writes of one commit, and whether it gets through them without throwing. */
  datatype Plan = Plan(writes: seq<Write>, ok: bool)

  function Ids(items: seq<Item>): set<string> { set i | i in items :: i.eventId }

  function RemovalWrites(items: seq<Item>, keep: set<string>): seq<Write> {
    if items == [] then []
    else (if items[0].eventId in keep then [] else [Remove(KeyOf(items[0])), Remove(TerminalKey(items[0].eventId))])
         + RemovalWrites(items[1..], keep)
  }

  /** The `eventId` property of a parsed record. */
  function RecordEventId(record: Record): Option<string> {
    match record
    case MarkerRecord(_, e) => Some(e)
    case ItemRecord(item) => Some(item.eventId)
    case TerminalRecord(e, _) => Some(e)
    case MetaRecord(_, _) => None
    case Malformed => None
  }

  function MarkerWrite(store: Store, item: Item): seq<Write> {
    if SequenceKey(item.localSequence) in store then [] else [Put(SequenceKey(item.localSequence), MarkerOf(item))]
  }

  function ItemWrite(store: Store, item: Item): seq<Write> {
    if KeyOf(item) in store then [] else [Put(KeyOf(item), ItemRecord(item))]
  }

  predicate SequenceTaken(store: Store, item: Item) {
    SequenceKey(item.localSequence) in store
    && RecordEventId(store[SequenceKey(item.localSequence)]) != Some(item.eventId)
  }

  predicate ItemDiffers(store: Store, item: Item) {
    KeyOf(item) in store && store[KeyOf(item)] != ItemRecord(item)
  }

  function AdditionPlan(store: Store, items: seq<Item>, baseIds: set<string>): Plan
    decreases |items|
  {
    if items == [] then Plan([], true)
    else if items[0].eventId in baseIds then AdditionPlan(store, items[1..], baseIds)
    else if SequenceTaken(store, items[0]) then Plan([], false)
    else if ItemDiffers(store, items[0]) then Plan(MarkerWrite(store, items[0]), false)
    else
      var ws := MarkerWrite(store, items[0]) + ItemWrite(store, items[0]);
      var rest := AdditionPlan(Apply(store, ws), items[1..], baseIds);
      Plan(ws + rest.writes, rest.ok)
  }

  ghost function Current(protocol: Protocol, store: Store): Queue
    requires LoadFromRecords(protocol, store) != Unreadable
  {
    match LoadFromRecords(protocol, store) case Records(q) => q case _ => INITIAL
  }

  function MergedCache(current: Option<Cache>, next: Option<Cache>): Option<Cache> {
    if current.None? || (next.Some? && next.value.projectionRevision >= current.value.projectionRevision)
    then next else current
  }

  /** Of the stored and the committed cache the one with the higher revision is kept, and never none for some. */
  lemma NewestCacheWins(current: Option<Cache>, next: Option<Cache>)
    ensures var merged := MergedCache(current, next);
            && (merged == current || merged == next)
            && (merged.None? <==> current.None? && next.None?)
            && (current.Some? ==> merged.value.projectionRevision >= current.value.projectionRevision)
            && (next.Some? ==> merged.value.projectionRevision >= next.value.projectionRevision)
            && (current.Some? && next.Some? && current.value.projectionRevision == next.value.projectionRevision
                ==> merged == next)
  {}

  /** A verdict is written for the stored head only, and only when it has none yet. */
  ghost predicate VerdictDue(store: Store, current: Queue, next: Queue) {
    && next.status.Terminal()
    && current.items != [] && next.items != [] && current.items[0].eventId == next.items[0].eventId
    && TerminalKey(current.items[0].eventId) !in store
  }

  ghost function VerdictWrite(store: Store, current: Queue, next: Queue): seq<Write> {
    if VerdictDue(store, current, next)
    then [Put(TerminalKey(current.items[0].eventId), TerminalRecord(current.items[0].eventId, next.status))]
    else []
  }

  function MetaWrite(current: Queue, next: Queue): Write {
    Put(MetaKey, MetaRecord(if current.next < next.next then next.next else current.next,
                            MergedCache(current.cache, next.cache)))
  }

  ghost function FinishPlan(protocol: Protocol, store: Store, next: Queue): Plan {
    if LoadFromRecords(protocol, store) == Unreadable then Plan([], false)
    else
      var current := Current(protocol, store);
      Plan(VerdictWrite(store, current, next) + [MetaWrite(current, next)], true)
  }

  ghost function CommitPlan(protocol: Protocol, store: Store, base: Queue, next: Queue): Plan {
    if !ValidQueue(protocol, base) || !ValidQueue(protocol, next) then Plan([], false)
    else
      var removed := RemovalWrites(base.items, Ids(next.items));
      var cleared := Apply(store, removed);
      var added := AdditionPlan(cleared, next.items, Ids(base.items));
      if !added.ok then Plan(removed + added.writes, false)
      else
        var finish := FinishPlan(protocol, Apply(cleared, added.writes), next);
        Plan(removed + added.writes + finish.writes, finish.ok)
  }

  function Cut(ws: seq<Write>, budget: nat): seq<Write> { if budget < |ws| then ws[..budget] else ws }

  /**
    commitState when the storage accepts only the first `budget` writes: a quota error and a crashed
    page differ only in who is left to see the failure.
  */
  ghost function TryCommit(protocol: Protocol, store: Store, base: Queue, next: Queue, budget: nat)
    : (Store, Option<Queue>)
  {
    if !ValidQueue(protocol, next) then (store, None)
    else
      var plan := CommitPlan(protocol, store, base, next);
      var store' := Apply(store, Cut(plan.writes, budget));
      (store', if plan.ok && |plan.writes| <= budget then LoadState(protocol, store') else None)
  }

  // ---------------------------------------------------------------- applying writes

  lemma {:induction false} ApplyAppend(store: Store, a: seq<Write>, b: seq<Write>)
    ensures Apply(store, a + b) == Apply(Apply(store, a), b)
    decreases |a|
  {
    if a == [] {
      assert a + b == b;
    } else {
      assert (a + b)[0] == a[0] && (a + b)[1..] == a[1..] + b;
      ApplyAppend(ApplyOne(store, a[0]), a[1..], b);
    }
  }

  /** A record that is new or different was put by one of the writes; a record that is gone was removed. */
  lemma {:induction false} ApplyExplained(store: Store, ws: seq<Write>, k: Key)
    ensures var after := Apply(store, ws);
            && (k in after && (k !in store || store[k] != after[k]) ==> Put(k, after[k]) in ws)
            && (k in store && k !in after ==> Remove(k) in ws)
    decreases |ws|
  {
    if ws != [] {
      ApplyExplained(ApplyOne(store, ws[0]), ws[1..], k);
      assert forall w :: w in ws[1..] ==> w in ws;
    }
  }

  lemma CutMembers(ws: seq<Write>, budget: nat)
    ensures forall w :: w in Cut(ws, budget) ==> w in ws
  {}

  // ---------------------------------------------------------------- what a commit may write at all

  ghost predicate Dropped(base: Queue, next: Queue, k: Key) {
    exists b :: b in base.items && b.eventId !in Ids(next.items) && (k == KeyOf(b) || k == TerminalKey(b.eventId))
  }

  ghost predicate Added(base: Queue, next: Queue, i: Item) {
    i in next.items && i.eventId !in Ids(base.items)
  }

  /** Every write a commit can make, whatever the base. */
  ghost predicate Lawful(store: Store, base: Queue, next: Queue, w: Write) {
    match w
    case Remove(k) => Dropped(base, next, k)
    case Put(SequenceKey(n), r) =>
      SequenceKey(n) !in store && exists i :: Added(base, next, i) && i.localSequence == n && r == MarkerOf(i)
    case Put(ItemKey(n, e), r) =>
      ItemKey(n, e) !in store && exists i :: Added(base, next, i) && KeyOf(i) == ItemKey(n, e) && r == ItemRecord(i)
    case Put(TerminalKey(e), r) =>
      && TerminalKey(e) !in store && next.status.Terminal()
      && next.items != [] && next.items[0].eventId == e && r == TerminalRecord(e, next.status)
    case Put(MetaKey, r) =>
      && r.MetaRecord? && r.nextLocalSequence >= next.next
      && (forall n: nat :: SequenceKey(n) in store ==> n < r.nextLocalSequence)
      && (MetaKey in store ==>
            && store[MetaKey].MetaRecord? && store[MetaKey].nextLocalSequence <= r.nextLocalSequence
            && NotOlder(store[MetaKey].cache, r.cache))
  }

  /** The cached projection never goes back to an earlier revision, or to none. */
  predicate NotOlder(before: Option<Cache>, after: Option<Cache>) {
    before.Some? ==> after.Some? && after.value.projectionRevision >= before.value.projectionRevision
  }

  lemma {:induction false} RemovalsLawful(store: Store, base: Queue, next: Queue, items: seq<Item>)
    requires forall i :: i in items ==> i in base.items
    ensures forall w :: w in RemovalWrites(items, Ids(next.items)) ==> w.Remove? && Lawful(store, base, next, w)
  {
    if items != [] {
      assert items[0] in base.items;
      assert forall i :: i in items[1..] ==> i in items;
      RemovalsLawful(store, base, next, items[1..]);
    }
  }

  /** `store` only matters for keys that the additions can touch. */
  ghost predicate AgreeOnAdditions(store: Store, cleared: Store, base: Queue, next: Queue) {
    forall k :: k in store && k !in cleared ==> Dropped(base, next, k)
  }

  lemma AddedNotDropped(base: Queue, next: Queue, i: Item)
    requires Added(base, next, i)
    ensures !Dropped(base, next, KeyOf(i)) && !Dropped(base, next, SequenceKey(i.localSequence))
  {
    assert i.eventId in Ids(next.items);
  }

  lemma {:induction false} AdditionsLawful(store: Store, cleared: Store, base: Queue, next: Queue, items: seq<Item>)
    requires forall i :: i in items ==> i in next.items
    requires AgreeOnAdditions(store, cleared, base, next)
    ensures forall w ::
              w in AdditionPlan(cleared, items, Ids(base.items)).writes ==> w.Put? && Lawful(store, base, next, w)
    decreases |items|
  {
    if items != [] {
      assert items[0] in next.items;
      assert forall i :: i in items[1..] ==> i in items;
      var baseIds := Ids(base.items);
      if items[0].eventId in baseIds {
        AdditionsLawful(store, cleared, base, next, items[1..]);
      } else if !SequenceTaken(cleared, items[0]) {
        AddedNotDropped(base, next, items[0]);
        var ws := MarkerWrite(cleared, items[0]) + ItemWrite(cleared, items[0]);
        assert forall w :: w in ws ==> w.Put? && Lawful(store, base, next, w);
        if !ItemDiffers(cleared, items[0]) {
          forall k | k in store && k !in Apply(cleared, ws) ensures Dropped(base, next, k) {
            ApplyExplained(cleared, ws, k);
          }
          AdditionsLawful(store, Apply(cleared, ws), base, next, items[1..]);
        }
      }
    }
  }

  /** Item and marker keys are all that changes before the finishing writes; verdicts are only cleared. */
  ghost predicate OnlyItemsMoved(store: Store, mid: Store, base: Queue, next: Queue) {
    && (forall n: nat :: SequenceKey(n) in store ==> SequenceKey(n) in mid)
    && (MetaKey in store <==> MetaKey in mid)
    && (MetaKey in store ==> mid[MetaKey] == store[MetaKey])
    && (forall e :: TerminalKey(e) in store && TerminalKey(e) !in mid ==> Dropped(base, next, TerminalKey(e)))
  }

  lemma ItemWritesMoveOnlyItems(store: Store, base: Queue, next: Queue, ws: seq<Write>)
    requires forall w :: w in ws ==> Lawful(store, base, next, w) && (w.Put? ==> w.key.SequenceKey? || w.key.ItemKey?)
    ensures OnlyItemsMoved(store, Apply(store, ws), base, next)
  {
    forall n: nat | SequenceKey(n) in store ensures SequenceKey(n) in Apply(store, ws) {
      ApplyExplained(store, ws, SequenceKey(n));
    }
    ApplyExplained(store, ws, MetaKey);
    forall e | TerminalKey(e) in store && TerminalKey(e) !in Apply(store, ws)
      ensures Dropped(base, next, TerminalKey(e))
    {
      ApplyExplained(store, ws, TerminalKey(e));
    }
  }

  lemma FinishLawful(protocol: Protocol, store: Store, mid: Store, base: Queue, next: Queue)
    requires OnlyItemsMoved(store, mid, base, next)
    ensures forall w :: w in FinishPlan(protocol, mid, next).writes ==> Lawful(store, base, next, w)
  {
    if LoadFromRecords(protocol, mid) != Unreadable {
      var current := Current(protocol, mid);
      assert current == Assembled(protocol, mid) by {
        if LoadFromRecords(protocol, mid) == Nothing { assert NextOf(mid) == 0; }
      }
      if VerdictDue(mid, current, next) {
        var e := next.items[0].eventId;
        assert e in Ids(next.items);
        assert !Dropped(base, next, TerminalKey(e));
      }
    }
  }

  lemma {:induction false} AdditionsPutItems(cleared: Store, items: seq<Item>, baseIds: set<string>)
    ensures forall w ::
              w in AdditionPlan(cleared, items, baseIds).writes ==> w.Put? && (w.key.SequenceKey? || w.key.ItemKey?)
    decreases |items|
  {
    if items != [] {
      if items[0].eventId in baseIds {
        AdditionsPutItems(cleared, items[1..], baseIds);
      } else {
        AdditionsPutItems(Apply(cleared, MarkerWrite(cleared, items[0]) + ItemWrite(cleared, items[0])), items[1..],
                          baseIds);
      }
    }
  }

  lemma ClearingDropsOnly(store: Store, base: Queue, next: Queue, removed: seq<Write>)
    requires forall w :: w in removed ==> w.Remove? && Lawful(store, base, next, w)
    ensures AgreeOnAdditions(store, Apply(store, removed), base, next)
  {
    forall k | k in store && k !in Apply(store, removed) ensures Dropped(base, next, k) {
      ApplyExplained(store, removed, k);
    }
  }

  lemma PlanLawful(protocol: Protocol, store: Store, base: Queue, next: Queue)
    ensures forall w :: w in CommitPlan(protocol, store, base, next).writes ==> Lawful(store, base, next, w)
  {
    if ValidQueue(protocol, base) && ValidQueue(protocol, next) {
      var removed := RemovalWrites(base.items, Ids(next.items));
      RemovalsLawful(store, base, next, base.items);
      ClearingDropsOnly(store, base, next, removed);
      var cleared := Apply(store, removed);
      AdditionsLawful(store, cleared, base, next, next.items);
      AdditionsPutItems(cleared, next.items, Ids(base.items));
      var added := AdditionPlan(cleared, next.items, Ids(base.items));
      ApplyAppend(store, removed, added.writes);
      ItemWritesMoveOnlyItems(store, base, next, removed + added.writes);
      FinishLawful(protocol, store, Apply(cleared, added.writes), base, next);
    }
  }

  /**
    Whatever the base, however stale, and however early the writes stop: nothing is stored that was
    not stored or newly enqueued, and nothing disappears that the caller did not dequeue.
  */
  lemma NothingLostOrInvented(protocol: Protocol, store: Store, base: Queue, next: Queue, budget: nat, i: Item)
    ensures var after := TryCommit(protocol, store, base, next, budget).0;
            && (Stored(after, i) && !Stored(store, i) ==> Added(base, next, i))
            && (Stored(store, i) && !Stored(after, i) ==> Dropped(base, next, KeyOf(i)))
  {
    var plan := CommitPlan(protocol, store, base, next);
    PlanLawful(protocol, store, base, next);
    CutMembers(plan.writes, budget);
    ApplyExplained(store, Cut(plan.writes, budget), KeyOf(i));
  }

  /**
    Sequence numbers and the cached projection only move forward, for any commit by anyone and any
    point at which its writes stop.
  */
  lemma CommitMovesForward(protocol: Protocol, store: Store, base: Queue, next: Queue, budget: nat)
    requires MetaReadable(store)
    ensures var after := TryCommit(protocol, store, base, next, budget).0;
            MetaReadable(after) ==> NextOf(store) <= NextOf(after) && NotOlder(CacheOf(store), CacheOf(after))
  {
    var ws := Cut(CommitPlan(protocol, store, base, next).writes, budget);
    PlanLawful(protocol, store, base, next);
    CutMembers(CommitPlan(protocol, store, base, next).writes, budget);
    ApplyExplained(store, ws, MetaKey);
    if NextOf(store) > 0 && SequenceKey(NextOf(store) - 1) in store {
      ApplyExplained(store, ws, SequenceKey(NextOf(store) - 1));
    }
  }

  // ---------------------------------------------------------------- a commit that goes through

  lemma {:induction false} RemovalsComplete(store: Store, items: seq<Item>, keep: set<string>, b: Item)
    requires b in items && b.eventId !in keep
    ensures Remove(KeyOf(b)) in RemovalWrites(items, keep)
  {
    if b != items[0] {
      assert b in items[1..];
      RemovalsComplete(store, items[1..], keep, b);
    }
  }

  /** A removed key that no later write puts back stays away. */
  lemma {:induction false} RemovedStaysAway(store: Store, ws: seq<Write>, k: Key)
    requires Remove(k) in ws && forall w :: w in ws ==> !(w.Put? && w.key == k)
    ensures k !in Apply(store, ws)
    decreases |ws|
  {
    var after := ApplyOne(store, ws[0]);
    if ws[0] == Remove(k) {
      if k in Apply(after, ws[1..]) { ApplyExplained(after, ws[1..], k); }
    } else {
      RemovedStaysAway(after, ws[1..], k);
    }
  }

  lemma {:induction false} AdditionsComplete(store: Store, items: seq<Item>, baseIds: set<string>, i: Item)
    requires AdditionPlan(store, items, baseIds).ok && i in items && i.eventId !in baseIds
    ensures Stored(Apply(store, AdditionPlan(store, items, baseIds).writes), i)
    decreases |items|
  {
    if items[0].eventId in baseIds {
      AdditionsComplete(store, items[1..], baseIds, i);
    } else {
      var ws := MarkerWrite(store, items[0]) + ItemWrite(store, items[0]);
      var mid := Apply(store, ws);
      var rest := AdditionPlan(mid, items[1..], baseIds);
      ApplyAppend(store, ws, rest.writes);
      if i == items[0] {
        AdditionStored(store, i);
        AdditionsKeepStored(mid, items[1..], baseIds, i);
      } else {
        AdditionsComplete(mid, items[1..], baseIds, i);
      }
    }
  }

  lemma AdditionStored(store: Store, i: Item)
    requires !ItemDiffers(store, i)
    ensures Stored(Apply(store, MarkerWrite(store, i) + ItemWrite(store, i)), i)
  {
    ApplyAppend(store, MarkerWrite(store, i), ItemWrite(store, i));
    assert forall s, w: Write :: Apply(s, [w]) == ApplyOne(s, w) by {
      forall s: Store, w: Write ensures Apply(s, [w]) == ApplyOne(s, w) { assert [w][1..] == []; }
    }
  }

  lemma {:induction false} AdditionsKeepStored(store: Store, items: seq<Item>, baseIds: set<string>, i: Item)
    requires Stored(store, i)
    ensures Stored(Apply(store, AdditionPlan(store, items, baseIds).writes), i)
    decreases |items|
  {
    if items != [] {
      if items[0].eventId in baseIds {
        AdditionsKeepStored(store, items[1..], baseIds, i);
      } else if !SequenceTaken(store, items[0]) {
        var ws := MarkerWrite(store, items[0]) + ItemWrite(store, items[0]);
        ApplyExplained(store, MarkerWrite(store, items[0]), KeyOf(i));
        ApplyExplained(store, ws, KeyOf(i));
        if !ItemDiffers(store, items[0]) {
          AdditionsKeepStored(Apply(store, ws), items[1..], baseIds, i);
          ApplyAppend(store, ws, AdditionPlan(Apply(store, ws), items[1..], baseIds).writes);
        }
      }
    }
  }

  /**
    A commit is a three-way merge: when it goes through, the stored items are the current ones, less
    those the caller took out of its base, plus those the caller added to it. The base may be as old
    as it likes: what others enqueued stays, what others dequeued does not come back.
  */
  lemma CommitIsThreeWayMerge(protocol: Protocol, store: Store, base: Queue, next: Queue, i: Item)
    requires ValidQueue(protocol, base) && ValidQueue(protocol, next) && CommitPlan(protocol, store, base, next).ok
    ensures Stored(Apply(store, CommitPlan(protocol, store, base, next).writes), i) <==>
              (Stored(store, i) && !Dropped(base, next, KeyOf(i))) || Added(base, next, i)
  {
    var plan := CommitPlan(protocol, store, base, next);
    var after := Apply(store, plan.writes);
    PlanLawful(protocol, store, base, next);
    ApplyExplained(store, plan.writes, KeyOf(i));
    if Added(base, next, i) {
      AddedIsStored(protocol, store, base, next, i);
    }
    if Dropped(base, next, KeyOf(i)) {
      var b :| b in base.items && b.eventId !in Ids(next.items) && KeyOf(i) == KeyOf(b);
      RemovalsComplete(store, base.items, Ids(next.items), b);
      forall w | w in plan.writes ensures !(w.Put? && w.key == KeyOf(i)) {
        assert Lawful(store, base, next, w);
      }
      RemovedStaysAway(store, plan.writes, KeyOf(i));
    }
  }

  lemma FinishKeepsStored(protocol: Protocol, mid: Store, next: Queue, i: Item)
    requires Stored(mid, i)
    ensures Stored(Apply(mid, FinishPlan(protocol, mid, next).writes), i)
  {
    var ws := FinishPlan(protocol, mid, next).writes;
    assert forall w :: w in ws ==> w.Put? && (w.key.TerminalKey? || w.key.MetaKey?);
    ApplyExplained(mid, ws, KeyOf(i));
  }

  lemma AddedIsStored(protocol: Protocol, store: Store, base: Queue, next: Queue, i: Item)
    requires ValidQueue(protocol, base) && ValidQueue(protocol, next) && CommitPlan(protocol, store, base, next).ok
    requires Added(base, next, i)
    ensures Stored(Apply(store, CommitPlan(protocol, store, base, next).writes), i)
  {
    var removed := RemovalWrites(base.items, Ids(next.items));
    var cleared := Apply(store, removed);
    var added := AdditionPlan(cleared, next.items, Ids(base.items));
    var mid := Apply(cleared, added.writes);
    AdditionsComplete(cleared, next.items, Ids(base.items), i);
    FinishKeepsStored(protocol, mid, next, i);
    ApplyAppend(store, removed, added.writes);
    ApplyAppend(store, removed + added.writes, FinishPlan(protocol, mid, next).writes);
  }

  /** Of two enqueues at one sequence number the second changes nothing and is told so. */
  lemma LaterEnqueueLoses(protocol: Protocol, store: Store, base: Queue, item: Item, budget: nat)
    requires ValidQueue(protocol, base) && SequenceTaken(store, item)
    requires item.eventId !in Ids(base.items)
    ensures TryCommit(protocol, store, base,
                      base.(next := base.next + 1, status := Pending, items := base.items + [item]), budget)
            == (store, None)
  {
    var next := base.(next := base.next + 1, status := Pending, items := base.items + [item]);
    if ValidQueue(protocol, next) {
      assert forall i :: i in base.items ==> i in next.items;
      NothingRemoved(base.items, Ids(next.items));
      OnlyTailAdded(store, base.items, [item], Ids(base.items));
      assert [item][0] == item;
      assert CommitPlan(protocol, store, base, next).writes == [];
    }
  }

  /**
    What becomes of one addition: it fails exactly when its number or its place holds something else, and what
    is already there of it, marker or item, is not written again.
  */
  lemma AdditionOutcome(store: Store, item: Item)
    ensures var marker, place := SequenceKey(item.localSequence), ItemKey(item.localSequence, item.eventId);
            var plan := AdditionPlan(store, [item], {});
            && (plan.ok <==> && (marker in store ==> RecordEventId(store[marker]) == Some(item.eventId))
                             && (place in store ==> store[place] == ItemRecord(item)))
            && (plan.ok ==>
                  plan.writes
                  == (if marker in store then [] else [Put(marker, MarkerRecord(item.localSequence, item.eventId))])
                     + (if place in store then [] else [Put(place, ItemRecord(item))]))
  {
    assert [item][0] == item && [item][1..] == [];
  }

  /** A commit from a state that is not valid writes nothing and fails. */
  lemma InvalidStateFails(protocol: Protocol, store: Store, base: Queue, next: Queue, budget: nat)
    requires !ValidQueue(protocol, base) || !ValidQueue(protocol, next)
    ensures TryCommit(protocol, store, base, next, budget) == (store, None)
  {}

  lemma {:induction false} NothingRemoved(items: seq<Item>, keep: set<string>)
    requires forall i :: i in items ==> i.eventId in keep
    ensures RemovalWrites(items, keep) == []
  {
    if items != [] { NothingRemoved(items[1..], keep); }
  }

  /** Items of the base are passed over. */
  lemma {:induction false} OnlyTailAdded(store: Store, known: seq<Item>, tail: seq<Item>, baseIds: set<string>)
    requires forall i :: i in known ==> i.eventId in baseIds
    ensures AdditionPlan(store, known + tail, baseIds) == AdditionPlan(store, tail, baseIds)
    decreases |known|
  {
    if known == [] {
      assert known + tail == tail;
    } else {
      assert (known + tail)[0] == known[0] && (known + tail)[1..] == known[1..] + tail;
      OnlyTailAdded(store, known[1..], tail, baseIds);
    }
  }

  lemma NothingAdded(store: Store, items: seq<Item>, baseIds: set<string>)
    requires forall i :: i in items ==> i.eventId in baseIds
    ensures AdditionPlan(store, items, baseIds) == Plan([], true)
  {
    OnlyTailAdded(store, items, [], baseIds);
    assert items + [] == items;
  }

  /** The items a successful commit reports, in terms of the items loaded before it. */
  lemma MergedItems(protocol: Protocol, store: Store, base: Queue, next: Queue, budget: nat, i: Item)
    requires ValidQueue(protocol, base) && LoadState(protocol, store).Some?
    requires TryCommit(protocol, store, base, next, budget).1.Some?
    ensures var current := LoadState(protocol, store).value;
            var merged := TryCommit(protocol, store, base, next, budget).1.value;
            i in merged.items <==> (i in current.items && !Dropped(base, next, KeyOf(i))) || Added(base, next, i)
  {
    LoadedIsAssembled(protocol, store);
    LoadedIsAssembled(protocol, TryCommit(protocol, store, base, next, budget).0);
    CommitIsThreeWayMerge(protocol, store, base, next, i);
  }
}
