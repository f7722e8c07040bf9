/**
  The queue as it runs: createBrowserQueueStorage and createKioskOfflineQueue of
  public/kiosk-offline-queue-v2.js over one localStorage, each method proved against its specification.
*/
module QueueStorage {
  import opened Options
  import opened StableSort
  import opened FieldProtocol
  import opened QueueRecords
  import opened QueueCommit
  import opened QueueOperations
  import opened QueueRefinement
  import opened Replay
  import QueueProgress
  import QueueRuns

  /** localStorage; after `writesLeft` more writes it accepts none (quota), or the page is gone (crash). */
  class LocalStorage {
    var records: Store
    var writesLeft: nat

    constructor (records: Store, writesLeft: nat)
      ensures this.records == records && this.writesLeft == writesLeft
    {
      this.records := records;
      this.writesLeft := writesLeft;
    }

    method SetItem(key: Key, record: Record) returns (ok: bool)
      modifies this
      ensures ok == (old(writesLeft) > 0)
      ensures records == if ok then old(records)[key := record] else old(records)
      ensures writesLeft == if ok then old(writesLeft) - 1 else 0
    {
      ok := writesLeft > 0;
      if ok {
        records := records[key := record];
        writesLeft := writesLeft - 1;
      }
    }

    method RemoveItem(key: Key) returns (ok: bool)
      modifies this
      ensures ok == (old(writesLeft) > 0)
      ensures records == if ok then old(records) - {key} else old(records)
      ensures writesLeft == if ok then old(writesLeft) - 1 else 0
    {
      ok := writesLeft > 0;
      if ok {
        records := records - {key};
        writesLeft := writesLeft - 1;
      }
    }
  }

  /** The loop of validateQueueState: status, ids and numbering. */
  method ValidateQueueState(protocol: Protocol, q: Queue) returns (ok: bool)
    ensures ok <==> ValidQueue(protocol, q)
  {
    if q.next > MAX_SAFE_INTEGER || (q.cache.Some? && q.cache.value.projectionRevision > MAX_SAFE_INTEGER)
       || (q.items == [] && q.status != Synced) || (q.items != [] && q.status == Synced) {
      return false;
    }
    var eventIds: set<string> := {};
    var priorSequence: Option<nat> := None;
    for i := 0 to |q.items|
      invariant forall e :: e in eventIds <==> exists k :: 0 <= k < i && q.items[k].eventId == e
      invariant i == 0 ==> priorSequence.None?
      invariant i > 0 ==> priorSequence == Some(q.items[i - 1].localSequence)
      invariant forall k :: 0 <= k < i ==> ValidItem(protocol, q.items[k])
      invariant forall j, k :: 0 <= j < k < i ==> q.items[j].eventId != q.items[k].eventId
      invariant forall k :: 0 <= k < i ==> q.items[k].localSequence + (i - 1 - k) == q.items[i - 1].localSequence
    {
      var item := q.items[i];
      if !ValidItem(protocol, item) || item.eventId in eventIds { return false; }
      if priorSequence.Some? && item.localSequence != priorSequence.value + 1 {
        assert q.items[i - 1].localSequence + (|q.items| - (i - 1)) != item.localSequence + (|q.items| - i);
        return false;
      }
      eventIds := eventIds + {item.eventId};
      priorSequence := Some(item.localSequence);
    }
    ok := priorSequence.None? || q.next == priorSequence.value + 1;
    if !ok { assert q.items[|q.items| - 1].localSequence + 1 != q.next; }
  }

  predicate EarlierSequence(a: Item, b: Item) { a.localSequence <= b.localSequence }

  class BrowserQueueStorage {
    const protocol: Protocol
    const local: LocalStorage

    constructor (protocol: Protocol, local: LocalStorage)
      ensures this.protocol == protocol && this.local == local
    {
      this.protocol := protocol;
      this.local := local;
    }

    /** The keys come in no particular order. */
    method ReadSequenceMarkers() returns (markers: Option<map<nat, string>>)
      ensures markers.Some? <==> MarkersReadable(local.records)
      ensures markers.Some? ==>
                forall n: nat, e :: (n in markers.value && markers.value[n] == e) <==> Marked(local.records, n, e)
    {
      var store, found: map<nat, string>, eventIds: set<string> := local.records, map[], {};
      var todo := store.Keys;
      while todo != {}
        invariant todo <= store.Keys
        invariant forall n: nat :: n in found <==> SequenceKey(n) in store && SequenceKey(n) !in todo
        invariant forall n: nat :: n in found ==> MarkerReadable(store, n) && found[n] == store[SequenceKey(n)].eventId
        invariant forall e :: e in eventIds <==> exists n: nat :: n in found && found[n] == e
        invariant forall m: nat, n: nat :: m in found && n in found && m != n ==> found[m] != found[n]
        decreases |todo|
      {
        var candidate :| candidate in todo;
        todo := todo - {candidate};
        if candidate.SequenceKey? {
          var n := candidate.sequence;
          if !MarkerReadable(store, n) { return None; }
          var e := store[candidate].eventId;
          if e in eventIds {
            var m: nat :| m in found && found[m] == e;
            assert store[SequenceKey(m)].eventId == store[SequenceKey(n)].eventId && m != n;
            return None;
          }
          found, eventIds := found[n := e], eventIds + {e};
        }
      }
      markers := Some(found);
    }

    method ReadItems(markers: map<nat, string>) returns (items: Option<seq<Item>>)
      requires MarkersReadable(local.records)
      requires forall n: nat, e :: (n in markers && markers[n] == e) <==> Marked(local.records, n, e)
      ensures items.Some? <==> ItemsReadable(protocol, local.records)
      ensures items.Some? ==> items.value == ItemsOf(protocol, local.records)
    {
      var store, found: seq<Item> := local.records, [];
      var todo := store.Keys;
      while todo != {}
        invariant todo <= store.Keys
        invariant forall n: nat, e ::
                    ItemKey(n, e) in store && ItemKey(n, e) !in todo ==> ItemReadable(protocol, store, n, e)
        invariant forall i :: i in found <==> Stored(store, i) && KeyOf(i) !in todo
        invariant forall i :: i in found ==> Marked(store, i.localSequence, i.eventId)
        invariant forall j, k :: 0 <= j < k < |found| ==> found[j] != found[k]
        decreases |todo|
      {
        var candidate :| candidate in todo;
        if candidate.ItemKey? {
          if !store[candidate].ItemRecord? { return None; }
          var item := store[candidate].item;
          if !ValidItem(protocol, item) || candidate != KeyOf(item)
             || item.localSequence !in markers || markers[item.localSequence] != item.eventId {
            return None;
          }
          found := found + [item];
        }
        todo := todo - {candidate};
      }
      assert ItemsReadable(protocol, store);
      var sorted := Sort(EarlierSequence, found);
      SortedItems(protocol, store, found);
      items := Some(sorted);
    }

    /** readMeta: null, or the record; the outer None is the error. */
    method ReadMeta() returns (meta: Option<Option<Record>>)
      ensures meta.Some? <==> MetaReadable(local.records)
      ensures meta.Some? ==> meta.value == if MetaKey in local.records then Some(local.records[MetaKey]) else None
    {
      if MetaKey !in local.records { return Some(None); }
      if !MetaReadable(local.records) { return None; }
      return Some(Some(local.records[MetaKey]));
    }

    method ReadTerminal(eventId: string) returns (verdict: Option<Option<SyncStatus>>)
      ensures verdict.Some? <==> TerminalReadable(local.records, eventId)
      ensures verdict.Some? ==> verdict.value == TerminalOf(local.records, eventId)
    {
      if !TerminalReadable(local.records, eventId) { return None; }
      return Some(TerminalOf(local.records, eventId));
    }

    /** The loop over the marker keys. */
    method MinimumNext(markers: map<nat, string>) returns (next: nat)
      ensures forall n :: n in markers ==> n < next
      ensures next == 0 || next - 1 in markers
    {
      next := 0;
      var todo := markers.Keys;
      while todo != {}
        invariant todo <= markers.Keys
        invariant forall n :: n in markers && n !in todo ==> n < next
        invariant next == 0 || next - 1 in markers
        decreases |todo|
      {
        var sequence :| sequence in todo;
        todo := todo - {sequence};
        if next < sequence + 1 { next := sequence + 1; }
      }
    }

    /** loadFromRecords; Unreadable stands for any throw. */
    method LoadFromRecords() returns (loaded: Loaded)
      ensures loaded == QueueRecords.LoadFromRecords(protocol, local.records)
    {
      var markers := ReadSequenceMarkers();
      if markers.None? { return Unreadable; }
      var items := ReadItems(markers.value);
      if items.None? { return Unreadable; }
      var meta := ReadMeta();
      if meta.None? { return Unreadable; }
      NoMarkers(local.records, markers.value);
      if meta.value.None? && items.value == [] && markers.value == map[] { return Nothing; }
      var minimumNext := MinimumNext(markers.value);
      var next := if meta.value.Some? && minimumNext < meta.value.value.nextLocalSequence
                  then meta.value.value.nextLocalSequence else minimumNext;
      NextIs(local.records, markers.value, minimumNext, next);
      var cache := if meta.value.Some? then meta.value.value.cache else None;
      RecordsAre(protocol, local.records, items.value, next, cache);
      if items.value == [] { return Records(Queue(next, Synced, [], cache)); }
      var verdict := ReadTerminal(items.value[0].eventId);
      if verdict.None? { return Unreadable; }
      var status := if verdict.value.Some? then verdict.value.value else Pending;
      return Records(Queue(next, status, items.value, cache));
    }

    /** removeItem for what the caller took out of its base. */
    method RemoveDequeued(items: seq<Item>, keep: set<string>) returns (ok: bool)
      modifies local
      ensures Wrote(old(local.records), old(local.writesLeft), RemovalWrites(items, keep), local.records,
                    local.writesLeft)
      ensures ok == (|RemovalWrites(items, keep)| <= old(local.writesLeft))
    {
      ghost var store, budget, all := local.records, local.writesLeft, RemovalWrites(items, keep);
      ghost var done: seq<Write> := [];
      for i := 0 to |items|
        invariant |done| <= budget && Wrote(store, budget, done, local.records, local.writesLeft)
        invariant done + RemovalWrites(items[i..], keep) == all
      {
        ghost var rest := RemovalWrites(items[i + 1..], keep);
        assert items[i..][0] == items[i] && items[i..][1..] == items[i + 1..];
        if items[i].eventId !in keep {
          ghost var first, second := Remove(KeyOf(items[i])), Remove(TerminalKey(items[i].eventId));
          PairSplits(done, first, second, rest, all);
          WroteOne(store, budget, done, first, local.records, local.writesLeft);
          ok := local.RemoveItem(KeyOf(items[i]));
          if !ok {
            WroteStopped(store, budget, done + [first], all, local.records, local.writesLeft);
            return;
          }
          done := done + [first];
          WroteOne(store, budget, done, second, local.records, local.writesLeft);
          ok := local.RemoveItem(TerminalKey(items[i].eventId));
          if !ok {
            WroteStopped(store, budget, done + [second], all, local.records, local.writesLeft);
            return;
          }
          done := done + [second];
        } else {
          assert [] + rest == rest;
        }
      }
      assert done + RemovalWrites([], keep) == done;
      ok := true;
    }

    /** setItem for the marker and the item, unless they are there already. */
    method AddItem(item: Item) returns (ok: bool)
      modifies local
      ensures var store, budget := old(local.records), old(local.writesLeft);
              var plan := AdditionPlan(store, [item], {});
              && Wrote(store, budget, plan.writes, local.records, local.writesLeft)
              && ok == (plan.ok && |plan.writes| <= budget)
    {
      ghost var store, budget := local.records, local.writesLeft;
      ghost var plan := AdditionPlan(store, [item], {});
      SingleItemPlan(store, item);
      ghost var marker := Put(SequenceKey(item.localSequence), MarkerOf(item));
      ghost var itself := Put(KeyOf(item), ItemRecord(item));
      var markerTarget, target := SequenceKey(item.localSequence), KeyOf(item);
      if markerTarget in local.records {
        if RecordEventId(local.records[markerTarget]) != Some(item.eventId) { return false; }
      } else {
        WroteOne(store, budget, [], marker, local.records, local.writesLeft);
        ok := local.SetItem(markerTarget, MarkerOf(item));
        if !ok {
          WroteStopped(store, budget, [] + [marker], plan.writes, local.records, local.writesLeft);
          return;
        }
      }
      if target in local.records {
        ok := local.records[target] == ItemRecord(item);
      } else {
        WroteOne(store, budget, MarkerWrite(store, item), itself, local.records, local.writesLeft);
        ok := local.SetItem(target, ItemRecord(item));
      }
    }

    /** The additions of the caller to its base. */
    method AddEnqueued(items: seq<Item>, baseIds: set<string>) returns (ok: bool)
      modifies local
      ensures var plan := AdditionPlan(old(local.records), items, baseIds);
              && Wrote(old(local.records), old(local.writesLeft), plan.writes, local.records, local.writesLeft)
              && ok == (plan.ok && |plan.writes| <= old(local.writesLeft))
    {
      ghost var store, budget, plan := local.records, local.writesLeft, AdditionPlan(local.records, items, baseIds);
      ghost var done: seq<Write> := [];
      assert items[0..] == items && plan == After([], plan);
      for i := 0 to |items|
        invariant |done| <= budget && Wrote(store, budget, done, local.records, local.writesLeft)
        invariant plan == After(done, AdditionPlan(local.records, items[i..], baseIds))
      {
        assert items[i..][0] == items[i] && items[i..][1..] == items[i + 1..];
        if items[i].eventId !in baseIds {
          ghost var before, left := local.records, local.writesLeft;
          ghost var single := AdditionPlan(local.records, [items[i]], {});
          OneThenRest(before, items[i], items[i..], baseIds);
          ghost var rest := AdditionPlan(Apply(before, single.writes), items[i + 1..], baseIds);
          AfterAfter(done, single.writes, rest);
          ok := AddItem(items[i]);
          WroteThen(store, budget, done, before, left, single.writes, local.records, local.writesLeft);
          if !ok {
            Abandoned(store, budget, done, single, plan, rest, local.records, local.writesLeft);
            return;
          }
          done := done + single.writes;
        }
      }
      assert items[|items|..] == [] && done + [] == done;
      ok := true;
    }

    /** The end of commit: verdict and meta record, from the records as they now are. */
    method Finish(next: Queue) returns (ok: bool)
      modifies local
      ensures var plan := FinishPlan(protocol, old(local.records), next);
              && Wrote(old(local.records), old(local.writesLeft), plan.writes, local.records, local.writesLeft)
              && ok == (plan.ok && |plan.writes| <= old(local.writesLeft))
    {
      ghost var store, budget := local.records, local.writesLeft;
      var loaded := LoadFromRecords();
      if loaded == Unreadable { return false; }
      var current := if loaded.Records? then loaded.queue else INITIAL;
      var meta := MetaWrite(current, next);
      ghost var verdictWrite := VerdictWrite(store, current, next);
      ok := true;
      if next.status.Terminal() && current.items != [] && next.items != []
         && current.items[0].eventId == next.items[0].eventId
         && TerminalKey(current.items[0].eventId) !in local.records {
        var e := current.items[0].eventId;
        WroteOne(store, budget, [], Put(TerminalKey(e), TerminalRecord(e, next.status)), local.records,
                 local.writesLeft);
        ok := local.SetItem(TerminalKey(e), TerminalRecord(e, next.status));
      }
      if !ok {
        WroteStopped(store, budget, [] + verdictWrite, verdictWrite + [meta], local.records, local.writesLeft);
        return;
      }
      WroteOne(store, budget, verdictWrite, meta, local.records, local.writesLeft);
      ok := local.SetItem(MetaKey, meta.record);
    }

    method Commit(base: Queue, next: Queue) returns (committed: Option<Queue>)
      modifies local
      ensures var plan := CommitPlan(protocol, old(local.records), base, next);
              && Wrote(old(local.records), old(local.writesLeft), plan.writes, local.records, local.writesLeft)
              && (committed.Some? <==> plan.ok && |plan.writes| <= old(local.writesLeft)
                                       && QueueRecords.LoadFromRecords(protocol, local.records) != Unreadable)
      ensures committed.Some? ==> committed.value == Current(protocol, local.records)
    {
      ghost var store, budget, plan := local.records, local.writesLeft, CommitPlan(protocol, local.records, base, next);
      var ok := ValidateQueueState(protocol, base);
      if !ok { return None; }
      ok := ValidateQueueState(protocol, next);
      if !ok { return None; }

      var nextIds := set i | i in next.items :: i.eventId;
      ghost var removed := RemovalWrites(base.items, nextIds);
      ok := RemoveDequeued(base.items, nextIds);
      if !ok {
        WroteStopped(store, budget, removed, plan.writes, local.records, local.writesLeft);
        return None;
      }
      ghost var cleared, left := local.records, local.writesLeft;
      assert cleared == Apply(store, removed);

      var baseIds := set i | i in base.items :: i.eventId;
      ghost var added := AdditionPlan(cleared, next.items, baseIds);
      ok := AddEnqueued(next.items, baseIds);
      WroteThen(store, budget, removed, cleared, left, added.writes, local.records, local.writesLeft);
      if !ok {
        if added.ok {
          WroteStopped(store, budget, removed + added.writes, plan.writes, local.records, local.writesLeft);
        }
        return None;
      }
      ghost var mid, room := local.records, local.writesLeft;
      assert mid == Apply(cleared, added.writes);

      ok := Finish(next);
      WroteThen(store, budget, removed + added.writes, mid, room, FinishPlan(protocol, mid, next).writes,
                local.records, local.writesLeft);
      if !ok { return None; }
      var loaded := LoadFromRecords();
      if loaded == Unreadable { return None; }
      return Some(if loaded.Records? then loaded.queue else INITIAL);
    }
  }

  /** A plan whose first writes are already done. */
  function After(done: seq<Write>, rest: Plan): Plan { Plan(done + rest.writes, rest.ok) }

  lemma AfterAfter(done: seq<Write>, ws: seq<Write>, rest: Plan)
    ensures After(done, After(ws, rest)) == After(done + ws, rest)
  {}

  lemma OneThenRest(store: Store, item: Item, items: seq<Item>, baseIds: set<string>)
    requires items != [] && items[0] == item && item.eventId !in baseIds
    ensures var single := AdditionPlan(store, [item], {});
            AdditionPlan(store, items, baseIds)
            == if single.ok then After(single.writes, AdditionPlan(Apply(store, single.writes), items[1..], baseIds))
               else single
  {
    SingleItemPlan(store, item);
  }

  lemma WroteThen(store: Store, budget: nat, done: seq<Write>, mid: Store, left: nat, ws: seq<Write>, records: Store,
                  writesLeft: nat)
    requires |done| <= budget && Wrote(store, budget, done, mid, left) && Wrote(mid, left, ws, records, writesLeft)
    ensures Wrote(store, budget, done + ws, records, writesLeft)
  {
    ApplyAppend(store, done, Cut(ws, left));
    assert Cut(done + ws, budget) == done + Cut(ws, left);
  }

  /** A failed addition, by a conflict or by a write, is where the plan ends or is cut. */
  lemma Abandoned(store: Store, budget: nat, done: seq<Write>, single: Plan, plan: Plan, rest: Plan, records: Store,
                  writesLeft: nat)
    requires plan == After(done, if single.ok then After(single.writes, rest) else single)
    requires Wrote(store, budget, done + single.writes, records, writesLeft) && |done| <= budget
    requires !(single.ok && |done + single.writes| <= budget)
    ensures Wrote(store, budget, plan.writes, records, writesLeft) && !(plan.ok && |plan.writes| <= budget)
  {
    if single.ok {
      assert plan.writes == (done + single.writes) + rest.writes;
      WroteStopped(store, budget, done + single.writes, plan.writes, records, writesLeft);
    }
  }

  lemma SingleItemPlan(store: Store, item: Item)
    ensures AdditionPlan(store, [item], {})
            == if SequenceTaken(store, item) then Plan([], false)
               else if ItemDiffers(store, item) then Plan(MarkerWrite(store, item), false)
               else Plan(MarkerWrite(store, item) + ItemWrite(store, item), true)
  {
    assert [item][0] == item && [item][1..] == [];
    assert MarkerWrite(store, item) + ItemWrite(store, item) + [] == MarkerWrite(store, item) + ItemWrite(store, item);
  }

  /** The first writes of `ws` got through, as many as there was room for. */
  ghost predicate Wrote(store: Store, budget: nat, ws: seq<Write>, records: Store, writesLeft: nat) {
    && records == Apply(store, Cut(ws, budget))
    && writesLeft == if |ws| <= budget then budget - |ws| else 0
  }

  lemma WroteOne(store: Store, budget: nat, done: seq<Write>, w: Write, records: Store, writesLeft: nat)
    requires |done| <= budget && Wrote(store, budget, done, records, writesLeft)
    ensures writesLeft > 0 <==> |done + [w]| <= budget
    ensures writesLeft > 0 ==> Wrote(store, budget, done + [w], ApplyOne(records, w), writesLeft - 1)
    ensures writesLeft == 0 ==> Wrote(store, budget, done + [w], records, 0)
  {
    ApplyAppend(store, done, [w]);
    assert Apply(records, [w]) == ApplyOne(records, w) by { assert [w][1..] == []; }
    if writesLeft == 0 { assert Cut(done + [w], budget) == done; }
  }

  lemma PairSplits(done: seq<Write>, first: Write, second: Write, rest: seq<Write>, all: seq<Write>)
    requires done + ([first, second] + rest) == all
    ensures done + [first] <= all && done + [first] + [second] <= all && done + [first] + [second] + rest == all
  {}

  lemma WroteStopped(store: Store, budget: nat, ws: seq<Write>, all: seq<Write>, records: Store, writesLeft: nat)
    requires |ws| > budget && ws <= all && Wrote(store, budget, ws, records, writesLeft)
    ensures Wrote(store, budget, all, records, writesLeft) && |all| > budget
  {
    assert all[..budget] == ws[..budget];
  }

  lemma NoMarkers(store: Store, markers: map<nat, string>)
    requires MarkersReadable(store)
    requires forall n: nat, e :: (n in markers && markers[n] == e) <==> Marked(store, n, e)
    ensures markers == map[] <==> forall n: nat :: SequenceKey(n) !in store
    ensures forall n: nat :: n in markers <==> SequenceKey(n) in store
  {
    forall n: nat ensures n in markers <==> SequenceKey(n) in store {
      if n in markers { assert Marked(store, n, markers[n]); }
      if SequenceKey(n) in store {
        assert MarkerReadable(store, n);
        assert Marked(store, n, store[SequenceKey(n)].eventId);
      }
    }
    if markers == map[] { assert forall n: nat :: n !in markers; }
    if markers != map[] { var n :| n in markers; assert SequenceKey(n) in store; }
  }

  lemma RecordsAre(protocol: Protocol, store: Store, items: seq<Item>, next: nat, cache: Option<Cache>)
    requires MarkersReadable(store) && ItemsReadable(protocol, store) && MetaReadable(store)
    requires items == ItemsOf(protocol, store) && next == NextOf(store) && cache == CacheOf(store)
    requires !(MetaKey !in store && items == [] && forall n: nat :: SequenceKey(n) !in store)
    ensures QueueRecords.LoadFromRecords(protocol, store)
            == if HeadTerminalReadable(store, items) then Records(Queue(next, StatusOf(store, items), items, cache))
               else Unreadable
  {}

  lemma NextIs(store: Store, markers: map<nat, string>, minimumNext: nat, next: nat)
    requires MetaReadable(store) && forall n: nat :: n in markers <==> SequenceKey(n) in store
    requires forall n :: n in markers ==> n < minimumNext
    requires minimumNext == 0 || minimumNext - 1 in markers
    requires next == if MetaKey in store && minimumNext < store[MetaKey].nextLocalSequence
                     then store[MetaKey].nextLocalSequence else minimumNext
    ensures next == NextOf(store)
  {
    var b := NextOf(store);
    if b > 0 && SequenceKey(b - 1) in store { assert b - 1 in markers; }
    if minimumNext > 0 { assert SequenceKey(minimumNext - 1) in store; }
  }

  /** No two stored items share a number, so sorting them by number leaves no choice. */
  lemma SortedItems(protocol: Protocol, store: Store, found: seq<Item>)
    requires MarkersReadable(store) && ItemsReadable(protocol, store)
    requires forall i :: i in found <==> Stored(store, i)
    requires forall j, k :: 0 <= j < k < |found| ==> found[j] != found[k]
    ensures Sort(EarlierSequence, found) == ItemsOf(protocol, store)
  {
    var sorted := Sort(EarlierSequence, found);
    SortSorted(EarlierSequence, found);
    SameMembers(found, sorted);
    DistinctStays(found, sorted);
    forall j, k | 0 <= j < k < |sorted| ensures sorted[j].localSequence < sorted[k].localSequence {
      assert sorted[j] in sorted && sorted[k] in sorted;
      assert EarlierSequence(sorted[j], sorted[k]);
      DistinctNumbers(protocol, store, sorted[j], sorted[k]);
    }
    ItemsAre(protocol, store, sorted);
  }

  lemma {:induction false} DistinctStays(a: seq<Item>, b: seq<Item>)
    requires multiset(a) == multiset(b)
    requires forall j, k :: 0 <= j < k < |a| ==> a[j] != a[k]
    ensures forall j, k :: 0 <= j < k < |b| ==> b[j] != b[k]
  {
    forall i ensures multiset(a)[i] <= 1 { Once(a, i); }
    forall j, k | 0 <= j < k < |b| ensures b[j] != b[k] {
      assert b == b[..j] + [b[j]] + b[j + 1..k] + [b[k]] + b[k + 1..];
      assert multiset(b)[b[j]] <= 1;
      assert multiset(b)
        == multiset(b[..j]) + multiset{b[j]} + multiset(b[j + 1..k]) + multiset{b[k]} + multiset(b[k + 1..]);
    }
  }

  lemma {:induction false} Once(a: seq<Item>, i: Item)
    requires forall j, k :: 0 <= j < k < |a| ==> a[j] != a[k]
    ensures multiset(a)[i] <= 1
  {
    if a != [] {
      assert a == [a[0]] + a[1..];
      Once(a[1..], i);
      HeadNotInTail(a);
    }
  }

  lemma HeadNotInTail(a: seq<Item>)
    requires a != [] && forall j, k :: 0 <= j < k < |a| ==> a[j] != a[k]
    ensures a[0] !in a[1..]
  {
    forall k | 0 <= k < |a[1..]| ensures a[1..][k] != a[0] { assert a[1..][k] == a[k + 1]; }
  }

  // ---------------------------------------------------------------- createKioskOfflineQueue

  class KioskOfflineQueue {
    const storage: BrowserQueueStorage

    constructor (storage: BrowserQueueStorage)
      ensures this.storage == storage
    {
      this.storage := storage;
    }

    method LoadState() returns (state: Option<Queue>)
      ensures state == QueueRecords.LoadState(storage.protocol, storage.local.records)
    {
      var loaded := storage.LoadFromRecords();
      match loaded
      case Nothing => state := Some(INITIAL);
      case Unreadable => state := None;
      case Records(q) =>
        var ok := ValidateQueueState(storage.protocol, q);
        state := if ok then Some(q) else None;
    }

    method CommitState(base: Queue, next: Queue) returns (saved: Option<Queue>)
      modifies storage.local
      ensures (storage.local.records, saved)
              == TryCommit(storage.protocol, old(storage.local.records), base, next, old(storage.local.writesLeft))
    {
      var ok := ValidateQueueState(storage.protocol, next);
      if !ok { return None; }
      var committed := storage.Commit(base, next);
      if committed.None? { return None; }
      ok := ValidateQueueState(storage.protocol, committed.value);
      InitialIsValid(storage.protocol);
      saved := if ok then committed else None;
    }

    method Enqueue(item: Item) returns (r: EnqueueResult)
      modifies storage.local
      ensures (storage.local.records, r)
              == EnqueueOp(storage.protocol, old(storage.local.records), item, old(storage.local.writesLeft))
    {
      var loaded := LoadState();
      if loaded.None? { return QueueStateInvalid; }
      var state := loaded.value;
      if state.status.Terminal() { return ReplayBlocked; }
      if !ValidItem(storage.protocol, item) { return InvalidItem; }
      if item.localSequence != state.next { return SequenceMismatch(state.next); }
      if exists i :: i in state.items && i.eventId == item.eventId { return DuplicateEventId; }
      if state.next == MAX_SAFE_INTEGER { return SequenceExhausted; }
      var saved := CommitState(state, Enqueued(state, item));
      if saved.None? { return WriteFailed; }
      return Accepted;
    }
  }

  lemma InitialIsValid(protocol: Protocol)
    ensures ValidQueue(protocol, INITIAL)
  {}

  /** One call of replay; each method is a stretch between two awaits. */
  class ReplayCall {
    const queue: KioskOfflineQueue
    var phase: Phase
    var processed: nat
    var submitted: seq<Item>

    ghost function Progress(): Call
      reads this
    {
      Call(phase, processed, submitted)
    }

    constructor (queue: KioskOfflineQueue)
      ensures this.queue == queue && Progress() == BeginReplay(queue.storage.protocol, queue.storage.local.records)
    {
      this.queue := queue;
      this.phase, this.processed, this.submitted := Finished, 0, [];
      new;
      var loaded := queue.LoadState();
      if loaded.Some? {
        var cache := loaded.value.cache;
        phase := Refreshing(if cache.Some? then Some(cache.value.projectionRevision) else None);
      }
    }

    /** The loop test and, if there is one, the submission of the head. */
    method SubmitHead(state: Queue)
      modifies this
      ensures Progress() == Continue(queue.storage.protocol, old(Progress()), state)
    {
      if state.items == [] {
        phase := Finished;
      } else {
        var head := state.items[0];
        submitted := submitted + [head];
        phase := if queue.storage.protocol == V2 then Posting(head) else Looking(head);
      }
    }

    method Refreshed(answer: RefreshAnswer, syncedAt: Option<string>)
      requires phase.Refreshing?
      modifies this, queue.storage.local
      ensures (queue.storage.local.records, Progress())
              == AfterRefresh(queue.storage.protocol, old(queue.storage.local.records), old(Progress()), answer,
                              syncedAt, old(queue.storage.local.writesLeft))
    {
      var revision := RefreshedRevision(phase.known, answer);
      if syncedAt.None? || revision.None? { phase := Finished; return; }
      var loaded := queue.LoadState();
      if loaded.None? { phase := Finished; return; }
      var state := loaded.value;
      var saved := queue.CommitState(state, state.(cache := Some(Cache(revision.value, syncedAt.value))));
      if saved.None? || saved.value.status.Terminal() { phase := Finished; return; }
      SubmitHead(saved.value);
    }

    /** A matching receipt for the head that is still there. */
    method TakeHead(state: Queue)
      requires state.items != []
      modifies this, queue.storage.local
      ensures (queue.storage.local.records, Progress())
              == AfterTaking(queue.storage.protocol, old(Progress()), old(Progress()).(processed := old(processed) + 1),
                             TryCommit(queue.storage.protocol, old(queue.storage.local.records), state, Dequeued(state),
                                       old(queue.storage.local.writesLeft)))
    {
      var saved := queue.CommitState(state, Dequeued(state));
      if saved.None? { phase := Finished; return; }
      processed := processed + 1;
      SubmitHead(saved.value);
    }

    /** The body of the loop after `submitEvent` for `head` has answered. */
    method Answered(head: Item, response: Response)
      modifies this, queue.storage.local
      ensures (queue.storage.local.records, Progress())
              == AfterResponse(queue.storage.protocol, old(queue.storage.local.records), old(Progress()), head,
                               response, old(queue.storage.local.writesLeft))
    {
      var loaded := queue.LoadState();
      if loaded.None? { phase := Finished; return; }
      var decision := Judge(loaded.value, head, response);
      DecisionRule(queue.storage.protocol, loaded.value, Progress(), head, response);
      CarryOut(loaded.value, decision);
    }

    method CarryOut(state: Queue, decision: Decision)
      requires decision.TakeHead? ==> state.items != [] && decision.counted == Progress().(processed := processed + 1)
      modifies this, queue.storage.local
      ensures (queue.storage.local.records, Progress())
              == AfterDecision(queue.storage.protocol, old(queue.storage.local.records), state, old(Progress()),
                               decision, old(queue.storage.local.writesLeft))
    {
      match decision
      case Leave(call') => phase, processed, submitted := call'.phase, call'.processed, call'.submitted;
      case TakeHead(_) => TakeHead(state);
      case Mark(verdict) =>
        var saved := queue.CommitState(state, state.(status := verdict));
        phase := Finished;
    }

    /**
      reloadHead and the cascade of tests on the response. The head is taken exactly on its own confirmation, and
      marked exactly on its own refusal or review, while it is first and unchanged.
    */
    method Judge(state: Queue, head: Item, response: Response) returns (decision: Decision)
      ensures decision.TakeHead?
              <==> && state.items != [] && state.items[0] == head && !state.status.Terminal()
                   && response.Answer? && response.body.AppliedBody?
                   && AppliedStatus(queue.storage.protocol, response.status, response.body.replayed)
                   && Acknowledges(queue.storage.protocol, response.body.receipt, head)
      ensures decision.Mark?
              <==> && state.items != [] && state.items[0] == head
                   && Classify(queue.storage.protocol, response, head) in {NeedsReview, Rejected}
      ensures decision == Decide(queue.storage.protocol, state, Progress(), head, response)
    {
      var protocol, call := queue.storage.protocol, Call(phase, processed, submitted);
      var stopped := Leave(call.(phase := Finished));
      var headPresent := exists i :: i in state.items && i.eventId == head.eventId;
      ClassifyRule(protocol, response, head);
      if headPresent && state.items[0] != head { return stopped; }
      if response.NoAnswer? { return stopped; }
      var status, body := response.status, response.body;
      if protocol != V2 && status == 409 && body == Refusal(LegacyReviewRequired) { return stopped; }
      if body == NoObject || status < 100 || status >= 500 { return stopped; }
      if status == 401 || status == 403 { return stopped; }
      if !ValidResult(protocol, status, body) { return stopped; }
      if body.AppliedBody? && Acknowledges(protocol, body.receipt, head) {
        var counted := call.(processed := call.processed + 1);
        if !headPresent { return Leave(Continue(protocol, counted, state)); }
        if state.status.Terminal() { return stopped; }
        return Decision.TakeHead(counted);
      }
      if Reviews(protocol, status, body, head) {
        return if headPresent then Mark(ReviewRequired) else Leave(Continue(protocol, call, state));
      }
      if 400 <= status {
        return if headPresent then Mark(Conflict) else Leave(Continue(protocol, call, state));
      }
      return stopped;
    }

    /** The field transport of V3 and V4 between lookup and post, then the loop body. */
    method Transported(response: Response)
      requires phase.Looking? || phase.Posting?
      modifies this, queue.storage.local
      ensures queue.storage.protocol != V2 && old(phase).Looking? ==>
                (phase.Posting?
                 <==> && response == Answer(404, Refusal(EventNotFound))
                      && old(phase).head.recordingMode == DeviceDeclared)
      ensures (queue.storage.local.records, Progress())
              == QueueRuns.RespondOp(queue.storage.protocol, old(queue.storage.local.records), old(Progress()),
                                     response, old(queue.storage.local.writesLeft))
    {
      var protocol, head := queue.storage.protocol, phase.head;
      ghost var store, call, budget := queue.storage.local.records, Progress(), queue.storage.local.writesLeft;
      if phase.Posting? {
        Answered(head, Checked(protocol, head, response));
      } else {
        var lookup := AfterLookup(protocol, head, response);
        if protocol != V2 { QueueProgress.LookupPosts(protocol, store, call, response, budget); }
        if lookup == Post { phase := Posting(head); return; }
        Answered(head, lookup.response);
      }
    }
  }
}
