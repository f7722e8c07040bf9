/**
  An action that the screen offers, taken through enqueue: whether it becomes an item, and whether the item
  continues what is pending.
*/
module QueueOffers {
  import opened Options
  import opened FieldProtocol
  import opened ActionState
  import opened QueueRecords
  import opened QueueOperations
  import opened QueueRefinement
  import opened Replay
  import opened QueueSimulation
  import opened QueueProjection

  /** The item of an offered action as the screen fills it in. */
  function OfferItem(protocol: Protocol, q: Queue, s: string, run: Run, action: EventType, template: Item): Item {
    ItemFor(Derive(s, run, ScreenItems(protocol, s, q.items), true, false), action, template, s)
  }

  /** The screen gives a new event the next number, and its queue takes events. */
  ghost predicate Ready(protocol: Protocol, store: Store, q: Queue, template: Item) {
    && Healthy(protocol, store) && LoadState(protocol, store) == Some(q) && !q.status.Terminal()
    && !KnownId(store, template.eventId) && template.localSequence == q.next < MAX_SAFE_INTEGER
  }

  lemma {:induction false} OwnItemAppended(s: string, items: seq<Item>, item: Item)
    requires item.scheduleItemId == s
    ensures ItemsFor(s, items + [item]) == ItemsFor(s, items) + [item]
    decreases |items|
  {
    if items == [] {
      assert [] + [item] == [item] && [item][1..] == [];
    } else {
      assert (items + [item])[0] == items[0] && (items + [item])[1..] == items[1..] + [item];
      OwnItemAppended(s, items[1..], item);
    }
  }

  lemma OfferOnScreen(protocol: Protocol, q: Queue, s: string, run: Run, action: EventType, template: Item)
    ensures var item := OfferItem(protocol, q, s, run, action, template);
            ScreenItems(protocol, s, Enqueued(q, item).items) == ScreenItems(protocol, s, q.items) + [item]
  {
    OwnItemAppended(s, q.items, OfferItem(protocol, q, s, run, action, template));
  }

  /**
    What becomes of an offered action when the writes go through. Block and resume have no item under V3 and V4,
    and are refused. Every other one is stored, and the screen goes on exactly unless the run lacked an id: then
    the stored item leaves it with an invalid list and nothing to offer.
  */
  lemma OfferEnqueued(protocol: Protocol, store: Store, q: Queue, s: string, run: Run, action: EventType,
                      template: Item, budget: nat)
    requires Ready(protocol, store, q, template) && budget >= 3
    requires action in Derive(s, run, ScreenItems(protocol, s, q.items), true, false).actions
    requires WellFilled(protocol, OfferItem(protocol, q, s, run, action, template))
    ensures var pending, item := ScreenItems(protocol, s, q.items), OfferItem(protocol, q, s, run, action, template);
            var (after, r) := EnqueueOp(protocol, store, item, budget);
            if !HasItem(protocol, action) then r == InvalidItem && after == store
            else
              && r == Accepted && LoadState(protocol, after) == Some(Enqueued(q, item))
              && (Derive(s, run, ScreenItems(protocol, s, Enqueued(q, item).items), true, false).invalidPendingContext
                  <==> LacksId(run, pending, action))
  {
    var pending, item := ScreenItems(protocol, s, q.items), OfferItem(protocol, q, s, run, action, template);
    OfferIsItem(protocol, Derive(s, run, pending, true, false), action, template, s);
    if HasItem(protocol, action) {
      EnqueueReport(protocol, store, q, item, budget);
      OfferOnScreen(protocol, q, s, run, action, template);
      OfferContinues(s, run, pending, action, template);
      FoldPrefix(s, run, pending + [item]);
    }
  }

  /** A shooting run with its id, nothing pending: block is offered, and V3 refuses the item. */
  lemma OfferedBlockRefused(s: string, template: Item, budget: nat)
    ensures var view := Derive(s, Run(Some("RUN"), 1, Shooting), [], true, false);
            && Block in view.actions
            && EnqueueOp(V3, map[], ItemFor(view, Block, template, s), budget) == (map[], InvalidItem)
  {
    EmptyHealthy(V3);
  }

  /** A shooting run without an id, nothing pending: complete is offered and stored, and the screen is stuck with it. */
  lemma OfferWithoutIdSticks(s: string, template: Item)
    requires WellFilled(V3, template.(scheduleItemId := s, expectedRunRevision := 1)) && template.localSequence == 0
    ensures var run := Run(None, 1, Shooting);
            var item := ItemFor(Derive(s, run, [], true, false), Complete, template, s);
            var (after, r) := EnqueueOp(V3, map[], item, 3);
            && Complete in Derive(s, run, [], true, false).actions
            && r == Accepted && LoadState(V3, after) == Some(Enqueued(INITIAL, item))
            && Derive(s, run, [item], true, false).invalidPendingContext
  {
    EmptyHealthy(V3);
    assert forall e :: !KnownId(map[], e);
    OfferEnqueued(V3, map[], INITIAL, s, Run(None, 1, Shooting), Complete, template, 3);
    var item := OfferItem(V3, INITIAL, s, Run(None, 1, Shooting), Complete, template);
    assert [] + [item] == [item];
    OwnItemAppended(s, [], item);
  }
}
