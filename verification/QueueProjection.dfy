/**
  The run state a tab shows while events are pending, and the run the server ends up with: a whole replay,
  over the store, the tabs and the network of QueueRuns, leads to exactly what was shown before it.
*/
module QueueProjection {
  import opened FieldProtocol
  import opened ActionState
  import opened QueueRecords
  import opened QueueRuns

  /** The items of one schedule item; the screen of V3 and V4 filters the queue so. */
  function ItemsFor(scheduleItemId: string, items: seq<Item>): (own: seq<Item>)
    ensures |own| <= |items|
  {
    if items == [] then []
    else if items[0].scheduleItemId == scheduleItemId then [items[0]] + ItemsFor(scheduleItemId, items[1..])
    else ItemsFor(scheduleItemId, items[1..])
  }

  /** The pending items a screen folds: that of V2 takes the whole queue. */
  function ScreenItems(protocol: Protocol, scheduleItemId: string, items: seq<Item>): seq<Item> {
    if protocol == V2 then items else ItemsFor(scheduleItemId, items)
  }

  /** A whole list continues the run exactly when it holds no foreign items and its own ones do. */
  lemma {:induction false} ForeignItemShows(scheduleItemId: string, run: Run, items: seq<Item>)
    ensures var own := ItemsFor(scheduleItemId, items);
            ValidContext(scheduleItemId, run, items) <==> own == items && ValidContext(scheduleItemId, run, own)
    decreases |items|
  {
    FoldPrefix(scheduleItemId, run, items);
    if items != [] && items[0].scheduleItemId == scheduleItemId {
      var own := ItemsFor(scheduleItemId, items);
      assert own[0] == items[0] && own[1..] == ItemsFor(scheduleItemId, items[1..]);
      assert items == [items[0]] + items[1..];
      if Continues(scheduleItemId, run, items[0]) {
        FoldPrefix(scheduleItemId, Advance(run, items[0]), items[1..]);
        FoldPrefix(scheduleItemId, Advance(run, items[0]), own[1..]);
        ForeignItemShows(scheduleItemId, Advance(run, items[0]), items[1..]);
      }
    }
  }

  /** Enqueued here and not yet applied by the server. */
  function Unapplied(w: World): seq<Item>
    requires InOrder(w)
  {
    w.enqueued[|w.server.log|..]
  }

  /** The run a schedule item is heading for. */
  function Projected(w: World, scheduleItemId: string): Run
    requires InOrder(w)
  {
    Fold(scheduleItemId, w.server.RunOf(scheduleItemId), ItemsFor(scheduleItemId, Unapplied(w))).0
  }

  /** Each pending event of the schedule item continues its run. */
  ghost predicate OnCourse(w: World, scheduleItemId: string) {
    InOrder(w) && ValidContext(scheduleItemId, w.server.RunOf(scheduleItemId), ItemsFor(scheduleItemId, Unapplied(w)))
  }

  /** Nothing but replays: no new events here, and nobody else changes the server's runs. */
  predicate OnlyReplays(a: Action) { !a.Enqueue? && !a.OthersChange? }

  lemma NothingNewHere(protocol: Protocol, w: World, a: Action)
    requires Enabled(protocol, w, a) && OnlyReplays(a) && !a.Process?
    ensures Next(protocol, w, a).enqueued == w.enqueued && Next(protocol, w, a).server == w.server
  {}

  /** Applying the first of the pending items: its own run advances, the others stay. */
  lemma FirstApplied(server: Server, item: Item, receipt: Receipt, rest: seq<Item>, s: string)
    requires item.eventId !in server.receipts && Accepts(server.RunOf(item.scheduleItemId), item)
    requires ValidContext(s, server.RunOf(s), ItemsFor(s, [item] + rest))
    ensures var server' := server.Process(item, receipt);
            && ValidContext(s, server'.RunOf(s), ItemsFor(s, rest))
            && Fold(s, server'.RunOf(s), ItemsFor(s, rest)).0 == Fold(s, server.RunOf(s), ItemsFor(s, [item] + rest)).0
  {
    assert ([item] + rest)[1..] == rest;
    var pending := ItemsFor(s, [item] + rest);
    if item.scheduleItemId == s {
      assert pending[0] == item && pending[1..] == ItemsFor(s, rest);
      FoldPrefix(s, Advance(server.RunOf(s), item), pending[1..]);
    }
  }

  lemma AppliedNext(w: World, item: Item, receipt: Receipt, s: string)
    requires OnCourse(w, s) && item.eventId !in w.server.receipts && Accepts(w.server.RunOf(item.scheduleItemId), item)
    requires |w.server.log| == |w.removed| < |w.enqueued| && item == w.enqueued[|w.removed|]
    ensures var w' := w.(server := w.server.Process(item, receipt));
            InOrder(w') && OnCourse(w', s) && Projected(w', s) == Projected(w, s)
  {
    var w' := w.(server := w.server.Process(item, receipt));
    LoggedNext(w.server.log, w.enqueued, item);
    assert w'.server.log == w.server.log + [item];
    SplitFirst(w.enqueued, |w.server.log|);
    FirstApplied(w.server, item, receipt, w.enqueued[|w.server.log| + 1..], s);
  }

  lemma SplitFirst(items: seq<Item>, n: nat)
    requires n < |items|
    ensures items[n..] == [items[n]] + items[n + 1..]
  {}

  /** As long as the server is not a step ahead, what is unapplied is what is queued. */
  lemma UnappliedIsQueued(protocol: Protocol, w: World)
    requires Inv(protocol, w)
    ensures Unapplied(w) == ItemsOf(protocol, w.store) <==> |w.server.log| == |w.removed|
  {
    assert |w.enqueued| == |w.removed| + |ItemsOf(protocol, w.store)|;
  }

  /** No step of a replay, in any tab and with late or repeated requests, moves the projection. */
  lemma StepKeepsProjection(protocol: Protocol, w: World, a: Action, s: string)
    requires Inv(protocol, w) && Enabled(protocol, w, a) && OnlyReplays(a) && OnCourse(w, s)
    ensures OnCourse(Next(protocol, w, a), s) && Projected(Next(protocol, w, a), s) == Projected(w, s)
  {
    StepKeepsInv(protocol, w, a);
    if a.Process? {
      if a.item.eventId !in w.server.receipts && Accepts(w.server.RunOf(a.item.scheduleItemId), a.item) {
        NewToServerIsNext(protocol, w, a.item);
        AppliedNext(w, a.item, a.receipt, s);
      }
    } else {
      NothingNewHere(protocol, w, a);
    }
  }

  lemma {:induction false} RunKeepsProjection(protocol: Protocol, w: World, run: seq<Action>, s: string)
    requires Inv(protocol, w) && ValidRun(protocol, w, run) && OnCourse(w, s)
    requires forall a :: a in run ==> OnlyReplays(a)
    ensures OnCourse(RunFrom(protocol, w, run), s) && Projected(RunFrom(protocol, w, run), s) == Projected(w, s)
    decreases |run|
  {
    if run != [] {
      assert run[0] in run;
      StepKeepsInv(protocol, w, run[0]);
      StepKeepsProjection(protocol, w, run[0], s);
      RunKeepsProjection(protocol, Next(protocol, w, run[0]), run[1..], s);
    }
  }

  /** Once the queue has run empty, all that was enqueued has been applied. */
  lemma EmptyMeansApplied(protocol: Protocol, w: World)
    requires Inv(protocol, w) && ItemsOf(protocol, w.store) == []
    ensures Unapplied(w) == []
  {}

  /** The view of a schedule item over all that the server has still to apply. */
  function Shown(w: World, s: string): View
    requires InOrder(w)
  {
    Derive(s, w.server.RunOf(s), ItemsFor(s, Unapplied(w)), true, false)
  }

  /**
    A full replay ends with the server's run in exactly the state, run id and revision projected before it began,
    whatever tabs took part in it and however often its messages were lost, late or repeated.
  */
  lemma ReplayReachesProjection(protocol: Protocol, w: World, run: seq<Action>, s: string)
    requires Inv(protocol, w) && ValidRun(protocol, w, run) && OnCourse(w, s)
    requires forall a :: a in run ==> OnlyReplays(a)
    requires RecordsReadable(protocol, RunFrom(protocol, w, run).store)
    requires ItemsOf(protocol, RunFrom(protocol, w, run).store) == []
    ensures RunFrom(protocol, w, run).server.RunOf(s) == RunIn(Shown(w, s))
    ensures !Shown(w, s).invalidPendingContext
  {
    RunKeepsProjection(protocol, w, run, s);
    RunKeepsInv(protocol, w, run);
    EmptyMeansApplied(protocol, RunFrom(protocol, w, run));
  }

  // ---------------------------------------------------------------- what a screen shows

  /** The server has applied the head of the queue, and its answer is still out. */
  predicate OneAhead(w: World) { |w.server.log| == |w.removed| + 1 }

  /** The run of a schedule item before the server applied what the queue still holds. */
  predicate RunBefore(w: World, s: string, fetched: Run)
    requires InOrder(w)
  {
    if OneAhead(w) && w.enqueued[|w.removed|].scheduleItemId == s
    then Accepts(fetched, w.enqueued[|w.removed|]) && w.server.RunOf(s) == Advance(fetched, w.enqueued[|w.removed|])
    else fetched == w.server.RunOf(s)
  }

  lemma QueuedOneAhead(protocol: Protocol, w: World)
    requires Inv(protocol, w) && OneAhead(w)
    ensures ItemsOf(protocol, w.store) == [w.enqueued[|w.removed|]] + Unapplied(w)
  {
    RestAfterOne(w.enqueued, w.removed, ItemsOf(protocol, w.store));
  }

  lemma RestAfterOne(all: seq<Item>, first: seq<Item>, rest: seq<Item>)
    requires all == first + rest && |first| < |all|
    ensures rest == [all[|first|]] + all[|first| + 1..]
  {}

  /** The stored items of a schedule item, over the run from before they were applied, lead where its run is heading. */
  lemma StoredProjection(protocol: Protocol, w: World, s: string, fetched: Run)
    requires Inv(protocol, w) && OnCourse(w, s) && RunBefore(w, s, fetched)
    ensures var own := ItemsFor(s, ItemsOf(protocol, w.store));
            ValidContext(s, fetched, own) && Fold(s, fetched, own).0 == Projected(w, s)
  {
    if OneAhead(w) {
      QueuedOneAhead(protocol, w);
      HeadBefore(s, fetched, w.server.RunOf(s), w.enqueued[|w.removed|], Unapplied(w));
    } else {
      UnappliedIsQueued(protocol, w);
    }
  }

  lemma HeadBefore(s: string, fetched: Run, now: Run, head: Item, rest: seq<Item>)
    requires if head.scheduleItemId == s then Accepts(fetched, head) && now == Advance(fetched, head)
             else now == fetched
    requires ValidContext(s, now, ItemsFor(s, rest))
    ensures var own := ItemsFor(s, [head] + rest);
            ValidContext(s, fetched, own) && Fold(s, fetched, own).0 == Fold(s, now, ItemsFor(s, rest)).0
  {
    assert ([head] + rest)[1..] == rest;
    var own := ItemsFor(s, [head] + rest);
    if head.scheduleItemId == s { assert own[0] == head && own[1..] == ItemsFor(s, rest); }
  }

  /** What the screen shows: the stored items over the run it has last fetched. */
  ghost function OnScreen(protocol: Protocol, w: World, s: string, fetched: Run): View
    requires Inv(protocol, w)
  {
    Derive(s, fetched, ScreenItems(protocol, s, ItemsOf(protocol, w.store)), true, false)
  }

  /**
    A screen that has not yet seen the server a step ahead shows where the run is heading; that of V2 shows an
    invalid list instead when items of other schedule items are queued too.
  */
  lemma ScreenShowsProjection(protocol: Protocol, w: World, s: string, fetched: Run)
    requires Inv(protocol, w) && OnCourse(w, s) && RunBefore(w, s, fetched)
    ensures var items := ItemsOf(protocol, w.store);
            OnScreen(protocol, w, s, fetched).invalidPendingContext <==> protocol == V2 && ItemsFor(s, items) != items
    ensures !OnScreen(protocol, w, s, fetched).invalidPendingContext ==>
              RunIn(OnScreen(protocol, w, s, fetched)) == RunIn(Shown(w, s))
  {
    StoredProjection(protocol, w, s, fetched);
    ScreenView(protocol, s, fetched, ItemsOf(protocol, w.store));
    ProjectionShown(w, s);
  }

  lemma ScreenView(protocol: Protocol, s: string, fetched: Run, items: seq<Item>)
    requires ValidContext(s, fetched, ItemsFor(s, items))
    ensures var view := Derive(s, fetched, ScreenItems(protocol, s, items), true, false);
            && (view.invalidPendingContext <==> protocol == V2 && ItemsFor(s, items) != items)
            && (!view.invalidPendingContext ==> RunIn(view) == Fold(s, fetched, ItemsFor(s, items)).0)
  {
    FoldPrefix(s, fetched, items);
    ForeignItemShows(s, fetched, items);
  }

  lemma ProjectionShown(w: World, s: string)
    requires OnCourse(w, s)
    ensures RunIn(Shown(w, s)) == Projected(w, s)
  {}

  /** Once it has fetched the run of a server that is a step ahead, it offers nothing until the answer is in. */
  lemma FreshScreenOneAhead(protocol: Protocol, w: World, s: string, before: Run)
    requires Inv(protocol, w) && OneAhead(w) && w.enqueued[|w.removed|].scheduleItemId == s && RunBefore(w, s, before)
    ensures var view := OnScreen(protocol, w, s, w.server.RunOf(s)); view.invalidPendingContext && view.actions == {}
  {
    QueuedOneAhead(protocol, w);
    var items := ItemsOf(protocol, w.store);
    assert ScreenItems(protocol, s, items)[0] == w.enqueued[|w.removed|];
    ServerAheadOffersNothing(s, w.server.RunOf(s), ScreenItems(protocol, s, items), true, false);
  }

  /** A full replay ends with the server's run as the screen had shown it. */
  lemma ReplayReachesScreen(protocol: Protocol, w: World, run: seq<Action>, s: string, fetched: Run)
    requires Inv(protocol, w) && ValidRun(protocol, w, run) && OnCourse(w, s) && RunBefore(w, s, fetched)
    requires forall a :: a in run ==> OnlyReplays(a)
    requires RecordsReadable(protocol, RunFrom(protocol, w, run).store)
    requires ItemsOf(protocol, RunFrom(protocol, w, run).store) == []
    requires !OnScreen(protocol, w, s, fetched).invalidPendingContext
    ensures RunFrom(protocol, w, run).server.RunOf(s) == RunIn(OnScreen(protocol, w, s, fetched))
  {
    ReplayReachesProjection(protocol, w, run, s);
    ScreenShowsProjection(protocol, w, s, fetched);
  }
}
