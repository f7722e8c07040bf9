/**
  The optimistic run state (public/kiosk-control-lock.js, deriveKioskActionState): pending events are
  folded over the state the server last showed, and the actions the screen offers come from the result.
*/
module ActionState {
  import opened Options
  import opened FieldProtocol

  datatype View = View(state: RunState, runId: Option<string>, expectedRunRevision: nat,
                       unconfirmed: bool, invalidPendingContext: bool, actions: set<EventType>)

  function RunIn(view: View): Run { Run(view.runId, view.expectedRunRevision, view.state) }

  function OfferedBy(state: RunState): set<EventType> {
    match state
    case Scheduled => {Start}
    case Shooting => {Block, Complete}
    case Blocked => {Resume}
    case Completed => {}
    case Cancelled => {}
  }

  /** An item continues a run of this schedule item. */
  predicate Continues(scheduleItemId: string, run: Run, item: Item) {
    item.scheduleItemId == scheduleItemId && Accepts(run, item)
  }

  /** The run after the longest valid prefix of `pending`, and how long that prefix is. */
  function Fold(scheduleItemId: string, run: Run, pending: seq<Item>): (Run, nat)
    decreases |pending|
  {
    if pending == [] || !Continues(scheduleItemId, run, pending[0]) then (run, 0)
    else
      var (last, n) := Fold(scheduleItemId, Advance(run, pending[0]), pending[1..]);
      (last, n + 1)
  }

  ghost predicate ValidContext(scheduleItemId: string, run: Run, pending: seq<Item>) {
    Fold(scheduleItemId, run, pending).1 == |pending|
  }

  /**
    When an item fails only on its state transition, the source has already adopted the item's run id
    for a candidate run; the view then shows that id.
  */
  function ShownRunId(scheduleItemId: string, run: Run, next: Item): Option<string> {
    if run.runId.None? && next.scheduleItemId == scheduleItemId && next.eventType == Start
       && next.expectedRunRevision == run.revision
    then Some(next.runId) else run.runId
  }

  function Derive(scheduleItemId: string, run: Run, pending: seq<Item>, controlling: bool, busy: bool): View {
    var (last, n) := Fold(scheduleItemId, run, pending);
    if n < |pending| then
      View(last.state, ShownRunId(scheduleItemId, last, pending[n]), last.revision, true, true, {})
    else
      View(last.state, last.runId, last.revision, pending != [], false,
           if controlling && !busy then OfferedBy(last.state) else {})
  }

  lemma {:induction false} FoldPrefix(scheduleItemId: string, run: Run, pending: seq<Item>)
    ensures Fold(scheduleItemId, run, pending).1 <= |pending|
    decreases |pending|
  {
    if pending != [] && Continues(scheduleItemId, run, pending[0]) {
      FoldPrefix(scheduleItemId, Advance(run, pending[0]), pending[1..]);
    }
  }

  lemma {:induction false} FoldAppend(scheduleItemId: string, run: Run, a: seq<Item>, b: seq<Item>)
    requires ValidContext(scheduleItemId, run, a)
    ensures var (mid, _) := Fold(scheduleItemId, run, a);
            var (last, n) := Fold(scheduleItemId, mid, b);
            Fold(scheduleItemId, run, a + b) == (last, |a| + n)
    decreases |a|
  {
    if a == [] {
      assert a + b == b;
    } else {
      assert (a + b)[0] == a[0] && (a + b)[1..] == a[1..] + b;
      FoldPrefix(scheduleItemId, Advance(run, a[0]), a[1..]);
      FoldAppend(scheduleItemId, Advance(run, a[0]), a[1..], b);
    }
  }

  lemma FoldStep(scheduleItemId: string, run: Run, rest: seq<Item>)
    requires rest != []
    ensures !Continues(scheduleItemId, run, rest[0]) ==> Fold(scheduleItemId, run, rest) == (run, 0)
    ensures Continues(scheduleItemId, run, rest[0]) ==>
              var (last, n) := Fold(scheduleItemId, Advance(run, rest[0]), rest[1..]);
              Fold(scheduleItemId, run, rest) == (last, n + 1)
  {}

  /** The loop of deriveKioskActionState, with its early returns. */
  method DeriveKioskActionState(scheduleItemId: string, run: Run, pending: seq<Item>, controlling: bool, busy: bool)
    returns (view: View)
    ensures view == Derive(scheduleItemId, run, pending, controlling, busy)
  {
    var state, runId, revision, unconfirmed := run.state, run.runId, run.revision, false;
    FoldPrefix(scheduleItemId, run, pending);
    ghost var (last, n) := Fold(scheduleItemId, run, pending);
    assert pending[0..] == pending;
    for k := 0 to |pending|
      invariant Fold(scheduleItemId, Run(runId, revision, state), pending[k..]) == (last, n - k)
      invariant unconfirmed == (k > 0)
    {
      var item := pending[k];
      assert pending[k..][0] == item && pending[k..][1..] == pending[k + 1..];
      FoldStep(scheduleItemId, Run(runId, revision, state), pending[k..]);
      if item.scheduleItemId != scheduleItemId
         || (runId.Some? && item.runId != runId.value)
         || (runId.None? && item.eventType != Start)
         || item.expectedRunRevision != revision {
        return View(state, runId, revision, pending != [], true, {});
      }
      var next := NextState(state, item.eventType);
      if runId.None? { runId := Some(item.runId); }
      if next.None? {
        return View(state, runId, revision, true, true, {});
      }
      state, revision, unconfirmed := next.value, revision + 1, true;
    }
    view := View(state, runId, revision, unconfirmed, false, if controlling && !busy then OfferedBy(state) else {});
  }

  // ---------------------------------------------------------------- what a list of events shows

  /** Which event may follow a state, and where each leads. */
  predicate MayFollow(state: RunState, event: EventType) {
    || (state == Scheduled && event == Start) || (state == Shooting && event in {Block, Complete})
    || (state == RunState.Blocked && event == Resume)
  }

  function ReachedBy(event: EventType): RunState {
    if event == Complete then RunState.Completed else if event == Block then RunState.Blocked else Shooting
  }

  /** The state before the k-th event of the list: the one its predecessor leads to. */
  function StateBefore(run: Run, pending: seq<Item>, k: nat): RunState
    requires k <= |pending|
  {
    if k == 0 then run.state else ReachedBy(pending[k - 1].eventType)
  }

  /** The run id all events must carry: the server's, or the one its first event, a start, brings. */
  predicate CarriesId(run: Run, pending: seq<Item>, k: nat)
    requires k < |pending|
  {
    if run.runId.Some? then pending[k].runId == run.runId.value
    else pending[0].eventType == Start && pending[k].runId == pending[0].runId
  }

  predicate FollowsOn(scheduleItemId: string, run: Run, pending: seq<Item>, k: nat)
    requires k < |pending|
  {
    && pending[k].scheduleItemId == scheduleItemId && pending[k].expectedRunRevision == run.revision + k
    && CarriesId(run, pending, k) && MayFollow(StateBefore(run, pending, k), pending[k].eventType)
  }

  lemma StepMeans(run: Run, item: Item)
    ensures Accepts(run, item)
            <==> && (run.runId == None || run.runId == Some(item.runId))
                 && (run.runId == None ==> item.eventType == Start)
                 && item.expectedRunRevision == run.revision && MayFollow(run.state, item.eventType)
    ensures Accepts(run, item) ==>
              Advance(run, item) == Run(Some(item.runId), run.revision + 1, ReachedBy(item.eventType))
  {}

  lemma FollowsOnTail(scheduleItemId: string, run: Run, pending: seq<Item>, k: nat)
    requires pending != [] && k < |pending| - 1 && Continues(scheduleItemId, run, pending[0])
    ensures FollowsOn(scheduleItemId, run, pending, k + 1)
            <==> FollowsOn(scheduleItemId, Advance(run, pending[0]), pending[1..], k)
  {
    StepMeans(run, pending[0]);
  }

  /** A list is valid exactly when each of its events follows on from the one before, and how it ends. */
  lemma {:induction false} ValidListMeans(scheduleItemId: string, run: Run, pending: seq<Item>)
    ensures ValidContext(scheduleItemId, run, pending)
            <==> forall k :: 0 <= k < |pending| ==> FollowsOn(scheduleItemId, run, pending, k)
    ensures ValidContext(scheduleItemId, run, pending) && pending != [] ==>
              var item := pending[|pending| - 1];
              Fold(scheduleItemId, run, pending).0
              == Run(Some(item.runId), run.revision + |pending|, ReachedBy(item.eventType))
    decreases |pending|
  {
    FoldPrefix(scheduleItemId, run, pending);
    if pending != [] {
      StepMeans(run, pending[0]);
      assert Continues(scheduleItemId, run, pending[0]) <==> FollowsOn(scheduleItemId, run, pending, 0);
      if Continues(scheduleItemId, run, pending[0]) {
        FoldPrefix(scheduleItemId, Advance(run, pending[0]), pending[1..]);
        ValidListMeans(scheduleItemId, Advance(run, pending[0]), pending[1..]);
        TailsFollow(scheduleItemId, run, pending);
      }
    }
  }

  lemma TailsFollow(scheduleItemId: string, run: Run, pending: seq<Item>)
    requires pending != [] && Continues(scheduleItemId, run, pending[0])
    requires FollowsOn(scheduleItemId, run, pending, 0)
    ensures (forall k :: 0 <= k < |pending| ==> FollowsOn(scheduleItemId, run, pending, k))
            <==> forall k ::
                   0 <= k < |pending[1..]| ==> FollowsOn(scheduleItemId, Advance(run, pending[0]), pending[1..], k)
  {
    forall k | 0 <= k < |pending[1..]|
      ensures FollowsOn(scheduleItemId, run, pending, k + 1)
              <==> FollowsOn(scheduleItemId, Advance(run, pending[0]), pending[1..], k)
    {
      FollowsOnTail(scheduleItemId, run, pending, k);
    }
    if forall k :: 0 <= k < |pending[1..]| ==> FollowsOn(scheduleItemId, Advance(run, pending[0]), pending[1..], k) {
      forall k | 0 <= k < |pending| ensures FollowsOn(scheduleItemId, run, pending, k) {
        if k > 0 { assert FollowsOn(scheduleItemId, Advance(run, pending[0]), pending[1..], k - 1); }
      }
    }
  }

  /** The last event of a valid list fixes the whole view. */
  lemma LastEventShows(scheduleItemId: string, run: Run, pending: seq<Item>)
    requires pending != [] && ValidContext(scheduleItemId, run, pending)
    ensures var item := pending[|pending| - 1];
            Derive(scheduleItemId, run, pending, true, false)
            == match item.eventType
               case Start => View(Shooting, Some(item.runId), run.revision + |pending|, true, false, {Block, Complete})
               case Resume => View(Shooting, Some(item.runId), run.revision + |pending|, true, false, {Block, Complete})
               case Block => View(RunState.Blocked, Some(item.runId), run.revision + |pending|, true, false, {Resume})
               case Complete => View(RunState.Completed, Some(item.runId), run.revision + |pending|, true, false, {})
  {
    ValidListMeans(scheduleItemId, run, pending);
  }

  /** Only a tab in control that is not busy is offered anything; all else is shown alike. */
  lemma OnlyControllerActs(scheduleItemId: string, run: Run, pending: seq<Item>, controlling: bool, busy: bool)
    ensures var view := Derive(scheduleItemId, run, pending, true, false);
            Derive(scheduleItemId, run, pending, controlling, busy)
            == if controlling && !busy then view else view.(actions := {})
  {}

  /** With nothing pending the view is the server's run. */
  lemma NothingPendingShows(scheduleItemId: string, run: Run)
    ensures Derive(scheduleItemId, run, [], true, false)
            == View(run.state, run.runId, run.revision, false, false,
                    match run.state
                    case Scheduled => {Start}
                    case Shooting => {Block, Complete}
                    case Blocked => {Resume}
                    case _ => {})
  {}

  /**
    An invalid list is shown up to its longest valid part, without actions; if what breaks it off is a start in
    a run without id, wrong in its state alone, the view has taken its run id.
  */
  lemma {:induction false} BrokenListShows(scheduleItemId: string, run: Run, pending: seq<Item>, controlling: bool,
                                           busy: bool)
    returns (n: nat)
    requires !ValidContext(scheduleItemId, run, pending)
    ensures n < |pending| && ValidContext(scheduleItemId, run, pending[..n])
    ensures !ValidContext(scheduleItemId, run, pending[..n + 1])
    ensures var good := Derive(scheduleItemId, run, pending[..n], true, false);
            Derive(scheduleItemId, run, pending, controlling, busy)
            == View(good.state,
                    if good.runId.None? && pending[n].scheduleItemId == scheduleItemId && pending[n].eventType == Start
                       && pending[n].expectedRunRevision == good.expectedRunRevision
                    then Some(pending[n].runId) else good.runId,
                    good.expectedRunRevision, true, true, {})
    decreases |pending|
  {
    FoldPrefix(scheduleItemId, run, pending);
    if !Continues(scheduleItemId, run, pending[0]) {
      n := 0;
    } else {
      var next := Advance(run, pending[0]);
      FoldPrefix(scheduleItemId, next, pending[1..]);
      var m := BrokenListShows(scheduleItemId, next, pending[1..], controlling, busy);
      n := m + 1;
      FoldPrefix(scheduleItemId, next, pending[1..][..m]);
      FoldPrefix(scheduleItemId, next, pending[1..][..m + 1]);
      assert pending[..n][0] == pending[0] && pending[..n][1..] == pending[1..][..m];
      assert pending[..n + 1][0] == pending[0] && pending[..n + 1][1..] == pending[1..][..m + 1];
    }
  }

  // ---------------------------------------------------------------- confirming, enqueuing, replaying

  /** When the server confirms the head, the projection shown to the operator does not move. */
  lemma ConfirmingHeadKeepsProjection(scheduleItemId: string, run: Run, head: Item, tail: seq<Item>,
                                      controlling: bool, busy: bool)
    requires Continues(scheduleItemId, run, head)
    ensures var before := Derive(scheduleItemId, run, [head] + tail, controlling, busy);
            var after := Derive(scheduleItemId, Advance(run, head), tail, controlling, busy);
            && RunIn(after) == RunIn(before) && after.actions == before.actions
            && after.invalidPendingContext == before.invalidPendingContext
            && (after.unconfirmed <==> tail != [])
  {
    FoldPrefix(scheduleItemId, Advance(run, head), tail);
    assert ([head] + tail)[1..] == tail;
  }

  /** Every pending item of a valid context raises the run revision by exactly one. */
  lemma {:induction false} RevisionCountsPending(scheduleItemId: string, run: Run, pending: seq<Item>)
    ensures var (last, n) := Fold(scheduleItemId, run, pending); last.revision == run.revision + n
    decreases |pending|
  {
    if pending != [] && Continues(scheduleItemId, run, pending[0]) {
      RevisionCountsPending(scheduleItemId, Advance(run, pending[0]), pending[1..]);
    }
  }

  /** The item the callers build for an offered action: the view's run id, or a new one when there is none. */
  function ItemFor(view: View, action: EventType, template: Item, scheduleItemId: string): Item {
    template.(scheduleItemId := scheduleItemId, eventType := action,
              expectedRunRevision := view.expectedRunRevision,
              runId := if view.runId.Some? then view.runId.value else template.runId)
  }

  lemma {:induction false} FoldKeepsId(scheduleItemId: string, run: Run, pending: seq<Item>)
    ensures var (last, n) := Fold(scheduleItemId, run, pending);
            (n > 0 ==> last.runId.Some?) && (n == 0 ==> last == run)
            && (last.runId.None? ==> last == run)
    decreases |pending|
  {
    if pending != [] && Continues(scheduleItemId, run, pending[0]) {
      FoldKeepsId(scheduleItemId, Advance(run, pending[0]), pending[1..]);
    }
  }

  /** The first event of a run that has no id yet is not its start. */
  predicate LacksId(run: Run, pending: seq<Item>, action: EventType) {
    pending == [] && run.runId.None? && action != Start
  }

  /** An offered action continues the pending list, one revision further on, unless its run lacks an id. */
  lemma OfferedActionsClosed(scheduleItemId: string, run: Run, pending: seq<Item>, action: EventType, template: Item)
    requires !LacksId(run, pending, action)
    requires var view := Derive(scheduleItemId, run, pending, true, false); action in view.actions
    ensures var view := Derive(scheduleItemId, run, pending, true, false);
            var grown := pending + [ItemFor(view, action, template, scheduleItemId)];
            && ValidContext(scheduleItemId, run, grown)
            && Derive(scheduleItemId, run, grown, true, false).expectedRunRevision == run.revision + |grown|
            && !Derive(scheduleItemId, run, grown, true, false).invalidPendingContext
  {
    var view := Derive(scheduleItemId, run, pending, true, false);
    var item := ItemFor(view, action, template, scheduleItemId);
    FoldPrefix(scheduleItemId, run, pending);
    FoldKeepsId(scheduleItemId, run, pending);
    FoldAppend(scheduleItemId, run, pending, [item]);
    RevisionCountsPending(scheduleItemId, run, pending);
    var last := Fold(scheduleItemId, run, pending).0;
    assert Continues(scheduleItemId, last, item);
    assert Fold(scheduleItemId, last, [item]).1 == 1;
    RevisionCountsPending(scheduleItemId, run, pending + [item]);
  }

  /** Exactly when an offered action continues the pending list. */
  lemma OfferContinues(scheduleItemId: string, run: Run, pending: seq<Item>, action: EventType, template: Item)
    requires action in Derive(scheduleItemId, run, pending, true, false).actions
    ensures var view := Derive(scheduleItemId, run, pending, true, false);
            ValidContext(scheduleItemId, run, pending + [ItemFor(view, action, template, scheduleItemId)])
            <==> !LacksId(run, pending, action)
  {
    var view := Derive(scheduleItemId, run, pending, true, false);
    var item := ItemFor(view, action, template, scheduleItemId);
    if LacksId(run, pending, action) {
      assert [] + [item] == [item];
      assert !Continues(scheduleItemId, run, item);
    } else {
      OfferedActionsClosed(scheduleItemId, run, pending, action, template);
    }
  }

  /** V3 and V4 have no item for blocking and resuming. */
  predicate HasItem(protocol: Protocol, action: EventType) { protocol == V2 || action in {Start, Complete} }

  /** All but the event type makes a valid item. */
  predicate WellFilled(protocol: Protocol, item: Item) { ValidItem(protocol, item.(eventType := Start)) }

  /** What the item test of enqueue says of an offered action. */
  lemma OfferIsItem(protocol: Protocol, view: View, action: EventType, template: Item, scheduleItemId: string)
    ensures ValidItem(protocol, ItemFor(view, action, template, scheduleItemId))
            <==> HasItem(protocol, action) && WellFilled(protocol, ItemFor(view, action, template, scheduleItemId))
  {}

  /** Each of these actions makes a valid item that continues the pending list. */
  ghost predicate OffersHold(protocol: Protocol, scheduleItemId: string, run: Run, pending: seq<Item>, template: Item,
                             actions: set<EventType>) {
    var view := Derive(scheduleItemId, run, pending, true, false);
    forall action :: action in actions ==>
      && ValidItem(protocol, ItemFor(view, action, template, scheduleItemId))
      && ValidContext(scheduleItemId, run, pending + [ItemFor(view, action, template, scheduleItemId)])
  }

  lemma OffersHoldWhen(protocol: Protocol, scheduleItemId: string, run: Run, pending: seq<Item>, template: Item,
                       actions: set<EventType>)
    requires var view := Derive(scheduleItemId, run, pending, true, false);
             actions <= view.actions && WellFilled(protocol, ItemFor(view, Start, template, scheduleItemId))
    ensures OffersHold(protocol, scheduleItemId, run, pending, template, actions)
            <==> forall action :: action in actions ==> HasItem(protocol, action) && !LacksId(run, pending, action)
  {
    var view := Derive(scheduleItemId, run, pending, true, false);
    forall action | action in actions
      ensures ValidItem(protocol, ItemFor(view, action, template, scheduleItemId)) <==> HasItem(protocol, action)
      ensures ValidContext(scheduleItemId, run, pending + [ItemFor(view, action, template, scheduleItemId)])
              <==> !LacksId(run, pending, action)
    {
      OfferIsItem(protocol, view, action, template, scheduleItemId);
      OfferContinues(scheduleItemId, run, pending, action, template);
    }
  }

  lemma ActionsOfView(scheduleItemId: string, run: Run, pending: seq<Item>)
    ensures var view := Derive(scheduleItemId, run, pending, true, false);
            && view.actions == (if view.invalidPendingContext then {} else OfferedBy(view.state))
            && (pending == [] ==> view.state == run.state && !view.invalidPendingContext)
  {}

  /**
    Exactly when all that is offered can be enqueued: under V2 unless nothing is pending and the server item
    runs without an id, under V3 and V4 unless the projected run is shooting or blocked, where an action is
    offered that has no item.
  */
  lemma ClosureCondition(protocol: Protocol, scheduleItemId: string, run: Run, pending: seq<Item>, template: Item)
    requires var view := Derive(scheduleItemId, run, pending, true, false);
             WellFilled(protocol, ItemFor(view, Start, template, scheduleItemId))
    ensures var view := Derive(scheduleItemId, run, pending, true, false);
            OffersHold(protocol, scheduleItemId, run, pending, template, view.actions)
            <==> if protocol == V2
                 then !(pending == [] && run.runId.None? && run.state in {Shooting, RunState.Blocked})
                 else view.invalidPendingContext || view.state !in {Shooting, RunState.Blocked}
  {
    var view := Derive(scheduleItemId, run, pending, true, false);
    OffersHoldWhen(protocol, scheduleItemId, run, pending, template, view.actions);
    ActionsOfView(scheduleItemId, run, pending);
    if view.state == Shooting && !view.invalidPendingContext { assert Block in view.actions; }
    if view.state == RunState.Blocked && !view.invalidPendingContext { assert Resume in view.actions; }
  }

  /** The actions a screen goes through with: that of V3 and V4 passes over those without an item. */
  function Pressable(protocol: Protocol, view: View): set<EventType> {
    set action | action in view.actions && HasItem(protocol, action)
  }

  /** Exactly when all of those can be enqueued; a blocked run leaves V3 and V4 none to press. */
  lemma PressableCondition(protocol: Protocol, scheduleItemId: string, run: Run, pending: seq<Item>, template: Item)
    requires var view := Derive(scheduleItemId, run, pending, true, false);
             WellFilled(protocol, ItemFor(view, Start, template, scheduleItemId))
    ensures var view := Derive(scheduleItemId, run, pending, true, false);
            OffersHold(protocol, scheduleItemId, run, pending, template, Pressable(protocol, view))
            <==> !(pending == [] && run.runId.None?
                   && (run.state == Shooting || (protocol == V2 && run.state == RunState.Blocked)))
  {
    var view := Derive(scheduleItemId, run, pending, true, false);
    OffersHoldWhen(protocol, scheduleItemId, run, pending, template, Pressable(protocol, view));
    ActionsOfView(scheduleItemId, run, pending);
    if view.state == Shooting && !view.invalidPendingContext { assert Complete in Pressable(protocol, view); }
    if view.state == RunState.Blocked && !view.invalidPendingContext {
      assert protocol == V2 ==> Resume in Pressable(protocol, view);
    }
  }

  /** The server item as validateCurrentItem lets it through: a candidate, or an active run with its id. */
  predicate CurrentItem(run: Run) {
    run == CANDIDATE || (run.runId.Some? && run.revision >= 1 && run.state in {Shooting, RunState.Blocked})
  }

  /** So the legacy kiosk keeps the promise on every server item it accepts. */
  lemma LegacyOffersHold(scheduleItemId: string, run: Run, pending: seq<Item>, template: Item)
    requires CurrentItem(run)
    requires var view := Derive(scheduleItemId, run, pending, true, false);
             WellFilled(V2, ItemFor(view, Start, template, scheduleItemId))
    ensures OffersHold(V2, scheduleItemId, run, pending, template,
                       Derive(scheduleItemId, run, pending, true, false).actions)
  {
    ClosureCondition(V2, scheduleItemId, run, pending, template);
  }

  /** Once the server is past the pending head, nothing is offered. */
  lemma ServerAheadOffersNothing(scheduleItemId: string, run: Run, pending: seq<Item>, controlling: bool, busy: bool)
    requires pending != [] && pending[0].expectedRunRevision != run.revision
    ensures var view := Derive(scheduleItemId, run, pending, controlling, busy);
            view.actions == {} && view.invalidPendingContext && RunIn(view).revision == run.revision
  {}
}
