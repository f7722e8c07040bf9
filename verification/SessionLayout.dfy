/**
  Day-board layout of overlapping sessions (public/common.js, layoutSessions): greedy interval
  partitioning with grouping. Times are minutes since midnight, as `minutes` returns them; a session
  is drawn at least MINIMUM_MINUTES tall, so the layout works on padded intervals.
*/
module SessionLayout {
  import opened StableSort

  const MINIMUM_MINUTES: nat := 60

  datatype Session = Session(id: string, start: nat, end: nat) {
    function PaddedEnd(): (e: nat)
      ensures e > start
    {
      if end < start + MINIMUM_MINUTES then start + MINIMUM_MINUTES else end
    }

    predicate OpenAt(t: nat) { start <= t < PaddedEnd() }
  }

  /** A session while its group is still being collected: the column count is not known yet. */
  datatype Slot = Slot(session: Session, column: nat)

  datatype Placed = Placed(session: Session, column: nat, columns: nat)

  predicate Overlap(a: Session, b: Session) {
    a.start < b.PaddedEnd() && b.start < a.PaddedEnd()
  }

  /** `a` is over and drawn an hour tall by the time `b` starts. */
  predicate Apart(a: Session, b: Session) { a.end <= b.start && a.start + 60 <= b.start }

  /** Two sessions are drawn over each other unless one is out of the way of the other. */
  lemma OverlapMeans(a: Session, b: Session)
    ensures Overlap(a, b) <==> !Apart(a, b) && !Apart(b, a)
    ensures a.start < b.end && b.start < a.end ==> Overlap(a, b)
    ensures -60 < a.start - b.start < 60 ==> Overlap(a, b)
  {}

  /** `a.start - b.start || a.end - b.end` as a comparison. */
  predicate EarlierOrSame(a: Session, b: Session) {
    a.start < b.start || (a.start == b.start && a.end <= b.end)
  }

  function Order(): (Session, Session) -> bool { (a, b) => EarlierOrSame(a, b) }

  function Sessions(ps: seq<Placed>): seq<Session> {
    seq(|ps|, i requires 0 <= i < |ps| => ps[i].session)
  }

  function Flatten<T>(groups: seq<seq<T>>): seq<T> {
    if groups == [] then [] else Flatten(groups[..|groups| - 1]) + groups[|groups| - 1]
  }

  /** The positions of a group whose padded interval is open at time t. */
  function OpenPositions(g: seq<Placed>, t: nat): set<nat> {
    set i: nat | i < |g| && g[i].session.OpenAt(t)
  }

  // ---------------------------------------------------------------- what a good group is

  ghost predicate ProperColumns(g: seq<Placed>, columns: nat) {
    && (forall i :: 0 <= i < |g| ==> g[i].columns == columns && g[i].column < columns)
    && (forall i, j :: 0 <= i < j < |g| && Overlap(g[i].session, g[j].session) ==> g[i].column != g[j].column)
  }

  ghost predicate JoinsEarlier(ss: seq<Session>, j: nat)
    requires j < |ss|
  {
    exists i :: 0 <= i < j && Overlap(ss[i], ss[j])
  }

  /** Every member but the first overlaps an earlier member: the group cannot be split. */
  ghost predicate Connected(ss: seq<Session>) {
    forall j :: 0 < j < |ss| ==> JoinsEarlier(ss, j)
  }

  ghost predicate EndsBy(g: seq<Placed>, t: nat) {
    forall i :: 0 <= i < |g| ==> g[i].session.PaddedEnd() <= t
  }

  ghost predicate StartsFrom(g: seq<Placed>, t: nat) {
    forall i :: 0 <= i < |g| ==> t <= g[i].session.start
  }

  /** Every session of g is over when the first of h begins. */
  ghost predicate Before(g: seq<Placed>, h: seq<Placed>) {
    forall i, j :: 0 <= i < |g| && 0 <= j < |h| ==> g[i].session.PaddedEnd() <= h[j].session.start
  }

  ghost predicate GroupsSeparated(groups: seq<seq<Placed>>) {
    forall k, m :: 0 <= k < m < |groups| ==> Before(groups[k], groups[m])
  }

  /** At some instant as many members are open as the group has columns. */
  ghost predicate PeakReached(g: seq<Placed>, columns: nat) {
    exists t :: |OpenPositions(g, t)| == columns
  }

  /** Every column to the left of a session is taken by an earlier one that is not out of its way. */
  ghost predicate LowestColumns(g: seq<Placed>) {
    forall j, c :: 0 <= j < |g| && 0 <= c < g[j].column ==> TakenFor(g, j, c)
  }

  ghost predicate TakenFor(g: seq<Placed>, j: nat, c: nat)
    requires j < |g|
  {
    exists i :: 0 <= i < j && g[i].column == c && !Apart(g[i].session, g[j].session)
  }

  ghost predicate GoodGroup(g: seq<Placed>) {
    && g != []
    && ProperColumns(g, g[0].columns)
    && LowestColumns(g)
    && Connected(Sessions(g))
    && PeakReached(g, g[0].columns)
  }

  // ---------------------------------------------------------------- pigeonhole

  lemma {:induction false} InjectiveBelow(s: set<nat>, f: nat -> nat, k: nat)
    requires forall x :: x in s ==> f(x) < k
    requires forall x, y :: x in s && y in s && f(x) == f(y) ==> x == y
    ensures |s| <= k
  {
    if k == 0 {
      assert forall x :: x !in s;
    } else if exists x :: x in s && f(x) == k - 1 {
      var x :| x in s && f(x) == k - 1;
      InjectiveBelow(s - {x}, f, k - 1);
    } else {
      InjectiveBelow(s, f, k - 1);
    }
  }

  lemma SimultaneouslyOpenOverlap(a: Session, b: Session, t: nat)
    requires a.OpenAt(t) && b.OpenAt(t)
    ensures Overlap(a, b)
  {}

  /** No instant of a good group is busier than its column count. */
  lemma NeverBusierThanColumns(g: seq<Placed>, columns: nat, t: nat)
    requires ProperColumns(g, columns)
    ensures |OpenPositions(g, t)| <= columns
  {
    var f := (i: nat) => if i < |g| then g[i].column else 0;
    forall x, y | x in OpenPositions(g, t) && y in OpenPositions(g, t) && f(x) == f(y)
      ensures x == y
    {
      SimultaneouslyOpenOverlap(g[x].session, g[y].session, t);
    }
    InjectiveBelow(OpenPositions(g, t), f, columns);
  }

  /** Any way at all of giving overlapping members different columns needs that many columns. */
  lemma ColumnsOptimal(g: seq<Placed>, other: nat -> nat, width: nat)
    requires GoodGroup(g)
    requires forall i :: 0 <= i < |g| ==> other(i) < width
    requires forall i, j :: 0 <= i < j < |g| && !Apart(g[i].session, g[j].session) && !Apart(g[j].session, g[i].session)
               ==> other(i) != other(j)
    ensures g[0].columns <= width
  {
    var t :| |OpenPositions(g, t)| == g[0].columns;
    forall x, y | x in OpenPositions(g, t) && y in OpenPositions(g, t) && other(x) == other(y)
      ensures x == y
    {
      SimultaneouslyOpenOverlap(g[x].session, g[y].session, t);
      OverlapMeans(g[x].session, g[y].session);
    }
    InjectiveBelow(OpenPositions(g, t), other, width);
  }

  // ---------------------------------------------------------------- the loop

  function Flush(group: seq<Slot>, columns: nat): (ps: seq<Placed>)
    ensures |ps| == |group|
    ensures forall i :: 0 <= i < |ps| ==> ps[i] == Placed(group[i].session, group[i].column, columns)
  {
    seq(|group|, i requires 0 <= i < |group| => Placed(group[i].session, group[i].column, columns))
  }

  /** `ends.findIndex(value => value <= start)`, with ends.length for "none". */
  method FirstFree(ends: seq<nat>, start: nat) returns (column: nat)
    ensures column <= |ends|
    ensures column < |ends| ==> ends[column] <= start
    ensures forall c :: 0 <= c < column ==> start < ends[c]
  {
    column := 0;
    while column < |ends| && start < ends[column]
      invariant column <= |ends|
      invariant forall c :: 0 <= c < column ==> start < ends[c]
    {
      column := column + 1;
    }
  }

  /** `Math.max(...ends)`. */
  method Latest(ends: seq<nat>) returns (latest: nat)
    requires ends != []
    ensures latest in ends
    ensures forall c :: 0 <= c < |ends| ==> ends[c] <= latest
  {
    latest := ends[0];
    for c := 1 to |ends|
      invariant latest in ends
      invariant forall d :: 0 <= d < c ==> ends[d] <= latest
    {
      if latest < ends[c] { latest := ends[c]; }
    }
  }

  /** The open group: `last[c]` is the newest member of column c, `ends[c]` where it ends. */
  ghost predicate OpenGroup(group: seq<Slot>, ends: seq<nat>, last: seq<nat>) {
    && |last| == |ends|
    && (forall i :: 0 <= i < |group| ==> group[i].column < |ends|)
    && (forall i :: 0 <= i < |group| ==> group[i].session.PaddedEnd() <= ends[group[i].column])
    && (forall c {:trigger last[c]} :: 0 <= c < |ends| ==>
          && last[c] < |group| && group[last[c]].column == c
          && group[last[c]].session.PaddedEnd() == ends[c])
    && (forall i, j :: 0 <= i < j < |group| && group[i].column == group[j].column ==>
          group[i].session.PaddedEnd() <= group[j].session.start)
  }

  /** `peak[c]` is a member of column c that was open when the newest column was created. */
  ghost predicate PeakWitness(group: seq<Slot>, peak: seq<nat>, columns: nat, t: nat) {
    && |peak| == columns
    && (forall c :: 0 <= c < columns ==>
          peak[c] < |group| && group[peak[c]].column == c && group[peak[c]].session.OpenAt(t))
  }

  /** What the finished group keeps as LowestColumns. */
  ghost predicate LowestSlots(group: seq<Slot>) {
    forall j, c :: 0 <= j < |group| && 0 <= c < group[j].column ==> SlotTakenFor(group, group[j].session, j, c)
  }

  ghost predicate SlotTakenFor(group: seq<Slot>, session: Session, j: nat, c: nat)
    requires j <= |group|
  {
    exists i :: 0 <= i < j && group[i].column == c && !Apart(group[i].session, session)
  }

  function SlotSessions(group: seq<Slot>): (ss: seq<Session>)
    ensures |ss| == |group|
  {
    seq(|group|, i requires 0 <= i < |group| => group[i].session)
  }

  /** What the loop keeps about the group it is collecting; `floor` is where the group may start. */
  ghost predicate Collecting(group: seq<Slot>, ends: seq<nat>, last: seq<nat>, peak: seq<nat>, t: nat, floor: nat) {
    && OpenGroup(group, ends, last)
    && PeakWitness(group, peak, |ends|, t)
    && LowestSlots(group)
    && Connected(SlotSessions(group))
    && (forall i :: 0 <= i < |group| ==> floor <= group[i].session.start)
  }

  lemma {:induction false} DistinctCount(s: set<nat>, peak: seq<nat>)
    requires forall c :: 0 <= c < |peak| ==> peak[c] in s
    requires forall c, d :: 0 <= c < d < |peak| ==> peak[c] != peak[d]
    ensures |peak| <= |s|
  {
    if peak != [] {
      var x := peak[|peak| - 1];
      DistinctCount(s - {x}, peak[..|peak| - 1]);
    }
  }

  lemma FlushedGroupGood(group: seq<Slot>, ends: seq<nat>, last: seq<nat>, peak: seq<nat>, t: nat, floor: nat)
    requires group != [] && Collecting(group, ends, last, peak, t, floor)
    ensures GoodGroup(Flush(group, |ends|))
  {
    var g := Flush(group, |ends|);
    assert ProperColumns(g, |ends|);
    FlushedLowest(group, |ends|);
    forall c | 0 <= c < |peak| ensures peak[c] in OpenPositions(g, t) {
      assert g[peak[c]].session == group[peak[c]].session;
    }
    DistinctCount(OpenPositions(g, t), peak);
    NeverBusierThanColumns(g, |ends|, t);
    assert |OpenPositions(g, t)| == |ends|;
    assert Sessions(g) == SlotSessions(group);
  }

  lemma FlushedLowest(group: seq<Slot>, columns: nat)
    requires LowestSlots(group)
    ensures LowestColumns(Flush(group, columns))
  {
    var g := Flush(group, columns);
    forall j, c | 0 <= j < |g| && 0 <= c < g[j].column ensures TakenFor(g, j, c) {
      assert SlotTakenFor(group, group[j].session, j, c);
      var i :| 0 <= i < j && group[i].column == c && !Apart(group[i].session, group[j].session);
      assert g[i].column == c && g[i].session == group[i].session;
    }
  }

  /** The columns passed over are taken. */
  lemma LowestGrows(group: seq<Slot>, ends: seq<nat>, last: seq<nat>, session: Session, column: nat)
    requires LowestSlots(group) && OpenGroup(group, ends, last) && column <= |ends|
    requires forall c :: 0 <= c < column ==> session.start < ends[c]
    ensures LowestSlots(group + [Slot(session, column)])
  {
    var all := group + [Slot(session, column)];
    forall j, c | 0 <= j < |all| && 0 <= c < all[j].column ensures SlotTakenFor(all, all[j].session, j, c) {
      if j < |group| {
        assert SlotTakenFor(group, group[j].session, j, c);
        var i :| 0 <= i < j && group[i].column == c && !Apart(group[i].session, group[j].session);
        assert all[i].column == c;
      } else {
        assert all[last[c]].column == c && all[last[c]].session.PaddedEnd() == ends[c];
      }
    }
  }

  lemma FlattenSnoc<T>(groups: seq<seq<T>>, g: seq<T>)
    ensures Flatten(groups + [g]) == Flatten(groups) + g
  {
    assert (groups + [g])[..|groups|] == groups;
  }

  ghost predicate Finished(groups: seq<seq<Placed>>, floor: nat) {
    && (forall k :: 0 <= k < |groups| ==> GoodGroup(groups[k]))
    && GroupsSeparated(groups)
    && (forall k :: 0 <= k < |groups| ==> EndsBy(groups[k], floor))
  }

  lemma FinishedSnoc(groups: seq<seq<Placed>>, floor: nat, g: seq<Placed>, floor': nat)
    requires Finished(groups, floor) && GoodGroup(g)
    requires StartsFrom(g, floor) && EndsBy(g, floor')
    ensures Finished(groups + [g], floor')
  {
    var all := groups + [g];
    assert floor <= g[0].session.start < g[0].session.PaddedEnd() <= floor';
    forall k | 0 <= k < |groups| ensures Before(groups[k], g) && EndsBy(groups[k], floor') {
      assert EndsBy(groups[k], floor);
    }
    forall k, m | 0 <= k < m < |all| ensures Before(all[k], all[m]) {
      if m < |groups| { assert Before(groups[k], groups[m]); }
    }
  }

  /** A session that starts before the group ends overlaps the member that ends last. */
  lemma GrowsConnected(group: seq<Slot>, ends: seq<nat>, last: seq<nat>, groupEnd: nat, session: Session)
    requires OpenGroup(group, ends, last) && Connected(SlotSessions(group)) && groupEnd in ends
    requires session.start < groupEnd
    requires forall i :: 0 <= i < |group| ==> group[i].session.start <= session.start
    ensures Connected(SlotSessions(group) + [session])
  {
    var earlier, ss := SlotSessions(group), SlotSessions(group) + [session];
    var c :| 0 <= c < |ends| && ends[c] == groupEnd;
    assert Overlap(ss[last[c]], session);
    forall j | 0 < j < |ss| ensures JoinsEarlier(ss, j) {
      if j < |group| {
        assert JoinsEarlier(earlier, j);
        var i :| 0 <= i < j && Overlap(earlier[i], earlier[j]);
        assert Overlap(ss[i], ss[j]);
      }
    }
  }

  /** Taking a free column keeps the invariant. */
  lemma CollectInFreeColumn(group: seq<Slot>, ends: seq<nat>, last: seq<nat>, peak: seq<nat>, t: nat, floor: nat,
                            session: Session, column: nat)
    requires Collecting(group, ends, last, peak, t, floor)
    requires column < |ends| && ends[column] <= session.start && floor <= session.start
    requires forall c :: 0 <= c < column ==> session.start < ends[c]
    requires Connected(SlotSessions(group) + [session])
    ensures Collecting(group + [Slot(session, column)], ends[column := session.PaddedEnd()],
                       last[column := |group|], peak, t, floor)
  {
    LowestGrows(group, ends, last, session, column);
    assert SlotSessions(group + [Slot(session, column)]) == SlotSessions(group) + [session];
  }

  /** When no column is free, the newest member of every column is open at the new session's start. */
  lemma CollectInNewColumn(group: seq<Slot>, ends: seq<nat>, last: seq<nat>, peak: seq<nat>, t: nat, floor: nat,
                           session: Session)
    requires Collecting(group, ends, last, peak, t, floor) && floor <= session.start
    requires forall c :: 0 <= c < |ends| ==> session.start < ends[c]
    requires forall i :: 0 <= i < |group| ==> group[i].session.start <= session.start
    requires Connected(SlotSessions(group) + [session])
    ensures Collecting(group + [Slot(session, |ends|)], ends + [session.PaddedEnd()],
                       last + [|group|], last + [|group|], session.start, floor)
  {
    LowestGrows(group, ends, last, session, |ends|);
    assert SlotSessions(group + [Slot(session, |ends|)]) == SlotSessions(group) + [session];
  }

  lemma StartsNoLater(sorted: seq<Session>, n: nat, done: seq<Session>, ss: seq<Session>)
    requires n < |sorted| && Sorted(Order(), sorted) && done + ss == sorted[..n]
    ensures forall i :: 0 <= i < |ss| ==> ss[i].start <= sorted[n].start
  {
    forall i | 0 <= i < |ss| ensures ss[i].start <= sorted[n].start {
      assert ss[i] == (done + ss)[|done| + i] == sorted[|done| + i];
      assert Order()(sorted[|done| + i], sorted[n]);
    }
  }

  /** `flush`: the collected group is closed with the number of columns it needed. */
  lemma FlushGroup(groups: seq<seq<Placed>>, result: seq<Placed>, group: seq<Slot>, ends: seq<nat>, last: seq<nat>,
                   peak: seq<nat>, t: nat, floor: nat, start: nat)
    requires result == Flatten(groups) && Finished(groups, floor)
    requires group != [] && Collecting(group, ends, last, peak, t, floor)
    requires forall c :: 0 <= c < |ends| ==> ends[c] <= start
    ensures var g := Flush(group, |ends|);
            result + g == Flatten(groups + [g]) && Finished(groups + [g], start)
  {
    FlushedGroupGood(group, ends, last, peak, t, floor);
    FinishedSnoc(groups, floor, Flush(group, |ends|), start);
    FlattenSnoc(groups, Flush(group, |ends|));
  }

  lemma FlushSessions(result: seq<Placed>, group: seq<Slot>, columns: nat)
    ensures Sessions(result + Flush(group, columns)) == Sessions(result) + SlotSessions(group)
  {}

  /** The second half of the loop body: give the session a column of the open group. */
  method AssignColumn(group: seq<Slot>, ends: seq<nat>, session: Session,
                      ghost last: seq<nat>, ghost peak: seq<nat>, ghost t: nat, ghost floor: nat)
    returns (group': seq<Slot>, ends': seq<nat>, groupEnd: nat,
             ghost last': seq<nat>, ghost peak': seq<nat>, ghost t': nat)
    requires Collecting(group, ends, last, peak, t, floor) && ReadyFor(group, session, floor)
    ensures Collecting(group', ends', last', peak', t', floor) && group' != []
    ensures SlotSessions(group') == SlotSessions(group) + [session]
    ensures GroupEndMeans(ends', groupEnd)
  {
    var column := FirstFree(ends, session.start);
    group' := group + [Slot(session, column)];
    assert SlotSessions(group') == SlotSessions(group) + [session];
    if column < |ends| {
      CollectInFreeColumn(group, ends, last, peak, t, floor, session, column);
      ends' := ends[column := session.PaddedEnd()];
      last', peak', t' := last[column := |group|], peak, t;
    } else {
      CollectInNewColumn(group, ends, last, peak, t, floor, session);
      ends' := ends + [session.PaddedEnd()];
      last', peak', t' := last + [|group|], last + [|group|], session.start;
    }
    groupEnd := Latest(ends');
  }

  /** Everything flushed so far, and the sessions it and the open group account for. */
  ghost predicate Accounted(sorted: seq<Session>, n: nat, result: seq<Placed>, groups: seq<seq<Placed>>,
                            group: seq<Slot>, floor: nat) {
    && n <= |sorted|
    && Sessions(result) + SlotSessions(group) == sorted[..n]
    && result == Flatten(groups) && Finished(groups, floor)
  }

  lemma AccountFlush(sorted: seq<Session>, n: nat, result: seq<Placed>, groups: seq<seq<Placed>>, group: seq<Slot>,
                     ends: seq<nat>, last: seq<nat>, peak: seq<nat>, t: nat, floor: nat, start: nat)
    requires Accounted(sorted, n, result, groups, group, floor)
    requires group != [] && Collecting(group, ends, last, peak, t, floor)
    requires forall c :: 0 <= c < |ends| ==> ends[c] <= start
    ensures var g := Flush(group, |ends|);
            Accounted(sorted, n, result + g, groups + [g], [], start)
  {
    FlushSessions(result, group, |ends|);
    FlushGroup(groups, result, group, ends, last, peak, t, floor, start);
    assert Sessions(result + Flush(group, |ends|)) + SlotSessions([]) == sorted[..n];
  }

  lemma AccountSession(sorted: seq<Session>, n: nat, result: seq<Placed>, groups: seq<seq<Placed>>, group: seq<Slot>,
                       group': seq<Slot>, floor: nat)
    requires Accounted(sorted, n, result, groups, group, floor) && n < |sorted|
    requires SlotSessions(group') == SlotSessions(group) + [sorted[n]]
    ensures Accounted(sorted, n + 1, result, groups, group', floor)
  {
    assert Sessions(result) + SlotSessions(group') == Sessions(result) + SlotSessions(group) + [sorted[n]];
  }

  lemma FloorIsEarlier(group: seq<Slot>, floor: nat, start: nat)
    requires group != [] && floor <= group[0].session.start <= start
    ensures floor <= start
  {}

  ghost predicate GroupEndMeans(ends: seq<nat>, groupEnd: int) {
    && (ends == [] ==> groupEnd == -1)
    && (ends != [] ==> groupEnd in ends)
    && (forall c :: 0 <= c < |ends| ==> ends[c] <= groupEnd)
  }

  lemma EmptyTogether(group: seq<Slot>, ends: seq<nat>, last: seq<nat>)
    requires OpenGroup(group, ends, last)
    ensures group == [] <==> ends == []
  {
    if ends != [] { assert last[0] < |group|; }
    if group != [] { assert group[0].column < |ends|; }
  }

  ghost predicate LoopState(sorted: seq<Session>, n: nat, result: seq<Placed>, groups: seq<seq<Placed>>,
                            group: seq<Slot>, ends: seq<nat>, last: seq<nat>, peak: seq<nat>, t: nat, floor: nat) {
    && Accounted(sorted, n, result, groups, group, floor)
    && Collecting(group, ends, last, peak, t, floor)
    && (group == [] ==> floor == 0)
  }

  ghost predicate ReadyFor(group: seq<Slot>, session: Session, floor: nat) {
    && floor <= session.start
    && Connected(SlotSessions(group) + [session])
    && (forall i :: 0 <= i < |group| ==> group[i].session.start <= session.start)
  }

  lemma StillOpen(sorted: seq<Session>, n: nat, result: seq<Placed>, groups: seq<seq<Placed>>,
                  group: seq<Slot>, ends: seq<nat>, groupEnd: int, last: seq<nat>, peak: seq<nat>, t: nat, floor: nat)
    requires n < |sorted| && Sorted(Order(), sorted)
    requires LoopState(sorted, n, result, groups, group, ends, last, peak, t, floor) && GroupEndMeans(ends, groupEnd)
    requires sorted[n].start < groupEnd
    ensures ReadyFor(group, sorted[n], floor)
  {
    StartsNoLater(sorted, n, Sessions(result), SlotSessions(group));
    forall i | 0 <= i < |group| ensures group[i].session.start <= sorted[n].start {
      assert group[i].session == SlotSessions(group)[i];
    }
    EmptyTogether(group, ends, last);
    GrowsConnected(group, ends, last, groupEnd, sorted[n]);
    FloorIsEarlier(group, floor, sorted[n].start);
  }

  lemma FreshGroup(session: Session, t: nat, floor: nat)
    requires floor <= session.start
    ensures Collecting([], [], [], [], t, floor) && ReadyFor([], session, floor)
  {
    AloneIsConnected(session);
    NothingCollected(t, floor);
  }

  lemma AloneIsConnected(session: Session)
    ensures SlotSessions([]) == [] && Connected([]) && Connected([] + [session])
  {
    assert |SlotSessions([])| == 0;
  }

  lemma NothingCollected(t: nat, floor: nat)
    requires Connected(SlotSessions([]))
    ensures Collecting([], [], [], [], t, floor)
  {
    assert OpenGroup([], [], []) && PeakWitness([], [], 0, t);
  }

  lemma NowOver(sorted: seq<Session>, n: nat, result: seq<Placed>, groups: seq<seq<Placed>>,
                group: seq<Slot>, ends: seq<nat>, groupEnd: int, last: seq<nat>, peak: seq<nat>, t: nat, floor: nat)
    returns (groups': seq<seq<Placed>>, floor': nat)
    requires n < |sorted|
    requires LoopState(sorted, n, result, groups, group, ends, last, peak, t, floor) && GroupEndMeans(ends, groupEnd)
    requires groupEnd <= sorted[n].start
    ensures Accounted(sorted, n, result + Flush(group, |ends|), groups', [], floor')
    ensures floor' <= sorted[n].start
  {
    EmptyTogether(group, ends, last);
    if group == [] {
      assert result + Flush(group, |ends|) == result;
      groups', floor' := groups, floor;
    } else {
      AccountFlush(sorted, n, result, groups, group, ends, last, peak, t, floor, sorted[n].start);
      groups', floor' := groups + [Flush(group, |ends|)], sorted[n].start;
    }
  }

  lemma NothingPlacedYet(sorted: seq<Session>)
    ensures LoopState(sorted, 0, [], [], [], [], [], [], 0, 0)
  {
    assert Sessions([]) + SlotSessions([]) == sorted[..0];
  }

  /** The final `flush()`. */
  lemma LastFlush(sorted: seq<Session>, result: seq<Placed>, groups: seq<seq<Placed>>, group: seq<Slot>, ends: seq<nat>,
                  groupEnd: int, last: seq<nat>, peak: seq<nat>, t: nat, floor: nat)
    returns (groups': seq<seq<Placed>>)
    requires LoopState(sorted, |sorted|, result, groups, group, ends, last, peak, t, floor)
    requires GroupEndMeans(ends, groupEnd)
    ensures result + Flush(group, |ends|) == Flatten(groups')
    ensures Sessions(result + Flush(group, |ends|)) == sorted
    ensures forall k :: 0 <= k < |groups'| ==> GoodGroup(groups'[k])
    ensures GroupsSeparated(groups')
  {
    EmptyTogether(group, ends, last);
    FlushSessions(result, group, |ends|);
    if group == [] {
      groups' := groups;
      assert Flush(group, |ends|) == [];
    } else {
      AccountFlush(sorted, |sorted|, result, groups, group, ends, last, peak, t, floor, groupEnd);
      groups' := groups + [Flush(group, |ends|)];
    }
  }

  lemma {:induction false} FlattenMember<T>(groups: seq<seq<T>>, i: nat) returns (k: nat, p: nat)
    requires i < |Flatten(groups)|
    ensures k < |groups| && p < |groups[k]| && groups[k][p] == Flatten(groups)[i]
  {
    var front := groups[..|groups| - 1];
    if i < |Flatten(front)| {
      k, p := FlattenMember(front, i);
    } else {
      k, p := |groups| - 1, i - |Flatten(front)|;
    }
  }

  /** Any two of the placed sessions, within a group or not. */
  lemma {:induction false} NotDrawnOver(groups: seq<seq<Placed>>, i: nat, j: nat)
    requires forall k :: 0 <= k < |groups| ==> GoodGroup(groups[k])
    requires GroupsSeparated(groups) && i < j < |Flatten(groups)|
    ensures var a, b := Flatten(groups)[i], Flatten(groups)[j];
            Apart(a.session, b.session) || Apart(b.session, a.session)
            || (a.column != b.column && a.columns == b.columns)
  {
    var front, g := groups[..|groups| - 1], groups[|groups| - 1];
    var n := |Flatten(front)|;
    if j < n {
      NotDrawnOver(front, i, j);
    } else if i < n {
      var k, p := FlattenMember(front, i);
      assert Before(groups[k], g);
      OverlapMeans(groups[k][p].session, g[j - n].session);
    } else {
      OverlapMeans(g[i - n].session, g[j - n].session);
    }
  }

  /** Sessions that meet in time, or start within an hour of each other, are drawn side by side. */
  predicate SideBySide(a: Placed, b: Placed) {
    (a.session.start < b.session.end && b.session.start < a.session.end)
    || -60 < a.session.start - b.session.start < 60
    ==> a.column != b.column && a.columns == b.columns
  }

  ghost predicate NoneDrawnOver(result: seq<Placed>) {
    forall i, j :: 0 <= i < j < |result| ==> SideBySide(result[i], result[j])
  }

  lemma GroupsNotDrawnOver(groups: seq<seq<Placed>>, result: seq<Placed>)
    requires forall k :: 0 <= k < |groups| ==> GoodGroup(groups[k])
    requires GroupsSeparated(groups) && result == Flatten(groups)
    ensures NoneDrawnOver(result)
  {
    forall i, j | 0 <= i < j < |result| ensures SideBySide(result[i], result[j]) {
      NotDrawnOver(groups, i, j);
    }
  }

  ghost predicate InStartOrder(ss: seq<Session>) {
    forall i, j :: 0 <= i < j < |ss| ==>
      ss[i].start < ss[j].start || (ss[i].start == ss[j].start && ss[i].end <= ss[j].end)
  }

  lemma SortedByStart(sorted: seq<Session>)
    requires Sorted(Order(), sorted)
    ensures InStartOrder(sorted)
  {
    forall i, j | 0 <= i < j < |sorted| ensures EarlierOrSame(sorted[i], sorted[j]) {
      assert Order()(sorted[i], sorted[j]);
    }
  }

  /**
    The layout: the sorted input in order, cut into connected groups that never meet in time; inside
    a group overlapping sessions get different columns, all below a column count that equals the
    greatest number of sessions open at once.
  */
  method LayoutSessions(sessions: seq<Session>) returns (result: seq<Placed>, ghost groups: seq<seq<Placed>>)
    ensures Sessions(result) == Sort(Order(), sessions)
    ensures multiset(Sessions(result)) == multiset(sessions)
    ensures InStartOrder(Sessions(result)) && NoneDrawnOver(result)
    ensures result == Flatten(groups)
    ensures forall k :: 0 <= k < |groups| ==> GoodGroup(groups[k])
    ensures GroupsSeparated(groups)
  {
    var sorted := Sort(Order(), sessions);
    SortSorted(Order(), sessions);
    result, groups := [], [];
    var group: seq<Slot>, ends: seq<nat>, groupEnd: int := [], [], -1;
    ghost var last: seq<nat>, peak: seq<nat>, t: nat, floor: nat := [], [], 0, 0;
    NothingPlacedYet(sorted);
    for n := 0 to |sorted|
      invariant LoopState(sorted, n, result, groups, group, ends, last, peak, t, floor)
      invariant GroupEndMeans(ends, groupEnd)
    {
      if sorted[n].start >= groupEnd {
        ghost var groups', floor' := NowOver(sorted, n, result, groups, group, ends, groupEnd, last, peak, t, floor);
        result := result + Flush(group, |ends|);
        group, ends := [], [];
        groups, last, peak, floor := groups', [], [], floor';
        FreshGroup(sorted[n], t, floor);
      } else {
        StillOpen(sorted, n, result, groups, group, ends, groupEnd, last, peak, t, floor);
      }
      ghost var before := group;
      group, ends, groupEnd, last, peak, t := AssignColumn(group, ends, sorted[n], last, peak, t, floor);
      AccountSession(sorted, n, result, groups, before, group, floor);
    }
    groups := LastFlush(sorted, result, groups, group, ends, groupEnd, last, peak, t, floor);
    result := result + Flush(group, |ends|);
    SortedByStart(sorted);
    GroupsNotDrawnOver(groups, result);
  }

  /** Equal start and end keep their input order, so the layout of a day is reproducible. */
  lemma TiesKeepInputOrder(sessions: seq<Session>, start: nat, end: nat)
    ensures var same := (s: Session) => s.start == start && s.end == end;
            Filter(same, Sort(Order(), sessions)) == Filter(same, sessions)
  {
    SortStable(Order(), (s: Session) => s.start == start && s.end == end, sessions);
  }
}
