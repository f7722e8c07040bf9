/**
  The control lease that tabs without Web Locks share in localStorage (public/kiosk-control-lock.js,
  createKioskControlLock). Handlers run one at a time; inside one the clock may move on between readings,
  reads and writes of the storage may fail, and storage events may arrive late with any old value.
*/
module ControlLease {
  import opened Options
  import FieldProtocol

  const LEASE_DURATION_MS: nat := 8000
  const HEARTBEAT_MS: nat := 2500

  datatype Lease = Lease(ownerId: string, expiresAt: nat)

  /** The stored text: none, a lease, or something parseLease does not accept. */
  datatype Cell = Absent | Text(lease: Lease) | Garbled

  datatype Status = Idle | Controlling | ReadOnly | Stopped

  datatype Tab = Tab(stopped: bool, status: Status) {
    predicate InControl() { status == Controlling }
  }

  const NEW_TAB: Tab := Tab(true, Idle)

  /** parseLease: the outer None is `ok: false`. */
  function Parse(cell: Cell): Option<Option<Lease>> {
    match cell
    case Absent => Some(None)
    case Text(lease) =>
      if lease.ownerId != "" && lease.expiresAt <= FieldProtocol.MAX_SAFE_INTEGER then Some(Some(lease)) else None
    case Garbled => None
  }

  /** What one handler meets: does the first read, the write and the read-back work, and when. */
  datatype Moment = Moment(readable: bool, writable: bool, readsBack: bool, first: nat, second: nat) {
    predicate InOrder() { first <= second }
  }

  /** A lease text is unreadable exactly when it is no lease, has no owner or runs beyond the safe integers. */
  lemma UnreadableLease(cell: Cell)
    ensures Parse(cell).None?
            <==> cell.Garbled? || (cell.Text? && (cell.lease.ownerId == "" || cell.lease.expiresAt > 9007199254740991))
    ensures Parse(cell).Some? ==> Parse(cell).value == if cell.Text? then Some(cell.lease) else None
  {}

  // ---------------------------------------------------------------- the handlers as functions

  function Observed(cell: Cell, m: Moment): Option<Option<Lease>> { if m.readable then Parse(cell) else None }

  predicate Owns(observed: Option<Option<Lease>>, owner: string) {
    observed.Some? && observed.value.Some? && observed.value.value.ownerId == owner
  }

  /** The lease is free for a tab: none, its own, or run out. */
  predicate FreeFor(cell: Cell, owner: string, now: nat) {
    Parse(cell).Some?
    && (Parse(cell).value.Some?
        ==> Parse(cell).value.value.ownerId == owner || Parse(cell).value.value.expiresAt <= now)
  }

  /** A lease written now would be accepted and is read back. */
  predicate WritesBack(owner: string, m: Moment) {
    m.writable && m.readsBack && owner != "" && m.second + LEASE_DURATION_MS <= FieldProtocol.MAX_SAFE_INTEGER
  }

  /** The lease such a write leaves. */
  function OwnLease(owner: string, m: Moment): Cell { Text(Lease(owner, m.second + LEASE_DURATION_MS)) }

  function WriteLease(cell: Cell, owner: string, m: Moment): (Cell, bool) {
    var lease := Lease(owner, m.second + LEASE_DURATION_MS);
    if m.writable then (Text(lease), m.readsBack && Parse(Text(lease)) == Some(Some(lease))) else (cell, false)
  }

  function Attempt(cell: Cell, owner: string, m: Moment): (Cell, Status) {
    var observed := Observed(cell, m);
    if observed.None?
       || (observed.value.Some? && observed.value.value.expiresAt > m.first && observed.value.value.ownerId != owner)
    then (cell, ReadOnly)
    else
      var (written, ok) := WriteLease(cell, owner, m);
      (written, if ok then Controlling else ReadOnly)
  }

  function Beat(tab: Tab, cell: Cell, owner: string, m: Moment): (Cell, Status) {
    if tab.stopped then (cell, tab.status)
    else if !tab.InControl() then Attempt(cell, owner, m)
    else if !Owns(Observed(cell, m), owner) then (cell, ReadOnly)
    else
      var (written, ok) := WriteLease(cell, owner, m);
      (written, if ok then tab.status else ReadOnly)
  }

  /** A storage event that was fired for some value the key once had; `seen` is the clock as it is handled. */
  function EventHandled(tab: Tab, cell: Cell, owner: string, newValue: Cell, seen: nat, m: Moment): (Cell, Status) {
    var observed := Parse(newValue);
    if tab.InControl() then
      (cell, if !Owns(observed, owner) || observed.value.value.expiresAt <= seen then ReadOnly else tab.status)
    else if observed.Some? && (observed.value.None? || observed.value.value.expiresAt <= seen)
      then Attempt(cell, owner, m)
    else (cell, tab.status)
  }

  function Released(tab: Tab, cell: Cell, owner: string, m: Moment): Cell {
    if tab.InControl() && Owns(Observed(cell, m), owner) && m.writable then Absent else cell
  }

  // ---------------------------------------------------------------- the handlers as they run

  class LeaseStorage {
    var cell: Cell

    constructor (cell: Cell)
      ensures this.cell == cell
    {
      this.cell := cell;
    }
  }

  class KioskControlLock {
    const ownerId: string
    const storage: LeaseStorage
    var stopped: bool
    var controlling: bool
    var status: Status

    ghost predicate Valid()
      reads this
    {
      controlling <==> status == Controlling
    }

    ghost function State(): Tab
      reads this
    {
      Tab(stopped, status)
    }

    constructor (ownerId: string, storage: LeaseStorage)
      ensures Valid() && State() == NEW_TAB && this.ownerId == ownerId && this.storage == storage
    {
      this.ownerId, this.storage := ownerId, storage;
      stopped, controlling, status := true, false, Idle;
    }

    method Publish(next: Status)
      modifies this
      ensures Valid() && status == next && stopped == old(stopped)
    {
      controlling := next == Controlling;
      if next != status { status := next; }
    }

    method WriteOwnLease(m: Moment) returns (ok: bool)
      modifies storage
      ensures (storage.cell, ok) == WriteLease(old(storage.cell), ownerId, m)
    {
      var expiresAt := m.second + LEASE_DURATION_MS;
      if !m.writable { return false; }
      storage.cell := Text(Lease(ownerId, expiresAt));
      if !m.readsBack { return false; }
      var readBack := Parse(storage.cell);
      ok := Owns(readBack, ownerId) && readBack.value.value.expiresAt == expiresAt;
    }

    /** Takes control exactly when the lease is free for this tab and its own comes back; else it only looks. */
    method AttemptLease(m: Moment)
      modifies this, storage
      ensures controlling <==> m.readable && FreeFor(old(storage.cell), ownerId, m.first) && WritesBack(ownerId, m)
      ensures status in {Controlling, ReadOnly}
      ensures storage.cell != old(storage.cell) ==>
                m.readable && FreeFor(old(storage.cell), ownerId, m.first) && storage.cell == OwnLease(ownerId, m)
      ensures Valid() && stopped == old(stopped)
      ensures (storage.cell, status) == Attempt(old(storage.cell), ownerId, m)
    {
      var observed := Observed(storage.cell, m);
      if observed.None?
         || (observed.value.Some? && observed.value.value.expiresAt > m.first
             && observed.value.value.ownerId != ownerId) {
        Publish(ReadOnly);
        return;
      }
      var ok := WriteOwnLease(m);
      Publish(if ok then Controlling else ReadOnly);
    }

    /**
      Control is kept exactly by reading one's own lease and getting a new one back, and gained like at the
      start; a lease that is not free for this tab is left alone either way.
    */
    method Heartbeat(m: Moment)
      requires Valid()
      modifies this, storage
      ensures old(stopped) ==> State() == old(State()) && storage.cell == old(storage.cell)
      ensures !old(stopped) && old(controlling) ==>
                (controlling <==> m.readable && Owns(Parse(old(storage.cell)), ownerId) && WritesBack(ownerId, m))
      ensures !old(stopped) && !old(controlling) ==>
                (controlling <==> m.readable && FreeFor(old(storage.cell), ownerId, m.first) && WritesBack(ownerId, m))
      ensures !old(stopped) && controlling ==> storage.cell == OwnLease(ownerId, m)
      ensures !FreeFor(old(storage.cell), ownerId, m.first) ==> storage.cell == old(storage.cell)
      ensures Valid() && stopped == old(stopped)
      ensures (storage.cell, status) == Beat(old(State()), old(storage.cell), ownerId, m)
    {
      if stopped { return; }
      if !controlling {
        AttemptLease(m);
        return;
      }
      var observed := Observed(storage.cell, m);
      if !Owns(observed, ownerId) {
        Publish(ReadOnly);
        return;
      }
      var ok := WriteOwnLease(m);
      if !ok { Publish(ReadOnly); }
    }

    /**
      A tab in control only listens: it stays so exactly when the event shows its own lease, unexpired. Any other
      tab gains control only over a lease that is free for it, and nobody touches one that is not.
    */
    method StorageChanged(newValue: Cell, seen: nat, m: Moment)
      requires Valid()
      modifies this, storage
      ensures old(controlling) ==>
                && storage.cell == old(storage.cell)
                && (controlling <==> Owns(Parse(newValue), ownerId) && Parse(newValue).value.value.expiresAt > seen)
      ensures !old(controlling) ==>
                (controlling <==> && Parse(newValue).Some?
                                  && (Parse(newValue).value.Some? ==> Parse(newValue).value.value.expiresAt <= seen)
                                  && m.readable && FreeFor(old(storage.cell), ownerId, m.first)
                                  && WritesBack(ownerId, m))
      ensures !old(controlling) && controlling ==> storage.cell == OwnLease(ownerId, m)
      ensures !FreeFor(old(storage.cell), ownerId, m.first) ==> storage.cell == old(storage.cell)
      ensures Valid() && stopped == old(stopped)
      ensures (storage.cell, status) == EventHandled(old(State()), old(storage.cell), ownerId, newValue, seen, m)
    {
      var observed := Parse(newValue);
      if controlling && (!Owns(observed, ownerId) || observed.value.value.expiresAt <= seen) {
        Publish(ReadOnly);
        return;
      }
      if !controlling && observed.Some? && (observed.value.None? || observed.value.value.expiresAt <= seen) {
        AttemptLease(m);
      }
    }

    method Start(m: Moment)
      requires Valid()
      modifies this, storage
      ensures Valid() && !stopped
      ensures (storage.cell, status)
              == if old(stopped) then Attempt(old(storage.cell), ownerId, m) else (old(storage.cell), old(status))
    {
      if !stopped { return; }
      stopped := false;
      AttemptLease(m);
    }

    /** A stopping tab removes its own lease if it is in control of it, and never another's. */
    method Stop(m: Moment)
      requires Valid()
      modifies this, storage
      ensures !old(stopped) ==> !controlling
      ensures storage.cell != old(storage.cell) ==>
                old(controlling) && Owns(Parse(old(storage.cell)), ownerId) && storage.cell == Absent
      ensures !old(stopped) && old(controlling) && Owns(Parse(old(storage.cell)), ownerId)
              && m.readable && m.writable ==>
                storage.cell == Absent
      ensures Valid() && stopped
      ensures (storage.cell, status)
              == if old(stopped) then (old(storage.cell), old(status))
                 else (Released(old(State()), old(storage.cell), ownerId, m), Stopped)
    {
      if stopped { return; }
      stopped := true;
      if controlling {
        var observed := Observed(storage.cell, m);
        if Owns(observed, ownerId) && m.writable { storage.cell := Absent; }
      }
      controlling := false;
      status := Stopped;
    }
  }

  // ---------------------------------------------------------------- any number of tabs

  /** `renewed` is when each tab last wrote a lease that it went on to hold control by. */
  datatype World = World(now: nat, cell: Cell, tabs: map<string, Tab>, renewed: map<string, nat>)

  datatype Action = Start(m: Moment) | Heartbeat(m: Moment) | StorageEvent(newValue: Cell, seen: nat, m: Moment)
                  | Stop(m: Moment) | Close

  function TabOf(w: World, owner: string): Tab { if owner in w.tabs then w.tabs[owner] else NEW_TAB }

  /** The clock never goes back; a stopped tab listens to nothing. */
  predicate Enabled(w: World, owner: string, a: Action) {
    match a
    case Start(m) => owner != "" && w.now <= m.first <= m.second
    case Heartbeat(m) => owner in w.tabs && w.now <= m.first <= m.second
    case StorageEvent(_, seen, m) =>
      owner in w.tabs && !w.tabs[owner].stopped && w.now <= seen <= m.first <= m.second
    case Stop(m) => owner in w.tabs && w.now <= m.first <= m.second
    case Close => owner in w.tabs
  }

  /** The tabs are free: within the order of the clock they may be opened, woken, stopped or lost at any time. */
  lemma AnythingMayHappen(w: World, owner: string, newValue: Cell, seen: nat, m: Moment)
    requires w.now <= seen <= m.first <= m.second
    ensures owner != "" ==> Enabled(w, owner, Start(m))
    ensures owner in w.tabs ==>
              Enabled(w, owner, Heartbeat(m)) && Enabled(w, owner, Stop(m)) && Enabled(w, owner, Close)
    ensures owner in w.tabs && !w.tabs[owner].stopped ==> Enabled(w, owner, StorageEvent(newValue, seen, m))
  {}

  function Handled(w: World, owner: string, m: Moment, cell: Cell, tab: Tab): World {
    World(m.second, cell, w.tabs[owner := tab],
          if tab.InControl() && cell == Text(Lease(owner, m.second + LEASE_DURATION_MS))
            then w.renewed[owner := m.second]
          else w.renewed)
  }

  function Next(w: World, owner: string, a: Action): World
    requires Enabled(w, owner, a)
  {
    var tab := TabOf(w, owner);
    match a
    case Start(m) =>
      if !tab.stopped then w.(now := m.second)
      else
        var (cell, status) := Attempt(w.cell, owner, m);
        Handled(w, owner, m, cell, Tab(false, status))
    case Heartbeat(m) =>
      var (cell, status) := Beat(tab, w.cell, owner, m);
      Handled(w, owner, m, cell, Tab(tab.stopped, status))
    case StorageEvent(newValue, seen, m) =>
      var (cell, status) := EventHandled(tab, w.cell, owner, newValue, seen, m);
      Handled(w, owner, m, cell, Tab(tab.stopped, status))
    case Stop(m) =>
      if tab.stopped then w.(now := m.second)
      else Handled(w, owner, m, Released(tab, w.cell, owner, m), Tab(true, Stopped))
    case Close => w.(tabs := w.tabs - {owner})
  }

  // ---------------------------------------------------------------- safety

  predicate Overdue(w: World, owner: string) {
    owner !in w.renewed || w.now >= w.renewed[owner] + LEASE_DURATION_MS
  }

  /** While its own lease has not run out, a controlling tab finds it in the storage. */
  predicate HoldsLease(w: World, owner: string)
    requires owner in w.tabs
  {
    w.tabs[owner].InControl() ==>
      && !w.tabs[owner].stopped
      && owner in w.renewed && w.renewed[owner] <= w.now
      && (Overdue(w, owner) || w.cell == Text(Lease(owner, w.renewed[owner] + LEASE_DURATION_MS)))
  }

  ghost predicate Guarded(w: World) {
    forall owner :: owner in w.tabs ==> HoldsLease(w, owner)
  }

  /** Nobody writes over or removes a lease of someone else that has not expired. No timing is assumed. */
  lemma UnexpiredLeaseRespected(w: World, owner: string, a: Action)
    requires Enabled(w, owner, a) && !a.Close?
    requires Parse(w.cell).Some? && Parse(w.cell).value.Some? && Parse(w.cell).value.value.ownerId != owner
    requires Parse(w.cell).value.value.expiresAt > a.m.first
    ensures Next(w, owner, a).cell == w.cell
  {}

  /** The other tabs, seen from a step: the lease of a tab that is in time stays where it is. */
  lemma OtherHoldsOn(w: World, owner: string, a: Action, other: string)
    requires Guarded(w) && Enabled(w, owner, a) && other in w.tabs && other != owner
    ensures HoldsLease(Next(w, owner, a), other)
  {
    var w' := Next(w, owner, a);
    assert HoldsLease(w, other);
    if w.tabs[other].InControl() && !Overdue(w', other) && !a.Close? {
      var lease := Lease(other, w.renewed[other] + LEASE_DURATION_MS);
      assert w.cell == Text(lease);
    }
  }

  lemma StepKeepsGuarded(w: World, owner: string, a: Action)
    requires Guarded(w) && Enabled(w, owner, a)
    ensures Guarded(Next(w, owner, a))
  {
    var w' := Next(w, owner, a);
    forall other | other in w'.tabs ensures HoldsLease(w', other) {
      if other != owner {
        OtherHoldsOn(w, owner, a, other);
      } else {
        if owner in w.tabs { assert HoldsLease(w, owner); }
      }
    }
  }

  const START: World := World(0, Absent, map[], map[])

  ghost predicate ValidRun(w: World, run: seq<(string, Action)>)
    decreases |run|
  {
    run == [] || (Enabled(w, run[0].0, run[0].1) && ValidRun(Next(w, run[0].0, run[0].1), run[1..]))
  }

  ghost function RunFrom(w: World, run: seq<(string, Action)>): World
    requires ValidRun(w, run)
    decreases |run|
  {
    if run == [] then w else RunFrom(Next(w, run[0].0, run[0].1), run[1..])
  }

  lemma {:induction false} RunKeepsGuarded(w: World, run: seq<(string, Action)>)
    requires Guarded(w) && ValidRun(w, run)
    ensures Guarded(RunFrom(w, run))
    decreases |run|
  {
    if run != [] {
      StepKeepsGuarded(w, run[0].0, run[0].1);
      RunKeepsGuarded(Next(w, run[0].0, run[0].1), run[1..]);
    }
  }

  /**
    Timed mutual exclusion, at every instant of every run, from any stored text and with any failing reads
    and writes: of two tabs in control, one has not renewed for the whole lease. So as long as every
    controlling tab renews in less than 8000 ms, there is never more than one.
  */
  lemma OneControllerInTime(cell: Cell, run: seq<(string, Action)>, a: string, b: string)
    requires ValidRun(START.(cell := cell), run) && a != b
    requires var w := RunFrom(START.(cell := cell), run);
             a in w.tabs && b in w.tabs && w.tabs[a].InControl() && w.tabs[b].InControl()
    ensures var w := RunFrom(START.(cell := cell), run);
            || (a in w.renewed ==> w.now >= w.renewed[a] + 8000)
            || (b in w.renewed ==> w.now >= w.renewed[b] + 8000)
  {
    RunKeepsGuarded(START.(cell := cell), run);
    var w := RunFrom(START.(cell := cell), run);
    assert HoldsLease(w, a) && HoldsLease(w, b);
  }

  /** The bound is sharp: at 8000 ms without a renewal a second tab takes over, and both are in control. */
  lemma TwoControllersWhenOverdue(a: string, b: string, t: nat) returns (run: seq<(string, Action)>)
    requires a != b && a != "" && b != "" && t + 16000 <= FieldProtocol.MAX_SAFE_INTEGER
    ensures ValidRun(START, run)
    ensures var w := RunFrom(START, run);
            && a in w.tabs && b in w.tabs && w.tabs[a].InControl() && w.tabs[b].InControl()
            && a in w.renewed && w.now == w.renewed[a] + 8000
  {
    var first, second := Start(Moment(true, true, true, t, t)),
                         Start(Moment(true, true, true, t + LEASE_DURATION_MS, t + LEASE_DURATION_MS));
    run := [(a, first), (b, second)];
    var w1 := Next(START, a, first);
    assert run[1..] == [(b, second)] && run[1..][1..] == [];
    assert ValidRun(Next(w1, b, second), []) && ValidRun(w1, run[1..]);
    assert RunFrom(w1, run[1..]) == Next(w1, b, second);
  }

  /**
    Heartbeats come every 2500 ms. Two of them may be lost: as long as the third is not late, no other tab gets
    control, and nobody touches the lease.
  */
  lemma TwoBeatsMayBeLost(w: World, owner: string, other: string, a: Action)
    requires Guarded(w) && owner in w.tabs && w.tabs[owner].InControl() && other != owner
    requires Enabled(w, other, a) && !a.Close? && !(other in w.tabs && w.tabs[other].InControl())
    requires owner in w.renewed && a.m.second <= w.renewed[owner] + 3 * HEARTBEAT_MS
    ensures Next(w, other, a).cell == w.cell == Text(Lease(owner, w.renewed[owner] + 8000))
    ensures other in Next(w, other, a).tabs ==> !Next(w, other, a).tabs[other].InControl()
  {
    assert HoldsLease(w, owner);
  }

  /** Such an overlap ends with the next heartbeat of the tab that was late, which leaves the new lease alone. */
  lemma OverlapEnds(w: World, owner: string, m: Moment)
    requires Enabled(w, owner, Heartbeat(m)) && w.tabs[owner].InControl() && !w.tabs[owner].stopped
    requires !Owns(Parse(w.cell), owner)
    ensures !Next(w, owner, Heartbeat(m)).tabs[owner].InControl() && Next(w, owner, Heartbeat(m)).cell == w.cell
  {}

  /** A tab that stops gives up control, and the lease exactly when it holds it and the storage works; others stay. */
  lemma StopRule(w: World, owner: string, m: Moment)
    requires Enabled(w, owner, Stop(m))
    ensures var w' := Next(w, owner, Stop(m));
            && w'.now == m.second && w'.tabs.Keys == w.tabs.Keys
            && (forall other :: other in w.tabs && other != owner ==> w'.tabs[other] == w.tabs[other])
            && (w.tabs[owner].stopped ==> w'.tabs == w.tabs && w'.cell == w.cell)
            && (!w.tabs[owner].stopped ==>
                  && w'.tabs[owner] == Tab(true, Stopped)
                  && w'.cell == if w.tabs[owner].InControl() && m.readable && m.writable && Owns(Parse(w.cell), owner)
                                then Absent else w.cell)
  {}

  /** Right after any handler that takes or keeps control by writing, the stored lease is the tab's own and whole. */
  lemma ControlIsBacked(w: World, owner: string, a: Action)
    requires Guarded(w) && Enabled(w, owner, a) && (a.Start? || a.Heartbeat?)
    requires a.Start? ==> TabOf(w, owner).stopped
    ensures var w' := Next(w, owner, a);
            w'.tabs[owner].InControl() ==>
              w'.cell == Text(Lease(owner, a.m.second + LEASE_DURATION_MS)) && w'.renewed[owner] == w'.now == a.m.second
  {
    if owner in w.tabs { assert HoldsLease(w, owner); }
  }

  /** A tab that asks for control gets it exactly when the lease is free for it and its own write comes back. */
  lemma TakesControlExactlyWhenFree(w: World, owner: string, m: Moment)
    requires Enabled(w, owner, Start(m)) && TabOf(w, owner).stopped
    requires m.second + LEASE_DURATION_MS <= FieldProtocol.MAX_SAFE_INTEGER
    ensures Next(w, owner, Start(m)).tabs[owner].InControl()
            <==> m.readable && FreeFor(w.cell, owner, m.first) && m.writable && m.readsBack
  {}

  /** A stored text that cannot be parsed is never repaired: it keeps every tab out until something else clears it. */
  lemma {:induction false} GarbledLeaseLocksOut(w: World, run: seq<(string, Action)>)
    requires ValidRun(w, run) && Parse(w.cell).None?
    requires forall owner :: owner in w.tabs ==> !w.tabs[owner].InControl()
    ensures var w' := RunFrom(w, run);
            w'.cell == w.cell && forall owner :: owner in w'.tabs ==> !w'.tabs[owner].InControl()
    decreases |run|
  {
    if run != [] { GarbledLeaseLocksOut(Next(w, run[0].0, run[0].1), run[1..]); }
  }
}
