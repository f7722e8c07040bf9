/**
  Revocation and healing of the kiosk device identity (public/kiosk-device-identity-v1.js). Pages of one
  origin share two storage keys, the last revocation token and the last healed one; nothing makes a
  page's sequence of storage operations atomic, so every single operation is a step of its own.
*/
module DeviceIdentity {
  import opened Options

  type Token = string

  predicate PersistedBlock(blocked: Option<Token>, healed: Option<Token>) {
    blocked.Some? && blocked != healed
  }

  // ---------------------------------------------------------------- one page by itself

  class IdentityStorage {
    var deviceId: Option<string>
    var blocked: Option<Token>
    var healed: Option<Token>

    constructor ()
      ensures deviceId == None && blocked == None && healed == None
    {
      deviceId, blocked, healed := None, None, None;
    }
  }

  datatype ProvisionResult = Blocked | Mismatch | Verified(deviceId: string)

  class KioskDeviceProvisioner {
    const storage: IdentityStorage
    var blockedInMemory: bool

    constructor (storage: IdentityStorage)
      ensures this.storage == storage && !blockedInMemory
    {
      this.storage := storage;
      blockedInMemory := false;
    }

    method IsBlocked() returns (r: bool)
      ensures r <==> blockedInMemory || PersistedBlock(storage.blocked, storage.healed)
    {
      if blockedInMemory { return true; }
      var blocked := storage.blocked;
      r := blocked != None && blocked != storage.healed;
    }

    /** `token` is None when none could be made or stored. */
    method Block(token: Option<Token>)
      modifies this, storage`blocked
      ensures blockedInMemory
      ensures storage.blocked == if token.Some? then token else old(storage.blocked)
    {
      blockedInMemory := true;
      if token.Some? { storage.blocked := token; }
    }

    method HealThrough(token: Option<Token>) returns (ok: bool)
      modifies this, storage`healed
      ensures ok <==> old(storage.blocked) == token
      ensures if ok then !blockedInMemory && !PersistedBlock(storage.blocked, storage.healed)
              else blockedInMemory == old(blockedInMemory) && storage.healed == old(storage.healed)
    {
      if storage.blocked != token { return false; }
      if token != None { storage.healed := token; }
      if storage.blocked != token { return false; }
      if token != None && storage.healed != token { return false; }
      blockedInMemory := false;
      ok := true;
    }

    method Current() returns (id: Option<string>)
      ensures id == if blockedInMemory || PersistedBlock(storage.blocked, storage.healed) then None
                    else storage.deviceId
    {
      var blocked := IsBlocked();
      id := if blocked then None else storage.deviceId;
    }

    /** The end of provision, once the server has named the device. `token` is for a revocation on mismatch. */
    method Provisioned(tokenAtStart: Option<Token>, existing: Option<string>, deviceId: string, token: Option<Token>)
      returns (r: ProvisionResult)
      modifies this, storage
      ensures r.Verified? <==> (existing == None || existing == Some(deviceId)) && old(storage.blocked) == tokenAtStart
      ensures r.Verified? ==>
                r.deviceId == deviceId && !blockedInMemory && !PersistedBlock(storage.blocked, storage.healed)
      ensures !r.Verified? ==> blockedInMemory && storage.healed == old(storage.healed)
      ensures storage.deviceId == if existing.Some? then old(storage.deviceId) else Some(deviceId)
    {
      if existing != None && existing != Some(deviceId) {
        Block(token);
        return Mismatch;
      }
      if existing == None { storage.deviceId := Some(deviceId); }
      var tokenAtEnd := storage.blocked;
      var healed := false;
      if tokenAtEnd == tokenAtStart { healed := HealThrough(tokenAtStart); }
      if !healed {
        blockedInMemory := true;
        return Blocked;
      }
      return Verified(deviceId);
    }
  }

  // ---------------------------------------------------------------- many pages, one operation at a time

  /** A block() call between making its token and storing it. */
  datatype Revoker = Revoker(page: nat, token: Token)

  /** Which storage operation of a provision comes next. */
  datatype Place = Fetching | ReadAtEnd | ReadBeforeHeal | WriteHealed | ReadAfterHeal | ReadHealed | Ended(ok: bool)

  /** `startedAt` and `lastReadAt` are the times of the first and the last read of the revocation token. */
  datatype Provision = Provision(page: nat, start: Option<Token>, startedAt: nat, place: Place, wrote: bool,
                                 lastReadAt: nat)

  /** An isBlocked call; it reads the revocation token first and the healed one later. */
  datatype Check = Check(first: Option<Token>, readAt: nat, answer: Option<bool>)

  /** `persistedAt` is when each token reached the storage, `used` all tokens ever made. */
  datatype World = World(
    clock: nat, blocked: Option<Token>, healed: Option<Token>, initialHealed: Option<Token>,
    persistedAt: map<Token, nat>, used: set<Token>, memory: map<nat, bool>,
    revokers: map<nat, Revoker>, provisions: map<nat, Provision>, checks: map<nat, Check>)

  /** Whatever earlier pages left behind. */
  function StartWith(blocked: Option<Token>, healed: Option<Token>): World {
    World(1, blocked, healed, healed, if blocked.Some? then map[blocked.value := 0] else map[],
          (if blocked.Some? then {blocked.value} else {}) + (if healed.Some? then {healed.value} else {}),
          map[], map[], map[], map[])
  }

  datatype Action =
    | Revoke(r: nat, page: nat, token: Token) | Persist(r: nat) | LoseToken(r: nat)
    | StartProvision(p: nat, page: nat) | Reply(p: nat, accepted: bool) | Proceed(p: nat) | Throw(p: nat)
    | BeginCheck(c: nat, page: nat) | EndCheck(c: nat)

  predicate Enabled(w: World, a: Action) {
    match a
    case Revoke(r, _, token) => r !in w.revokers && token !in w.used
    case Persist(r) => r in w.revokers
    case LoseToken(r) => r in w.revokers
    case StartProvision(p, _) => p !in w.provisions
    case Reply(p, _) => p in w.provisions && w.provisions[p].place == Fetching
    case Proceed(p) => p in w.provisions && !w.provisions[p].place.Fetching? && !w.provisions[p].place.Ended?
    case Throw(p) => p in w.provisions && !w.provisions[p].place.Ended?
    case BeginCheck(c, page) => c !in w.checks && !(page in w.memory && w.memory[page])
    case EndCheck(c) => c in w.checks && w.checks[c].answer.None?
  }

  /** The next storage operation of a provision and the tests up to the one after. */
  function Advanced(w: World, p: Provision): Provision {
    match p.place
    case ReadAtEnd => p.(place := if w.blocked != p.start then Ended(false) else ReadBeforeHeal)
    case ReadBeforeHeal =>
      p.(place := if w.blocked != p.start then Ended(false) else if p.start.Some? then WriteHealed else ReadAfterHeal)
    case WriteHealed => p.(place := ReadAfterHeal, wrote := true)
    case ReadAfterHeal =>
      p.(place := if w.blocked != p.start then Ended(false) else if p.start.Some? then ReadHealed else Ended(true),
         lastReadAt := w.clock)
    case ReadHealed => p.(place := Ended(w.healed == p.start))
    case _ => p
  }

  function Next(w: World, a: Action): World
    requires Enabled(w, a)
  {
    var w := w.(clock := w.clock + 1);
    var now := w.clock - 1;
    match a
    case Revoke(r, page, token) =>
      w.(revokers := w.revokers[r := Revoker(page, token)], used := w.used + {token}, memory := w.memory[page := true])
    case Persist(r) =>
      w.(blocked := Some(w.revokers[r].token), persistedAt := w.persistedAt[w.revokers[r].token := now],
         revokers := w.revokers - {r})
    case LoseToken(r) => w.(revokers := w.revokers - {r})
    case StartProvision(p, page) =>
      w.(provisions := w.provisions[p := Provision(page, w.blocked, now, Fetching, false, now)])
    case Reply(p, accepted) =>
      w.(provisions := w.provisions[p := w.provisions[p].(place := if accepted then ReadAtEnd else Ended(false))])
    case Proceed(p) =>
      var before := w.provisions[p];
      var after := Advanced(w.(clock := now), before);
      w.(provisions := w.provisions[p := after],
         healed := if before.place == WriteHealed then before.start else w.healed,
         memory := if after.place.Ended? then w.memory[before.page := !after.place.ok] else w.memory)
    case Throw(p) =>
      var before := w.provisions[p];
      w.(provisions := w.provisions[p := before.(place := Ended(false))],
         memory := if before.place.Fetching? || before.place.ReadAtEnd? then w.memory
                   else w.memory[before.page := true])
    case BeginCheck(c, _) => w.(checks := w.checks[c := Check(w.blocked, now, None)])
    case EndCheck(c) =>
      w.(checks := w.checks[c := w.checks[c].(answer := Some(PersistedBlock(w.checks[c].first, w.healed)))])
  }

  ghost predicate ValidRun(w: World, run: seq<Action>)
    decreases |run|
  {
    run == [] || (Enabled(w, run[0]) && ValidRun(Next(w, run[0]), run[1..]))
  }

  ghost function RunFrom(w: World, run: seq<Action>): World
    requires ValidRun(w, run)
    decreases |run|
  {
    if run == [] then w else RunFrom(Next(w, run[0]), run[1..])
  }

  // ---------------------------------------------------------------- the invariant

  /** `t` is what the storage held as the revocation token at time `at`. */
  ghost predicate HeldAt(w: World, t: Option<Token>, at: nat) {
    && (t.Some? ==> t.value in w.persistedAt && w.persistedAt[t.value] < at)
    && (forall u :: u in w.persistedAt && w.persistedAt[u] < at ==>
          t.Some? && t.value in w.persistedAt && w.persistedAt[u] <= w.persistedAt[t.value])
  }

  ghost predicate TokensOk(w: World) {
    && (forall u :: u in w.persistedAt ==> u in w.used && w.persistedAt[u] < w.clock)
    && (forall u :: u in w.persistedAt && w.persistedAt[u] > 0 ==> w.initialHealed != Some(u))
    && (w.initialHealed.Some? ==> w.initialHealed.value in w.used)
    && (forall r :: r in w.revokers ==> w.revokers[r].token in w.used && w.revokers[r].token !in w.persistedAt
                                        && w.initialHealed != Some(w.revokers[r].token))
    && (forall r, s :: r in w.revokers && s in w.revokers && r != s ==> w.revokers[r].token != w.revokers[s].token)
  }

  /** This token was healed by a provision that read it as it started. */
  ghost predicate HealedByProvision(w: World, t: Option<Token>) {
    exists p :: p in w.provisions && w.provisions[p].wrote && w.provisions[p].start == t
  }

  ghost predicate ProvisionOk(w: World, p: Provision) {
    && p.startedAt < w.clock && HeldAt(w, p.start, p.startedAt)
    && p.lastReadAt < w.clock
    && (p.wrote ==> p.start.Some?)
    && (p.place == WriteHealed ==> p.start.Some?)
    && (p.place == ReadHealed || p.place == Ended(true)
        ==> p.startedAt <= p.lastReadAt && HeldAt(w, p.start, p.lastReadAt))
  }

  ghost predicate CheckOk(w: World, c: Check) {
    && c.readAt < w.clock && HeldAt(w, c.first, c.readAt)
    && (c.answer == Some(false) ==> c.first.None? || c.first == w.initialHealed || HealedByProvision(w, c.first))
  }

  ghost predicate Inv(w: World) {
    && w.clock > 0 && TokensOk(w) && HeldAt(w, w.blocked, w.clock)
    && (w.healed == w.initialHealed || HealedByProvision(w, w.healed))
    && (forall p :: p in w.provisions ==> ProvisionOk(w, w.provisions[p]))
    && (forall c :: c in w.checks ==> CheckOk(w, w.checks[c]))
  }

  /** What every step leaves of the past. */
  ghost predicate Follows(w: World, w': World) {
    && w'.clock == w.clock + 1 && w'.initialHealed == w.initialHealed
    && (forall u :: u in w.persistedAt ==> u in w'.persistedAt && w'.persistedAt[u] == w.persistedAt[u])
    && (forall u :: u in w'.persistedAt && u !in w.persistedAt ==> w'.persistedAt[u] == w.clock)
    && (forall p :: p in w.provisions ==>
          p in w'.provisions && w'.provisions[p].start == w.provisions[p].start
          && (w.provisions[p].wrote ==> w'.provisions[p].wrote))
  }

  lemma HeldStays(w: World, w': World, t: Option<Token>, at: nat)
    requires Follows(w, w') && HeldAt(w, t, at) && at <= w.clock
    ensures HeldAt(w', t, at)
  {}

  lemma HealedStays(w: World, w': World, t: Option<Token>)
    requires Follows(w, w') && HealedByProvision(w, t)
    ensures HealedByProvision(w', t)
  {
    var p :| p in w.provisions && w.provisions[p].wrote && w.provisions[p].start == t;
    assert w'.provisions[p].wrote;
  }

  lemma ProvisionStays(w: World, w': World, p: Provision)
    requires Follows(w, w') && ProvisionOk(w, p)
    ensures ProvisionOk(w', p)
  {
    HeldStays(w, w', p.start, p.startedAt);
    if p.place == ReadHealed || p.place == Ended(true) { HeldStays(w, w', p.start, p.lastReadAt); }
  }

  lemma CheckStays(w: World, w': World, c: Check)
    requires Follows(w, w') && CheckOk(w, c)
    ensures CheckOk(w', c)
  {
    HeldStays(w, w', c.first, c.readAt);
    if c.answer == Some(false) && HealedByProvision(w, c.first) { HealedStays(w, w', c.first); }
  }

  lemma StepFollows(w: World, a: Action)
    requires Inv(w) && Enabled(w, a)
    ensures Follows(w, Next(w, a))
  {
    StepKeepsTimes(w, a);
    StepKeepsStarts(w, a);
  }

  lemma StepKeepsTimes(w: World, a: Action)
    requires Inv(w) && Enabled(w, a)
    ensures Next(w, a).clock == w.clock + 1 && Next(w, a).initialHealed == w.initialHealed
    ensures var w' := Next(w, a);
            && (forall u :: u in w.persistedAt ==> u in w'.persistedAt && w'.persistedAt[u] == w.persistedAt[u])
            && (forall u :: u in w'.persistedAt && u !in w.persistedAt ==> w'.persistedAt[u] == w.clock)
  {
    if a.Persist? { assert w.revokers[a.r].token !in w.persistedAt; }
  }

  lemma StepKeepsStarts(w: World, a: Action)
    requires Enabled(w, a)
    ensures forall p :: p in w.provisions ==>
              p in Next(w, a).provisions && Next(w, a).provisions[p].start == w.provisions[p].start
              && (w.provisions[p].wrote ==> Next(w, a).provisions[p].wrote)
  {}

  /** Each token is stored at most once, so the latest one is never an old one again. */
  lemma StepKeepsTokens(w: World, a: Action)
    requires Inv(w) && Enabled(w, a)
    ensures TokensOk(Next(w, a)) && HeldAt(Next(w, a), Next(w, a).blocked, Next(w, a).clock)
  {
    StepFollows(w, a);
    if a.Revoke? {
      assert forall r :: r in w.revokers ==> w.revokers[r].token != a.token;
    }
  }

  lemma AdvancedOk(w: World, w': World, before: Provision)
    requires Inv(w) && Follows(w, w') && ProvisionOk(w, before)
    ensures ProvisionOk(w', Advanced(w, before))
  {
    ProvisionStays(w, w', before);
    HeldStays(w, w', w.blocked, w.clock);
  }

  lemma StepKeepsProvisions(w: World, a: Action)
    requires Inv(w) && Enabled(w, a)
    ensures forall p :: p in Next(w, a).provisions ==> ProvisionOk(Next(w, a), Next(w, a).provisions[p])
  {
    var w' := Next(w, a);
    StepFollows(w, a);
    forall p | p in w'.provisions ensures ProvisionOk(w', w'.provisions[p]) {
      if p in w.provisions {
        ProvisionStays(w, w', w.provisions[p]);
        AdvancedOk(w, w', w.provisions[p]);
      } else {
        HeldStays(w, w', w.blocked, w.clock);
      }
    }
  }

  lemma StepKeepsHealed(w: World, a: Action)
    requires Inv(w) && Enabled(w, a)
    ensures Next(w, a).healed == w.initialHealed || HealedByProvision(Next(w, a), Next(w, a).healed)
  {
    var w' := Next(w, a);
    StepFollows(w, a);
    if a.Proceed? && w.provisions[a.p].place == WriteHealed {
      assert w'.provisions[a.p].wrote && w'.provisions[a.p].start == w'.healed;
    } else if w.healed != w.initialHealed {
      HealedStays(w, w', w.healed);
    }
  }

  lemma StepKeepsChecks(w: World, a: Action)
    requires Inv(w) && Enabled(w, a)
    ensures forall c :: c in Next(w, a).checks ==> CheckOk(Next(w, a), Next(w, a).checks[c])
  {
    var w' := Next(w, a);
    StepFollows(w, a);
    forall c | c in w'.checks ensures CheckOk(w', w'.checks[c]) {
      if c in w.checks {
        CheckStays(w, w', w.checks[c]);
        if w.healed != w.initialHealed { HealedStays(w, w', w.healed); }
      } else {
        HeldStays(w, w', w.blocked, w.clock);
      }
    }
  }

  lemma StepKeepsInv(w: World, a: Action)
    requires Inv(w) && Enabled(w, a)
    ensures Inv(Next(w, a))
  {
    StepKeepsTokens(w, a);
    StepKeepsHealed(w, a);
    StepKeepsProvisions(w, a);
    StepKeepsChecks(w, a);
  }

  lemma {:induction false} RunKeepsInv(w: World, run: seq<Action>)
    requires Inv(w) && ValidRun(w, run)
    ensures Inv(RunFrom(w, run))
    decreases |run|
  {
    if run != [] {
      StepKeepsInv(w, run[0]);
      RunKeepsInv(Next(w, run[0]), run[1..]);
    }
  }

  lemma StartInv(blocked: Option<Token>, healed: Option<Token>)
    ensures Inv(StartWith(blocked, healed))
  {}

  // ---------------------------------------------------------------- what holds in every run

  ghost predicate Reachable(w: World) {
    exists blocked, healed, run ::
      ValidRun(StartWith(blocked, healed), run) && RunFrom(StartWith(blocked, healed), run) == w
  }

  lemma ReachableInv(w: World)
    requires Reachable(w)
    ensures Inv(w)
  {
    var blocked, healed, run :|
      ValidRun(StartWith(blocked, healed), run) && RunFrom(StartWith(blocked, healed), run) == w;
    StartInv(blocked, healed);
    RunKeepsInv(StartWith(blocked, healed), run);
  }

  /** A provision that wrote the healed token it had read as it started, after `t` had been stored. */
  ghost predicate HealedAfter(w: World, t: Token, healed: Option<Token>)
    requires t in w.persistedAt
  {
    exists p :: p in w.provisions && w.provisions[p].wrote && w.provisions[p].start == healed
                && w.provisions[p].startedAt > w.persistedAt[t]
  }

  /**
    Once a revocation is stored, the origin is blocked until a provision that started later, and read the
    latest revocation as it started, has healed it.
  */
  lemma RevocationHolds(w: World, t: Token)
    requires Reachable(w) && t in w.persistedAt && w.persistedAt[t] > 0
    ensures PersistedBlock(w.blocked, w.healed) || HealedAfter(w, t, w.blocked)
  {
    ReachableInv(w);
    if !PersistedBlock(w.blocked, w.healed) {
      assert w.blocked.Some? && w.healed == w.blocked;
      assert w.persistedAt[w.blocked.value] > 0;
      var p :| p in w.provisions && w.provisions[p].wrote && w.provisions[p].start == w.healed;
      assert ProvisionOk(w, w.provisions[p]);
    }
  }

  /** Provisions already under way when a revocation is stored can never undo it, in any interleaving. */
  lemma InFlightCannotUndo(w: World, t: Token)
    requires Reachable(w) && t in w.persistedAt && w.persistedAt[t] > 0
    requires forall p :: p in w.provisions ==> w.provisions[p].startedAt <= w.persistedAt[t]
    ensures PersistedBlock(w.blocked, w.healed)
  {
    RevocationHolds(w, t);
  }

  /** A provision that reports a verified device had no revocation stored between its first and its last read. */
  lemma VerifiedMeansNotRevoked(w: World, p: nat, t: Token)
    requires Reachable(w) && p in w.provisions && w.provisions[p].place == Ended(true) && t in w.persistedAt
    ensures w.persistedAt[t] < w.provisions[p].startedAt || w.provisions[p].lastReadAt <= w.persistedAt[t]
  {
    ReachableInv(w);
    assert ProvisionOk(w, w.provisions[p]);
  }

  /** An isBlocked that starts after a revocation is stored answers no only after such a healing. */
  lemma LaterCheckSeesRevocation(w: World, c: nat, t: Token)
    requires Reachable(w) && c in w.checks && w.checks[c].answer == Some(false)
    requires t in w.persistedAt && 0 < w.persistedAt[t] < w.checks[c].readAt
    ensures HealedAfter(w, t, w.checks[c].first)
  {
    ReachableInv(w);
    var check := w.checks[c];
    assert CheckOk(w, check);
    assert check.first.Some? && w.persistedAt[check.first.value] > 0;
    var p :| p in w.provisions && w.provisions[p].wrote && w.provisions[p].start == check.first;
    assert ProvisionOk(w, w.provisions[p]);
  }

  /** The only step that unblocks is a provision's healing of the very token that is stored. */
  lemma UnblockingStep(w: World, a: Action)
    requires Reachable(w) && Enabled(w, a) && PersistedBlock(w.blocked, w.healed)
    ensures !PersistedBlock(Next(w, a).blocked, Next(w, a).healed)
            <==> a.Proceed? && w.provisions[a.p].place == WriteHealed && w.provisions[a.p].start == w.blocked
  {
    ReachableInv(w);
    StoredTokenIsNew(w, a);
  }

  lemma StoredTokenIsNew(w: World, a: Action)
    requires Inv(w) && Enabled(w, a)
    ensures a.Persist? ==> w.healed != Some(w.revokers[a.r].token)
  {
    if a.Persist? && w.healed != w.initialHealed {
      var p :| p in w.provisions && w.provisions[p].wrote && w.provisions[p].start == w.healed;
      assert ProvisionOk(w, w.provisions[p]);
    }
  }

  /**
    Two steps block: a revocation, and the late write of a provision that was overtaken by a newer token. The
    second takes back a healing that has already been reported; it never lets anything through.
  */
  lemma BlockingStep(w: World, a: Action)
    requires Reachable(w) && Enabled(w, a) && !PersistedBlock(w.blocked, w.healed)
    ensures PersistedBlock(Next(w, a).blocked, Next(w, a).healed)
            <==> a.Persist? || (a.Proceed? && w.provisions[a.p].place == WriteHealed
                                && w.provisions[a.p].start != w.blocked)
  {
    ReachableInv(w);
    StoredTokenIsNew(w, a);
    if a.Proceed? { assert ProvisionOk(w, w.provisions[a.p]); }
  }

  /**
    A page's own latch: set by its revocation, even one whose token is lost, and by a provision of its own that
    finds another token or breaks off while healing; cleared exactly by one that is verified.
  */
  lemma LatchRule(w: World, a: Action, page: nat)
    requires Enabled(w, a)
    ensures var latched := page in w.memory && w.memory[page];
            var latched' := page in Next(w, a).memory && Next(w, a).memory[page];
            && (!latched && latched' <==>
                  && !latched
                  && ((a.Revoke? && a.page == page)
                      || (a.Proceed? && w.provisions[a.p].page == page
                          && Next(w, a).provisions[a.p].place == Ended(false))
                      || (a.Throw? && w.provisions[a.p].page == page
                          && w.provisions[a.p].place in {ReadBeforeHeal, WriteHealed, ReadAfterHeal, ReadHealed})))
            && (latched && !latched' <==>
                  latched && a.Proceed? && w.provisions[a.p].page == page
                  && Next(w, a).provisions[a.p].place == Ended(true))
  {}

  // ---------------------------------------------------------------- a provision to its end

  /** The storage operations a provision still has to do, healing included. */
  function OperationsLeft(p: Provision): nat {
    match p.place
    case Fetching => 6
    case ReadAtEnd => 5
    case ReadBeforeHeal => 4
    case WriteHealed => 3
    case ReadAfterHeal => 2
    case ReadHealed => 1
    case Ended(_) => 0
  }

  /** Every storage operation brings a provision nearer to its end, and each read of another token ends it. */
  lemma ProceedAdvances(w: World, p: nat)
    requires Enabled(w, Proceed(p))
    ensures OperationsLeft(Next(w, Proceed(p)).provisions[p]) < OperationsLeft(w.provisions[p])
    ensures w.blocked != w.provisions[p].start && w.provisions[p].place in {ReadAtEnd, ReadBeforeHeal, ReadAfterHeal}
            ==> Next(w, Proceed(p)).provisions[p].place == Ended(false)
    ensures w.blocked == w.provisions[p].start && w.provisions[p].place in {ReadAtEnd, ReadBeforeHeal, ReadAfterHeal}
            ==> Next(w, Proceed(p)).provisions[p].place != Ended(false)
  {}

  /** A provision left alone at the storage, from its last reply on. */
  ghost function Undisturbed(w: World, p: nat): (w': World)
    requires p in w.provisions && !w.provisions[p].place.Fetching?
    ensures p in w'.provisions && w'.provisions[p].place.Ended? && w'.blocked == w.blocked
    decreases OperationsLeft(w.provisions[p])
  {
    if w.provisions[p].place.Ended? then w
    else ProceedAdvances(w, p); Undisturbed(Next(w, Proceed(p)), p)
  }

  /** What a provision on its way to success has done by its next operation. */
  predicate OnCourse(w: World, p: nat)
    requires p in w.provisions
  {
    var v := w.provisions[p];
    && v.start == w.blocked && !v.place.Fetching? && !v.place.Ended?
    && (v.place in {WriteHealed, ReadHealed} ==> w.blocked.Some?)
    && (v.place in {ReadAfterHeal, ReadHealed} && w.blocked.Some? ==> w.healed == w.blocked)
  }

  lemma {:induction false} OnCourseSucceeds(w: World, p: nat)
    requires p in w.provisions && OnCourse(w, p)
    ensures var w' := Undisturbed(w, p);
            && w'.provisions[p].place == Ended(true)
            && w'.memory == w.memory[w.provisions[p].page := false]
            && w'.healed == if w.blocked.Some? then w.blocked else w.healed
    decreases OperationsLeft(w.provisions[p])
  {
    var w' := Next(w, Proceed(p));
    ProceedAdvances(w, p);
    assert w'.provisions[p].page == w.provisions[p].page;
    if w'.provisions[p].place.Ended? {
      assert w'.provisions[p].place == Ended(true);
    } else {
      OnCourseSucceeds(w', p);
    }
  }

  /**
    A provision that nothing interrupts succeeds exactly when the revocation token it read first is still stored.
    Then that token is the healed one, and neither the storage nor the page's latch blocks any more.
  */
  lemma UndisturbedProvision(w: World, p: nat)
    requires p in w.provisions && w.provisions[p].place == ReadAtEnd
    ensures var w', same := Undisturbed(w, p), w.blocked == w.provisions[p].start;
            && w'.provisions[p].place == Ended(same)
            && w'.memory == w.memory[w.provisions[p].page := !same]
            && w'.healed == (if same && w.blocked.Some? then w.blocked else w.healed)
            && (same ==> w'.blocked == None || w'.blocked == w'.healed)
  {
    if w.blocked == w.provisions[p].start {
      OnCourseSucceeds(w, p);
    } else {
      ProceedAdvances(w, p);
      assert Undisturbed(w, p) == Next(w, Proceed(p));
    }
  }

  // ---------------------------------------------------------------- what the two reads of isBlocked can miss

  lemma ReachableStep(w: World, a: Action)
    requires Reachable(w) && Enabled(w, a)
    ensures Reachable(Next(w, a))
  {
    var blocked, healed, run :|
      ValidRun(StartWith(blocked, healed), run) && RunFrom(StartWith(blocked, healed), run) == w;
    RunExtends(StartWith(blocked, healed), run, a);
  }

  lemma {:induction false} RunExtends(w: World, run: seq<Action>, a: Action)
    requires ValidRun(w, run) && Enabled(RunFrom(w, run), a)
    ensures ValidRun(w, run + [a]) && RunFrom(w, run + [a]) == Next(RunFrom(w, run), a)
    decreases |run|
  {
    if run == [] {
      assert run + [a] == [a] && [a][1..] == [];
    } else {
      assert (run + [a])[0] == run[0] && (run + [a])[1..] == run[1..] + [a];
      RunExtends(Next(w, run[0]), run[1..], a);
    }
  }

  predicate Shut(w: World) { PersistedBlock(w.blocked, w.healed) }

  predicate Step(w: World, a: Action, w': World) { Enabled(w, a) && w' == Next(w, a) }

  /** A blocked world in which a provision is about to heal the stored token. */
  lemma AboutToHeal(t: Token) returns (w: World)
    ensures Reachable(w) && w.blocked == Some(t) && w.healed == None && w.used == {t}
    ensures 0 in w.provisions && w.provisions[0].place == WriteHealed && w.provisions[0].start == Some(t)
    ensures w.checks == map[] && w.revokers == map[] && w.memory == map[]
  {
    var w0 := StartWith(Some(t), None);
    assert ValidRun(w0, []) && RunFrom(w0, []) == w0;
    ReachableStep(w0, StartProvision(0, 0));
    var w1 := Next(w0, StartProvision(0, 0));
    ReachableStep(w1, Reply(0, true));
    var w2 := Next(w1, Reply(0, true));
    ReachableStep(w2, Proceed(0));
    var w3 := Next(w2, Proceed(0));
    ReachableStep(w3, Proceed(0));
    w := Next(w3, Proceed(0));
  }

  /**
    isBlocked is not atomic. Between its two reads the revocation it read can be healed while a newer one is
    stored: it then answers no although the origin was blocked at every moment.
  */
  lemma OverlappedCheckMisses(t: Token, newer: Token)
    returns (w0: World, w1: World, w2: World, w3: World, w4: World, w5: World)
    requires t != newer
    ensures Reachable(w0) && Step(w0, BeginCheck(0, 1), w1) && Step(w1, Revoke(0, 2, newer), w2)
    ensures Step(w2, Persist(0), w3) && Step(w3, Proceed(0), w4) && Step(w4, EndCheck(0), w5)
    ensures Shut(w0) && Shut(w1) && Shut(w2) && Shut(w3) && Shut(w4) && Shut(w5)
    ensures 0 in w5.checks && w5.checks[0].answer == Some(false)
  {
    w0 := AboutToHeal(t);
    w1 := Next(w0, BeginCheck(0, 1));
    w2 := Next(w1, Revoke(0, 2, newer));
    w3 := Next(w2, Persist(0));
    w4 := Next(w3, Proceed(0));
    w5 := Next(w4, EndCheck(0));
  }

  /**
    Exactly when an ending isBlocked answers no to a blocked origin: the stored token is no longer the one it
    read, and that one was none or is the healed one. If no token came in between, the answer is right.
  */
  lemma EndingCheckMisses(w: World, c: nat)
    requires Enabled(w, EndCheck(c))
    ensures var first, answer := w.checks[c].first, Next(w, EndCheck(c)).checks[c].answer;
            && (answer == Some(false) && Shut(w)
                <==> Shut(w) && w.blocked != first && (first.None? || w.healed == first))
            && (w.blocked == first ==> answer == Some(Shut(w)))
  {}

  // The same over every moment between the two reads.

  ghost predicate ShutThroughout(w: World, run: seq<Action>)
    requires ValidRun(w, run)
    decreases |run|
  {
    Shut(w) && (run == [] || ShutThroughout(Next(w, run[0]), run[1..]))
  }

  predicate Heals(w: World, a: Action) { a.Proceed? && a.p in w.provisions && w.provisions[a.p].place == WriteHealed }

  ghost predicate NoHealing(w: World, run: seq<Action>)
    requires ValidRun(w, run)
    decreases |run|
  {
    run == [] || (!Heals(w, run[0]) && NoHealing(Next(w, run[0]), run[1..]))
  }

  /** The last healing of the run is one of `t`. */
  ghost predicate HealsLast(w: World, run: seq<Action>, t: Option<Token>)
    requires ValidRun(w, run)
    decreases |run|
  {
    run != []
    && ((Heals(w, run[0]) && w.provisions[run[0].p].start == t && NoHealing(Next(w, run[0]), run[1..]))
        || HealsLast(Next(w, run[0]), run[1..], t))
  }

  /** A token is stored, and the last healing of the run comes after it and is one of `t`. */
  ghost predicate OvertakenThenHealed(w: World, run: seq<Action>, t: Option<Token>)
    requires ValidRun(w, run)
    decreases |run|
  {
    run != []
    && ((run[0].Persist? && HealsLast(Next(w, run[0]), run[1..], t))
        || OvertakenThenHealed(Next(w, run[0]), run[1..], t))
  }

  lemma {:induction false} OvertakenHealsLast(w: World, run: seq<Action>, t: Option<Token>)
    requires ValidRun(w, run) && OvertakenThenHealed(w, run, t)
    ensures HealsLast(w, run, t)
    decreases |run|
  {
    if !HealsLast(Next(w, run[0]), run[1..], t) { OvertakenHealsLast(Next(w, run[0]), run[1..], t); }
  }

  lemma {:induction false} HealsLastOrNone(w: World, run: seq<Action>, t: Option<Token>)
    requires ValidRun(w, run)
    ensures RunFrom(w, run).healed == t <==> HealsLast(w, run, t) || (NoHealing(w, run) && w.healed == t)
    decreases |run|
  {
    if run != [] { HealsLastOrNone(Next(w, run[0]), run[1..], t); }
  }

  lemma {:induction false} HealedWhileShut(w: World, run: seq<Action>, t: Option<Token>)
    requires ValidRun(w, run) && ShutThroughout(w, run) && w.blocked == t
    ensures RunFrom(w, run).healed == t <==> OvertakenThenHealed(w, run, t)
    decreases |run|
  {
    if run != [] {
      var w', rest := Next(w, run[0]), run[1..];
      if run[0].Persist? {
        HealsLastOrNone(w', rest, t);
        if OvertakenThenHealed(w', rest, t) { OvertakenHealsLast(w', rest, t); }
      } else {
        HealedWhileShut(w', rest, t);
      }
    }
  }

  lemma {:induction false} CheckKeepsFirst(w: World, run: seq<Action>, c: nat)
    requires ValidRun(w, run) && c in w.checks
    ensures c in RunFrom(w, run).checks && RunFrom(w, run).checks[c].first == w.checks[c].first
    decreases |run|
  {
    if run != [] { CheckKeepsFirst(Next(w, run[0]), run[1..], c); }
  }

  /**
    Exactly when an isBlocked answers no although the origin is blocked from its first read to its last: a newer
    token was stored in between, and after it the token of the first read was the last one healed.
  */
  lemma CheckMissesExactlyWhenOvertaken(w: World, c: nat, page: nat, run: seq<Action>)
    requires Enabled(w, BeginCheck(c, page)) && ValidRun(Next(w, BeginCheck(c, page)), run)
    requires ShutThroughout(Next(w, BeginCheck(c, page)), run)
    requires Enabled(RunFrom(Next(w, BeginCheck(c, page)), run), EndCheck(c))
    ensures Next(RunFrom(Next(w, BeginCheck(c, page)), run), EndCheck(c)).checks[c].answer == Some(false)
            <==> OvertakenThenHealed(Next(w, BeginCheck(c, page)), run, w.blocked)
  {
    var w1 := Next(w, BeginCheck(c, page));
    CheckKeepsFirst(w1, run, c);
    HealedWhileShut(w1, run, w.blocked);
  }
}
