/**
  The one-shot database exchange: a claim made durable before an atomic swap, and a verifier that only looks
  (scripts/g3-authority-reconciliation-rollback-executor.py, claim_attempt, rename_exchange and execute;
  scripts/g3-authority-reconciliation-rollback-recovery-terminal-verifier.py, expected_attempt_path,
  build_terminal_result and verify). What a process sees and what survives a crash are kept apart.
*/
module RollbackExchange {
  import opened Options

  /** Stands for the target digest, and for the attempt path that is derived from it and the operation. */
  type Digest = string

  /** The visible claim file; `full` once the record has been written. */
  datatype Claim = Claim(owner: nat, full: bool)

  /**
    `claims` are the visible files of the attempts directory, `listed` those whose directory entry would
    survive a crash, `kept` those whose record would. `effective` are the visible exchanges, oldest first,
    of which the first `durable` would survive.
  */
  datatype Disk = Disk(claims: map<Digest, Claim>, listed: set<Digest>, kept: set<Digest>, effective: seq<Digest>,
                       durable: nat)

  const EMPTY: Disk := Disk(map[], {}, {}, [], 0)

  /** Whether the schema 10 file has the active name. */
  predicate Swapped(disk: Disk) { |disk.effective| % 2 == 1 }

  function Crashed(disk: Disk): Disk
    requires disk.durable <= |disk.effective|
  {
    Disk(map d | d in disk.claims && d in disk.listed ::
           Claim(disk.claims[d].owner, disk.claims[d].full && d in disk.kept),
         disk.listed, disk.kept * disk.listed, disk.effective[..disk.durable], disk.durable)
  }

  function Created(disk: Disk, e: nat, d: Digest): Disk {
    disk.(claims := disk.claims[d := Claim(e, false)], kept := disk.kept - {d})
  }

  function Written(disk: Disk, d: Digest): Disk
    requires d in disk.claims
  {
    disk.(claims := disk.claims[d := disk.claims[d].(full := true)])
  }

  // ---------------------------------------------------------------- one executor by itself

  datatype Report = NoReport | ReconciliationRequired | ClaimUnknown | Unknown(exchangeMayHaveOccurred: bool) | Complete

  /** Which system call raises, if any. */
  datatype Fault = NoFault | AtCreate | AtWrite | AtSyncFile | AtSyncDirectory | AtExchange | AtSyncParents

  class FileSystem {
    var disk: Disk

    constructor (disk: Disk)
      ensures this.disk == disk
    {
      this.disk := disk;
    }

    /** open with O_CREAT and O_EXCL. */
    method OpenExclusive(e: nat, d: Digest) returns (ok: bool)
      modifies this
      ensures ok <==> d !in old(disk).claims
      ensures disk == if ok then Created(old(disk), e, d) else old(disk)
    {
      ok := d !in disk.claims;
      if ok { disk := Created(disk, e, d); }
    }

    method WriteRecord(d: Digest)
      requires d in disk.claims
      modifies this
      ensures disk == Written(old(disk), d)
    {
      disk := Written(disk, d);
    }

    method SyncFile(d: Digest)
      modifies this
      ensures disk == old(disk).(kept := old(disk).kept + {d})
    {
      disk := disk.(kept := disk.kept + {d});
    }

    method SyncAttempts(d: Digest)
      modifies this
      ensures disk == old(disk).(listed := old(disk).listed + {d})
    {
      disk := disk.(listed := disk.listed + {d});
    }

    method RenameExchange(d: Digest)
      modifies this
      ensures disk == old(disk).(effective := old(disk).effective + [d])
    {
      disk := disk.(effective := disk.effective + [d]);
    }

    method SyncParents()
      modifies this
      ensures disk == old(disk).(durable := |old(disk).effective|)
    {
      disk := disk.(durable := |disk.effective|);
    }

    /** claim_attempt: None once the claim is durable, otherwise how it failed. */
    method ClaimAttempt(e: nat, d: Digest, fault: Fault) returns (failure: Option<Report>)
      modifies this
      ensures disk.effective == old(disk).effective && disk.durable == old(disk).durable
      ensures failure.None? ==>
                d in disk.claims && disk.claims[d] == Claim(e, true) && d in disk.listed && d in disk.kept
      ensures failure == Some(ReconciliationRequired) <==> fault != AtCreate && d in old(disk).claims
      ensures failure == Some(NoReport) <==> fault == AtCreate
      ensures failure.Some? ==> failure.value in {NoReport, ReconciliationRequired, ClaimUnknown}
      ensures failure.Some? && failure != Some(ClaimUnknown) ==> disk == old(disk)
      ensures failure == Some(ClaimUnknown)
              <==> fault in {AtWrite, AtSyncFile, AtSyncDirectory} && d !in old(disk).claims
      ensures failure.None? || failure == Some(ClaimUnknown) ==> disk == ClaimLeaves(old(disk), e, d, fault)
      ensures failure == Some(ClaimUnknown) ==> d in disk.claims && disk.claims[d] == Claim(e, fault != AtWrite)
    {
      if fault == AtCreate { return Some(NoReport); }
      var created := OpenExclusive(e, d);
      if !created { return Some(ReconciliationRequired); }
      if fault == AtWrite { return Some(ClaimUnknown); }
      WriteRecord(d);
      if fault == AtSyncFile { return Some(ClaimUnknown); }
      SyncFile(d);
      if fault == AtSyncDirectory { return Some(ClaimUnknown); }
      SyncAttempts(d);
      return None;
    }

    /** execute after its prechecks, undisturbed: what is reported is what was done. */
    method Execute(e: nat, d: Digest, fault: Fault) returns (report: Report)
      requires disk.durable <= |disk.effective|
      modifies this
      ensures report == Complete || report == Unknown(true) <==> disk.effective == old(disk).effective + [d]
      ensures !(report == Complete || report == Unknown(true)) ==> disk.effective == old(disk).effective
      ensures disk.durable <= |disk.effective| && (report == Complete ==> disk.durable == |disk.effective|)
      ensures report == Complete || report.Unknown? ==>
                d in disk.listed && d in disk.kept && d in Crashed(disk).claims && Crashed(disk).claims[d].full
      ensures d in old(disk).claims ==> disk == old(disk) && (report == ReconciliationRequired || report == NoReport)
      ensures report == if fault == AtCreate then NoReport else if d in old(disk).claims then ReconciliationRequired
                        else if fault in {AtWrite, AtSyncFile, AtSyncDirectory} then ClaimUnknown
                        else if fault == NoFault then Complete else Unknown(fault == AtSyncParents)
      ensures var w := Alone(World(old(disk), map[e := Executor(d, AtOpen)], []), e, fault);
              disk == w.disk && w.executors[e].place == Ended(report)
    {
      if fault == AtCreate || d in disk.claims { AloneTurnedAway(disk, e, d, fault); }
      else { AloneClaims(disk, e, d, fault); }
      if d !in disk.claims && fault in {AtExchange, AtSyncParents, NoFault} {
        AloneRenames(World(ClaimLeaves(disk, e, d, fault), map[e := Executor(d, AtRename)], []), e, fault);
      }
      assert |disk.effective + [d]| == |disk.effective| + 1;
      var failure := ClaimAttempt(e, d, fault);
      if failure.Some? { return failure.value; }
      if fault == AtExchange { return Unknown(false); }
      RenameExchange(d);
      if fault == AtSyncParents { return Unknown(true); }
      SyncParents();
      return Complete;
    }
  }

  // ---------------------------------------------------------------- many executors, and crashes

  /** The system call an executor makes next. */
  datatype Place = AtOpen | AtRecord | AtFileSync | AtAttemptsSync | AtRename | AtParentsSync | Ended(report: Report)

  datatype Executor = Executor(digest: Digest, place: Place)

  /** An exchange that was carried out, whether or not a crash has undone it since. */
  datatype Exchange = Exchange(digest: Digest, executor: nat)

  datatype World = World(disk: Disk, executors: map<nat, Executor>, history: seq<Exchange>)

  const START: World := World(EMPTY, map[], [])

  /** The last three make something durable that no one asked to: the file system may do so at any time. */
  datatype Action = Admit(e: nat, d: Digest) | Advance(e: nat) | Raise(e: nat) | Crash
                  | ListEntry(d: Digest) | KeepRecord(d: Digest) | KeepExchanges(n: nat)

  predicate Running(w: World, e: nat) { e in w.executors && !w.executors[e].place.Ended? }

  /** The prechecks before the claim see the schema 11 file active; they are not atomic with what follows. */
  predicate Enabled(w: World, a: Action) {
    match a
    case Admit(e, _) => e !in w.executors && !Swapped(w.disk)
    case Advance(e) => Running(w, e) && (w.executors[e].place == AtRecord ==> w.executors[e].digest in w.disk.claims)
    case Raise(e) => Running(w, e)
    case Crash => w.disk.durable <= |w.disk.effective|
    case ListEntry(d) => d in w.disk.claims
    case KeepRecord(d) => d in w.disk.claims && w.disk.claims[d].full
    case KeepExchanges(n) => w.disk.durable <= n <= |w.disk.effective|
  }

  /** What an exception at each place is reported as. */
  function RaisedAt(place: Place): Report {
    match place
    case AtOpen => NoReport
    case AtRecord => ClaimUnknown
    case AtFileSync => ClaimUnknown
    case AtAttemptsSync => ClaimUnknown
    case AtRename => Unknown(false)
    case AtParentsSync => Unknown(true)
    case Ended(report) => report
  }

  function Moved(w: World, e: nat, place: Place): World
    requires e in w.executors
  {
    w.(executors := w.executors[e := w.executors[e].(place := place)])
  }

  function Advanced(w: World, e: nat): World
    requires Enabled(w, Advance(e))
  {
    var d := w.executors[e].digest;
    match w.executors[e].place
    case AtOpen =>
      if d in w.disk.claims then Moved(w, e, Ended(ReconciliationRequired))
      else Moved(w.(disk := Created(w.disk, e, d)), e, AtRecord)
    case AtRecord => Moved(w.(disk := Written(w.disk, d)), e, AtFileSync)
    case AtFileSync => Moved(w.(disk := w.disk.(kept := w.disk.kept + {d})), e, AtAttemptsSync)
    case AtAttemptsSync => Moved(w.(disk := w.disk.(listed := w.disk.listed + {d})), e, AtRename)
    case AtRename =>
      Moved(w.(disk := w.disk.(effective := w.disk.effective + [d]), history := w.history + [Exchange(d, e)]), e,
            AtParentsSync)
    case AtParentsSync => Moved(w.(disk := w.disk.(durable := |w.disk.effective|)), e, Ended(Complete))
    case Ended(_) => w
  }

  function Next(w: World, a: Action): World
    requires Enabled(w, a)
  {
    match a
    case Admit(e, d) => w.(executors := w.executors[e := Executor(d, AtOpen)])
    case Advance(e) => Advanced(w, e)
    case Raise(e) => Moved(w, e, Ended(RaisedAt(w.executors[e].place)))
    case Crash =>
      w.(disk := Crashed(w.disk),
         executors := map e | e in w.executors ::
           if w.executors[e].place.Ended? then w.executors[e] else w.executors[e].(place := Ended(NoReport)))
    case ListEntry(d) => w.(disk := w.disk.(listed := w.disk.listed + {d}))
    case KeepRecord(d) => w.(disk := w.disk.(kept := w.disk.kept + {d}))
    case KeepExchanges(n) => w.(disk := w.disk.(durable := n))
  }

  ghost predicate ValidRun(w: World, run: seq<Action>)
    decreases |run|
  {
    run == [] || (Enabled(w, run[0]) && ValidRun(Next(w, run[0]), run[1..]))
  }

  ghost function RunFrom(w: World, run: seq<Action>): World
    requires ValidRun(w, run)
    decreases |run|
  {
    if run == [] then w else RunFrom(Next(w, run[0]), run[1..])
  }

  /** The system call of a place, as a fault. */
  function FaultAt(place: Place): Fault {
    match place
    case AtOpen => AtCreate
    case AtRecord => AtWrite
    case AtFileSync => AtSyncFile
    case AtAttemptsSync => AtSyncDirectory
    case AtRename => AtExchange
    case AtParentsSync => AtSyncParents
    case Ended(_) => NoFault
  }

  function StepsLeft(place: Place): nat {
    match place
    case AtOpen => 6
    case AtRecord => 5
    case AtFileSync => 4
    case AtAttemptsSync => 3
    case AtRename => 2
    case AtParentsSync => 1
    case Ended(_) => 0
  }

  /** An executor left alone, whose call fails where the fault is. */
  function Alone(w: World, e: nat, fault: Fault): (w': World)
    requires e in w.executors && (w.executors[e].place == AtRecord ==> w.executors[e].digest in w.disk.claims)
    ensures e in w'.executors
    decreases StepsLeft(w.executors[e].place)
  {
    var place := w.executors[e].place;
    if place.Ended? then w
    else if fault == FaultAt(place) then Next(w, Raise(e))
    else Alone(Next(w, Advance(e)), e, fault)
  }

  lemma AloneGoesOn(w: World, e: nat, fault: Fault)
    requires e in w.executors && !w.executors[e].place.Ended? && fault != FaultAt(w.executors[e].place)
    requires w.executors[e].place == AtRecord ==> w.executors[e].digest in w.disk.claims
    ensures Alone(w, e, fault) == Alone(Next(w, Advance(e)), e, fault)
  {}

  /** At its rename: the three ways it ends from there. */
  lemma AloneRenames(w: World, e: nat, fault: Fault)
    requires e in w.executors && w.executors[e].place == AtRename
    requires fault in {AtExchange, AtSyncParents, NoFault}
    ensures var w', d := Alone(w, e, fault), w.executors[e].digest;
            var after := w.disk.(effective := w.disk.effective + [d]);
            && w'.disk == (if fault == AtExchange then w.disk else if fault == AtSyncParents then after
                           else after.(durable := |after.effective|))
            && w'.executors[e].place
               == Ended(if fault == NoFault then Complete else Unknown(fault == AtSyncParents))
  {
    if fault != AtExchange {
      AloneGoesOn(w, e, fault);
      if fault == NoFault { AloneGoesOn(Next(w, Advance(e)), e, fault); }
    }
  }

  /** The disk after a claim has got as far as the fault lets it. */
  function ClaimLeaves(disk: Disk, e: nat, d: Digest, fault: Fault): Disk {
    if fault == AtWrite then Created(disk, e, d) else SyncsLeave(Written(Created(disk, e, d), d), d, fault)
  }

  function SyncsLeave(disk: Disk, d: Digest, fault: Fault): Disk {
    var kept := disk.(kept := disk.kept + {d});
    if fault == AtSyncFile then disk else if fault == AtSyncDirectory then kept
    else kept.(listed := kept.listed + {d})
  }

  /** From the open call to the end of the claim. */
  lemma AloneClaims(disk: Disk, e: nat, d: Digest, fault: Fault)
    requires fault != AtCreate && d !in disk.claims
    ensures var w := Alone(World(disk, map[e := Executor(d, AtOpen)], []), e, fault);
            if fault in {AtWrite, AtSyncFile, AtSyncDirectory}
            then w.disk == ClaimLeaves(disk, e, d, fault) && w.executors[e].place == Ended(ClaimUnknown)
            else w == Alone(World(ClaimLeaves(disk, e, d, fault), map[e := Executor(d, AtRename)], []), e, fault)
  {
    AloneOpens(disk, e, d, fault);
    AloneRecords(Created(disk, e, d), e, d, fault);
    if fault != AtWrite { AloneSyncs(Written(Created(disk, e, d), d), e, d, fault); }
  }

  lemma AloneOpens(disk: Disk, e: nat, d: Digest, fault: Fault)
    requires fault != AtCreate && d !in disk.claims
    ensures Alone(World(disk, map[e := Executor(d, AtOpen)], []), e, fault)
            == Alone(World(Created(disk, e, d), map[e := Executor(d, AtRecord)], []), e, fault)
  {
    AloneGoesOn(World(disk, map[e := Executor(d, AtOpen)], []), e, fault);
    assert map[e := Executor(d, AtOpen)][e := Executor(d, AtRecord)] == map[e := Executor(d, AtRecord)];
  }

  /** From the new file on. */
  lemma AloneRecords(disk: Disk, e: nat, d: Digest, fault: Fault)
    requires fault != AtCreate && d in disk.claims
    ensures var w := Alone(World(disk, map[e := Executor(d, AtRecord)], []), e, fault);
            var written := Written(disk, d);
            if fault == AtWrite then w.disk == disk && w.executors[e].place == Ended(ClaimUnknown)
            else w == Alone(World(written, map[e := Executor(d, AtFileSync)], []), e, fault)
  {
    if fault != AtWrite {
      AloneGoesOn(World(disk, map[e := Executor(d, AtRecord)], []), e, fault);
      assert map[e := Executor(d, AtRecord)][e := Executor(d, AtFileSync)] == map[e := Executor(d, AtFileSync)];
    }
  }

  /** From the written record on. */
  lemma AloneSyncs(disk: Disk, e: nat, d: Digest, fault: Fault)
    requires fault !in {AtCreate, AtWrite}
    ensures var w := Alone(World(disk, map[e := Executor(d, AtFileSync)], []), e, fault);
            if fault in {AtSyncFile, AtSyncDirectory}
            then w.disk == SyncsLeave(disk, d, fault) && w.executors[e].place == Ended(ClaimUnknown)
            else w == Alone(World(SyncsLeave(disk, d, fault), map[e := Executor(d, AtRename)], []), e, fault)
  {
    if fault != AtSyncFile {
      AloneGoesOn(World(disk, map[e := Executor(d, AtFileSync)], []), e, fault);
      var kept := disk.(kept := disk.kept + {d});
      assert map[e := Executor(d, AtFileSync)][e := Executor(d, AtAttemptsSync)]
          == map[e := Executor(d, AtAttemptsSync)];
      if fault != AtSyncDirectory {
        AloneGoesOn(World(kept, map[e := Executor(d, AtAttemptsSync)], []), e, fault);
        assert map[e := Executor(d, AtAttemptsSync)][e := Executor(d, AtRename)] == map[e := Executor(d, AtRename)];
      }
    }
  }

  lemma AloneTurnedAway(disk: Disk, e: nat, d: Digest, fault: Fault)
    requires fault == AtCreate || d in disk.claims
    ensures var w := Alone(World(disk, map[e := Executor(d, AtOpen)], []), e, fault);
            && w.disk == disk
            && w.executors[e].place == Ended(if fault == AtCreate then NoReport else ReconciliationRequired)
  {
    if fault != AtCreate { AloneGoesOn(World(disk, map[e := Executor(d, AtOpen)], []), e, fault); }
  }

  // ---------------------------------------------------------------- the invariant

  predicate DiskOk(disk: Disk) {
    && disk.durable <= |disk.effective|
    && (forall d :: d in disk.listed ==> d in disk.claims)
    && (forall d :: d in disk.kept ==> d in disk.claims && disk.claims[d].full)
  }

  predicate HoldsClaim(place: Place) {
    place in {AtRecord, AtFileSync, AtAttemptsSync, AtRename, AtParentsSync}
  }

  /** How far the claim of a running executor has come. */
  predicate ExecutorOk(w: World, e: nat)
    requires e in w.executors
  {
    var d, place := w.executors[e].digest, w.executors[e].place;
    && (HoldsClaim(place) ==> d in w.disk.claims && w.disk.claims[d].owner == e)
    && (place in {AtFileSync, AtAttemptsSync, AtRename} ==> w.disk.claims[d].full)
    && (place in {AtAttemptsSync, AtRename} ==> d in w.disk.kept)
    && (place == AtRename ==> d in w.disk.listed)
    && (place in {AtRecord, AtFileSync, AtAttemptsSync, AtRename} || place == Ended(Unknown(false)) ==>
          forall x :: x in w.history ==> x.executor != e)
    && (place == AtParentsSync || place == Ended(Unknown(true)) || place == Ended(Complete)
        ==> Exchange(d, e) in w.history)
    && (place == AtParentsSync ==> d in w.disk.effective)
    && (place == Ended(Complete) ==>
          w.disk.durable <= |w.disk.effective| && d in w.disk.effective[..w.disk.durable])
  }

  /** A carried-out exchange leaves a claim that survives every crash, and an executor past its rename. */
  predicate ExchangeOk(w: World, x: Exchange) {
    && x.digest in w.disk.listed && x.digest in w.disk.kept && x.digest in w.disk.claims
    && w.disk.claims[x.digest].owner == x.executor
    && x.executor in w.executors && w.executors[x.executor].digest == x.digest
    && (w.executors[x.executor].place.Ended? || w.executors[x.executor].place == AtParentsSync)
  }

  ghost predicate Inv(w: World) {
    && DiskOk(w.disk)
    && (forall e :: e in w.executors ==> ExecutorOk(w, e))
    && (forall x :: x in w.history ==> ExchangeOk(w, x))
    && (forall i, j :: 0 <= i < j < |w.history| ==> w.history[i].digest != w.history[j].digest)
    && (forall d :: d in w.disk.effective ==> exists x :: x in w.history && x.digest == d)
    && (forall i, j :: 0 <= i < j < |w.disk.effective| ==> w.disk.effective[i] != w.disk.effective[j])
  }

  /** All but the executor that moves see the same claim, record and exchanges. */
  ghost predicate Undisturbed(w: World, w': World, e: nat) {
    && (forall f :: f in w'.executors && f != e ==> f in w.executors && w'.executors[f] == w.executors[f])
    && (forall d :: d in w.disk.claims ==> d in w'.disk.claims && w'.disk.claims[d].owner == w.disk.claims[d].owner
                                           && (w.disk.claims[d].full ==> w'.disk.claims[d].full))
    && w.disk.listed <= w'.disk.listed && w.disk.kept <= w'.disk.kept
    && (forall x :: x in w'.history ==> x in w.history || x.executor == e)
    && (forall x :: x in w.history ==> x in w'.history)
    && w.disk.effective <= w'.disk.effective && w.disk.durable <= w'.disk.durable <= |w'.disk.effective|
  }

  lemma OthersStayOk(w: World, w': World, e: nat, f: nat)
    requires Inv(w) && Undisturbed(w, w', e) && f in w'.executors && f != e
    ensures ExecutorOk(w', f)
  {
    assert ExecutorOk(w, f);
    if w.executors[f].place == Ended(Complete) {
      var d := w.executors[f].digest;
      var i :| 0 <= i < w.disk.durable && w.disk.effective[..w.disk.durable][i] == d;
      assert w'.disk.effective[..w'.disk.durable][i] == d;
    }
  }

  lemma ExchangesStayOk(w: World, w': World, e: nat)
    requires Inv(w) && Undisturbed(w, w', e)
    requires e in w'.executors
    requires e in w.executors ==>
               w'.executors[e].digest == w.executors[e].digest
               && (w.executors[e].place == AtParentsSync || w.executors[e].place.Ended? ==>
                     w'.executors[e].place == AtParentsSync || w'.executors[e].place.Ended?)
    requires forall f :: f in w.executors ==> f in w'.executors
    ensures forall x :: x in w.history ==> ExchangeOk(w', x)
  {
    forall x | x in w.history ensures ExchangeOk(w', x) { assert ExchangeOk(w, x); }
  }

  /** A step that exchanges nothing and keeps the disk in order. */
  lemma QuietStep(w: World, w': World, e: nat)
    requires Inv(w) && Undisturbed(w, w', e) && DiskOk(w'.disk)
    requires w'.history == w.history && w'.disk.effective == w.disk.effective
    requires e in w'.executors && ExecutorOk(w', e)
    requires e in w.executors ==>
               w'.executors[e].digest == w.executors[e].digest
               && (w.executors[e].place == AtParentsSync || w.executors[e].place.Ended? ==>
                     w'.executors[e].place == AtParentsSync || w'.executors[e].place.Ended?)
    requires forall f :: f in w.executors ==> f in w'.executors
    ensures Inv(w')
  {
    forall f | f in w'.executors ensures ExecutorOk(w', f) {
      if f != e { OthersStayOk(w, w', e, f); }
    }
    ExchangesStayOk(w, w', e);
  }

  lemma AdmitKeepsInv(w: World, e: nat, d: Digest)
    requires Inv(w) && Enabled(w, Admit(e, d))
    ensures Inv(Next(w, Admit(e, d)))
  {
    QuietStep(w, Next(w, Admit(e, d)), e);
  }

  lemma RaiseKeepsInv(w: World, e: nat)
    requires Inv(w) && Enabled(w, Raise(e))
    ensures Inv(Next(w, Raise(e)))
  {
    assert ExecutorOk(w, e);
    QuietStep(w, Next(w, Raise(e)), e);
  }

  /** A lost or unlisted claim has never been followed by an exchange, so it may be made anew. */
  lemma UnclaimedUnexchanged(w: World, d: Digest)
    requires Inv(w) && d !in w.disk.claims
    ensures forall x :: x in w.history ==> x.digest != d
    ensures forall e :: e in w.executors && HoldsClaim(w.executors[e].place) ==> w.executors[e].digest != d
  {
    forall x | x in w.history ensures x.digest != d { assert ExchangeOk(w, x); }
    forall e | e in w.executors && HoldsClaim(w.executors[e].place) ensures w.executors[e].digest != d {
      assert ExecutorOk(w, e);
    }
  }

  /** An executor that has not got past the claim has exchanged nothing. */
  lemma BeforeRename(w: World, e: nat)
    requires Inv(w) && e in w.executors && !w.executors[e].place.Ended? && w.executors[e].place != AtParentsSync
    ensures forall x :: x in w.history ==> x.executor != e
  {
    forall x | x in w.history ensures x.executor != e { assert ExchangeOk(w, x); }
  }

  lemma OpenKeepsInv(w: World, e: nat)
    requires Inv(w) && Enabled(w, Advance(e)) && w.executors[e].place == AtOpen
    ensures Inv(Next(w, Advance(e)))
  {
    var d, w' := w.executors[e].digest, Next(w, Advance(e));
    BeforeRename(w, e);
    if d !in w.disk.claims {
      UnclaimedUnexchanged(w, d);
      assert d !in w.disk.listed && d !in w.disk.kept;
      assert w'.disk.kept == w.disk.kept;
    }
    QuietStep(w, w', e);
  }

  lemma ClaimStepKeepsInv(w: World, e: nat)
    requires Inv(w) && Enabled(w, Advance(e)) && w.executors[e].place in {AtRecord, AtFileSync, AtAttemptsSync}
    ensures Inv(Next(w, Advance(e)))
  {
    assert ExecutorOk(w, e);
    QuietStep(w, Next(w, Advance(e)), e);
  }

  lemma SyncKeepsInv(w: World, e: nat)
    requires Inv(w) && Enabled(w, Advance(e)) && w.executors[e].place == AtParentsSync
    ensures Inv(Next(w, Advance(e)))
  {
    var w' := Next(w, Advance(e));
    assert ExecutorOk(w, e);
    assert w'.disk.effective[..|w'.disk.effective|] == w'.disk.effective;
    QuietStep(w, w', e);
  }

  /** The claim is the executor's own and durable, so nobody has exchanged for this digest yet. */
  lemma FirstForDigest(w: World, e: nat)
    requires Inv(w) && e in w.executors && w.executors[e].place == AtRename
    ensures forall x :: x in w.history ==> x.digest != w.executors[e].digest
    ensures w.executors[e].digest !in w.disk.effective
  {
    assert ExecutorOk(w, e);
    forall x | x in w.history ensures x.digest != w.executors[e].digest { assert ExchangeOk(w, x); }
  }

  lemma RenameKeepsInv(w: World, e: nat)
    requires Inv(w) && Enabled(w, Advance(e)) && w.executors[e].place == AtRename
    ensures Inv(Next(w, Advance(e)))
  {
    var d, w' := w.executors[e].digest, Next(w, Advance(e));
    assert ExecutorOk(w, e);
    FirstForDigest(w, e);
    assert w'.history[|w.history|] == Exchange(d, e) && Exchange(d, e) in w'.history;
    assert w'.disk.effective[|w.disk.effective|] == d;
    forall f | f in w'.executors ensures ExecutorOk(w', f) {
      if f != e { OthersStayOk(w, w', e, f); }
    }
    ExchangesStayOk(w, w', e);
    forall x | x in w'.history ensures ExchangeOk(w', x) {
      if x != Exchange(d, e) { assert x in w.history; }
    }
    forall c | c in w'.disk.effective ensures exists x :: x in w'.history && x.digest == c {
      if c != d {
        assert c in w.disk.effective;
        var x :| x in w.history && x.digest == c;
        assert x in w'.history;
      }
    }
    forall i, j | 0 <= i < j < |w'.history| ensures w'.history[i].digest != w'.history[j].digest {
      assert w.history[i] in w.history;
    }
  }

  /** A crash keeps every claim that was listed, with its record if that was kept. */
  lemma CrashKeepsInv(w: World)
    requires Inv(w) && Enabled(w, Crash)
    ensures Inv(Next(w, Crash))
  {
    var w' := Next(w, Crash);
    forall x | x in w'.history ensures ExchangeOk(w', x) { assert ExchangeOk(w, x); }
    forall e | e in w'.executors ensures ExecutorOk(w', e) {
      assert ExecutorOk(w, e);
      assert w'.disk.effective[..w'.disk.durable] == w.disk.effective[..w.disk.durable];
    }
    forall d | d in w'.disk.effective ensures exists x :: x in w'.history && x.digest == d {
      assert d in w.disk.effective;
    }
  }

  lemma WritebackKeepsInv(w: World, a: Action)
    requires Inv(w) && Enabled(w, a) && (a.ListEntry? || a.KeepRecord? || a.KeepExchanges?)
    ensures Inv(Next(w, a))
  {
    var w' := Next(w, a);
    forall x | x in w'.history ensures ExchangeOk(w', x) { assert ExchangeOk(w, x); }
    forall e | e in w'.executors ensures ExecutorOk(w', e) {
      assert ExecutorOk(w, e);
      assert forall c :: c in w.disk.effective[..w.disk.durable] ==> c in w'.disk.effective[..w'.disk.durable];
    }
  }

  lemma StepKeepsInv(w: World, a: Action)
    requires Inv(w) && Enabled(w, a)
    ensures Inv(Next(w, a))
  {
    match a
    case Admit(e, d) => AdmitKeepsInv(w, e, d);
    case Raise(e) => RaiseKeepsInv(w, e);
    case Crash => CrashKeepsInv(w);
    case Advance(e) =>
      match w.executors[e].place {
        case AtOpen => OpenKeepsInv(w, e);
        case AtRename => RenameKeepsInv(w, e);
        case AtParentsSync => SyncKeepsInv(w, e);
        case _ => ClaimStepKeepsInv(w, e);
      }
    case _ => WritebackKeepsInv(w, a);
  }

  lemma {:induction false} RunKeepsInv(w: World, run: seq<Action>)
    requires Inv(w) && ValidRun(w, run)
    ensures Inv(RunFrom(w, run))
    decreases |run|
  {
    if run != [] {
      StepKeepsInv(w, run[0]);
      RunKeepsInv(Next(w, run[0]), run[1..]);
    }
  }

  ghost predicate Reachable(w: World) { exists run :: ValidRun(START, run) && RunFrom(START, run) == w }

  lemma ReachableInv(w: World)
    requires Reachable(w)
    ensures Inv(w)
  {
    var run :| ValidRun(START, run) && RunFrom(START, run) == w;
    RunKeepsInv(START, run);
  }

  /** The environment is free: crashes and write-backs come at any time, and any call may raise. */
  lemma AnythingMayHappen(w: World, d: Digest, e: nat, n: nat)
    requires Reachable(w)
    ensures Enabled(w, Crash)
    ensures w.disk.durable <= n <= |w.disk.effective| ==> Enabled(w, KeepExchanges(n))
    ensures d in w.disk.claims ==> Enabled(w, ListEntry(d)) && (w.disk.claims[d].full ==> Enabled(w, KeepRecord(d)))
    ensures e in w.executors && !w.executors[e].place.Ended? ==> Enabled(w, Advance(e)) && Enabled(w, Raise(e))
    ensures e !in w.executors && |w.disk.effective| % 2 == 0 ==> Enabled(w, Admit(e, d))
  {
    ReachableInv(w);
    if e in w.executors { assert ExecutorOk(w, e); }
  }

  // ---------------------------------------------------------------- what holds in every run

  /** Over all executors and crashes a digest is exchanged at most once, counting exchanges a crash has undone. */
  lemma AtMostOneExchange(w: World, i: nat, j: nat)
    requires Reachable(w) && i < |w.history| && j < |w.history| && w.history[i].digest == w.history[j].digest
    ensures i == j
  {
    ReachableInv(w);
  }

  /** Whatever survives of an exchange after a crash, its whole claim record survives as well. */
  lemma ExchangeImpliesDurableClaim(w: World, x: Exchange)
    requires Reachable(w) && x in w.history
    ensures w.disk.durable <= |w.disk.effective|
    ensures x.digest in Crashed(w.disk).claims && Crashed(w.disk).claims[x.digest] == Claim(x.executor, true)
  {
    ReachableInv(w);
    assert ExchangeOk(w, x);
  }

  /** A claim that is on disk for good turns every later executor for its digest away, before it changes anything. */
  lemma ClaimTurnsLaterAway(w: World, e: nat)
    requires Reachable(w) && Enabled(w, Advance(e)) && w.executors[e].place == AtOpen
    requires exists x :: x in w.history && x.digest == w.executors[e].digest
    ensures Next(w, Advance(e)) == Moved(w, e, Ended(ReconciliationRequired))
  {
    ReachableInv(w);
    var x :| x in w.history && x.digest == w.executors[e].digest;
    assert ExchangeOk(w, x);
  }

  /** What an executor has reported is true of it, now and after any crash. */
  lemma ReportsAreHonest(w: World, e: nat, report: Report)
    requires Reachable(w) && e in w.executors && w.executors[e].place == Ended(report)
    ensures w.disk.durable <= |w.disk.effective|
    ensures report == Complete ==>
              Exchange(w.executors[e].digest, e) in w.history && w.executors[e].digest in Crashed(w.disk).effective
    ensures report == Unknown(true) ==> Exchange(w.executors[e].digest, e) in w.history
    ensures report == Unknown(false) ==> forall x :: x in w.history ==> x.executor != e
  {
    ReachableInv(w);
    assert ExecutorOk(w, e);
  }

  // ---------------------------------------------------------------- the verifier

  datatype Outcome = NoAttempt | RolledBack | Undecided

  /** verify: the attempt record of the digest must be there and whole; then the snapshot decides. */
  function Verdict(disk: Disk, d: Digest): Outcome {
    if d !in disk.claims || !disk.claims[d].full then NoAttempt
    else if Swapped(disk) then RolledBack
    else Undecided
  }

  /**
    Whatever was approved: ROLLED_BACK needs an exchange, of which an odd number is in effect, each for its
    own digest.
  */
  lemma RolledBackMeansOdd(w: World, d: Digest)
    requires Reachable(w) && Verdict(w.disk, d) == RolledBack
    ensures |w.disk.effective| % 2 == 1 && 0 < |w.disk.effective| <= |w.history|
    ensures forall i, j :: 0 <= i < j < |w.disk.effective| ==> w.disk.effective[i] != w.disk.effective[j]
    ensures forall c :: c in w.disk.effective ==> exists x :: x in w.history && x.digest == c
  {
    ReachableInv(w);
    EffectiveWithin(w.disk.effective, w.history);
  }

  lemma {:induction false} EffectiveWithin(effective: seq<Digest>, history: seq<Exchange>)
    requires forall i, j :: 0 <= i < j < |effective| ==> effective[i] != effective[j]
    requires forall d :: d in effective ==> exists x :: x in history && x.digest == d
    ensures |effective| <= |history|
    decreases |effective|
  {
    if effective != [] {
      var d, front := effective[|effective| - 1], effective[..|effective| - 1];
      assert d in effective;
      var x :| x in history && x.digest == d;
      var k :| 0 <= k < |history| && history[k] == x;
      var fewer := history[..k] + history[k + 1..];
      forall c | c in front ensures exists y :: y in fewer && y.digest == c {
        assert c in effective;
        var y :| y in history && y.digest == c;
        var m :| 0 <= m < |history| && history[m] == y;
        assert fewer[if m < k then m else m - 1] == y;
      }
      EffectiveWithin(front, fewer);
    }
  }

  lemma OneOfEach(history: seq<Exchange>, d: Digest)
    requires forall i :: 0 <= i < |history| ==> history[i].digest == d
    requires forall i, j :: 0 <= i < j < |history| ==> history[i].digest != history[j].digest
    ensures |history| <= 1
  {
    if |history| > 1 { Differ(history, 0, 1); }
  }

  lemma Differ(history: seq<Exchange>, i: nat, j: nat)
    requires i < j < |history| && forall i, j :: 0 <= i < j < |history| ==> history[i].digest != history[j].digest
    ensures history[i].digest != history[j].digest
  {}

  /** Only this digest was ever approved. */
  predicate OnlyApproved(w: World, d: Digest) { forall e :: e in w.executors ==> w.executors[e].digest == d }

  /**
    With one approved digest, ROLLED_BACK means that exactly one exchange was ever carried out, that it is in
    effect, and that its claim will outlast any crash.
  */
  lemma RolledBackMeansOneExchange(w: World, d: Digest)
    requires Reachable(w) && OnlyApproved(w, d) && Verdict(w.disk, d) == RolledBack
    ensures |w.history| == 1 && w.history[0].digest == d && w.disk.effective == [d]
    ensures w.disk.durable <= |w.disk.effective| && d in Crashed(w.disk).claims && Crashed(w.disk).claims[d].full
  {
    ReachableInv(w);
    EffectiveWithin(w.disk.effective, w.history);
    forall i | 0 <= i < |w.history| ensures w.history[i].digest == d { assert ExchangeOk(w, w.history[i]); }
    OneOfEach(w.history, d);
    ExchangeImpliesDurableClaim(w, w.history[0]);
    assert w.disk.effective[0] in w.disk.effective;
  }

  lemma {:induction false} RunExtends(w: World, run: seq<Action>, a: Action)
    requires ValidRun(w, run) && Enabled(RunFrom(w, run), a)
    ensures ValidRun(w, run + [a]) && RunFrom(w, run + [a]) == Next(RunFrom(w, run), a)
    decreases |run|
  {
    if run == [] {
      assert run + [a] == [a] && [a][1..] == [];
    } else {
      assert (run + [a])[0] == run[0] && (run + [a])[1..] == run[1..] + [a];
      RunExtends(Next(w, run[0]), run[1..], a);
    }
  }

  lemma Taken(w: World, a: Action) returns (w': World)
    requires Reachable(w) && Enabled(w, a)
    ensures Reachable(w') && w' == Next(w, a)
  {
    var run :| ValidRun(START, run) && RunFrom(START, run) == w;
    RunExtends(START, run, a);
    w' := Next(w, a);
  }

  /** An admitted executor whose digest is unclaimed can go through to its exchange. */
  lemma GoesThrough(w: World, e: nat) returns (w': World)
    requires Reachable(w) && e in w.executors && w.executors[e].place == AtOpen
             && w.executors[e].digest !in w.disk.claims
    ensures Reachable(w') && w'.disk.effective == w.disk.effective + [w.executors[e].digest]
    ensures w'.disk.claims == w.disk.claims[w.executors[e].digest := Claim(e, true)]
    ensures w'.history == w.history + [Exchange(w.executors[e].digest, e)]
    ensures w'.disk.durable == w.disk.durable && w'.executors.Keys == w.executors.Keys
    ensures w'.executors[e].digest == w.executors[e].digest
    ensures forall f :: f in w.executors && f != e ==> w'.executors[f] == w.executors[f]
  {
    var w1 := Taken(w, Advance(e));
    var w2 := Taken(w1, Advance(e));
    var w3 := Taken(w2, Advance(e));
    var w4 := Taken(w3, Advance(e));
    w' := Taken(w4, Advance(e));
  }

  /** What an executor for the one approved digest has completed is confirmed, then and after any crash. */
  lemma CompleteIsConfirmed(w: World, d: Digest, e: nat)
    requires Reachable(w) && OnlyApproved(w, d) && e in w.executors && w.executors[e].place == Ended(Complete)
    ensures Verdict(w.disk, d) == RolledBack
    ensures w.disk.durable <= |w.disk.effective| && Verdict(Crashed(w.disk), d) == RolledBack
  {
    ReportsAreHonest(w, e, Complete);
    ExchangeImpliesDurableClaim(w, Exchange(d, e));
    SingleEffect(w, d);
    assert d in Crashed(w.disk).effective;
  }

  lemma SingleEffect(w: World, d: Digest)
    requires Reachable(w) && OnlyApproved(w, d)
    ensures w.disk.effective == [] || w.disk.effective == [d]
  {
    ReachableInv(w);
    forall c | c in w.disk.effective ensures c == d {
      var x :| x in w.history && x.digest == c;
      assert ExchangeOk(w, x);
    }
    EqualAndDistinct(w.disk.effective, d);
    if w.disk.effective != [] { assert w.disk.effective[0] in w.disk.effective; }
  }

  lemma EqualAndDistinct(effective: seq<Digest>, d: Digest)
    requires forall c :: c in effective ==> c == d
    requires forall i, j :: 0 <= i < j < |effective| ==> effective[i] != effective[j]
    ensures |effective| <= 1
  {
    if |effective| > 1 {
      MemberIs(effective, d, 0);
      MemberIs(effective, d, 1);
      assert false;
    }
  }

  lemma MemberIs(effective: seq<Digest>, d: Digest, i: nat)
    requires i < |effective| && forall c :: c in effective ==> c == d
    ensures effective[i] == d
  {
    assert effective[i] in effective;
  }

  /** With one approved digest the verdict tells an attempt that has not exchanged from none at all. */
  lemma VerdictTells(w: World, d: Digest)
    requires Reachable(w) && OnlyApproved(w, d)
    ensures Verdict(w.disk, d) == RolledBack <==> w.disk.effective == [d]
    ensures Verdict(w.disk, d) == NoAttempt <==> d !in w.disk.claims || !w.disk.claims[d].full
  {
    ReachableInv(w);
    SingleEffect(w, d);
    if w.disk.effective == [d] {
      assert d in w.disk.effective;
      var x :| x in w.history && x.digest == d;
      assert ExchangeOk(w, x);
    }
  }

  /** Only these digests were approved. */
  predicate Approved(w: World, ds: set<Digest>) { forall e :: e in w.executors ==> w.executors[e].digest in ds }

  /** A crash undoes an exchange that was not made durable. */
  lemma LostExchange(c: Digest) returns (w: World)
    ensures Reachable(w) && w.disk.effective == [] && w.history == [Exchange(c, 0)]
    ensures w.disk.claims.Keys <= {c} && w.executors.Keys == {0} && w.executors[0].digest == c
  {
    assert ValidRun(START, []) && RunFrom(START, []) == START;
    var w1 := Taken(START, Admit(0, c));
    var w2 := GoesThrough(w1, 0);
    w := Taken(w2, Crash);
  }

  /**
    With two approved digests ROLLED_BACK can hide an exchange: the first is undone by a crash before it is
    durable, the second is then admitted and carried out, and the verifier sees one swap.
  */
  lemma CrashedExchangeHidden(c: Digest, d: Digest) returns (w: World)
    requires c != d
    ensures Reachable(w) && Approved(w, {c, d}) && Verdict(w.disk, d) == RolledBack && |w.history| == 2
  {
    var w3 := LostExchange(c);
    var w4 := Taken(w3, Admit(1, d));
    w := GoesThrough(w4, 1);
  }

  /** Exactly when ROLLED_BACK means one exchange: when no other digest was ever approved. */
  lemma OneExchangeExactlyWhenOneApproved(ds: set<Digest>, d: Digest)
    requires d in ds
    ensures (forall w :: Reachable(w) && Approved(w, ds) && Verdict(w.disk, d) == RolledBack ==> |w.history| == 1)
            <==> ds == {d}
  {
    if ds == {d} {
      forall w | Reachable(w) && Approved(w, ds) && Verdict(w.disk, d) == RolledBack ensures |w.history| == 1 {
        RolledBackMeansOneExchange(w, d);
      }
    } else {
      var c :| c in ds && c != d;
      var w := CrashedExchangeHidden(c, d);
      assert Approved(w, ds);
    }
  }

  /**
    The claim is per digest. If two digests were approved and both executors had passed their prechecks, both
    would exchange, the second would undo the first, and the verifier could not say more than UNKNOWN.
  */
  lemma TwoApprovalsCancel(c: Digest, d: Digest) returns (w: World)
    requires c != d
    ensures Reachable(w) && w.disk.effective == [c, d] && !Swapped(w.disk)
    ensures Verdict(w.disk, c) == Undecided && Verdict(w.disk, d) == Undecided
  {
    assert ValidRun(START, []) && RunFrom(START, []) == START;
    var w1 := Taken(START, Admit(0, c));
    var w2 := Taken(w1, Admit(1, d));
    var w3 := GoesThrough(w2, 0);
    w := GoesThrough(w3, 1);
    assert [] + [c] + [d] == [c, d];
  }
}
