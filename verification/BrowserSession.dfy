/**
  The session of one browser tab (public/browser-session.js): overlapping init, login, request and logout
  calls and storage events, told apart by an epoch that every published session moves on. Each method is
  a stretch between awaits; which promise settles next is up to the environment.
*/
module BrowserSession {
  import opened Options

  datatype View = View(enabled: bool, authenticated: bool, csrfToken: string)

  const INITIAL: View := View(false, false, "")
  const SIGNED_OUT: View := View(true, false, "")

  datatype Origin = ByLogin(login: nat) | ByInit(init: nat) | ByLogout | ByRequest(request: nat) | ByStorageEvent

  datatype Publication = Publication(value: View, origin: Origin)

  /** Where a login waits; `intent` is the epoch it was called at. */
  datatype LoginPlace = AwaitsOthers | AwaitsDevice | AwaitsSession | Discards | LoginEnded(published: bool)
  datatype Login = Login(intent: nat, generation: nat, logoutGeneration: nat, place: LoginPlace)

  datatype InitPlace = AwaitsStatus | AwaitsSignOut | InitEnded(published: bool)
  datatype Init = Init(generation: nat, place: InitPlace)

  /** `sentAs` and `receivedAs` record the session at the two ends of a request, `receivedAt` the second epoch. */
  datatype RequestPlace = AwaitsResponse | Returned(receivedAs: View, receivedAt: nat) | Refused
  datatype Request = Request(generation: nat, sentAs: View, place: RequestPlace)

  /** The module variables, the stored logout mark, the calls under way and all that was ever published. */
  datatype Session = Session(
    current: View, epoch: nat, logoutEpoch: nat, initial: Option<nat>, logoutInFlight: bool,
    authenticationInFlight: Option<nat>, logoutMark: bool,
    logins: map<nat, Login>, inits: map<nat, Init>, requests: map<nat, Request>, log: seq<Publication>)

  const FRESH: Session := Session(INITIAL, 0, 0, None, false, None, false, map[], map[], map[], [])

  function Published(s: Session, value: View, origin: Origin): Session {
    s.(current := value, epoch := s.epoch + 1, log := s.log + [Publication(value, origin)])
  }

  // ---------------------------------------------------------------- login

  /** Past the waits: take the generation and ask for the device id. */
  function LoginGoesOn(s: Session, k: nat, intent: nat): Session {
    if intent != s.epoch then s.(logins := s.logins[k := Login(intent, s.epoch, s.logoutEpoch, LoginEnded(false))])
    else
      s.(logins := s.logins[k := Login(intent, s.epoch, s.logoutEpoch, AwaitsDevice)],
         authenticationInFlight := Some(k))
  }

  function LoginCalled(s: Session, k: nat): Session {
    if s.logoutInFlight || s.authenticationInFlight.Some?
    then s.(logins := s.logins[k := Login(s.epoch, s.epoch, s.logoutEpoch, AwaitsOthers)])
    else LoginGoesOn(s, k, s.epoch)
  }

  /** The call returns or throws, and lets the next login in if it is still the latest. */
  function LoginLeaves(s: Session, k: nat, place: LoginPlace): Session
    requires k in s.logins
  {
    s.(logins := s.logins[k := s.logins[k].(place := place)],
       authenticationInFlight :=
         if place.LoginEnded? && s.authenticationInFlight == Some(k) then None else s.authenticationInFlight)
  }

  function DeviceKnown(s: Session, k: nat): Session
    requires k in s.logins
  {
    LoginLeaves(s, k, if s.logins[k].generation != s.epoch then LoginEnded(false) else AwaitsSession)
  }

  /** The server has logged in (`granted`), for this device or another, or refused. */
  function LoginAnswered(s: Session, k: nat, granted: Option<View>, sameDevice: bool): Session
    requires k in s.logins
  {
    var login := s.logins[k];
    if granted.None? then LoginLeaves(s, k, LoginEnded(false))
    else if login.generation != s.epoch then
      if login.logoutGeneration != s.logoutEpoch || s.logoutMark then LoginLeaves(s.(logoutMark := true), k, Discards)
      else LoginLeaves(s, k, LoginEnded(false))
    else if !sameDevice then LoginLeaves(s.(logoutMark := true), k, Discards)
    else LoginLeaves(Published(s.(logoutMark := false), granted.value, ByLogin(k)), k, LoginEnded(true))
  }

  function Discarded(s: Session, k: nat, cleared: bool): Session
    requires k in s.logins
  {
    LoginLeaves(if cleared then s.(logoutMark := false) else s, k, LoginEnded(false))
  }

  // ---------------------------------------------------------------- init

  function InitCalled(s: Session, k: nat): Session {
    if s.initial.Some? then s
    else s.(initial := Some(k), inits := s.inits[k := Init(s.epoch, AwaitsStatus)])
  }

  datatype StatusAnswer = NotFound | Failed | Status(view: View)

  function InitFails(s: Session, k: nat): Session
    requires k in s.inits
  {
    s.(inits := s.inits[k := s.inits[k].(place := InitEnded(false))], initial := None)
  }

  function InitPublishes(s: Session, k: nat, value: View): Session
    requires k in s.inits
  {
    Published(s.(inits := s.inits[k := s.inits[k].(place := InitEnded(true))]), value, ByInit(k))
  }

  /** The not-found branch publishes without looking at the generation. */
  function StatusAnswered(s: Session, k: nat, answer: StatusAnswer): Session
    requires k in s.inits
  {
    match answer
    case NotFound => InitPublishes(s, k, INITIAL)
    case Failed => InitFails(s, k)
    case Status(view) =>
      if s.inits[k].generation != s.epoch then InitFails(s, k)
      else if !(view.enabled && s.logoutMark) then InitPublishes(s, k, view)
      else if view.authenticated then s.(inits := s.inits[k := s.inits[k].(place := AwaitsSignOut)])
      else InitPublishes(s.(logoutMark := false), k, SIGNED_OUT)
  }

  function SignOutAnswered(s: Session, k: nat, ok: bool): Session
    requires k in s.inits
  {
    if !ok then InitFails(s, k)
    else if s.inits[k].generation != s.epoch then InitFails(s.(logoutMark := false), k)
    else InitPublishes(s.(logoutMark := false), k, SIGNED_OUT)
  }

  // ---------------------------------------------------------------- request, logout, storage events

  function RequestCalled(s: Session, r: nat): Session {
    if !s.current.authenticated then s
    else s.(requests := s.requests[r := Request(s.epoch, s.current, AwaitsResponse)])
  }

  function Responded(s: Session, r: nat, status: int): Session
    requires r in s.requests
  {
    var request := s.requests[r];
    if request.generation != s.epoch then s.(requests := s.requests[r := request.(place := Refused)])
    else if status == 401
      then Published(s.(requests := s.requests[r := request.(place := Refused)]), SIGNED_OUT, ByRequest(r))
    else s.(requests := s.requests[r := request.(place := Returned(s.current, s.epoch))])
  }

  function LogoutCalled(s: Session): Session {
    if s.logoutInFlight then s
    else
      Published(s.(logoutEpoch := s.logoutEpoch + 1, logoutMark := true, logoutInFlight := true), SIGNED_OUT, ByLogout)
  }

  function LogoutDone(s: Session, confirmed: bool): Session {
    s.(logoutInFlight := false, logoutMark := if confirmed then false else s.logoutMark)
  }

  /** Another tab has begun a logout (which is its mark in the shared storage) or has changed the session. */
  function OtherTab(s: Session, loggedOut: bool): Session {
    Published(if loggedOut then s.(logoutEpoch := s.logoutEpoch + 1) else s, View(s.current.enabled, false, ""),
              ByStorageEvent)
  }

  // ---------------------------------------------------------------- the module as it runs

  class Browser {
    var current: View
    var epoch: nat
    var logoutEpoch: nat
    var initial: Option<nat>
    var logoutInFlight: bool
    var authenticationInFlight: Option<nat>
    var logoutMark: bool
    var logins: map<nat, Login>
    var inits: map<nat, Init>
    var requests: map<nat, Request>
    ghost var log: seq<Publication>

    ghost function State(): Session
      reads this
    {
      Session(current, epoch, logoutEpoch, initial, logoutInFlight, authenticationInFlight, logoutMark, logins, inits,
              requests, log)
    }

    constructor ()
      ensures State() == FRESH
    {
      current, epoch, logoutEpoch, initial := INITIAL, 0, 0, None;
      logoutInFlight, authenticationInFlight, logoutMark := false, None, false;
      logins, inits, requests, log := map[], map[], map[], [];
    }

    method Publish(value: View, ghost origin: Origin)
      modifies this
      ensures State() == Published(old(State()), value, origin)
    {
      current := value;
      epoch := epoch + 1;
      log := log + [Publication(value, origin)];
    }

    method StartLogin(k: nat)
      modifies this
      ensures State() == LoginCalled(old(State()), k)
    {
      var intent := epoch;
      if logoutInFlight || authenticationInFlight.Some? {
        logins := logins[k := Login(intent, epoch, logoutEpoch, AwaitsOthers)];
        return;
      }
      ContinueLogin(k, intent);
    }

    method ContinueLogin(k: nat, intent: nat)
      modifies this
      ensures State() == LoginGoesOn(old(State()), k, intent)
    {
      if intent != epoch {
        logins := logins[k := Login(intent, epoch, logoutEpoch, LoginEnded(false))];
        return;
      }
      logins := logins[k := Login(intent, epoch, logoutEpoch, AwaitsDevice)];
      authenticationInFlight := Some(k);
    }

    method EndLogin(k: nat, place: LoginPlace)
      requires k in logins
      modifies this
      ensures State() == LoginLeaves(old(State()), k, place)
    {
      logins := logins[k := logins[k].(place := place)];
      if place.LoginEnded? && authenticationInFlight == Some(k) { authenticationInFlight := None; }
    }

    /**
      Publishes exactly what was granted to this device if nothing was published meanwhile, and otherwise
      nothing; a login that a logout has overtaken is discarded and leaves the logout mark.
    */
    method CompleteLogin(k: nat, granted: Option<View>, sameDevice: bool)
      requires k in logins
      modifies this
      ensures var undisturbed := granted.Some? && old(logins[k]).generation == old(epoch) && sameDevice;
              if undisturbed then
                && log == old(log) + [Publication(granted.value, ByLogin(k))] && epoch == old(epoch) + 1
                && current == granted.value && !logoutMark
              else log == old(log) && epoch == old(epoch) && current == old(current)
      ensures granted.Some? && old(logins[k]).generation != old(epoch)
              && old(logins[k]).logoutGeneration != old(logoutEpoch)
              ==> logoutMark && LoginAt(State(), k, Discards)
      ensures State() == LoginAnswered(old(State()), k, granted, sameDevice)
    {
      var login := logins[k];
      if granted.None? {
        EndLogin(k, LoginEnded(false));
      } else if login.generation != epoch {
        if login.logoutGeneration != logoutEpoch || logoutMark {
          logoutMark := true;
          EndLogin(k, Discards);
        } else {
          EndLogin(k, LoginEnded(false));
        }
      } else if !sameDevice {
        logoutMark := true;
        EndLogin(k, Discards);
      } else {
        logoutMark := false;
        Publish(granted.value, ByLogin(k));
        EndLogin(k, LoginEnded(true));
      }
    }

    /**
      A status is published if nothing was published meanwhile, and 404 always is; an authenticated session is
      published only if no logout is marked, and a marked one is signed out first.
    */
    method CompleteInit(k: nat, answer: StatusAnswer)
      requires k in inits
      modifies this
      ensures epoch == old(epoch) || (epoch == old(epoch) + 1 && log == old(log) + [Publication(current, ByInit(k))])
      ensures epoch > old(epoch)
              <==> answer.NotFound?
                   || (answer.Status? && old(inits[k]).generation == old(epoch)
                       && !(answer.view.enabled && answer.view.authenticated && old(logoutMark)))
      ensures epoch > old(epoch) && current.authenticated ==>
                answer == Status(current) && !(current.enabled && old(logoutMark))
      ensures epoch == old(epoch) ==>
                current == old(current) && log == old(log) && (InitAt(State(), k, AwaitsSignOut) || initial == None)
      ensures State() == StatusAnswered(old(State()), k, answer)
    {
      var view := INITIAL;
      match answer {
        case NotFound =>
        case Failed =>
          inits, initial := inits[k := inits[k].(place := InitEnded(false))], None;
          return;
        case Status(s) =>
          view := s;
          if inits[k].generation != epoch {
            inits, initial := inits[k := inits[k].(place := InitEnded(false))], None;
            return;
          }
          if view.enabled && logoutMark {
            if view.authenticated {
              inits := inits[k := inits[k].(place := AwaitsSignOut)];
              return;
            }
            logoutMark := false;
            view := SIGNED_OUT;
          }
      }
      inits := inits[k := inits[k].(place := InitEnded(true))];
      Publish(view, ByInit(k));
    }

    /** A response counts only at the epoch it was asked for at; there a 401 ends the session, and nothing else does. */
    method CompleteRequest(r: nat, status: int) returns (ok: bool)
      requires r in requests
      modifies this
      ensures ok <==> old(requests[r]).generation == old(epoch) && status != 401
      ensures if old(requests[r]).generation == old(epoch) && status == 401
              then && current == View(true, false, "") && epoch == old(epoch) + 1
                   && log == old(log) + [Publication(View(true, false, ""), ByRequest(r))]
              else current == old(current) && epoch == old(epoch) && log == old(log)
      ensures State() == Responded(old(State()), r, status)
    {
      var request := requests[r];
      ok := false;
      if request.generation != epoch {
        requests := requests[r := request.(place := Refused)];
      } else if status == 401 {
        requests := requests[r := request.(place := Refused)];
        Publish(SIGNED_OUT, ByRequest(r));
      } else {
        requests := requests[r := request.(place := Returned(current, epoch))];
        ok := true;
      }
    }

    /** The tab is signed out and marked before the server knows; a logout under way is joined. */
    method Logout()
      modifies this
      ensures logoutInFlight && (old(logoutInFlight) ==> State() == old(State()))
      ensures !old(logoutInFlight) ==>
                && current == View(true, false, "") && epoch == old(epoch) + 1
                && log == old(log) + [Publication(View(true, false, ""), ByLogout)]
                && logoutMark && logoutEpoch == old(logoutEpoch) + 1
      ensures State() == LogoutCalled(old(State()))
    {
      if logoutInFlight { return; }
      logoutEpoch := logoutEpoch + 1;
      logoutMark := true;
      logoutInFlight := true;
      Publish(SIGNED_OUT, ByLogout);
    }

    method StorageEvent(loggedOut: bool)
      modifies this
      ensures current == View(old(current).enabled, false, "") && epoch == old(epoch) + 1
      ensures log == old(log) + [Publication(View(old(current).enabled, false, ""), ByStorageEvent)]
      ensures logoutEpoch == old(logoutEpoch) + if loggedOut then 1 else 0
      ensures State() == OtherTab(old(State()), loggedOut)
    {
      if loggedOut { logoutEpoch := logoutEpoch + 1; }
      Publish(View(current.enabled, false, ""), ByStorageEvent);
    }
  }

  // ---------------------------------------------------------------- runs

  datatype Action =
    | CallLogin(k: nat) | ResumeLogin(k: nat) | DeviceReady(k: nat, ok: bool)
    | SessionReady(k: nat, granted: Option<View>, sameDevice: bool) | DiscardReady(k: nat, cleared: bool)
    | CallInit(k: nat) | StatusReady(k: nat, answer: StatusAnswer) | SignOutReady(k: nat, ok: bool)
    | Send(r: nat) | Receive(r: nat, status: int) | LoseResponse(r: nat)
    | CallLogout | LogoutReady(confirmed: bool) | OtherTabActs(loggedOut: bool) | OtherTabMarks(mark: bool)

  predicate LoginAt(s: Session, k: nat, place: LoginPlace) { k in s.logins && s.logins[k].place == place }

  predicate InitAt(s: Session, k: nat, place: InitPlace) { k in s.inits && s.inits[k].place == place }

  predicate RequestWaits(s: Session, r: nat) { r in s.requests && s.requests[r].place == AwaitsResponse }

  /**
    A waiting login may go on at any time here, which includes every order in which promises settle. The logout
    mark lies in localStorage: what another tab does to it is visible at once, before any event about it.
  */
  predicate Enabled(s: Session, a: Action) {
    match a
    case CallLogin(k) => k !in s.logins
    case ResumeLogin(k) => LoginAt(s, k, AwaitsOthers)
    case DeviceReady(k, _) => LoginAt(s, k, AwaitsDevice)
    case SessionReady(k, _, _) => LoginAt(s, k, AwaitsSession)
    case DiscardReady(k, _) => LoginAt(s, k, Discards)
    case CallInit(k) => k !in s.inits
    case StatusReady(k, _) => InitAt(s, k, AwaitsStatus)
    case SignOutReady(k, _) => InitAt(s, k, AwaitsSignOut)
    case Send(r) => r !in s.requests
    case Receive(r, _) => RequestWaits(s, r)
    case LoseResponse(r) => RequestWaits(s, r)
    case CallLogout => true
    case LogoutReady(_) => s.logoutInFlight
    case OtherTabActs(_) => true
    case OtherTabMarks(_) => true
  }

  function Next(s: Session, a: Action): Session
    requires Enabled(s, a)
  {
    match a
    case CallLogin(k) => LoginCalled(s, k)
    case ResumeLogin(k) => LoginGoesOn(s, k, s.logins[k].intent)
    case DeviceReady(k, ok) => if ok then DeviceKnown(s, k) else LoginLeaves(s, k, LoginEnded(false))
    case SessionReady(k, granted, sameDevice) => LoginAnswered(s, k, granted, sameDevice)
    case DiscardReady(k, cleared) => Discarded(s, k, cleared)
    case CallInit(k) => InitCalled(s, k)
    case StatusReady(k, answer) => StatusAnswered(s, k, answer)
    case SignOutReady(k, ok) => SignOutAnswered(s, k, ok)
    case Send(r) => RequestCalled(s, r)
    case Receive(r, status) => Responded(s, r, status)
    case LoseResponse(r) => s.(requests := s.requests[r := s.requests[r].(place := Refused)])
    case CallLogout => LogoutCalled(s)
    case LogoutReady(confirmed) => LogoutDone(s, confirmed)
    case OtherTabActs(loggedOut) => OtherTab(s, loggedOut)
    case OtherTabMarks(mark) => s.(logoutMark := mark)
  }

  ghost predicate ValidRun(s: Session, run: seq<Action>)
    decreases |run|
  {
    run == [] || (Enabled(s, run[0]) && ValidRun(Next(s, run[0]), run[1..]))
  }

  ghost function RunFrom(s: Session, run: seq<Action>): Session
    requires ValidRun(s, run)
    decreases |run|
  {
    if run == [] then s else RunFrom(Next(s, run[0]), run[1..])
  }

  // ---------------------------------------------------------------- the invariant

  /** The session that stood while the epoch was `e`. */
  function ViewAt(s: Session, e: nat): View
    requires e <= |s.log|
  {
    if e == 0 then INITIAL else s.log[e - 1].value
  }

  predicate LoginOk(s: Session, login: Login) {
    && login.intent <= s.epoch
    && (login.place == AwaitsDevice || login.place == AwaitsSession ==> login.generation == login.intent)
    && login.logoutGeneration <= s.logoutEpoch && login.generation <= s.epoch
    && (LoggedOutSince(s, login.generation) ==> login.logoutGeneration < s.logoutEpoch)
  }

  /** This tab has logged out at epoch `from` or later. */
  predicate LoggedOutSince(s: Session, from: nat) { exists i :: from <= i < |s.log| && s.log[i].origin == ByLogout }

  /** The login that others wait for is under way, and the init that is shared has not failed. */
  predicate InFlightOk(s: Session) {
    && (s.authenticationInFlight.Some? ==>
          && s.authenticationInFlight.value in s.logins
          && s.logins[s.authenticationInFlight.value].place in {AwaitsDevice, AwaitsSession, Discards})
    && (s.initial.Some? ==> s.initial.value in s.inits && s.inits[s.initial.value].place != InitEnded(false))
  }

  predicate RequestOk(s: Session, request: Request) {
    && request.generation <= |s.log| && request.sentAs == ViewAt(s, request.generation) && request.sentAs.authenticated
    && (request.place.Returned? ==>
          request.place.receivedAs == request.sentAs && request.place.receivedAt == request.generation)
  }

  /** What may have been published as the i-th session, and by whom. */
  predicate PublicationOk(s: Session, i: nat)
    requires i < |s.log|
  {
    match s.log[i].origin
    case ByLogin(k) => k in s.logins && s.logins[k].intent == i && s.logins[k].place == LoginEnded(true)
    case ByInit(k) =>
      k in s.inits && s.inits[k].place == InitEnded(true) && (s.inits[k].generation == i || s.log[i].value == INITIAL)
    case _ => !s.log[i].value.authenticated
  }

  ghost predicate Inv(s: Session) {
    && s.epoch == |s.log| && s.current == ViewAt(s, s.epoch) && InFlightOk(s)
    && (forall k :: k in s.logins ==> LoginOk(s, s.logins[k]))
    && (forall r :: r in s.requests ==> RequestOk(s, s.requests[r]))
    && (forall i :: 0 <= i < |s.log| ==> PublicationOk(s, i))
  }

  /** Sessions already published stay so, and ended calls are not touched again. */
  ghost predicate Extends(s: Session, s': Session) {
    && s.log <= s'.log && s.epoch <= s'.epoch && s.logoutEpoch <= s'.logoutEpoch
    && (forall k :: k in s.logins && s.logins[k].place.LoginEnded? ==> k in s'.logins && s'.logins[k] == s.logins[k])
    && (forall k :: k in s.inits && s.inits[k].place.InitEnded? ==> k in s'.inits && s'.inits[k] == s.inits[k])
  }

  lemma PublicationStays(s: Session, s': Session, i: nat)
    requires Extends(s, s') && i < |s.log| && PublicationOk(s, i)
    ensures PublicationOk(s', i)
  {}

  lemma RequestStays(s: Session, s': Session, request: Request)
    requires Extends(s, s') && RequestOk(s, request)
    ensures RequestOk(s', request)
  {}

  lemma LoginStays(s: Session, s': Session, login: Login)
    requires Extends(s, s') && LoginOk(s, login) && |s'.log| <= |s.log| + 1
    requires |s'.log| == |s.log| + 1 && s'.log[|s.log|].origin == ByLogout ==> s.logoutEpoch < s'.logoutEpoch
    ensures LoginOk(s', login)
  {
    if LoggedOutSince(s', login.generation) {
      var i :| login.generation <= i < |s'.log| && s'.log[i].origin == ByLogout;
      if i < |s.log| { assert s.log[i].origin == ByLogout; }
    }
  }

  /** At most one more session published, by a call that may; calls new or changed are in order. */
  lemma InvExtends(s: Session, s': Session)
    requires Inv(s) && Extends(s, s') && s'.epoch == |s'.log| <= |s.log| + 1 && s'.current == ViewAt(s', s'.epoch)
    requires |s'.log| == |s.log| + 1 ==> PublicationOk(s', |s.log|)
    requires |s'.log| == |s.log| + 1 && s'.log[|s.log|].origin == ByLogout ==> s.logoutEpoch < s'.logoutEpoch
    requires InFlightOk(s')
    requires forall k :: k in s'.logins ==> (k in s.logins && s'.logins[k] == s.logins[k]) || LoginOk(s', s'.logins[k])
    requires forall r :: r in s'.requests ==>
               (r in s.requests && s'.requests[r] == s.requests[r]) || RequestOk(s', s'.requests[r])
    ensures Inv(s')
  {
    forall r | r in s'.requests ensures RequestOk(s', s'.requests[r]) {
      if r in s.requests { RequestStays(s, s', s.requests[r]); }
    }
    forall k | k in s'.logins ensures LoginOk(s', s'.logins[k]) {
      if k in s.logins { LoginStays(s, s', s.logins[k]); }
    }
    forall i | 0 <= i < |s'.log| ensures PublicationOk(s', i) {
      if i < |s.log| { PublicationStays(s, s', i); }
    }
  }

  lemma LoginPut(s: Session, k: nat, login: Login, flight: Option<nat>)
    requires Inv(s) && LoginOk(s, login) && (k in s.logins ==> !s.logins[k].place.LoginEnded?)
    requires flight == Some(k) ==> login.place in {AwaitsDevice, AwaitsSession, Discards}
    requires flight.Some? && flight != Some(k) ==> flight == s.authenticationInFlight
    ensures var s' := s.(logins := s.logins[k := login], authenticationInFlight := flight); Inv(s') && Extends(s, s')
  {
    InvExtends(s, s.(logins := s.logins[k := login], authenticationInFlight := flight));
  }

  lemma LoginStarts(s: Session, k: nat)
    requires Inv(s) && k !in s.logins
    ensures Inv(LoginCalled(s, k)) && Extends(s, LoginCalled(s, k))
  {
    if s.logoutInFlight || s.authenticationInFlight.Some? {
      LoginPut(s, k, Login(s.epoch, s.epoch, s.logoutEpoch, AwaitsOthers), s.authenticationInFlight);
    } else {
      LoginPut(s, k, Login(s.epoch, s.epoch, s.logoutEpoch, AwaitsDevice), Some(k));
    }
  }

  lemma LoginResumes(s: Session, k: nat)
    requires Inv(s) && LoginAt(s, k, AwaitsOthers)
    ensures Inv(LoginGoesOn(s, k, s.logins[k].intent)) && Extends(s, LoginGoesOn(s, k, s.logins[k].intent))
  {
    var intent := s.logins[k].intent;
    assert LoginOk(s, s.logins[k]);
    if intent == s.epoch {
      LoginPut(s, k, Login(intent, s.epoch, s.logoutEpoch, AwaitsDevice), Some(k));
    } else {
      LoginPut(s, k, Login(intent, s.epoch, s.logoutEpoch, LoginEnded(false)), s.authenticationInFlight);
    }
  }

  /** A login that goes on to wait or fails. */
  lemma LoginMoves(s: Session, k: nat, place: LoginPlace, mark: bool)
    requires Inv(s) && k in s.logins && !s.logins[k].place.LoginEnded? && place != LoginEnded(true)
    requires place == AwaitsSession ==> s.logins[k].place == AwaitsDevice
    requires place != AwaitsDevice && place != AwaitsOthers
    ensures Inv(LoginLeaves(s.(logoutMark := mark), k, place))
            && Extends(s, LoginLeaves(s.(logoutMark := mark), k, place))
  {
    assert LoginOk(s, s.logins[k]);
    InvExtends(s, LoginLeaves(s.(logoutMark := mark), k, place));
  }

  lemma LoginSucceeds(s: Session, k: nat, value: View)
    requires Inv(s) && LoginAt(s, k, AwaitsSession) && s.logins[k].generation == s.epoch
    ensures var s' := LoginLeaves(Published(s.(logoutMark := false), value, ByLogin(k)), k, LoginEnded(true));
            Inv(s') && Extends(s, s')
  {
    assert LoginOk(s, s.logins[k]);
    InvExtends(s, LoginLeaves(Published(s.(logoutMark := false), value, ByLogin(k)), k, LoginEnded(true)));
  }

  lemma LoginAnswer(s: Session, k: nat, granted: Option<View>, sameDevice: bool)
    requires Inv(s) && LoginAt(s, k, AwaitsSession)
    ensures Inv(LoginAnswered(s, k, granted, sameDevice)) && Extends(s, LoginAnswered(s, k, granted, sameDevice))
  {
    var login := s.logins[k];
    if granted.Some? && login.generation == s.epoch && sameDevice {
      LoginSucceeds(s, k, granted.value);
    } else if granted.None?
      || (login.generation != s.epoch && login.logoutGeneration == s.logoutEpoch && !s.logoutMark) {
      LoginMoves(s, k, LoginEnded(false), s.logoutMark);
    } else {
      LoginMoves(s, k, Discards, true);
    }
  }

  lemma InitMoves(s: Session, k: nat, init: Init, initial: Option<nat>, mark: bool)
    requires Inv(s) && (k in s.inits ==> !s.inits[k].place.InitEnded?)
    requires initial.Some? ==> if initial.value == k then init.place != InitEnded(false) else initial == s.initial
    ensures var s' := s.(inits := s.inits[k := init], initial := initial, logoutMark := mark); Inv(s') && Extends(s, s')
  {
    InvExtends(s, s.(inits := s.inits[k := init], initial := initial, logoutMark := mark));
  }

  lemma InitSucceeds(s: Session, k: nat, value: View, mark: bool)
    requires Inv(s) && k in s.inits && !s.inits[k].place.InitEnded?
    requires s.inits[k].generation == s.epoch || value == INITIAL
    ensures var s' := InitPublishes(s.(logoutMark := mark), k, value); Inv(s') && Extends(s, s')
  {
    InvExtends(s, InitPublishes(s.(logoutMark := mark), k, value));
  }

  lemma InitStarts(s: Session, k: nat)
    requires Inv(s) && k !in s.inits
    ensures Inv(InitCalled(s, k)) && Extends(s, InitCalled(s, k))
  {
    if s.initial.None? { InitMoves(s, k, Init(s.epoch, AwaitsStatus), Some(k), s.logoutMark); }
  }

  lemma InitAnswer(s: Session, k: nat, answer: StatusAnswer)
    requires Inv(s) && InitAt(s, k, AwaitsStatus)
    ensures Inv(StatusAnswered(s, k, answer)) && Extends(s, StatusAnswered(s, k, answer))
  {
    var init := s.inits[k];
    match answer
    case NotFound => InitSucceeds(s, k, INITIAL, s.logoutMark);
    case Failed => InitMoves(s, k, init.(place := InitEnded(false)), None, s.logoutMark);
    case Status(view) =>
      if init.generation != s.epoch {
        InitMoves(s, k, init.(place := InitEnded(false)), None, s.logoutMark);
      } else if !(view.enabled && s.logoutMark) {
        InitSucceeds(s, k, view, s.logoutMark);
      } else if view.authenticated {
        InitMoves(s, k, init.(place := AwaitsSignOut), s.initial, s.logoutMark);
      } else {
        InitSucceeds(s, k, SIGNED_OUT, false);
      }
  }

  lemma InitSignsOut(s: Session, k: nat, ok: bool)
    requires Inv(s) && InitAt(s, k, AwaitsSignOut)
    ensures Inv(SignOutAnswered(s, k, ok)) && Extends(s, SignOutAnswered(s, k, ok))
  {
    if ok && s.inits[k].generation == s.epoch {
      InitSucceeds(s, k, SIGNED_OUT, false);
    } else {
      InitMoves(s, k, s.inits[k].(place := InitEnded(false)), None, if ok then false else s.logoutMark);
    }
  }

  lemma RequestMoves(s: Session, r: nat, request: Request)
    requires Inv(s) && RequestOk(s, request)
    ensures var s' := s.(requests := s.requests[r := request]); Inv(s') && Extends(s, s')
  {
    InvExtends(s, s.(requests := s.requests[r := request]));
  }

  lemma RequestSignsOut(s: Session, r: nat)
    requires Inv(s) && RequestWaits(s, r)
    ensures var s' := Published(s.(requests := s.requests[r := s.requests[r].(place := Refused)]), SIGNED_OUT,
                                ByRequest(r));
            Inv(s') && Extends(s, s')
  {
    var request := s.requests[r].(place := Refused);
    assert RequestOk(s, s.requests[r]);
    RequestMoves(s, r, request);
    var s1 := s.(requests := s.requests[r := request]);
    InvExtends(s1, Published(s1, SIGNED_OUT, ByRequest(r)));
  }

  lemma RequestStep(s: Session, a: Action)
    requires Inv(s) && Enabled(s, a) && (a.Send? || a.Receive? || a.LoseResponse?)
    ensures Inv(Next(s, a)) && Extends(s, Next(s, a))
  {
    if a.Send? {
      if s.current.authenticated { RequestMoves(s, a.r, Request(s.epoch, s.current, AwaitsResponse)); }
    } else {
      var request := s.requests[a.r];
      assert RequestOk(s, request);
      RequestMoves(s, a.r, request.(place := Refused));
      if a.Receive? && request.generation == s.epoch {
        RequestMoves(s, a.r, request.(place := Returned(s.current, s.epoch)));
        RequestSignsOut(s, a.r);
      }
    }
  }

  lemma LogoutStarts(s: Session)
    requires Inv(s)
    ensures Inv(LogoutCalled(s)) && Extends(s, LogoutCalled(s))
  {
    InvExtends(s, LogoutCalled(s));
  }

  lemma LogoutEnds(s: Session, confirmed: bool)
    requires Inv(s)
    ensures Inv(LogoutDone(s, confirmed)) && Extends(s, LogoutDone(s, confirmed))
  {
    InvExtends(s, LogoutDone(s, confirmed));
  }

  lemma SignedOutElsewhere(s: Session, loggedOut: bool)
    requires Inv(s)
    ensures Inv(OtherTab(s, loggedOut)) && Extends(s, OtherTab(s, loggedOut))
  {
    InvExtends(s, OtherTab(s, loggedOut));
  }

  lemma MarkMoves(s: Session, mark: bool)
    requires Inv(s)
    ensures Inv(s.(logoutMark := mark)) && Extends(s, s.(logoutMark := mark))
  {
    InvExtends(s, s.(logoutMark := mark));
  }

  lemma StepKeepsInv(s: Session, a: Action)
    requires Inv(s) && Enabled(s, a)
    ensures Inv(Next(s, a)) && Extends(s, Next(s, a))
  {
    match a
    case CallLogin(k) => LoginStarts(s, k);
    case ResumeLogin(k) => LoginResumes(s, k);
    case DeviceReady(k, ok) =>
      LoginMoves(s, k, if ok && s.logins[k].generation == s.epoch then AwaitsSession else LoginEnded(false),
                 s.logoutMark);
    case SessionReady(k, granted, sameDevice) => LoginAnswer(s, k, granted, sameDevice);
    case DiscardReady(k, cleared) => LoginMoves(s, k, LoginEnded(false), if cleared then false else s.logoutMark);
    case CallInit(k) => InitStarts(s, k);
    case StatusReady(k, answer) => InitAnswer(s, k, answer);
    case SignOutReady(k, ok) => InitSignsOut(s, k, ok);
    case Send(_) => RequestStep(s, a);
    case Receive(_, _) => RequestStep(s, a);
    case LoseResponse(_) => RequestStep(s, a);
    case CallLogout => LogoutStarts(s);
    case LogoutReady(confirmed) => LogoutEnds(s, confirmed);
    case OtherTabActs(loggedOut) => SignedOutElsewhere(s, loggedOut);
    case OtherTabMarks(mark) => MarkMoves(s, mark);
  }

  lemma {:induction false} RunKeepsInv(s: Session, run: seq<Action>)
    requires Inv(s) && ValidRun(s, run)
    ensures Inv(RunFrom(s, run))
    decreases |run|
  {
    if run != [] {
      StepKeepsInv(s, run[0]);
      RunKeepsInv(Next(s, run[0]), run[1..]);
    }
  }

  ghost predicate Reachable(s: Session) {
    exists run :: ValidRun(FRESH, run) && RunFrom(FRESH, run) == s
  }

  lemma ReachableInv(s: Session)
    requires Reachable(s)
    ensures Inv(s)
  {
    var run :| ValidRun(FRESH, run) && RunFrom(FRESH, run) == s;
    RunKeepsInv(FRESH, run);
  }

  // ---------------------------------------------------------------- what holds in every run

  /** A login publishes only if nothing at all was published since it was called. */
  lemma LoginPublishesUndisturbed(s: Session, i: nat, k: nat)
    requires Reachable(s) && i < |s.log| && s.log[i].origin == ByLogin(k)
    ensures k in s.logins && s.logins[k].intent == i
  {
    ReachableInv(s);
    assert PublicationOk(s, i);
  }

  /** Of two logins that both publish, the later one was called after the earlier one had published. */
  lemma OverlappingLoginsPublishOnce(s: Session, i: nat, j: nat, k: nat, l: nat)
    requires Reachable(s) && i < j < |s.log| && s.log[i].origin == ByLogin(k) && s.log[j].origin == ByLogin(l)
    ensures k != l && k in s.logins && l in s.logins && s.logins[l].intent > i
  {
    LoginPublishesUndisturbed(s, i, k);
    LoginPublishesUndisturbed(s, j, l);
  }

  /**
    After a logout, or any other publication, an authenticated session comes only from a login or init that
    began after it: whoever publishes one as the j-th session took epoch j as it began.
  */
  lemma LogoutSticks(s: Session, i: nat, j: nat)
    requires Reachable(s) && i < j < |s.log| && s.log[j].value.authenticated
    ensures (s.log[j].origin.ByLogin? && s.log[j].origin.login in s.logins
             && s.logins[s.log[j].origin.login].intent == j)
            || (s.log[j].origin.ByInit? && s.log[j].origin.init in s.inits
                && s.inits[s.log[j].origin.init].generation == j)
  {
    ReachableInv(s);
    assert PublicationOk(s, j);
  }

  /**
    A request hands a response out only at the epoch it was sent at: nothing was published in between, and the
    session is the authenticated one it was sent with.
  */
  lemma ResponseBelongsToSession(s: Session, r: nat)
    requires Reachable(s) && r in s.requests && s.requests[r].place.Returned?
    ensures s.requests[r].place.receivedAt == s.requests[r].generation
    ensures s.requests[r].place.receivedAs == s.requests[r].sentAs && s.requests[r].sentAs.authenticated
  {
    ReachableInv(s);
    assert RequestOk(s, s.requests[r]);
  }

  /** What each step publishes, if anything. */
  function PublishedBy(s: Session, a: Action): seq<Publication>
    requires Enabled(s, a)
  {
    match a
    case SessionReady(k, granted, sameDevice) =>
      if granted.Some? && s.logins[k].generation == s.epoch && sameDevice then [Publication(granted.value, ByLogin(k))]
      else []
    case StatusReady(k, NotFound) => [Publication(View(false, false, ""), ByInit(k))]
    case StatusReady(k, Status(view)) =>
      if s.inits[k].generation != s.epoch || (view.enabled && view.authenticated && s.logoutMark) then []
      else [Publication(if view.enabled && s.logoutMark then View(true, false, "") else view, ByInit(k))]
    case SignOutReady(k, true) =>
      if s.inits[k].generation == s.epoch then [Publication(View(true, false, ""), ByInit(k))] else []
    case Receive(r, status) =>
      if s.requests[r].generation == s.epoch && status == 401
      then [Publication(View(true, false, ""), ByRequest(r))] else []
    case CallLogout => if s.logoutInFlight then [] else [Publication(View(true, false, ""), ByLogout)]
    case OtherTabActs(_) => [Publication(View(s.current.enabled, false, ""), ByStorageEvent)]
    case _ => []
  }

  /** Exactly which steps change the session, and to what; the epoch counts them. */
  lemma PublicationRule(s: Session, a: Action)
    requires Reachable(s) && Enabled(s, a)
    ensures var s' := Next(s, a);
            && s'.log == s.log + PublishedBy(s, a) && s'.epoch == |s'.log|
            && s'.current == if PublishedBy(s, a) == [] then s.current else PublishedBy(s, a)[0].value
  {
    ReachableInv(s);
    if a.SessionReady? || a.DeviceReady? || a.DiscardReady? { LoginPublication(s, a); }
    else if a.StatusReady? || a.SignOutReady? { InitPublication(s, a); }
    else { OtherPublication(s, a); }
  }

  predicate Rule(s: Session, a: Action)
    requires Enabled(s, a)
  {
    var s' := Next(s, a);
    && s'.log == s.log + PublishedBy(s, a) && s'.epoch == |s'.log|
    && s'.current == if PublishedBy(s, a) == [] then s.current else PublishedBy(s, a)[0].value
  }

  lemma LoginPublication(s: Session, a: Action)
    requires s.epoch == |s.log| && Enabled(s, a) && (a.SessionReady? || a.DeviceReady? || a.DiscardReady?)
    ensures Rule(s, a)
  {}

  lemma InitPublication(s: Session, a: Action)
    requires s.epoch == |s.log| && Enabled(s, a) && (a.StatusReady? || a.SignOutReady?)
    ensures Rule(s, a)
  {}

  lemma OtherPublication(s: Session, a: Action)
    requires s.epoch == |s.log| && Enabled(s, a)
    requires !(a.SessionReady? || a.DeviceReady? || a.DiscardReady? || a.StatusReady? || a.SignOutReady?)
    ensures Rule(s, a)
  {}

  /** An answer of 401 to a request of the session that stands ends that session. */
  lemma UnauthorizedSignsOut(s: Session, r: nat)
    requires Reachable(s) && Enabled(s, Receive(r, 401)) && s.requests[r].generation == s.epoch
    ensures s.current.authenticated && s.current == s.requests[r].sentAs
    ensures Next(s, Receive(r, 401)).current == View(true, false, "")
  {
    ReachableInv(s);
    assert RequestOk(s, s.requests[r]);
  }

  /** Where each step of a login leads. */
  lemma LoginRule(s: Session, a: Action)
    requires Enabled(s, a)
    ensures var s' := Next(s, a);
            match a
            case CallLogin(k) =>
              && k in s'.logins && s'.logins[k].intent == s'.logins[k].generation == s.epoch
              && s'.logins[k].place
                 == if s.logoutInFlight || s.authenticationInFlight.Some? then AwaitsOthers else AwaitsDevice
            case ResumeLogin(k) =>
              && s'.logins[k].intent == s.logins[k].intent
              && s'.logins[k].generation == s.epoch && s'.logins[k].logoutGeneration == s.logoutEpoch
              && s'.logins[k].place == if s.logins[k].intent == s.epoch then AwaitsDevice else LoginEnded(false)
            case DeviceReady(k, ok) =>
              s'.logins[k].place == if ok && s.logins[k].generation == s.epoch then AwaitsSession else LoginEnded(false)
            case SessionReady(k, granted, sameDevice) =>
              s'.logins[k].place
              == if granted.None? then LoginEnded(false)
                 else if s.logins[k].generation == s.epoch then (if sameDevice then LoginEnded(true) else Discards)
                 else if s.logins[k].logoutGeneration != s.logoutEpoch || s.logoutMark then Discards
                 else LoginEnded(false)
            case DiscardReady(k, _) => s'.logins[k].place == LoginEnded(false)
            case _ => s'.logins == s.logins
  {}

  /**
    A login that the server grants after this tab has logged out is discarded: the server is asked to sign the
    new session out again, under the logout mark.
  */
  lemma LogoutDiscardsLogin(s: Session, k: nat, granted: View, sameDevice: bool)
    requires Reachable(s) && LoginAt(s, k, AwaitsSession) && LoggedOutSince(s, s.logins[k].generation)
    ensures var s' := Next(s, SessionReady(k, Some(granted), sameDevice));
            LoginAt(s', k, Discards) && s'.logoutMark && s'.log == s.log
  {
    ReachableInv(s);
    assert LoginOk(s, s.logins[k]);
  }

  /** This tab sets the logout mark by a logout or a discarded login. */
  lemma MarkSet(s: Session, a: Action)
    requires Enabled(s, a) && !a.OtherTabMarks? && !s.logoutMark
    ensures Next(s, a).logoutMark
            <==> || (a.CallLogout? && !s.logoutInFlight)
                 || (a.SessionReady? && Next(s, a).logins[a.k].place == Discards)
  {
    if a.SessionReady? {
    } else if a.StatusReady? || a.SignOutReady? {
    } else {
    }
  }

  /** It clears the mark by what confirms a sign-out and by a new login. */
  lemma MarkCleared(s: Session, a: Action)
    requires Enabled(s, a) && !a.OtherTabMarks? && s.logoutMark
    ensures !Next(s, a).logoutMark
            <==> || (a.DiscardReady? && a.cleared) || (a.LogoutReady? && a.confirmed && s.logoutInFlight)
                 || (a.SignOutReady? && a.ok)
                 || (a.SessionReady? && Next(s, a).logins[a.k].place == LoginEnded(true))
                 || (a.StatusReady? && a.answer.Status? && s.inits[a.k].generation == s.epoch
                     && a.answer.view.enabled && !a.answer.view.authenticated)
  {
    if a.SessionReady? {
    } else if a.StatusReady? || a.SignOutReady? {
    } else {
    }
  }

  /** A login lets go of the turn as it ends, and of nobody else's. */
  lemma TurnRule(s: Session, a: Action)
    requires Enabled(s, a) && (a.DeviceReady? || a.SessionReady? || a.DiscardReady?)
    ensures Next(s, a).authenticationInFlight
            == if Next(s, a).logins[a.k].place.LoginEnded? && s.authenticationInFlight == Some(a.k) then None
               else s.authenticationInFlight
  {
    match a
    case SessionReady(k, granted, sameDevice) =>
      if granted.Some? && s.logins[k].generation == s.epoch {
      } else {
      }
    case _ => {}
  }

  /** The environment is free: every call may begin and every answer come, in any order, and other tabs act at will. */
  lemma AnythingMayHappen(s: Session, k: nat, granted: Option<View>, answer: StatusAnswer, b: bool, status: int)
    ensures k !in s.logins ==> Enabled(s, CallLogin(k))
    ensures k in s.logins ==>
              match s.logins[k].place
              case AwaitsOthers => Enabled(s, ResumeLogin(k))
              case AwaitsDevice => Enabled(s, DeviceReady(k, b))
              case AwaitsSession => Enabled(s, SessionReady(k, granted, b))
              case Discards => Enabled(s, DiscardReady(k, b))
              case LoginEnded(_) => true
    ensures k !in s.inits ==> Enabled(s, CallInit(k))
    ensures k in s.inits ==>
              match s.inits[k].place
              case AwaitsStatus => Enabled(s, StatusReady(k, answer))
              case AwaitsSignOut => Enabled(s, SignOutReady(k, b))
              case InitEnded(_) => true
    ensures k !in s.requests ==> Enabled(s, Send(k))
    ensures k in s.requests && s.requests[k].place == AwaitsResponse ==>
              Enabled(s, Receive(k, status)) && Enabled(s, LoseResponse(k))
    ensures Enabled(s, CallLogout) && Enabled(s, OtherTabActs(b)) && Enabled(s, OtherTabMarks(b))
    ensures s.logoutInFlight ==> Enabled(s, LogoutReady(b))
  {}

  /** A logout is under way from its call to its answer, and a second call changes nothing. */
  lemma OneLogoutAtATime(s: Session, a: Action)
    requires Enabled(s, a)
    ensures Next(s, a).logoutInFlight <==> a.CallLogout? || (s.logoutInFlight && !a.LogoutReady?)
    ensures s.logoutInFlight ==> Next(s, CallLogout) == s
  {
    if a.SessionReady? || a.DeviceReady? || a.DiscardReady? {
    } else if a.StatusReady? || a.SignOutReady? {
    } else {
    }
  }

  /** What a new login waits for is under way, and init is asked again only after it has failed. */
  lemma WaitsForLiveCalls(s: Session, k: nat)
    requires Reachable(s) && k !in s.inits
    ensures s.authenticationInFlight.Some? ==>
              && s.authenticationInFlight.value in s.logins
              && s.logins[s.authenticationInFlight.value].place in {AwaitsDevice, AwaitsSession, Discards}
    ensures s.initial.Some? ==> s.initial.value in s.inits && s.inits[s.initial.value].place != InitEnded(false)
    ensures k in Next(s, CallInit(k)).inits <==> s.initial.None?
  {
    ReachableInv(s);
  }

  /** The epoch a call took as it began, for the calls that take one. */
  function BegunAt(s: Session, origin: Origin): Option<nat> {
    match origin
    case ByLogin(k) => if k in s.logins then Some(s.logins[k].intent) else None
    case ByInit(k) => if k in s.inits then Some(s.inits[k].generation) else None
    case ByRequest(r) => if r in s.requests then Some(s.requests[r].generation) else None
    case _ => None
  }

  /** An overtaken call publishes all the same. */
  predicate PublishesLate(s: Session, s': Session) {
    && |s'.log| == |s.log| + 1
    && BegunAt(s', s'.log[|s.log|].origin).Some? && BegunAt(s', s'.log[|s.log|].origin).value != s.epoch
  }

  /**
    The one call that publishes although others have published since it began is an init whose status
    request is answered with 404: that branch does not look at the generation, and undoes a login.
  */
  lemma OnlyNotFoundPublishesLate(s: Session, a: Action)
    requires Reachable(s) && Enabled(s, a)
    ensures PublishesLate(s, Next(s, a))
            <==> a.StatusReady? && a.answer.NotFound? && s.inits[a.k].generation != s.epoch
  {
    ReachableInv(s);
    if a.StatusReady? || a.SignOutReady? {
      InitTiming(s, a);
    } else if a.SessionReady? || a.DeviceReady? || a.DiscardReady? {
      LoginTiming(s, a);
    } else {
      OtherTiming(s, a);
    }
  }

  lemma LoginTiming(s: Session, a: Action)
    requires Inv(s) && Enabled(s, a) && (a.SessionReady? || a.DeviceReady? || a.DiscardReady?)
    ensures !PublishesLate(s, Next(s, a))
  {
    LoginPublication(s, a);
    assert LoginOk(s, s.logins[a.k]);
  }

  lemma OtherTiming(s: Session, a: Action)
    requires Inv(s) && Enabled(s, a)
    requires !(a.SessionReady? || a.DeviceReady? || a.DiscardReady? || a.StatusReady? || a.SignOutReady?)
    ensures !PublishesLate(s, Next(s, a))
  {
    OtherPublication(s, a);
  }

  lemma InitTiming(s: Session, a: Action)
    requires Inv(s) && Enabled(s, a) && (a.StatusReady? || a.SignOutReady?)
    ensures PublishesLate(s, Next(s, a))
            <==> a.StatusReady? && a.answer.NotFound? && s.inits[a.k].generation != s.epoch
  {
    var s' := Next(s, a);
    if |s'.log| == |s.log| + 1 { assert s'.log[|s.log|].origin == ByInit(a.k); }
  }

  lemma {:induction false} RunExtends(s: Session, run: seq<Action>, a: Action)
    requires ValidRun(s, run) && Enabled(RunFrom(s, run), a)
    ensures ValidRun(s, run + [a]) && RunFrom(s, run + [a]) == Next(RunFrom(s, run), a)
    decreases |run|
  {
    if run == [] {
      assert run + [a] == [a] && [a][1..] == [];
    } else {
      assert (run + [a])[0] == run[0] && (run + [a])[1..] == run[1..] + [a];
      RunExtends(Next(s, run[0]), run[1..], a);
    }
  }

  lemma ReachableStep(s: Session, a: Action)
    requires Reachable(s) && Enabled(s, a)
    ensures Reachable(Next(s, a))
  {
    var run :| ValidRun(FRESH, run) && RunFrom(FRESH, run) == s;
    RunExtends(FRESH, run, a);
  }

  /** It can happen: a login succeeds while init waits, and then init's 404 signs the tab out again. */
  lemma LateNotFoundSignsOut(granted: View) returns (s: Session, s': Session)
    requires granted.authenticated
    ensures Reachable(s) && s.current == granted
    ensures Enabled(s, StatusReady(0, NotFound)) && s' == Next(s, StatusReady(0, NotFound)) && s'.current == INITIAL
  {
    assert ValidRun(FRESH, []) && RunFrom(FRESH, []) == FRESH;
    ReachableStep(FRESH, CallInit(0));
    var s1 := Next(FRESH, CallInit(0));
    ReachableStep(s1, CallLogin(0));
    var s2 := Next(s1, CallLogin(0));
    ReachableStep(s2, DeviceReady(0, true));
    var s3 := Next(s2, DeviceReady(0, true));
    ReachableStep(s3, SessionReady(0, Some(granted), true));
    s := Next(s3, SessionReady(0, Some(granted), true));
    s' := Next(s, StatusReady(0, NotFound));
  }
}
