/**
  The single-flight client and the rotating server together, under arbitrary interleaving. A
  sign-in may come at any time, and the client may give up on a refresh at any time, which
  then goes on without it. All traffic that is not this client's is unrestricted, except
  that it never presents a token of a session the client signed in to.
 */
module ClientServer {
  import opened Options
  import opened RefreshSessions
  import opened ApiClient

  /**
    `logouts` remembers every session for which a logout was ever carried out, `lost` every
    refresh whose response the client no longer waits for.
   */
  datatype World = World(server: State, client: Client, logouts: set<Id>, lost: set<Refresh>)

  datatype Event =
    | Send(request: Id, skipAuthRefresh: bool)
    | Respond(request: Id, ok: bool)
    | Unauthorized(request: Id, call: Id)
    | Bootstrap(call: Id)
    | Arrive(userActive: bool)
    | Deliver(accessToken: Id)
    | Lose
    | ArriveLate(refresh: Refresh, userActive: bool)
    | SignIn(user: Id, newSession: Id, newToken: Id, accessToken: Id)
    | ClearCookie
    | Server(step: Step)

  predicate IsPending(w: World, request: Id) {
    request in w.client.requests && w.client.requests[request].phase.InFlight?
  }

  predicate OwnToken(w: World, t: Id) {
    t in w.server.tokens && w.server.tokens[t].session in w.client.sessions
  }

  /** The refreshes of the client that may still be under way: the lost ones and the pending one. */
  function Mine(w: World): set<Refresh> {
    w.lost + if w.client.refresh.Some? then {w.client.refresh.value} else {}
  }

  predicate IsMine(mine: set<Refresh>, call: Id) { exists m :: m in mine && m.call == call }

  predicate FreshCall(w: World, call: Id) { call !in w.server.calls && !IsMine(Mine(w), call) }

  /** Steps the rest of the system may take; calls of the client only arrive by Arrive and ArriveLate. */
  predicate Foreign(w: World, step: Step) {
    step.Load? ==> !OwnToken(w, step.presented) && !IsMine(Mine(w), step.call)
  }

  /** The refresh request reaches the server with the cookie it was sent with. */
  function Received(s: State, r: Refresh, userActive: bool): State {
    match r.presented
    case None => s.(calls := s.calls[r.call := Invalid])
    case Some(t) => Apply(s, Load(r.call, t, userActive))
  }

  function Delivered(w: World, r: Refresh, accessToken: Id): World {
    if r.call !in w.server.calls then w
    else match w.server.calls[r.call]
      case Rotated(t) => w.(client := OnRefreshed(w.client, t, accessToken))
      case Invalid => w.(client := OnRefreshFailed(w.client))
      case _ => w
  }

  function Happen(w: World, e: Event): World {
    var c := w.client;
    match e
    case Send(request, skip) =>
      if request in c.requests then w
      else w.(client := c.(requests := c.requests[request := Request(skip, false, 1, InFlight)]))
    case Respond(request, ok) =>
      if !IsPending(w, request) then w
      else w.(client := c.(requests := c.requests[request := c.requests[request].(phase := if ok then Succeeded else Failed)]))
    case Unauthorized(request, call) =>
      if !IsPending(w, request) || !FreshCall(w, call) then w
      else w.(client := OnUnauthorized(c, request, call))
    case Bootstrap(call) =>
      if !FreshCall(w, call) then w else w.(client := RefreshAccess(c, call))
    case Arrive(userActive) =>
      if c.refresh.None? || c.refresh.value.call in w.server.calls then w
      else w.(server := Received(w.server, c.refresh.value, userActive))
    case Deliver(accessToken) =>
      if c.refresh.None? then w else Delivered(w, c.refresh.value, accessToken)
    case Lose =>
      if c.refresh.None? then w else w.(client := OnRefreshFailed(c), lost := w.lost + {c.refresh.value})
    case ArriveLate(refresh, userActive) =>
      if refresh !in w.lost || refresh.call in w.server.calls then w
      else w.(server := Received(w.server, refresh, userActive))
    case SignIn(user, newSession, newToken, accessToken) =>
      if newSession in w.server.sessions || newToken in w.server.tokens then w
      else w.(server := Apply(w.server, Login(user, newSession, newToken)), client := OnSignedIn(c, newSession, newToken, accessToken))
    case ClearCookie => w.(client := c.(cookie := None))
    case Server(step) =>
      if !Foreign(w, step) then w
      else w.(server := Apply(w.server, step),
              logouts := w.logouts + if step.Logout? then {step.session} else {})
  }

  function Happens(w: World, events: seq<Event>): World {
    if events == [] then w else Happen(Happens(w, events[..|events| - 1]), events[|events| - 1])
  }

  function Start(config: Config, now: int): World {
    World(Initial(config, now), NEW_CLIENT, {}, {})
  }

  ghost predicate Possible(w: World) {
    exists config, now, events :: w == Happens(Start(config, now), events)
  }

  // ----- Invariant of the composition

  /** t is a token of one of the client's sessions. */
  ghost predicate Owned(s: State, owned: set<Id>, t: Id) { t in s.tokens && s.tokens[t].session in owned }

  ghost predicate Used(s: State, t: Id) { t in s.tokens && s.tokens[t].usedAt.Some? }

  /** The refresh was carried out on the server. */
  ghost predicate RotatedOnServer(s: State, r: Refresh) { r.call in s.calls && s.calls[r.call].Rotated? }

  /** One of these refreshes presented t and was carried out. */
  ghost predicate Consumed(s: State, refreshes: set<Refresh>, t: Id) {
    exists m :: m in refreshes && m.presented == Some(t) && RotatedOnServer(s, m)
  }

  /** The session a call is working on, if it is not finished. */
  function WorksOn(c: Call): Option<Id> {
    match c
    case Loaded(_, token, _, _) => Some(token.session)
    case Checked(_, session, _, _) => Some(session)
    case MustRevoke(session) => Some(session)
    case _ => None
  }

  /** The token a call was sent with, while the call still knows it. */
  function PresentedBy(c: Call): Option<Id> {
    match c
    case Loaded(t, _, _, _) => Some(t)
    case Checked(t, _, _, _) => Some(t)
    case _ => None
  }

  /** A refresh of the client presents a token of its own, and its call works on that token's session and replaces that token. */
  ghost predicate RefreshOk(s: State, owned: set<Id>, r: Refresh) {
    && (r.presented.Some? ==> Owned(s, owned, r.presented.value))
    && (r.call in s.calls ==> CallOfRefresh(s, owned, r.presented, s.calls[r.call]))
  }

  ghost predicate CallOfRefresh(s: State, owned: set<Id>, presented: Option<Id>, c: Call) {
    && (PresentedBy(c).Some? ==> presented == PresentedBy(c))
    && (WorksOn(c).Some? ==> presented.Some? && presented.value in s.tokens && s.tokens[presented.value].session == WorksOn(c).value)
    && (c.Rotated? ==> Owned(s, owned, c.tokenId) && presented.Some? && Used(s, presented.value))
  }

  ghost predicate RefreshesOk(s: State, owned: set<Id>, mine: set<Refresh>) {
    && (forall m :: m in mine ==> RefreshOk(s, owned, m))
    && (forall m, n :: m in mine && n in mine && m.call == n.call ==> m == n)
  }

  /** What the client holds: a token of its own that is unused, unless one of its refreshes has consumed it. */
  ghost predicate Holding(s: State, owned: set<Id>, mine: set<Refresh>, t: Option<Id>) {
    t.Some? ==> Owned(s, owned, t.value) && (Used(s, t.value) ==> Consumed(s, mine, t.value))
  }

  /** A token that nobody has seen yet: unused, not the cookie, and never presented. */
  ghost predicate Unseen(s: State, mine: set<Refresh>, cookie: Option<Id>, t: Id) {
    !Used(s, t) && cookie != Some(t) && forall m :: m in mine ==> m.presented != Some(t)
  }

  ghost predicate HoldingOk(s: State, owned: set<Id>, mine: set<Refresh>, cookie: Option<Id>, refresh: Option<Refresh>) {
    && Holding(s, owned, mine, cookie)
    && (refresh.Some? ==> Holding(s, owned, mine, refresh.value.presented))
    && (refresh.Some? && RotatedOnServer(s, refresh.value) ==> Unseen(s, mine, cookie, s.calls[refresh.value.call].tokenId))
  }

  ghost predicate OwnWork(owned: set<Id>, c: Call) { WorksOn(c).Some? && WorksOn(c).value in owned }

  /** No calls but the client's own are working on any of its sessions. */
  ghost predicate Alone(s: State, owned: set<Id>, mine: set<Refresh>) {
    && (forall x :: x in owned ==> x in s.sessions)
    && (forall call :: call in s.calls && OwnWork(owned, s.calls[call]) ==> IsMine(mine, call))
  }

  /** No alarm names x, and its tokens are unrevoked. */
  ghost predicate Untouched(s: State, x: Id) {
    && x !in s.alarms
    && forall t :: t in s.tokens && s.tokens[t].session == x ==> s.tokens[t].revokedAt.None?
  }

  ghost predicate NoRevocation(s: State, x: Id) {
    forall call :: call in s.calls ==> s.calls[call] != MustRevoke(x)
  }

  ghost predicate IsOf(s: State, r: Refresh, x: Id) {
    r.presented.Some? && r.presented.value in s.tokens && s.tokens[r.presented.value].session == x
  }

  /** A refresh of session x was lost. */
  ghost predicate LostOf(s: State, lost: set<Refresh>, x: Id) { exists l :: l in lost && IsOf(s, l, x) }

  /** A session of the client that was never logged out and never lost a refresh is not revoked and not named by an alarm. */
  ghost predicate Calm(s: State, owned: set<Id>, logouts: set<Id>, lost: set<Refresh>) {
    && (forall x :: x in s.alarms ==> x in s.sessions)
    && (forall x :: x in owned && x !in logouts && !LostOf(s, lost, x) ==> Untouched(s, x) && NoRevocation(s, x))
  }

  ghost predicate RequestOk(c: Client, r: Request) {
    && 1 <= r.sends <= 2
    && (r.sends == 2 ==> r.retry)
    && (r.phase.AwaitingRefresh? ==> r.retry && r.sends == 1 && c.refresh.Some?)
  }

  ghost predicate RequestsOk(c: Client) { forall r :: r in c.requests ==> RequestOk(c, c.requests[r]) }

  /** What the client has and does, on this server. */
  ghost predicate ClientOk(s: State, c: Client, lost: set<Refresh>, mine: set<Refresh>) {
    && RefreshesOk(s, c.sessions, mine) && HoldingOk(s, c.sessions, mine, c.cookie, c.refresh)
    && Alone(s, c.sessions, mine) && RequestsOk(c)
  }

  ghost predicate ClientInv(w: World) {
    && Inv(w.server) && ClientOk(w.server, w.client, w.lost, Mine(w))
    && Calm(w.server, w.client.sessions, w.logouts, w.lost)
  }

  // ----- What a change on the server may do to the client

  /**
    A change on the server, seen from the client: its tokens stay its own, a token of its
    sessions is only newly used by one of its refreshes, and a refresh that is carried out
    gets a new token and stays carried out.
   */
  ghost predicate Effect(s: State, s': State, owned: set<Id>, mine: set<Refresh>) {
    && (forall t :: Owned(s, owned, t) ==> Owned(s', owned, t) && TokenEffect(s, s', mine, t))
    && (forall m :: m in mine ==> RefreshEffect(s, s', m))
  }

  ghost predicate TokenEffect(s: State, s': State, mine: set<Refresh>, t: Id) {
    (Used(s, t) ==> Used(s', t)) && (Used(s', t) && !Used(s, t) ==> Consumed(s', mine, t))
  }

  ghost predicate RefreshEffect(s: State, s': State, m: Refresh) {
    if RotatedOnServer(s, m) then m.call in s'.calls && s'.calls[m.call] == s.calls[m.call]
    else RotatedOnServer(s', m) ==>
      s'.calls[m.call].tokenId !in s.tokens && !Used(s', s'.calls[m.call].tokenId)
  }

  lemma ConsumedKept(s: State, s': State, owned: set<Id>, mine: set<Refresh>, t: Id)
    requires Effect(s, s', owned, mine) && Consumed(s, mine, t)
    ensures Consumed(s', mine, t)
  {
    var m :| m in mine && m.presented == Some(t) && RotatedOnServer(s, m);
    assert RefreshEffect(s, s', m);
  }

  lemma HoldingKept(s: State, s': State, owned: set<Id>, mine: set<Refresh>, t: Option<Id>)
    requires Effect(s, s', owned, mine) && Holding(s, owned, mine, t)
    ensures Holding(s', owned, mine, t)
  {
    if t.Some? {
      assert TokenEffect(s, s', mine, t.value);
      if Used(s, t.value) { ConsumedKept(s, s', owned, mine, t.value); }
    }
  }

  /** An unseen token of the client stays unused, because nobody can present it. */
  lemma UnseenKept(s: State, s': State, owned: set<Id>, mine: set<Refresh>, cookie: Option<Id>, t: Id)
    requires Effect(s, s', owned, mine) && Owned(s, owned, t) && Unseen(s, mine, cookie, t)
    ensures Unseen(s', mine, cookie, t)
  {
    assert TokenEffect(s, s', mine, t);
  }

  lemma NewTokenUnseen(s: State, s': State, owned: set<Id>, mine: set<Refresh>, cookie: Option<Id>, t: Id)
    requires RefreshesOk(s, owned, mine) && Holding(s, owned, mine, cookie) && t !in s.tokens && !Used(s', t)
    ensures Unseen(s', mine, cookie, t)
  {
    forall m | m in mine ensures m.presented != Some(t) {
      assert RefreshOk(s, owned, m);
    }
  }

  lemma HoldingOkKept(s: State, s': State, owned: set<Id>, mine: set<Refresh>, cookie: Option<Id>, refresh: Option<Refresh>)
    requires Effect(s, s', owned, mine) && RefreshesOk(s, owned, mine) && HoldingOk(s, owned, mine, cookie, refresh)
    requires refresh.Some? ==> refresh.value in mine
    ensures HoldingOk(s', owned, mine, cookie, refresh)
  {
    HoldingKept(s, s', owned, mine, cookie);
    if refresh.Some? {
      var r := refresh.value;
      HoldingKept(s, s', owned, mine, r.presented);
      assert RefreshEffect(s, s', r) && RefreshOk(s, owned, r);
      if RotatedOnServer(s, r) {
        UnseenKept(s, s', owned, mine, cookie, s.calls[r.call].tokenId);
      } else if RotatedOnServer(s', r) {
        NewTokenUnseen(s, s', owned, mine, cookie, s'.calls[r.call].tokenId);
      }
    }
  }

  // ----- Server steps

  predicate OnCall(step: Step) { step.Load? || step.Check? || step.Claim? || step.Revoke? }

  /** What a step does to the call of another. */
  lemma OtherCallKept(s: State, step: Step, call: Id)
    requires OnCall(step) ==> step.call != call
    ensures call in Apply(s, step).calls <==> call in s.calls
    ensures call in s.calls ==> Apply(s, step).calls[call] == s.calls[call]
  {
  }

  /** A token is used by nothing but the claim of a call that presented it. */
  lemma UseNeedsClaim(s: State, step: Step, t: Id)
    requires t in s.tokens
    ensures t in Apply(s, step).tokens && Apply(s, step).tokens[t].session == s.tokens[t].session
    ensures Used(s, t) ==> Used(Apply(s, step), t)
    ensures Used(Apply(s, step), t) && !Used(s, t) ==>
              && step.Claim? && step.call in s.calls && s.calls[step.call].Checked? && s.calls[step.call].tokenId == t
              && step.call in Apply(s, step).calls && Apply(s, step).calls[step.call].Rotated?
  {
  }

  /** A call that is carried out stays so, and gets a new and unused token. */
  lemma RotationIsNew(s: State, step: Step, call: Id)
    requires call in s.calls
    ensures call in Apply(s, step).calls
    ensures s.calls[call].Rotated? ==> Apply(s, step).calls[call] == s.calls[call]
    ensures !s.calls[call].Rotated? && Apply(s, step).calls[call].Rotated? ==>
              Apply(s, step).calls[call].tokenId !in s.tokens && !Used(Apply(s, step), Apply(s, step).calls[call].tokenId)
  {
  }

  lemma NewCallIsNotRotated(s: State, step: Step, call: Id)
    requires call !in s.calls && call in Apply(s, step).calls
    ensures !Apply(s, step).calls[call].Rotated?
  {
  }

  /** A claim on a token of the client is a claim by one of its refreshes. */
  lemma ClaimIsMine(s: State, owned: set<Id>, mine: set<Refresh>, call: Id, t: Id) returns (m: Refresh)
    requires CallsOk(s) && RefreshesOk(s, owned, mine) && Alone(s, owned, mine) && Owned(s, owned, t)
    requires call in s.calls && s.calls[call].Checked? && s.calls[call].tokenId == t
    ensures m in mine && m.call == call && m.presented == Some(t)
  {
    assert CallOk(s, s.calls[call]);
    assert OwnWork(owned, s.calls[call]);
    m :| m in mine && m.call == call;
    assert RefreshOk(s, owned, m);
  }

  lemma ServerEffect(s: State, step: Step, owned: set<Id>, mine: set<Refresh>)
    requires CallsOk(s) && RefreshesOk(s, owned, mine) && Alone(s, owned, mine)
    ensures Effect(s, Apply(s, step), owned, mine)
  {
    var s' := Apply(s, step);
    forall t | Owned(s, owned, t) ensures Owned(s', owned, t) && TokenEffect(s, s', mine, t) {
      UseNeedsClaim(s, step, t);
      if Used(s', t) && !Used(s, t) {
        var m := ClaimIsMine(s, owned, mine, step.call, t);
        assert RotatedOnServer(s', m);
      }
    }
    forall m | m in mine ensures RefreshEffect(s, s', m) {
      if m.call in s.calls {
        RotationIsNew(s, step, m.call);
      } else if m.call in s'.calls {
        NewCallIsNotRotated(s, step, m.call);
      }
    }
  }

  lemma OwnedKept(s: State, step: Step, owned: set<Id>, t: Id)
    requires Owned(s, owned, t)
    ensures Owned(Apply(s, step), owned, t) && Apply(s, step).tokens[t].session == s.tokens[t].session
    ensures Used(s, t) ==> Used(Apply(s, step), t)
  {
    UseNeedsClaim(s, step, t);
  }

  lemma OtherRefreshKept(s: State, step: Step, owned: set<Id>, r: Refresh)
    requires RefreshOk(s, owned, r) && (OnCall(step) ==> step.call != r.call)
    ensures RefreshOk(Apply(s, step), owned, r)
  {
    OtherCallKept(s, step, r.call);
    if r.presented.Some? { OwnedKept(s, step, owned, r.presented.value); }
    if RotatedOnServer(s, r) { OwnedKept(s, step, owned, s.calls[r.call].tokenId); }
  }

  /** A step of the refresh's own call. */
  lemma OwnRefreshKept(s: State, step: Step, owned: set<Id>, r: Refresh)
    requires CallsOk(s) && RefreshOk(s, owned, r) && r.call in s.calls && OnCall(step) && step.call == r.call
    ensures RefreshOk(Apply(s, step), owned, r)
  {
    assert CallOk(s, s.calls[r.call]);
    if r.presented.Some? { OwnedKept(s, step, owned, r.presented.value); }
    if RotatedOnServer(s, r) { OwnedKept(s, step, owned, s.calls[r.call].tokenId); }
  }

  lemma ServerKeepsRefreshes(w: World, step: Step)
    requires CallsOk(w.server) && RefreshesOk(w.server, w.client.sessions, Mine(w)) && Foreign(w, step)
    ensures RefreshesOk(Apply(w.server, step), w.client.sessions, Mine(w))
  {
    forall m | m in Mine(w) ensures RefreshOk(Apply(w.server, step), w.client.sessions, m) {
      if OnCall(step) && step.call == m.call {
        if m.call in w.server.calls {
          OwnRefreshKept(w.server, step, w.client.sessions, m);
        } else {
          assert Apply(w.server, step) == w.server;
        }
      } else {
        OtherRefreshKept(w.server, step, w.client.sessions, m);
      }
    }
  }

  lemma WorkStaysInSession(s: State, step: Step, call: Id)
    requires call in Apply(s, step).calls && WorksOn(Apply(s, step).calls[call]).Some?
    ensures (call in s.calls && WorksOn(Apply(s, step).calls[call]) == WorksOn(s.calls[call]))
         || (step.Load? && step.call == call && call !in s.calls && step.presented in s.tokens
             && WorksOn(Apply(s, step).calls[call]) == Some(s.tokens[step.presented].session))
  {
  }

  lemma SessionsGrow(s: State, step: Step)
    ensures s.sessions.Keys <= Apply(s, step).sessions.Keys
  {
  }

  lemma ServerKeepsAlone(w: World, step: Step)
    requires Alone(w.server, w.client.sessions, Mine(w)) && Foreign(w, step)
    ensures Alone(Apply(w.server, step), w.client.sessions, Mine(w))
  {
    var s' := Apply(w.server, step);
    SessionsGrow(w.server, step);
    forall call | call in s'.calls && OwnWork(w.client.sessions, s'.calls[call]) ensures IsMine(Mine(w), call) {
      WorkStaysInSession(w.server, step, call);
    }
  }

  // ----- Alarms

  /** A step that neither logs x out nor revokes it for reuse leaves its tokens unrevoked and adds no alarm. */
  lemma UntouchedKept(s: State, step: Step, x: Id)
    requires CallsOk(s) && x in s.sessions && Untouched(s, x)
    requires step.Logout? ==> step.session != x
    requires step.Revoke? && step.call in s.calls && s.calls[step.call].MustRevoke? ==> s.calls[step.call].sessionId != x
    ensures Untouched(Apply(s, step), x)
  {
    var s' := Apply(s, step);
    forall t | t in s'.tokens && s'.tokens[t].session == x ensures s'.tokens[t].revokedAt.None? {
      if t in s.tokens { TokenUntouched(s, step, x, t); }
    }
  }

  lemma TokenUntouched(s: State, step: Step, x: Id, t: Id)
    requires CallsOk(s) && x in s.sessions && Untouched(s, x) && t in s.tokens
    requires step.Logout? ==> step.session != x
    requires step.Revoke? && step.call in s.calls && s.calls[step.call].MustRevoke? ==> s.calls[step.call].sessionId != x
    ensures Apply(s, step).tokens[t].session == s.tokens[t].session
    ensures s.tokens[t].session == x ==> Apply(s, step).tokens[t].revokedAt.None?
  {
  }

  lemma AlarmsNameSessions(s: State, step: Step)
    requires CallsOk(s) && forall x :: x in s.alarms ==> x in s.sessions
    ensures forall x :: x in Apply(s, step).alarms ==> x in Apply(s, step).sessions
  {
  }

  /** A session without a lost refresh: the token that its pending call was sent with is unused. */
  lemma PendingTokenUnused(w: World, x: Id, m: Refresh)
    requires RefreshesOk(w.server, w.client.sessions, Mine(w)) && m in Mine(w) && !LostOf(w.server, w.lost, x)
    requires HoldingOk(w.server, w.client.sessions, Mine(w), w.client.cookie, w.client.refresh)
    requires m.call in w.server.calls && WorksOn(w.server.calls[m.call]) == Some(x)
    ensures w.client.refresh == Some(m) && m.presented.Some? && !Used(w.server, m.presented.value)
  {
    WorkIsOf(w, x, m);
    if w.client.refresh == Some(m) && Used(w.server, m.presented.value) {
      UsedMeansLost(w, x, m);
    }
  }

  lemma WorkIsOf(w: World, x: Id, m: Refresh)
    requires RefreshesOk(w.server, w.client.sessions, Mine(w)) && m in Mine(w)
    requires m.call in w.server.calls && WorksOn(w.server.calls[m.call]) == Some(x)
    ensures IsOf(w.server, m, x) && (m in w.lost ==> LostOf(w.server, w.lost, x))
  {
    assert RefreshOk(w.server, w.client.sessions, m);
  }

  /** If the token of an unfinished pending refresh has been used, another refresh of its session was lost. */
  lemma UsedMeansLost(w: World, x: Id, m: Refresh)
    requires w.client.refresh == Some(m) && IsOf(w.server, m, x) && Used(w.server, m.presented.value)
    requires HoldingOk(w.server, w.client.sessions, Mine(w), w.client.cookie, w.client.refresh)
    requires m.call in w.server.calls && WorksOn(w.server.calls[m.call]) == Some(x)
    ensures LostOf(w.server, w.lost, x)
  {
    var n :| n in Mine(w) && n.presented == m.presented && RotatedOnServer(w.server, n);
    assert IsOf(w.server, n, x);
  }

  /** Checking or claiming an unused and unrevoked token never leads to revocation. */
  lemma NoNewRevocation(s: State, owned: set<Id>, r: Refresh, x: Id, step: Step)
    requires CallsOk(s) && RefreshOk(s, owned, r) && Untouched(s, x) && r.call in s.calls
    requires WorksOn(s.calls[r.call]) == Some(x) && !s.calls[r.call].MustRevoke? && !Used(s, r.presented.value)
    ensures r.call in Apply(s, step).calls && !Apply(s, step).calls[r.call].MustRevoke?
  {
    assert CallOk(s, s.calls[r.call]);
  }

  /** A step neither revokes such a session nor makes a call of the client revoke it. */
  lemma ServerKeepsCalmFor(w: World, step: Step, x: Id)
    requires CallsOk(w.server) && ClientOk(w.server, w.client, w.lost, Mine(w)) && Foreign(w, step)
    requires x in w.client.sessions && !LostOf(w.server, w.lost, x) && Untouched(w.server, x) && NoRevocation(w.server, x)
    requires step.Logout? ==> step.session != x
    ensures Untouched(Apply(w.server, step), x) && NoRevocation(Apply(w.server, step), x)
  {
    var s, s' := w.server, Apply(w.server, step);
    UntouchedKept(s, step, x);
    forall call | call in s'.calls ensures s'.calls[call] != MustRevoke(x) {
      if s'.calls[call] == MustRevoke(x) {
        WorkStaysInSession(s, step, call);
        if call in s.calls {
          assert OwnWork(w.client.sessions, s.calls[call]);
          var m :| m in Mine(w) && m.call == call;
          PendingTokenUnused(w, x, m);
          NoNewRevocation(s, w.client.sessions, m, x, step);
        }
      }
    }
  }

  lemma LostStays(s: State, step: Step, lost: set<Refresh>, x: Id)
    requires LostOf(s, lost, x)
    ensures LostOf(Apply(s, step), lost, x)
  {
    var l :| l in lost && IsOf(s, l, x);
    UseNeedsClaim(s, step, l.presented.value);
    assert IsOf(Apply(s, step), l, x);
  }

  lemma ServerKeepsCalm(w: World, step: Step)
    requires CallsOk(w.server) && ClientOk(w.server, w.client, w.lost, Mine(w)) && Foreign(w, step)
    requires Calm(w.server, w.client.sessions, w.logouts, w.lost)
    ensures Calm(Apply(w.server, step), w.client.sessions, Happen(w, Server(step)).logouts, w.lost)
  {
    AlarmsNameSessions(w.server, step);
    forall x | x in w.client.sessions && x !in Happen(w, Server(step)).logouts && !LostOf(Apply(w.server, step), w.lost, x)
      ensures Untouched(Apply(w.server, step), x) && NoRevocation(Apply(w.server, step), x)
    {
      if LostOf(w.server, w.lost, x) { LostStays(w.server, step, w.lost, x); }
      ServerKeepsCalmFor(w, step, x);
    }
  }

  lemma ServerKeepsClient(w: World, step: Step)
    requires CallsOk(w.server) && ClientOk(w.server, w.client, w.lost, Mine(w)) && Foreign(w, step)
    ensures ClientOk(Apply(w.server, step), w.client, w.lost, Mine(w))
  {
    ServerEffect(w.server, step, w.client.sessions, Mine(w));
    ServerKeepsRefreshes(w, step);
    HoldingOkKept(w.server, Apply(w.server, step), w.client.sessions, Mine(w), w.client.cookie, w.client.refresh);
    ServerKeepsAlone(w, step);
  }

  lemma ServerKeepsInv(w: World, step: Step)
    requires ClientInv(w)
    ensures ClientInv(Happen(w, Server(step)))
  {
    if Foreign(w, step) {
      StepKeepsInv(w.server, step);
      ServerKeepsClient(w, step);
      ServerKeepsCalm(w, step);
      assert Mine(Happen(w, Server(step))) == Mine(w);
    }
  }

  // ----- Requests arriving

  /** What the arrival of a refresh request changes: only its own call appears. */
  ghost predicate Appears(s: State, s': State, r: Refresh) {
    && r.call !in s.calls && r.call in s'.calls
    && s'.tokens == s.tokens && s'.sessions == s.sessions && s'.alarms == s.alarms
    && (forall call :: call in s'.calls <==> call in s.calls || call == r.call)
    && (forall call :: call in s.calls ==> s'.calls[call] == s.calls[call])
  }

  lemma ReceivedEffect(s: State, r: Refresh, userActive: bool)
    requires r.call !in s.calls
    ensures var s' := Received(s, r, userActive);
            Appears(s, s', r) && !s'.calls[r.call].MustRevoke? && !s'.calls[r.call].Rotated?
  {
  }

  lemma ReceivedKeepsServer(s: State, r: Refresh, userActive: bool)
    requires Inv(s)
    ensures Inv(Received(s, r, userActive))
  {
    if r.presented.None? {
      CallKeeps(s, r.call, Invalid);
    } else {
      StepKeepsInv(s, Load(r.call, r.presented.value, userActive));
    }
  }

  lemma ArrivedRefreshOk(s: State, owned: set<Id>, r: Refresh, userActive: bool)
    requires r.call !in s.calls && RefreshOk(s, owned, r)
    ensures RefreshOk(Received(s, r, userActive), owned, r)
  {
  }

  lemma AppearsKeepsRefresh(s: State, s': State, owned: set<Id>, r: Refresh, m: Refresh)
    requires Appears(s, s', r) && RefreshOk(s, owned, m) && m.call != r.call
    ensures RefreshOk(s', owned, m)
  {
  }

  lemma AppearsEffect(s: State, s': State, owned: set<Id>, mine: set<Refresh>, r: Refresh)
    requires Appears(s, s', r) && !s'.calls[r.call].Rotated?
    ensures Effect(s, s', owned, mine)
  {
    forall m | m in mine ensures RefreshEffect(s, s', m) {}
  }

  lemma SameTokensSameLost(s: State, s': State, lost: set<Refresh>, x: Id)
    requires s'.tokens == s.tokens
    ensures LostOf(s, lost, x) <==> LostOf(s', lost, x)
  {
    assert forall l :: IsOf(s, l, x) <==> IsOf(s', l, x);
  }

  lemma AppearsKeepsCalm(s: State, s': State, owned: set<Id>, logouts: set<Id>, lost: set<Refresh>, r: Refresh)
    requires Appears(s, s', r) && !s'.calls[r.call].MustRevoke? && Calm(s, owned, logouts, lost)
    ensures Calm(s', owned, logouts, lost)
  {
    forall x | x in owned && x !in logouts && !LostOf(s', lost, x) ensures Untouched(s', x) && NoRevocation(s', x) {
      SameTokensSameLost(s, s', lost, x);
      assert Untouched(s, x) && NoRevocation(s, x);
    }
  }

  lemma AppearsKeepsClient(w: World, r: Refresh, s': State)
    requires ClientOk(w.server, w.client, w.lost, Mine(w)) && r in Mine(w)
    requires Appears(w.server, s', r) && !s'.calls[r.call].Rotated? && RefreshOk(s', w.client.sessions, r)
    ensures ClientOk(s', w.client, w.lost, Mine(w))
  {
    AppearsEffect(w.server, s', w.client.sessions, Mine(w), r);
    forall m | m in Mine(w) ensures RefreshOk(s', w.client.sessions, m) {
      if m != r { AppearsKeepsRefresh(w.server, s', w.client.sessions, r, m); }
    }
    HoldingOkKept(w.server, s', w.client.sessions, Mine(w), w.client.cookie, w.client.refresh);
    assert IsMine(Mine(w), r.call);
  }

  lemma ReceivedKeeps(w: World, r: Refresh, userActive: bool)
    requires ClientInv(w) && r in Mine(w) && r.call !in w.server.calls
    ensures ClientInv(w.(server := Received(w.server, r, userActive)))
  {
    var s' := Received(w.server, r, userActive);
    ReceivedEffect(w.server, r, userActive);
    ReceivedKeepsServer(w.server, r, userActive);
    assert RefreshOk(w.server, w.client.sessions, r);
    ArrivedRefreshOk(w.server, w.client.sessions, r, userActive);
    AppearsKeepsClient(w, r, s');
    AppearsKeepsCalm(w.server, s', w.client.sessions, w.logouts, w.lost, r);
    assert Mine(w.(server := s')) == Mine(w);
  }

  // ----- Client events

  /** Events that change only the request table or the cookie, or start a refresh, and by that neither lose nor finish one. */
  lemma ClientOnlyKeeps(w: World, c: Client)
    requires ClientInv(w) && RequestsOk(c) && c.sessions == w.client.sessions && c.refresh == w.client.refresh
    requires c.cookie == w.client.cookie || c.cookie.None?
    ensures ClientInv(w.(client := c))
  {
    assert Mine(w.(client := c)) == Mine(w);
  }

  lemma HoldingWithMore(s: State, owned: set<Id>, mine: set<Refresh>, more: set<Refresh>, t: Option<Id>)
    requires Holding(s, owned, mine, t) && mine <= more
    ensures Holding(s, owned, more, t)
  {
  }

  /** A new refresh is sent with the cookie the client holds. */
  lemma StartKeeps(w: World, c: Client, call: Id)
    requires ClientInv(w) && w.client.refresh.None? && FreshCall(w, call) && RequestsOk(c)
    requires c.sessions == w.client.sessions && c.cookie == w.client.cookie && c.refresh == Some(Refresh(call, c.cookie))
    ensures ClientInv(w.(client := c))
  {
    var r, w' := c.refresh.value, w.(client := c);
    assert Mine(w') == Mine(w) + {r} && r.call !in w.server.calls;
    HoldingWithMore(w.server, c.sessions, Mine(w), Mine(w'), c.cookie);
    forall m, n | m in Mine(w') && n in Mine(w') && m.call == n.call ensures m == n {
      assert m != r ==> m in Mine(w) && m.call != call;
      assert n != r ==> n in Mine(w) && n.call != call;
    }
    StartKeepsAlone(w.server, c.sessions, Mine(w), Mine(w'));
  }

  lemma StartKeepsAlone(s: State, owned: set<Id>, mine: set<Refresh>, more: set<Refresh>)
    requires Alone(s, owned, mine) && mine <= more
    ensures Alone(s, owned, more)
  {
    forall call | call in s.calls && OwnWork(owned, s.calls[call]) ensures IsMine(more, call) {
      assert IsMine(mine, call);
    }
  }

  lemma RefreshAccessKeeps(w: World, c: Client, call: Id)
    requires ClientInv(w) && FreshCall(w, call) && RequestsOk(RefreshAccess(c, call))
    requires c == w.client.(requests := c.requests)
    ensures ClientInv(w.(client := RefreshAccess(c, call)))
  {
    if c.refresh.None? {
      StartKeeps(w, RefreshAccess(c, call), call);
    } else {
      ClientOnlyKeeps(w, c);
    }
  }

  lemma UnauthorizedRequests(c: Client, request: Id, call: Id)
    requires RequestsOk(c) && request in c.requests && c.requests[request].phase.InFlight?
    ensures RequestsOk(OnUnauthorized(c, request, call))
  {
    var c' := OnUnauthorized(c, request, call);
    assert RequestOk(c, c.requests[request]);
    forall r | r in c'.requests ensures RequestOk(c', c'.requests[r]) {
      if r != request { assert RequestOk(c, c.requests[r]); }
    }
  }

  lemma UnauthorizedKeeps(w: World, request: Id, call: Id)
    requires ClientInv(w)
    ensures ClientInv(Happen(w, Unauthorized(request, call)))
  {
    if IsPending(w, request) && FreshCall(w, call) {
      var c, r := w.client, w.client.requests[request];
      UnauthorizedRequests(c, request, call);
      if r.retry || r.skipAuthRefresh {
        ClientOnlyKeeps(w, OnUnauthorized(c, request, call));
      } else {
        RefreshAccessKeeps(w, c.(requests := c.requests[request := r.(retry := true, phase := AwaitingRefresh)]), call);
      }
    }
  }

  lemma BootstrapRequests(c: Client, call: Id)
    requires RequestsOk(c)
    ensures RequestsOk(RefreshAccess(c, call))
  {
    var c' := RefreshAccess(c, call);
    forall r | r in c'.requests ensures RequestOk(c', c'.requests[r]) {
      assert RequestOk(c, c.requests[r]);
    }
  }

  lemma BootstrapKeeps(w: World, call: Id)
    requires ClientInv(w)
    ensures ClientInv(Happen(w, Bootstrap(call)))
  {
    if FreshCall(w, call) {
      BootstrapRequests(w.client, call);
      RefreshAccessKeeps(w, w.client, call);
    }
  }

  lemma SimpleEventKeeps(w: World, e: Event)
    requires ClientInv(w) && (e.Send? || e.Respond? || e.ClearCookie?)
    ensures ClientInv(Happen(w, e))
  {
    var c := Happen(w, e).client;
    forall r | r in c.requests ensures RequestOk(c, c.requests[r]) {
      if r in w.client.requests { assert RequestOk(w.client, w.client.requests[r]); }
    }
    ClientOnlyKeeps(w, c);
  }

  lemma ResumedOk(c: Client, c': Client, refreshed: bool)
    requires RequestsOk(c) && c'.requests == ResumeAll(c.requests, refreshed)
    ensures RequestsOk(c')
  {
  }

  /** Forgetting a finished refresh that did not consume the cookie. */
  lemma ForgetKeeps(s: State, c: Client, c': Client, lost: set<Refresh>, mine: set<Refresh>, r: Refresh)
    requires ClientOk(s, c, lost, mine) && mine == lost + {r} && c.refresh == Some(r)
    requires r.call in s.calls && WorksOn(s.calls[r.call]).None?
    requires c'.sessions == c.sessions && c'.refresh.None? && RequestsOk(c')
    requires if s.calls[r.call].Rotated? then c'.cookie == Some(s.calls[r.call].tokenId) else c'.cookie == c.cookie
    ensures ClientOk(s, c', lost, lost)
  {
    assert RefreshOk(s, c.sessions, r);
    if !s.calls[r.call].Rotated? && c.cookie.Some? && Used(s, c.cookie.value) {
      var m :| m in mine && m.presented == c.cookie && RotatedOnServer(s, m);
      assert m in lost;
    }
    forall call | call in s.calls && OwnWork(c.sessions, s.calls[call]) ensures IsMine(lost, call) {
      var m :| m in mine && m.call == call;
      assert m in lost;
    }
  }

  lemma ForgottenKeeps(w: World, c: Client, r: Refresh)
    requires ClientOk(w.server, w.client, w.lost, Mine(w))
    requires w.client.refresh == Some(r) && r.call in w.server.calls && WorksOn(w.server.calls[r.call]).None?
    requires c.sessions == w.client.sessions && c.refresh.None? && RequestsOk(c)
    requires if w.server.calls[r.call].Rotated? then c.cookie == Some(w.server.calls[r.call].tokenId) else c.cookie == w.client.cookie
    ensures ClientOk(w.server, c, w.lost, Mine(w.(client := c)))
  {
    ForgetKeeps(w.server, w.client, c, w.lost, Mine(w), r);
    assert Mine(w.(client := c)) == w.lost;
  }

  lemma RefreshedKeeps(w: World, r: Refresh, accessToken: Id)
    requires ClientInv(w) && w.client.refresh == Some(r) && r.call in w.server.calls && w.server.calls[r.call].Rotated?
    ensures ClientInv(w.(client := OnRefreshed(w.client, w.server.calls[r.call].tokenId, accessToken)))
  {
    ForgottenInv(w, OnRefreshed(w.client, w.server.calls[r.call].tokenId, accessToken), r, true);
  }

  lemma RefreshFailedKeeps(w: World, r: Refresh)
    requires ClientInv(w) && w.client.refresh == Some(r) && r.call in w.server.calls && w.server.calls[r.call].Invalid?
    ensures ClientInv(w.(client := OnRefreshFailed(w.client)))
  {
    ForgottenInv(w, OnRefreshFailed(w.client), r, false);
  }

  /** Delivery empties the refresh slot; by then the client's call works on nothing. */
  lemma DeliverKeeps(w: World, accessToken: Id)
    requires ClientInv(w)
    ensures ClientInv(Happen(w, Deliver(accessToken)))
  {
    if w.client.refresh.Some? && w.client.refresh.value.call in w.server.calls {
      var r := w.client.refresh.value;
      if w.server.calls[r.call].Rotated? {
        RefreshedKeeps(w, r, accessToken);
      } else if w.server.calls[r.call].Invalid? {
        RefreshFailedKeeps(w, r);
      }
    }
  }

  lemma ForgottenInv(w: World, c: Client, r: Refresh, refreshed: bool)
    requires ClientInv(w) && w.client.refresh == Some(r) && r.call in w.server.calls && WorksOn(w.server.calls[r.call]).None?
    requires c.sessions == w.client.sessions && c.refresh.None? && c.requests == ResumeAll(w.client.requests, refreshed)
    requires if w.server.calls[r.call].Rotated? then c.cookie == Some(w.server.calls[r.call].tokenId) else c.cookie == w.client.cookie
    ensures ClientInv(w.(client := c))
  {
    ResumedOk(w.client, c, refreshed);
    ForgottenKeeps(w, c, r);
  }

  lemma LostWithMore(s: State, lost: set<Refresh>, more: set<Refresh>, x: Id)
    requires LostOf(s, lost, x) && lost <= more
    ensures LostOf(s, more, x)
  {
  }

  /** A lost refresh stays one of the client's. */
  lemma LoseKeeps(w: World)
    requires ClientInv(w)
    ensures ClientInv(Happen(w, Lose))
  {
    if w.client.refresh.Some? {
      var w' := Happen(w, Lose);
      assert Mine(w') == Mine(w);
      ResumedOk(w.client, w'.client, false);
      forall x | x in w'.client.sessions && x !in w'.logouts && !LostOf(w'.server, w'.lost, x)
        ensures Untouched(w'.server, x) && NoRevocation(w'.server, x)
      {
        if LostOf(w.server, w.lost, x) { LostWithMore(w.server, w.lost, w'.lost, x); }
      }
    }
  }

  // ----- Signing in

  lemma LoginKeepsRefreshes(s: State, owned: set<Id>, mine: set<Refresh>, user: Id, newSession: Id, newToken: Id)
    requires RefreshesOk(s, owned, mine) && newSession !in s.sessions && newToken !in s.tokens
    ensures RefreshesOk(Apply(s, Login(user, newSession, newToken)), owned + {newSession}, mine)
  {
    var s' := Apply(s, Login(user, newSession, newToken));
    forall m | m in mine ensures RefreshOk(s', owned + {newSession}, m) {
      LoginKeepsRefresh(s, owned, m, user, newSession, newToken);
    }
  }

  lemma LoginKeepsRefresh(s: State, owned: set<Id>, r: Refresh, user: Id, newSession: Id, newToken: Id)
    requires RefreshOk(s, owned, r) && newSession !in s.sessions && newToken !in s.tokens
    ensures RefreshOk(Apply(s, Login(user, newSession, newToken)), owned + {newSession}, r)
  {
  }

  lemma LoginKeepsHolding(s: State, owned: set<Id>, mine: set<Refresh>, t: Option<Id>, user: Id, newSession: Id, newToken: Id)
    requires Holding(s, owned, mine, t) && newSession !in s.sessions && newToken !in s.tokens
    ensures Holding(Apply(s, Login(user, newSession, newToken)), owned + {newSession}, mine, t)
  {
    var s' := Apply(s, Login(user, newSession, newToken));
    if t.Some? && Used(s', t.value) {
      var m :| m in mine && m.presented == t && RotatedOnServer(s, m);
      assert RotatedOnServer(s', m);
    }
  }

  /** The new cookie is unused, and the token of a pending refresh is older. */
  lemma SignedInHolding(w: World, user: Id, newSession: Id, newToken: Id)
    requires RefreshesOk(w.server, w.client.sessions, Mine(w)) && newSession !in w.server.sessions && newToken !in w.server.tokens
    requires HoldingOk(w.server, w.client.sessions, Mine(w), w.client.cookie, w.client.refresh)
    ensures HoldingOk(Apply(w.server, Login(user, newSession, newToken)), w.client.sessions + {newSession}, Mine(w),
                      Some(newToken), w.client.refresh)
  {
    if w.client.refresh.Some? {
      var r := w.client.refresh.value;
      LoginKeepsHolding(w.server, w.client.sessions, Mine(w), r.presented, user, newSession, newToken);
      assert RefreshOk(w.server, w.client.sessions, r);
    }
  }

  lemma LoginKeepsAlone(s: State, owned: set<Id>, mine: set<Refresh>, user: Id, newSession: Id, newToken: Id)
    requires CallsOk(s) && Alone(s, owned, mine) && newSession !in s.sessions && newToken !in s.tokens
    ensures Alone(Apply(s, Login(user, newSession, newToken)), owned + {newSession}, mine)
  {
    forall call | call in s.calls ensures WorksOn(s.calls[call]) != Some(newSession) {
      assert CallOk(s, s.calls[call]);
    }
  }

  lemma LoginKeepsCalm(s: State, owned: set<Id>, logouts: set<Id>, lost: set<Refresh>, user: Id, newSession: Id, newToken: Id)
    requires Chains(s) && CallsOk(s) && Calm(s, owned, logouts, lost) && newSession !in s.sessions && newToken !in s.tokens
    ensures Calm(Apply(s, Login(user, newSession, newToken)), owned + {newSession}, logouts, lost)
  {
    var s' := Apply(s, Login(user, newSession, newToken));
    forall call | call in s.calls ensures s.calls[call] != MustRevoke(newSession) {
      assert CallOk(s, s.calls[call]);
    }
    forall x | x in owned + {newSession} && x !in logouts && !LostOf(s', lost, x) ensures Untouched(s', x) && NoRevocation(s', x) {
      if x != newSession {
        if LostOf(s, lost, x) { LostStays(s, Login(user, newSession, newToken), lost, x); }
        assert Untouched(s, x) && NoRevocation(s, x);
      }
    }
  }

  lemma SignedInRequests(c: Client, session: Id, token: Id, accessToken: Id)
    requires RequestsOk(c)
    ensures RequestsOk(OnSignedIn(c, session, token, accessToken))
  {
    var c' := OnSignedIn(c, session, token, accessToken);
    forall r | r in c'.requests ensures RequestOk(c', c'.requests[r]) {
      assert RequestOk(c, c.requests[r]);
    }
  }

  lemma SignInKeeps(w: World, user: Id, newSession: Id, newToken: Id, accessToken: Id)
    requires ClientInv(w)
    ensures ClientInv(Happen(w, SignIn(user, newSession, newToken, accessToken)))
  {
    if newSession !in w.server.sessions && newToken !in w.server.tokens {
      StepKeepsInv(w.server, Login(user, newSession, newToken));
      LoginKeepsRefreshes(w.server, w.client.sessions, Mine(w), user, newSession, newToken);
      SignedInHolding(w, user, newSession, newToken);
      SignedInRequests(w.client, newSession, newToken, accessToken);
      LoginKeepsAlone(w.server, w.client.sessions, Mine(w), user, newSession, newToken);
      LoginKeepsCalm(w.server, w.client.sessions, w.logouts, w.lost, user, newSession, newToken);
      assert Mine(Happen(w, SignIn(user, newSession, newToken, accessToken))) == Mine(w);
    }
  }

  lemma EventKeepsInv(w: World, e: Event)
    requires ClientInv(w)
    ensures ClientInv(Happen(w, e))
  {
    match e
    case Unauthorized(request, call) => UnauthorizedKeeps(w, request, call);
    case Bootstrap(call) => BootstrapKeeps(w, call);
    case Arrive(userActive) =>
      if w.client.refresh.Some? && w.client.refresh.value.call !in w.server.calls { ReceivedKeeps(w, w.client.refresh.value, userActive); }
    case Deliver(accessToken) => DeliverKeeps(w, accessToken);
    case Lose => LoseKeeps(w);
    case ArriveLate(refresh, userActive) =>
      if refresh in w.lost && refresh.call !in w.server.calls { ReceivedKeeps(w, refresh, userActive); }
    case SignIn(user, newSession, newToken, accessToken) => SignInKeeps(w, user, newSession, newToken, accessToken);
    case Server(step) => ServerKeepsInv(w, step);
    case Send(_, _) => SimpleEventKeeps(w, e);
    case Respond(_, _) => SimpleEventKeeps(w, e);
    case ClearCookie => SimpleEventKeeps(w, e);
  }

  lemma {:induction false} HappensKeepsInv(w: World, events: seq<Event>)
    requires ClientInv(w)
    ensures ClientInv(Happens(w, events))
    decreases |events|
  {
    if events != [] {
      HappensKeepsInv(w, events[..|events| - 1]);
      EventKeepsInv(Happens(w, events[..|events| - 1]), events[|events| - 1]);
    }
  }

  lemma PossibleInv(w: World)
    requires Possible(w)
    ensures ClientInv(w)
  {
    var config, now, events :| w == Happens(Start(config, now), events);
    HappensKeepsInv(Start(config, now), events);
  }

  // ----- End-to-end results

  /** The facts about the pending refresh that the results below rest on. */
  lemma PendingFacts(w: World)
    requires Possible(w) && w.client.refresh.Some?
    ensures var r := w.client.refresh.value;
            && Inv(w.server) && RefreshesOk(w.server, w.client.sessions, Mine(w))
            && Holding(w.server, w.client.sessions, Mine(w), r.presented)
  {
    PossibleInv(w);
  }

  lemma UsedIffLost(w: World)
    requires w.client.refresh.Some? && !RotatedOnServer(w.server, w.client.refresh.value)
    requires RefreshesOk(w.server, w.client.sessions, Mine(w)) && w.client.refresh.value.presented.Some?
    requires Holding(w.server, w.client.sessions, Mine(w), w.client.refresh.value.presented)
    ensures var t := w.client.refresh.value.presented.value;
            t in w.server.tokens && (Used(w.server, t) <==> Consumed(w.server, w.lost, t))
  {
    var t := w.client.refresh.value.presented.value;
    if Consumed(w.server, w.lost, t) {
      ConsumedIsUsed(w.server, w.client.sessions, Mine(w), w.lost, t);
    }
    if Used(w.server, t) {
      var m :| m in Mine(w) && m.presented == Some(t) && RotatedOnServer(w.server, m);
      assert m in w.lost;
    }
  }

  lemma ConsumedIsUsed(s: State, owned: set<Id>, mine: set<Refresh>, lost: set<Refresh>, t: Id)
    requires RefreshesOk(s, owned, mine) && lost <= mine && Consumed(s, lost, t)
    ensures Used(s, t)
  {
    var m :| m in lost && m.presented == Some(t) && RotatedOnServer(s, m);
    assert RefreshOk(s, owned, m);
  }

  /**
    In every run, with sign-ins and lost responses at any time: the token that the pending
    refresh presents has been used exactly when an earlier refresh of the client presented
    the same token, was carried out on the server, and its response was lost.
   */
  lemma PresentsUsedTokenIffLost(w: World)
    requires Possible(w) && w.client.refresh.Some? && w.client.refresh.value.presented.Some?
    requires !RotatedOnServer(w.server, w.client.refresh.value)
    ensures var t := w.client.refresh.value.presented.value;
            t in w.server.tokens && (Used(w.server, t) <==> Consumed(w.server, w.lost, t))
  {
    PendingFacts(w);
    UsedIffLost(w);
  }

  /** No lost refresh was sent with this cookie. */
  ghost predicate NoneLostWith(lost: set<Refresh>, t: Option<Id>) { t.Some? ==> forall l :: l in lost ==> l.presented != t }

  /**
    So as long as no response to the same cookie was lost, the single-flight client never
    presents a used token: neither when the pending refresh is loaded nor when it is checked
    does the server find the token used.
   */
  lemma ClientNeverPresentsUsedToken(w: World)
    requires Possible(w) && w.client.refresh.Some? && NoneLostWith(w.lost, w.client.refresh.value.presented)
    ensures var r := w.client.refresh.value;
            r.call !in w.server.calls && r.presented.Some? ==>
              r.presented.value in w.server.tokens && !Used(w.server, r.presented.value)
    ensures var r := w.client.refresh.value;
            r.call in w.server.calls && w.server.calls[r.call].Loaded? ==>
              !CheckLoaded(w.server.calls[r.call], w.server.now).MustRevoke?
  {
    var r := w.client.refresh.value;
    PendingFacts(w);
    assert RefreshOk(w.server, w.client.sessions, r);
    if r.presented.Some? && !RotatedOnServer(w.server, r) {
      UsedIffLost(w);
    }
    if r.call in w.server.calls {
      assert CallOk(w.server, w.server.calls[r.call]);
    }
  }

  /** And if one was lost after it had been carried out, the next refresh with that cookie ends with the session revoked for reuse. */
  lemma LostRotationRevokesSession(w: World, userActive: bool, steps: seq<Step>)
    requires Possible(w) && w.client.refresh.Some? && w.client.refresh.value.call !in w.server.calls
    requires w.client.refresh.value.presented.Some? && Consumed(w.server, w.lost, w.client.refresh.value.presented.value)
    ensures var r := w.client.refresh.value;
            && r.presented.value in w.server.tokens
            && ReuseHandled(Run(Happen(w, Arrive(userActive)).server, steps), r.call, w.server.tokens[r.presented.value].session)
  {
    var call, t := w.client.refresh.value.call, w.client.refresh.value.presented.value;
    PresentsUsedTokenIffLost(w);
    assert Inv(w.server) by { PendingFacts(w); }
    LoadedReuseRevokes(w.server, call, t, userActive, steps);
    ArriveLoads(w, t, userActive);
  }

  /** A call that was loaded with token tok under the number t, and has not been refused. */
  ghost predicate LoadedWith(s: State, call: Id, t: Id, tok: Token) {
    && call in s.calls
    && (s.calls[call].Loaded? ==> s.calls[call].tokenId == t && s.calls[call].token == tok)
    && (s.calls[call].Checked? ==> s.calls[call].tokenId == t && tok.revokedAt.None?)
  }

  lemma StepKeepsSnapshot(s: State, step: Step, call: Id, t: Id, tok: Token)
    requires LoadedWith(s, call, t, tok)
    ensures LoadedWith(Apply(s, step), call, t, tok)
  {
  }

  lemma EventKeepsSnapshot(w: World, e: Event, call: Id, t: Id, tok: Token)
    requires LoadedWith(w.server, call, t, tok)
    ensures LoadedWith(Happen(w, e).server, call, t, tok)
  {
    match e
    case Server(step) => StepKeepsSnapshot(w.server, step, call, t, tok);
    case SignIn(user, newSession, newToken, _) => StepKeepsSnapshot(w.server, Login(user, newSession, newToken), call, t, tok);
    case Arrive(userActive) =>
      if w.client.refresh.Some? { ReceivedKeepsSnapshot(w.server, w.client.refresh.value, userActive, call, t, tok); }
    case ArriveLate(refresh, userActive) => ReceivedKeepsSnapshot(w.server, refresh, userActive, call, t, tok);
    case _ => assert Happen(w, e).server == w.server;
  }

  lemma ReceivedKeepsSnapshot(s: State, r: Refresh, userActive: bool, call: Id, t: Id, tok: Token)
    requires LoadedWith(s, call, t, tok)
    ensures r.call !in s.calls ==> LoadedWith(Received(s, r, userActive), call, t, tok)
  {
  }

  lemma {:induction false} EventsKeepSnapshot(w: World, events: seq<Event>, call: Id, t: Id, tok: Token)
    requires LoadedWith(w.server, call, t, tok)
    ensures LoadedWith(Happens(w, events).server, call, t, tok)
    decreases |events|
  {
    if events != [] {
      EventsKeepSnapshot(w, events[..|events| - 1], call, t, tok);
      EventKeepsSnapshot(Happens(w, events[..|events| - 1]), events[|events| - 1], call, t, tok);
    }
  }

  /** A refresh that passed its check was loaded with an unrevoked token. */
  lemma CheckedWasUnrevoked(w: World, userActive: bool, events: seq<Event>)
    requires Possible(w) && w.client.refresh.Some? && w.client.refresh.value.call !in w.server.calls
    requires w.client.refresh.value.presented.Some?
    ensures var r, s' := w.client.refresh.value, Happens(Happen(w, Arrive(userActive)), events).server;
            && r.presented.value in w.server.tokens
            && (r.call in s'.calls && s'.calls[r.call].Checked? ==>
                  r.presented == Some(s'.calls[r.call].tokenId) && w.server.tokens[r.presented.value].revokedAt.None?)
  {
    var r := w.client.refresh.value;
    assert Chains(w.server) && RefreshOk(w.server, w.client.sessions, r) by { PendingFacts(w); }
    ArriveLoads(w, r.presented.value, userActive);
    EventsKeepSnapshot(Happen(w, Arrive(userActive)), events, r.call, r.presented.value, w.server.tokens[r.presented.value]);
  }

  lemma ArriveLoads(w: World, t: Id, userActive: bool)
    requires w.client.refresh.Some? && w.client.refresh.value.call !in w.server.calls && w.client.refresh.value.presented == Some(t)
    requires t in w.server.tokens && w.server.tokens[t].session in w.server.sessions
    ensures Happen(w, Arrive(userActive)).server == Apply(w.server, Load(w.client.refresh.value.call, t, userActive))
    ensures LoadedWith(Happen(w, Arrive(userActive)).server, w.client.refresh.value.call, t, w.server.tokens[t])
  {
  }

  /**
    The claim of the pending refresh ends in revocation exactly when its token was revoked
    after it had been loaded, or a lost refresh with the same token was carried out. Either
    way the token was unrevoked when it was loaded; after a revocation alone the alarm is a false one.
   */
  lemma ClaimFailsIffRevoked(w: World, userActive: bool, events: seq<Event>, replacement: Id)
    requires Possible(w) && w.client.refresh.Some? && w.client.refresh.value.call !in w.server.calls
    requires var w' := Happens(Happen(w, Arrive(userActive)), events);
             && w'.client.refresh == w.client.refresh && w.client.refresh.value.call in w'.server.calls
             && w'.server.calls[w.client.refresh.value.call].Checked? && replacement !in w'.server.tokens
    ensures var r, w' := w.client.refresh.value, Happens(Happen(w, Arrive(userActive)), events);
            && r.presented.Some? && r.presented.value in w.server.tokens && r.presented.value in w'.server.tokens
            && w.server.tokens[r.presented.value].revokedAt.None?
            && (Apply(w'.server, Claim(r.call, replacement)).calls[r.call].MustRevoke? <==>
                  w'.server.tokens[r.presented.value].revokedAt.Some? || Consumed(w'.server, w'.lost, r.presented.value))
  {
    var w' := Happens(Happen(w, Arrive(userActive)), events);
    StillPossible(w, Arrive(userActive), events);
    PendingFacts(w');
    assert RefreshOk(w'.server, w'.client.sessions, w.client.refresh.value);
    CheckedWasUnrevoked(w, userActive, events);
    UsedIffLost(w');
    ClaimNeedsUsable(w'.server, w.client.refresh.value.call, replacement);
  }

  lemma ClaimNeedsUsable(s: State, call: Id, replacement: Id)
    requires CallsOk(s) && call in s.calls && s.calls[call].Checked? && replacement !in s.tokens
    ensures var t := s.calls[call].tokenId;
            t in s.tokens && (Apply(s, Claim(call, replacement)).calls[call].MustRevoke? <==> s.tokens[t].revokedAt.Some? || Used(s, t))
  {
    assert CallOk(s, s.calls[call]);
  }

  lemma {:induction false} HappensJoins(w: World, front: seq<Event>, back: seq<Event>)
    ensures Happens(w, front + back) == Happens(Happens(w, front), back)
    decreases |back|
  {
    if back == [] {
      assert front + back == front;
    } else {
      HappensJoins(w, front, back[..|back| - 1]);
      assert (front + back)[..|front + back| - 1] == front + back[..|back| - 1];
    }
  }

  lemma StillPossible(w: World, e: Event, events: seq<Event>)
    requires Possible(w)
    ensures Possible(Happens(Happen(w, e), events))
  {
    var config, now, before :| w == Happens(Start(config, now), before);
    HappensJoins(Start(config, now), before, [e]);
    assert [e][..0] == [];
    assert Happens(w, [e]) == Happen(w, e);
    HappensJoins(Start(config, now), before + [e], events);
  }

  /** A session of the client that is never logged out and never loses a refresh is never named by a reuse alarm and keeps all its tokens unrevoked. */
  lemma NoAlarmWithoutLogout(w: World, session: Id)
    requires Possible(w) && session in w.client.sessions && session !in w.logouts && !LostOf(w.server, w.lost, session)
    ensures session !in w.server.alarms
    ensures forall t :: t in w.server.tokens && w.server.tokens[t].session == session ==> w.server.tokens[t].revokedAt.None?
  {
    PossibleInv(w);
    assert Untouched(w.server, session);
  }

  /** Each request is sent at most twice, and a request only waits while a refresh is pending. */
  lemma RetriedAtMostOnce(w: World, request: Id)
    requires Possible(w) && request in w.client.requests
    ensures 1 <= w.client.requests[request].sends <= 2
    ensures w.client.requests[request].phase.AwaitingRefresh? ==> w.client.refresh.Some?
    ensures w.client.requests[request].sends == 2 && IsPending(w, request) ==>
              forall call :: FreshCall(w, call) ==>
                Happen(w, Unauthorized(request, call)).client.requests[request].phase.Failed?
  {
    PossibleInv(w);
    assert RequestOk(w.client, w.client.requests[request]);
  }

  /** A first 401 of a request that is not exempt makes it wait, for the pending refresh or for a new one with the current cookie. */
  lemma FirstUnauthorizedWaits(w: World, request: Id, call: Id)
    requires IsPending(w, request) && FreshCall(w, call)
    requires !w.client.requests[request].retry && !w.client.requests[request].skipAuthRefresh
    ensures var c, c' := w.client, Happen(w, Unauthorized(request, call)).client;
            && c'.requests == c.requests[request := c.requests[request].(retry := true, phase := AwaitingRefresh)]
            && c'.refresh == (if c.refresh.Some? then c.refresh else Some(Refresh(call, c.cookie)))
            && c'.cookie == c.cookie && c'.accessToken == c.accessToken && c'.sessions == c.sessions
  {
  }

  /** A 401 of an exempt request, or a second one, just fails it. */
  lemma LastUnauthorizedFails(w: World, request: Id, call: Id)
    requires IsPending(w, request) && FreshCall(w, call)
    requires w.client.requests[request].retry || w.client.requests[request].skipAuthRefresh
    ensures Happen(w, Unauthorized(request, call)) ==
            w.(client := w.client.(requests := w.client.requests[request := w.client.requests[request].(phase := Failed)]))
  {
  }

  /** What becomes of a request when the refresh is over: a waiting one is sent again or fails, any other is left alone. */
  ghost predicate RequestAfter(r: Request, r': Request, refreshed: bool) {
    if !r.phase.AwaitingRefresh? then r' == r
    else if refreshed then r' == r.(phase := InFlight, sends := r.sends + 1)
    else r' == r.(phase := Failed)
  }

  /**
    What the client does when its refresh is over: a rotated token becomes the cookie, with the
    new access token, and every waiter is sent again; after a refusal every waiter fails, each
    reports the session as expired, and if there was one the access token is gone.
   */
  lemma DeliveryOutcome(w: World, accessToken: Id)
    requires w.client.refresh.Some? && w.client.refresh.value.call in w.server.calls
    ensures var c, c', call := w.client, Happen(w, Deliver(accessToken)).client, w.server.calls[w.client.refresh.value.call];
            var waiting := set r | r in c.requests && c.requests[r].phase.AwaitingRefresh?;
            && (call.Rotated? || call.Invalid? ==>
                  && c'.refresh.None? && c'.requests.Keys == c.requests.Keys && c'.sessions == c.sessions
                  && forall r :: r in c.requests ==> RequestAfter(c.requests[r], c'.requests[r], call.Rotated?))
            && (call.Rotated? ==> c'.cookie == Some(call.tokenId) && c'.accessToken == Some(accessToken) && c'.expiries == c.expiries)
            && (call.Invalid? ==>
                  && c'.cookie == c.cookie && c'.expiries == c.expiries + |waiting|
                  && c'.accessToken == (if waiting == {} then c.accessToken else None))
            && (!call.Rotated? && !call.Invalid? ==> c' == c)
  {
    assert Waiters(w.client.requests) == set r | r in w.client.requests && w.client.requests[r].phase.AwaitingRefresh?;
  }

  /** A sign-in replaces the cookie and the access token and leaves requests and a pending refresh alone. */
  lemma SignInOutcome(w: World, user: Id, session: Id, token: Id, accessToken: Id)
    requires session !in w.server.sessions && token !in w.server.tokens
    ensures Happen(w, SignIn(user, session, token, accessToken)).client ==
            w.client.(cookie := Some(token), accessToken := Some(accessToken), sessions := w.client.sessions + {session})
  {
  }

  /** Delivery of a finished refresh leaves no request waiting. */
  lemma DeliveryReleasesEveryWaiter(w: World, accessToken: Id)
    requires Possible(w) && w.client.refresh.Some? && w.client.refresh.value.call in w.server.calls
    requires WorksOn(w.server.calls[w.client.refresh.value.call]).None?
    ensures var c := Happen(w, Deliver(accessToken)).client;
            && c.refresh.None? && c.requests.Keys == w.client.requests.Keys
            && forall r :: r in c.requests ==> !c.requests[r].phase.AwaitingRefresh?
  {
  }
}
