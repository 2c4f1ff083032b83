/**
  Rotating refresh tokens on the server. A refresh call is four separate steps (load the
  token, check it, claim and replace it in one transaction, revoke on reuse), so any
  number of refresh calls, logins and logouts may interleave. Each database transaction
  is one step.
 */
module RefreshSessions {
  import opened Options

  type Id = nat

  datatype Token = Token(session: Id, parent: Option<Id>, expiresAt: int, usedAt: Option<int>, revokedAt: Option<int>)

  datatype RevokedReason = LOGOUT | REFRESH_TOKEN_REUSE

  datatype Session = Session(user: Id, createdAt: int, absoluteExpiresAt: int, idleExpiresAt: int, revoked: Option<(int, RevokedReason)>)

  /** Where a refresh call stands between two of its steps. */
  datatype Call =
    | Loaded(tokenId: Id, token: Token, session: Session, userActive: bool)
    | Checked(tokenId: Id, sessionId: Id, absoluteExpiresAt: int, at: int)
    | MustRevoke(sessionId: Id)
    | Rotated(tokenId: Id)
    | Invalid

  /** One successful rotation: who presented which token, when, and what replaced it. */
  datatype Grant = Grant(call: Id, presented: Id, replacement: Id, at: int)

  /** Lifetimes in milliseconds. */
  datatype Config = Config(sessionLifetime: nat, idleTimeout: nat)

  datatype State = State(
    config: Config, now: int,
    sessions: map<Id, Session>, tokens: map<Id, Token>, calls: map<Id, Call>,
    issued: seq<Grant>, alarms: seq<Id>)

  datatype Step =
    | Tick(elapsed: nat)
    | Login(user: Id, newSession: Id, newToken: Id)
    | Load(call: Id, presented: Id, userActive: bool)
    | Check(call: Id)
    | Claim(call: Id, replacement: Id)
    | Revoke(call: Id)
    | Logout(session: Id, user: Id)

  function IdleExpiry(config: Config, now: int, absolute: int): (r: int)
    ensures r <= absolute
  {
    var idle := now + config.idleTimeout;
    if idle < absolute then idle else absolute
  }

  /** Every unrevoked token of the session is revoked now, and no other token changes. */
  function RevokeAll(tokens: map<Id, Token>, session: Id, now: int): (r: map<Id, Token>)
    ensures r.Keys == tokens.Keys
  {
    map t | t in tokens :: if tokens[t].session == session && tokens[t].revokedAt.None?
                           then tokens[t].(revokedAt := Some(now)) else tokens[t]
  }

  function RevokeSession(sessions: map<Id, Session>, session: Id, now: int, reason: RevokedReason): (r: map<Id, Session>)
    ensures r.Keys == sessions.Keys
  {
    if session in sessions && sessions[session].revoked.None?
    then sessions[session := sessions[session].(revoked := Some((now, reason)))]
    else sessions
  }

  /** The verdict on a loaded token at time now. */
  function CheckLoaded(c: Call, now: int): Call
    requires c.Loaded?
  {
    if c.token.usedAt.Some? then MustRevoke(c.token.session)
    else if c.token.revokedAt.Some? || c.token.expiresAt <= now || c.session.revoked.Some?
            || c.session.absoluteExpiresAt <= now || c.session.idleExpiresAt <= now || !c.userActive then Invalid
    else Checked(c.tokenId, c.token.session, c.session.absoluteExpiresAt, now)
  }

  predicate Claimable(s: State, tokenId: Id) {
    tokenId in s.tokens && s.tokens[tokenId].usedAt.None? && s.tokens[tokenId].revokedAt.None?
  }

  function ClaimToken(s: State, call: Id, c: Call, replacement: Id): State
    requires c.Checked?
  {
    if Claimable(s, c.tokenId) && c.sessionId in s.sessions then
      s.(tokens := s.tokens[c.tokenId := s.tokens[c.tokenId].(usedAt := Some(c.at))]
                           [replacement := Token(c.sessionId, Some(c.tokenId), c.absoluteExpiresAt, None, None)],
         sessions := s.sessions[c.sessionId := s.sessions[c.sessionId].(idleExpiresAt := IdleExpiry(s.config, c.at, c.absoluteExpiresAt))],
         calls := s.calls[call := Rotated(replacement)],
         issued := s.issued + [Grant(call, c.tokenId, replacement, c.at)])
    else s.(calls := s.calls[call := MustRevoke(c.sessionId)])
  }

  /** The state after a step; a step that cannot happen here leaves the state alone. */
  function Apply(s: State, step: Step): State {
    match step
    case Tick(elapsed) => s.(now := s.now + elapsed)
    case Login(user, newSession, newToken) =>
      if newSession in s.sessions || newToken in s.tokens then s else
      var absolute := s.now + s.config.sessionLifetime;
      s.(sessions := s.sessions[newSession := Session(user, s.now, absolute, IdleExpiry(s.config, s.now, absolute), None)],
         tokens := s.tokens[newToken := Token(newSession, None, absolute, None, None)])
    case Load(call, presented, userActive) =>
      if call in s.calls then s
      else if presented in s.tokens && s.tokens[presented].session in s.sessions then
        var token := s.tokens[presented];
        s.(calls := s.calls[call := Loaded(presented, token, s.sessions[token.session], userActive)])
      else s.(calls := s.calls[call := Invalid])
    case Check(call) =>
      if call in s.calls && s.calls[call].Loaded?
      then s.(calls := s.calls[call := CheckLoaded(s.calls[call], s.now)]) else s
    case Claim(call, replacement) =>
      if call in s.calls && s.calls[call].Checked? && replacement !in s.tokens
      then ClaimToken(s, call, s.calls[call], replacement) else s
    case Revoke(call) =>
      if call in s.calls && s.calls[call].MustRevoke? then
        var session := s.calls[call].sessionId;
        s.(sessions := RevokeSession(s.sessions, session, s.now, REFRESH_TOKEN_REUSE),
           tokens := RevokeAll(s.tokens, session, s.now),
           calls := s.calls[call := Invalid],
           alarms := s.alarms + [session])
      else s
    case Logout(session, user) =>
      s.(sessions := if session in s.sessions && s.sessions[session].user == user
                     then RevokeSession(s.sessions, session, s.now, LOGOUT) else s.sessions,
         tokens := RevokeAll(s.tokens, session, s.now))
  }

  function Run(s: State, steps: seq<Step>): State {
    if steps == [] then s else Apply(Run(s, steps[..|steps| - 1]), steps[|steps| - 1])
  }

  function Initial(config: Config, now: int): State {
    State(config, now, map[], map[], map[], [], [])
  }

  ghost predicate Reachable(s: State) {
    exists config, now, steps :: s == Run(Initial(config, now), steps)
  }

  // ----- The store that the steps are carried out on

  class AuthStore {
    const config: Config
    var now: int
    var sessions: map<Id, Session>
    var tokens: map<Id, Token>
    var calls: map<Id, Call>
    var alarms: seq<Id>
    ghost var issued: seq<Grant>

    ghost function Contents(): State
      reads this
    {
      State(config, now, sessions, tokens, calls, issued, alarms)
    }

    constructor (config: Config, now: int)
      ensures Contents() == Initial(config, now)
    {
      this.config := config;
      this.now := now;
      sessions, tokens, calls, alarms, issued := map[], map[], map[], [], [];
    }

    method Login(user: Id, newSession: Id, newToken: Id)
      requires newSession !in sessions && newToken !in tokens
      modifies this`sessions, this`tokens
      ensures Contents() == Apply(old(Contents()), Step.Login(user, newSession, newToken))
    {
      var absoluteExpiresAt := now + config.sessionLifetime;
      var idleExpiresAt := IdleExpiry(config, now, absoluteExpiresAt);
      sessions := sessions[newSession := Session(user, now, absoluteExpiresAt, idleExpiresAt, None)];
      tokens := tokens[newToken := Token(newSession, None, absoluteExpiresAt, None, None)];
    }

    /** First database read of refresh. */
    method LoadToken(call: Id, presented: Id, userActive: bool)
      requires call !in calls && forall t :: t in tokens ==> tokens[t].session in sessions
      modifies this`calls
      ensures Contents() == Apply(old(Contents()), Load(call, presented, userActive))
    {
      if presented !in tokens {
        calls := calls[call := Invalid];
        return;
      }
      var token := tokens[presented];
      calls := calls[call := Loaded(presented, token, sessions[token.session], userActive)];
    }

    method CheckToken(call: Id)
      requires call in calls && calls[call].Loaded?
      modifies this`calls
      ensures Contents() == Apply(old(Contents()), Check(call))
    {
      var c := calls[call];
      if c.token.usedAt.Some? {
        calls := calls[call := MustRevoke(c.token.session)];
        return;
      }
      if c.token.revokedAt.Some? || c.token.expiresAt <= now || c.session.revoked.Some?
         || c.session.absoluteExpiresAt <= now || c.session.idleExpiresAt <= now || !c.userActive {
        calls := calls[call := Invalid];
        return;
      }
      calls := calls[call := Checked(c.tokenId, c.token.session, c.session.absoluteExpiresAt, now)];
    }

    /** The rotation transaction: claim the token if it is still unused and unrevoked, then replace it. */
    method ClaimAndReplace(call: Id, replacement: Id)
      requires call in calls && calls[call].Checked? && replacement !in tokens
      requires calls[call].sessionId in sessions
      modifies this`sessions, this`tokens, this`calls, this`issued
      ensures Contents() == Apply(old(Contents()), Claim(call, replacement))
    {
      var c := calls[call];
      if c.tokenId !in tokens || tokens[c.tokenId].usedAt.Some? || tokens[c.tokenId].revokedAt.Some? {
        calls := calls[call := MustRevoke(c.sessionId)];
        return;
      }
      tokens := tokens[c.tokenId := tokens[c.tokenId].(usedAt := Some(c.at))];
      tokens := tokens[replacement := Token(c.sessionId, Some(c.tokenId), c.absoluteExpiresAt, None, None)];
      var idleExpiresAt := IdleExpiry(config, c.at, c.absoluteExpiresAt);
      sessions := sessions[c.sessionId := sessions[c.sessionId].(idleExpiresAt := idleExpiresAt)];
      issued := issued + [Grant(call, c.tokenId, replacement, c.at)];
      calls := calls[call := Rotated(replacement)];
    }

    method RevokeForReuse(call: Id)
      requires call in calls && calls[call].MustRevoke?
      modifies this`sessions, this`tokens, this`calls, this`alarms
      ensures Contents() == Apply(old(Contents()), Revoke(call))
    {
      var session := calls[call].sessionId;
      sessions := RevokeSession(sessions, session, now, REFRESH_TOKEN_REUSE);
      tokens := RevokeAll(tokens, session, now);
      alarms := alarms + [session];
      calls := calls[call := Invalid];
    }

    method Logout(session: Id, user: Id)
      modifies this`sessions, this`tokens
      ensures Contents() == Apply(old(Contents()), Step.Logout(session, user))
    {
      if session in sessions && sessions[session].user == user {
        sessions := RevokeSession(sessions, session, now, LOGOUT);
      }
      tokens := RevokeAll(tokens, session, now);
    }
  }

  // ----- Linear chains

  /** The tokens of a session, in order, form one line: only the last one is unused. */
  ghost predicate IsChain(tokens: map<Id, Token>, session: Id, chain: seq<Id>) {
    && chain != []
    && (forall t :: t in chain <==> t in tokens && tokens[t].session == session)
    && (forall m, n :: 0 <= m < n < |chain| ==> chain[m] != chain[n])
    && (forall k :: 0 <= k < |chain| ==> Link(tokens, chain, k))
  }

  /** The token at position k of a chain: its parent is the one before it, and it is used unless it is last. */
  ghost predicate Link(tokens: map<Id, Token>, chain: seq<Id>, k: nat)
    requires k < |chain|
  {
    && chain[k] in tokens
    && tokens[chain[k]].parent == (if k == 0 then None else Some(chain[k - 1]))
    && (tokens[chain[k]].usedAt.Some? <==> k < |chain| - 1)
  }

  ghost predicate Linear(tokens: map<Id, Token>, session: Id) {
    exists chain :: IsChain(tokens, session, chain)
  }

  ghost predicate Chains(s: State) {
    && (forall t :: t in s.tokens ==> s.tokens[t].session in s.sessions)
    && (forall session :: session in s.sessions ==> Linear(s.tokens, session))
  }

  ghost predicate CallOk(s: State, c: Call) {
    match c
    case Loaded(t, token, session, _) =>
      && t in s.tokens && token.session == s.tokens[t].session && token.session in s.sessions
      && session.absoluteExpiresAt == s.sessions[token.session].absoluteExpiresAt
      && session.idleExpiresAt <= s.sessions[token.session].idleExpiresAt
      && (token.usedAt.Some? ==> s.tokens[t].usedAt.Some?)
    case Checked(t, session, absolute, at) =>
      && t in s.tokens && s.tokens[t].session == session && session in s.sessions
      && absolute == s.sessions[session].absoluteExpiresAt && at < absolute && at <= s.now
      && (s.tokens[t].usedAt.None? ==> s.sessions[session].idleExpiresAt <= IdleExpiry(s.config, at, absolute))
    case MustRevoke(session) => session in s.sessions
    case Rotated(t) => t in s.tokens
    case Invalid => true
  }

  ghost predicate CallsOk(s: State) { forall c :: c in s.calls ==> CallOk(s, s.calls[c]) }

  /** A revoked session has only revoked tokens. */
  ghost predicate RevokedTogether(s: State) {
    forall t :: t in s.tokens && s.tokens[t].session in s.sessions && s.sessions[s.tokens[t].session].revoked.Some?
                ==> s.tokens[t].revokedAt.Some?
  }

  /** Token lifetimes equal the session's absolute expiry, which bounds the idle expiry. */
  ghost predicate Expiries(s: State) {
    && (forall t :: t in s.tokens && s.tokens[t].session in s.sessions
                    ==> s.tokens[t].expiresAt == s.sessions[s.tokens[t].session].absoluteExpiresAt)
    && (forall x :: x in s.sessions
                    ==> s.sessions[x].idleExpiresAt <= IdleExpiry(s.config, s.now, s.sessions[x].absoluteExpiresAt))
  }

  ghost predicate GrantOk(s: State, g: Grant) {
    && g.presented in s.tokens && g.replacement in s.tokens
    && s.tokens[g.replacement].parent == Some(g.presented)
    && s.tokens[g.presented].usedAt == Some(g.at)
    && s.tokens[g.presented].session in s.sessions
    && g.at < s.sessions[s.tokens[g.presented].session].absoluteExpiresAt
  }

  ghost predicate GrantFor(s: State, t: Id) { exists g :: g in s.issued && g.presented == t }

  /** The log of rotations: one entry for each used token. */
  ghost predicate Grants(s: State) {
    && (forall g :: g in s.issued ==> GrantOk(s, g))
    && (forall m, n :: 0 <= m < n < |s.issued| ==> s.issued[m].presented != s.issued[n].presented)
    && (forall t :: t in s.tokens && s.tokens[t].usedAt.Some? ==> GrantFor(s, t))
  }

  ghost predicate Inv(s: State) {
    Chains(s) && CallsOk(s) && RevokedTogether(s) && Expiries(s) && Grants(s)
  }

  // ----- Every step keeps the invariant

  /** A change that leaves sessions, parents and uses alone keeps a chain. */
  lemma ChainKept(before: map<Id, Token>, after: map<Id, Token>, session: Id)
    requires Linear(before, session)
    requires forall t :: t in after && after[t].session == session <==> t in before && before[t].session == session
    requires forall t :: t in before && before[t].session == session
                         ==> after[t].parent == before[t].parent && after[t].usedAt == before[t].usedAt
    ensures Linear(after, session)
  {
    var chain :| IsChain(before, session, chain);
    forall k | 0 <= k < |chain| ensures Link(after, chain, k) {
      assert Link(before, chain, k) && chain[k] in chain;
    }
    assert IsChain(after, session, chain);
  }

  /** Claiming the last token and adding its child extends the chain by one. */
  lemma ChainExtended(before: map<Id, Token>, after: map<Id, Token>, session: Id, last: Id, child: Id)
    requires Linear(before, session)
    requires last in before && before[last].session == session && before[last].usedAt.None? && child !in before
    requires after.Keys == before.Keys + {child}
    requires forall t :: t in before ==> after[t].session == before[t].session && after[t].parent == before[t].parent
    requires forall t :: t in before && t != last ==> after[t].usedAt == before[t].usedAt
    requires after[last].usedAt.Some?
    requires after[child].session == session && after[child].parent == Some(last) && after[child].usedAt.None?
    ensures Linear(after, session)
  {
    var chain :| IsChain(before, session, chain);
    var n, longer := |chain|, chain + [child];
    LastIsUnused(before, session, chain, last);
    forall t ensures t in longer <==> t in after && after[t].session == session {
      assert t in longer <==> t in chain || t == child;
    }
    forall k | 0 <= k < |longer| ensures Link(after, longer, k) {
      if k < n {
        assert Link(before, chain, k) && chain[k] in chain;
      }
    }
    assert IsChain(after, session, longer);
  }

  lemma LastIsUnused(tokens: map<Id, Token>, session: Id, chain: seq<Id>, t: Id)
    requires IsChain(tokens, session, chain) && t in tokens && tokens[t].session == session
    ensures tokens[t].usedAt.None? <==> t == chain[|chain| - 1]
  {
    assert t in chain;
    var k :| 0 <= k < |chain| && chain[k] == t;
    assert Link(tokens, chain, k);
    assert Link(tokens, chain, |chain| - 1);
  }

  /** A change that uses no token and leaves calls, rotations and existing lifetimes alone. */
  ghost predicate Quiet(s: State, s': State) {
    && s'.config == s.config && s.now <= s'.now && s'.calls == s.calls && s'.issued == s.issued
    && (forall x :: x in s.sessions ==> x in s'.sessions && SameLifetime(s.sessions[x], s'.sessions[x]))
    && (forall t :: t in s.tokens ==> t in s'.tokens && SameUse(s.tokens[t], s'.tokens[t]))
    && (forall t :: t in s'.tokens && t !in s.tokens ==> s'.tokens[t].usedAt.None?)
  }

  predicate SameLifetime(x: Session, x': Session) {
    x'.absoluteExpiresAt == x.absoluteExpiresAt && x'.idleExpiresAt == x.idleExpiresAt
  }

  predicate SameUse(t: Token, t': Token) {
    t'.session == t.session && t'.parent == t.parent && t'.expiresAt == t.expiresAt && t'.usedAt == t.usedAt
  }

  lemma QuietKeeps(s: State, s': State)
    requires CallsOk(s) && Grants(s) && Quiet(s, s')
    ensures CallsOk(s') && Grants(s')
  {
  }

  lemma TickKeeps(s: State, elapsed: nat)
    requires Inv(s)
    ensures Inv(Apply(s, Tick(elapsed)))
  {
  }

  lemma LoginKeepsChains(s: State, s': State, newSession: Id, newToken: Id, x: Session, t: Token)
    requires Chains(s) && newSession !in s.sessions && newToken !in s.tokens
    requires t.session == newSession && t.parent.None? && t.usedAt.None?
    requires s'.sessions == s.sessions[newSession := x] && s'.tokens == s.tokens[newToken := t]
    ensures Chains(s')
  {
    forall y | y in s'.sessions ensures Linear(s'.tokens, y) {
      if y == newSession {
        assert Link(s'.tokens, [newToken], 0);
        assert IsChain(s'.tokens, y, [newToken]);
      } else {
        ChainKept(s.tokens, s'.tokens, y);
      }
    }
  }

  lemma LoginKeeps(s: State, user: Id, newSession: Id, newToken: Id)
    requires Inv(s)
    ensures Inv(Apply(s, Step.Login(user, newSession, newToken)))
  {
    if newSession !in s.sessions && newToken !in s.tokens {
      var s' := Apply(s, Step.Login(user, newSession, newToken));
      var x, t := s'.sessions[newSession], s'.tokens[newToken];
      LoginKeepsChains(s, s', newSession, newToken, x, t);
      LoginKeepsRest(s, s', newSession, newToken, x, t);
    }
  }

  lemma LoginKeepsRest(s: State, s': State, newSession: Id, newToken: Id, x: Session, t: Token)
    requires Inv(s) && newSession !in s.sessions && newToken !in s.tokens
    requires s' == s.(sessions := s.sessions[newSession := x], tokens := s.tokens[newToken := t])
    requires t == Token(newSession, None, x.absoluteExpiresAt, None, None) && x.revoked.None?
    requires x.idleExpiresAt <= IdleExpiry(s.config, s.now, x.absoluteExpiresAt)
    ensures CallsOk(s') && Grants(s') && RevokedTogether(s') && Expiries(s')
  {
    assert Quiet(s, s');
    QuietKeeps(s, s');
  }

  /** Changing only the state of one call. */
  lemma CallKeeps(s: State, call: Id, c: Call)
    requires Inv(s) && CallOk(s, c)
    ensures Inv(s.(calls := s.calls[call := c]))
  {
  }

  lemma LoadKeeps(s: State, call: Id, presented: Id, userActive: bool)
    requires Inv(s)
    ensures Inv(Apply(s, Load(call, presented, userActive)))
  {
    if call !in s.calls {
      if presented in s.tokens && s.tokens[presented].session in s.sessions {
        var token := s.tokens[presented];
        CallKeeps(s, call, Loaded(presented, token, s.sessions[token.session], userActive));
      } else {
        CallKeeps(s, call, Invalid);
      }
    }
  }

  lemma CheckedIsOk(s: State, c: Call)
    requires Expiries(s) && CallOk(s, c) && c.Loaded?
    ensures CallOk(s, CheckLoaded(c, s.now))
  {
  }

  lemma CheckKeeps(s: State, call: Id)
    requires Inv(s)
    ensures Inv(Apply(s, Check(call)))
  {
    if call in s.calls && s.calls[call].Loaded? {
      CheckedIsOk(s, s.calls[call]);
      CallKeeps(s, call, CheckLoaded(s.calls[call], s.now));
    }
  }

  lemma RevokedTokens(tokens: map<Id, Token>, session: Id, now: int, t: Id)
    requires t in tokens
    ensures SameUse(tokens[t], RevokeAll(tokens, session, now)[t])
    ensures tokens[t].revokedAt.Some? || tokens[t].session == session ==> RevokeAll(tokens, session, now)[t].revokedAt.Some?
  {
  }

  /** Revocation touches neither parents, uses nor expiries. */
  lemma RevocationKeeps(s: State, s': State, session: Id)
    requires Inv(s) && s'.config == s.config && s'.now == s.now && s'.issued == s.issued && s'.calls == s.calls
    requires s'.sessions.Keys == s.sessions.Keys && s'.tokens == RevokeAll(s.tokens, session, s.now)
    requires forall x :: x in s.sessions ==> SameLifetime(s.sessions[x], s'.sessions[x])
    requires forall x :: x in s.sessions && x != session ==> s'.sessions[x] == s.sessions[x]
    ensures Inv(s')
  {
    forall t | t in s.tokens ensures SameUse(s.tokens[t], s'.tokens[t]) {
      RevokedTokens(s.tokens, session, s.now, t);
    }
    RevocationKeepsChains(s, s');
    QuietKeeps(s, s');
    forall t | t in s'.tokens && s'.sessions[s'.tokens[t].session].revoked.Some? ensures s'.tokens[t].revokedAt.Some? {
      RevokedTokens(s.tokens, session, s.now, t);
    }
  }

  lemma RevocationKeepsChains(s: State, s': State)
    requires Chains(s) && s'.tokens.Keys == s.tokens.Keys && s'.sessions.Keys == s.sessions.Keys
    requires forall t :: t in s.tokens ==> SameUse(s.tokens[t], s'.tokens[t])
    ensures Chains(s')
  {
    forall x | x in s'.sessions ensures Linear(s'.tokens, x) {
      ChainKept(s.tokens, s'.tokens, x);
    }
  }

  lemma LogoutKeeps(s: State, session: Id, user: Id)
    requires Inv(s)
    ensures Inv(Apply(s, Step.Logout(session, user)))
  {
    RevocationKeeps(s, Apply(s, Step.Logout(session, user)), session);
  }

  lemma RevokeKeeps(s: State, call: Id)
    requires Inv(s)
    ensures Inv(Apply(s, Revoke(call)))
  {
    if call in s.calls && s.calls[call].MustRevoke? {
      var session := s.calls[call].sessionId;
      var s1 := s.(sessions := RevokeSession(s.sessions, session, s.now, REFRESH_TOKEN_REUSE),
                   tokens := RevokeAll(s.tokens, session, s.now));
      RevocationKeeps(s, s1, session);
      var s2 := s1.(alarms := s.alarms + [session]);
      RevocationKeepsAlarm(s1, s2);
      CallKeeps(s2, call, Invalid);
    }
  }

  lemma RevocationKeepsAlarm(s: State, s': State)
    requires Inv(s) && s' == s.(alarms := s'.alarms)
    ensures Inv(s')
  {
  }

  // ----- Claiming

  /** What a successful claim writes. */
  ghost predicate Claimed(s: State, s': State, call: Id, c: Call, child: Id) {
    && c.Checked? && CallOk(s, c) && Claimable(s, c.tokenId) && child !in s.tokens
    && s'.config == s.config && s'.now == s.now
    && s'.tokens.Keys == s.tokens.Keys + {child}
    && (forall t :: t in s.tokens && t != c.tokenId ==> s'.tokens[t] == s.tokens[t])
    && s'.tokens[c.tokenId] == s.tokens[c.tokenId].(usedAt := Some(c.at))
    && s'.tokens[child] == Token(c.sessionId, Some(c.tokenId), c.absoluteExpiresAt, None, None)
    && s'.sessions.Keys == s.sessions.Keys
    && (forall x :: x in s.sessions && x != c.sessionId ==> s'.sessions[x] == s.sessions[x])
    && s'.sessions[c.sessionId] == s.sessions[c.sessionId].(idleExpiresAt := IdleExpiry(s.config, c.at, c.absoluteExpiresAt))
    && s'.calls == s.calls[call := Rotated(child)]
    && s'.issued == s.issued + [Grant(call, c.tokenId, child, c.at)]
  }

  lemma ClaimedKeepsChains(s: State, s': State, call: Id, c: Call, child: Id)
    requires Chains(s) && Claimed(s, s', call, c, child)
    ensures Chains(s')
  {
    forall t | t in s'.tokens ensures s'.tokens[t].session in s'.sessions {
      if t != child { assert s'.tokens[t].session == s.tokens[t].session; }
    }
    forall x | x in s'.sessions ensures Linear(s'.tokens, x) {
      ClaimedKeepsChain(s, s', call, c, child, x);
    }
  }

  lemma ClaimedKeepsChain(s: State, s': State, call: Id, c: Call, child: Id, x: Id)
    requires Claimed(s, s', call, c, child) && Linear(s.tokens, x)
    ensures Linear(s'.tokens, x)
  {
    if x == c.sessionId {
      ChainExtended(s.tokens, s'.tokens, x, c.tokenId, child);
    } else {
      ChainKept(s.tokens, s'.tokens, x);
    }
  }

  lemma OneUnused(tokens: map<Id, Token>, session: Id, t: Id, u: Id)
    requires Linear(tokens, session)
    requires t in tokens && tokens[t].session == session && tokens[t].usedAt.None?
    requires u in tokens && tokens[u].session == session
    ensures tokens[u].usedAt.None? <==> u == t
  {
    var chain :| IsChain(tokens, session, chain);
    LastIsUnused(tokens, session, chain, t);
    LastIsUnused(tokens, session, chain, u);
  }

  lemma ClaimedKeepsCall(s: State, s': State, call: Id, c: Call, child: Id, d: Call)
    requires Chains(s) && Claimed(s, s', call, c, child) && CallOk(s, d)
    ensures CallOk(s', d)
  {
    if d.Checked? && d.sessionId == c.sessionId {
      OneUnused(s.tokens, c.sessionId, c.tokenId, d.tokenId);
    }
  }

  lemma ClaimedKeepsCalls(s: State, s': State, call: Id, c: Call, child: Id)
    requires Chains(s) && CallsOk(s) && Claimed(s, s', call, c, child)
    ensures CallsOk(s')
  {
    forall d | d in s'.calls ensures CallOk(s', s'.calls[d]) {
      if d != call {
        ClaimedKeepsCall(s, s', call, c, child, s.calls[d]);
      }
    }
  }

  lemma ClaimedKeepsGrants(s: State, s': State, call: Id, c: Call, child: Id)
    requires Grants(s) && Claimed(s, s', call, c, child)
    ensures Grants(s')
  {
    var added := Grant(call, c.tokenId, child, c.at);
    forall g | g in s'.issued ensures GrantOk(s', g) {
      if g != added {
        assert GrantOk(s, g);
      }
    }
    forall m, n | 0 <= m < n < |s'.issued| ensures s'.issued[m].presented != s'.issued[n].presented {
      assert s.issued[m] in s.issued && GrantOk(s, s.issued[m]);
    }
    forall t | t in s'.tokens && s'.tokens[t].usedAt.Some? ensures GrantFor(s', t) {
      if t == c.tokenId {
        assert s'.issued[|s.issued|] == added;
      } else {
        assert GrantFor(s, t);
        var g :| g in s.issued && g.presented == t;
        assert g in s'.issued;
      }
    }
  }

  lemma ClaimedKeeps(s: State, s': State, call: Id, c: Call, child: Id)
    requires Inv(s) && Claimed(s, s', call, c, child)
    ensures Inv(s')
  {
    ClaimedKeepsChains(s, s', call, c, child);
    ClaimedKeepsCalls(s, s', call, c, child);
    ClaimedKeepsGrants(s, s', call, c, child);
    ClaimedKeepsRevoked(s, s', call, c, child);
    ClaimedKeepsExpiries(s, s', call, c, child);
  }

  /** An unrevoked token is only found in an unrevoked session, so the child starts unrevoked in one. */
  lemma ClaimedKeepsRevoked(s: State, s': State, call: Id, c: Call, child: Id)
    requires RevokedTogether(s) && Claimed(s, s', call, c, child)
    ensures RevokedTogether(s')
  {
  }

  lemma ClaimedKeepsExpiries(s: State, s': State, call: Id, c: Call, child: Id)
    requires Expiries(s) && Claimed(s, s', call, c, child)
    ensures Expiries(s')
  {
  }

  lemma ClaimKeeps(s: State, call: Id, replacement: Id)
    requires Inv(s)
    ensures Inv(Apply(s, Claim(call, replacement)))
  {
    if call in s.calls && s.calls[call].Checked? && replacement !in s.tokens {
      var c := s.calls[call];
      assert CallOk(s, c);
      if Claimable(s, c.tokenId) {
        ClaimedKeeps(s, ClaimToken(s, call, c, replacement), call, c, replacement);
      } else {
        CallKeeps(s, call, MustRevoke(c.sessionId));
      }
    }
  }

  lemma StepKeepsInv(s: State, step: Step)
    requires Inv(s)
    ensures Inv(Apply(s, step))
  {
    match step
    case Tick(elapsed) => TickKeeps(s, elapsed);
    case Login(user, newSession, newToken) => LoginKeeps(s, user, newSession, newToken);
    case Load(call, presented, userActive) => LoadKeeps(s, call, presented, userActive);
    case Check(call) => CheckKeeps(s, call);
    case Claim(call, replacement) => ClaimKeeps(s, call, replacement);
    case Revoke(call) => RevokeKeeps(s, call);
    case Logout(session, user) => LogoutKeeps(s, session, user);
  }

  lemma {:induction false} RunKeepsInv(s: State, steps: seq<Step>)
    requires Inv(s)
    ensures Inv(Run(s, steps))
    decreases |steps|
  {
    if steps != [] {
      RunKeepsInv(s, steps[..|steps| - 1]);
      StepKeepsInv(Run(s, steps[..|steps| - 1]), steps[|steps| - 1]);
    }
  }

  lemma ReachableInv(s: State)
    requires Reachable(s)
    ensures Inv(s)
  {
    var config, now, steps :| s == Run(Initial(config, now), steps);
    RunKeepsInv(Initial(config, now), steps);
  }

  // ----- What holds in every reachable state

  function Children(tokens: map<Id, Token>, t: Id): set<Id> {
    set u | u in tokens && tokens[u].parent == Some(t)
  }

  function Unused(tokens: map<Id, Token>, session: Id): set<Id> {
    set t | t in tokens && tokens[t].session == session && tokens[t].usedAt.None?
  }

  /**
    Each session's tokens form one parent chain; exactly one of them is unused, and a
    token is used exactly when it has one child, and otherwise has none.
   */
  lemma TokensFormOneChain(s: State, session: Id)
    requires Reachable(s) && session in s.sessions
    ensures Linear(s.tokens, session)
    ensures |Unused(s.tokens, session)| == 1
    ensures forall t :: t in s.tokens && s.tokens[t].session == session
                        ==> |Children(s.tokens, t)| == if s.tokens[t].usedAt.Some? then 1 else 0
  {
    ReachableInv(s);
    var chain :| IsChain(s.tokens, session, chain);
    var last := chain[|chain| - 1];
    assert last in chain;
    forall t ensures t in Unused(s.tokens, session) <==> t == last {
      if t in s.tokens && s.tokens[t].session == session { LastIsUnused(s.tokens, session, chain, t); }
    }
    assert Unused(s.tokens, session) == {last};
    forall t | t in s.tokens && s.tokens[t].session == session
      ensures |Children(s.tokens, t)| == if s.tokens[t].usedAt.Some? then 1 else 0
    {
      assert t in chain;
      var k :| 0 <= k < |chain| && chain[k] == t;
      assert Link(s.tokens, chain, k);
      ChildrenAlongChain(s, session, chain, k);
    }
  }

  /** The parent of a token that has one sits just before it in the session's chain. */
  lemma ParentInChain(tokens: map<Id, Token>, session: Id, chain: seq<Id>, u: Id, p: Id) returns (l: nat)
    requires IsChain(tokens, session, chain) && u in tokens && tokens[u].session == session && tokens[u].parent == Some(p)
    ensures 0 < l < |chain| && chain[l] == u && chain[l - 1] == p && p in tokens && tokens[p].session == session
  {
    assert u in chain;
    l :| 0 <= l < |chain| && chain[l] == u;
    assert Link(tokens, chain, l);
    assert chain[l - 1] in chain;
  }

  lemma ChildrenAlongChain(s: State, session: Id, chain: seq<Id>, k: nat)
    requires Chains(s) && session in s.sessions && IsChain(s.tokens, session, chain) && k < |chain|
    ensures Children(s.tokens, chain[k]) == if k < |chain| - 1 then {chain[k + 1]} else {}
  {
    assert chain[k] in chain;
    forall u ensures u in Children(s.tokens, chain[k]) <==> k < |chain| - 1 && u == chain[k + 1] {
      if u in Children(s.tokens, chain[k]) {
        var chain' :| IsChain(s.tokens, s.tokens[u].session, chain');
        var l' := ParentInChain(s.tokens, s.tokens[u].session, chain', u, chain[k]);
        var l := ParentInChain(s.tokens, session, chain, u, chain[k]);
        assert l - 1 == k;
      } else if k < |chain| - 1 {
        assert chain[k + 1] in chain && Link(s.tokens, chain, k + 1);
      }
    }
  }

  /** At most one presenter of a token ever obtains a replacement, and used tokens are those replaced. */
  lemma AtMostOneReplacement(s: State)
    requires Reachable(s)
    ensures forall m, n :: 0 <= m < n < |s.issued| ==> s.issued[m].presented != s.issued[n].presented
    ensures forall t :: t in s.tokens ==> (s.tokens[t].usedAt.Some? <==> GrantFor(s, t))
    ensures forall g :: g in s.issued ==> Children(s.tokens, g.presented) == {g.replacement}
  {
    ReachableInv(s);
    forall t | t in s.tokens && GrantFor(s, t) ensures s.tokens[t].usedAt.Some? {
      var g :| g in s.issued && g.presented == t;
      assert GrantOk(s, g);
    }
    forall g | g in s.issued ensures Children(s.tokens, g.presented) == {g.replacement} {
      assert GrantOk(s, g);
      var session := s.tokens[g.presented].session;
      var chain :| IsChain(s.tokens, session, chain);
      assert g.presented in chain;
      var k :| 0 <= k < |chain| && chain[k] == g.presented;
      ChildrenAlongChain(s, session, chain, k);
      assert g.replacement in Children(s.tokens, g.presented);
    }
  }

  function TokensOf(s: State, session: Id): set<Id> { set t | t in s.tokens && s.tokens[t].session == session }

  ghost predicate Dead(s: State, session: Id) {
    && session in s.sessions && s.sessions[session].revoked.Some?
    && forall t :: t in TokensOf(s, session) ==> s.tokens[t].revokedAt.Some?
  }

  lemma {:induction false} RevokedForever(s: State, session: Id, steps: seq<Step>)
    requires Reachable(s) && session in s.sessions && s.sessions[session].revoked.Some?
    ensures Dead(Run(s, steps), session)
    ensures Run(s, steps).sessions[session].revoked == s.sessions[session].revoked
    ensures TokensOf(Run(s, steps), session) == TokensOf(s, session)
    decreases |steps|
  {
    ReachableInv(s);
    if steps != [] {
      var s1, step := Run(s, steps[..|steps| - 1]), steps[|steps| - 1];
      RevokedForever(s, session, steps[..|steps| - 1]);
      RunKeepsInv(s, steps[..|steps| - 1]);
      StepKeepsInv(s1, step);
      DeadStays(s1, session, step);
    }
  }

  /** Dead before and after, revoked for the same reason, with the same tokens. */
  ghost predicate StaysDead(s: State, s': State, session: Id) {
    && Dead(s, session) && Dead(s', session)
    && s'.sessions[session].revoked == s.sessions[session].revoked
    && TokensOf(s', session) == TokensOf(s, session)
  }

  lemma DeadUnderClaim(s: State, call: Id, replacement: Id, session: Id)
    requires Inv(s) && Dead(s, session)
    ensures StaysDead(s, Apply(s, Claim(call, replacement)), session)
  {
    if call in s.calls && s.calls[call].Checked? && replacement !in s.tokens {
      var c, s' := s.calls[call], Apply(s, Claim(call, replacement));
      assert CallOk(s, c);
      if Claimable(s, c.tokenId) {
        assert c.tokenId in TokensOf(s, c.sessionId);
        assert s'.sessions[session] == s.sessions[session];
        forall t ensures t in TokensOf(s', session) <==> t in TokensOf(s, session) {}
      } else {
        assert s'.tokens == s.tokens && s'.sessions == s.sessions;
      }
    }
  }

  lemma DeadUnderLogin(s: State, user: Id, x: Id, t: Id, session: Id)
    requires Chains(s) && Dead(s, session)
    ensures StaysDead(s, Apply(s, Step.Login(user, x, t)), session)
  {
  }

  lemma DeadUnderLogout(s: State, other: Id, user: Id, session: Id)
    requires Dead(s, session)
    ensures StaysDead(s, Apply(s, Step.Logout(other, user)), session)
  {
  }

  lemma DeadUnderRevoke(s: State, call: Id, session: Id)
    requires Dead(s, session)
    ensures StaysDead(s, Apply(s, Revoke(call)), session)
  {
  }

  lemma DeadUnchanged(s: State, s': State, session: Id)
    requires Dead(s, session) && s'.tokens == s.tokens && s'.sessions == s.sessions
    ensures StaysDead(s, s', session)
  {
  }

  lemma DeadStays(s: State, session: Id, step: Step)
    requires Inv(s) && Dead(s, session)
    ensures StaysDead(s, Apply(s, step), session)
  {
    match step
    case Claim(call, replacement) => DeadUnderClaim(s, call, replacement, session);
    case Revoke(call) => DeadUnderRevoke(s, call, session);
    case Logout(other, user) => DeadUnderLogout(s, other, user, session);
    case Login(user, x, t) => DeadUnderLogin(s, user, x, t, session);
    case Tick(_) => DeadUnchanged(s, Apply(s, step), session);
    case Load(_, _, _) => DeadUnchanged(s, Apply(s, step), session);
    case Check(_) => DeadUnchanged(s, Apply(s, step), session);
  }

  /** A call that presented a used token: not checked yet, about to revoke, or done with the session revoked and named by an alarm. */
  ghost predicate ReuseHandled(s: State, call: Id, session: Id) {
    && session in s.sessions && call in s.calls
    && match s.calls[call]
       case Loaded(_, token, _, _) => token.usedAt.Some? && token.session == session
       case MustRevoke(x) => x == session
       case Invalid => Dead(s, session) && session in s.alarms
       case _ => false
  }

  lemma StepHandlesReuse(s: State, call: Id, session: Id, step: Step)
    requires Inv(s) && ReuseHandled(s, call, session)
    ensures ReuseHandled(Apply(s, step), call, session)
  {
    if s.calls[call].Invalid? {
      DeadStays(s, session, step);
      FinishedCallStays(s, call, session, step);
    } else if step == Revoke(call) && s.calls[call].MustRevoke? {
      RevokeKills(s, call, session);
    } else {
      OpenReuseKept(s, call, session, step);
    }
  }

  lemma FinishedCallStays(s: State, call: Id, session: Id, step: Step)
    requires call in s.calls && s.calls[call].Invalid? && session in s.alarms
    ensures call in Apply(s, step).calls && Apply(s, step).calls[call].Invalid? && session in Apply(s, step).alarms
  {
  }

  lemma OpenReuseKept(s: State, call: Id, session: Id, step: Step)
    requires ReuseHandled(s, call, session) && !s.calls[call].Invalid?
    requires step == Revoke(call) ==> s.calls[call].Loaded?
    ensures ReuseHandled(Apply(s, step), call, session)
  {
  }

  lemma {:induction false} RunHandlesReuse(s: State, call: Id, session: Id, steps: seq<Step>)
    requires Inv(s) && ReuseHandled(s, call, session)
    ensures ReuseHandled(Run(s, steps), call, session)
    decreases |steps|
  {
    if steps != [] {
      RunHandlesReuse(s, call, session, steps[..|steps| - 1]);
      RunKeepsInv(s, steps[..|steps| - 1]);
      StepHandlesReuse(Run(s, steps[..|steps| - 1]), call, session, steps[|steps| - 1]);
    }
  }

  /**
    Presenting a used token, whatever else happens before, between and after its steps: the
    call never gets a replacement, and once it has been checked and has revoked, its session
    is revoked with all its tokens and named by an alarm.
   */
  lemma ReuseRevokesSession(s: State, call: Id, presented: Id, userActive: bool, steps: seq<Step>)
    requires Reachable(s) && call !in s.calls && presented in s.tokens && s.tokens[presented].usedAt.Some?
    ensures var session, later := s.tokens[presented].session, Run(Apply(s, Load(call, presented, userActive)), steps);
            && ReuseHandled(later, call, session)
            && var end := Apply(Apply(later, Check(call)), Revoke(call));
               end.calls[call].Invalid? && Dead(end, session) && session in end.alarms
  {
    ReachableInv(s);
    LoadedReuseRevokes(s, call, presented, userActive, steps);
  }

  lemma LoadedReuseRevokes(s: State, call: Id, presented: Id, userActive: bool, steps: seq<Step>)
    requires Inv(s) && call !in s.calls && presented in s.tokens && s.tokens[presented].usedAt.Some?
    ensures var session, later := s.tokens[presented].session, Run(Apply(s, Load(call, presented, userActive)), steps);
            && ReuseHandled(later, call, session)
            && var end := Apply(Apply(later, Check(call)), Revoke(call));
               end.calls[call].Invalid? && Dead(end, session) && session in end.alarms
  {
    var session, s1 := s.tokens[presented].session, Apply(s, Load(call, presented, userActive));
    LoadKeeps(s, call, presented, userActive);
    RunHandlesReuse(s1, call, session, steps);
    RunKeepsInv(s1, steps);
    CheckedAndRevoked(Run(s1, steps), call, session);
  }

  lemma CheckedAndRevoked(s: State, call: Id, session: Id)
    requires Inv(s) && ReuseHandled(s, call, session)
    ensures var end := Apply(Apply(s, Check(call)), Revoke(call));
            end.calls[call].Invalid? && ReuseHandled(end, call, session)
  {
    StepHandlesReuse(s, call, session, Check(call));
    CheckKeeps(s, call);
    StepHandlesReuse(Apply(s, Check(call)), call, session, Revoke(call));
    CheckThenRevoke(s, call, session);
  }

  lemma CheckThenRevoke(s: State, call: Id, session: Id)
    requires ReuseHandled(s, call, session)
    ensures Apply(Apply(s, Check(call)), Revoke(call)).calls[call].Invalid?
  {
  }

  lemma RevokeKills(s: State, call: Id, session: Id)
    requires call in s.calls && s.calls[call] == MustRevoke(session) && session in s.sessions
    ensures var s' := Apply(s, Revoke(call));
            Dead(s', session) && s'.calls[call] == Invalid && s'.alarms == s.alarms + [session]
  {
  }

  // ----- Lifetimes

  /** What a session is allowed: fixed absolute expiry, idle expiry within it and only moving forward. */
  lemma ExpiryIsFixed(s: State, session: Id)
    requires Reachable(s) && session in s.sessions
    ensures s.sessions[session].idleExpiresAt <= s.sessions[session].absoluteExpiresAt
    ensures forall t :: t in TokensOf(s, session) ==> s.tokens[t].expiresAt == s.sessions[session].absoluteExpiresAt
    ensures forall g :: g in s.issued && g.presented in TokensOf(s, session) ==> g.at < s.sessions[session].absoluteExpiresAt
  {
    ReachableInv(s);
    forall g | g in s.issued && g.presented in TokensOf(s, session) ensures g.at < s.sessions[session].absoluteExpiresAt {
      assert GrantOk(s, g);
    }
  }

  lemma StepMovesExpiryForward(s: State, session: Id, step: Step)
    requires CallsOk(s) && session in s.sessions
    ensures var s' := Apply(s, step);
            && session in s'.sessions
            && s'.sessions[session].absoluteExpiresAt == s.sessions[session].absoluteExpiresAt
            && s.sessions[session].idleExpiresAt <= s'.sessions[session].idleExpiresAt
  {
    if step.Claim? && step.call in s.calls {
      assert CallOk(s, s.calls[step.call]);
    }
  }

  /** No run of steps, however many refreshes it contains, moves the absolute expiry or shortens the idle one. */
  lemma {:induction false} RunMovesExpiryForward(s: State, session: Id, steps: seq<Step>)
    requires Reachable(s) && session in s.sessions
    ensures var s' := Run(s, steps);
            && session in s'.sessions
            && s'.sessions[session].absoluteExpiresAt == s.sessions[session].absoluteExpiresAt
            && s.sessions[session].idleExpiresAt <= s'.sessions[session].idleExpiresAt
    decreases |steps|
  {
    if steps != [] {
      RunMovesExpiryForward(s, session, steps[..|steps| - 1]);
      ReachableInv(s);
      RunKeepsInv(s, steps[..|steps| - 1]);
      StepMovesExpiryForward(Run(s, steps[..|steps| - 1]), session, steps[|steps| - 1]);
    }
  }

  /** Once the clock has reached either expiry of a session, checking any of its tokens never succeeds. */
  lemma ExpiredSessionNeverRefreshes(s: State, call: Id)
    requires Reachable(s) && call in s.calls && s.calls[call].Loaded?
    requires s.calls[call].token.session in s.sessions
    requires s.sessions[s.calls[call].token.session].absoluteExpiresAt <= s.now
          || s.sessions[s.calls[call].token.session].idleExpiresAt <= s.now
    ensures !Apply(s, Check(call)).calls[call].Checked?
  {
    ReachableInv(s);
    assert CallOk(s, s.calls[call]);
  }
}
