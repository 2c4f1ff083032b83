/**
  What a session and its tokens are worth, in terms of time: how long it lasts after login and
  after the last rotation, and exactly what each step of a refresh answers.
 */
module SessionLifetimes {
  import opened Options
  import opened RefreshSessions

  // ----- The clock

  function Elapsed(steps: seq<Step>): nat {
    if steps == [] then 0
    else Elapsed(steps[..|steps| - 1]) + match steps[|steps| - 1] case Tick(elapsed) => elapsed case _ => 0
  }

  lemma StepTime(s: State, step: Step)
    ensures Apply(s, step).now == s.now + match step case Tick(elapsed) => elapsed case _ => 0
    ensures Apply(s, step).config == s.config
  {
  }

  /** Over every run the time moves by the ticks alone. */
  lemma {:induction false} ClockFollowsTicks(s: State, steps: seq<Step>)
    ensures Run(s, steps).now == s.now + Elapsed(steps) && Run(s, steps).config == s.config
    decreases |steps|
  {
    if steps != [] {
      ClockFollowsTicks(s, steps[..|steps| - 1]);
      StepTime(Run(s, steps[..|steps| - 1]), steps[|steps| - 1]);
    }
  }

  // ----- Expiry against login and last rotation

  /** When session x was last used: at the check of its last rotation, or at its login. */
  function LastUse(issued: seq<Grant>, tokens: map<Id, Token>, x: Id, createdAt: int): int {
    if issued == [] then createdAt
    else
      var g := issued[|issued| - 1];
      if g.presented in tokens && tokens[g.presented].session == x then g.at
      else LastUse(issued[..|issued| - 1], tokens, x, createdAt)
  }

  function LastUseOf(s: State, x: Id): int
    requires x in s.sessions
  {
    LastUse(s.issued, s.tokens, x, s.sessions[x].createdAt)
  }

  /** The session lasts from login for its lifetime, and idle until the timeout after its last use, whichever comes first. */
  ghost predicate Timed(s: State, x: Id)
    requires x in s.sessions
  {
    var end, idleEnd := s.sessions[x].createdAt + s.config.sessionLifetime, LastUseOf(s, x) + s.config.idleTimeout;
    && s.sessions[x].absoluteExpiresAt == end
    && s.sessions[x].idleExpiresAt == if idleEnd < end then idleEnd else end
  }

  ghost predicate AllTimed(s: State) { forall x :: x in s.sessions ==> Timed(s, x) }

  ghost predicate SameSession(tokens: map<Id, Token>, tokens': map<Id, Token>, t: Id) {
    t in tokens && t in tokens' && tokens'[t].session == tokens[t].session
  }

  lemma {:induction false} LastUseKept(issued: seq<Grant>, tokens: map<Id, Token>, tokens': map<Id, Token>, x: Id, createdAt: int)
    requires forall g :: g in issued ==> SameSession(tokens, tokens', g.presented)
    ensures LastUse(issued, tokens', x, createdAt) == LastUse(issued, tokens, x, createdAt)
    decreases |issued|
  {
    if issued != [] {
      assert issued[|issued| - 1] in issued;
      LastUseKept(issued[..|issued| - 1], tokens, tokens', x, createdAt);
    }
  }

  lemma {:induction false} NeverUsed(issued: seq<Grant>, tokens: map<Id, Token>, x: Id, createdAt: int)
    requires forall g :: g in issued ==> g.presented in tokens && tokens[g.presented].session != x
    ensures LastUse(issued, tokens, x, createdAt) == createdAt
    decreases |issued|
  {
    if issued != [] {
      assert issued[|issued| - 1] in issued;
      NeverUsed(issued[..|issued| - 1], tokens, x, createdAt);
    }
  }

  /** The rows of the session keep what its timing depends on. */
  ghost predicate SameTiming(x: Session, x': Session) {
    x'.createdAt == x.createdAt && x'.absoluteExpiresAt == x.absoluteExpiresAt && x'.idleExpiresAt == x.idleExpiresAt
  }

  lemma TimingKept(s: State, s': State, x: Id)
    requires Grants(s) && x in s.sessions && x in s'.sessions && Timed(s, x)
    requires s'.issued == s.issued && s'.config == s.config && SameTiming(s.sessions[x], s'.sessions[x])
    requires forall t :: t in s.tokens ==> SameSession(s.tokens, s'.tokens, t)
    ensures Timed(s', x)
  {
    forall g | g in s.issued ensures SameSession(s.tokens, s'.tokens, g.presented) {
      assert GrantOk(s, g);
    }
    LastUseKept(s.issued, s.tokens, s'.tokens, x, s.sessions[x].createdAt);
  }

  lemma LoginTimed(s: State, user: Id, x: Id, t: Id)
    requires Chains(s) && Grants(s) && AllTimed(s) && x !in s.sessions && t !in s.tokens
    ensures AllTimed(Apply(s, Step.Login(user, x, t)))
  {
    var s' := Apply(s, Step.Login(user, x, t));
    forall y | y in s'.sessions ensures Timed(s', y) {
      if y == x {
        forall g | g in s.issued ensures g.presented in s'.tokens && s'.tokens[g.presented].session != x {
          assert GrantOk(s, g);
        }
        NeverUsed(s.issued, s'.tokens, x, s.now);
      } else {
        TimingKept(s, s', y);
      }
    }
  }

  lemma LastUseAppended(issued: seq<Grant>, g: Grant, tokens: map<Id, Token>, x: Id, createdAt: int)
    ensures LastUse(issued + [g], tokens, x, createdAt) ==
            if g.presented in tokens && tokens[g.presented].session == x then g.at else LastUse(issued, tokens, x, createdAt)
  {
    assert (issued + [g])[..|issued|] == issued;
  }

  lemma OthersClaimedTimed(s: State, s': State, call: Id, c: Call, child: Id, y: Id)
    requires Grants(s) && Claimed(s, s', call, c, child) && y in s.sessions && y != c.sessionId && Timed(s, y)
    ensures Timed(s', y)
  {
    TimingKept(s, s'.(issued := s.issued), y);
    LastUseAppended(s.issued, Grant(call, c.tokenId, child, c.at), s'.tokens, y, s.sessions[y].createdAt);
  }

  lemma OwnClaimedTimed(s: State, s': State, call: Id, c: Call, child: Id)
    requires Claimed(s, s', call, c, child) && c.sessionId in s.sessions && Timed(s, c.sessionId)
    ensures Timed(s', c.sessionId) && LastUseOf(s', c.sessionId) == c.at
  {
    LastUseAppended(s.issued, Grant(call, c.tokenId, child, c.at), s'.tokens, c.sessionId, s.sessions[c.sessionId].createdAt);
  }

  lemma ClaimedTimed(s: State, s': State, call: Id, c: Call, child: Id)
    requires Grants(s) && AllTimed(s) && Claimed(s, s', call, c, child)
    ensures AllTimed(s')
  {
    forall y | y in s'.sessions ensures Timed(s', y) {
      if y == c.sessionId {
        OwnClaimedTimed(s, s', call, c, child);
      } else {
        OthersClaimedTimed(s, s', call, c, child, y);
      }
    }
  }

  lemma ClaimTimed(s: State, call: Id, replacement: Id)
    requires Inv(s) && AllTimed(s)
    ensures AllTimed(Apply(s, Claim(call, replacement)))
  {
    if call in s.calls && s.calls[call].Checked? && replacement !in s.tokens {
      var c, s' := s.calls[call], Apply(s, Claim(call, replacement));
      assert CallOk(s, c);
      if Claimable(s, c.tokenId) {
        ClaimedTimed(s, s', call, c, replacement);
      } else {
        SameRowsTimed(s, s');
      }
    }
  }

  lemma SameRowsTimed(s: State, s': State)
    requires Grants(s) && AllTimed(s) && s'.sessions == s.sessions && s'.tokens == s.tokens
    requires s'.issued == s.issued && s'.config == s.config
    ensures AllTimed(s')
  {
    forall y | y in s'.sessions ensures Timed(s', y) {
      TimingKept(s, s', y);
    }
  }

  lemma RevocationTimed(s: State, step: Step)
    requires Grants(s) && AllTimed(s) && (step.Revoke? || step.Logout?)
    ensures AllTimed(Apply(s, step))
  {
    var s' := Apply(s, step);
    forall t | t in s.tokens ensures SameSession(s.tokens, s'.tokens, t) {}
    forall y | y in s'.sessions ensures Timed(s', y) {
      TimingKept(s, s', y);
    }
  }

  lemma StepTimed(s: State, step: Step)
    requires Inv(s) && AllTimed(s)
    ensures AllTimed(Apply(s, step))
  {
    match step
    case Login(user, x, t) => if x !in s.sessions && t !in s.tokens { LoginTimed(s, user, x, t); }
    case Claim(call, replacement) => ClaimTimed(s, call, replacement);
    case Revoke(_) => RevocationTimed(s, step);
    case Logout(_, _) => RevocationTimed(s, step);
    case Tick(_) => SameRowsTimed(s, Apply(s, step));
    case Load(_, _, _) => SameRowsTimed(s, Apply(s, step));
    case Check(_) => SameRowsTimed(s, Apply(s, step));
  }

  lemma {:induction false} RunTimed(s: State, steps: seq<Step>)
    requires Inv(s) && AllTimed(s)
    ensures AllTimed(Run(s, steps))
    decreases |steps|
  {
    if steps != [] {
      RunTimed(s, steps[..|steps| - 1]);
      RunKeepsInv(s, steps[..|steps| - 1]);
      StepTimed(Run(s, steps[..|steps| - 1]), steps[|steps| - 1]);
    }
  }

  /**
    In every reachable state a session ends its lifetime after its login, and is idle from
    the timeout after its last rotation on, or after the login when there was none.
   */
  lemma ExpiryFollowsUse(s: State, x: Id)
    requires Reachable(s) && x in s.sessions
    ensures var end, idleEnd := s.sessions[x].createdAt + s.config.sessionLifetime, LastUseOf(s, x) + s.config.idleTimeout;
            && s.sessions[x].absoluteExpiresAt == end
            && s.sessions[x].idleExpiresAt == if idleEnd < end then idleEnd else end
  {
    var config, now, steps :| s == Run(Initial(config, now), steps);
    RunTimed(Initial(config, now), steps);
    assert Timed(s, x);
  }

  // ----- The answer of a refresh, step by step

  lemma CallWaits(s: State, step: Step, call: Id, loaded: Call)
    requires call in s.calls && (s.calls[call].Loaded? ==> s.calls[call] == loaded)
    ensures call in Apply(s, step).calls && (Apply(s, step).calls[call].Loaded? ==> Apply(s, step).calls[call] == loaded)
  {
  }

  lemma {:induction false} SnapshotStays(s: State, steps: seq<Step>, call: Id, loaded: Call)
    requires call in s.calls && (s.calls[call].Loaded? ==> s.calls[call] == loaded)
    ensures call in Run(s, steps).calls && (Run(s, steps).calls[call].Loaded? ==> Run(s, steps).calls[call] == loaded)
    decreases |steps|
  {
    if steps != [] {
      SnapshotStays(s, steps[..|steps| - 1], call, loaded);
      CallWaits(Run(s, steps[..|steps| - 1]), steps[|steps| - 1], call, loaded);
    }
  }

  /** The token may still be exchanged at this time: unused, unrevoked, of an active user, before both ends of its session. */
  ghost predicate Live(s: State, t: Id, userActive: bool, now: int)
    requires t in s.tokens && s.tokens[t].session in s.sessions
  {
    var x := s.tokens[t].session;
    && s.tokens[t].usedAt.None? && s.tokens[t].revokedAt.None? && userActive
    && now < s.sessions[x].createdAt + s.config.sessionLifetime && now < LastUseOf(s, x) + s.config.idleTimeout
  }

  /**
    Exactly what the check of a refresh answers, however much later it comes: a token that was
    used when it was loaded leads to revocation, a live one may be claimed, and any other is
    refused. So with no rotation for the idle timeout no token of the session passes.
   */
  lemma CheckVerdict(s: State, call: Id, presented: Id, userActive: bool, steps: seq<Step>)
    requires Reachable(s) && call !in s.calls && presented in s.tokens
    requires var s' := Run(Apply(s, Load(call, presented, userActive)), steps); call in s'.calls && s'.calls[call].Loaded?
    ensures s.tokens[presented].session in s.sessions
    ensures var s' := Run(Apply(s, Load(call, presented, userActive)), steps);
            var answer := Apply(s', Check(call)).calls[call];
            && (answer == MustRevoke(s.tokens[presented].session) <==> s.tokens[presented].usedAt.Some?)
            && (answer.Checked? <==> Live(s, presented, userActive, s'.now))
            && (answer.Checked? ==> answer.tokenId == presented && answer.sessionId == s.tokens[presented].session && answer.at == s'.now)
            && (answer.Checked? || answer.MustRevoke? || answer.Invalid?)
  {
    ReachableInv(s);
    var t, x := s.tokens[presented], s.tokens[presented].session;
    var loaded := Loaded(presented, t, s.sessions[x], userActive);
    SnapshotStays(Apply(s, Load(call, presented, userActive)), steps, call, loaded);
    ExpiryFollowsUse(s, x);
    LoadedVerdict(s, presented, userActive, Run(Apply(s, Load(call, presented, userActive)), steps).now);
  }

  lemma LoadedVerdict(s: State, presented: Id, userActive: bool, now: int)
    requires presented in s.tokens && s.tokens[presented].session in s.sessions && Timed(s, s.tokens[presented].session)
    requires RevokedTogether(s) && Expiries(s)
    ensures var x := s.tokens[presented].session;
            var answer := CheckLoaded(Loaded(presented, s.tokens[presented], s.sessions[x], userActive), now);
            && (answer == MustRevoke(x) <==> s.tokens[presented].usedAt.Some?)
            && (answer.Checked? <==> Live(s, presented, userActive, now))
            && (answer.Checked? ==> answer.tokenId == presented && answer.sessionId == x && answer.at == now)
            && (answer.Checked? || answer.MustRevoke? || answer.Invalid?)
  {
  }

  /** A token nobody issued is refused at once. */
  lemma UnknownTokenIsRefused(s: State, call: Id, presented: Id, userActive: bool)
    requires call !in s.calls && presented !in s.tokens
    ensures Apply(s, Load(call, presented, userActive)) == s.(calls := s.calls[call := Invalid])
  {
  }

  /** The token is used, and replaced by one unused and unrevoked token of its session that lasts as long as the session. */
  ghost predicate Exchanged(s: State, s': State, call: Id, c: Call, replacement: Id)
    requires c.Checked? && c.tokenId in s.tokens && c.sessionId in s.sessions
  {
    && s'.calls == s.calls[call := Rotated(replacement)]
    && s'.tokens == s.tokens[c.tokenId := s.tokens[c.tokenId].(usedAt := Some(c.at))]
                            [replacement := Token(c.sessionId, Some(c.tokenId), s.sessions[c.sessionId].absoluteExpiresAt, None, None)]
    && c.sessionId in s'.sessions
    && s'.sessions == s.sessions[c.sessionId := s.sessions[c.sessionId].(idleExpiresAt := s'.sessions[c.sessionId].idleExpiresAt)]
  }

  lemma ClaimExchanges(s: State, call: Id, replacement: Id)
    requires call in s.calls && s.calls[call].Checked? && replacement !in s.tokens && CallOk(s, s.calls[call])
    ensures var c, s' := s.calls[call], Apply(s, Claim(call, replacement));
            if s.tokens[c.tokenId].usedAt.None? && s.tokens[c.tokenId].revokedAt.None?
            then Exchanged(s, s', call, c, replacement) && s'.issued == s.issued + [Grant(call, c.tokenId, replacement, c.at)]
            else s' == s.(calls := s.calls[call := MustRevoke(c.sessionId)])
  {
  }

  /**
    Exactly what the claim answers: a token that is still unused and unrevoked is exchanged,
    which counts as the last use of its session; otherwise the call must revoke, and nothing
    else has changed.
   */
  lemma ClaimVerdict(s: State, call: Id, replacement: Id)
    requires Reachable(s) && call in s.calls && s.calls[call].Checked? && replacement !in s.tokens
    ensures var c, s' := s.calls[call], Apply(s, Claim(call, replacement));
            && c.tokenId in s.tokens && c.sessionId in s.sessions && s.tokens[c.tokenId].session == c.sessionId
            && if s.tokens[c.tokenId].usedAt.None? && s.tokens[c.tokenId].revokedAt.None?
               then Exchanged(s, s', call, c, replacement) && LastUseOf(s', c.sessionId) == c.at
               else s' == s.(calls := s.calls[call := MustRevoke(c.sessionId)])
  {
    var c, s' := s.calls[call], Apply(s, Claim(call, replacement));
    assert CallOk(s, c) by { ReachableInv(s); }
    ClaimExchanges(s, call, replacement);
    if s.tokens[c.tokenId].usedAt.None? && s.tokens[c.tokenId].revokedAt.None? {
      LastUseAppended(s.issued, Grant(call, c.tokenId, replacement, c.at), s'.tokens, c.sessionId, s'.sessions[c.sessionId].createdAt);
    }
  }

  /** A login creates an unrevoked session of its user from now on, with one unused token, and changes nothing else. */
  lemma LoginStartsSession(s: State, user: Id, x: Id, t: Id)
    requires Reachable(s) && x !in s.sessions && t !in s.tokens
    ensures var s' := Apply(s, Step.Login(user, x, t));
            && s'.tokens == s.tokens[t := Token(x, None, s.now + s.config.sessionLifetime, None, None)]
            && s'.sessions == s.sessions[x := s'.sessions[x]] && s'.calls == s.calls
            && s'.sessions[x].user == user && s'.sessions[x].createdAt == s.now && s'.sessions[x].revoked.None?
            && LastUseOf(s', x) == s.now
  {
    ReachableInv(s);
    forall g | g in s.issued ensures g.presented in s.tokens && s.tokens[g.presented].session != x {
      assert GrantOk(s, g);
    }
    NeverUsed(s.issued, Apply(s, Step.Login(user, x, t)).tokens, x, s.now);
  }

  /** A token after revocation of a session: revoked now if it belongs to it and was not revoked yet, and otherwise as before. */
  ghost predicate TokenAfterRevocation(t: Token, t': Token, session: Id, now: int) {
    t' == if t.session == session && t.revokedAt.None? then t.(revokedAt := Some(now)) else t
  }

  /**
    A logout revokes every token of the session it names, and the session itself exactly if
    the user is its own; a session that was revoked before keeps its reason.
   */
  lemma LogoutRevokes(s: State, session: Id, user: Id)
    ensures var s' := Apply(s, Step.Logout(session, user));
            && s'.tokens.Keys == s.tokens.Keys && s'.sessions.Keys == s.sessions.Keys && s'.calls == s.calls
            && (forall t :: t in s.tokens ==> TokenAfterRevocation(s.tokens[t], s'.tokens[t], session, s.now))
            && (forall x :: x in s.sessions && x != session ==> s'.sessions[x] == s.sessions[x])
            && (session in s.sessions ==>
                  s'.sessions[session] ==
                    if s.sessions[session].user == user && s.sessions[session].revoked.None?
                    then s.sessions[session].(revoked := Some((s.now, LOGOUT))) else s.sessions[session])
  {
  }

  /** Revocation for reuse, which needs no user, gives the same for the session of the call. */
  lemma ReuseRevokes(s: State, call: Id)
    requires call in s.calls && s.calls[call].MustRevoke? && s.calls[call].sessionId in s.sessions
    ensures var session, s' := s.calls[call].sessionId, Apply(s, Revoke(call));
            && s'.tokens.Keys == s.tokens.Keys && s'.alarms == s.alarms + [session] && s'.calls == s.calls[call := Invalid]
            && (forall t :: t in s.tokens ==> TokenAfterRevocation(s.tokens[t], s'.tokens[t], session, s.now))
            && s'.sessions == s.sessions[session :=
                 if s.sessions[session].revoked.None?
                 then s.sessions[session].(revoked := Some((s.now, REFRESH_TOKEN_REUSE))) else s.sessions[session]]
  {
  }
}
