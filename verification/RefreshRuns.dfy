/** Two concrete runs in which the reuse alarm is raised although no used token was presented. */
module RefreshRuns {
  import opened Options
  import opened RefreshSessions
  import opened ApiClient
  import opened ClientServer

  lemma HappensStep(w: World, events: seq<Event>, k: nat, before: World)
    requires 0 < k <= |events| && Happens(w, events[..k - 1]) == before
    ensures Happens(w, events[..k]) == Happen(before, events[k - 1])
  {
    assert events[..k][..k - 1] == events[..k - 1];
  }

  /** The run in which a logout overtakes a refresh between its check and its claim. */
  function LogoutOvertakesRefresh(): seq<Event> {
    [SignIn(7, 1, 10, 5), Bootstrap(100), Arrive(true), Server(Check(100)), Server(Logout(1, 7)),
     Server(Claim(100, 11)), Server(Revoke(100))]
  }

  /** The world after the first k events of that run. */
  function RaceStage(k: nat): World {
    var live := Session(7, 0, 1000, 1000, None);
    var sessions := if k == 0 then map[] else map[1 := if k < 5 then live else live.(revoked := Some((0, LOGOUT)))];
    var token := Token(1, None, 1000, None, None);
    var tokens := if k == 0 then map[] else map[10 := if k < 5 then token else token.(revokedAt := Some(0))];
    var calls := if k < 3 then map[] else map[100 :=
      if k == 3 then Loaded(10, token, live, true) else if k < 6 then Checked(10, 1, 1000, 0)
      else if k == 6 then MustRevoke(1) else Invalid];
    World(State(Config(1000, 1000), 0, sessions, tokens, calls, [], if k < 7 then [] else [1]),
          if k == 0 then NEW_CLIENT
          else Client({1}, Some(10), Some(5), if k < 2 then None else Some(Refresh(100, Some(10))), map[], 0),
          if k < 5 then {} else {1}, {})
  }

  lemma RaceStep0() ensures Happen(RaceStage(0), LogoutOvertakesRefresh()[0]) == RaceStage(1) {}
  lemma RaceStep1() ensures Happen(RaceStage(1), LogoutOvertakesRefresh()[1]) == RaceStage(2) {}
  lemma RaceStep2() ensures Happen(RaceStage(2), LogoutOvertakesRefresh()[2]) == RaceStage(3) {}
  lemma RaceStep3() ensures Happen(RaceStage(3), LogoutOvertakesRefresh()[3]) == RaceStage(4) {}
  lemma RaceStep4() ensures Happen(RaceStage(4), LogoutOvertakesRefresh()[4]) == RaceStage(5) {}
  lemma RaceStep5() ensures Happen(RaceStage(5), LogoutOvertakesRefresh()[5]) == RaceStage(6) {}
  lemma RaceStep6() ensures Happen(RaceStage(6), LogoutOvertakesRefresh()[6]) == RaceStage(7) {}

  lemma {:induction false} RaceReaches(k: nat)
    requires k <= 7
    ensures Happens(Start(Config(1000, 1000), 0), LogoutOvertakesRefresh()[..k]) == RaceStage(k)
  {
    if k > 0 {
      RaceReaches(k - 1);
      RaceStep0(); RaceStep1(); RaceStep2(); RaceStep3(); RaceStep4(); RaceStep5(); RaceStep6();
      HappensStep(Start(Config(1000, 1000), 0), LogoutOvertakesRefresh(), k, RaceStage(k - 1));
    }
  }

  /** In that run no token is used at all, and yet the reuse alarm is raised. */
  lemma LogoutRaceRaisesAlarm()
    ensures var w := Happens(Start(Config(1000, 1000), 0), LogoutOvertakesRefresh());
            1 in w.server.alarms && w.server.issued == [] && w.client.sessions == {1}
  {
    RaceReaches(7);
    assert LogoutOvertakesRefresh()[..7] == LogoutOvertakesRefresh();
  }

  /** The run in which a lost refresh is carried out while the next one is under way. */
  function LostRefreshIsLate(): seq<Event> {
    [SignIn(7, 1, 10, 5), Bootstrap(100), Arrive(true), Lose, Bootstrap(101), Arrive(true), Server(Check(100)),
     Server(Claim(100, 11)), Server(Check(101)), Server(Claim(101, 12)), Server(Revoke(101))]
  }

  function LateTokens(k: nat): map<Id, Token> {
    var token, revoked := Token(1, None, 1000, None, None), if k < 11 then None else Some(0);
    if k == 0 then map[] else if k < 8 then map[10 := token]
    else map[10 := token.(usedAt := Some(0), revokedAt := revoked), 11 := Token(1, Some(10), 1000, None, revoked)]
  }

  function LateCalls(k: nat): map<Id, Call> {
    var loaded := Loaded(10, Token(1, None, 1000, None, None), Session(7, 0, 1000, 1000, None), true);
    var first := if k < 7 then loaded else if k == 7 then Checked(10, 1, 1000, 0) else Rotated(11);
    var second := if k < 9 then loaded else if k == 9 then Checked(10, 1, 1000, 0) else if k == 10 then MustRevoke(1) else Invalid;
    if k < 3 then map[] else if k < 6 then map[100 := first] else map[100 := first, 101 := second]
  }

  /** The world after the first k events of that run. */
  function LateStage(k: nat): World {
    var session := Session(7, 0, 1000, 1000, if k < 11 then None else Some((0, REFRESH_TOKEN_REUSE)));
    var pending := if k < 2 || k == 4 then None else Some(Refresh(if k < 4 then 100 else 101, Some(10)));
    World(State(Config(1000, 1000), 0, if k == 0 then map[] else map[1 := session], LateTokens(k), LateCalls(k),
                if k < 8 then [] else [Grant(100, 10, 11, 0)], if k < 11 then [] else [1]),
          if k == 0 then NEW_CLIENT else Client({1}, Some(10), Some(5), pending, map[], 0),
          {}, if k < 4 then {} else {Refresh(100, Some(10))})
  }

  lemma LateStep0() ensures Happen(LateStage(0), LostRefreshIsLate()[0]) == LateStage(1) {}
  lemma LateStep1() ensures Happen(LateStage(1), LostRefreshIsLate()[1]) == LateStage(2) {}
  lemma LateStep2() ensures Happen(LateStage(2), LostRefreshIsLate()[2]) == LateStage(3) {}
  lemma LateStep3()
    ensures Happen(LateStage(3), LostRefreshIsLate()[3]) == LateStage(4)
  {
    assert Waiters(map[]) == {};
  }
  lemma LateStep4() ensures Happen(LateStage(4), LostRefreshIsLate()[4]) == LateStage(5) {}
  lemma LateStep5() ensures Happen(LateStage(5), LostRefreshIsLate()[5]) == LateStage(6) {}
  lemma LateStep6() ensures Happen(LateStage(6), LostRefreshIsLate()[6]) == LateStage(7) {}
  lemma LateStep7() ensures Happen(LateStage(7), LostRefreshIsLate()[7]) == LateStage(8) {}
  lemma LateStep8() ensures Happen(LateStage(8), LostRefreshIsLate()[8]) == LateStage(9) {}
  lemma LateStep9() ensures Happen(LateStage(9), LostRefreshIsLate()[9]) == LateStage(10) {}
  lemma LateStep10() ensures Happen(LateStage(10), LostRefreshIsLate()[10]) == LateStage(11) {}

  lemma {:induction false} LateReaches(k: nat)
    requires k <= 11
    ensures Happens(Start(Config(1000, 1000), 0), LostRefreshIsLate()[..k]) == LateStage(k)
  {
    if k > 0 {
      LateReaches(k - 1);
      LateStep0(); LateStep1(); LateStep2(); LateStep3(); LateStep4(); LateStep5();
      LateStep6(); LateStep7(); LateStep8(); LateStep9(); LateStep10();
      HappensStep(Start(Config(1000, 1000), 0), LostRefreshIsLate(), k, LateStage(k - 1));
    }
  }

  ghost predicate LoadedUnused(s: State, call: Id) {
    call in s.calls && s.calls[call].Loaded? && s.calls[call].token.usedAt.None?
  }

  /** In that run both refreshes are loaded with an unused token, nobody logs out, and yet the reuse alarm is raised. */
  lemma LateClaimRaisesAlarm()
    ensures var before := Happens(Start(Config(1000, 1000), 0), LostRefreshIsLate()[..6]).server;
            LoadedUnused(before, 100) && LoadedUnused(before, 101)
    ensures var w := Happens(Start(Config(1000, 1000), 0), LostRefreshIsLate());
            1 in w.server.alarms && w.logouts == {} && w.client.sessions == {1}
  {
    LateReaches(6);
    LateReaches(11);
    assert LostRefreshIsLate()[..11] == LostRefreshIsLate();
  }
}
