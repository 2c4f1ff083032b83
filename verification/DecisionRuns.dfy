/**
  Two concrete runs from an application that has paid its fee: one gets stuck with its final
  decision pending, the other is approved, rejected by the lender, and keeps its loan.
 */
module DecisionRuns {
  import opened Options
  import opened LenderCase
  import opened LenderProtocol
  import opened DecisionStages
  import LenderDecisions
  import LenderRejection
  import NameTokens
  import RejectedLoans

  const POLL: Key := Key(STATUS, 1)

  /** The number of the application of the run, and the account number its loan will have. */
  const NUMBER: string := "APP-1"
  const LAN: string := "FTPL-1"

  const PENDING_RESULT: LenderDecisions.DecisionResult :=
    LenderDecisions.DecisionResult(LenderCase.Decision.PENDING, "PENDING", "REF", None, None, None, None, LenderDecisions.NotGiven)

  const PRE_APPROVAL: LenderDecisions.DecisionResult :=
    LenderDecisions.DecisionResult(APPROVED, "APPROVED", "REF", Some(1000.0), None, None, None, LenderDecisions.NotGiven)

  /** The first stage is answered by its status poll. */
  function PreApprovedRun(): seq<Action> {
    [OpenLink("P"), RequestDecision(1)]
    + [ClaimEvent(FIRST, 1), Process(FIRST, 1, "P", PENDING_RESULT, true, 0)]
    + [ClaimEvent(POLL, 2), Process(POLL, 2, "P", PRE_APPROVAL, true, 0)]
  }

  /** Then an offer is chosen. */
  function OfferSelected(): seq<Action> { PreApprovedRun() + [SelectOffer(1000.0, 30), RequestDecision(2)] }

  /** Then the final decision is pending. */
  function PolledThenPending(): seq<Action> {
    OfferSelected() + [ClaimEvent(FINAL, 3), Process(FINAL, 3, "P", PENDING_RESULT, true, 0)]
  }

  /** Or it is positive and credit review approves. */
  function ApprovedRun(): seq<Action> {
    OfferSelected() + [ClaimEvent(FINAL, 3), Process(FINAL, 3, "P", APPROVAL, true, 0)] + [Approve(0)]
  }

  const REJECTED_TEXT: string := "REJECTED"

  /** The lender rejects the application under its application number. */
  const NOTICE: Action := LenderNotice(NUMBER, REJECTED_TEXT, "rejected by the lender", 0)

  function FreshWorld(): World {
    World(Case(Application(NUMBER, Some(LAN), Some("L"), Some(Product(12.0, 2.0)), ASSESSMENT_FEE_PAID, None, None, None, None, None, None, None, None, None, None, None),
               None, Customer(ASSESSMENT_FEE_PAID, 0), None, map[]), {}, [])
  }

  const QUEUED: Event := Event(OperationStatus.PENDING, None)
  const DONE: Event := Event(COMPLETED, None)

  function Running(token: nat): Event { Event(OperationStatus.PROCESSING, Some(token)) }

  /** What the application has from the start. */
  ghost predicate Unchanged(c: Case) {
    && c.application.number == NUMBER && c.application.platformLan == Some(LAN)
    && c.application.product == Some(Product(12.0, 2.0)) && c.loan.None?
  }

  /** What matters of a world of these runs. */
  ghost predicate Shows(w: World, status: ApplicationStatus, version: int, chosen: bool, events: map<Key, Event>, tokens: set<nat>) {
    && w.file.link.Some? && w.file.link.value.partnerApplicationId == Some("P") && w.file.link.value.decisionVersion == version
    && w.file.application.status == status && w.file.application.HasOffer() == chosen && Unchanged(w.file)
    && w.file.events == events && w.tokens == tokens
  }

  lemma FirstCall()
    ensures Shows(Next(Next(FreshWorld(), OpenLink("P")), RequestDecision(1)), ASSESSMENT_FEE_PAID, 1, false, map[FIRST := QUEUED], {})
  {
  }

  lemma Claimed(w: World, status: ApplicationStatus, version: int, chosen: bool, events: map<Key, Event>, tokens: set<nat>,
                key: Key, token: nat)
    requires Shows(w, status, version, chosen, events, tokens) && key in events && events[key] == QUEUED && token !in tokens
    ensures Shows(Next(w, ClaimEvent(key, token)), status, version, chosen, events[key := Running(token)], tokens + {token})
  {
  }

  /** A pending answer to a decision call. */
  lemma AnsweredPending(w: World, status: ApplicationStatus, version: int, chosen: bool, events: map<Key, Event>, tokens: set<nat>,
                        key: Key, token: nat)
    requires Shows(w, status, version, chosen, events, tokens) && key in events && events[key] == Running(token)
    requires key.stage.DECISION? && (if version == 1 then status.ASSESSMENT_FEE_PAID? else version == 2 && status.LENDER_PRE_APPROVED?)
    ensures Shows(Next(w, Process(key, token, "P", PENDING_RESULT, true, 0)),
                  if version == 1 then LENDER_REVIEW else status, version, chosen,
                  LenderDecisions.CompleteIn(LenderDecisions.Upsert(events, POLL), key), tokens)
  {
  }

  lemma PollAnswered(w: World, events: map<Key, Event>, tokens: set<nat>, token: nat)
    requires Shows(w, LENDER_REVIEW, 1, false, events, tokens) && POLL in events && events[POLL] == Running(token)
    ensures Shows(Next(w, Process(POLL, token, "P", PRE_APPROVAL, true, 0)), LENDER_PRE_APPROVED, 1, false,
                  LenderDecisions.CompleteIn(events, POLL), tokens)
  {
  }

  lemma OfferChosen(w: World, events: map<Key, Event>, tokens: set<nat>)
    requires Shows(w, LENDER_PRE_APPROVED, 1, false, events, tokens) && FINAL !in events
    ensures Shows(Next(Next(w, SelectOffer(1000.0, 30)), RequestDecision(2)), LENDER_PRE_APPROVED, 2, true, events[FINAL := QUEUED], tokens)
  {
  }

  lemma FirstCallPending(w: World)
    requires Shows(w, ASSESSMENT_FEE_PAID, 1, false, map[FIRST := QUEUED], {})
    ensures Shows(Next(Next(w, ClaimEvent(FIRST, 1)), Process(FIRST, 1, "P", PENDING_RESULT, true, 0)),
                  LENDER_REVIEW, 1, false, map[FIRST := DONE, POLL := QUEUED], {1})
  {
    Claimed(w, ASSESSMENT_FEE_PAID, 1, false, map[FIRST := QUEUED], {}, FIRST, 1);
    var w1 := Next(w, ClaimEvent(FIRST, 1));
    AnsweredPending(w1, ASSESSMENT_FEE_PAID, 1, false, w1.file.events, w1.tokens, FIRST, 1);
    assert Next(w1, Process(FIRST, 1, "P", PENDING_RESULT, true, 0)).file.events == map[FIRST := DONE, POLL := QUEUED];
  }

  lemma FirstPollApproved(w: World)
    requires Shows(w, LENDER_REVIEW, 1, false, map[FIRST := DONE, POLL := QUEUED], {1})
    ensures Shows(Next(Next(w, ClaimEvent(POLL, 2)), Process(POLL, 2, "P", PRE_APPROVAL, true, 0)),
                  LENDER_PRE_APPROVED, 1, false, map[FIRST := DONE, POLL := DONE], {1, 2})
  {
    Claimed(w, LENDER_REVIEW, 1, false, w.file.events, w.tokens, POLL, 2);
    var w1 := Next(w, ClaimEvent(POLL, 2));
    PollAnswered(w1, w1.file.events, w1.tokens, 2);
    assert Next(w1, Process(POLL, 2, "P", PRE_APPROVAL, true, 0)).file.events == map[FIRST := DONE, POLL := DONE];
  }

  lemma RunUnfolds(w: World, front: seq<Action>, a: Action, b: Action)
    ensures Run(w, front + [a, b]) == Next(Next(Run(w, front), a), b)
  {
    RunJoins(w, front, [a, b]);
    RunTwo(Run(w, front), a, b);
  }

  lemma PreApprovedRunEnds()
    ensures Shows(Run(FreshWorld(), PreApprovedRun()), LENDER_PRE_APPROVED, 1, false, map[FIRST := DONE, POLL := DONE], {1, 2})
  {
    var w := FreshWorld();
    var run1 := [OpenLink("P"), RequestDecision(1)];
    var run2 := run1 + [ClaimEvent(FIRST, 1), Process(FIRST, 1, "P", PENDING_RESULT, true, 0)];
    RunTwo(w, OpenLink("P"), RequestDecision(1));
    RunUnfolds(w, run1, ClaimEvent(FIRST, 1), Process(FIRST, 1, "P", PENDING_RESULT, true, 0));
    RunUnfolds(w, run2, ClaimEvent(POLL, 2), Process(POLL, 2, "P", PRE_APPROVAL, true, 0));
    FirstCall();
    FirstCallPending(Run(w, run1));
    FirstPollApproved(Run(w, run2));
  }

  lemma OfferSelectedEnds()
    ensures Shows(Run(FreshWorld(), OfferSelected()), LENDER_PRE_APPROVED, 2, true,
                  map[FIRST := DONE, POLL := DONE, FINAL := QUEUED], {1, 2})
  {
    PreApprovedRunEnds();
    RunUnfolds(FreshWorld(), PreApprovedRun(), SelectOffer(1000.0, 30), RequestDecision(2));
    OfferChosen(Run(FreshWorld(), PreApprovedRun()), map[FIRST := DONE, POLL := DONE], {1, 2});
    assert map[FIRST := DONE, POLL := DONE][FINAL := QUEUED] == map[FIRST := DONE, POLL := DONE, FINAL := QUEUED];
  }

  lemma FinalPending(w: World)
    requires Shows(w, LENDER_PRE_APPROVED, 2, true, map[FIRST := DONE, POLL := DONE, FINAL := QUEUED], {1, 2})
    ensures Stuck(Next(Next(w, ClaimEvent(FINAL, 3)), Process(FINAL, 3, "P", PENDING_RESULT, true, 0)).file)
  {
    Claimed(w, LENDER_PRE_APPROVED, 2, true, w.file.events, w.tokens, FINAL, 3);
    var w1 := Next(w, ClaimEvent(FINAL, 3));
    AnsweredPending(w1, LENDER_PRE_APPROVED, 2, true, w1.file.events, w1.tokens, FINAL, 3);
    assert Next(w1, Process(FINAL, 3, "P", PENDING_RESULT, true, 0)).file.events == map[FIRST := DONE, POLL := DONE, FINAL := DONE];
  }

  /** In the first run, from an application that has paid its fee, nothing can answer the final decision any more. */
  lemma PolledFirstStageGetsStuck()
    ensures Initial(FreshWorld()) && Stuck(Run(FreshWorld(), PolledThenPending()).file)
    ensures NeverReviewed(Run(FreshWorld(), PolledThenPending()))
  {
    OfferSelectedEnds();
    FinalPending(Run(FreshWorld(), OfferSelected()));
    RunUnfolds(FreshWorld(), OfferSelected(), ClaimEvent(FINAL, 3), Process(FINAL, 3, "P", PENDING_RESULT, true, 0));
    var end := Run(FreshWorld(), PolledThenPending());
    forall actions: seq<Action> ensures Unreviewed(Run(end, actions).file) {
      StuckForever(end, actions);
    }
  }

  lemma FinalApproved(w: World, events: map<Key, Event>, tokens: set<nat>)
    requires Shows(w, LENDER_PRE_APPROVED, 2, true, events, tokens) && FINAL in events && events[FINAL] == Running(3)
    ensures var w1 := Next(w, Process(FINAL, 3, "P", APPROVAL, true, 0));
            && w1.file.application.status.PENDING_CREDIT_REVIEW? && w1.file.application.HasOffer() && Unchanged(w1.file)
  {
  }

  lemma ReviewApproves(w: World)
    requires w.file.application.status.PENDING_CREDIT_REVIEW? && w.file.application.HasOffer() && Unchanged(w.file)
    ensures var c := Next(w, Approve(0)).file;
            && c.application.status.LENDER_APPROVED? && c.application.number == NUMBER
            && c.loan.Some? && c.loan.value.lan == LAN
  {
  }

  lemma ApprovedRunEnds()
    ensures var w := Run(FreshWorld(), ApprovedRun());
            && Reachable(w) && w.file.application.status.LENDER_APPROVED? && w.file.application.number == NUMBER
            && w.file.loan.Some? && w.file.loan.value.lan == LAN
  {
    var w, claim, answer := Run(FreshWorld(), OfferSelected()), ClaimEvent(FINAL, 3), Process(FINAL, 3, "P", APPROVAL, true, 0);
    OfferSelectedEnds();
    Claimed(w, LENDER_PRE_APPROVED, 2, true, w.file.events, w.tokens, FINAL, 3);
    FinalApproved(Next(w, claim), Next(w, claim).file.events, Next(w, claim).tokens);
    ReviewApproves(Next(Next(w, claim), answer));
    RunUnfolds(FreshWorld(), OfferSelected(), claim, answer);
    RunJoins(FreshWorld(), OfferSelected() + [claim, answer], [Approve(0)]);
    RunOne(Run(FreshWorld(), OfferSelected() + [claim, answer]), Approve(0));
    assert Initial(FreshWorld());
  }

  lemma NoticeByNumber(c: Case, a: Action)
    requires a.LenderNotice? && a.lan != [] && NameTokens.Trim(a.lan) == a.lan && c.application.number == a.lan
    requires NameTokens.Upper(NameTokens.Trim(a.outcome)) == REJECTED_TEXT
    ensures Acknowledged(c, a) && LenderRejection.NoticeNumber(a.lan) == a.lan
  {
  }

  lemma NoticeIsAcknowledged(c: Case)
    requires c.application.number == NUMBER
    ensures Acknowledged(c, NOTICE) && LenderRejection.NoticeNumber(NUMBER) == NUMBER
  {
    NameTokens.TrimKeeps(NUMBER);
    NameTokens.WordKept(REJECTED_TEXT);
    NoticeByNumber(c, NOTICE);
  }

  lemma NoticeKeepsLoan(w: World, after: seq<Action>)
    requires Reachable(w) && w.file.application.status.LENDER_APPROVED? && w.file.application.number == NUMBER
    requires w.file.loan.Some? && w.file.loan.value.lan == LAN
    ensures var c := Run(Next(w, NOTICE), after).file;
            c.application.status.LENDER_REJECTED? && LenderRejection.InForce(c.loan)
  {
    NoticeIsAcknowledged(w.file);
    RejectedLoans.NoticeDecidesForGood(w, NOTICE, after);
  }

  /** In the second run the application is rejected and its loan stays in force, whatever happens afterwards. */
  lemma NoticeByApplicationNumberKeepsLoan(after: seq<Action>)
    ensures Initial(FreshWorld())
    ensures var c := Run(FreshWorld(), ApprovedRun() + [NOTICE] + after).file;
            c.application.status.LENDER_REJECTED? && LenderRejection.InForce(c.loan)
  {
    ApprovedRunEnds();
    NoticeKeepsLoan(Run(FreshWorld(), ApprovedRun()), after);
    RejectedLoans.RunAround(FreshWorld(), ApprovedRun(), NOTICE, after);
  }
}
