/**
  What each answer of the lender, each review and each step of the worker does to an
  application, in every reachable world of the decision protocol.
 */
module DecisionOutcomes {
  import opened Options
  import opened LenderCase
  import opened LenderProtocol
  import CreditReview
  import LenderDecisions
  import LenderRejection
  import NameTokens

  // ----- The lender's answers

  predicate IsFinalCall(c: Case) { c.link.Some? && c.link.value.decisionVersion >= 2 }

  /** The stage the link is in has been answered: pre-approved or beyond at the first stage, in review or beyond at the final one. */
  predicate Answered(c: Case) { Rank(c.application.status) >= if IsFinalCall(c) then 3 else 2 }

  /** The status an answer leads to. */
  function StatusAfter(decision: Decision, isFinal: bool, before: ApplicationStatus): ApplicationStatus {
    match decision
    case REJECTED => ApplicationStatus.LENDER_REJECTED
    case APPROVED => if isFinal then PENDING_CREDIT_REVIEW else LENDER_PRE_APPROVED
    case PENDING => if isFinal then before else LENDER_REVIEW
    case UNKNOWN => before
  }

  /** The customer's onboarding follows the application, except for a pending answer. */
  ghost predicate CustomerFollows(c: Case, decision: Decision, now: int, c': Case) {
    c'.customer == if decision.PENDING? then c.customer else Customer(c'.application.status, now)
  }

  /** What is written down with an answer. */
  ghost predicate AnswerRecorded(key: Key, r: LenderDecisions.DecisionResult, now: int, c': Case) {
    && c'.application.decisionAt == Some(now) && c'.application.decisionReference == Some(r.decisionReference)
    && c'.link.Some? && c'.link.value.normalizedDecision == Some(r.decision) && c'.link.value.lastSyncedStage == Some(key.stage)
    && c'.link.value.lastResponseStatus == Some(r.providerStatus) && c'.link.value.lastSuccessAt == Some(now)
    && c'.link.value.decisionStatus == (if r.decision.PENDING? then ACKNOWLEDGED else COMPLETED)
  }

  /** The terms and dates that come with an answer. */
  ghost predicate TermsRecorded(c: Case, r: LenderDecisions.DecisionResult, now: int, a': Application, code: Option<string>) {
    match r.decision
    case REJECTED =>
      && a'.decisionReason == Some("Application did not meet lender criteria.")
      && a'.coolingOffDays == Some(if r.coolingOffDays.Some? && r.coolingOffDays.value > 0 then r.coolingOffDays.value else 0)
      && a'.coolingOffUntil == (if a'.coolingOffDays == Some(0) then None else Some(now + a'.coolingOffDays.value * 86400000))
      && a'.nextStatusCheckAt.None? && code.Some? && ReasonCode(r.rejectionReasonCode, code.value)
    case APPROVED =>
      if IsFinalCall(c) then
        && a'.approvedAmount == FirstOf(r.approvedAmount, c.application.approvedAmount)
        && a'.lenderApprovedRoi == FirstOf(r.approvedRoi, FirstOf(ProductRate(c.application), c.application.lenderApprovedRoi))
        && a'.decisionReason.None? && code.None?
      else
        && code.None? && a'.lenderApprovedAmount == r.approvedAmount && r.approvedAmount.Some? && a'.decisionReason.None?
        && a'.coolingOffDays.None? && a'.coolingOffUntil.None? && a'.nextStatusCheckAt.None?
    case PENDING =>
      && a'.nextStatusCheckAt == Some(if r.nextStatusCheckAt.At? then r.nextStatusCheckAt.time else now + 300000)
      && (c.link.Some? ==> code == c.link.value.rejectionReasonCode)
    case UNKNOWN => true
  }

  function FirstOf<T>(a: Option<T>, b: Option<T>): Option<T> { if a.Some? then a else b }

  function ProductRate(a: Application): Option<real> {
    if a.product.Some? then Some(a.product.value.annualRoiPercent) else None
  }

  /** At most the first hundred characters of the lender's reason, or a standard one for a missing or empty reason. */
  ghost predicate ReasonCode(given: Option<string>, code: string) {
    if given.None? || given.value == "" then code == "Application did not meet lender criteria."
    else code <= given.value && |code| == if |given.value| <= 100 then |given.value| else 100
  }

  /** All of the above, for an answer to a stage that had none. */
  ghost predicate AnswerApplied(c: Case, key: Key, r: LenderDecisions.DecisionResult, now: int, c': Case) {
    && c'.application.status == StatusAfter(r.decision, IsFinalCall(c), c.application.status)
    && CustomerFollows(c, r.decision, now, c')
    && AnswerRecorded(key, r, now, c')
    && TermsRecorded(c, r, now, c'.application, c'.link.value.rejectionReasonCode)
    && c'.loan == c.loan && c.link.Some? && c'.link.value.decisionVersion == c.link.value.decisionVersion
    && c'.application.selectedAmount == c.application.selectedAmount && c'.application.selectedTenure == c.application.selectedTenure
  }

  lemma RejectionTable(c: Case, key: Key, r: LenderDecisions.DecisionResult, now: int)
    requires c.link.Some? && r.decision.REJECTED?
    ensures AnswerApplied(c, key, r, now, LenderDecisions.Reject(c, c.link.value, key.stage, r, now).result)
  {
  }

  lemma PreApprovalTable(c: Case, key: Key, r: LenderDecisions.DecisionResult, now: int)
    requires c.link.Some? && r.decision.APPROVED? && !IsFinalCall(c)
    ensures var o := LenderDecisions.PreApprove(c, c.link.value, key.stage, r, now); o.Done? ==> AnswerApplied(c, key, r, now, o.result)
  {
  }

  lemma FinalApprovalTable(c: Case, key: Key, r: LenderDecisions.DecisionResult, now: int)
    requires c.link.Some? && r.decision.APPROVED? && IsFinalCall(c)
    ensures var o := LenderDecisions.ApproveFinally(c, c.link.value, key.stage, r, now); o.Done? ==> AnswerApplied(c, key, r, now, o.result)
  {
  }

  lemma PendingTable(c: Case, key: Key, r: LenderDecisions.DecisionResult, canPoll: bool, now: int)
    requires c.link.Some? && r.decision.PENDING?
    ensures var o := LenderDecisions.Postpone(c, c.link.value, key, r, canPoll, now); o.Done? ==> AnswerApplied(c, key, r, now, o.result)
  {
  }

  lemma DecisionTable(c: Case, key: Key, r: LenderDecisions.DecisionResult, canPoll: bool, now: int)
    requires c.link.Some?
    ensures var o := LenderDecisions.Decide(c, c.link.value, key, r, canPoll, now); o.Done? ==> AnswerApplied(c, key, r, now, o.result)
  {
    LenderDecisions.DecideIsOneOfFour(c, c.link.value, key, r, canPoll, now);
    match r.decision
    case REJECTED => RejectionTable(c, key, r, now);
    case APPROVED => if IsFinalCall(c) { FinalApprovalTable(c, key, r, now); } else { PreApprovalTable(c, key, r, now); }
    case PENDING => PendingTable(c, key, r, canPoll, now);
    case UNKNOWN =>
  }

  lemma AnsweredIsResolved(c: Case)
    requires StageOk(c) && c.link.Some?
    ensures Answered(c) <==> LenderDecisions.AlreadyResolved(c.application.status, LenderDecisions.IsFinal(c.link.value))
  {
  }

  lemma UnresolvedIsDecided(c: Case, key: Key, lockToken: nat, partner: string, r: LenderDecisions.DecisionResult, canPoll: bool, now: int)
    requires LenderDecisions.Process(c, key, lockToken, partner, r, canPoll, now).Done?
    ensures c.link.Some?
    ensures !LenderDecisions.AlreadyResolved(c.application.status, LenderDecisions.IsFinal(c.link.value)) ==>
              var o := LenderDecisions.Decide(c, c.link.value, key, r, canPoll, now);
              o.Done? && LenderDecisions.Process(c, key, lockToken, partner, r, canPoll, now).result == o.result.(events := LenderDecisions.CompleteIn(o.result.events, key))
  {
  }

  /**
    In every reachable world, what an applied answer does: to a stage that was answered before
    nothing but closing its event; otherwise the status, the customer and the recorded terms
    are those of the answer at that stage, and selection and loan are left alone.
   */
  lemma AppliedAnswer(w: World, a: Action)
    requires Reachable(w) && a.Process? && Next(w, a) != w
    ensures if Answered(w.file) then Next(w, a).file == w.file.(events := Next(w, a).file.events)
            else w.file.link.Some? && AnswerApplied(w.file, a.key, a.result, a.now, Next(w, a).file)
  {
    var c := w.file;
    assert StageOk(c) by { ReachableInv(w); }
    UnresolvedIsDecided(c, a.key, a.lockToken, a.partnerApplicationId, a.result, a.canPollStatus, a.now);
    AnsweredIsResolved(c);
    if !Answered(c) {
      DecisionTable(c, a.key, a.result, a.canPollStatus, a.now);
    }
  }

  /** A step that rejects an undecided application does so for good. */
  lemma RejectedForGood(w: World, a: Action, actions: seq<Action>)
    requires Reachable(w) && Rank(w.file.application.status) < 4
    requires Next(w, a).file.application.status.LENDER_REJECTED? && Next(w, a).file.loan == w.file.loan
    ensures Run(Next(w, a), actions).file.application == Next(w, a).file.application
    ensures Run(Next(w, a), actions).file.customer == Next(w, a).file.customer && Run(Next(w, a), actions).file.loan.None?
  {
    NoLoanYet(w);
    NextReachable(w, a);
    RejectedStays(Next(w, a), actions);
  }

  lemma NoLoanYet(w: World)
    requires Reachable(w) && Rank(w.file.application.status) < 4
    ensures w.file.loan.None?
  {
    ReachableInv(w);
  }

  lemma NextReachable(w: World, a: Action)
    requires Reachable(w)
    ensures Reachable(Next(w, a))
  {
    RunReachable(w, [a]);
    RunOne(w, a);
  }

  lemma RejectedStays(w: World, actions: seq<Action>)
    requires Reachable(w) && w.file.application.status.LENDER_REJECTED?
    ensures SameDecision(w.file, Run(w, actions).file)
  {
    DecidedForever(w, actions);
  }

  /** After an applied rejection no continuation ever reaches review or approval, or has a loan. */
  lemma RejectionIsForGood(w: World, a: Action, actions: seq<Action>)
    requires Reachable(w) && a.Process? && a.result.decision.REJECTED? && Next(w, a) != w && !Answered(w.file)
    ensures var c := Run(Next(w, a), actions).file;
            c.application.status.LENDER_REJECTED? && c.customer.onboardingStatus.LENDER_REJECTED? && c.loan.None?
  {
    AppliedAnswer(w, a);
    assert Rank(w.file.application.status) < 4;
    RejectedForGood(w, a, actions);
  }

  // ----- Why something is refused

  /** The event is under the current lease, and the answer is for the lender's reference of this application. */
  predicate Addressed(c: Case, key: Key, lockToken: nat, partner: string) {
    Holds(c.events, key, lockToken) && c.link.Some? && c.link.value.partnerApplicationId == Some(partner)
  }

  /** The exact condition of each of the five errors of a decision, in every reachable world. */
  lemma DecisionErrors(w: World, key: Key, lockToken: nat, partner: string, r: LenderDecisions.DecisionResult, canPoll: bool, now: int)
    requires Reachable(w)
    ensures var c, o := w.file, LenderDecisions.Process(w.file, key, lockToken, partner, r, canPoll, now);
            var open := Addressed(c, key, lockToken, partner) && !Answered(c);
            && (o == LenderDecisions.Outcome.Failure(LenderDecisions.LENDER_EVENT_LEASE_LOST) <==> !Holds(c.events, key, lockToken))
            && (o == LenderDecisions.Outcome.Failure(LenderDecisions.LENDER_DECISION_REFERENCE_MISMATCH) <==>
                  Holds(c.events, key, lockToken) && !Addressed(c, key, lockToken, partner))
            && (o == LenderDecisions.Outcome.Failure(LenderDecisions.LENDER_APPROVAL_TERMS_MISSING) <==>
                  open && r.decision.APPROVED? && !IsFinalCall(c) && r.approvedAmount.None?)
            && (o == LenderDecisions.Outcome.Failure(LenderDecisions.LENDER_PENDING_DATE_INVALID) <==>
                  open && r.decision.PENDING? && r.nextStatusCheckAt.Malformed?)
            && (o == LenderDecisions.Outcome.Failure(LenderDecisions.LENDER_DECISION_UNSUPPORTED) <==> open && r.decision.UNKNOWN?)
  {
    assert StageOk(w.file) by { ReachableInv(w); }
    if w.file.link.Some? { AnsweredIsResolved(w.file); }
  }

  /** The first reason that applies is the one that credit review gives. */
  lemma ReviewErrors(c: Case, reason: Option<string>, now: int)
    ensures var app, o := c.application, CreditReview.Approve(c, now);
            if app.status != PENDING_CREDIT_REVIEW then o == CreditReview.Refused(CreditReview.NOT_PENDING_CREDIT_REVIEW)
            else if !app.HasOffer() || app.platformLan.None? || app.platformLan == Some("") then o == CreditReview.Refused(CreditReview.OFFER_MISSING)
            else if app.lenderApprovedRoi.None? && app.product.None? then o == CreditReview.Refused(CreditReview.INTEREST_RATE_UNKNOWN)
            else if app.product.None? then o == CreditReview.Refused(CreditReview.PROCESSING_FEE_UNKNOWN)
            else o.Done?
    ensures var o := CreditReview.Reject(c, reason, now);
            if c.application.status != PENDING_CREDIT_REVIEW then o == CreditReview.Refused(CreditReview.NOT_PENDING_CREDIT_REVIEW) else o.Done?
  {
  }

  /** And so with a notice of the lender. */
  lemma NoticeErrors(c: Case, lan: string, outcome: string, message: string, now: int)
    ensures var o := LenderRejection.Receive(c, lan, outcome, message, now);
            if NameTokens.Trim(lan) == "" then o == LenderRejection.Refused(LenderRejection.LAN_REQUIRED)
            else if NameTokens.Upper(NameTokens.Trim(outcome)) != "REJECTED" then o == LenderRejection.Refused(LenderRejection.STATUS_UNSUPPORTED)
            else if !LenderRejection.Names(c, NameTokens.Trim(lan)) then o == LenderRejection.Refused(LenderRejection.NOT_FOUND)
            else o.Acknowledged?
  {
  }

  // ----- Credit review

  /** What credit review needs to know before it can approve. */
  predicate Reviewable(a: Application) {
    && a.status.PENDING_CREDIT_REVIEW? && a.HasOffer()
    && a.platformLan.Some? && a.platformLan.value != "" && a.product.Some?
  }

  /**
    In every reachable world approval by credit review happens exactly for an application in
    review whose account number and product are known. It then makes the application and the
    customer approved, with a new loan on the selected terms, at the lender's rate, or the
    product's if the lender gave none.
   */
  lemma ReviewApproves(w: World, now: int)
    requires Reachable(w)
    ensures var c, c' := w.file, Next(w, Approve(now)).file;
            if Reviewable(c.application) then
              && c'.application == c.application.(status := LENDER_APPROVED, decisionAt := Some(now),
                   lenderApprovedRoi := FirstOf(c.application.lenderApprovedRoi, ProductRate(c.application)))
              && c'.customer == Customer(LENDER_APPROVED, now) && c'.events == c.events && c'.link == c.link
              && c'.loan.Some? && !c'.loan.value.cancelled && Some(c'.loan.value.lan) == c.application.platformLan
              && Some(c'.loan.value.approvedAmount) == c.application.selectedAmount
              && Some(c'.loan.value.tenureDays) == c.application.selectedTenure
              && Some(c'.loan.value.interestRate) == c'.application.lenderApprovedRoi && c'.loan.value.acceptedAt == now
            else c' == c
  {
    assert CaseOk(w.file) by { ReachableInv(w); }
  }

  /** The reason given to the customer: the reviewer's own one without outer white space, or a standard one. */
  ghost predicate ReviewReason(given: Option<string>, text: string) {
    if given.Some? && NameTokens.Trim(given.value) != ""
    then text == "Credit review rejected: " + NameTokens.Trim(given.value)
    else text == "Rejected by internal credit review."
  }

  lemma ReviewRejectionEffect(w: World, reason: Option<string>, now: int)
    ensures var w' := Next(w, Action.Reject(reason, now));
            if w.file.application.status.PENDING_CREDIT_REVIEW? then
              && w'.file.application.status.LENDER_REJECTED? && w'.file.customer == Customer(ApplicationStatus.LENDER_REJECTED, now)
              && w'.file.application.decisionReason.Some? && ReviewReason(reason, w'.file.application.decisionReason.value)
              && w'.file.loan == w.file.loan
            else w' == w
  {
  }

  /** A rejection by credit review happens exactly for an application in review, which it ends for good without a loan. */
  lemma ReviewRejects(w: World, reason: Option<string>, now: int, actions: seq<Action>)
    requires Reachable(w)
    ensures var c, w' := w.file, Next(w, Action.Reject(reason, now));
            if c.application.status.PENDING_CREDIT_REVIEW? then
              && w'.file.application.status.LENDER_REJECTED? && w'.file.customer == Customer(ApplicationStatus.LENDER_REJECTED, now)
              && w'.file.application.decisionReason.Some? && ReviewReason(reason, w'.file.application.decisionReason.value)
              && Run(w', actions).file.application.status.LENDER_REJECTED? && Run(w', actions).file.loan.None?
            else w' == w
  {
    ReviewRejectionEffect(w, reason, now);
    if w.file.application.status.PENDING_CREDIT_REVIEW? {
      RejectedForGood(w, Action.Reject(reason, now), actions);
    }
  }

  // ----- The lender's notice

  /** A notice is acknowledged exactly if it says REJECTED, in any case and spacing, for a non-empty number of this application. */
  lemma AcknowledgedIff(w: World, a: Action)
    requires Reachable(w) && a.LenderNotice?
    ensures var c, number := w.file, NameTokens.Trim(a.lan);
            Acknowledged(c, a) <==>
              && number != "" && NameTokens.Upper(NameTokens.Trim(a.outcome)) == "REJECTED"
              && (c.application.number == number || c.application.platformLan == Some(number))
  {
    assert LoanOk(w.file) by { ReachableInv(w); }
  }

  /** An acknowledged notice always leaves the application rejected, and a refused one changes nothing. */
  lemma NoticeRejects(w: World, a: Action)
    requires Reachable(w) && a.LenderNotice?
    ensures if Acknowledged(w.file, a) then Next(w, a).file.application.status.LENDER_REJECTED? else Next(w, a) == w
    ensures Next(w, a) != w ==>
              var c, c' := w.file, Next(w, a).file;
              && c'.application == c.application.(status := ApplicationStatus.LENDER_REJECTED, decisionReason := Some(a.message),
                                                  decisionAt := Some(a.now), nextStatusCheckAt := None)
              && c'.customer == Customer(ApplicationStatus.LENDER_REJECTED, a.now)
              && (c.link.Some? <==> c'.link.Some?)
              && (c.link.Some? ==>
                    && c'.link.value.normalizedDecision == Some(REJECTED) && c'.link.value.decisionStatus == COMPLETED
                    && c'.link.value.decisionVersion == c.link.value.decisionVersion && c'.link.value.lastSuccessAt == Some(a.now)
                    && c'.link.value.rejectionReasonCode == Some(if |a.message| > 100 then a.message[..100] else a.message))
  {
    assert LoanOk(w.file) by { ReachableInv(w); }
  }

  // ----- Offers, requests and leases

  /** An offer can be selected exactly once, on a pre-approved application, for at least a day; the final decision only after that. */
  lemma OfferAndRequestIff(w: World, amount: real, tenureDays: nat, version: int)
    requires Reachable(w)
    ensures var c, c' := w.file, Next(w, SelectOffer(amount, tenureDays)).file;
            if c.application.status.LENDER_PRE_APPROVED? && c.application.selectedAmount.None? && tenureDays > 0
            then c' == c.(application := c.application.(selectedAmount := Some(amount), selectedTenure := Some(tenureDays)))
            else c' == c
    ensures var c, c' := w.file, Next(w, RequestDecision(version)).file;
            if c.link.Some? && (version == 1 || (version == 2 && c.application.selectedAmount.Some?))
            then
              && Key(DECISION, version) in c'.events && c'.application == c.application && c'.loan == c.loan
              && (Key(DECISION, version) !in c.events ==> Waiting(c'.events[Key(DECISION, version)]))
              && (forall key :: key in c.events ==> key in c'.events && c'.events[key] == c.events[key])
              && c'.link == Some(if version == 1 && IsFinalCall(c) then c.link.value
                                 else c.link.value.(decisionVersion := version, decisionStatus := OperationStatus.PENDING))
            else c' == c
  {
    assert StageOk(w.file) by { ReachableInv(w); }
    assert w.file.link.Some? ==> w.file.link.value.decisionVersion <= 2 by { VersionAtMostTwo(w); }
  }

  lemma VersionKept(w: World, a: Action)
    requires w.file.link.Some? ==> 1 <= w.file.link.value.decisionVersion <= 2
    ensures var link := Next(w, a).file.link; link.Some? ==> 1 <= link.value.decisionVersion <= 2
  {
  }

  lemma {:induction false} RunVersion(w: World, actions: seq<Action>)
    requires Initial(w)
    ensures var link := Run(w, actions).file.link; link.Some? ==> 1 <= link.value.decisionVersion <= 2
    decreases |actions|
  {
    if actions != [] {
      RunVersion(w, actions[..|actions| - 1]);
      VersionKept(Run(w, actions[..|actions| - 1]), actions[|actions| - 1]);
    }
  }

  lemma VersionAtMostTwo(w: World)
    requires Reachable(w)
    ensures w.file.link.Some? ==> 1 <= w.file.link.value.decisionVersion <= 2
  {
    var w0, actions :| Initial(w0) && w == Run(w0, actions);
    RunVersion(w0, actions);
  }

  /** Claiming a waiting event under a new token gives its lease; failing or recovering it ends the lease and decides whether it waits again. */
  lemma LeaseLifecycle(w: World, key: Key, lockToken: nat, retrying: bool)
    requires key in w.file.events
    ensures Waiting(w.file.events[key]) && lockToken !in w.tokens ==>
              Holds(Next(w, ClaimEvent(key, lockToken)).file.events, key, lockToken)
    ensures Holds(w.file.events, key, lockToken) ==>
              var e := Next(w, FailEvent(key, lockToken, retrying)).file.events[key];
              e.lockToken.None? && (Waiting(e) <==> retrying) && (e.status.FAILED? <==> !retrying)
    ensures w.file.events[key].status.PROCESSING? ==>
              var e := Next(w, RecoverLease(key)).file.events[key]; e.lockToken.None? && Waiting(e)
    ensures w.file.events[key].status.FAILED? && Rank(w.file.application.status) < 4 ==> Waiting(Next(w, Replay(key)).file.events[key])
  {
  }
}
