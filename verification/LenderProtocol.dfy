/**
  Runs of the lender decision protocol on one application: decisions under event leases,
  offer selection, the final decision request and manual review, in any order and any
  number, together with the worker steps that claim, lose, fail and replay events.
 */
module LenderProtocol {
  import opened Options
  import opened LenderCase
  import CustomerJourney
  import LenderDecisions
  import CreditReview
  import LenderRejection

  /** `tokens` are all lock tokens ever handed out; `applied` lists the events closed by a decision, in order. */
  datatype World = World(file: Case, tokens: set<nat>, applied: seq<Key>)

  datatype Action =
    | Process(key: Key, lockToken: nat, partnerApplicationId: string, result: LenderDecisions.DecisionResult,
              canPollStatus: bool, now: int)
    | Approve(now: int)
    | Reject(reason: Option<string>, now: int)
    | LenderNotice(lan: string, outcome: string, message: string, now: int)
    | SelectOffer(amount: real, tenureDays: nat)
    | RequestDecision(version: int)
    | ClaimEvent(key: Key, lockToken: nat)
    | RecoverLease(key: Key)
    | FailEvent(key: Key, lockToken: nat, retrying: bool)
    | Replay(key: Key)
    | Onboard(status: ApplicationStatus)
    | OpenLink(partnerApplicationId: string)
    | LinkProgress(create: OperationStatus, update: OperationStatus, decision: OperationStatus)

  /** The order in which an application's status may move. */
  function Rank(s: ApplicationStatus): nat {
    match s
    case LENDER_REVIEW => 1
    case LENDER_PRE_APPROVED => 2
    case PENDING_CREDIT_REVIEW => 3
    case LENDER_APPROVED => 4
    case LENDER_REJECTED => 5
    case LOAN_CLOSED => 6
    case _ => 0
  }

  predicate Waiting(e: Event) { e.status == OperationStatus.PENDING || e.status.RETRY_PENDING? }

  function SetEvent(w: World, key: Key, e: Event): World {
    w.(file := w.file.(events := w.file.events[key := e]))
  }

  /** Choosing an offer is possible once, on a pre-approved application. */
  function ChooseOffer(w: World, amount: real, tenureDays: nat): World {
    var app := w.file.application;
    if !app.status.LENDER_PRE_APPROVED? || app.HasOffer() || tenureDays == 0 then w
    else w.(file := w.file.(application := app.(selectedAmount := Some(amount), selectedTenure := Some(tenureDays))))
  }

  /** The final decision (version 2) is only requested for a selected offer. */
  function AskDecision(w: World, version: int): World {
    if w.file.link.None? || version < 1 || version > 2 || (version == 2 && !w.file.application.HasOffer()) then w
    else
      var link := w.file.link.value;
      w.(file := w.file.(
        events := LenderDecisions.Upsert(w.file.events, Key(DECISION, version)),
        link := Some(if link.decisionVersion <= version
                     then link.(decisionStatus := OperationStatus.PENDING, decisionVersion := version) else link)))
  }

  function Reviewed(w: World, r: CreditReview.Review): World {
    match r case Done(c) => w.(file := c) case Refused(_) => w
  }

  function Noticed(w: World, answer: LenderRejection.Answer): World {
    match answer case Acknowledged(c) => w.(file := c) case Refused(_) => w
  }

  function Decided(w: World, key: Key, o: LenderDecisions.Outcome): World {
    match o case Done(c) => w.(file := c, applied := w.applied + [key]) case Failure(_) => w
  }

  /** The world after an action; an action that is not possible changes nothing. */
  function Next(w: World, a: Action): World {
    var events := w.file.events;
    match a
    case Process(key, lockToken, partner, r, canPoll, now) =>
      Decided(w, key, LenderDecisions.Process(w.file, key, lockToken, partner, r, canPoll, now))
    case Approve(now) => Reviewed(w, CreditReview.Approve(w.file, now))
    case Reject(reason, now) => Reviewed(w, CreditReview.Reject(w.file, reason, now))
    case LenderNotice(lan, outcome, message, now) => Noticed(w, LenderRejection.Receive(w.file, lan, outcome, message, now))
    case SelectOffer(amount, tenureDays) => ChooseOffer(w, amount, tenureDays)
    case RequestDecision(version) => AskDecision(w, version)
    case ClaimEvent(key, lockToken) =>
      if key !in events || !Waiting(events[key]) || lockToken in w.tokens then w
      else SetEvent(w, key, Event(OperationStatus.PROCESSING, Some(lockToken))).(tokens := w.tokens + {lockToken})
    case RecoverLease(key) =>
      if key !in events || !events[key].status.PROCESSING? then w else SetEvent(w, key, Event(RETRY_PENDING, None))
    case FailEvent(key, lockToken, retrying) =>
      if !Holds(events, key, lockToken) then w
      else SetEvent(w, key, Event(if retrying then RETRY_PENDING else OperationStatus.FAILED, None))
    case Replay(key) =>
      if key !in events || !(events[key].status.FAILED? || events[key].status.RETRY_PENDING?)
         || Rank(w.file.application.status) >= 4 then w
      else SetEvent(w, key, Event(OperationStatus.PENDING, None))
    case Onboard(status) =>
      if Rank(w.file.application.status) != 0 || Rank(status) != 0 then w
      else w.(file := w.file.(application := w.file.application.(status := status)))
    case OpenLink(partner) =>
      if w.file.link.Some? then w
      else w.(file := w.file.(link := Some(Link(Some(partner), 1, ACKNOWLEDGED, OperationStatus.NOT_STARTED,
                                                OperationStatus.NOT_STARTED, None, None, None, None, None))))
    case LinkProgress(create, update, decision) =>
      if w.file.link.None? then w
      else w.(file := w.file.(link := Some(w.file.link.value.(createStatus := create, updateStatus := update, decisionStatus := decision))))
  }

  function Run(w: World, actions: seq<Action>): World {
    if actions == [] then w else Next(Run(w, actions[..|actions| - 1]), actions[|actions| - 1])
  }

  /** An application before its first lender decision: nothing selected, no loan, no outbox event. */
  ghost predicate Initial(w: World) {
    && Rank(w.file.application.status) == 0
    && w.file.application.selectedAmount.None? && w.file.application.selectedTenure.None?
    && w.file.loan.None? && w.file.events == map[] && w.tokens == {} && w.applied == []
    && (w.file.link.Some? ==> w.file.link.value.decisionVersion == 1)
  }

  ghost predicate Reachable(w: World) { exists w0, actions :: Initial(w0) && w == Run(w0, actions) }

  // ----- Invariant on the application, the link, the customer and the loan

  /** Which decision stage the link is in, against how far the application has come. */
  ghost predicate StageOk(c: Case) {
    var status := c.application.status;
    && !status.LOAN_CLOSED?
    && (1 <= Rank(status) <= 4 ==> c.link.Some?)
    && (c.link.Some? ==> c.link.value.decisionVersion >= 1)
    && (c.link.Some? && LenderDecisions.IsFinal(c.link.value) ==> Rank(status) >= 2 && c.application.HasOffer())
    && (status.PENDING_CREDIT_REVIEW? || status.LENDER_APPROVED? ==> LenderDecisions.IsFinal(c.link.value))
    && (c.application.selectedAmount.Some? || c.application.selectedTenure.Some? ==> c.application.HasOffer() && Rank(status) >= 2)
    && (c.application.HasOffer() ==> c.application.selectedTenure.value > 0)
    && (Rank(status) >= 2 ==> c.customer.onboardingStatus == status)
  }

  ghost predicate LoanOk(c: Case) {
    && (c.application.status.LENDER_APPROVED? ==> LenderRejection.InForce(c.loan))
    && (c.loan.Some? ==> c.application.status.LENDER_APPROVED? || c.application.status.LENDER_REJECTED?)
    && (c.loan.Some? && c.loan.value.cancelled ==> c.application.status.LENDER_REJECTED?)
    && (c.loan.Some? ==>
          && CreditReview.FairFigures(c.loan.value)
          && Some(c.loan.value.lan) == c.application.platformLan
          && Some(c.loan.value.approvedAmount) == c.application.selectedAmount
          && Some(c.loan.value.tenureDays) == c.application.selectedTenure)
  }

  ghost predicate CaseOk(c: Case) { StageOk(c) && LoanOk(c) }

  /** What every successful decision keeps. */
  ghost predicate GoodOutcome(c: Case, o: LenderDecisions.Outcome) {
    o.Done? ==> CaseOk(o.result) && Forward(c.application.status, o.result.application.status)
  }

  lemma ApprovalKeepsCase(c: Case, stage: Stage, r: LenderDecisions.DecisionResult, now: int)
    requires CaseOk(c) && c.link.Some? && !LenderDecisions.AlreadyResolved(c.application.status, LenderDecisions.IsFinal(c.link.value))
    ensures LenderDecisions.IsFinal(c.link.value) ==> GoodOutcome(c, LenderDecisions.ApproveFinally(c, c.link.value, stage, r, now))
    ensures !LenderDecisions.IsFinal(c.link.value) ==> GoodOutcome(c, LenderDecisions.PreApprove(c, c.link.value, stage, r, now))
  {
  }

  lemma RejectionKeepsCase(c: Case, stage: Stage, r: LenderDecisions.DecisionResult, now: int)
    requires CaseOk(c) && c.link.Some? && !LenderDecisions.AlreadyResolved(c.application.status, LenderDecisions.IsFinal(c.link.value))
    ensures GoodOutcome(c, LenderDecisions.Reject(c, c.link.value, stage, r, now))
  {
  }

  lemma PostponementKeepsCase(c: Case, key: Key, r: LenderDecisions.DecisionResult, canPoll: bool, now: int)
    requires CaseOk(c) && c.link.Some? && !LenderDecisions.AlreadyResolved(c.application.status, LenderDecisions.IsFinal(c.link.value))
    ensures GoodOutcome(c, LenderDecisions.Postpone(c, c.link.value, key, r, canPoll, now))
  {
  }

  lemma ProcessKeepsCase(c: Case, key: Key, lockToken: nat, partner: string, r: LenderDecisions.DecisionResult, canPoll: bool, now: int)
    requires CaseOk(c)
    ensures GoodOutcome(c, LenderDecisions.Process(c, key, lockToken, partner, r, canPoll, now))
  {
    if c.link.Some? && !LenderDecisions.AlreadyResolved(c.application.status, LenderDecisions.IsFinal(c.link.value)) {
      ApprovalKeepsCase(c, key.stage, r, now);
      RejectionKeepsCase(c, key.stage, r, now);
      PostponementKeepsCase(c, key, r, canPoll, now);
      LenderDecisions.DecideIsOneOfFour(c, c.link.value, key, r, canPoll, now);
      assert GoodOutcome(c, LenderDecisions.Decide(c, c.link.value, key, r, canPoll, now));
    }
  }

  lemma ApproveKeepsCase(c: Case, now: int)
    requires CaseOk(c)
    ensures var o := CreditReview.Approve(c, now);
            o.Done? ==> CaseOk(o.result) && Forward(c.application.status, o.result.application.status)
  {
  }

  lemma RejectKeepsCase(c: Case, reason: Option<string>, now: int)
    requires CaseOk(c)
    ensures var o := CreditReview.Reject(c, reason, now);
            o.Done? ==> CaseOk(o.result) && Forward(c.application.status, o.result.application.status)
  {
  }

  /** b is reached from a without moving backwards; a decided application stays as it is. */
  predicate Forward(a: ApplicationStatus, b: ApplicationStatus) {
    Rank(a) < Rank(b) || a == b || (Rank(a) == 0 && Rank(b) == 0)
  }

  lemma NoticeKeepsCase(w: World, a: Action)
    requires CaseOk(w.file) && a.LenderNotice?
    ensures CaseOk(Next(w, a).file) && Forward(w.file.application.status, Next(w, a).file.application.status)
  {
  }

  /** Choosing an offer, or requesting a decision for a chosen one, keeps the case. */
  lemma OfferStepKeepsCase(w: World, a: Action)
    requires CaseOk(w.file) && (a.SelectOffer? || a.RequestDecision?)
    ensures CaseOk(Next(w, a).file) && Next(w, a).file.application.status == w.file.application.status
  {
  }

  lemma EarlyStepKeepsCase(w: World, a: Action)
    requires CaseOk(w.file) && (a.Onboard? || a.OpenLink? || a.LinkProgress?)
    ensures CaseOk(Next(w, a).file) && Forward(w.file.application.status, Next(w, a).file.application.status)
  {
  }

  /** Worker and operator steps touch nothing but events. */
  lemma EventStepKeepsCase(w: World, a: Action)
    requires CaseOk(w.file) && (a.ClaimEvent? || a.RecoverLease? || a.FailEvent? || a.Replay?)
    ensures CaseOk(Next(w, a).file) && Next(w, a).file == w.file.(events := Next(w, a).file.events)
  {
  }

  lemma ActionKeepsCase(w: World, a: Action)
    requires CaseOk(w.file)
    ensures CaseOk(Next(w, a).file) && Forward(w.file.application.status, Next(w, a).file.application.status)
  {
    match a
    case Process(key, lockToken, partner, r, canPoll, now) => ProcessKeepsCase(w.file, key, lockToken, partner, r, canPoll, now);
    case Approve(now) => ApproveKeepsCase(w.file, now);
    case Reject(reason, now) => RejectKeepsCase(w.file, reason, now);
    case LenderNotice(_, _, _, _) => NoticeKeepsCase(w, a);
    case SelectOffer(_, _) => OfferStepKeepsCase(w, a);
    case RequestDecision(_) => OfferStepKeepsCase(w, a);
    case Onboard(_) => EarlyStepKeepsCase(w, a);
    case OpenLink(_) => EarlyStepKeepsCase(w, a);
    case LinkProgress(_, _, _) => EarlyStepKeepsCase(w, a);
    case _ => EventStepKeepsCase(w, a);
  }

  // ----- Invariant on events, lock tokens and status polls

  /** The STATUS events carry versions 1 to k, and all but the newest are completed. */
  ghost predicate StatusVersions(events: map<Key, Event>, k: int) {
    && 0 <= k <= LenderDecisions.MAX_STATUS_CHECKS
    && (forall v :: Key(STATUS, v) in events <==> 1 <= v <= k)
    && (forall v :: 1 <= v < k ==> events[Key(STATUS, v)].status.COMPLETED?)
  }

  ghost predicate EventsOk(w: World) {
    && (exists k :: StatusVersions(w.file.events, k))
    && (forall key :: key in w.file.events ==> EventOk(w.file.events[key], w.tokens))
    && (forall i :: 0 <= i < |w.applied| ==> Closed(w.file.events, w.applied[i]))
    && (forall i, j :: 0 <= i < j < |w.applied| ==> w.applied[i] != w.applied[j])
  }

  ghost predicate Closed(events: map<Key, Event>, key: Key) { key in events && events[key].status.COMPLETED? }

  ghost predicate EventOk(e: Event, tokens: set<nat>) {
    && (e.status.PROCESSING? <==> e.lockToken.Some?)
    && (e.lockToken.Some? ==> e.lockToken.value in tokens)
  }

  /** Replacing one open event keeps the event invariant. */
  lemma SetEventKeeps(w: World, key: Key, e: Event, tokens: set<nat>)
    requires EventsOk(w) && key in w.file.events && !w.file.events[key].status.COMPLETED?
    requires w.tokens <= tokens && EventOk(e, tokens)
    ensures EventsOk(SetEvent(w, key, e).(tokens := tokens))
  {
    var k :| StatusVersions(w.file.events, k);
    assert StatusVersions(w.file.events[key := e], k);
  }

  lemma UpsertKeeps(w: World, key: Key)
    requires EventsOk(w) && key.stage.DECISION?
    ensures EventsOk(w.(file := w.file.(events := LenderDecisions.Upsert(w.file.events, key))))
  {
    var k :| StatusVersions(w.file.events, k);
    assert StatusVersions(LenderDecisions.Upsert(w.file.events, key), k);
  }

  /** Closing the event of a decision, after its follow-up poll, if any, has been queued. */
  lemma CloseKeeps(w: World, key: Key, lockToken: nat, events: map<Key, Event>, w': World)
    requires EventsOk(w) && Holds(w.file.events, key, lockToken)
    requires events == w.file.events
          || (LenderDecisions.NextStatusVersion(key) <= LenderDecisions.MAX_STATUS_CHECKS
              && events == LenderDecisions.Upsert(w.file.events, Key(STATUS, LenderDecisions.NextStatusVersion(key))))
    requires w'.file.events == LenderDecisions.CompleteIn(events, key)
    requires w'.tokens == w.tokens && w'.applied == w.applied + [key]
    ensures EventsOk(w')
  {
    var k :| StatusVersions(w.file.events, k);
    var v := LenderDecisions.NextStatusVersion(key);
    if events == w.file.events || Key(STATUS, v) in w.file.events {
      assert StatusVersions(w'.file.events, k);
    } else {
      if key.stage.STATUS? {
        assert key == Key(STATUS, key.version);
        assert key.version == k;
      } else {
        assert k == 0 by { assert Key(STATUS, 1) !in w.file.events; }
      }
      assert v == k + 1;
      assert StatusVersions(w'.file.events, k + 1);
    }
    forall i | 0 <= i < |w'.applied| ensures Closed(w'.file.events, w'.applied[i]) {
      if i < |w.applied| { assert Closed(w.file.events, w.applied[i]); }
    }
    forall i, j | 0 <= i < j < |w'.applied| ensures w'.applied[i] != w'.applied[j] {
      assert Closed(w.file.events, w.applied[i]);
    }
  }

  /** The events left behind by a decision. */
  lemma DecisionEvents(c: Case, key: Key, lockToken: nat, partner: string, r: LenderDecisions.DecisionResult, canPoll: bool, now: int)
    returns (events: map<Key, Event>)
    requires LenderDecisions.Process(c, key, lockToken, partner, r, canPoll, now).Done?
    ensures Holds(c.events, key, lockToken)
    ensures events == c.events
         || (LenderDecisions.NextStatusVersion(key) <= LenderDecisions.MAX_STATUS_CHECKS
             && events == LenderDecisions.Upsert(c.events, Key(STATUS, LenderDecisions.NextStatusVersion(key))))
    ensures LenderDecisions.Process(c, key, lockToken, partner, r, canPoll, now).result.events == LenderDecisions.CompleteIn(events, key)
  {
    if LenderDecisions.AlreadyResolved(c.application.status, LenderDecisions.IsFinal(c.link.value)) {
      events := c.events;
    } else {
      events := LenderDecisions.Decide(c, c.link.value, key, r, canPoll, now).result.events;
    }
  }

  lemma SameEvents(w: World, w': World)
    requires EventsOk(w) && w'.file.events == w.file.events && w'.tokens == w.tokens && w'.applied == w.applied
    ensures EventsOk(w')
  {
  }

  lemma ActionKeepsEvents(w: World, a: Action)
    requires EventsOk(w)
    ensures EventsOk(Next(w, a))
  {
    var w', events := Next(w, a), w.file.events;
    match a
    case Process(key, lockToken, partner, r, canPoll, now) =>
      if LenderDecisions.Process(w.file, key, lockToken, partner, r, canPoll, now).Done? {
        var queued := DecisionEvents(w.file, key, lockToken, partner, r, canPoll, now);
        CloseKeeps(w, key, lockToken, queued, w');
      }
    case RequestDecision(version) =>
      UpsertKeeps(w, Key(DECISION, version));
      SameEvents(w, w.(file := w.file.(link := w'.file.link)));
      if w' != w { SameEvents(w.(file := w.file.(events := w'.file.events)), w'); }
    case ClaimEvent(key, lockToken) =>
      if w' != w { SetEventKeeps(w, key, Event(OperationStatus.PROCESSING, Some(lockToken)), w.tokens + {lockToken}); }
    case RecoverLease(key) => if w' != w { SetEventKeeps(w, key, Event(RETRY_PENDING, None), w.tokens); }
    case FailEvent(key, _, retrying) =>
      if w' != w { SetEventKeeps(w, key, Event(if retrying then RETRY_PENDING else OperationStatus.FAILED, None), w.tokens); }
    case Replay(key) => if w' != w { SetEventKeeps(w, key, Event(OperationStatus.PENDING, None), w.tokens); }
    case _ => SameEvents(w, w');
  }

  ghost predicate Inv(w: World) { CaseOk(w.file) && EventsOk(w) }

  lemma {:induction false} RunKeepsInv(w: World, actions: seq<Action>)
    requires Inv(w)
    ensures Inv(Run(w, actions))
    decreases |actions|
  {
    if actions != [] {
      RunKeepsInv(w, actions[..|actions| - 1]);
      ActionKeepsCase(Run(w, actions[..|actions| - 1]), actions[|actions| - 1]);
      ActionKeepsEvents(Run(w, actions[..|actions| - 1]), actions[|actions| - 1]);
    }
  }

  lemma ReachableInv(w: World)
    requires Reachable(w)
    ensures Inv(w)
  {
    var w0, actions :| Initial(w0) && w == Run(w0, actions);
    assert StatusVersions(w0.file.events, 0);
    RunKeepsInv(w0, actions);
  }

  // ----- Safety over whole runs

  /** The status never moves backwards; rejection is final, and approval too unless the lender's notice revokes it. */
  lemma {:induction false} StatusNeverMovesBackwards(w: World, actions: seq<Action>)
    requires Reachable(w)
    ensures Forward(w.file.application.status, Run(w, actions).file.application.status)
    ensures w.file.application.status.LENDER_REJECTED? ==> Run(w, actions).file.application.status.LENDER_REJECTED?
    ensures w.file.application.status.LENDER_APPROVED? ==>
              Run(w, actions).file.application.status.LENDER_APPROVED? || Run(w, actions).file.application.status.LENDER_REJECTED?
    decreases |actions|
  {
    ReachableInv(w);
    RunKeepsInv(w, actions);
    if actions != [] {
      var front := actions[..|actions| - 1];
      StatusNeverMovesBackwards(w, front);
      RunKeepsInv(w, front);
      ActionKeepsCase(Run(w, front), actions[|actions| - 1]);
    }
  }

  /** From version 2 the application is at least pre-approved; at version 1 it is neither in review nor approved. */
  lemma VersionAndStatusAgree(w: World)
    requires Reachable(w) && w.file.link.Some?
    ensures w.file.link.value.decisionVersion >= 2 ==>
              Rank(w.file.application.status) >= 2 && w.file.application.HasOffer()
    ensures w.file.link.value.decisionVersion < 2 ==>
              !w.file.application.status.PENDING_CREDIT_REVIEW? && !w.file.application.status.LENDER_APPROVED?
  {
    ReachableInv(w);
  }

  /** A selected offer is never changed or withdrawn. */
  lemma {:induction false} OfferIsFinal(w: World, actions: seq<Action>)
    requires Reachable(w) && w.file.application.selectedAmount.Some?
    ensures Run(w, actions).file.application.selectedAmount == w.file.application.selectedAmount
    ensures Run(w, actions).file.application.selectedTenure == w.file.application.selectedTenure
    decreases |actions|
  {
    ReachableInv(w);
    if actions != [] {
      var front := actions[..|actions| - 1];
      OfferIsFinal(w, front);
      RunKeepsInv(w, front);
      OfferKept(Run(w, front), actions[|actions| - 1]);
    }
  }

  lemma OfferKept(w: World, a: Action)
    requires StageOk(w.file) && w.file.application.selectedAmount.Some?
    ensures Next(w, a).file.application.selectedAmount == w.file.application.selectedAmount
    ensures Next(w, a).file.application.selectedTenure == w.file.application.selectedTenure
  {
  }

  /**
    An approved application has a loan in force, and only an approved or rejected one has a
    loan at all; the loan is never replaced, at most cancelled, and cancelled only by a rejection.
   */
  lemma {:induction false} LoanOfApproved(w: World, actions: seq<Action>)
    requires Reachable(w)
    ensures w.file.application.status.LENDER_APPROVED? ==> LenderRejection.InForce(w.file.loan)
    ensures w.file.loan.Some? ==>
              w.file.application.status.LENDER_REJECTED? || (w.file.application.status.LENDER_APPROVED? && !w.file.loan.value.cancelled)
    ensures w.file.loan.Some? ==> SameLoan(w.file.loan.value, Run(w, actions).file.loan)
    ensures w.file.loan.Some? ==>
              && Some(w.file.loan.value.approvedAmount) == w.file.application.selectedAmount
              && CreditReview.FairFigures(w.file.loan.value)
    decreases |actions|
  {
    ReachableInv(w);
    if actions != [] {
      var front := actions[..|actions| - 1];
      LoanOfApproved(w, front);
      RunKeepsInv(w, front);
      LoanKept(Run(w, front), actions[|actions| - 1]);
    }
  }

  /** The same loan, perhaps cancelled meanwhile. */
  ghost predicate SameLoan(loan: Loan, later: Option<Loan>) {
    later == Some(loan) || later == Some(loan.(cancelled := true))
  }

  lemma LoanKept(w: World, a: Action)
    requires LoanOk(w.file)
    ensures w.file.loan.Some? ==> SameLoan(w.file.loan.value, Next(w, a).file.loan)
  {
  }

  /** A rejection notice of the lender that is not refused. */
  predicate Acknowledged(c: Case, a: Action) {
    a.LenderNotice? && LenderRejection.Receive(c, a.lan, a.outcome, a.message, a.now).Acknowledged?
  }

  /**
    Once rejected, nothing about the application, the customer or the loan changes any more,
    in any run; once approved, nothing does in any run without an acknowledged rejection notice.
   */
  lemma {:induction false} DecidedForever(w: World, actions: seq<Action>)
    requires Reachable(w) && Rank(w.file.application.status) >= 4
    requires w.file.application.status.LENDER_REJECTED? || forall a :: a in actions ==> !Acknowledged(w.file, a)
    ensures SameDecision(w.file, Run(w, actions).file)
    decreases |actions|
  {
    if actions != [] {
      var front, a := actions[..|actions| - 1], actions[|actions| - 1];
      DecidedForever(w, front);
      assert StageOk(Run(w, front).file) by {
        ReachableInv(w);
        RunKeepsInv(w, front);
      }
      assert a in actions;
      SameAcknowledgement(w.file, Run(w, front).file, a);
      DecidedStays(Run(w, front), a);
    }
  }

  ghost predicate SameDecision(c: Case, c': Case) {
    c'.application == c.application && c'.customer == c.customer && c'.loan == c.loan
  }

  lemma SameAcknowledgement(c: Case, c': Case, a: Action)
    requires SameDecision(c, c')
    ensures Acknowledged(c, a) <==> Acknowledged(c', a)
  {
  }

  lemma DecidedStays(w: World, a: Action)
    requires StageOk(w.file) && Rank(w.file.application.status) >= 4
    requires w.file.application.status.LENDER_REJECTED? || !Acknowledged(w.file, a)
    ensures SameDecision(w.file, Next(w, a).file)
  {
    if a.Process? && w.file.link.Some? {
      LenderDecisions.ResolvedDecisionOnlyClosesEvent(w.file, a.key, a.lockToken, a.partnerApplicationId, a.result, a.canPollStatus, a.now);
    } else if a.LenderNotice? && w.file.application.status.LENDER_REJECTED? {
      LenderRejection.LaterNoticeChangesNothing(w.file, a.lan, a.outcome, a.message, a.now);
    }
  }

  lemma {:induction false} RunJoins(w: World, front: seq<Action>, back: seq<Action>)
    ensures Run(w, front + back) == Run(Run(w, front), back)
    decreases |back|
  {
    if back == [] {
      assert front + back == front;
    } else {
      RunJoins(w, front, back[..|back| - 1]);
      assert (front + back)[..|front + back| - 1] == front + back[..|back| - 1];
    }
  }

  lemma RunReachable(w: World, actions: seq<Action>)
    requires Reachable(w)
    ensures Reachable(Run(w, actions))
  {
    var w0, before :| Initial(w0) && w == Run(w0, before);
    RunJoins(w0, before, actions);
  }

  lemma RunOne(w: World, a: Action)
    ensures Run(w, [a]) == Next(w, a)
  {
    assert [a][..0] == [];
  }

  /**
    In every run, exactly when a held decision event with the right reference is refused: an
    unresolved pre-approval without an amount, a malformed recheck time or an unknown
    decision. A final approval is never refused for lack of a chosen offer.
   */
  lemma RefusedInRunIff(w: World, a: Action)
    requires Reachable(w) && a.Process? && Holds(w.file.events, a.key, a.lockToken)
    requires w.file.link.Some? && w.file.link.value.partnerApplicationId == Some(a.partnerApplicationId)
    ensures var isFinal := LenderDecisions.IsFinal(w.file.link.value);
            Next(w, a) == w <==>
              && !LenderDecisions.AlreadyResolved(w.file.application.status, isFinal)
              && match a.result.decision
                 case APPROVED => !isFinal && a.result.approvedAmount.None?
                 case REJECTED => false
                 case PENDING => a.result.nextStatusCheckAt.Malformed?
                 case UNKNOWN => true
  {
    assert StageOk(w.file) by { ReachableInv(w); }
    LenderDecisions.RefusedIff(w.file, a.key, a.lockToken, a.partnerApplicationId, a.result, a.canPollStatus, a.now);
    RefusedIffUnchanged(w, a);
  }

  lemma RefusedIffUnchanged(w: World, a: Action)
    requires a.Process?
    ensures Next(w, a) == w <==>
            LenderDecisions.Process(w.file, a.key, a.lockToken, a.partnerApplicationId, a.result, a.canPollStatus, a.now).Failure?
  {
    assert |w.applied + [a.key]| == |w.applied| + 1;
  }

  // ----- Leases

  /** Every event is closed by a decision at most once. */
  lemma AppliedAtMostOnce(w: World)
    requires Reachable(w)
    ensures forall i, j :: 0 <= i < j < |w.applied| ==> w.applied[i] != w.applied[j]
    ensures forall i :: 0 <= i < |w.applied| ==> Closed(w.file.events, w.applied[i])
  {
    ReachableInv(w);
  }

  /** A lock token that was handed out and is not current for an event never becomes current for it again. */
  lemma {:induction false} LostLeaseStaysLost(w: World, key: Key, lockToken: nat, actions: seq<Action>)
    requires lockToken in w.tokens && !Holds(w.file.events, key, lockToken)
    ensures lockToken in Run(w, actions).tokens && !Holds(Run(w, actions).file.events, key, lockToken)
    decreases |actions|
  {
    if actions != [] {
      var w1, a := Run(w, actions[..|actions| - 1]), actions[|actions| - 1];
      LostLeaseStaysLost(w, key, lockToken, actions[..|actions| - 1]);
      LeaseNotRegained(w1, key, lockToken, a);
    }
  }

  lemma LeaseNotRegained(w: World, key: Key, lockToken: nat, a: Action)
    requires lockToken in w.tokens && !Holds(w.file.events, key, lockToken)
    ensures lockToken in Next(w, a).tokens && !Holds(Next(w, a).file.events, key, lockToken)
  {
  }

  /** So a worker whose lease was reset or taken over can never apply its result: its call changes nothing. */
  lemma StaleWorkerChangesNothing(w: World, actions: seq<Action>, late: Action)
    requires late.Process? && late.lockToken in w.tokens && !Holds(w.file.events, late.key, late.lockToken)
    ensures Next(Run(w, actions), late) == Run(w, actions)
  {
    LostLeaseStaysLost(w, late.key, late.lockToken, actions);
  }

  // ----- Status polls

  /** The STATUS events carry exactly versions 1 to k with k at most 5, and all but the newest are completed. */
  lemma StatusEventsAreConsecutive(w: World)
    requires Reachable(w)
    ensures exists k :: StatusVersions(w.file.events, k)
  {
    ReachableInv(w);
  }

  function StatusPolls(applied: seq<Key>): seq<Key> {
    if applied == [] then []
    else StatusPolls(applied[..|applied| - 1]) + if applied[|applied| - 1].stage.STATUS? then [applied[|applied| - 1]] else []
  }

  lemma {:induction false} PollsAreDistinct(applied: seq<Key>)
    requires forall i, j :: 0 <= i < j < |applied| ==> applied[i] != applied[j]
    ensures forall i, j :: 0 <= i < j < |StatusPolls(applied)| ==> StatusPolls(applied)[i] != StatusPolls(applied)[j]
    ensures forall key :: key in StatusPolls(applied) <==> key in applied && key.stage.STATUS?
    decreases |applied|
  {
    if applied != [] {
      PollsAreDistinct(applied[..|applied| - 1]);
    }
  }

  ghost predicate DistinctKeys(keys: seq<Key>) { forall i, j :: 0 <= i < j < |keys| ==> keys[i] != keys[j] }

  ghost predicate VersionsUpTo(keys: seq<Key>, k: int) {
    forall i :: 0 <= i < |keys| ==> keys[i].stage.STATUS? && 1 <= keys[i].version <= k
  }

  lemma WithoutNewest(keys: seq<Key>, i: nat)
    requires DistinctKeys(keys) && i < |keys| && VersionsUpTo(keys, keys[i].version)
    ensures DistinctKeys(keys[..i] + keys[i + 1..]) && VersionsUpTo(keys[..i] + keys[i + 1..], keys[i].version - 1)
  {
    var rest := keys[..i] + keys[i + 1..];
    forall j | 0 <= j < |rest| ensures rest[j].stage.STATUS? && 1 <= rest[j].version < keys[i].version {
      var l := if j < i then j else j + 1;
      assert rest[j] == keys[l] && keys[l] != keys[i];
      assert keys[i] == Key(STATUS, keys[i].version) && keys[l] == Key(STATUS, keys[l].version);
    }
  }

  lemma VersionsArePositive(keys: seq<Key>, k: nat)
    requires VersionsUpTo(keys, k) && keys != []
    ensures k >= 1
  {
    assert 1 <= keys[0].version;
  }

  lemma {:induction false} AtMostAsManyVersions(keys: seq<Key>, k: nat)
    requires DistinctKeys(keys) && VersionsUpTo(keys, k)
    ensures |keys| <= k
    decreases k
  {
    if keys != [] { VersionsArePositive(keys, k); }
    if i :| 0 <= i < |keys| && keys[i].version == k {
      WithoutNewest(keys, i);
      AtMostAsManyVersions(keys[..i] + keys[i + 1..], k - 1);
    } else if k > 0 {
      AtMostAsManyVersions(keys, k - 1);
    }
  }

  /** Over any run at most five status polls are ever applied, across both decision stages. */
  lemma AtMostFivePolls(w: World)
    requires Reachable(w)
    ensures |StatusPolls(w.applied)| <= 5
  {
    ReachableInv(w);
    var k :| StatusVersions(w.file.events, k);
    PollsAreDistinct(w.applied);
    var polls := StatusPolls(w.applied);
    forall j | 0 <= j < |polls| ensures polls[j].stage.STATUS? && 1 <= polls[j].version <= k {
      assert polls[j] in polls;
      var i :| 0 <= i < |w.applied| && w.applied[i] == polls[j];
      assert Closed(w.file.events, polls[j]) && polls[j] == Key(STATUS, polls[j].version);
    }
    AtMostAsManyVersions(polls, k);
  }

  // ----- What the customer sees

  /**
    After a selection a positive or pending answer of the lender never changes the step the
    customer sees, at either stage and whether it is applied, a replay or refused.
   */
  lemma FinalApprovalIsInvisible(w: World, a: Action, p: CustomerJourney.Progress, p': CustomerJourney.Progress)
    requires Reachable(w) && w.file.application.selectedAmount.Some?
    requires a.Process? && (a.result.decision == LenderCase.Decision.APPROVED || a.result.decision == LenderCase.Decision.PENDING)
    ensures CustomerJourney.StepOf(w.file, p) == CustomerJourney.StepOf(Next(w, a).file, p')
  {
    assert CaseOk(w.file) by { ReachableInv(w); }
    PositiveAnswerEffect(w.file, a.key, a.lockToken, a.partnerApplicationId, a.result, a.canPollStatus, a.now);
  }

  /** What a positive or pending answer does to a case with a selection. */
  lemma PositiveAnswerEffect(c: Case, key: Key, lockToken: nat, partner: string, r: LenderDecisions.DecisionResult, canPoll: bool, now: int)
    requires CaseOk(c) && c.application.selectedAmount.Some? && (r.decision.APPROVED? || r.decision.PENDING?)
    ensures var o := LenderDecisions.Process(c, key, lockToken, partner, r, canPoll, now);
            o.Done? ==>
              && o.result.application.selectedAmount == c.application.selectedAmount && o.result.loan == c.loan
              && (o.result.application.status == c.application.status
                  || (c.application.status.LENDER_PRE_APPROVED? && o.result.application.status.PENDING_CREDIT_REVIEW?))
  {
  }

  /** Bank details appear exactly when credit review has approved. */
  lemma BankDetailsIffApproved(w: World, p: CustomerJourney.Progress)
    requires Reachable(w)
    ensures CustomerJourney.StepOf(w.file, p).BANK_DETAILS? <==> w.file.application.status.LENDER_APPROVED?
  {
    ReachableInv(w);
  }

  /**
    From pre-approval on no run ever shows an earlier step or the support screen again, and
    from the selection on only processing, the rejection or the bank details.
   */
  lemma StepsAfterPreApproval(w: World, actions: seq<Action>, p: CustomerJourney.Progress)
    requires Reachable(w) && Rank(w.file.application.status) >= 2
    ensures var step := CustomerJourney.StepOf(Run(w, actions).file, p);
            && (step.PRE_APPROVAL_OFFER_SELECTION? || step.APPROVAL_PROCESSING? || step.BANK_DETAILS? || step.LENDER_REJECTED?)
            && (w.file.application.selectedAmount.Some? ==> !step.PRE_APPROVAL_OFFER_SELECTION?)
  {
    StatusNeverMovesBackwards(w, actions);
    assert CaseOk(Run(w, actions).file) by {
      ReachableInv(w);
      RunKeepsInv(w, actions);
    }
    LateStep(Run(w, actions).file, p);
    if w.file.application.selectedAmount.Some? {
      OfferPickerNeverReappears(w, actions, p);
    }
  }

  /**
    A customer who is asked for the fee or waits for the lender's decision has never been
    pre-approved before, and waits only with everything the lender needs in place.
   */
  lemma WaitingComesBeforeAnswer(w: World, actions: seq<Action>, p: CustomerJourney.Progress)
    requires Reachable(w)
    ensures var c := Run(w, actions).file; var step := CustomerJourney.StepOf(c, p);
            && (step.ASSESSMENT_FEE? || step.LENDER_DECISION_PROCESSING? ==> Rank(w.file.application.status) <= 1)
            && (step.ASSESSMENT_FEE? ==> c.application.lenderId.Some? && c.application.lenderId.value != "")
            && (step.LENDER_DECISION_PROCESSING? ==>
                  && p.paid && p.aaCompleted && p.hasDecisionConsents && c.link.Some?
                  && CustomerJourney.Settled(c.link.value.createStatus) && CustomerJourney.Settled(c.link.value.updateStatus))
  {
    var c := Run(w, actions).file;
    CustomerJourney.StepPrerequisites(c.application, c.link, c.loan, p);
    if Rank(w.file.application.status) >= 2 {
      StepsAfterPreApproval(w, actions, p);
    }
  }

  lemma LateStep(c: Case, p: CustomerJourney.Progress)
    requires CaseOk(c) && Rank(c.application.status) >= 2
    ensures var step := CustomerJourney.StepOf(c, p);
            step.PRE_APPROVAL_OFFER_SELECTION? || step.APPROVAL_PROCESSING? || step.BANK_DETAILS? || step.LENDER_REJECTED?
  {
  }

  /** The offer picker shows only while nothing is selected, so never again after a selection. */
  lemma OfferPickerNeverReappears(w: World, actions: seq<Action>, p: CustomerJourney.Progress)
    requires Reachable(w) && w.file.application.selectedAmount.Some?
    ensures !CustomerJourney.StepOf(Run(w, actions).file, p).PRE_APPROVAL_OFFER_SELECTION?
  {
    OfferIsFinal(w, actions);
    PickerNeedsNoSelection(Run(w, actions).file, p);
  }

  lemma PickerNeedsNoSelection(c: Case, p: CustomerJourney.Progress)
    ensures CustomerJourney.StepOf(c, p).PRE_APPROVAL_OFFER_SELECTION?
       <==> c.application.status.LENDER_PRE_APPROVED? && c.application.selectedAmount.None?
  {
  }
}
