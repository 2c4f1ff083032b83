/** Applying one lender decision to the application's rows, in one transaction, under an event lease. */
module LenderDecisions {
  import opened Options
  import opened LenderCase

  datatype NextCheck = NotGiven | Malformed | At(time: int)

  datatype DecisionResult = DecisionResult(
    decision: Decision, providerStatus: string, decisionReference: string,
    approvedAmount: Option<real>, approvedRoi: Option<real>, rejectionReasonCode: Option<string>,
    coolingOffDays: Option<int>, nextStatusCheckAt: NextCheck)

  datatype DecisionError =
    | LENDER_EVENT_LEASE_LOST
    | LENDER_DECISION_REFERENCE_MISMATCH
    | LENDER_APPROVAL_TERMS_MISSING
    | LENDER_PENDING_DATE_INVALID
    | LENDER_DECISION_UNSUPPORTED

  datatype Outcome = Done(result: Case) | Failure(error: DecisionError)

  const MILLIS_PER_DAY: int := 24 * 60 * 60 * 1000
  const DEFAULT_RECHECK_MILLIS: int := 5 * 60 * 1000
  const MAX_STATUS_CHECKS: int := 5

  /** Version 1 is the pre-approval call; from version 2 on it is the final call. */
  predicate IsFinal(link: Link) { link.decisionVersion >= 2 }

  predicate AlreadyResolved(status: ApplicationStatus, isFinal: bool) {
    if isFinal then status.PENDING_CREDIT_REVIEW? || status.LENDER_APPROVED? || status.LENDER_REJECTED? || status.LOAN_CLOSED?
    else status.LENDER_PRE_APPROVED? || status.LENDER_REJECTED?
  }

  function CompleteIn(events: map<Key, Event>, key: Key): map<Key, Event> {
    events[key := Event(COMPLETED, None)]
  }

  function RecordOnLink(link: Link, decision: Decision, stage: Stage, r: DecisionResult, now: int): Link {
    link.(normalizedDecision := Some(decision),
          decisionStatus := if decision.PENDING? then ACKNOWLEDGED else COMPLETED,
          lastSyncedStage := Some(stage), lastResponseStatus := Some(r.providerStatus), lastSuccessAt := Some(now),
          rejectionReasonCode := if decision.PENDING? then link.rejectionReasonCode else None)
  }

  function RejectionReason(r: DecisionResult): string {
    var code := if r.rejectionReasonCode.Some? then r.rejectionReasonCode.value else "";
    if code == "" then "Application did not meet lender criteria."
    else if |code| > 100 then code[..100] else code
  }

  function CoolingOff(r: DecisionResult): (d: int)
    ensures d >= 0
  {
    if r.coolingOffDays.Some? && r.coolingOffDays.value > 0 then r.coolingOffDays.value else 0
  }

  function PreApprove(c: Case, link: Link, stage: Stage, r: DecisionResult, now: int): Outcome {
    if r.approvedAmount.None? then Failure(LENDER_APPROVAL_TERMS_MISSING)
    else Done(c.(
      link := Some(RecordOnLink(link, APPROVED, stage, r, now)),
      application := c.application.(status := LENDER_PRE_APPROVED, decisionReference := Some(r.decisionReference),
        decisionAt := Some(now), lenderApprovedAmount := r.approvedAmount, decisionReason := None,
        coolingOffDays := None, coolingOffUntil := None, nextStatusCheckAt := None),
      customer := Customer(LENDER_PRE_APPROVED, now)))
  }

  function ApproveFinally(c: Case, link: Link, stage: Stage, r: DecisionResult, now: int): Outcome {
    var app := c.application;
    if !app.HasOffer() then Failure(LENDER_APPROVAL_TERMS_MISSING)
    else
      var roi := if r.approvedRoi.Some? then r.approvedRoi
                 else if app.product.Some? then Some(app.product.value.annualRoiPercent) else None;
      Done(c.(
        link := Some(RecordOnLink(link, APPROVED, stage, r, now)),
        application := app.(status := PENDING_CREDIT_REVIEW, decisionReference := Some(r.decisionReference),
          decisionAt := Some(now), lenderApprovedRoi := if roi.Some? then roi else app.lenderApprovedRoi,
          approvedAmount := if r.approvedAmount.Some? then r.approvedAmount else app.approvedAmount, decisionReason := None),
        customer := Customer(PENDING_CREDIT_REVIEW, now)))
  }

  function Reject(c: Case, link: Link, stage: Stage, r: DecisionResult, now: int): Outcome {
    var days := CoolingOff(r);
    Done(c.(
      link := Some(RecordOnLink(link, REJECTED, stage, r, now).(rejectionReasonCode := Some(RejectionReason(r)))),
      application := c.application.(status := LENDER_REJECTED, decisionReference := Some(r.decisionReference),
        decisionAt := Some(now), decisionReason := Some("Application did not meet lender criteria."),
        coolingOffDays := Some(days), coolingOffUntil := if days != 0 then Some(now + days * MILLIS_PER_DAY) else None,
        nextStatusCheckAt := None),
      customer := Customer(LENDER_REJECTED, now)))
  }

  /** The version of the status poll that a pending result of this event asks for. */
  function NextStatusVersion(key: Key): int { if key.stage.STATUS? then key.version + 1 else 1 }

  /** Creating an outbox event is a no-op when its key exists. */
  function Upsert(events: map<Key, Event>, key: Key): map<Key, Event> {
    if key in events then events else events[key := Event(OperationStatus.PENDING, None)]
  }

  function Postpone(c: Case, link: Link, key: Key, r: DecisionResult, canPollStatus: bool, now: int): Outcome {
    if r.nextStatusCheckAt.Malformed? then Failure(LENDER_PENDING_DATE_INVALID)
    else
      var checkAt := if r.nextStatusCheckAt.At? then r.nextStatusCheckAt.time else now + DEFAULT_RECHECK_MILLIS;
      var app := c.application.(decisionReference := Some(r.decisionReference), decisionAt := Some(now),
                                nextStatusCheckAt := Some(checkAt));
      var version := NextStatusVersion(key);
      Done(c.(
        link := Some(RecordOnLink(link, Decision.PENDING, key.stage, r, now)),
        application := if IsFinal(link) then app else app.(status := LENDER_REVIEW),
        events := if canPollStatus && version <= MAX_STATUS_CHECKS then Upsert(c.events, Key(STATUS, version)) else c.events))
  }

  function Decide(c: Case, link: Link, key: Key, r: DecisionResult, canPollStatus: bool, now: int): Outcome {
    match r.decision
    case APPROVED => if IsFinal(link) then ApproveFinally(c, link, key.stage, r, now) else PreApprove(c, link, key.stage, r, now)
    case REJECTED => Reject(c, link, key.stage, r, now)
    case PENDING => Postpone(c, link, key, r, canPollStatus, now)
    case UNKNOWN => Failure(LENDER_DECISION_UNSUPPORTED)
  }

  /** The whole transaction. */
  function Process(c: Case, key: Key, lockToken: nat, partnerApplicationId: string, r: DecisionResult,
                   canPollStatus: bool, now: int): Outcome
  {
    if !Holds(c.events, key, lockToken) then Failure(LENDER_EVENT_LEASE_LOST)
    else if c.link.None? || c.link.value.partnerApplicationId != Some(partnerApplicationId) then
      Failure(LENDER_DECISION_REFERENCE_MISMATCH)
    else if AlreadyResolved(c.application.status, IsFinal(c.link.value)) then
      Done(c.(events := CompleteIn(c.events, key)))
    else
      match Decide(c, c.link.value, key, r, canPollStatus, now)
      case Failure(e) => Failure(e)
      case Done(c') => Done(c'.(events := CompleteIn(c'.events, key)))
  }

  /** The rows of one case and the transaction on them, update by update. */
  class LenderDecisionProcessor {
    var application: Application
    var link: Option<Link>
    var customer: Customer
    var loan: Option<Loan>
    var events: map<Key, Event>

    function Contents(): Case
      reads this
    {
      Case(application, link, customer, loan, events)
    }

    constructor (c: Case)
      ensures Contents() == c
    {
      application, link, customer, loan, events := c.application, c.link, c.customer, c.loan, c.events;
    }

    method ProcessDecision(key: Key, lockToken: nat, partnerApplicationId: string, r: DecisionResult,
                           canPollStatus: bool, now: int)
      returns (error: Option<DecisionError>)
      modifies this
      ensures var before := old(Contents());
              match Process(before, key, lockToken, partnerApplicationId, r, canPollStatus, now)
              case Failure(e) => error == Some(e) && Contents() == before
              case Done(c) => error == None && Contents() == c
    {
      if !Holds(events, key, lockToken) { return Some(LENDER_EVENT_LEASE_LOST); }
      if link.None? || link.value.partnerApplicationId != Some(partnerApplicationId) {
        return Some(LENDER_DECISION_REFERENCE_MISMATCH);
      }
      if AlreadyResolved(application.status, IsFinal(link.value)) {
        CompleteEvent(key, lockToken);
        return None;
      }
      error := ApplyDecision(key, r, canPollStatus, now);
      if error.None? {
        CompleteEvent(key, lockToken);
      }
    }

    /** The four branches of an unresolved decision. */
    method ApplyDecision(key: Key, r: DecisionResult, canPollStatus: bool, now: int) returns (error: Option<DecisionError>)
      requires link.Some? && key in events
      modifies this
      ensures var before := old(Contents());
              match Decide(before, before.link.value, key, r, canPollStatus, now)
              case Failure(e) => error == Some(e) && Contents() == before
              case Done(c) => error == None && Contents() == c
      ensures key in events && events[key] == old(events)[key]
    {
      var isFinal := IsFinal(link.value);
      if r.decision.APPROVED? && !isFinal {
        if r.approvedAmount.None? { return Some(LENDER_APPROVAL_TERMS_MISSING); }
        link := Some(RecordOnLink(link.value, APPROVED, key.stage, r, now));
        application := application.(status := LENDER_PRE_APPROVED, decisionReference := Some(r.decisionReference),
          decisionAt := Some(now), lenderApprovedAmount := r.approvedAmount, decisionReason := None,
          coolingOffDays := None, coolingOffUntil := None, nextStatusCheckAt := None);
        customer := Customer(LENDER_PRE_APPROVED, now);
      } else if r.decision.APPROVED? {
        var approvedRoi := r.approvedRoi;
        if approvedRoi.None? && application.product.Some? {
          approvedRoi := Some(application.product.value.annualRoiPercent);
        }
        if !application.HasOffer() { return Some(LENDER_APPROVAL_TERMS_MISSING); }
        link := Some(RecordOnLink(link.value, APPROVED, key.stage, r, now));
        application := application.(status := PENDING_CREDIT_REVIEW, decisionReference := Some(r.decisionReference),
          decisionAt := Some(now), decisionReason := None);
        if approvedRoi.Some? { application := application.(lenderApprovedRoi := approvedRoi); }
        if r.approvedAmount.Some? { application := application.(approvedAmount := r.approvedAmount); }
        customer := Customer(PENDING_CREDIT_REVIEW, now);
      } else if r.decision.REJECTED? {
        var days := CoolingOff(r);
        link := Some(RecordOnLink(link.value, REJECTED, key.stage, r, now).(rejectionReasonCode := Some(RejectionReason(r))));
        application := application.(status := LENDER_REJECTED, decisionReference := Some(r.decisionReference),
          decisionAt := Some(now), decisionReason := Some("Application did not meet lender criteria."),
          coolingOffDays := Some(days), coolingOffUntil := if days != 0 then Some(now + days * MILLIS_PER_DAY) else None,
          nextStatusCheckAt := None);
        customer := Customer(LENDER_REJECTED, now);
      } else if r.decision.PENDING? {
        if r.nextStatusCheckAt.Malformed? { return Some(LENDER_PENDING_DATE_INVALID); }
        var checkAt := if r.nextStatusCheckAt.At? then r.nextStatusCheckAt.time else now + DEFAULT_RECHECK_MILLIS;
        link := Some(RecordOnLink(link.value, Decision.PENDING, key.stage, r, now));
        application := application.(decisionReference := Some(r.decisionReference), decisionAt := Some(now),
                                    nextStatusCheckAt := Some(checkAt));
        if !isFinal { application := application.(status := LENDER_REVIEW); }
        var nextVersion := NextStatusVersion(key);
        if canPollStatus && nextVersion <= MAX_STATUS_CHECKS {
          events := Upsert(events, Key(STATUS, nextVersion));
        }
      } else {
        return Some(LENDER_DECISION_UNSUPPORTED);
      }
      return None;
    }

    /** Closing the event; inside the transaction the lease cannot have been lost. */
    method CompleteEvent(key: Key, lockToken: nat)
      requires Holds(events, key, lockToken)
      modifies this`events
      ensures events == CompleteIn(old(events), key)
    {
      events := events[key := Event(COMPLETED, None)];
    }
  }

  // ----- Leases

  /** Success needs the current lock token, and ends with the event completed and unlocked. */
  lemma SuccessNeedsLease(c: Case, key: Key, lockToken: nat, partnerApplicationId: string, r: DecisionResult,
                          canPollStatus: bool, now: int)
    ensures var o := Process(c, key, lockToken, partnerApplicationId, r, canPollStatus, now);
            o.Done? ==>
              && Holds(c.events, key, lockToken)
              && key in o.result.events && o.result.events[key] == Event(COMPLETED, None)
              && (forall k :: k in c.events && k != key ==> k in o.result.events && o.result.events[k] == c.events[k])
  {
  }

  /**
    Exactly when a decision is refused: the lease or the reference is wrong, or an
    unresolved application gets a decision without the terms its stage requires.
   */
  lemma RefusedIff(c: Case, key: Key, lockToken: nat, partnerApplicationId: string, r: DecisionResult,
                   canPollStatus: bool, now: int)
    ensures Process(c, key, lockToken, partnerApplicationId, r, canPollStatus, now).Failure? <==>
            || !Holds(c.events, key, lockToken)
            || c.link.None? || c.link.value.partnerApplicationId != Some(partnerApplicationId)
            || (!AlreadyResolved(c.application.status, IsFinal(c.link.value)) &&
                 match r.decision
                 case APPROVED => if IsFinal(c.link.value) then !c.application.HasOffer() else r.approvedAmount.None?
                 case REJECTED => false
                 case PENDING => r.nextStatusCheckAt.Malformed?
                 case UNKNOWN => true)
  {
  }

  /** Repeating a decision that is already resolved changes nothing but its event. */
  lemma ResolvedDecisionOnlyClosesEvent(c: Case, key: Key, lockToken: nat, partnerApplicationId: string, r: DecisionResult,
                                        canPollStatus: bool, now: int)
    requires c.link.Some? && AlreadyResolved(c.application.status, IsFinal(c.link.value))
    ensures var o := Process(c, key, lockToken, partnerApplicationId, r, canPollStatus, now);
            o.Done? ==> o.result == c.(events := c.events[key := Event(COMPLETED, None)])
  {
  }

  /** An immediate second delivery of any applied final or rejecting decision is a replay of that kind. */
  lemma SecondDeliveryIsReplay(c: Case, key: Key, lockToken: nat, partnerApplicationId: string, r: DecisionResult,
                               canPollStatus: bool, now: int)
    requires !r.decision.PENDING?
    ensures var o := Process(c, key, lockToken, partnerApplicationId, r, canPollStatus, now);
            o.Done? ==> o.result.link.Some? && AlreadyResolved(o.result.application.status, IsFinal(o.result.link.value))
  {
  }

  /**
    A pending result queues a new status poll exactly when the lender can be polled, the
    poll would be at most the fifth, and no event with its key exists yet. Both decision
    stages start at version 1, so a second stage after a first-stage poll queues nothing.
   */
  lemma PendingQueuesPollIff(c: Case, key: Key, lockToken: nat, partnerApplicationId: string, r: DecisionResult,
                             canPollStatus: bool, now: int)
    requires r.decision.PENDING? && Process(c, key, lockToken, partnerApplicationId, r, canPollStatus, now).Done?
    requires !AlreadyResolved(c.application.status, IsFinal(c.link.value))
    ensures var events := Process(c, key, lockToken, partnerApplicationId, r, canPollStatus, now).result.events;
            var poll := Key(STATUS, if key.stage.STATUS? then key.version + 1 else 1);
            events.Keys == c.events.Keys + if canPollStatus && poll.version <= 5 && poll !in c.events then {poll} else {}
  {
  }

  /**
    What a decision leaves alone: the customer's own selection and the loan never change,
    the lender's net amount is recorded apart from the selected amount, pre-approval records
    the credit limit, and a cooling-off end is set exactly for a rejection with a positive
    number of days.
   */
  ghost predicate Effect(c: Case, r: DecisionResult, now: int, c': Case) {
    && c'.loan == c.loan && SelectionKept(c.application, c'.application)
    && AmountApart(c.application, r, c'.application)
    && StatusRecorded(c.application, r, now, c'.application)
    && (c'.application.status.LENDER_REJECTED? && !c.application.status.LENDER_REJECTED? ==>
          && c'.link.Some? && c'.link.value.normalizedDecision == Some(REJECTED)
          && CooledOff(r, now, c'.application))
  }

  ghost predicate SelectionKept(a: Application, a': Application) {
    a'.selectedAmount == a.selectedAmount && a'.selectedTenure == a.selectedTenure
  }

  ghost predicate AmountApart(a: Application, r: DecisionResult, a': Application) {
    a'.approvedAmount != a.approvedAmount ==> a'.status.PENDING_CREDIT_REVIEW? && a'.approvedAmount == r.approvedAmount
  }

  ghost predicate StatusRecorded(a: Application, r: DecisionResult, now: int, a': Application) {
    a'.status != a.status ==>
      && a'.decisionAt == Some(now) && a'.decisionReference == Some(r.decisionReference)
      && (a'.status.LENDER_PRE_APPROVED? ==> r.approvedAmount.Some? && a'.lenderApprovedAmount == r.approvedAmount)
  }

  ghost predicate CooledOff(r: DecisionResult, now: int, a': Application) {
    && (a'.coolingOffUntil.Some? <==> r.coolingOffDays.Some? && r.coolingOffDays.value > 0)
    && (a'.coolingOffUntil.Some? ==> a'.coolingOffUntil.value == now + r.coolingOffDays.value * 86400000)
  }

  lemma PreApprovalEffect(c: Case, link: Link, stage: Stage, r: DecisionResult, now: int)
    ensures var o := PreApprove(c, link, stage, r, now); o.Done? ==> Effect(c, r, now, o.result)
  {
  }

  lemma FinalApprovalEffect(c: Case, link: Link, stage: Stage, r: DecisionResult, now: int)
    ensures var o := ApproveFinally(c, link, stage, r, now); o.Done? ==> Effect(c, r, now, o.result)
  {
  }

  lemma RejectionEffect(c: Case, link: Link, stage: Stage, r: DecisionResult, now: int)
    ensures Effect(c, r, now, Reject(c, link, stage, r, now).result)
  {
  }

  lemma PostponementEffect(c: Case, link: Link, key: Key, r: DecisionResult, canPollStatus: bool, now: int)
    ensures var o := Postpone(c, link, key, r, canPollStatus, now); o.Done? ==> Effect(c, r, now, o.result)
  {
  }

  lemma DecideIsOneOfFour(c: Case, link: Link, key: Key, r: DecisionResult, canPollStatus: bool, now: int)
    ensures Decide(c, link, key, r, canPollStatus, now) ==
            match r.decision
            case APPROVED => if IsFinal(link) then ApproveFinally(c, link, key.stage, r, now)
                             else PreApprove(c, link, key.stage, r, now)
            case REJECTED => Reject(c, link, key.stage, r, now)
            case PENDING => Postpone(c, link, key, r, canPollStatus, now)
            case UNKNOWN => Failure(LENDER_DECISION_UNSUPPORTED)
  {
  }

  lemma DecideEffect(c: Case, link: Link, key: Key, r: DecisionResult, canPollStatus: bool, now: int)
    ensures var o := Decide(c, link, key, r, canPollStatus, now); o.Done? ==> Effect(c, r, now, o.result)
  {
    match r.decision
    case APPROVED =>
      if IsFinal(link) { FinalApprovalEffect(c, link, key.stage, r, now); } else { PreApprovalEffect(c, link, key.stage, r, now); }
    case REJECTED => RejectionEffect(c, link, key.stage, r, now);
    case PENDING => PostponementEffect(c, link, key, r, canPollStatus, now);
    case UNKNOWN =>
  }

  lemma DecisionEffects(c: Case, key: Key, lockToken: nat, partnerApplicationId: string, r: DecisionResult,
                        canPollStatus: bool, now: int)
    ensures var o := Process(c, key, lockToken, partnerApplicationId, r, canPollStatus, now);
            o.Done? ==> Effect(c, r, now, o.result)
  {
    if c.link.Some? {
      DecideEffect(c, c.link.value, key, r, canPollStatus, now);
    }
  }
}
