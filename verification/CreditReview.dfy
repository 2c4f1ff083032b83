/** The manual credit review that turns an accepted lender offer into a loan, or rejects it. */
module CreditReview {
  import opened Options
  import opened LenderCase
  import NameTokens

  datatype ReviewError =
    | NOT_PENDING_CREDIT_REVIEW
    | OFFER_MISSING
    | INTEREST_RATE_UNKNOWN
    | PROCESSING_FEE_UNKNOWN

  datatype Review = Done(result: Case) | Refused(error: ReviewError)

  /** Rounding to the nearest integer, halves upwards. */
  function Round(x: real): (n: int)
    ensures x - 0.5 < n as real <= x + 0.5
  {
    (x + 0.5).Floor
  }

  function SimpleInterest(principal: real, annualRoi: real, days: int): real {
    principal * annualRoi * days as real / 36500.0
  }

  function Fee(principal: real, percent: real): real { principal * (percent / 100.0) }

  function Rate(app: Application): Option<real> {
    if app.lenderApprovedRoi.Some? then app.lenderApprovedRoi
    else if app.product.Some? then Some(app.product.value.annualRoiPercent) else None
  }

  function NewLoan(app: Application, rate: real, now: int): Loan
    requires app.HasOffer() && app.platformLan.Some? && app.product.Some?
  {
    var principal, days := app.selectedAmount.value, app.selectedTenure.value;
    var total := principal + Round(SimpleInterest(principal, rate, days)) as real;
    Loan(app.platformLan.value, principal, days, rate,
         Round(Fee(principal, app.product.value.processingFeePercent)), total, total, now, false)
  }

  function Approve(c: Case, now: int): Review {
    var app := c.application;
    if !app.status.PENDING_CREDIT_REVIEW? then Refused(NOT_PENDING_CREDIT_REVIEW)
    else if !app.HasOffer() || app.platformLan.None? || app.platformLan.value == "" then Refused(OFFER_MISSING)
    else if Rate(app).None? then Refused(INTEREST_RATE_UNKNOWN)
    else if app.product.None? then Refused(PROCESSING_FEE_UNKNOWN)
    else
      var rate := Rate(app).value;
      Done(c.(application := app.(status := LENDER_APPROVED, lenderApprovedRoi := Some(rate), decisionAt := Some(now)),
              customer := Customer(LENDER_APPROVED, now),
              loan := if c.loan.Some? then c.loan else Some(NewLoan(app, rate, now))))
  }

  function ReasonText(reason: Option<string>): string {
    var trimmed := if reason.Some? then NameTokens.Trim(reason.value) else "";
    if trimmed != "" then "Credit review rejected: " + trimmed else "Rejected by internal credit review."
  }

  function Reject(c: Case, reason: Option<string>, now: int): Review {
    if !c.application.status.PENDING_CREDIT_REVIEW? then Refused(NOT_PENDING_CREDIT_REVIEW)
    else Done(c.(application := c.application.(status := LENDER_REJECTED, decisionReason := Some(ReasonText(reason))),
                 customer := Customer(LENDER_REJECTED, now)))
  }

  class CreditReviewService {
    var application: Application
    var customer: Customer
    var loan: Option<Loan>
    const link: Option<Link>
    const events: map<Key, Event>

    function Contents(): Case
      reads this
    {
      Case(application, link, customer, loan, events)
    }

    constructor (c: Case)
      ensures Contents() == c
    {
      application, link, customer, loan, events := c.application, c.link, c.customer, c.loan, c.events;
    }

    method ApproveApplication(now: int) returns (error: Option<ReviewError>)
      modifies this
      ensures match Approve(old(Contents()), now)
              case Refused(e) => error == Some(e) && Contents() == old(Contents())
              case Done(c) => error == None && Contents() == c
    {
      if !application.status.PENDING_CREDIT_REVIEW? { return Some(NOT_PENDING_CREDIT_REVIEW); }
      if !application.HasOffer() || application.platformLan.None? || application.platformLan.value == "" {
        return Some(OFFER_MISSING);
      }
      var approvedRoi := application.lenderApprovedRoi;
      var processingFeePercent: Option<real> := None;
      if application.product.Some? {
        if approvedRoi.None? { approvedRoi := Some(application.product.value.annualRoiPercent); }
        processingFeePercent := Some(application.product.value.processingFeePercent);
      }
      if approvedRoi.None? { return Some(INTEREST_RATE_UNKNOWN); }
      if processingFeePercent.None? { return Some(PROCESSING_FEE_UNKNOWN); }
      application := application.(status := LENDER_APPROVED, lenderApprovedRoi := approvedRoi, decisionAt := Some(now));
      customer := Customer(LENDER_APPROVED, now);
      var principal, tenureDays := application.selectedAmount.value, application.selectedTenure.value;
      var processingFee := Round(Fee(principal, processingFeePercent.value));
      var totalInterest := Round(SimpleInterest(principal, approvedRoi.value, tenureDays));
      var totalRepayment := principal + totalInterest as real;
      if loan.None? {
        loan := Some(Loan(application.platformLan.value, principal, tenureDays, approvedRoi.value, processingFee,
                          totalRepayment, totalRepayment, now, false));
      }
      return None;
    }

    method RejectApplication(reason: Option<string>, now: int) returns (error: Option<ReviewError>)
      modifies this
      ensures match Reject(old(Contents()), reason, now)
              case Refused(e) => error == Some(e) && Contents() == old(Contents())
              case Done(c) => error == None && Contents() == c
    {
      if !application.status.PENDING_CREDIT_REVIEW? { return Some(NOT_PENDING_CREDIT_REVIEW); }
      application := application.(status := LENDER_REJECTED, decisionReason := Some(ReasonText(reason)));
      customer := Customer(LENDER_REJECTED, now);
      return None;
    }
  }

  // ----- Repayment arithmetic

  /** A year at r percent costs r percent of the principal, and interest adds up over days and principals. */
  lemma InterestIsSimple(principal: real, other: real, annualRoi: real, days: int, more: int)
    ensures SimpleInterest(principal, annualRoi, 365) == principal * annualRoi / 100.0
    ensures SimpleInterest(principal, annualRoi, days + more) == SimpleInterest(principal, annualRoi, days) + SimpleInterest(principal, annualRoi, more)
    ensures SimpleInterest(principal + other, annualRoi, days) == SimpleInterest(principal, annualRoi, days) + SimpleInterest(other, annualRoi, days)
  {
  }

  /** A fee of 100 percent is the principal, and fees add up over percentages and principals. */
  lemma FeeIsPercentage(principal: real, other: real, percent: real, more: real)
    ensures Fee(principal, 100.0) == principal
    ensures Fee(principal, percent + more) == Fee(principal, percent) + Fee(principal, more)
    ensures Fee(principal + other, percent) == Fee(principal, percent) + Fee(other, percent)
  {
  }

  ghost predicate WithinHalf(x: real, y: real) { -0.5 <= x - y <= 0.5 }

  /** A loan's figures agree, to the nearest unit, with its own principal, rate and tenure. */
  ghost predicate FairFigures(l: Loan) {
    && l.emiAmount == l.totalRepayment
    && WithinHalf(l.totalRepayment, l.approvedAmount + SimpleInterest(l.approvedAmount, l.interestRate, l.tenureDays))
    && (l.totalRepayment >= l.approvedAmount <==> SimpleInterest(l.approvedAmount, l.interestRate, l.tenureDays) >= -0.5)
  }

  lemma NewLoanFigures(app: Application, rate: real, now: int)
    requires app.HasOffer() && app.platformLan.Some? && app.product.Some?
    ensures FairFigures(NewLoan(app, rate, now))
    ensures NewLoan(app, rate, now).approvedAmount == app.selectedAmount.value
    ensures WithinHalf(NewLoan(app, rate, now).processingFee as real,
                       Fee(app.selectedAmount.value, app.product.value.processingFeePercent))
  {
  }

  /** Approval creates exactly one loan, on the customer's own terms, and never repays less than the principal. */
  lemma ApprovalCreatesLoan(c: Case, now: int)
    requires c.loan.None? && Approve(c, now).Done?
    ensures var l := Approve(c, now).result.loan;
            && l.Some? && FairFigures(l.value)
            && Some(l.value.approvedAmount) == c.application.selectedAmount
            && Some(l.value.tenureDays) == c.application.selectedTenure
            && Some(l.value.interestRate) == Rate(c.application)
            && (l.value.approvedAmount >= 0.0 && l.value.interestRate >= 0.0 && l.value.tenureDays >= 0
                ==> l.value.totalRepayment >= l.value.approvedAmount)
  {
  }
}
