/** The database rows of one loan application that the lender decision protocol reads and writes. */
module LenderCase {
  import opened Options

  datatype ApplicationStatus =
    | DRAFT | SUBMITTED | PLATFORM_REJECTED | ALLOCATION_PENDING | LENDER_ALLOCATED | ASSESSMENT_FEE_PAID
    | LENDER_REVIEW | LENDER_PRE_APPROVED | PENDING_CREDIT_REVIEW | LENDER_APPROVED | LENDER_REJECTED | LOAN_CLOSED

  /** Lender product terms, when the application's product version is known. */
  datatype Product = Product(annualRoiPercent: real, processingFeePercent: real)

  datatype Application = Application(
    number: string, platformLan: Option<string>, lenderId: Option<string>, product: Option<Product>,
    status: ApplicationStatus,
    selectedAmount: Option<real>, selectedTenure: Option<int>,
    lenderApprovedAmount: Option<real>, lenderApprovedRoi: Option<real>, approvedAmount: Option<real>,
    decisionReference: Option<string>, decisionAt: Option<int>, decisionReason: Option<string>,
    coolingOffDays: Option<int>, coolingOffUntil: Option<int>, nextStatusCheckAt: Option<int>)
  {
    /** The offer fields the final steps insist on; a tenure of 0 counts as missing. */
    predicate HasOffer() { selectedAmount.Some? && selectedTenure.Some? && selectedTenure.value != 0 }
  }

  datatype OperationStatus = NOT_STARTED | PENDING | PROCESSING | ACKNOWLEDGED | RETRY_PENDING | FAILED | COMPLETED

  datatype Decision = APPROVED | REJECTED | PENDING | UNKNOWN

  datatype Stage = DECISION | STATUS

  datatype Link = Link(
    partnerApplicationId: Option<string>, decisionVersion: int,
    createStatus: OperationStatus, updateStatus: OperationStatus, decisionStatus: OperationStatus,
    normalizedDecision: Option<Decision>, lastSyncedStage: Option<Stage>, lastResponseStatus: Option<string>,
    lastSuccessAt: Option<int>, rejectionReasonCode: Option<string>)

  datatype Customer = Customer(onboardingStatus: ApplicationStatus, lastActivityAt: int)

  datatype Loan = Loan(
    lan: string, approvedAmount: real, tenureDays: int, interestRate: real, processingFee: int,
    totalRepayment: real, emiAmount: real, acceptedAt: int, cancelled: bool)

  /** The idempotency key of an outbox event of this application. */
  datatype Key = Key(stage: Stage, version: int)

  datatype Event = Event(status: OperationStatus, lockToken: Option<nat>)

  /** One application with its link, customer, loan and outbox events. */
  datatype Case = Case(
    application: Application, link: Option<Link>, customer: Customer, loan: Option<Loan>, events: map<Key, Event>)

  /** The event is being processed under this lock token. */
  predicate Holds(events: map<Key, Event>, key: Key, lockToken: nat) {
    key in events && events[key].status == OperationStatus.PROCESSING && events[key].lockToken == Some(lockToken)
  }
}
