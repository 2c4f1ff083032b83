/** Which step the customer may take next, and which failed outbox event blocks the journey. */
module CustomerJourney {
  import opened Options
  import opened LenderCase

  datatype JourneyStep =
    | BASIC_DETAILS | BANK_DETAILS | APPROVAL_PROCESSING | LENDER_REJECTED | PRE_APPROVAL_OFFER_SELECTION
    | INTEGRATION_SUPPORT | PLATFORM_REJECTED | ALLOCATION_PENDING | ASSESSMENT_FEE | PROFILE_DETAILS | AADHAAR_KYC
    | ADDRESS_DETAILS | ACCOUNT_AGGREGATOR | SUBMIT_APPLICATION | LENDER_CREATE_PROCESSING | LENDER_UPDATE_PROCESSING
    | LENDER_DECISION_PROCESSING

  datatype Reason =
    | EMPLOYMENT_SNAPSHOT_MISSING | MONTHLY_INCOME_MISSING | SALARIED_DETAILS_INCOMPLETE | BUSINESS_DETAILS_INCOMPLETE
    | LIVENESS_NOT_VERIFIED | DIGILOCKER_KYC_NOT_VERIFIED | AADHAAR_VERIFIED_NAME_MISSING | PERMANENT_ADDRESS_MISSING
    | CURRENT_ADDRESS_MISSING | SAME_ADDRESS_DECISION_MISSING | OTHER_REASON

  datatype OutboxStage = CREATE | UPDATE | DECISION | STATUS | CONSENT | OTHER_STAGE

  /** One row of the newest-first outbox listing; the consent type is given for consent events. */
  datatype OutboxRow = OutboxRow(stage: OutboxStage, status: OperationStatus, consentType: Option<string>)

  /** What the step depends on besides the application, the link and the loan. */
  datatype Progress = Progress(
    paid: bool, outbox: seq<OutboxRow>, reasons: set<Reason>, aaCompleted: bool, hasDecisionConsents: bool)

  /** A failed event blocks unless it only forwards a supplementary consent. */
  predicate Blocks(row: OutboxRow) {
    && row.status.FAILED?
    && !(row.stage.CONSENT? && row.consentType.Some? && row.consentType.value != "DATA_SHARING")
  }

  /** Row k is the first one that blocks. */
  ghost predicate FirstBlocking(rows: seq<OutboxRow>, k: nat) {
    k < |rows| && Blocks(rows[k]) && forall j :: 0 <= j < k ==> !Blocks(rows[j])
  }

  /** The first row of the listing that blocks, if there is one. */
  function BlockingOutbox(rows: seq<OutboxRow>): (r: Option<OutboxRow>)
    ensures r.None? <==> forall k :: 0 <= k < |rows| ==> !Blocks(rows[k])
    ensures r.Some? ==> exists k: nat :: FirstBlocking(rows, k) && rows[k] == r.value
  {
    if rows == [] then None
    else if Blocks(rows[0]) then
      assert FirstBlocking(rows, 0);
      Some(rows[0])
    else
      var r := BlockingOutbox(rows[1..]);
      FirstBlockingOfRest(rows, r);
      r
  }

  lemma FirstBlockingOfRest(rows: seq<OutboxRow>, r: Option<OutboxRow>)
    requires rows != [] && !Blocks(rows[0])
    requires r.None? <==> forall k :: 0 <= k < |rows[1..]| ==> !Blocks(rows[1..][k])
    requires r.Some? ==> exists k: nat :: FirstBlocking(rows[1..], k) && rows[1..][k] == r.value
    ensures r.None? <==> forall k :: 0 <= k < |rows| ==> !Blocks(rows[k])
    ensures r.Some? ==> exists k: nat :: FirstBlocking(rows, k) && rows[k] == r.value
  {
    assert forall k :: 0 <= k < |rows[1..]| ==> rows[1..][k] == rows[k + 1];
    if r.None? {
      forall k | 0 <= k < |rows| ensures !Blocks(rows[k]) {
        assert k > 0 ==> rows[k] == rows[1..][k - 1];
      }
    } else {
      var k: nat :| FirstBlocking(rows[1..], k) && rows[1..][k] == r.value;
      forall j | 0 <= j < k + 1 ensures !Blocks(rows[j]) {
        assert j > 0 ==> rows[j] == rows[1..][j - 1];
      }
      assert FirstBlocking(rows, k + 1);
    }
  }

  predicate Settled(s: OperationStatus) { s.ACKNOWLEDGED? || s.COMPLETED? }

  const PROFILE_REASONS: set<Reason> := {EMPLOYMENT_SNAPSHOT_MISSING, MONTHLY_INCOME_MISSING, SALARIED_DETAILS_INCOMPLETE,
                                         BUSINESS_DETAILS_INCOMPLETE, LIVENESS_NOT_VERIFIED}
  const KYC_REASONS: set<Reason> := {DIGILOCKER_KYC_NOT_VERIFIED, AADHAAR_VERIFIED_NAME_MISSING}
  const ADDRESS_REASONS: set<Reason> := {PERMANENT_ADDRESS_MISSING, CURRENT_ADDRESS_MISSING, SAME_ADDRESS_DECISION_MISSING}

  function NextPermittedStep(application: Option<Application>, link: Option<Link>, loan: Option<Loan>, p: Progress): JourneyStep {
    if application.None? then BASIC_DETAILS
    else
      var app := application.value;
      if app.status.LENDER_APPROVED? then (if loan.Some? then BANK_DETAILS else APPROVAL_PROCESSING)
      else if app.status.LENDER_REJECTED? then JourneyStep.LENDER_REJECTED
      else if app.status.LENDER_PRE_APPROVED? then
        (if app.selectedAmount.Some? then APPROVAL_PROCESSING else PRE_APPROVAL_OFFER_SELECTION)
      else if app.status.PENDING_CREDIT_REVIEW? then APPROVAL_PROCESSING
      else if BlockingOutbox(p.outbox).Some? then INTEGRATION_SUPPORT
      else if app.status.PLATFORM_REJECTED? then JourneyStep.PLATFORM_REJECTED
      else if app.lenderId.None? || app.lenderId.value == "" then JourneyStep.ALLOCATION_PENDING
      else if !p.paid then ASSESSMENT_FEE
      else if p.reasons * PROFILE_REASONS != {} then PROFILE_DETAILS
      else if p.reasons * KYC_REASONS != {} then AADHAAR_KYC
      else if p.reasons * ADDRESS_REASONS != {} then ADDRESS_DETAILS
      else if !p.aaCompleted then ACCOUNT_AGGREGATOR
      else if !p.hasDecisionConsents then SUBMIT_APPLICATION
      else if link.None? || !Settled(link.value.createStatus) then LENDER_CREATE_PROCESSING
      else if !Settled(link.value.updateStatus) then LENDER_UPDATE_PROCESSING
      else LENDER_DECISION_PROCESSING
  }

  function StepOf(c: Case, p: Progress): JourneyStep { NextPermittedStep(Some(c.application), c.link, c.loan, p) }

  /** Lender outcomes from pre-approval on are shown before anything else. */
  predicate LenderStageReached(s: ApplicationStatus) {
    s.LENDER_APPROVED? || s.LENDER_REJECTED? || s.LENDER_PRE_APPROVED? || s.PENDING_CREDIT_REVIEW?
  }

  /** The support screen shows exactly when, before any lender outcome, some failed event other than a supplementary consent is listed. */
  lemma SupportIffGatingFailure(app: Application, link: Option<Link>, loan: Option<Loan>, p: Progress)
    ensures NextPermittedStep(Some(app), link, loan, p).INTEGRATION_SUPPORT?
       <==> !LenderStageReached(app.status) && exists k :: 0 <= k < |p.outbox| && Blocks(p.outbox[k])
  {
  }

  /** The fee is only asked for once a lender is allocated, and a decision is only awaited with consents given and bank data connected. */
  lemma StepPrerequisites(app: Application, link: Option<Link>, loan: Option<Loan>, p: Progress)
    ensures NextPermittedStep(Some(app), link, loan, p).ASSESSMENT_FEE? ==> app.lenderId.Some? && app.lenderId.value != ""
    ensures NextPermittedStep(Some(app), link, loan, p).LENDER_DECISION_PROCESSING? ==>
              && p.paid && p.aaCompleted && p.hasDecisionConsents
              && p.reasons * (PROFILE_REASONS + KYC_REASONS + ADDRESS_REASONS) == {}
              && link.Some? && Settled(link.value.createStatus) && Settled(link.value.updateStatus)
  {
  }

  /** No application has an earlier outcome to show: the ordinary steps, one after the other, decide. */
  ghost predicate Ordinary(application: Option<Application>, p: Progress) {
    && application.Some? && !LenderStageReached(application.value.status) && !application.value.status.PLATFORM_REJECTED?
    && forall k :: 0 <= k < |p.outbox| ==> !Blocks(p.outbox[k])
  }

  /**
    How many of the nine prerequisites are met before the first that is not: lender, fee,
    profile, KYC, address, bank data, consents, creation and update at the lender.
   */
  function Met(conditions: seq<bool>): nat {
    if conditions == [] || !conditions[0] then 0 else 1 + Met(conditions[1..])
  }

  /** The nine prerequisites in their order. */
  function Prerequisites(app: Application, link: Option<Link>, p: Progress): seq<bool> {
    [app.lenderId.Some? && app.lenderId.value != "",
     p.paid,
     !(EMPLOYMENT_SNAPSHOT_MISSING in p.reasons || MONTHLY_INCOME_MISSING in p.reasons || SALARIED_DETAILS_INCOMPLETE in p.reasons
       || BUSINESS_DETAILS_INCOMPLETE in p.reasons || LIVENESS_NOT_VERIFIED in p.reasons),
     !(DIGILOCKER_KYC_NOT_VERIFIED in p.reasons || AADHAAR_VERIFIED_NAME_MISSING in p.reasons),
     !(PERMANENT_ADDRESS_MISSING in p.reasons || CURRENT_ADDRESS_MISSING in p.reasons || SAME_ADDRESS_DECISION_MISSING in p.reasons),
     p.aaCompleted,
     p.hasDecisionConsents,
     link.Some? && (link.value.createStatus.ACKNOWLEDGED? || link.value.createStatus.COMPLETED?),
     link.Some? && (link.value.updateStatus.ACKNOWLEDGED? || link.value.updateStatus.COMPLETED?)]
  }

  const ORDINARY_STEPS: seq<JourneyStep> :=
    [JourneyStep.ALLOCATION_PENDING, ASSESSMENT_FEE, PROFILE_DETAILS, AADHAAR_KYC, ADDRESS_DETAILS, ACCOUNT_AGGREGATOR,
     SUBMIT_APPLICATION, LENDER_CREATE_PROCESSING, LENDER_UPDATE_PROCESSING, LENDER_DECISION_PROCESSING]

  lemma ReasonSets(reasons: set<Reason>)
    ensures reasons * PROFILE_REASONS != {} <==>
              EMPLOYMENT_SNAPSHOT_MISSING in reasons || MONTHLY_INCOME_MISSING in reasons || SALARIED_DETAILS_INCOMPLETE in reasons
              || BUSINESS_DETAILS_INCOMPLETE in reasons || LIVENESS_NOT_VERIFIED in reasons
    ensures reasons * KYC_REASONS != {} <==> DIGILOCKER_KYC_NOT_VERIFIED in reasons || AADHAAR_VERIFIED_NAME_MISSING in reasons
    ensures reasons * ADDRESS_REASONS != {} <==>
              PERMANENT_ADDRESS_MISSING in reasons || CURRENT_ADDRESS_MISSING in reasons || SAME_ADDRESS_DECISION_MISSING in reasons
  {
    if x :| x in reasons * PROFILE_REASONS {}
    if x :| x in reasons * KYC_REASONS {}
    if x :| x in reasons * ADDRESS_REASONS {}
    assert forall x :: x in PROFILE_REASONS && x in reasons ==> x in reasons * PROFILE_REASONS;
    assert forall x :: x in KYC_REASONS && x in reasons ==> x in reasons * KYC_REASONS;
    assert forall x :: x in ADDRESS_REASONS && x in reasons ==> x in reasons * ADDRESS_REASONS;
  }

  lemma MetIs(c: seq<bool>)
    requires |c| == 9
    ensures Met(c) ==
            if !c[0] then 0 else if !c[1] then 1 else if !c[2] then 2 else if !c[3] then 3 else if !c[4] then 4
            else if !c[5] then 5 else if !c[6] then 6 else if !c[7] then 7 else if !c[8] then 8 else 9
  {
    var c1, c2, c3, c4 := c[1..], c[2..], c[3..], c[4..];
    assert c1[1..] == c2 && c2[1..] == c3 && c3[1..] == c4;
    var c5, c6, c7, c8 := c[5..], c[6..], c[7..], c[8..];
    assert c4[1..] == c5 && c5[1..] == c6 && c6[1..] == c7 && c7[1..] == c8 && c8[1..] == [];
    assert Met(c8) == if c[8] then 1 else 0;
    assert Met(c7) == if c[7] then 1 + Met(c8) else 0;
    assert Met(c6) == if c[6] then 1 + Met(c7) else 0;
    assert Met(c5) == if c[5] then 1 + Met(c6) else 0;
    assert Met(c4) == if c[4] then 1 + Met(c5) else 0;
    assert Met(c3) == if c[3] then 1 + Met(c4) else 0;
    assert Met(c2) == if c[2] then 1 + Met(c3) else 0;
    assert Met(c1) == if c[1] then 1 + Met(c2) else 0;
  }

  /**
    For an application without an outcome or a blocking failure, the step is the one that
    belongs to the first of the nine prerequisites that is not met, or the wait for the
    decision when all are; so exactly one step fits every application.
   */
  lemma FirstUnmetDecides(app: Application, link: Option<Link>, loan: Option<Loan>, p: Progress)
    requires Ordinary(Some(app), p)
    ensures Met(Prerequisites(app, link, p)) < |ORDINARY_STEPS|
    ensures NextPermittedStep(Some(app), link, loan, p) == ORDINARY_STEPS[Met(Prerequisites(app, link, p))]
  {
    ReasonSets(p.reasons);
    MetIs(Prerequisites(app, link, p));
    assert BlockingOutbox(p.outbox).None?;
  }

  /** The steps of all other applications: none yet, decided by the lender or the platform, or blocked. */
  lemma OutcomeDecides(application: Option<Application>, link: Option<Link>, loan: Option<Loan>, p: Progress)
    requires !Ordinary(application, p)
    ensures var step := NextPermittedStep(application, link, loan, p);
            if application.None? then step == BASIC_DETAILS
            else match application.value.status
              case LENDER_APPROVED => step == if loan.Some? then BANK_DETAILS else APPROVAL_PROCESSING
              case LENDER_REJECTED => step == JourneyStep.LENDER_REJECTED
              case LENDER_PRE_APPROVED => step == if application.value.selectedAmount.Some? then APPROVAL_PROCESSING else PRE_APPROVAL_OFFER_SELECTION
              case PENDING_CREDIT_REVIEW => step == APPROVAL_PROCESSING
              case _ =>
                if exists k :: 0 <= k < |p.outbox| && Blocks(p.outbox[k]) then step == INTEGRATION_SUPPORT
                else step == JourneyStep.PLATFORM_REJECTED
  {
  }

  /** A failed event blocks, unless it is a consent of a given type other than data sharing. */
  lemma BlocksIff(row: OutboxRow)
    ensures Blocks(row) <==>
              row.status == OperationStatus.FAILED
              && (row.stage == CONSENT ==> row.consentType.None? || row.consentType == Some("DATA_SHARING"))
  {
  }
}
