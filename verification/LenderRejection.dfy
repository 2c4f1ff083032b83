/** The lender's own rejection notice, which may arrive at any time and ends the application at whatever stage it is. */
module LenderRejection {
  import opened Options
  import opened LenderCase
  import NameTokens

  datatype NoticeError = LAN_REQUIRED | STATUS_UNSUPPORTED | NOT_FOUND

  datatype Answer = Acknowledged(result: Case) | Refused(error: NoticeError)

  /** The number that a notice names. */
  function NoticeNumber(lan: string): string { NameTokens.Trim(lan) }

  /** The loan is looked up by its own account number only. */
  predicate NamesLoan(c: Case, number: string) { c.loan.Some? && c.loan.value.lan == number }

  /** The application is that of the loan, or has the number as its account or application number. */
  predicate Names(c: Case, number: string) {
    NamesLoan(c, number) || c.application.platformLan == Some(number) || c.application.number == number
  }

  predicate AlreadyRejected(c: Case, number: string) {
    (NamesLoan(c, number) && c.loan.value.cancelled) || c.application.status.LENDER_REJECTED?
  }

  function ReasonCode(reason: string): string { if |reason| > 100 then reason[..100] else reason }

  /** The application is rejected; its loan is cancelled only if the notice names it. */
  function Rejected(c: Case, number: string, reason: string, at: int): Case {
    c.(application := c.application.(status := LENDER_REJECTED, decisionReason := Some(reason), decisionAt := Some(at),
                                     nextStatusCheckAt := None),
       customer := Customer(LENDER_REJECTED, at),
       loan := if NamesLoan(c, number) then Some(c.loan.value.(cancelled := true)) else c.loan,
       link := if c.link.Some?
               then Some(c.link.value.(normalizedDecision := Some(REJECTED), decisionStatus := COMPLETED,
                                       rejectionReasonCode := Some(ReasonCode(reason)), lastSuccessAt := Some(at)))
               else None)
  }

  /** The whole transaction for one notice; a notice for a rejected application is only acknowledged. */
  function Receive(c: Case, lan: string, status: string, reason: string, at: int): Answer {
    if NoticeNumber(lan) == "" then Refused(LAN_REQUIRED)
    else if NameTokens.Upper(NameTokens.Trim(status)) != "REJECTED" then Refused(STATUS_UNSUPPORTED)
    else if !Names(c, NoticeNumber(lan)) then Refused(NOT_FOUND)
    else if AlreadyRejected(c, NoticeNumber(lan)) then Acknowledged(c)
    else Acknowledged(Rejected(c, NoticeNumber(lan), reason, at))
  }

  class RejectionWebhook {
    var application: Application
    var link: Option<Link>
    var customer: Customer
    var loan: Option<Loan>
    const events: map<Key, Event>

    function Contents(): Case
      reads this
    {
      Case(application, link, customer, loan, events)
    }

    constructor (c: Case)
      ensures Contents() == c
    {
      application, link, customer, loan, events := c.application, c.link, c.customer, c.loan, c.events;
    }

    method ProcessNotice(lan: string, status: string, reason: string, at: int) returns (error: Option<NoticeError>)
      modifies this
      ensures match Receive(old(Contents()), lan, status, reason, at)
              case Refused(e) => error == Some(e) && Contents() == old(Contents())
              case Acknowledged(c) => error == None && Contents() == c
    {
      var number := NoticeNumber(lan);
      if number == "" { return Some(LAN_REQUIRED); }
      if NameTokens.Upper(NameTokens.Trim(status)) != "REJECTED" { return Some(STATUS_UNSUPPORTED); }
      var loanFound := loan.Some? && loan.value.lan == number;
      if !loanFound && application.platformLan != Some(number) && application.number != number { return Some(NOT_FOUND); }
      if (loanFound && loan.value.cancelled) || application.status.LENDER_REJECTED? { return None; }
      if loanFound {
        loan := Some(loan.value.(cancelled := true));
      }
      application := application.(status := LENDER_REJECTED, decisionReason := Some(reason), decisionAt := Some(at),
                                  nextStatusCheckAt := None);
      customer := Customer(LENDER_REJECTED, at);
      if link.Some? {
        link := Some(link.value.(normalizedDecision := Some(REJECTED), decisionStatus := COMPLETED,
                                 rejectionReasonCode := Some(ReasonCode(reason)), lastSuccessAt := Some(at)));
      }
      return None;
    }
  }

  predicate InForce(loan: Option<Loan>) { loan.Some? && !loan.value.cancelled }

  /**
    An acknowledged notice leaves the events, the selection and the terms of the loan alone. On an
    application that was not rejected yet and has a loan in force, the loan stays in force
    exactly when the notice names another number than the loan's own.
   */
  lemma NoticeEffect(c: Case, lan: string, status: string, reason: string, at: int)
    ensures var a := Receive(c, lan, status, reason, at);
            a.Acknowledged? ==>
              && a.result.events == c.events
              && a.result.application.selectedAmount == c.application.selectedAmount
              && a.result.application.selectedTenure == c.application.selectedTenure
              && (a.result.loan == c.loan || (c.loan.Some? && a.result.loan == Some(c.loan.value.(cancelled := true))))
              && (InForce(c.loan) && !c.application.status.LENDER_REJECTED? ==>
                    && a.result.application.status.LENDER_REJECTED?
                    && (InForce(a.result.loan) <==> NoticeNumber(lan) != c.loan.value.lan))
  {
  }

  /** A notice for a rejected application, whatever number it names, or for a cancelled loan changes nothing. */
  lemma LaterNoticeChangesNothing(c: Case, lan: string, status: string, reason: string, at: int)
    requires c.application.status.LENDER_REJECTED? || (c.loan.Some? && c.loan.value.cancelled && c.loan.value.lan == NameTokens.Trim(lan))
    ensures var a := Receive(c, lan, status, reason, at); a.Acknowledged? ==> a.result == c
  {
  }
}
