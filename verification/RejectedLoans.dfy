/**
  Which loans survive the lender's rejection notice: the notice looks the loan up by its own
  account number only, but also finds and rejects the application by other numbers.
 */
module RejectedLoans {
  import opened LenderCase
  import opened LenderProtocol
  import LenderRejection

  lemma RunAround(w: World, before: seq<Action>, a: Action, after: seq<Action>)
    ensures Run(w, before + [a]) == Next(Run(w, before), a)
    ensures Run(w, before + [a] + after) == Run(Next(Run(w, before), a), after)
  {
    RunJoins(w, before, [a]);
    RunOne(Run(w, before), a);
    RunJoins(w, before + [a], after);
  }

  /** The step of the deciding notice itself. */
  lemma NoticeDecides(w: World, notice: Action)
    requires Reachable(w) && w.file.application.status.LENDER_APPROVED? && Acknowledged(w.file, notice)
    ensures w.file.loan.Some? && Reachable(Next(w, notice)) && Next(w, notice).file.application.status.LENDER_REJECTED?
    ensures LenderRejection.InForce(Next(w, notice).file.loan) <==>
            LenderRejection.NoticeNumber(notice.lan) != w.file.loan.value.lan
  {
    ApprovedHasLoan(w);
    LenderRejection.NoticeEffect(w.file, notice.lan, notice.outcome, notice.message, notice.now);
    RunReachable(w, [notice]);
    RunOne(w, notice);
  }

  lemma NoticeDecidesForGood(w: World, notice: Action, after: seq<Action>)
    requires Reachable(w) && w.file.application.status.LENDER_APPROVED? && Acknowledged(w.file, notice)
    ensures var c := Run(Next(w, notice), after).file;
            && c.application.status.LENDER_REJECTED? && w.file.loan.Some?
            && (LenderRejection.InForce(c.loan) <==> LenderRejection.NoticeNumber(notice.lan) != w.file.loan.value.lan)
  {
    NoticeDecides(w, notice);
    DecidedForever(Next(w, notice), after);
  }

  /**
    The first acknowledged notice decides about the loan of an approved application, for
    good: the application is rejected, and in every continuation, with any further notices,
    the loan is still in force exactly when that first notice did not name the loan's own number.
   */
  lemma LoanOutlivesRejectionIff(w: World, before: seq<Action>, notice: Action, after: seq<Action>)
    requires Reachable(w) && w.file.application.status.LENDER_APPROVED?
    requires (forall a :: a in before ==> !Acknowledged(w.file, a)) && Acknowledged(w.file, notice)
    ensures var c := Run(w, before + [notice] + after).file;
            && c.application.status.LENDER_REJECTED? && w.file.loan.Some?
            && (LenderRejection.InForce(c.loan) <==> LenderRejection.NoticeNumber(notice.lan) != w.file.loan.value.lan)
  {
    var w1 := Run(w, before);
    DecidedForever(w, before);
    SameAcknowledgement(w.file, w1.file, notice);
    RunReachable(w, before);
    NoticeDecidesForGood(w1, notice, after);
    RunAround(w, before, notice, after);
  }

  /** Action k is the first acknowledged notice. */
  ghost predicate FirstAcknowledged(c: Case, actions: seq<Action>, k: nat) {
    k < |actions| && Acknowledged(c, actions[k]) && forall j :: 0 <= j < k ==> !Acknowledged(c, actions[j])
  }

  /** No acknowledged notice, or a first one that names another number than lan. */
  ghost predicate Spared(c: Case, actions: seq<Action>, lan: string) {
    forall k: nat :: FirstAcknowledged(c, actions, k) ==> LenderRejection.NoticeNumber(actions[k].lan) != lan
  }

  lemma FindAcknowledged(c: Case, actions: seq<Action>) returns (k: nat)
    ensures k <= |actions| && (forall j :: 0 <= j < k ==> !Acknowledged(c, actions[j]))
    ensures k < |actions| ==> FirstAcknowledged(c, actions, k)
  {
    k := 0;
    while k < |actions| && !Acknowledged(c, actions[k])
      invariant k <= |actions| && forall j :: 0 <= j < k ==> !Acknowledged(c, actions[j])
    {
      k := k + 1;
    }
  }

  lemma SparedByFirst(c: Case, actions: seq<Action>, k: nat, lan: string)
    requires FirstAcknowledged(c, actions, k)
    ensures Spared(c, actions, lan) <==> LenderRejection.NoticeNumber(actions[k].lan) != lan
  {
    forall l: nat | FirstAcknowledged(c, actions, l) ensures l == k {}
  }

  /**
    Over every run from an approved application: its loan is in force at the end exactly when
    no notice was acknowledged or the first one that was named another number.
   */
  lemma LoanInForceIffSpared(w: World, actions: seq<Action>)
    requires Reachable(w) && w.file.application.status.LENDER_APPROVED?
    ensures w.file.loan.Some?
    ensures LenderRejection.InForce(Run(w, actions).file.loan) <==> Spared(w.file, actions, w.file.loan.value.lan)
  {
    ApprovedHasLoan(w);
    var k := FindAcknowledged(w.file, actions);
    if k < |actions| {
      FirstDecides(w, actions, k);
      SparedByFirst(w.file, actions, k, w.file.loan.value.lan);
    } else {
      NoNoticeSpares(w, actions);
    }
  }

  lemma ApprovedHasLoan(w: World)
    requires Reachable(w) && w.file.application.status.LENDER_APPROVED?
    ensures LenderRejection.InForce(w.file.loan)
  {
    ReachableInv(w);
  }

  lemma NoNoticeSpares(w: World, actions: seq<Action>)
    requires Reachable(w) && w.file.application.status.LENDER_APPROVED? && LenderRejection.InForce(w.file.loan)
    requires forall j :: 0 <= j < |actions| ==> !Acknowledged(w.file, actions[j])
    ensures LenderRejection.InForce(Run(w, actions).file.loan) && Spared(w.file, actions, w.file.loan.value.lan)
  {
    forall a | a in actions ensures !Acknowledged(w.file, a) {}
    DecidedForever(w, actions);
  }

  lemma FirstDecides(w: World, actions: seq<Action>, k: nat)
    requires Reachable(w) && w.file.application.status.LENDER_APPROVED? && w.file.loan.Some?
    requires FirstAcknowledged(w.file, actions, k)
    ensures LenderRejection.InForce(Run(w, actions).file.loan) <==>
            LenderRejection.NoticeNumber(actions[k].lan) != w.file.loan.value.lan
  {
    forall a | a in actions[..k] ensures !Acknowledged(w.file, a) {}
    SplitAt(actions, k);
    LoanOutlivesRejectionIff(w, actions[..k], actions[k], actions[k + 1..]);
  }

  lemma SplitAt(actions: seq<Action>, k: nat)
    requires k < |actions|
    ensures actions == actions[..k] + [actions[k]] + actions[k + 1..]
  {
  }
}
