/**
  Signing a loan agreement with a one-time password: the states of one signing transaction
  under any sequence of requests. Each request is one step; times are in milliseconds.
 */
module ElectronicSign {
  import opened Options

  datatype Status =
    | CREATED | DOCUMENT_READY | DOCUMENT_VIEWED | OTP_SENT | OTP_VERIFIED | SIGNING | SIGNED | FAILED | EXPIRED | CANCELLED

  /** The row of the transaction. One-time passwords and session ids are abstract values. */
  datatype Transaction = Transaction(
    status: Status, viewedAt: Option<int>, consentedAt: Option<int>,
    otpSession: Option<nat>, otp: Option<nat>, otpSentAt: Option<int>, otpExpiresAt: Option<int>,
    failedAttempts: nat, resendCount: nat, verifiedAt: Option<int>, signedAt: Option<int>)

  datatype Refusal =
    | MANDATE_MISSING | NOT_FOUND | SIGNING_IN_PROGRESS | CONSENT_REQUIRED | ALREADY_SIGNED | NOT_VIEWED
    | RESEND_TOO_SOON | RESENDS_EXHAUSTED | WRONG_SESSION | OTP_EXPIRED | ATTEMPTS_EXHAUSTED | WRONG_OTP
    | NOT_READY_TO_SIGN | DOCUMENT_UNREADABLE | DOCUMENT_CHANGED

  const RESEND_DELAY: int := 60000
  const MAX_RESENDS: nat := 3
  const OTP_LIFETIME: int := 300000
  const MAX_FAILED_ATTEMPTS: nat := 5

  /** What comparing the stored document with its recorded hash gives. */
  datatype Integrity = Unreadable | Changed | Intact

  datatype Request =
    | Prepare(loanFound: bool, mandateCompleted: bool)
    | View(now: int, loanFound: bool, mandateCompleted: bool)
    | Send(now: int, consentAccepted: bool, session: nat, otp: nat)
    | Verify(now: int, session: nat, guess: Option<nat>, document: Integrity)

  /** An OTP message, as sent. */
  datatype Sent = Sent(at: int, session: nat, otp: nat)

  /** The transaction, if it exists, with the record of what has happened to it. */
  datatype Signing = Signing(tx: Option<Transaction>, sent: seq<Sent>, wrongGuesses: nat, acceptedAt: Option<int>)

  datatype Reply = Reply(state: Signing, refusal: Option<Refusal>)

  function NewTransaction(): Transaction {
    Transaction(DOCUMENT_READY, None, None, None, None, None, None, 0, 0, None, None)
  }

  function PrepareStep(s: Signing, loanFound: bool, mandateCompleted: bool): Reply {
    if !loanFound then Reply(s, Some(NOT_FOUND))
    else if !mandateCompleted then Reply(s, Some(MANDATE_MISSING))
    else if s.tx.None? then Reply(s.(tx := Some(NewTransaction())), None)
    else if s.tx.value.status.SIGNED? then Reply(s, None)
    else if s.tx.value.status.OTP_VERIFIED? || s.tx.value.status.SIGNING? then Reply(s, Some(SIGNING_IN_PROGRESS))
    else Reply(s.(tx := Some(s.tx.value.(status := DOCUMENT_READY))), None)
  }

  function ViewStep(s: Signing, now: int, loanFound: bool, mandateCompleted: bool): Reply {
    if s.tx.None? && !loanFound then Reply(s, Some(NOT_FOUND))
    else if s.tx.None? && !mandateCompleted then Reply(s, Some(MANDATE_MISSING))
    else
      var t := if s.tx.None? then NewTransaction() else s.tx.value;
      if t.status.SIGNED? then Reply(s, None)
      else Reply(s.(tx := Some(t.(
        viewedAt := if t.viewedAt.Some? then t.viewedAt else Some(now),
        status := if t.status.CREATED? || t.status.DOCUMENT_READY? then DOCUMENT_VIEWED else t.status))), None)
  }

  function SendStep(s: Signing, now: int, consentAccepted: bool, session: nat, otp: nat): Reply {
    if !consentAccepted then Reply(s, Some(CONSENT_REQUIRED))
    else if s.tx.None? then Reply(s, Some(NOT_FOUND))
    else
      var t := s.tx.value;
      if t.status.SIGNED? then Reply(s, Some(ALREADY_SIGNED))
      else if t.viewedAt.None? && !t.status.OTP_SENT? then Reply(s, Some(NOT_VIEWED))
      else if t.otpSentAt.Some? && now - t.otpSentAt.value < RESEND_DELAY then Reply(s, Some(RESEND_TOO_SOON))
      else if t.resendCount >= MAX_RESENDS then Reply(s, Some(RESENDS_EXHAUSTED))
      else Reply(s.(
        tx := Some(t.(
          otpSession := Some(session), otp := Some(otp), otpSentAt := Some(now), otpExpiresAt := Some(now + OTP_LIFETIME),
          failedAttempts := 0, resendCount := if t.otpSentAt.Some? then t.resendCount + 1 else t.resendCount,
          consentedAt := if t.consentedAt.Some? then t.consentedAt else Some(now), status := OTP_SENT)),
        sent := s.sent + [Sent(now, session, otp)]), None)
  }

  function VerifyStep(s: Signing, now: int, session: nat, guess: Option<nat>, document: Integrity): Reply {
    if s.tx.None? then Reply(s, Some(NOT_FOUND))
    else
      var t := s.tx.value;
      if t.status.SIGNED? then Reply(s, None)
      else if t.otpSession != Some(session) then Reply(s, Some(WRONG_SESSION))
      else if t.otpExpiresAt.None? || now > t.otpExpiresAt.value then Reply(s, Some(OTP_EXPIRED))
      else if t.failedAttempts >= MAX_FAILED_ATTEMPTS then Reply(s, Some(ATTEMPTS_EXHAUSTED))
      else if guess.None? || t.otp != guess then
        Reply(s.(tx := Some(t.(failedAttempts := t.failedAttempts + 1)), wrongGuesses := s.wrongGuesses + 1), Some(WRONG_OTP))
      else if !t.status.OTP_SENT? && !t.status.SIGNING? then Reply(s, Some(NOT_READY_TO_SIGN))
      else
        var locked := if t.status.OTP_SENT? then t.(status := SIGNING, verifiedAt := Some(now)) else t;
        match document
        case Unreadable => Reply(s.(tx := Some(locked)), Some(DOCUMENT_UNREADABLE))
        case Changed => Reply(s.(tx := Some(locked.(status := FAILED))), Some(DOCUMENT_CHANGED))
        case Intact => Reply(s.(tx := Some(locked.(status := SIGNED, signedAt := Some(now))), acceptedAt := Some(now)), None)
  }

  function Handle(s: Signing, r: Request): Reply {
    match r
    case Prepare(loanFound, mandate) => PrepareStep(s, loanFound, mandate)
    case View(now, loanFound, mandate) => ViewStep(s, now, loanFound, mandate)
    case Send(now, consent, session, otp) => SendStep(s, now, consent, session, otp)
    case Verify(now, session, guess, document) => VerifyStep(s, now, session, guess, document)
  }

  function Run(s: Signing, requests: seq<Request>): Signing {
    if requests == [] then s else Handle(Run(s, requests[..|requests| - 1]), requests[|requests| - 1]).state
  }

  const NOTHING: Signing := Signing(None, [], 0, None)

  /** The row and the operations on it. */
  class ElectronicSignService {
    var tx: Option<Transaction>
    ghost var sent: seq<Sent>
    ghost var wrongGuesses: nat
    ghost var acceptedAt: Option<int>

    ghost function Contents(): Signing
      reads this
    {
      Signing(tx, sent, wrongGuesses, acceptedAt)
    }

    constructor ()
      ensures Contents() == NOTHING
    {
      tx, sent, wrongGuesses, acceptedAt := None, [], 0, None;
    }

    method PrepareDocument(loanFound: bool, mandateCompleted: bool) returns (refusal: Option<Refusal>)
      modifies this`tx
      ensures Reply(Contents(), refusal) == PrepareStep(old(Contents()), loanFound, mandateCompleted)
    {
      if !loanFound { return Some(NOT_FOUND); }
      if !mandateCompleted { return Some(MANDATE_MISSING); }
      if tx.Some? && tx.value.status.SIGNED? { return None; }
      if tx.Some? {
        if tx.value.status.OTP_VERIFIED? || tx.value.status.SIGNING? { return Some(SIGNING_IN_PROGRESS); }
        tx := Some(tx.value.(status := DOCUMENT_READY));
      } else {
        tx := Some(NewTransaction());
      }
      return None;
    }

    method MarkDocumentViewed(now: int, loanFound: bool, mandateCompleted: bool) returns (refusal: Option<Refusal>)
      modifies this`tx
      ensures Reply(Contents(), refusal) == ViewStep(old(Contents()), now, loanFound, mandateCompleted)
    {
      if tx.None? {
        if !loanFound { return Some(NOT_FOUND); }
        refusal := PrepareDocument(true, mandateCompleted);
        if refusal.Some? { return; }
      }
      var t := tx.value;
      if t.status.SIGNED? { return None; }
      if t.viewedAt.None? { t := t.(viewedAt := Some(now)); }
      if t.status.CREATED? || t.status.DOCUMENT_READY? { t := t.(status := DOCUMENT_VIEWED); }
      tx := Some(t);
      return None;
    }

    method SendSigningOtp(now: int, consentAccepted: bool, session: nat, otp: nat) returns (refusal: Option<Refusal>)
      modifies this`tx, this`sent
      ensures Reply(Contents(), refusal) == SendStep(old(Contents()), now, consentAccepted, session, otp)
    {
      if !consentAccepted { return Some(CONSENT_REQUIRED); }
      if tx.None? { return Some(NOT_FOUND); }
      var t := tx.value;
      if t.status.SIGNED? { return Some(ALREADY_SIGNED); }
      if t.viewedAt.None? && !t.status.OTP_SENT? { return Some(NOT_VIEWED); }
      if t.otpSentAt.Some? {
        var elapsed := now - t.otpSentAt.value;
        if elapsed < RESEND_DELAY { return Some(RESEND_TOO_SOON); }
      }
      if t.resendCount >= MAX_RESENDS { return Some(RESENDS_EXHAUSTED); }
      sent := sent + [Sent(now, session, otp)];
      if t.otpSentAt.Some? { t := t.(resendCount := t.resendCount + 1); }
      if t.consentedAt.None? { t := t.(consentedAt := Some(now)); }
      tx := Some(t.(otpSession := Some(session), otp := Some(otp), otpSentAt := Some(now),
                    otpExpiresAt := Some(now + OTP_LIFETIME), failedAttempts := 0, status := OTP_SENT));
      return None;
    }

    method VerifyOtpAndAccept(now: int, session: nat, guess: Option<nat>, document: Integrity) returns (refusal: Option<Refusal>)
      modifies this`tx, this`wrongGuesses, this`acceptedAt
      ensures Reply(Contents(), refusal) == VerifyStep(old(Contents()), now, session, guess, document)
    {
      if tx.None? { return Some(NOT_FOUND); }
      var t := tx.value;
      if t.status.SIGNED? { return None; }
      if t.otpSession != Some(session) { return Some(WRONG_SESSION); }
      if t.otpExpiresAt.None? || now > t.otpExpiresAt.value { return Some(OTP_EXPIRED); }
      if t.failedAttempts >= MAX_FAILED_ATTEMPTS { return Some(ATTEMPTS_EXHAUSTED); }
      if guess.None? || t.otp != guess {
        tx := Some(t.(failedAttempts := t.failedAttempts + 1));
        wrongGuesses := wrongGuesses + 1;
        return Some(WRONG_OTP);
      }
      if t.status.OTP_SENT? {
        tx := Some(t.(status := SIGNING, verifiedAt := Some(now)));
      } else if !t.status.SIGNING? {
        return Some(NOT_READY_TO_SIGN);
      }
      if document.Unreadable? { return Some(DOCUMENT_UNREADABLE); }
      if document.Changed? {
        tx := Some(tx.value.(status := FAILED));
        return Some(DOCUMENT_CHANGED);
      }
      tx := Some(tx.value.(status := SIGNED, signedAt := Some(now)));
      acceptedAt := Some(now);
      return None;
    }
  }

  // ----- Invariant

  ghost predicate SpacedOut(sent: seq<Sent>) {
    forall k, l :: 0 <= k < l < |sent| ==> sent[k].at + RESEND_DELAY <= sent[l].at
  }

  /** The OTP fields of the row always describe the last message sent. */
  ghost predicate LastSent(t: Transaction, sent: seq<Sent>) {
    if sent == [] then
      t.otpSession.None? && t.otp.None? && t.otpSentAt.None? && t.otpExpiresAt.None? && t.resendCount == 0
    else
      var last := sent[|sent| - 1];
      && t.otpSession == Some(last.session) && t.otp == Some(last.otp)
      && t.otpSentAt == Some(last.at) && t.otpExpiresAt == Some(last.at + OTP_LIFETIME)
      && t.resendCount == |sent| - 1 && t.resendCount <= MAX_RESENDS
  }

  ghost predicate TransactionOk(s: Signing, t: Transaction) {
    && LastSent(t, s.sent)
    && t.failedAttempts <= MAX_FAILED_ATTEMPTS
    && (if s.sent == [] then s.wrongGuesses == 0 && t.failedAttempts == 0
        else s.wrongGuesses <= MAX_FAILED_ATTEMPTS * (|s.sent| - 1) + t.failedAttempts)
    && (s.sent != [] ==> t.viewedAt.Some? && t.consentedAt.Some?)
    && (t.status.OTP_SENT? || t.status.SIGNING? || t.status.SIGNED? ==> s.sent != [])
    && (t.status.SIGNED? <==> s.acceptedAt.Some?)
  }

  /** The acceptance happened while the last OTP was alive. */
  ghost predicate AcceptedInTime(s: Signing) {
    s.acceptedAt.Some? ==> s.sent != [] && s.acceptedAt.value <= s.sent[|s.sent| - 1].at + OTP_LIFETIME
  }

  ghost predicate Inv(s: Signing) {
    && SpacedOut(s.sent) && AcceptedInTime(s)
    && (if s.tx.None? then s == NOTHING else TransactionOk(s, s.tx.value))
  }

  lemma PrepareKeeps(s: Signing, loanFound: bool, mandateCompleted: bool)
    requires Inv(s)
    ensures Inv(PrepareStep(s, loanFound, mandateCompleted).state)
  {
  }

  lemma ViewKeeps(s: Signing, now: int, loanFound: bool, mandateCompleted: bool)
    requires Inv(s)
    ensures Inv(ViewStep(s, now, loanFound, mandateCompleted).state)
  {
  }

  lemma SendKeeps(s: Signing, now: int, consentAccepted: bool, session: nat, otp: nat)
    requires Inv(s)
    ensures Inv(SendStep(s, now, consentAccepted, session, otp).state)
  {
  }

  lemma VerifyKeeps(s: Signing, now: int, session: nat, guess: Option<nat>, document: Integrity)
    requires Inv(s)
    ensures Inv(VerifyStep(s, now, session, guess, document).state)
  {
  }

  lemma HandleKeepsInv(s: Signing, r: Request)
    requires Inv(s)
    ensures Inv(Handle(s, r).state)
  {
    match r
    case Prepare(loanFound, mandate) => PrepareKeeps(s, loanFound, mandate);
    case View(now, loanFound, mandate) => ViewKeeps(s, now, loanFound, mandate);
    case Send(now, consent, session, otp) => SendKeeps(s, now, consent, session, otp);
    case Verify(now, session, guess, document) => VerifyKeeps(s, now, session, guess, document);
  }

  lemma {:induction false} RunKeepsInv(s: Signing, requests: seq<Request>)
    requires Inv(s)
    ensures Inv(Run(s, requests))
    decreases |requests|
  {
    if requests != [] {
      RunKeepsInv(s, requests[..|requests| - 1]);
      HandleKeepsInv(Run(s, requests[..|requests| - 1]), requests[|requests| - 1]);
    }
  }

  // ----- Guarantees over any sequence of requests

  /** At most four OTPs are sent, at least a minute apart, and at most twenty wrong guesses are ever evaluated. */
  lemma OtpBudget(requests: seq<Request>)
    ensures var s := Run(NOTHING, requests);
            && |s.sent| <= 4
            && (forall k, l :: 0 <= k < l < |s.sent| ==> s.sent[k].at + 60000 <= s.sent[l].at)
            && s.wrongGuesses <= 20
  {
    RunKeepsInv(NOTHING, requests);
  }

  ghost predicate IsSigned(s: Signing) { s.tx.Some? && s.tx.value.status.SIGNED? }

  /** A signed agreement stays signed, and nothing about it changes any more. */
  lemma {:induction false} SignedIsFinal(s: Signing, requests: seq<Request>)
    requires IsSigned(s)
    ensures Run(s, requests) == s
    decreases |requests|
  {
    if requests != [] {
      SignedIsFinal(s, requests[..|requests| - 1]);
    }
  }

  /** The step that signs was a verification with the last OTP sent, in its session and within its five minutes. */
  lemma SigningNeedsMatchingOtp(requests: seq<Request>, r: Request)
    requires !IsSigned(Run(NOTHING, requests)) && IsSigned(Handle(Run(NOTHING, requests), r).state)
    ensures var s := Run(NOTHING, requests);
            && s.sent != [] && r.Verify? && r.document.Intact?
            && var last := s.sent[|s.sent| - 1];
            && r.session == last.session && r.guess == Some(last.otp) && r.now <= last.at + 300000
    ensures var t := Run(NOTHING, requests).tx.value; t.viewedAt.Some? && t.consentedAt.Some? && t.failedAttempts < 5
  {
    RunKeepsInv(NOTHING, requests);
  }

  /** In every reachable state, signed implies viewed, consented, verified by OTP and accepted in time. */
  lemma SignedImpliesEvidence(requests: seq<Request>)
    ensures var s := Run(NOTHING, requests);
            IsSigned(s) ==>
              && s.tx.value.viewedAt.Some? && s.tx.value.consentedAt.Some? && s.sent != []
              && s.acceptedAt.Some? && s.acceptedAt.value <= s.sent[|s.sent| - 1].at + 300000
  {
    RunKeepsInv(NOTHING, requests);
  }

  // ----- Exactly when each request succeeds

  function LastSentOf(s: Signing): Sent
    requires s.sent != []
  {
    s.sent[|s.sent| - 1]
  }

  /** The request is a verification for the last message sent, in its session and within five minutes. */
  predicate Answers(s: Signing, r: Request) {
    r.Verify? && s.sent != [] && r.session == LastSentOf(s).session && r.now <= LastSentOf(s).at + 300000
  }

  /** The wrong guesses that were evaluated since the last message was sent. */
  function WrongSince(requests: seq<Request>): nat {
    if requests == [] then 0
    else
      var front, r := requests[..|requests| - 1], requests[|requests| - 1];
      var s := Run(NOTHING, front);
      if r.Send? && |Handle(s, r).state.sent| > |s.sent| then 0
      else if GuessesWrong(s, r, WrongSince(front)) then WrongSince(front) + 1 else WrongSince(front)
  }

  /** A guess that is evaluated, and differs from the password of the last message. */
  predicate GuessesWrong(s: Signing, r: Request, wrongSince: nat) {
    Answers(s, r) && s.acceptedAt.None? && wrongSince < 5 && r.guess != Some(LastSentOf(s).otp)
  }

  lemma {:induction false} WrongSinceIsCounted(requests: seq<Request>)
    ensures var s := Run(NOTHING, requests); WrongSince(requests) == if s.tx.Some? then s.tx.value.failedAttempts else 0
    decreases |requests|
  {
    if requests != [] {
      WrongSinceIsCounted(requests[..|requests| - 1]);
      RunKeepsInv(NOTHING, requests[..|requests| - 1]);
      CountsWrong(Run(NOTHING, requests[..|requests| - 1]), requests[|requests| - 1], WrongSince(requests[..|requests| - 1]));
    }
  }

  lemma CountsWrong(s: Signing, r: Request, wrongSince: nat)
    requires Inv(s) && wrongSince == if s.tx.Some? then s.tx.value.failedAttempts else 0
    ensures var s' := Handle(s, r).state;
            (if r.Send? && |s'.sent| > |s.sent| then 0 else if GuessesWrong(s, r, wrongSince) then wrongSince + 1 else wrongSince)
            == if s'.tx.Some? then s'.tx.value.failedAttempts else 0
    ensures Handle(s, r).state.wrongGuesses == s.wrongGuesses + if GuessesWrong(s, r, wrongSince) then 1 else 0
  {
  }

  /** A right guess that may sign: for the last message, with guesses left, at a row waiting for a password or in signing. */
  ghost predicate MaySign(s: Signing, r: Request, wrongSince: nat) {
    && Answers(s, r) && r.guess == Some(LastSentOf(s).otp) && wrongSince < 5
    && s.tx.Some? && (s.tx.value.status.OTP_SENT? || s.tx.value.status.SIGNING?)
  }

  /** What a request does to an unsigned transaction, given the wrong guesses since the last message. */
  ghost predicate SigningAnswer(s: Signing, r: Request, wrongSince: nat, reply: Reply) {
    && (IsSigned(reply.state) <==> MaySign(s, r, wrongSince) && r.document.Intact?)
    && (IsSigned(reply.state) ==>
          reply.state.acceptedAt == Some(r.now) && reply.state.tx.value.signedAt == Some(r.now) && reply.refusal.None?)
    && (MaySign(s, r, wrongSince) ==>
          reply.state.tx.Some? &&
          reply.state.tx.value.verifiedAt == (if s.tx.value.status.OTP_SENT? then Some(r.now) else s.tx.value.verifiedAt))
    && (MaySign(s, r, wrongSince) && r.document.Changed? ==>
          reply.state.tx.Some? && reply.state.tx.value.status == FAILED && reply.refusal == Some(DOCUMENT_CHANGED))
    && (MaySign(s, r, wrongSince) && r.document.Unreadable? ==>
          reply.state.tx.Some? && reply.state.tx.value.status == SIGNING && reply.refusal == Some(DOCUMENT_UNREADABLE))
  }

  lemma VerifyAnswer(s: Signing, r: Request)
    requires Inv(s) && !IsSigned(s) && s.tx.Some? && r.Verify?
    ensures SigningAnswer(s, r, s.tx.value.failedAttempts, VerifyStep(s, r.now, r.session, r.guess, r.document))
  {
  }

  lemma OthersDoNotSign(s: Signing, r: Request, wrongSince: nat)
    requires Inv(s) && !IsSigned(s) && (!r.Verify? || s.tx.None?)
    ensures SigningAnswer(s, r, wrongSince, Handle(s, r))
  {
  }

  /**
    In every reachable unsigned state a request signs exactly if it verifies with the last
    password in its session and within five minutes, after fewer than five wrong guesses
    since that message, at a row waiting for it, and the document is intact. With a changed
    document the same request fails the transaction, and with an unreadable one it stays in
    signing, from where it can be repeated.
   */
  lemma SignsIff(requests: seq<Request>, r: Request)
    requires !IsSigned(Run(NOTHING, requests))
    ensures SigningAnswer(Run(NOTHING, requests), r, WrongSince(requests), Handle(Run(NOTHING, requests), r))
  {
    var s := Run(NOTHING, requests);
    RunKeepsInv(NOTHING, requests);
    WrongSinceIsCounted(requests);
    if r.Verify? && s.tx.Some? {
      VerifyAnswer(s, r);
    } else {
      OthersDoNotSign(s, r, WrongSince(requests));
    }
  }

  /** A verification is answered with a wrong-password refusal exactly when it is an evaluated wrong guess, which is counted. */
  lemma WrongGuessIff(requests: seq<Request>, r: Request)
    ensures var s := Run(NOTHING, requests);
            && (Handle(s, r).refusal == Some(WRONG_OTP) <==> GuessesWrong(s, r, WrongSince(requests)))
            && Handle(s, r).state.wrongGuesses == s.wrongGuesses + if GuessesWrong(s, r, WrongSince(requests)) then 1 else 0
  {
    RunKeepsInv(NOTHING, requests);
    WrongSinceIsCounted(requests);
    WrongGuessAnswer(Run(NOTHING, requests), r, WrongSince(requests));
  }

  lemma WrongGuessAnswer(s: Signing, r: Request, wrongSince: nat)
    requires Inv(s) && wrongSince == if s.tx.Some? then s.tx.value.failedAttempts else 0
    ensures Handle(s, r).refusal == Some(WRONG_OTP) <==> GuessesWrong(s, r, wrongSince)
    ensures Handle(s, r).state.wrongGuesses == s.wrongGuesses + if GuessesWrong(s, r, wrongSince) then 1 else 0
  {
    CountsWrong(s, r, wrongSince);
  }

  ghost predicate SendingAnswer(s: Signing, r: Request, reply: Reply) {
    if r.Send? && r.consentAccepted && s.tx.Some? && !IsSigned(s) && s.tx.value.viewedAt.Some?
       && |s.sent| < 4 && (s.sent == [] || r.now >= LastSentOf(s).at + 60000)
    then
      && reply.state.sent == s.sent + [Sent(r.now, r.session, r.otp)] && reply.refusal.None?
      && reply.state.tx.Some? && reply.state.tx.value.status == OTP_SENT && reply.state.tx.value.viewedAt == s.tx.value.viewedAt
      && reply.state.tx.value.consentedAt == (if s.tx.value.consentedAt.Some? then s.tx.value.consentedAt else Some(r.now))
    else reply.state.sent == s.sent && (r.Send? ==> reply.state == s && reply.refusal.Some?)
  }

  lemma SendAnswer(s: Signing, r: Request)
    requires Inv(s) && r.Send?
    ensures SendingAnswer(s, r, Handle(s, r))
  {
  }

  /**
    In every reachable state a message is sent exactly on a request with consent, for an
    unsigned document that was viewed, a minute after the last message and at most four times.
   */
  lemma SendsIff(requests: seq<Request>, r: Request)
    ensures SendingAnswer(Run(NOTHING, requests), r, Handle(Run(NOTHING, requests), r))
  {
    RunKeepsInv(NOTHING, requests);
    if r.Send? {
      SendAnswer(Run(NOTHING, requests), r);
    }
  }

  /** Why a request is refused, in the order the reasons are looked for. */
  ghost predicate RefusalIs(s: Signing, r: Request, wrongSince: nat, refusal: Option<Refusal>) {
    match r
    case Send(now, consentAccepted, _, _) =>
      refusal ==
        if !consentAccepted then Some(CONSENT_REQUIRED) else if s.tx.None? then Some(NOT_FOUND)
        else if IsSigned(s) then Some(ALREADY_SIGNED) else if s.tx.value.viewedAt.None? then Some(NOT_VIEWED)
        else if s.sent != [] && now < LastSentOf(s).at + 60000 then Some(RESEND_TOO_SOON)
        else if |s.sent| == 4 then Some(RESENDS_EXHAUSTED) else None
    case Verify(now, session, guess, document) =>
      refusal ==
        if s.tx.None? then Some(NOT_FOUND) else if IsSigned(s) then None
        else if s.sent == [] || LastSentOf(s).session != session then Some(WRONG_SESSION)
        else if now > LastSentOf(s).at + 300000 then Some(OTP_EXPIRED)
        else if wrongSince >= 5 then Some(ATTEMPTS_EXHAUSTED) else if guess != Some(LastSentOf(s).otp) then Some(WRONG_OTP)
        else if !s.tx.value.status.OTP_SENT? && !s.tx.value.status.SIGNING? then Some(NOT_READY_TO_SIGN)
        else if document.Unreadable? then Some(DOCUMENT_UNREADABLE) else if document.Changed? then Some(DOCUMENT_CHANGED) else None
    case Prepare(loanFound, mandateCompleted) =>
      refusal ==
        if !loanFound then Some(NOT_FOUND) else if !mandateCompleted then Some(MANDATE_MISSING)
        else if s.tx.Some? && (s.tx.value.status.OTP_VERIFIED? || s.tx.value.status.SIGNING?) then Some(SIGNING_IN_PROGRESS) else None
    case View(_, loanFound, mandateCompleted) =>
      refusal ==
        if s.tx.Some? then None else if !loanFound then Some(NOT_FOUND) else if !mandateCompleted then Some(MANDATE_MISSING) else None
  }

  lemma SendRefusal(s: Signing, r: Request, wrongSince: nat)
    requires Inv(s) && !r.Verify?
    ensures RefusalIs(s, r, wrongSince, Handle(s, r).refusal)
  {
  }

  lemma VerifyRefusal(s: Signing, r: Request)
    requires Inv(s) && r.Verify?
    ensures RefusalIs(s, r, if s.tx.Some? then s.tx.value.failedAttempts else 0, Handle(s, r).refusal)
  {
  }

  /** In every reachable state, the first of the reasons that applies is the one that is given. */
  lemma FirstReasonIsGiven(requests: seq<Request>, r: Request)
    ensures RefusalIs(Run(NOTHING, requests), r, WrongSince(requests), Handle(Run(NOTHING, requests), r).refusal)
  {
    RunKeepsInv(NOTHING, requests);
    WrongSinceIsCounted(requests);
    if r.Verify? {
      VerifyRefusal(Run(NOTHING, requests), r);
    } else {
      SendRefusal(Run(NOTHING, requests), r, WrongSince(requests));
    }
  }

  /** The row after it was prepared, if that succeeds: a new one, or the old one ready again without losing anything. */
  ghost predicate Prepared(s: Signing, s': Signing) {
    s'.tx.Some? && s'.tx.value.status == DOCUMENT_READY && s'.sent == s.sent
    && (if s.tx.Some? then s'.tx.value == s.tx.value.(status := DOCUMENT_READY) else s'.tx.value.viewedAt.None?)
  }

  /** Preparing succeeds exactly for a loan that is found, with its mandate, unless signing is under way; a signed document stays. */
  lemma PreparesIff(requests: seq<Request>, r: Request)
    requires r.Prepare?
    ensures var s := Run(NOTHING, requests); var s' := Handle(s, r).state;
            && (Handle(s, r).refusal.None? <==>
                  r.loanFound && r.mandateCompleted
                  && !(s.tx.Some? && (s.tx.value.status.OTP_VERIFIED? || s.tx.value.status.SIGNING?)))
            && (if Handle(s, r).refusal.None? && !IsSigned(s) then Prepared(s, s') else s' == s)
  {
    RunKeepsInv(NOTHING, requests);
  }

  /** Viewing succeeds exactly for an existing row, or for a loan that can be prepared, and keeps the time of the first view. */
  lemma ViewsIff(requests: seq<Request>, r: Request)
    requires r.View?
    ensures var s := Run(NOTHING, requests); var s' := Handle(s, r).state;
            && (Handle(s, r).refusal.None? <==> s.tx.Some? || (r.loanFound && r.mandateCompleted))
            && (if Handle(s, r).refusal.None? && !IsSigned(s) then
                  && s'.tx.Some? && s'.sent == s.sent
                  && s'.tx.value.viewedAt == (if s.tx.Some? && s.tx.value.viewedAt.Some? then s.tx.value.viewedAt else Some(r.now))
                  && s'.tx.value.status == (if s.tx.None? || s.tx.value.status.CREATED? || s.tx.value.status.DOCUMENT_READY?
                                            then DOCUMENT_VIEWED else s.tx.value.status)
                else s' == s)
  {
    RunKeepsInv(NOTHING, requests);
  }
}
