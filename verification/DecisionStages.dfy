/**
  The two stages of the lender decision over whole runs: which event can still be answered
  at which stage, and when a pending final decision leaves the application stuck.
 */
module DecisionStages {
  import opened Options
  import opened LenderCase
  import opened LenderProtocol
  import LenderDecisions

  const FIRST: Key := Key(DECISION, 1)
  const FINAL: Key := Key(DECISION, 2)

  ghost predicate FinalStage(c: Case) { c.link.Some? && LenderDecisions.IsFinal(c.link.value) }

  ghost predicate Open(events: map<Key, Event>, key: Key) { key in events && !events[key].status.COMPLETED? }

  ghost predicate OneOpen(events: map<Key, Event>) { forall k, l :: Open(events, k) && Open(events, l) ==> k == l }

  ghost predicate AllClosed(events: map<Key, Event>) { forall key :: key in events ==> Closed(events, key) }

  // ----- Invariant

  /** The first stage was answered with an approval, even if the lender has rejected since. */
  ghost predicate Waits(c: Case) { c.application.status.LENDER_PRE_APPROVED? || c.application.HasOffer() }

  /** Which decision events exist, against the version of the link. */
  ghost predicate KeysOk(c: Case) {
    && (c.events != map[] || 1 <= Rank(c.application.status) <= 4 || Waits(c) ==> FIRST in c.events && c.link.Some?)
    && (FINAL in c.events <==> FinalStage(c))
    && (forall key :: key in c.events && key.stage.DECISION? ==> 1 <= key.version <= 2)
    && (c.link.Some? ==> 1 <= c.link.value.decisionVersion <= 2)
  }

  /** At most one event is open, none while an answered first stage waits for the second, and the first decision is closed by then. */
  ghost predicate FlowOk(c: Case) {
    && KeysOk(c) && OneOpen(c.events)
    && (Waits(c) && !FinalStage(c) ==> AllClosed(c.events))
    && (FinalStage(c) ==> Closed(c.events, FIRST))
  }

  lemma SameEventsFlow(c: Case, c': Case)
    requires FlowOk(c) && c'.events == c.events
    requires 1 <= Rank(c'.application.status) <= 4 ==> 1 <= Rank(c.application.status) <= 4
    requires Waits(c') ==> Waits(c)
    requires c.link.Some? ==> c'.link.Some? && c'.link.value.decisionVersion == c.link.value.decisionVersion
    requires c.link.None? && c'.link.Some? ==> c'.link.value.decisionVersion == 1
    ensures FlowOk(c')
  {
  }

  lemma OpenEventFlow(c: Case, key: Key, e: Event)
    requires FlowOk(c) && Open(c.events, key) && !e.status.COMPLETED?
    ensures FlowOk(c.(events := c.events[key := e]))
  {
    var events := c.events[key := e];
    forall k, l | Open(events, k) && Open(events, l) ensures k == l {
      assert Open(c.events, k) && Open(c.events, l);
    }
    assert Closed(c.events, FIRST) ==> Closed(events, FIRST);
  }

  lemma RequestFlow(w: World, version: int)
    requires FlowOk(w.file) && StageOk(w.file)
    ensures FlowOk(AskDecision(w, version).file)
  {
    var c, c' := w.file, AskDecision(w, version).file;
    if AskDecision(w, version) != w && c'.events != c.events {
      NewDecisionFlow(c, c', version);
    }
  }

  /** A decision is only requested anew when no event is open. */
  lemma NewDecisionFlow(c: Case, c': Case, version: int)
    requires FlowOk(c) && StageOk(c) && c.link.Some? && c'.link.Some?
    requires 1 <= version <= 2 && (version == 2 ==> c.application.HasOffer()) && Key(DECISION, version) !in c.events
    requires c' == c.(events := c.events[Key(DECISION, version) := Event(OperationStatus.PENDING, None)], link := c'.link)
    requires c'.link.value.decisionVersion == if c.link.value.decisionVersion <= version then version else c.link.value.decisionVersion
    ensures FlowOk(c')
  {
    if version == 1 {
      assert c.events == map[];
    } else {
      assert AllClosed(c.events);
    }
    forall k, l | Open(c'.events, k) && Open(c'.events, l) ensures k == l {
      assert k != Key(DECISION, version) ==> k in c.events && Closed(c.events, k);
      assert l != Key(DECISION, version) ==> l in c.events && Closed(c.events, l);
    }
    assert version == 2 ==> Closed(c.events, FIRST);
  }

  /** What a successful decision does to the link, and when it leaves no poll behind. */
  lemma DecisionKeepsLink(c: Case, key: Key, lockToken: nat, partner: string, r: LenderDecisions.DecisionResult, canPoll: bool, now: int)
    requires LenderDecisions.Process(c, key, lockToken, partner, r, canPoll, now).Done?
    ensures var c' := LenderDecisions.Process(c, key, lockToken, partner, r, canPoll, now).result;
            && c.link.Some? && c'.link.Some? && c'.link.value.decisionVersion == c.link.value.decisionVersion
            && (!FinalStage(c) && !Waits(c) && Waits(c') ==>
                  c'.events == LenderDecisions.CompleteIn(c.events, key))
  {
  }

  lemma ClosedFlow(events: map<Key, Event>, key: Key, queued: map<Key, Event>, poll: Key)
    requires OneOpen(events) && Open(events, key)
    requires queued == events || queued == LenderDecisions.Upsert(events, poll)
    ensures OneOpen(LenderDecisions.CompleteIn(queued, key))
    ensures queued == events ==> AllClosed(LenderDecisions.CompleteIn(queued, key))
    ensures forall k :: Closed(events, k) ==> Closed(LenderDecisions.CompleteIn(queued, key), k)
  {
    var events' := LenderDecisions.CompleteIn(queued, key);
    forall k | k in events' && k != poll ensures Closed(events', k) {
      assert k != key && Open(events, k) ==> k == key;
    }
    forall k | Closed(events, k) ensures Closed(events', k) {}
    if queued == events && poll in events' {
      assert poll != key && Open(events, poll) ==> poll == key;
      assert Closed(events', poll);
    }
  }

  lemma ProcessFlow(w: World, a: Action)
    requires FlowOk(w.file) && a.Process?
    ensures FlowOk(Next(w, a).file)
  {
    var c, o := w.file, LenderDecisions.Process(w.file, a.key, a.lockToken, a.partnerApplicationId, a.result, a.canPollStatus, a.now);
    if o.Done? {
      var poll := Key(STATUS, LenderDecisions.NextStatusVersion(a.key));
      var queued := DecisionEvents(c, a.key, a.lockToken, a.partnerApplicationId, a.result, a.canPollStatus, a.now);
      DecisionKeepsLink(c, a.key, a.lockToken, a.partnerApplicationId, a.result, a.canPollStatus, a.now);
      ClosedFlow(c.events, a.key, queued, poll);
      DecidedFlow(c, a.key, queued, poll, o.result);
    }
  }

  lemma DecidedFlow(c: Case, key: Key, queued: map<Key, Event>, poll: Key, c': Case)
    requires FlowOk(c) && Open(c.events, key) && poll.stage.STATUS?
    requires queued == c.events || queued == LenderDecisions.Upsert(c.events, poll)
    requires c'.events == LenderDecisions.CompleteIn(queued, key) && OneOpen(c'.events)
    requires queued == c.events ==> AllClosed(c'.events)
    requires forall k :: Closed(c.events, k) ==> Closed(c'.events, k)
    requires c.link.Some? && c'.link.Some? && c'.link.value.decisionVersion == c.link.value.decisionVersion
    requires !FinalStage(c) && !Waits(c) && Waits(c') ==>
               c'.events == LenderDecisions.CompleteIn(c.events, key)
    ensures FlowOk(c')
  {
    if !Waits(c) && Waits(c') && !FinalStage(c') {
      ClosedFlow(c.events, key, c.events, poll);
    }
  }

  lemma WorkerStepFlow(w: World, a: Action)
    requires FlowOk(w.file) && (a.ClaimEvent? || a.RecoverLease? || a.FailEvent? || a.Replay?)
    ensures FlowOk(Next(w, a).file)
  {
    var c, c' := w.file, Next(w, a).file;
    if c' != c {
      assert Open(c.events, a.key);
      OpenEventFlow(c, a.key, c'.events[a.key]);
    }
  }

  lemma ReviewStepFlow(w: World, a: Action)
    requires FlowOk(w.file) && (a.Approve? || a.Reject? || a.LenderNotice?)
    ensures FlowOk(Next(w, a).file)
  {
    SameEventsFlow(w.file, Next(w, a).file);
  }

  lemma OtherStepFlow(w: World, a: Action)
    requires FlowOk(w.file) && (a.SelectOffer? || a.Onboard? || a.OpenLink? || a.LinkProgress?)
    ensures FlowOk(Next(w, a).file)
  {
    SameEventsFlow(w.file, Next(w, a).file);
  }

  lemma ActionKeepsFlow(w: World, a: Action)
    requires FlowOk(w.file) && StageOk(w.file)
    ensures FlowOk(Next(w, a).file)
  {
    match a
    case Process(_, _, _, _, _, _) => ProcessFlow(w, a);
    case RequestDecision(version) => RequestFlow(w, version);
    case ClaimEvent(_, _) => WorkerStepFlow(w, a);
    case RecoverLease(_) => WorkerStepFlow(w, a);
    case FailEvent(_, _, _) => WorkerStepFlow(w, a);
    case Replay(_) => WorkerStepFlow(w, a);
    case Approve(_) => ReviewStepFlow(w, a);
    case Reject(_, _) => ReviewStepFlow(w, a);
    case LenderNotice(_, _, _, _) => ReviewStepFlow(w, a);
    case _ => OtherStepFlow(w, a);
  }

  lemma {:induction false} RunKeepsFlow(w: World, actions: seq<Action>)
    requires FlowOk(w.file) && Inv(w)
    ensures FlowOk(Run(w, actions).file)
    decreases |actions|
  {
    if actions != [] {
      RunKeepsFlow(w, actions[..|actions| - 1]);
      RunKeepsInv(w, actions[..|actions| - 1]);
      ActionKeepsFlow(Run(w, actions[..|actions| - 1]), actions[|actions| - 1]);
    }
  }

  lemma ReachableFlow(w: World)
    requires Reachable(w)
    ensures FlowOk(w.file) && StageOk(w.file)
  {
    var w0, actions :| Initial(w0) && w == Run(w0, actions);
    assert Reachable(w0) by { assert w0 == Run(w0, []); }
    ReachableInv(w0);
    ReachableInv(w);
    RunKeepsFlow(w0, actions);
  }

  // ----- No result is taken for the wrong stage

  /** The open event of a decision call is that of the stage the link is in; at most one event is open at all. */
  lemma StageMatchesEvent(w: World)
    requires Reachable(w)
    ensures OneOpen(w.file.events)
    ensures forall key :: Open(w.file.events, key) && key.stage.DECISION? ==>
              w.file.link.Some? && key.version == w.file.link.value.decisionVersion
    ensures FinalStage(w.file) ==> Closed(w.file.events, FIRST)
  {
    ReachableFlow(w);
    forall key | Open(w.file.events, key) && key.stage.DECISION?
      ensures w.file.link.Some? && key.version == w.file.link.value.decisionVersion
    {
      assert key == FIRST || key == FINAL;
    }
  }

  lemma ClosedStays(w: World, a: Action, key: Key)
    requires Closed(w.file.events, key)
    ensures Closed(Next(w, a).file.events, key)
  {
  }

  lemma EventStays(w: World, a: Action, key: Key)
    requires key in w.file.events
    ensures key in Next(w, a).file.events
  {
  }

  /** The link only turns to the final stage when a chosen offer waits and every event is closed. */
  lemma TurnsFinalWhenClosed(w: World, a: Action)
    requires FlowOk(w.file) && StageOk(w.file) && !FinalStage(w.file) && FinalStage(Next(w, a).file)
    ensures AllClosed(w.file.events)
  {
    assert a == RequestDecision(2) by {
      if a.Process? {
        var o := LenderDecisions.Process(w.file, a.key, a.lockToken, a.partnerApplicationId, a.result, a.canPollStatus, a.now);
        if o.Done? { DecisionKeepsLink(w.file, a.key, a.lockToken, a.partnerApplicationId, a.result, a.canPollStatus, a.now); }
      }
    }
  }

  /**
    Every event of the first stage, decision call or status poll, is completed by the time
    the link is at the final stage, in every run; so no result of the first stage can be
    applied at the final one, although the stage is read from the link alone.
   */
  lemma {:induction false} FirstStageResultsNeverLate(w: World, actions: seq<Action>, key: Key)
    requires Reachable(w) && !FinalStage(w.file) && key in w.file.events
    ensures key in Run(w, actions).file.events
    ensures FinalStage(Run(w, actions).file) ==> Closed(Run(w, actions).file.events, key)
    ensures FinalStage(Run(w, actions).file) ==>
              forall late: Action :: late.Process? && late.key == key ==> Next(Run(w, actions), late) == Run(w, actions)
    decreases |actions|
  {
    if actions != [] {
      var w1, a := Run(w, actions[..|actions| - 1]), actions[|actions| - 1];
      FirstStageResultsNeverLate(w, actions[..|actions| - 1], key);
      EventStays(w1, a, key);
      if FinalStage(w1.file) {
        ClosedStays(w1, a, key);
      } else if FinalStage(Next(w1, a).file) {
        RunReachable(w, actions[..|actions| - 1]);
        ReachableFlow(w1);
        TurnsFinalWhenClosed(w1, a);
        ClosedStays(w1, a, key);
      }
    }
    if Closed(Run(w, actions).file.events, key) {
      forall late: Action | late.Process? && late.key == key ensures Next(Run(w, actions), late) == Run(w, actions) {
        ClosedNotApplied(Run(w, actions), late);
      }
    }
  }

  lemma ClosedNotApplied(w: World, late: Action)
    requires late.Process? && Closed(w.file.events, late.key)
    ensures Next(w, late) == w
  {
  }

  // ----- A pending final decision that queues no poll

  /** Neither in review nor approved: pre-approved, or ended by the lender's notice. */
  predicate Unreviewed(c: Case) { c.application.status.LENDER_PRE_APPROVED? || c.application.status.LENDER_REJECTED? }

  /** A chosen offer whose final decision is open with no event left that could bring its answer. */
  ghost predicate Stuck(c: Case) {
    && Unreviewed(c) && c.application.HasOffer()
    && FinalStage(c) && FIRST in c.events && FINAL in c.events && AllClosed(c.events)
  }

  lemma StuckStays(w: World, a: Action)
    requires Stuck(w.file)
    ensures Stuck(Next(w, a).file)
    ensures Next(w, a).file.events == w.file.events && Next(w, a).applied == w.applied
    ensures !a.LenderNotice? ==> Next(w, a).file == w.file.(link := Next(w, a).file.link)
  {
    if a.Process? && a.key in w.file.events {
      assert Closed(w.file.events, a.key);
    } else if (a.ClaimEvent? || a.RecoverLease? || a.FailEvent? || a.Replay?) && a.key in w.file.events {
      assert Closed(w.file.events, a.key);
    }
  }

  /**
    A stuck application is never reviewed, approved or polled again, whatever happens; without
    a rejection notice from the lender only the link's progress marks still move.
   */
  lemma {:induction false} StuckForever(w: World, actions: seq<Action>)
    requires Stuck(w.file)
    ensures Stuck(Run(w, actions).file)
    ensures Run(w, actions).file.events == w.file.events && Run(w, actions).applied == w.applied
    ensures (forall a :: a in actions ==> !a.LenderNotice?) ==> Run(w, actions).file == w.file.(link := Run(w, actions).file.link)
    decreases |actions|
  {
    if actions != [] {
      StuckForever(w, actions[..|actions| - 1]);
      StuckStays(Run(w, actions[..|actions| - 1]), actions[|actions| - 1]);
    }
  }

  /** Whether a pending result of this event queues a new status poll. */
  ghost predicate QueuesPoll(c: Case, key: Key, canPoll: bool) {
    var version := if key.stage.STATUS? then key.version + 1 else 1;
    canPoll && version <= 5 && Key(STATUS, version) !in c.events
  }

  ghost predicate NeverReviewed(w: World) {
    forall actions: seq<Action> :: Unreviewed(Run(w, actions).file)
  }

  /** The rows after a pending final result. */
  lemma PendingFinalEffect(w: World, a: Action)
    requires FinalStage(w.file) && w.file.application.status.LENDER_PRE_APPROVED?
    requires a.Process? && a.result.decision == LenderCase.Decision.PENDING && Next(w, a) != w
    ensures var c, c' := w.file, Next(w, a).file;
            && Open(c.events, a.key) && c'.application.status.LENDER_PRE_APPROVED?
            && c'.application.selectedAmount == c.application.selectedAmount && c'.application.selectedTenure == c.application.selectedTenure
            && FinalStage(c') && c'.link.value.decisionVersion == c.link.value.decisionVersion
            && c'.link.value.partnerApplicationId == c.link.value.partnerApplicationId == Some(a.partnerApplicationId)
            && c'.events == LenderDecisions.CompleteIn(
                 if QueuesPoll(c, a.key, a.canPollStatus)
                 then c.events[Key(STATUS, LenderDecisions.NextStatusVersion(a.key)) := Event(OperationStatus.PENDING, None)]
                 else c.events, a.key)
            && Next(w, a).tokens == w.tokens
  {
  }

  lemma {:induction false} FreshToken(tokens: set<nat>) returns (t: nat)
    ensures forall u :: u in tokens ==> u < t
    decreases |tokens|
  {
    if tokens == {} {
      t := 0;
    } else {
      var u :| u in tokens;
      var above := FreshToken(tokens - {u});
      t := if above <= u then u + 1 else above;
      forall v | v in tokens ensures v < t {
        assert v == u || v in tokens - {u};
      }
    }
  }

  const APPROVAL: LenderDecisions.DecisionResult :=
    LenderDecisions.DecisionResult(APPROVED, "APPROVED", "REF", None, None, None, None, LenderDecisions.NotGiven)

  /** A queued poll that the lender answers with its approval brings the application to credit review. */
  lemma QueuedPollApproves(w: World, poll: Key, t: nat, partner: string)
    requires w.file.application.status.LENDER_PRE_APPROVED? && w.file.application.HasOffer() && FinalStage(w.file)
    requires w.file.link.value.partnerApplicationId == Some(partner)
    requires poll in w.file.events && Waiting(w.file.events[poll]) && t !in w.tokens
    ensures Next(Next(w, ClaimEvent(poll, t)), Process(poll, t, partner, APPROVAL, false, 0)).file.application.status.PENDING_CREDIT_REVIEW?
  {
    var w1 := Next(w, ClaimEvent(poll, t));
    assert w1.file == w.file.(events := w.file.events[poll := Event(OperationStatus.PROCESSING, Some(t))]);
    assert Holds(w1.file.events, poll, t);
  }

  lemma RunTwo(w: World, a: Action, b: Action)
    ensures Run(w, [a, b]) == Next(Next(w, a), b)
  {
    RunOne(w, a);
    assert [a, b][..1] == [a];
  }

  /** Every event is in one of the statuses the worker knows, and a lender that has answered is known by its reference. */
  ghost predicate Answerable(c: Case) {
    && (forall key :: key in c.events ==> KnownStatus(c.events[key]))
    && (1 <= Rank(c.application.status) <= 4 ==> c.link.Some? && c.link.value.partnerApplicationId.Some?)
  }

  predicate KnownStatus(e: Event) {
    Waiting(e) || e.status.PROCESSING? || e.status.FAILED? || e.status.COMPLETED?
  }

  lemma DecisionAnswerable(w: World, a: Action)
    requires Answerable(w.file) && a.Process?
    ensures Answerable(Next(w, a).file)
  {
    var c, o := w.file, LenderDecisions.Process(w.file, a.key, a.lockToken, a.partnerApplicationId, a.result, a.canPollStatus, a.now);
    if o.Done? {
      var queued := DecisionEvents(c, a.key, a.lockToken, a.partnerApplicationId, a.result, a.canPollStatus, a.now);
      DecisionKeepsReference(c, a.key, a.lockToken, a.partnerApplicationId, a.result, a.canPollStatus, a.now);
      assert forall key :: key in o.result.events && key in c.events && key != a.key ==> o.result.events[key] == c.events[key];
    }
  }

  lemma DecisionKeepsReference(c: Case, key: Key, lockToken: nat, partner: string, r: LenderDecisions.DecisionResult, canPoll: bool, now: int)
    requires LenderDecisions.Process(c, key, lockToken, partner, r, canPoll, now).Done?
    ensures var link := LenderDecisions.Process(c, key, lockToken, partner, r, canPoll, now).result.link;
            link.Some? && link.value.partnerApplicationId == Some(partner)
  {
  }

  lemma RequestAnswerable(w: World, version: int)
    requires Answerable(w.file)
    ensures Answerable(AskDecision(w, version).file)
  {
  }

  lemma WorkerAnswerable(w: World, a: Action)
    requires Answerable(w.file) && (a.ClaimEvent? || a.RecoverLease? || a.FailEvent? || a.Replay?)
    ensures Answerable(Next(w, a).file)
  {
  }

  lemma ReviewAnswerable(w: World, a: Action)
    requires Answerable(w.file) && (a.Approve? || a.Reject?)
    ensures Answerable(Next(w, a).file)
  {
  }

  lemma NoticeAnswerable(w: World, a: Action)
    requires Answerable(w.file) && a.LenderNotice?
    ensures Answerable(Next(w, a).file)
  {
  }

  lemma CustomerAnswerable(w: World, a: Action)
    requires Answerable(w.file) && (a.SelectOffer? || a.Onboard? || a.OpenLink? || a.LinkProgress?)
    ensures Answerable(Next(w, a).file)
  {
  }

  lemma ActionKeepsAnswerable(w: World, a: Action)
    requires Answerable(w.file)
    ensures Answerable(Next(w, a).file)
  {
    if a.Process? {
      DecisionAnswerable(w, a);
    } else if a.RequestDecision? {
      RequestAnswerable(w, a.version);
    } else if a.ClaimEvent? || a.RecoverLease? || a.FailEvent? || a.Replay? {
      WorkerAnswerable(w, a);
    } else if a.Approve? || a.Reject? {
      ReviewAnswerable(w, a);
    } else if a.LenderNotice? {
      NoticeAnswerable(w, a);
    } else {
      CustomerAnswerable(w, a);
    }
  }

  lemma {:induction false} RunAnswerable(w: World, actions: seq<Action>)
    requires Initial(w)
    ensures Answerable(Run(w, actions).file)
    decreases |actions|
  {
    if actions != [] {
      var front := actions[..|actions| - 1];
      RunAnswerable(w, front);
      ActionKeepsAnswerable(Run(w, front), actions[|actions| - 1]);
    }
  }

  lemma NeverAfterStep(w: World, a: Action)
    requires NeverReviewed(w)
    ensures NeverReviewed(Next(w, a))
  {
    forall actions: seq<Action> ensures Unreviewed(Run(Next(w, a), actions).file) {
      RunJoins(w, [a], actions);
      RunOne(w, a);
    }
  }

  /** Any open event of a chosen offer can still bring it to credit review: replayed, recovered, or just claimed. */
  lemma OpenEventMovesOn(w: World, key: Key)
    requires w.file.application.status.LENDER_PRE_APPROVED? && w.file.application.HasOffer() && FinalStage(w.file)
    requires w.file.link.value.partnerApplicationId.Some?
    requires Open(w.file.events, key) && KnownStatus(w.file.events[key])
    ensures !NeverReviewed(w)
  {
    var a := if w.file.events[key].status.PROCESSING? then RecoverLease(key) else Replay(key);
    if Waiting(w.file.events[key]) {
      PolledMovesOn(w, key, w.file.link.value.partnerApplicationId.value);
    } else {
      var w1 := Next(w, a);
      assert w1.file == w.file.(events := w1.file.events) && key in w1.file.events && Waiting(w1.file.events[key]);
      PolledMovesOn(w1, key, w.file.link.value.partnerApplicationId.value);
      if NeverReviewed(w) { NeverAfterStep(w, a); }
    }
  }

  /** A chosen offer at the final stage can no longer be reviewed or approved, whatever happens, exactly when no event is open. */
  lemma StuckIffNothingOpen(w: World)
    requires Reachable(w) && FinalStage(w.file) && w.file.application.status.LENDER_PRE_APPROVED?
    ensures NeverReviewed(w) <==> AllClosed(w.file.events)
  {
    ReachableFlow(w);
    if AllClosed(w.file.events) {
      forall actions: seq<Action> ensures Unreviewed(Run(w, actions).file) {
        StuckForever(w, actions);
      }
    } else {
      var w0, actions :| Initial(w0) && w == Run(w0, actions);
      RunAnswerable(w0, actions);
      var key :| key in w.file.events && !Closed(w.file.events, key);
      OpenEventMovesOn(w, key);
    }
  }

  /**
    After a pending final result the application can never be reviewed or approved, whatever
    happens afterwards, exactly when the result queued no status poll.
   */
  lemma PendingFinalIsStuckIffNoPoll(w: World, a: Action)
    requires Reachable(w) && FinalStage(w.file) && w.file.application.status.LENDER_PRE_APPROVED?
    requires a.Process? && a.result.decision == LenderCase.Decision.PENDING && Next(w, a) != w
    ensures NeverReviewed(Next(w, a)) <==> !QueuesPoll(w.file, a.key, a.canPollStatus)
  {
    var w' := Next(w, a);
    ReachableFlow(w);
    PendingFinalEffect(w, a);
    if QueuesPoll(w.file, a.key, a.canPollStatus) {
      PolledMovesOn(w', Key(STATUS, LenderDecisions.NextStatusVersion(a.key)), a.partnerApplicationId);
    } else {
      ClosedFlow(w.file.events, a.key, w.file.events, FINAL);
      assert Reachable(w') by {
        RunReachable(w, [a]);
        RunOne(w, a);
      }
      StuckIffNothingOpen(w');
    }
  }

  lemma PolledMovesOn(w: World, poll: Key, partner: string)
    requires w.file.application.status.LENDER_PRE_APPROVED? && w.file.application.HasOffer() && FinalStage(w.file)
    requires w.file.link.value.partnerApplicationId == Some(partner)
    requires poll in w.file.events && Waiting(w.file.events[poll])
    ensures !NeverReviewed(w)
  {
    var t := FreshToken(w.tokens);
    QueuedPollApproves(w, poll, t, partner);
    RunTwo(w, ClaimEvent(poll, t), Process(poll, t, partner, APPROVAL, false, 0));
  }
}
