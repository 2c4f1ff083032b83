/**
  The adaptive poller as an event-driven machine: timers, visibility changes, settling
  tasks and the stop function arrive in any order. Times are in milliseconds.
 */
module AdaptivePoller {
  import opened Options

  type Id = nat

  function PollDelayFor(elapsed: int): (d: int)
    ensures d == 3000 || d == 5000 || d == 10000
    ensures (d == 3000 <==> elapsed < 15000) && (d == 10000 <==> elapsed >= 90000)
  {
    if elapsed < 15000 then 3000 else if elapsed < 90000 then 5000 else 10000
  }

  /** A timer callback that has fired: waiting for its own task, or about to schedule the next timer. */
  datatype Callback = AwaitingTask | Resuming

  /** One start of the task, and the timer callback it belongs to, if any. */
  datatype Poll = Poll(at: int, byTimer: bool)

  /**
    `armed` maps each pending timer to the time before which it does not fire; `tasks` maps
    each running task to the callback waiting for it. `polls` and `delays` record task
    starts and chosen delays, in order.
   */
  datatype Poller = Poller(
    startedAt: int, now: int, hidden: bool, stopped: bool, inFlight: bool, timer: Id,
    armed: map<Id, int>, callbacks: map<Id, Callback>, tasks: map<Id, Option<Id>>,
    polls: seq<Poll>, delays: seq<int>)

  datatype Event =
    | Elapse(time: nat)
    | Fire(timer: Id)
    | Settle(task: Id)
    | Resume(timer: Id)
    | Visibility(hidden: bool)
    | Stop

  /** Schedules the next poll under a fresh timer number, unless stopped. */
  function Tick(p: Poller): Poller {
    if p.stopped then p
    else
      var delay := PollDelayFor(p.now - p.startedAt);
      p.(timer := p.timer + 1, armed := p.armed[p.timer + 1 := p.now + delay], delays := p.delays + [delay])
  }

  predicate CanRun(p: Poller) { !p.stopped && !p.inFlight && !p.hidden }

  /** Starts the task; its number is the number of tasks started before it. */
  function StartTask(p: Poller, owner: Option<Id>): Poller {
    p.(inFlight := true, tasks := p.tasks[|p.polls| := owner], polls := p.polls + [Poll(p.now, owner.Some?)])
  }

  function Happen(p: Poller, e: Event): Poller {
    match e
    case Elapse(time) => p.(now := p.now + time)
    case Fire(timer) =>
      if timer !in p.armed || p.now < p.armed[timer] then p
      else
        var q := p.(armed := p.armed - {timer});
        if CanRun(p) then StartTask(q.(callbacks := q.callbacks[timer := AwaitingTask]), Some(timer))
        else q.(callbacks := q.callbacks[timer := Resuming])
    case Settle(task) =>
      if task !in p.tasks then p
      else
        var owner := p.tasks[task];
        p.(inFlight := false, tasks := p.tasks - {task},
           callbacks := if owner.Some? && owner.value in p.callbacks then p.callbacks[owner.value := Resuming] else p.callbacks)
    case Resume(timer) =>
      if timer !in p.callbacks || !p.callbacks[timer].Resuming? then p
      else Tick(p.(callbacks := p.callbacks - {timer}))
    case Visibility(hidden) =>
      var q := p.(hidden := hidden);
      if CanRun(q) then StartTask(q, None) else q
    case Stop => p.(stopped := true, armed := p.armed - {p.timer})
  }

  function Run(p: Poller, events: seq<Event>): Poller {
    if events == [] then p else Happen(Run(p, events[..|events| - 1]), events[|events| - 1])
  }

  function Start(now: int, hidden: bool): Poller {
    Tick(Poller(now, now, hidden, false, false, 0, map[], map[], map[], [], []))
  }

  /** The variables of one polling session and the handlers that change them. */
  class Polling {
    const startedAt: int
    var now: int
    var hidden: bool
    var stopped: bool
    var inFlight: bool
    var timer: Id
    var armed: map<Id, int>
    var callbacks: map<Id, Callback>
    var tasks: map<Id, Option<Id>>
    ghost var polls: seq<Poll>
    ghost var delays: seq<int>
    var started: nat

    ghost function Contents(): Poller
      reads this
    {
      Poller(startedAt, now, hidden, stopped, inFlight, timer, armed, callbacks, tasks, polls, delays)
    }

    ghost predicate Valid()
      reads this
    {
      started == |polls|
    }

    constructor (at: int, isHidden: bool)
      ensures Valid() && Contents() == Start(at, isHidden)
    {
      startedAt, now, hidden, stopped, inFlight, timer := at, at, isHidden, false, false, 0;
      armed, callbacks, tasks, polls, delays, started := map[], map[], map[], [], [], 0;
      new;
      ScheduleNext();
    }

    method ScheduleNext()
      requires Valid()
      modifies this`timer, this`armed, this`delays
      ensures Valid() && Contents() == Tick(old(Contents()))
    {
      if stopped { return; }
      var delay := PollDelayFor(now - startedAt);
      timer := timer + 1;
      armed := armed[timer := now + delay];
      delays := delays + [delay];
    }

    /** Whether a task was started. */
    method RunTask(owner: Option<Id>) returns (ran: bool)
      requires Valid()
      modifies this`inFlight, this`tasks, this`polls, this`started
      ensures Valid() && ran == CanRun(old(Contents()))
      ensures Contents() == if ran then StartTask(old(Contents()), owner) else old(Contents())
    {
      if stopped || inFlight || hidden { return false; }
      inFlight := true;
      tasks := tasks[started := owner];
      polls := polls + [Poll(now, owner.Some?)];
      started := started + 1;
      return true;
    }

    method OnTimer(t: Id)
      requires Valid() && t in armed && armed[t] <= now
      modifies this
      ensures Valid() && Contents() == Happen(old(Contents()), Fire(t))
    {
      armed := armed - {t};
      var ran := RunTask(Some(t));
      callbacks := callbacks[t := if ran then AwaitingTask else Resuming];
    }

    method OnSettled(task: Id)
      requires Valid() && task in tasks
      modifies this`inFlight, this`tasks, this`callbacks
      ensures Valid() && Contents() == Happen(old(Contents()), Settle(task))
    {
      var owner := tasks[task];
      inFlight := false;
      tasks := tasks - {task};
      if owner.Some? && owner.value in callbacks {
        callbacks := callbacks[owner.value := Resuming];
      }
    }

    method OnResumed(t: Id)
      requires Valid() && t in callbacks && callbacks[t].Resuming?
      modifies this`callbacks, this`timer, this`armed, this`delays
      ensures Valid() && Contents() == Happen(old(Contents()), Resume(t))
    {
      callbacks := callbacks - {t};
      ScheduleNext();
    }

    method OnVisibilityChange(isHidden: bool)
      requires Valid()
      modifies this
      ensures Valid() && Contents() == Happen(old(Contents()), Visibility(isHidden))
    {
      hidden := isHidden;
      if !hidden {
        var ran := RunTask(None);
      }
    }

    method StopPolling()
      requires Valid()
      modifies this`stopped, this`armed
      ensures Valid() && Contents() == Happen(old(Contents()), Stop)
    {
      stopped := true;
      armed := armed - {timer};
    }
  }

  // ----- Invariant

  /** One line of polling: the newest timer is armed, or its callback is alive, or polling has been stopped. */
  ghost predicate OneLine(p: Poller) {
    && (forall t :: t in p.armed ==> t == p.timer)
    && (forall t :: t in p.callbacks ==> t == p.timer)
    && !(p.timer in p.armed && p.timer in p.callbacks)
    && (p.timer in p.armed || p.timer in p.callbacks || p.stopped)
    && (p.stopped ==> p.timer !in p.armed)
  }

  /** At most one task runs, and a callback waits exactly for a running task of its own. */
  ghost predicate OneTask(p: Poller) {
    && (p.inFlight <==> p.tasks != map[])
    && (forall t, u :: t in p.tasks && u in p.tasks ==> t == u)
    && (forall t :: t in p.tasks ==>
          && t < |p.polls|
          && (p.tasks[t].Some? ==> p.tasks[t].value == p.timer && p.timer in p.callbacks && p.callbacks[p.timer].AwaitingTask?))
    && (p.timer in p.callbacks && p.callbacks[p.timer].AwaitingTask? ==> exists t :: t in p.tasks && p.tasks[t] == Some(p.timer))
  }

  const MIN_DELAY: int := 3000

  /** Timer-driven polls are at least MIN_DELAY apart, and so is the last one from any armed timer. */
  ghost predicate Spaced(p: Poller) {
    && (forall k :: 0 <= k < |p.polls| ==> p.polls[k].at <= p.now)
    && (forall k, l :: 0 <= k < l < |p.polls| && p.polls[k].byTimer && p.polls[l].byTimer
                       ==> p.polls[k].at + MIN_DELAY <= p.polls[l].at)
    && (forall t, k :: t in p.armed && 0 <= k < |p.polls| && p.polls[k].byTimer ==> p.polls[k].at + MIN_DELAY <= p.armed[t])
  }

  ghost predicate DelaysGrow(p: Poller) {
    && p.startedAt <= p.now
    && (forall k, l :: 0 <= k < l < |p.delays| ==> p.delays[k] <= p.delays[l])
    && (forall k :: 0 <= k < |p.delays| ==> MIN_DELAY <= p.delays[k] <= PollDelayFor(p.now - p.startedAt))
  }

  ghost predicate Inv(p: Poller) { OneLine(p) && OneTask(p) && Spaced(p) && DelaysGrow(p) }

  lemma FireKeeps(p: Poller, t: Id)
    requires Inv(p)
    ensures Inv(Happen(p, Fire(t)))
  {
    if t in p.armed && p.armed[t] <= p.now {
      var p' := Happen(p, Fire(t));
      if CanRun(p) {
        assert p'.tasks[|p.polls|] == Some(p.timer);
        assert p'.tasks.Keys == {|p.polls|};
      }
    }
  }

  lemma SettleKeeps(p: Poller, task: Id)
    requires Inv(p)
    ensures Inv(Happen(p, Settle(task)))
  {
  }

  lemma ResumeKeeps(p: Poller, t: Id)
    requires Inv(p)
    ensures Inv(Happen(p, Resume(t)))
  {
  }

  lemma VisibilityKeeps(p: Poller, hidden: bool)
    requires Inv(p)
    ensures Inv(Happen(p, Visibility(hidden)))
  {
    var p' := Happen(p, Visibility(hidden));
    if p'.inFlight != p.inFlight {
      assert p'.tasks.Keys == {|p.polls|};
      assert |p.polls| in p'.tasks;
    }
  }

  lemma EventKeepsInv(p: Poller, e: Event)
    requires Inv(p)
    ensures Inv(Happen(p, e))
  {
    match e
    case Fire(t) => FireKeeps(p, t);
    case Settle(task) => SettleKeeps(p, task);
    case Resume(t) => ResumeKeeps(p, t);
    case Visibility(hidden) => VisibilityKeeps(p, hidden);
    case Elapse(_) =>
    case Stop =>
  }

  lemma {:induction false} RunKeepsInv(p: Poller, events: seq<Event>)
    requires Inv(p)
    ensures Inv(Run(p, events))
    decreases |events|
  {
    if events != [] {
      RunKeepsInv(p, events[..|events| - 1]);
      EventKeepsInv(Run(p, events[..|events| - 1]), events[|events| - 1]);
    }
  }

  // ----- Guarantees for every order of events

  lemma AtMostOneElement<V>(m: map<Id, V>, x: Id)
    requires forall t :: t in m ==> t == x
    ensures |m| == if x in m then 1 else 0
  {
    assert m.Keys == if x in m then {x} else {};
  }

  lemma AtMostOneTask(m: map<Id, Option<Id>>)
    requires forall t, u :: t in m && u in m ==> t == u
    ensures |m| <= 1 && (|m| == 1 <==> m != map[])
  {
    if m != map[] {
      var x :| x in m;
      assert m.Keys == {x};
    }
  }

  /** At most one task is in flight, and at most one timer or timer callback is alive; one is, until the stop. */
  lemma PollsNeverOverlap(now: int, hidden: bool, events: seq<Event>)
    ensures var p := Run(Start(now, hidden), events);
            && |p.tasks| == (if p.inFlight then 1 else 0)
            && |p.armed| + |p.callbacks| <= 1
            && (!p.stopped ==> |p.armed| + |p.callbacks| == 1)
  {
    RunKeepsInv(Start(now, hidden), events);
    var p := Run(Start(now, hidden), events);
    AtMostOneElement(p.armed, p.timer);
    AtMostOneElement(p.callbacks, p.timer);
    AtMostOneTask(p.tasks);
  }

  /** Timer-driven polls are at least three seconds apart and the delays never shrink. */
  lemma PollsAreSpaced(now: int, hidden: bool, events: seq<Event>)
    ensures var p := Run(Start(now, hidden), events);
            && (forall k, l :: 0 <= k < l < |p.polls| && p.polls[k].byTimer && p.polls[l].byTimer
                               ==> p.polls[k].at + 3000 <= p.polls[l].at)
            && (forall k, l :: 0 <= k < l < |p.delays| ==> p.delays[k] <= p.delays[l])
  {
    RunKeepsInv(Start(now, hidden), events);
  }

  /** After the stop no task starts and no timer is set. */
  lemma {:induction false} NothingStartsAfterStop(p: Poller, events: seq<Event>)
    requires Inv(p) && p.stopped
    ensures Run(p, events).stopped && Run(p, events).polls == p.polls && Run(p, events).delays == p.delays
    ensures Run(p, events).armed == map[]
    decreases |events|
  {
    if events == [] {
      assert p.armed == map[];
    } else {
      var front := events[..|events| - 1];
      NothingStartsAfterStop(p, front);
      RunKeepsInv(p, front);
      StaysStopped(Run(p, front), events[|events| - 1]);
    }
  }

  lemma StaysStopped(p: Poller, e: Event)
    requires p.stopped && p.armed == map[]
    ensures var p' := Happen(p, e); p'.stopped && p'.polls == p.polls && p'.delays == p.delays && p'.armed == map[]
  {
  }

  /** While the tab is hidden no event starts a task, except the tab becoming visible. */
  lemma HiddenTabDoesNotPoll(p: Poller, e: Event)
    requires p.hidden && e != Visibility(false)
    ensures Happen(p, e).hidden && Happen(p, e).polls == p.polls
  {
  }

  /** A tab that becomes visible refreshes at once, unless a task is running or polling has stopped. */
  lemma VisibleTabRefreshesAtOnce(p: Poller)
    ensures Happen(p, Visibility(false)).polls ==
            if p.stopped || p.inFlight then p.polls else p.polls + [Poll(p.now, false)]
  {
  }

  /**
    While the tab stays hidden nothing starts a task, in any run; when it becomes visible one
    task starts at once, unless one is still running or polling has stopped.
   */
  lemma {:induction false} HiddenTabIsQuietUntilVisible(p: Poller, events: seq<Event>)
    requires p.hidden && Visibility(false) !in events
    ensures var q := Run(p, events);
            && q.hidden && q.polls == p.polls
            && Happen(q, Visibility(false)).polls ==
               if q.stopped || q.inFlight then p.polls else p.polls + [Poll(q.now, false)]
    decreases |events|
  {
    if events != [] {
      var front, e := events[..|events| - 1], events[|events| - 1];
      HiddenTabIsQuietUntilVisible(p, front);
      assert e in events;
      HiddenTabDoesNotPoll(Run(p, front), e);
    }
    VisibleTabRefreshesAtOnce(Run(p, events));
  }

  // ----- What each event does

  /** A due timer polls: one task starts for it if the tab is visible, nothing runs and polling goes on, and none otherwise. */
  lemma FireOutcome(now: int, hidden: bool, events: seq<Event>, t: Id)
    requires var p := Run(Start(now, hidden), events); t in p.armed && p.armed[t] <= p.now
    ensures var p := Run(Start(now, hidden), events); var p' := Happen(p, Fire(t));
            && !p.stopped && p'.armed == map[]
            && (if !p.hidden && p.tasks == map[] then
                  && p'.polls == p.polls + [Poll(p.now, true)] && p'.inFlight
                  && p'.tasks == map[|p.polls| := Some(t)] && p'.callbacks == map[t := AwaitingTask]
                else p'.polls == p.polls && p'.tasks == p.tasks && p'.callbacks == map[t := Resuming])
  {
    RunKeepsInv(Start(now, hidden), events);
    var p := Run(Start(now, hidden), events);
    FiredMaps(p, t);
  }

  lemma FiredMaps(p: Poller, t: Id)
    requires Inv(p) && t in p.armed && p.armed[t] <= p.now
    ensures var p' := Happen(p, Fire(t));
            && p'.armed == map[] && p.callbacks == map[] && (p.inFlight <==> p.tasks != map[]) && !p.stopped
  {
    assert p.callbacks.Keys == {};
    assert Happen(p, Fire(t)).armed.Keys == {};
  }

  /** An early or unknown timer does nothing. */
  lemma EarlyTimerDoesNothing(p: Poller, t: Id)
    requires t !in p.armed || p.now < p.armed[t]
    ensures Happen(p, Fire(t)) == p
  {
  }

  /** The next timer, under a new number and for the delay that belongs to the time since the start; after the stop none. */
  ghost predicate Resumed(p: Poller, p': Poller, elapsed: int) {
    var delay := if elapsed < 15000 then 3000 else if elapsed < 90000 then 5000 else 10000;
    && p'.callbacks == map[] && p'.polls == p.polls && p'.tasks == p.tasks
    && (if p.stopped then p'.armed == map[] && p'.delays == p.delays
        else p'.armed == map[p.timer + 1 := p.now + delay] && p'.delays == p.delays + [delay])
  }

  lemma ResumeAnswer(p: Poller, t: Id)
    requires Inv(p) && t in p.callbacks && p.callbacks[t].Resuming?
    ensures Resumed(p, Happen(p, Resume(t)), p.now - p.startedAt)
  {
    ResumedMaps(p, t);
  }

  /** A callback that resumes arms the next timer. */
  lemma ResumeOutcome(now: int, hidden: bool, events: seq<Event>, t: Id)
    requires var p := Run(Start(now, hidden), events); t in p.callbacks && p.callbacks[t].Resuming?
    ensures var p := Run(Start(now, hidden), events); Resumed(p, Happen(p, Resume(t)), p.now - now)
  {
    RunKeepsInv(Start(now, hidden), events);
    RunKeepsStart(Start(now, hidden), events);
    ResumeAnswer(Run(Start(now, hidden), events), t);
  }

  lemma ResumedMaps(p: Poller, t: Id)
    requires Inv(p) && t in p.callbacks && p.callbacks[t].Resuming?
    ensures p.armed == map[] && Happen(p, Resume(t)).callbacks == map[]
  {
    assert p.armed.Keys == {} && Happen(p, Resume(t)).callbacks.Keys == {};
  }

  /** Time moves by elapsing alone, and the start stays. */
  lemma EventKeepsStart(p: Poller, e: Event)
    ensures Happen(p, e).startedAt == p.startedAt
    ensures Happen(p, e).now == p.now + match e case Elapse(time) => time case _ => 0
  {
  }

  lemma {:induction false} RunKeepsStart(p: Poller, events: seq<Event>)
    ensures Run(p, events).startedAt == p.startedAt
    decreases |events|
  {
    if events != [] {
      RunKeepsStart(p, events[..|events| - 1]);
      EventKeepsStart(Run(p, events[..|events| - 1]), events[|events| - 1]);
    }
  }

  /** A task that settles frees the slot, and the callback that waited for it resumes. */
  lemma SettleOutcome(now: int, hidden: bool, events: seq<Event>, task: Id)
    requires task in Run(Start(now, hidden), events).tasks
    ensures var p := Run(Start(now, hidden), events); var p' := Happen(p, Settle(task));
            && !p'.inFlight && p'.tasks == map[] && p'.polls == p.polls && p'.armed == p.armed
            && p'.callbacks == if p.tasks[task].Some? then map[p.tasks[task].value := Resuming] else p.callbacks
  {
    RunKeepsInv(Start(now, hidden), events);
    var p := Run(Start(now, hidden), events);
    var p' := Happen(p, Settle(task));
    assert p'.tasks.Keys == {};
    if p.tasks[task].Some? { assert p'.callbacks.Keys == {p.timer}; }
  }

  /** Polling starts with one timer of three seconds, and stopping it disarms whatever timer there is. */
  lemma StartAndStop(now: int, hidden: bool, events: seq<Event>)
    ensures Start(now, hidden).armed == map[1 := now + 3000] && Start(now, hidden).polls == []
    ensures var p := Run(Start(now, hidden), events); var p' := Happen(p, Stop);
            p'.stopped && p'.armed == map[] && p'.polls == p.polls && p'.tasks == p.tasks && p'.callbacks == p.callbacks
  {
    RunKeepsInv(Start(now, hidden), events);
    var p := Run(Start(now, hidden), events);
    assert Happen(p, Stop).armed.Keys == {};
  }

  // ----- Every delay is accounted for

  function TimerPolls(polls: seq<Poll>): nat {
    if polls == [] then 0 else TimerPolls(polls[..|polls| - 1]) + if polls[|polls| - 1].byTimer then 1 else 0
  }

  /** A due timer that found the tab hidden or a task running. */
  predicate Skips(p: Poller, e: Event) {
    e.Fire? && e.timer in p.armed && p.armed[e.timer] <= p.now && (p.hidden || p.tasks != map[])
  }

  function Skipped(p: Poller, events: seq<Event>): nat {
    if events == [] then 0
    else Skipped(p, events[..|events| - 1]) + if Skips(Run(p, events[..|events| - 1]), events[|events| - 1]) then 1 else 0
  }

  /** One delay for the start, and one for each timer that fired, by polling or by skipping, and has resumed. */
  ghost predicate Accounted(p: Poller, skipped: nat) {
    if p.stopped then |p.delays| + |p.callbacks| <= 1 + TimerPolls(p.polls) + skipped
    else |p.delays| + |p.callbacks| == 1 + TimerPolls(p.polls) + skipped
  }

  lemma OneMorePoll(polls: seq<Poll>, x: Poll)
    ensures TimerPolls(polls + [x]) == TimerPolls(polls) + if x.byTimer then 1 else 0
  {
    assert (polls + [x])[..|polls|] == polls;
  }

  /** A timer that fires leaves one callback and either one more poll or one more skip. */
  lemma FireCounts(p: Poller, t: Id)
    requires Inv(p) && t in p.armed && p.armed[t] <= p.now
    ensures var p' := Happen(p, Fire(t));
            && |p.callbacks| == 0 && |p'.callbacks| == 1 && p'.delays == p.delays && p'.stopped == p.stopped
            && TimerPolls(p'.polls) + (if Skips(p, Fire(t)) then 1 else 0) == TimerPolls(p.polls) + 1
  {
    var p' := Happen(p, Fire(t));
    FiredMaps(p, t);
    assert p'.callbacks.Keys == {t};
    AtMostOneElement(p'.callbacks, t);
    OneMorePoll(p.polls, Poll(p.now, true));
  }

  lemma FireAccounted(p: Poller, t: Id, skipped: nat)
    requires Inv(p) && Accounted(p, skipped)
    ensures Accounted(Happen(p, Fire(t)), skipped + if Skips(p, Fire(t)) then 1 else 0)
  {
    if t in p.armed && p.armed[t] <= p.now {
      FireCounts(p, t);
    } else {
      EarlyTimerDoesNothing(p, t);
    }
  }

  lemma SettleAccounted(p: Poller, task: Id, skipped: nat)
    requires Inv(p) && Accounted(p, skipped)
    ensures Accounted(Happen(p, Settle(task)), skipped)
  {
    assert Happen(p, Settle(task)).callbacks.Keys == p.callbacks.Keys;
    AtMostOneElement(p.callbacks, p.timer);
    AtMostOneElement(Happen(p, Settle(task)).callbacks, p.timer);
  }

  lemma ResumeAccounted(p: Poller, t: Id, skipped: nat)
    requires Inv(p) && Accounted(p, skipped)
    ensures Accounted(Happen(p, Resume(t)), skipped)
  {
    if t in p.callbacks && p.callbacks[t].Resuming? {
      AtMostOneElement(p.callbacks, p.timer);
      assert Happen(p, Resume(t)).callbacks.Keys == {};
    }
  }

  lemma VisibilityAccounted(p: Poller, hidden: bool, skipped: nat)
    requires Accounted(p, skipped)
    ensures Accounted(Happen(p, Visibility(hidden)), skipped)
  {
    OneMorePoll(p.polls, Poll(p.now, false));
  }

  lemma EventAccounted(p: Poller, e: Event, skipped: nat)
    requires Inv(p) && Accounted(p, skipped)
    ensures Accounted(Happen(p, e), skipped + if Skips(p, e) then 1 else 0)
  {
    match e
    case Fire(t) => FireAccounted(p, t, skipped);
    case Settle(task) => SettleAccounted(p, task, skipped);
    case Resume(t) => ResumeAccounted(p, t, skipped);
    case Visibility(hidden) => VisibilityAccounted(p, hidden, skipped);
    case Elapse(_) =>
    case Stop =>
  }

  /**
    Over every run, until the stop: the delays are one for the start and one for every timer
    that polled, or fired and found the tab hidden or a task running, except the one whose
    callback is still alive. So a timer that fires always polls unless it has such a reason.
   */
  lemma {:induction false} DelaysFollowPolls(now: int, hidden: bool, events: seq<Event>)
    ensures var p := Run(Start(now, hidden), events);
            Accounted(p, Skipped(Start(now, hidden), events))
    decreases |events|
  {
    var s := Start(now, hidden);
    if events != [] {
      DelaysFollowPolls(now, hidden, events[..|events| - 1]);
      RunKeepsInv(s, events[..|events| - 1]);
      EventAccounted(Run(s, events[..|events| - 1]), events[|events| - 1], Skipped(s, events[..|events| - 1]));
    }
  }
}
