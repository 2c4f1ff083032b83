/**
  The slots of the shared PDF renderer: at most a fixed number of renders are under way,
  and a released slot is handed straight to the first render in the queue.
 */
module PdfSlots {
  import opened Options

  type Id = nat

  const DEFAULT_MAX_CONCURRENT_PAGES: nat := 3
  const MAX_CONFIGURABLE_PAGES: nat := 20

  /** What reading the environment variable as a number can give. */
  datatype Configured = NotANumber | Fractional | Integral(value: int)

  /** The configured cap always lies between 1 and 20; a larger one is cut to 20, and anything but a whole number from 1 on gives 3. */
  function ConfiguredLimit(c: Configured): (limit: nat)
    ensures 1 <= limit <= MAX_CONFIGURABLE_PAGES
    ensures c.Integral? && 1 <= c.value <= MAX_CONFIGURABLE_PAGES ==> limit == c.value
    ensures c.Integral? && c.value > MAX_CONFIGURABLE_PAGES ==> limit == MAX_CONFIGURABLE_PAGES == 20
    ensures !c.Integral? || c.value < 1 ==> limit == 3
  {
    if c.Integral? && c.value >= 1
    then (if c.value <= MAX_CONFIGURABLE_PAGES then c.value else MAX_CONFIGURABLE_PAGES)
    else DEFAULT_MAX_CONCURRENT_PAGES
  }

  /** `holders` are the renders that own a slot; `waiting` is the queue, first to be served first. */
  datatype Slots = Slots(cap: nat, active: int, waiting: seq<Id>, holders: set<Id>)

  datatype Step = Acquire(id: Id) | Release(id: Id)

  predicate Known(s: Slots, id: Id) { id in s.holders || id in s.waiting }

  function Take(s: Slots, id: Id): Slots {
    if s.active < s.cap then s.(active := s.active + 1, holders := s.holders + {id})
    else s.(waiting := s.waiting + [id])
  }

  function Give(s: Slots, id: Id): Slots {
    if s.waiting != [] then s.(waiting := s.waiting[1..], holders := s.holders - {id} + {s.waiting[0]})
    else s.(active := s.active - 1, holders := s.holders - {id})
  }

  /** Each render acquires once, and releases once, when it ends, normally or by an exception. */
  function Apply(s: Slots, step: Step): Slots {
    match step
    case Acquire(id) => if Known(s, id) then s else Take(s, id)
    case Release(id) => if id in s.holders then Give(s, id) else s
  }

  function Run(s: Slots, steps: seq<Step>): Slots {
    if steps == [] then s else Apply(Run(s, steps[..|steps| - 1]), steps[|steps| - 1])
  }

  class PdfRenderer {
    const maxConcurrentPages: nat
    var active: int
    var waiting: seq<Id>
    ghost var holders: set<Id>

    ghost function Contents(): Slots
      reads this
    {
      Slots(maxConcurrentPages, active, waiting, holders)
    }

    constructor (limit: nat)
      ensures Contents() == Slots(limit, 0, [], {})
    {
      maxConcurrentPages := limit;
      active, waiting, holders := 0, [], {};
    }

    /** Whether the render may start at once; otherwise it is queued. */
    method AcquireSlot(id: Id) returns (granted: bool)
      requires !Known(Contents(), id)
      modifies this
      ensures Contents() == Apply(old(Contents()), Acquire(id))
      ensures granted <==> id in holders
    {
      if active < maxConcurrentPages {
        active := active + 1;
        holders := holders + {id};
        return true;
      }
      waiting := waiting + [id];
      return false;
    }

    /** The render that is handed the slot, if one is waiting. */
    method ReleaseSlot(ghost id: Id) returns (next: Option<Id>)
      requires id in holders
      modifies this
      ensures Contents() == Apply(old(Contents()), Release(id))
      ensures next == if old(waiting) != [] then Some(old(waiting)[0]) else None
    {
      holders := holders - {id};
      if waiting != [] {
        next := Some(waiting[0]);
        holders := holders + {waiting[0]};
        waiting := waiting[1..];
      } else {
        next := None;
        active := active - 1;
      }
    }
  }

  // ----- Conservation

  ghost predicate Distinct(s: seq<Id>) { forall m, n :: 0 <= m < n < |s| ==> s[m] != s[n] }

  /** Slots are conserved, and renders wait only while all slots are taken. */
  ghost predicate Inv(s: Slots) {
    && s.active == |s.holders| && s.active <= s.cap
    && Distinct(s.waiting) && (forall id :: id in s.waiting ==> id !in s.holders)
    && (s.waiting != [] ==> s.active == s.cap)
  }

  lemma StepKeepsInv(s: Slots, step: Step)
    requires Inv(s)
    ensures Inv(Apply(s, step))
  {
  }

  lemma {:induction false} RunKeepsInv(s: Slots, steps: seq<Step>)
    requires Inv(s)
    ensures Inv(Run(s, steps))
    ensures Run(s, steps).cap == s.cap
    decreases |steps|
  {
    if steps != [] {
      RunKeepsInv(s, steps[..|steps| - 1]);
      StepKeepsInv(Run(s, steps[..|steps| - 1]), steps[|steps| - 1]);
    }
  }

  /** In every run the counter equals the number of slot holders and stays within the cap. */
  lemma SlotsAreConserved(cap: nat, steps: seq<Step>)
    ensures var s := Run(Slots(cap, 0, [], {}), steps);
            && s.active == |s.holders| <= cap
            && (s.waiting != [] ==> s.active == cap)
            && (forall id :: id in s.waiting ==> id !in s.holders)
  {
    RunKeepsInv(Slots(cap, 0, [], {}), steps);
  }

  // ----- Order of service

  /** How many releases a run really carries out. */
  function Releases(s: Slots, steps: seq<Step>): nat {
    if steps == [] then 0
    else
      var front, last := steps[..|steps| - 1], steps[|steps| - 1];
      Releases(s, front) + if last.Release? && last.id in Run(s, front).holders then 1 else 0
  }

  /**
    The render waiting at position k moves up one position with each release, whatever else
    happens, so nobody overtakes it.
   */
  lemma {:induction false} QueueMovesUp(s: Slots, steps: seq<Step>, k: nat)
    requires Inv(s) && k < |s.waiting| && Releases(s, steps) <= k
    ensures k - Releases(s, steps) < |Run(s, steps).waiting|
    ensures Run(s, steps).waiting[k - Releases(s, steps)] == s.waiting[k]
    decreases |steps|
  {
    if steps != [] {
      QueueMovesUp(s, steps[..|steps| - 1], k);
    }
  }

  /** The k+1st release hands its slot to the render that waited at position k. */
  lemma ServedAfterExactlyKPlusOneReleases(s: Slots, steps: seq<Step>, last: Id, k: nat)
    requires Inv(s) && k < |s.waiting| && Releases(s, steps) == k && last in Run(s, steps).holders
    ensures s.waiting[k] !in Run(s, steps).holders
    ensures s.waiting[k] in Apply(Run(s, steps), Release(last)).holders
    ensures s.waiting[k] !in Apply(Run(s, steps), Release(last)).waiting
  {
    QueueMovesUp(s, steps, k);
    RunKeepsInv(s, steps);
    var w := Run(s, steps).waiting;
    assert w[0] in w;
    assert forall n :: 0 <= n < |w[1..]| ==> w[1..][n] == w[n + 1];
  }

  /** A newcomer gets a slot at once only when nobody is waiting. */
  lemma NoOvertaking(s: Slots, id: Id)
    requires Inv(s) && !Known(s, id) && id in Apply(s, Acquire(id)).holders
    ensures s.waiting == []
  {
  }

  // ----- Termination of all renders

  ghost predicate OnlyReleases(s: Slots, steps: seq<Step>) {
    forall k :: 0 <= k < |steps| ==> steps[k].Release? && steps[k].id in Run(s, steps[..k]).holders
  }

  lemma ReleaseDropsOutstanding(s: Slots, id: Id)
    requires Inv(s) && id in s.holders
    ensures var s' := Apply(s, Release(id)); |s'.holders| + |s'.waiting| == |s.holders| + |s.waiting| - 1
  {
  }

  lemma {:induction false} OutstandingAfterReleases(s: Slots, steps: seq<Step>)
    requires Inv(s) && OnlyReleases(s, steps)
    ensures |Run(s, steps).holders| + |Run(s, steps).waiting| == |s.holders| + |s.waiting| - |steps|
    decreases |steps|
  {
    if steps != [] {
      var front, last := steps[..|steps| - 1], steps[|steps| - 1];
      assert steps[|steps| - 1].Release?;
      forall k | 0 <= k < |front| ensures front[k].Release? && front[k].id in Run(s, front[..k]).holders {
        assert front[..k] == steps[..k] && front[k] == steps[k];
      }
      OutstandingAfterReleases(s, front);
      RunKeepsInv(s, front);
      ReleaseDropsOutstanding(Run(s, front), last.id);
    }
  }

  /** With a positive cap the renderer is idle exactly when no render is left: no slot leaks and no waiter is stranded. */
  lemma IdleIffAllFinished(s: Slots, steps: seq<Step>)
    requires Inv(s) && s.cap >= 1 && OnlyReleases(s, steps)
    ensures Run(s, steps).active == 0 <==> |steps| == |s.holders| + |s.waiting|
  {
    OutstandingAfterReleases(s, steps);
    RunKeepsInv(s, steps);
  }

  /** A new render is never turned away: it takes a free slot, or the last place in the queue. */
  lemma AcquireOutcome(s: Slots, id: Id)
    requires id !in s.holders && id !in s.waiting
    ensures Apply(s, Acquire(id)) ==
            if s.active < s.cap then s.(active := s.active + 1, holders := s.holders + {id})
            else s.(waiting := s.waiting + [id])
  {
  }

  /** A render that ends passes its slot to the first in the queue, or frees it. */
  lemma ReleaseOutcome(s: Slots, id: Id)
    requires id in s.holders
    ensures Apply(s, Release(id)) ==
            if s.waiting == [] then s.(active := s.active - 1, holders := s.holders - {id})
            else s.(waiting := s.waiting[1..], holders := s.holders - {id} + {s.waiting[0]})
  {
  }
}
