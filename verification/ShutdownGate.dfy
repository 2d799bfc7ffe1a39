/** The gate that tool invocations pass and the drain that a shutdown waits for. */
module ShutdownGate {
  import opened Prelude

  /** A task in wait_for_idle: asleep in the condition's queue, notified and about to take the lock
      again, done because nothing was active, or given up after its timeout. */
  datatype Waiter = Sleeping | Woken | Idle | TimedOut

  datatype Gate = Gate(accepting: bool, inside: set<Id>, waiters: map<Id, Waiter>)

  function NotifyAll(waiters: map<Id, Waiter>): map<Id, Waiter> {
    map w | w in waiters :: if waiters[w] == Sleeping then Woken else waiters[w]
  }

  /** One hold of the condition's lock, or one expiry of a timeout. */
  datatype Event =
    | Enter(call: Id)
    | Leave(call: Id)
    | BeginShutdown
    | Wait(waiter: Id)
    | Resume(waiter: Id)
    | Expire(waiter: Id)

  /** Calls and waiters are new when they first appear; only a call inside leaves; only a notified
      waiter takes the lock again; a timeout ends a wait that has not ended. */
  predicate Enabled(g: Gate, e: Event) {
    match e
    case Enter(c) => c !in g.inside
    case Leave(c) => c in g.inside
    case BeginShutdown => true
    case Wait(w) => w !in g.waiters
    case Resume(w) => w in g.waiters && g.waiters[w] == Woken
    case Expire(w) => w in g.waiters && g.waiters[w] in {Sleeping, Woken}
  }

  function Woken'(g: Gate): Gate {
    if g.inside == {} then g.(waiters := NotifyAll(g.waiters)) else g
  }

  /** The check of wait_for: return if nothing is active, else go to sleep. */
  function Checked(g: Gate, w: Id): Gate {
    g.(waiters := g.waiters[w := if g.inside == {} then Idle else Sleeping])
  }

  function Next(g: Gate, e: Event): Gate {
    match e
    case Enter(c) => if g.accepting then g.(inside := g.inside + {c}) else g
    case Leave(c) => Woken'(g.(inside := g.inside - {c}))
    case BeginShutdown => Woken'(g.(accepting := false))
    case Wait(w) => Checked(g, w)
    case Resume(w) => Checked(g, w)
    case Expire(w) => g.(waiters := g.waiters[w := TimedOut])
  }

  // ---------------------------------------------------------------- the coordinator

  class InvocationCoordinator {
    var accepting: bool
    var active: nat
    var waiters: map<Id, Waiter>
    ghost var inside: set<Id>

    ghost predicate Valid()
      reads this
    {
      active == |inside|
    }

    ghost function View(): Gate
      reads this
    {
      Gate(accepting, inside, waiters)
    }

    constructor ()
      ensures Valid() && View() == Gate(true, {}, map[])
    {
      accepting, active, waiters, inside := true, 0, map[], {};
    }

    method NotifyAllWaiters()
      modifies this`waiters
      ensures waiters == NotifyAll(old(waiters))
    {
      var todo := waiters.Keys;
      while todo != {}
        invariant todo <= waiters.Keys == old(waiters).Keys
        invariant forall w | w in todo :: waiters[w] == old(waiters)[w]
        invariant forall w | w in waiters && w !in todo :: waiters[w] == NotifyAll(old(waiters))[w]
        decreases |todo|
      {
        var w :| w in todo;
        if waiters[w] == Sleeping { waiters := waiters[w := Woken]; }
        todo := todo - {w};
      }
      assert waiters == NotifyAll(old(waiters));
    }

    /** Enters an invocation; a call that finds the gate closed is refused and never leaves. */
    method EnterInvocation(ghost call: Id) returns (admitted: bool)
      requires Valid() && Enabled(View(), Enter(call))
      modifies this`active, this`inside
      ensures Valid() && View() == Next(old(View()), Enter(call))
      ensures admitted == accepting
    {
      if !accepting { return false; }
      active := active + 1;
      inside := inside + {call};
      return true;
    }

    method LeaveInvocation(ghost call: Id)
      requires Valid() && Enabled(View(), Leave(call))
      modifies this`active, this`inside, this`waiters
      ensures Valid() && View() == Next(old(View()), Leave(call))
    {
      assert |inside - {call}| == |inside| - 1;
      active := active - 1;
      inside := inside - {call};
      if active == 0 { NotifyAllWaiters(); }
    }

    method Shutdown()
      requires Valid()
      modifies this`accepting, this`waiters
      ensures Valid() && View() == Next(old(View()), BeginShutdown)
    {
      accepting := false;
      if active == 0 { NotifyAllWaiters(); }
    }

    /** The first or a repeated check of a waiter, under the lock. */
    method CheckIdle(w: Id) returns (idle: bool)
      requires Valid() && (Enabled(View(), Wait(w)) || Enabled(View(), Resume(w)))
      modifies this`waiters
      ensures Valid() && idle == (inside == {})
      ensures View() == Next(old(View()), if w in old(waiters) then Resume(w) else Wait(w))
    {
      idle := active == 0;
      waiters := waiters[w := if idle then Idle else Sleeping];
    }

    method ExpireWait(w: Id)
      requires Valid() && Enabled(View(), Expire(w))
      modifies this`waiters
      ensures Valid() && View() == Next(old(View()), Expire(w))
    {
      waiters := waiters[w := TimedOut];
    }
  }

  // ---------------------------------------------------------------- every run

  ghost predicate Run(g: Gate, events: seq<Event>)
    decreases events
  {
    events == [] || (Enabled(g, events[0]) && Run(Next(g, events[0]), events[1..]))
  }

  function After(g: Gate, events: seq<Event>): Gate
    decreases events
  {
    if events == [] then g else After(Next(g, events[0]), events[1..])
  }

  /** Nobody sleeps through an idle moment. */
  ghost predicate NoLostWakeup(g: Gate) {
    g.inside == {} ==> forall w | w in g.waiters :: g.waiters[w] != Sleeping
  }

  lemma {:induction false} NoWakeupIsLost(g: Gate, events: seq<Event>)
    requires NoLostWakeup(g) && Run(g, events)
    ensures NoLostWakeup(After(g, events))
    decreases events
  {
    if events != [] { NoWakeupIsLost(Next(g, events[0]), events[1..]); }
  }

  ghost predicate Drained(g: Gate) {
    !g.accepting && g.inside == {}
  }

  /** Once a shutdown has begun and nothing is active, nothing is ever active again. */
  lemma {:induction false} DrainedForever(g: Gate, events: seq<Event>)
    requires Drained(g) && Run(g, events)
    ensures Drained(After(g, events))
    decreases events
  {
    if events != [] { DrainedForever(Next(g, events[0]), events[1..]); }
  }

  lemma {:induction false} AfterPlus(g: Gate, x: seq<Event>, y: seq<Event>)
    requires Run(g, x + y)
    ensures Run(g, x) && Run(After(g, x), y) && After(g, x + y) == After(After(g, x), y)
    decreases x
  {
    if x == [] {
      assert x + y == y;
    } else {
      assert (x + y)[1..] == x[1..] + y;
      AfterPlus(Next(g, x[0]), x[1..], y);
    }
  }

  /** A drain that reports idle after the shutdown began stays idle, whatever runs later. */
  lemma IdleReportIsFinal(g: Gate, before: seq<Event>, e: Event, w: Id, later: seq<Event>)
    requires e == Wait(w) || e == Resume(w)
    requires Run(g, before + ([e] + later)) && !After(g, before).accepting
    requires Next(After(g, before), e).waiters[w] == Idle
    ensures Drained(After(g, before + ([e] + later)))
  {
    AfterPlus(g, before, [e] + later);
    assert ([e] + later)[1..] == later;
    DrainedForever(Next(After(g, before), e), later);
  }

  /** While nothing is active every unfinished waiter is about to take the lock, and finds it idle. */
  lemma WaitersFinish(g: Gate, events: seq<Event>, w: Id)
    requires Run(Gate(true, {}, map[]), events) && g == After(Gate(true, {}, map[]), events)
    requires g.inside == {} && w in g.waiters && g.waiters[w] in {Sleeping, Woken}
    ensures Enabled(g, Resume(w)) && Next(g, Resume(w)).waiters[w] == Idle
  {
    NoWakeupIsLost(Gate(true, {}, map[]), events);
  }
}
