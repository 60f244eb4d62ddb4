/**
 * The FIFO mutex. A ticket stands for one call of `acquire`; the release closure it
 * eventually receives is identified by the same ticket and acts only once.
 */
module AsyncMutex {
  type Ticket = nat

  /** `granted` lists the tickets in the order they got the mutex, `released` those whose closure has acted. */
  datatype Mutex = Mutex(locked: bool, queue: seq<Ticket>, granted: seq<Ticket>, released: set<Ticket>, arrivals: nat)

  const FREE := Mutex(false, [], [], {}, 0)

  /** The new caller's ticket is `m.arrivals`. */
  function Acquire(m: Mutex): Mutex {
    if m.locked then m.(queue := m.queue + [m.arrivals], arrivals := m.arrivals + 1)
    else m.(locked := true, granted := m.granted + [m.arrivals], arrivals := m.arrivals + 1)
  }

  /** Calling the closure of ticket `t`; closures that were not handed out do not exist yet. */
  function Release(m: Mutex, t: Ticket): Mutex {
    if t !in m.granted || t in m.released then m
    else if m.queue == [] then m.(released := m.released + {t}, locked := false)
    else m.(released := m.released + {t}, queue := m.queue[1..], granted := m.granted + [m.queue[0]])
  }

  predicate Holds(m: Mutex, t: Ticket) { t in m.granted && t !in m.released }

  datatype Call = AcquireCall | ReleaseCall(ticket: Ticket)

  function AfterCall(m: Mutex, c: Call): Mutex {
    match c case AcquireCall => Acquire(m) case ReleaseCall(t) => Release(m, t)
  }

  function RunCalls(m: Mutex, calls: seq<Call>): Mutex
    decreases |calls|
  {
    if calls == [] then m else RunCalls(AfterCall(m, calls[0]), calls[1..])
  }

  function UpTo(n: nat): (s: seq<nat>)
    ensures |s| == n && forall i | 0 <= i < n :: s[i] == i
  {
    seq(n, i requires 0 <= i < n => i)
  }

  ghost predicate Sound(m: Mutex) {
    && m.granted + m.queue == UpTo(m.arrivals)
    && (m.locked ==> m.granted != [] && m.granted[|m.granted| - 1] !in m.released)
    && (m.queue != [] ==> m.locked)
    && (forall i | 0 <= i < |m.granted| :: m.granted[i] in m.released || (m.locked && i == |m.granted| - 1))
    && (forall t | t in m.released :: t in m.granted)
  }

  /** Tickets are dealt in order: what has been granted lies below what still waits, and both below the next. */
  lemma TicketsInOrder(m: Mutex, t: Ticket)
    requires Sound(m)
    ensures t in m.granted ==> t < |m.granted| <= m.arrivals
    ensures m.queue != [] && t == m.queue[0] ==> t == |m.granted|
  {
    if t in m.granted {
      var i :| 0 <= i < |m.granted| && m.granted[i] == t;
      assert (m.granted + m.queue)[i] == t;
    }
    if m.queue != [] { assert (m.granted + m.queue)[|m.granted|] == m.queue[0]; }
  }

  lemma UnlockedIsReleased(m: Mutex, t: Ticket)
    requires Sound(m) && !m.locked && t < m.arrivals
    ensures t in m.released
  {
    assert (m.granted + m.queue)[t] == t;
    assert m.granted[t] == t;
  }

  lemma AcquireSound(m: Mutex)
    requires Sound(m)
    ensures Sound(Acquire(m))
    ensures forall t: nat | t < m.arrivals :: Holds(Acquire(m), t) <==> Holds(m, t)
    ensures Holds(Acquire(m), m.arrivals) <==> !m.locked
  {
    var a := Acquire(m);
    if m.locked {
      assert a.granted + a.queue == m.granted + m.queue + [m.arrivals];
    }
    assert a.granted + a.queue == UpTo(m.arrivals) + [m.arrivals] == UpTo(m.arrivals + 1);
    forall t | t in m.granted ensures t < m.arrivals {
      var i :| 0 <= i < |m.granted| && m.granted[i] == t;
      assert (m.granted + m.queue)[i] == t;
    }
  }

  lemma ReleaseSound(m: Mutex, t: Ticket)
    requires Sound(m)
    ensures Sound(Release(m, t))
    ensures Holds(m, t) ==> forall u: nat :: Holds(Release(m, t), u) <==> m.queue != [] && u == m.queue[0]
  {
    if Holds(m, t) {
      var r := Release(m, t);
      var last := |m.granted| - 1;
      assert t == m.granted[last];
      if m.queue != [] {
        assert m.queue == [m.queue[0]] + m.queue[1..];
        assert r.granted + r.queue == m.granted + m.queue;
        assert (m.granted + m.queue)[|m.granted|] == m.queue[0];
      }
      forall i | 0 <= i <= last ensures m.granted[i] == (m.granted + m.queue)[i] {}
    }
  }

  lemma {:induction false} RunSound(m: Mutex, calls: seq<Call>)
    requires Sound(m)
    ensures Sound(RunCalls(m, calls))
    decreases |calls|
  {
    if calls != [] {
      match calls[0] { case AcquireCall => AcquireSound(m); case ReleaseCall(t) => ReleaseSound(m, t); }
      RunSound(AfterCall(m, calls[0]), calls[1..]);
    }
  }

  /** Over every sequence of acquires and (possibly repeated) releases, at most one grant is unreleased. */
  lemma AtMostOneHolder(calls: seq<Call>, t: Ticket, u: Ticket)
    requires Holds(RunCalls(FREE, calls), t) && Holds(RunCalls(FREE, calls), u)
    ensures t == u && RunCalls(FREE, calls).locked
  {
    RunSound(FREE, calls);
  }

  /** Callers are granted in arrival order, nobody is dropped or overtaken, and nobody waits at an open mutex. */
  lemma GrantedInArrivalOrder(calls: seq<Call>)
    ensures var m := RunCalls(FREE, calls);
      m.granted + m.queue == UpTo(m.arrivals) && (m.queue != [] ==> m.locked)
      && (m.locked <==> exists t :: Holds(m, t))
  {
    RunSound(FREE, calls);
    var m := RunCalls(FREE, calls);
    if m.locked { assert Holds(m, m.granted[|m.granted| - 1]); }
  }

  /** A closure called a second time changes nothing, however the mutex has moved on since. */
  lemma ReleaseIsOneShot(m: Mutex, t: Ticket, calls: seq<Call>)
    requires t in m.released
    ensures Release(RunCalls(m, calls), t) == RunCalls(m, calls)
  {
    ReleasedForGood(m, t, calls);
  }

  lemma {:induction false} ReleasedForGood(m: Mutex, t: Ticket, calls: seq<Call>)
    requires t in m.released
    ensures t in RunCalls(m, calls).released
    decreases |calls|
  {
    if calls != [] { ReleasedForGood(AfterCall(m, calls[0]), t, calls[1..]); }
  }

  /** The holder, then everyone waiting at this moment, releases in turn. */
  function Drain(m: Mutex): Mutex
    decreases |m.queue|
  {
    if m.queue == [] || m.granted == [] then m
    else
      var r := Release(m, m.granted[|m.granted| - 1]);
      if |r.queue| < |m.queue| then Drain(r) else m
  }

  /** If every holder eventually releases, everyone waiting now gets the mutex, in order. */
  lemma {:induction false} EveryWaiterIsServed(m: Mutex)
    requires Sound(m)
    ensures Drain(m).granted == m.granted + m.queue && Drain(m).queue == []
    decreases |m.queue|
  {
    if m.queue != [] {
      var r := Release(m, m.granted[|m.granted| - 1]);
      ReleaseSound(m, m.granted[|m.granted| - 1]);
      EveryWaiterIsServed(r);
      assert m.granted + m.queue == m.granted + [m.queue[0]] + m.queue[1..];
    }
  }

  class AsyncMutex {
    var queue: seq<Ticket>
    var locked: bool
    /** One `released` flag per closure handed out. */
    var flags: map<Ticket, bool>
    var calls: nat
    ghost var granted: seq<Ticket>

    ghost function View(): Mutex
      reads this
    {
      Mutex(locked, queue, granted, (set t | t in flags && flags[t]), calls)
    }

    ghost predicate Valid()
      reads this
    {
      Sound(View()) && forall t :: t in granted <==> t in flags
    }

    constructor ()
      ensures Valid() && View() == FREE
    {
      queue, locked, flags, calls, granted := [], false, map[], 0, [];
    }

    /** The ticket, and whether its closure is already available. */
    method AcquireOnce() returns (t: Ticket, now: bool)
      requires Valid()
      modifies this
      ensures Valid() && t == old(calls) && View() == Acquire(old(View()))
      ensures now <==> Holds(View(), t)
    {
      AcquireSound(View());
      assert calls !in flags by { TicketsInOrder(View(), calls); }
      t := calls;
      calls := calls + 1;
      now := !locked;
      if !locked {
        locked := true;
        flags := flags[t := false];
        granted := granted + [t];
      } else {
        queue := queue + [t];
      }
      assert now <==> t in flags;
    }

    method CallRelease(t: Ticket)
      requires Valid()
      modifies this
      ensures Valid() && View() == Release(old(View()), t)
    {
      if t !in flags { return; }
      if flags[t] { return; }
      ReleaseSound(View(), t);
      if |queue| > 0 { TicketsInOrder(View(), queue[0]); }
      flags := flags[t := true];
      if |queue| > 0 {
        var next := queue[0];
        queue := queue[1..];
        flags := flags[next := false];
        granted := granted + [next];
      } else {
        locked := false;
      }
    }
  }
}
