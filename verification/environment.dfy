/**
  The outstanding asynchronous work the reconnecting client leaves behind:
  connect futures in flight, scheduled backoff timers and registered
  disconnect callbacks. All of it is read off the effect log, and a callback
  can only be delivered for work that is outstanding.
 */
module Environment {
  import opened Effects
  import opened Reconnecting
  import opened Runs

  datatype Pending = Pending(connects: nat, timers: nat, listeners: set<nat>)

  const Nothing: Pending := Pending(0, 0, {})

  /** How many pieces of work could still call back into the client. */
  function Live(p: Pending): nat
  {
    p.connects + p.timers + |p.listeners|
  }

  /** Which callbacks the outstanding work can deliver. Shutdown is the user's and always possible. */
  predicate Enabled(p: Pending, e: Event)
  {
    match e
    case ConnectSucceeded(_) => p.connects > 0
    case ConnectFailed => p.connects > 0
    case Disconnected(id, _) => id in p.listeners
    case TimerFired(_) => p.timers > 0
    case ShutdownRequested => true
  }

  /** Delivering a callback uses up the work that delivered it (each fires once). */
  function Consume(p: Pending, e: Event): (q: Pending)
    requires Enabled(p, e)
    ensures Live(q) == Live(p) - (if e.ShutdownRequested? then 0 else 1)
  {
    match e
    case ConnectSucceeded(_) => p.(connects := p.connects - 1)
    case ConnectFailed => p.(connects := p.connects - 1)
    case Disconnected(id, _) => p.(listeners := p.listeners - {id})
    case TimerFired(_) => p.(timers := p.timers - 1)
    case ShutdownRequested => p
  }

  /** The work a stretch of effects leaves outstanding on top of `p`. */
  function Open(p: Pending, added: seq<Effect>): Pending
  {
    Pending(p.connects + InFlight(added), p.timers + |Delays(added)|,
            p.listeners + Ids(Listened(added)))
  }

  function Ids(xs: seq<nat>): set<nat>
  {
    set x | x in xs
  }

  datatype System = System(client: State, pending: Pending)

  function Boot(backoff: Backoff, start: ConnectStart): System
  {
    var s := Create(backoff, start);
    System(s, Open(Nothing, s.log))
  }

  function SysStep(c: System, e: Event, backoff: Backoff): System
    requires Enabled(c.pending, e)
  {
    var r := Step(c.client, e, backoff);
    System(r, Open(Consume(c.pending, e), New(c.client, r)))
  }

  /** Every callback of `es` is enabled when it is delivered. */
  predicate EnabledRun(c: System, es: seq<Event>, backoff: Backoff)
    decreases |es|
  {
    es == [] || (Enabled(c.pending, es[0]) && EnabledRun(SysStep(c, es[0], backoff), es[1..], backoff))
  }

  function SysRun(c: System, es: seq<Event>, backoff: Backoff): (r: System)
    requires EnabledRun(c, es, backoff)
    ensures r.client == Run(c.client, es, backoff)
    decreases |es|
  {
    if es == [] then c else SysRun(SysStep(c, es[0], backoff), es[1..], backoff)
  }

  /** A single reconnect cycle: while the client wants to stay connected exactly
      one connect, timer or disconnect callback is outstanding; after shutdown
      at most one, so it can never fork into two concurrent reconnect loops. */
  ghost predicate OneCycle(c: System)
  {
    && (c.client.stayConnected ==> Live(c.pending) == 1)
    && (!c.client.stayConnected ==> Live(c.pending) <= 1)
  }

  lemma BootOneCycle(backoff: Backoff, start: ConnectStart)
    ensures OneCycle(Boot(backoff, start))
  {
    var s := Create(backoff, start);
    ConnectEffects(Initial, backoff, start);
    assert s.log == New(Initial, s);
  }

  /** Every callback but shutdown hands the cycle on to exactly one successor
      while the client wants to stay connected; afterwards only a failed connect
      still schedules one (idle) timer, and nothing else starts new work. */
  lemma StepSpawns(s: State, e: Event, backoff: Backoff)
    ensures var r := Step(s, e, backoff);
            Spawned(New(s, r)) ==
              (if e.ShutdownRequested? then 0
               else if s.stayConnected || e.ConnectFailed? then 1
               else 0)
  {
    StepEffects(s, e, backoff);
  }

  lemma OpenNoListener(q: Pending, added: seq<Effect>)
    requires Listened(added) == []
    ensures Live(Open(q, added)) == Live(q) + Spawned(added)
  {
  }

  lemma OpenOneListener(q: Pending, added: seq<Effect>, id: nat)
    requires Listened(added) == [id] && id !in q.listeners
    ensures Live(Open(q, added)) == Live(q) + Spawned(added)
  {
    assert Ids(Listened(added)) == {id};
    assert |q.listeners + {id}| == |q.listeners| + 1;
  }

  lemma StepOneCycle(c: System, e: Event, backoff: Backoff)
    requires OneCycle(c) && Enabled(c.pending, e)
    ensures OneCycle(SysStep(c, e, backoff))
  {
    var s := c.client;
    var r := Step(s, e, backoff);
    var q := Consume(c.pending, e);
    var n := New(s, r);
    StepSpawns(s, e, backoff);
    StepEffects(s, e, backoff);
    if e.ConnectSucceeded? && s.stayConnected {
      assert q.listeners == {};
      OpenOneListener(q, n, e.id);
    } else {
      OpenNoListener(q, n);
    }
  }

  lemma {:induction false} RunOneCycle(c: System, es: seq<Event>, backoff: Backoff)
    requires OneCycle(c) && EnabledRun(c, es, backoff)
    ensures OneCycle(SysRun(c, es, backoff))
    decreases |es|
  {
    if es != [] {
      StepOneCycle(c, es[0], backoff);
      RunOneCycle(SysStep(c, es[0], backoff), es[1..], backoff);
    }
  }

  /** From construction on, whatever callbacks arrive, no two connects are ever
      in flight at once and a disconnect callback is never registered twice. */
  lemma AtMostOneAttempt(backoff: Backoff, start: ConnectStart, es: seq<Event>)
    requires EnabledRun(Boot(backoff, start), es, backoff)
    ensures var c := SysRun(Boot(backoff, start), es, backoff);
            && c.pending.connects <= 1 && |c.pending.listeners| <= 1
            && (c.client.stayConnected ==> Live(c.pending) == 1)
  {
    BootOneCycle(backoff, start);
    RunOneCycle(Boot(backoff, start), es, backoff);
  }
}
