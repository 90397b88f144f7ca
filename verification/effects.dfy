/**
  The externally visible actions of the reconnecting client, recorded in
  order in an effect log, and the views of that log the properties talk about.
 */
module Effects {
  import opened JavaInt
  import opened Handles

  datatype Effect =
    | StartConnect                          // connector.connect() returned a pending future
    | ConnectThrew                          // connector.connect() threw synchronously
    | ShutdownHandle(handle: Handle)        // shutdown() forwarded to a handle
    | Install(id: nat)                      // a live connection became the current handle
    | Listen(id: nat)                       // a disconnect callback was registered on a live connection
    | WarnRetry(attempt: Int32, delay: int) // the "attempting reconnect" warning
    | Schedule(delay: int)                  // a backoff timer was scheduled

  /** Calls of connector.connect(), whether or not they threw. */
  function Attempts(log: seq<Effect>): nat
  {
    if log == [] then 0 else (if log[0].StartConnect? || log[0].ConnectThrew? then 1 else 0) + Attempts(log[1..])
  }

  /** Calls of connector.connect() that returned a pending future. */
  function InFlight(log: seq<Effect>): nat
  {
    if log == [] then 0 else (if log[0].StartConnect? then 1 else 0) + InFlight(log[1..])
  }

  /** The retry warnings emitted. */
  function Warnings(log: seq<Effect>): nat
  {
    if log == [] then 0 else (if log[0].WarnRetry? then 1 else 0) + Warnings(log[1..])
  }

  /** The delays of the scheduled backoff timers, in scheduling order. */
  function Delays(log: seq<Effect>): seq<int>
  {
    if log == [] then [] else (if log[0].Schedule? then [log[0].delay] else []) + Delays(log[1..])
  }

  /** The connections a disconnect callback was registered on, in order. */
  function Listened(log: seq<Effect>): seq<nat>
  {
    if log == [] then [] else (if log[0].Listen? then [log[0].id] else []) + Listened(log[1..])
  }

  /** The pieces of asynchronous work a stretch of effects starts that can later
      call back: connects in flight, backoff timers and disconnect callbacks. */
  function Spawned(log: seq<Effect>): nat
  {
    InFlight(log) + |Delays(log)| + |Listened(log)|
  }

  /** The effects `after` holds beyond its prefix `before`. */
  function Added(before: seq<Effect>, after: seq<Effect>): (added: seq<Effect>)
    requires before <= after
    ensures after == before + added
  {
    after[|before|..]
  }

  lemma {:induction false} AttemptsConcat(a: seq<Effect>, b: seq<Effect>)
    ensures Attempts(a + b) == Attempts(a) + Attempts(b)
  {
    if a == [] {
      assert a + b == b;
    } else {
      assert (a + b)[1..] == a[1..] + b;
      AttemptsConcat(a[1..], b);
    }
  }

  lemma {:induction false} InFlightConcat(a: seq<Effect>, b: seq<Effect>)
    ensures InFlight(a + b) == InFlight(a) + InFlight(b)
  {
    if a == [] {
      assert a + b == b;
    } else {
      assert (a + b)[1..] == a[1..] + b;
      InFlightConcat(a[1..], b);
    }
  }

  lemma {:induction false} WarningsConcat(a: seq<Effect>, b: seq<Effect>)
    ensures Warnings(a + b) == Warnings(a) + Warnings(b)
  {
    if a == [] {
      assert a + b == b;
    } else {
      assert (a + b)[1..] == a[1..] + b;
      WarningsConcat(a[1..], b);
    }
  }

  lemma {:induction false} DelaysConcat(a: seq<Effect>, b: seq<Effect>)
    ensures Delays(a + b) == Delays(a) + Delays(b)
  {
    if a == [] {
      assert a + b == b;
    } else {
      assert (a + b)[1..] == a[1..] + b;
      DelaysConcat(a[1..], b);
      var head := if a[0].Schedule? then [a[0].delay] else [];
      assert head + (Delays(a[1..]) + Delays(b)) == (head + Delays(a[1..])) + Delays(b);
    }
  }

  lemma {:induction false} ListenedConcat(a: seq<Effect>, b: seq<Effect>)
    ensures Listened(a + b) == Listened(a) + Listened(b)
  {
    if a == [] {
      assert a + b == b;
    } else {
      assert (a + b)[1..] == a[1..] + b;
      ListenedConcat(a[1..], b);
      var head := if a[0].Listen? then [a[0].id] else [];
      assert head + (Listened(a[1..]) + Listened(b)) == (head + Listened(a[1..])) + Listened(b);
    }
  }

  /** Every view of the log distributes over concatenation. */
  lemma ViewsOfConcat(a: seq<Effect>, b: seq<Effect>)
    ensures Attempts(a + b) == Attempts(a) + Attempts(b)
    ensures InFlight(a + b) == InFlight(a) + InFlight(b)
    ensures Warnings(a + b) == Warnings(a) + Warnings(b)
    ensures Delays(a + b) == Delays(a) + Delays(b)
    ensures Listened(a + b) == Listened(a) + Listened(b)
  {
    AttemptsConcat(a, b);
    InFlightConcat(a, b);
    WarningsConcat(a, b);
    DelaysConcat(a, b);
    ListenedConcat(a, b);
  }

  /** The views of a log made of one effect. */
  lemma ViewsOfSingle(e: Effect)
    ensures Attempts([e]) == (if e.StartConnect? || e.ConnectThrew? then 1 else 0)
    ensures InFlight([e]) == (if e.StartConnect? then 1 else 0)
    ensures Warnings([e]) == (if e.WarnRetry? then 1 else 0)
    ensures Delays([e]) == (if e.Schedule? then [e.delay] else [])
    ensures Listened([e]) == (if e.Listen? then [e.id] else [])
  {
  }

  /** The views of a log that starts with one given effect. */
  lemma ViewsOfCons(e: Effect, rest: seq<Effect>)
    ensures Attempts([e] + rest) == (if e.StartConnect? || e.ConnectThrew? then 1 else 0) + Attempts(rest)
    ensures InFlight([e] + rest) == (if e.StartConnect? then 1 else 0) + InFlight(rest)
    ensures Warnings([e] + rest) == (if e.WarnRetry? then 1 else 0) + Warnings(rest)
    ensures Delays([e] + rest) == (if e.Schedule? then [e.delay] else []) + Delays(rest)
    ensures Listened([e] + rest) == (if e.Listen? then [e.id] else []) + Listened(rest)
  {
  }
}
