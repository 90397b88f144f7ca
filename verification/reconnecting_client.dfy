/**
  The reconnection state machine of folsom's ReconnectingClient.

  The client keeps the current connection handle, a Java `int` retry count and
  the `stayConnected` flag. Every asynchronous callback (connect success,
  connect failure, disconnect, backoff timer, user shutdown) is one atomic
  transition over that state; the actions a callback takes are appended to an
  effect log instead of being carried out.
 */
module Reconnecting {
  import opened JavaInt
  import opened Handles
  import opened Effects

  /** How a call of connector.connect() returned: with a pending future, or by throwing. */
  datatype ConnectStart = Started | Threw

  /** The callbacks that drive the client. */
  datatype Event =
    | ConnectSucceeded(id: nat)                 // the pending connect completed with a new live connection
    | ConnectFailed                             // the pending connect completed exceptionally
    | Disconnected(id: nat, start: ConnectStart) // a registered disconnect callback fired
    | TimerFired(start: ConnectStart)           // a scheduled backoff timer fired
    | ShutdownRequested                         // the user called shutdown()

  datatype State = State(
    client: Handle,
    reconnectCount: Int32,
    stayConnected: bool,
    log: seq<Effect>)

  /** The pluggable backoff policy: retry count to delay in milliseconds. */
  type Backoff = Int32 -> int

  /** The field initialisers, before the constructor's first connect. */
  const Initial: State := State(NotConnected, 0, true, [])

  /** The effects one transition took from `s` to `r`. */
  function New(s: State, r: State): seq<Effect>
    requires s.log <= r.log
  {
    Added(s.log, r.log)
  }

  /** Only the log moves. */
  predicate SameFields(s: State, r: State)
  {
    r.client == s.client && r.reconnectCount == s.reconnectCount && r.stayConnected == s.stayConnected
  }

  /** scheduleRetryAttempt: the delay is read from the current count; the timer is
      scheduled whatever `stayConnected` says, the warning only while it holds. */
  function ScheduleRetry(s: State, backoff: Backoff): (r: State)
    ensures SameFields(s, r) && s.log <= r.log
  {
    var delay := backoff(s.reconnectCount);
    var added := if s.stayConnected then [WarnRetry(s.reconnectCount, delay), Schedule(delay)]
                 else [Schedule(delay)];
    s.(log := s.log + added)
  }

  /** connectWithRetries: one call of connector.connect(); a synchronous throw is
      routed into scheduleRetryAttempt, a pending future stays in flight. */
  function ConnectWithRetries(s: State, backoff: Backoff, start: ConnectStart): (r: State)
    ensures SameFields(s, r) && s.log <= r.log
  {
    match start
    case Started => s.(log := s.log + [StartConnect])
    case Threw => ScheduleRetry(s.(log := s.log + [ConnectThrew]), backoff)
  }

  /** The constructor: field initialisers, then connectWithRetries. */
  function Create(backoff: Backoff, start: ConnectStart): State
  {
    ConnectWithRetries(Initial, backoff, start)
  }

  /** onSuccessfullConnect: reset the count, shut the previous handle, install the
      new one; then either close the new one at once (shutdown won the race) or
      register a disconnect callback on it. */
  function OnConnectSuccess(s: State, id: nat): (r: State)
    ensures r.client == Active(id) && r.reconnectCount == 0 && r.stayConnected == s.stayConnected
    ensures s.log <= r.log
  {
    var last := if s.stayConnected then Listen(id) else ShutdownHandle(Active(id));
    State(Active(id), 0, s.stayConnected, s.log + [ShutdownHandle(s.client), Install(id), last])
  }

  /** onFailedConnect. */
  function OnConnectFailure(s: State, backoff: Backoff): (r: State)
    ensures SameFields(s, r) && s.log <= r.log
  {
    ScheduleRetry(s, backoff)
  }

  /** onClientDisconnect: reconnect at once (no backoff) while `stayConnected` holds. */
  function OnDisconnect(s: State, backoff: Backoff, start: ConnectStart): (r: State)
    ensures SameFields(s, r) && s.log <= r.log
  {
    if s.stayConnected then ConnectWithRetries(s, backoff, start) else s
  }

  /** The backoff timer's task: count one more retry, then reconnect only while
      `stayConnected` holds. */
  function OnTimer(s: State, backoff: Backoff, start: ConnectStart): (r: State)
    ensures r.client == s.client && r.stayConnected == s.stayConnected && s.log <= r.log
    ensures r.reconnectCount == Inc(s.reconnectCount)
  {
    var s1 := s.(reconnectCount := Inc(s.reconnectCount));
    if s1.stayConnected then ConnectWithRetries(s1, backoff, start) else s1
  }

  /** shutdown(): clear `stayConnected` for good and forward shutdown to the current handle. */
  function Shutdown(s: State): (r: State)
    ensures !r.stayConnected
    ensures r.client == s.client && r.reconnectCount == s.reconnectCount
    ensures s.log <= r.log && New(s, r) == [ShutdownHandle(s.client)]
  {
    s.(stayConnected := false, log := s.log + [ShutdownHandle(s.client)])
  }

  /** One callback, as one atomic transition. Only a shutdown request touches
      `stayConnected`, and only to clear it; only a successful connect replaces
      the handle; the count is reset by a success and advanced by a timer. */
  function Step(s: State, e: Event, backoff: Backoff): (r: State)
    ensures s.log <= r.log
    ensures r.stayConnected <==> s.stayConnected && !e.ShutdownRequested?
    ensures r.client == (if e.ConnectSucceeded? then Active(e.id) else s.client)
    ensures r.reconnectCount ==
              (if e.ConnectSucceeded? then 0
               else if e.TimerFired? then Inc(s.reconnectCount)
               else s.reconnectCount)
  {
    match e
    case ConnectSucceeded(id) => OnConnectSuccess(s, id)
    case ConnectFailed => OnConnectFailure(s, backoff)
    case Disconnected(_, start) => OnDisconnect(s, backoff, start)
    case TimerFired(start) => OnTimer(s, backoff, start)
    case ShutdownRequested => Shutdown(s)
  }

  /** scheduleRetryAttempt schedules exactly one timer, delayed by the backoff of
      the count as it is now, and warns about it only while `stayConnected` holds. */
  lemma ScheduleRetryEffects(s: State, backoff: Backoff)
    ensures var r := ScheduleRetry(s, backoff);
            && Delays(New(s, r)) == [backoff(s.reconnectCount)]
            && Warnings(New(s, r)) == (if s.stayConnected then 1 else 0)
            && (s.stayConnected ==> WarnRetry(s.reconnectCount, backoff(s.reconnectCount)) in New(s, r))
            && Attempts(New(s, r)) == 0 && InFlight(New(s, r)) == 0 && Listened(New(s, r)) == []
  {
    var delay := backoff(s.reconnectCount);
    var warn := WarnRetry(s.reconnectCount, delay);
    var added := if s.stayConnected then [warn, Schedule(delay)] else [Schedule(delay)];
    ViewsOfSingle(Schedule(delay));
    ViewsOfCons(warn, [Schedule(delay)]);
    assert [warn] + [Schedule(delay)] == [warn, Schedule(delay)];
    assert New(s, ScheduleRetry(s, backoff)) == added;
  }

  /** connectWithRetries calls connector.connect() exactly once; when that throws,
      exactly one retry is scheduled instead of a connect being left in flight. */
  lemma ConnectEffects(s: State, backoff: Backoff, start: ConnectStart)
    ensures var r := ConnectWithRetries(s, backoff, start);
            && Attempts(New(s, r)) == 1
            && InFlight(New(s, r)) == (if start == Started then 1 else 0)
            && Delays(New(s, r)) == (if start == Threw then [backoff(s.reconnectCount)] else [])
            && Warnings(New(s, r)) == (if start == Threw && s.stayConnected then 1 else 0)
            && Listened(New(s, r)) == []
  {
    var r := ConnectWithRetries(s, backoff, start);
    match start
    case Started =>
      ViewsOfSingle(StartConnect);
      assert New(s, r) == [StartConnect];
    case Threw =>
      var s1 := s.(log := s.log + [ConnectThrew]);
      ScheduleRetryEffects(s1, backoff);
      assert New(s, r) == [ConnectThrew] + New(s1, r);
      ViewsOfCons(ConnectThrew, New(s1, r));
  }

  /** Construction starts from no connection, a zero count and `stayConnected`,
      and makes exactly one connect attempt, the first effect; a retry is
      scheduled only if connect threw, and then it is delayed by backoff(0). */
  lemma CreateEffects(backoff: Backoff, start: ConnectStart)
    ensures var r := Create(backoff, start);
            && r.client == NotConnected && r.reconnectCount == 0 && r.stayConnected
            && |r.log| > 0 && (r.log[0] == StartConnect || r.log[0] == ConnectThrew)
            && Attempts(r.log) == 1 && Listened(r.log) == []
            && Delays(r.log) == (if start == Threw then [backoff(0)] else [])
  {
    var r := Create(backoff, start);
    ConnectEffects(Initial, backoff, start);
    assert r.log == New(Initial, r);
    assert r.log[0] == (if start == Started then StartConnect else ConnectThrew);
  }

  /** A successful connect first shuts the previous handle, then installs the new
      one; if shutdown was already requested the new connection is shut down and
      no disconnect callback is registered, after it was installed, otherwise exactly one is registered
      and the new connection is left open. No connect and no retry is started. */
  lemma SuccessEffects(s: State, id: nat)
    ensures var r := OnConnectSuccess(s, id);
            && |New(s, r)| == 3
            && New(s, r)[0] == ShutdownHandle(s.client) && New(s, r)[1] == Install(id)
            && Listened(New(s, r)) == (if s.stayConnected then [id] else [])
            && (!s.stayConnected ==> New(s, r)[2] == ShutdownHandle(Active(id)))
            && (s.stayConnected && s.client != Active(id) ==> ShutdownHandle(Active(id)) !in New(s, r))
            && Attempts(New(s, r)) == 0 && InFlight(New(s, r)) == 0
            && Delays(New(s, r)) == [] && Warnings(New(s, r)) == 0
  {
    var last := if s.stayConnected then Listen(id) else ShutdownHandle(Active(id));
    var tail := [Install(id), last];
    var added := [ShutdownHandle(s.client), Install(id), last];
    ViewsOfSingle(last);
    ViewsOfCons(Install(id), [last]);
    assert [Install(id)] + [last] == tail;
    ViewsOfCons(ShutdownHandle(s.client), tail);
    assert [ShutdownHandle(s.client)] + tail == added;
    assert New(s, OnConnectSuccess(s, id)) == added;
  }

  /** The views of the effects of one callback, event by event: the effect table
      of the state machine. */
  lemma StepEffects(s: State, e: Event, backoff: Backoff)
    ensures var n := New(s, Step(s, e, backoff));
            var reconnects := (e.Disconnected? || e.TimerFired?) && s.stayConnected;
            var retryCount := if e.TimerFired? then Inc(s.reconnectCount) else s.reconnectCount;
            && Attempts(n) == (if reconnects then 1 else 0)
            && InFlight(n) == (if reconnects && e.start == Started then 1 else 0)
            && Delays(n) ==
                 (if e.ConnectFailed? || (reconnects && e.start == Threw) then [backoff(retryCount)] else [])
            && Warnings(n) ==
                 (if s.stayConnected && (e.ConnectFailed? || (reconnects && e.start == Threw)) then 1 else 0)
            && Listened(n) == (if e.ConnectSucceeded? && s.stayConnected then [e.id] else [])
  {
    var r := Step(s, e, backoff);
    match e
    case ConnectSucceeded(id) =>
      SuccessEffects(s, id);
    case ConnectFailed =>
      ScheduleRetryEffects(s, backoff);
    case Disconnected(_, start) =>
      if s.stayConnected { ConnectEffects(s, backoff, start); }
      else { assert New(s, r) == []; }
    case TimerFired(start) =>
      var s1 := s.(reconnectCount := Inc(s.reconnectCount));
      if s.stayConnected {
        ConnectEffects(s1, backoff, start);
        assert New(s, r) == New(s1, r);
      } else {
        assert New(s, r) == [];
      }
    case ShutdownRequested =>
      ViewsOfSingle(ShutdownHandle(s.client));
  }

  /** send: whatever the current handle does with the request. */
  function Send<R>(s: State, request: R): (d: Dispatch<R>)
    ensures d.Forwarded? <==> s.client.Active?
    ensures d.Forwarded? ==> d.handle == s.client.id && d.request == request
    ensures d.RejectedNotConnected? ==> d.request == request
  {
    HandleSend(s.client, request)
  }

  /** isConnected: the stand-in is never connected; a live connection answers for itself. */
  function IsConnected(s: State, t: Transport): (b: bool)
    ensures s.client.NotConnected? ==> !b
    ensures s.client.Active? ==> b == t.connected(s.client.id)
  {
    HandleIsConnected(s.client, t)
  }

  /** numTotalConnections: 0 for the stand-in, otherwise the live connection's count. */
  function NumTotalConnections(s: State, t: Transport): (n: int)
    ensures s.client.NotConnected? ==> n == 0
    ensures s.client.Active? ==> n == t.totalConnections(s.client.id)
  {
    HandleTotalConnections(s.client, t)
  }

  /** numActiveConnections: 0 for the stand-in, otherwise the live connection's count. */
  function NumActiveConnections(s: State, t: Transport): (n: int)
    ensures s.client.NotConnected? ==> n == 0
    ensures s.client.Active? ==> n == t.activeConnections(s.client.id)
  {
    HandleActiveConnections(s.client, t)
  }
}
