# Reconnecting memcache client: a verified model of its reconnection state machine

This project models `ReconnectingClient` from folsom, a memcache client for the JVM.
`ReconnectingClient` keeps one logical connection to a memcache server open despite failures.
It holds three pieces of state:

- `client`: the current connection handle. This starts as the shared not-connected stand-in.
- `reconnectCount`: a Java `int`.
- `stayConnected`: a flag, cleared by `shutdown()`.

Five asynchronous callbacks drive the client:

- connect success;
- connect failure, either as a failed future or as an exception thrown by `connector.connect()`;
- loss of the connection (the disconnect callback);
- the backoff timer firing;
- the user's `shutdown()`.

In the model, each callback is one atomic transition over an immutable `State`. The state records its actions in an effect log:

- calling `connect()`;
- shutting a handle down;
- installing a handle;
- registering a disconnect callback;
- the retry warning;
- scheduling a backoff timer.

Modules, leaf first:

- `JavaInt` (`java_int.dfy`): Java `int` and its wrap-around `++`.
- `Handles` (`handles.dfy`): the handle (`NotConnected | Active(id)`), and what `send` and the status queries do with each kind of handle.
- `Effects` (`effects.dfy`): the effect log. It also defines views of the log: connect attempts, connects started with a pending future, warnings, the delays of scheduled timers, and the connections given a disconnect callback.
- `Reconnecting` (`reconnecting_client.dfy`): the state, the events, one function per callback, the combined `Step`, the queries, and effect lemmas for every transition.
- `Runs` (`runs.dfy`): `Run`, which applies a sequence of callbacks in order, and the properties that hold across such sequences.
- `Environment` (`environment.dfy`): the asynchronous work that is still outstanding: connect futures, timers and disconnect callbacks. All of it is read off the effect log. A callback can only arrive for outstanding work. The main result is that the client never runs two reconnect loops at once.

The backoff policy is an uninterpreted parameter, `Int32 -> int`. Whether `connector.connect()` throws is a parameter of the events that call it: construction, a disconnect, and a timer firing.

Three behaviours of the code are easy to get wrong, and the model follows the code on each:

- A lost connection is not backed off. `onClientDisconnect` calls `connectWithRetries` at once, without scheduling a timer. `Runs.FlappingHasNoBackoff` states the consequence.
- `scheduleRetryAttempt` schedules the timer even after shutdown. Only the warning is suppressed.
- The timer task increments `reconnectCount` before it checks `stayConnected`, so the count also grows after shutdown.

## Model

| member | source | states |
|---|---|---|
| `Reconnecting.CreateEffects` | src/main/java/com/spotify/folsom/reconnect/ReconnectingClient.java:77-88 | After construction the handle is the not-connected stand-in, the count is 0 and `stayConnected` holds (the initialisers at lines 53-55). Construction makes exactly one connect attempt, and that attempt is the first effect. If `connect()` threw, the single retry is delayed by `backoff(0)`; otherwise no retry is scheduled. |
| `Reconnecting.Step` | src/main/java/com/spotify/folsom/reconnect/ReconnectingClient.java:95-182 | Across any callback, `stayConnected` holds afterwards exactly when it held before and the callback was not a shutdown, so it is one-way. Only a successful connect replaces the handle, and the handle becomes the new connection. The count becomes 0 on success and advances by one Java `int` increment when the timer fires; every other callback leaves it alone. The log only grows. |
| `Reconnecting.Shutdown` | src/main/java/com/spotify/folsom/reconnect/ReconnectingClient.java:95-99 | `shutdown()` clears `stayConnected`. Its only effect is to forward shutdown to the handle installed at that moment. The handle and the count are unchanged. |
| `Reconnecting.OnConnectSuccess` | src/main/java/com/spotify/folsom/reconnect/ReconnectingClient.java:129-134 | On success the count becomes 0 and the new connection becomes the installed handle. `stayConnected` is unchanged. |
| `Reconnecting.SuccessEffects` | src/main/java/com/spotify/folsom/reconnect/ReconnectingClient.java:129-150 | A success first shuts the previous handle down and then installs the new one. If `stayConnected` is false, the new connection is shut down right after it is installed, and no disconnect callback is registered. Otherwise exactly one callback is registered on it, and a fresh connection is not shut down. A success starts no connect and no timer. |
| `Reconnecting.OnConnectFailure` | src/main/java/com/spotify/folsom/reconnect/ReconnectingClient.java:152-155 | A failed connect leaves the handle, the count and the flag unchanged. |
| `Reconnecting.OnDisconnect` | src/main/java/com/spotify/folsom/reconnect/ReconnectingClient.java:157-163 | Losing the connection leaves the handle, the count and the flag unchanged. |
| `Reconnecting.OnTimer` | src/main/java/com/spotify/folsom/reconnect/ReconnectingClient.java:173-181 | When the timer fires, the count goes up by exactly one Java `int` increment. The handle and `stayConnected` are unchanged. |
| `Reconnecting.ScheduleRetryEffects` | src/main/java/com/spotify/folsom/reconnect/ReconnectingClient.java:165-182 | A retry schedules exactly one timer. Its delay is the backoff of the count as it stands, before any increment. The retry warning, which carries that count and delay, is emitted if and only if `stayConnected` holds. No connect is started and no callback is registered. |
| `Reconnecting.ConnectEffects` | src/main/java/com/spotify/folsom/reconnect/ReconnectingClient.java:116-127 | Exactly one call of `connector.connect()`. If it returns a future, one connect is in flight and nothing is scheduled. If it throws, nothing is in flight and exactly one retry is scheduled, delayed by the backoff of the current count. |
| `Reconnecting.StepEffects` | src/main/java/com/spotify/folsom/reconnect/ReconnectingClient.java:116-182 | A table of effects for every callback. A connect is attempted only on a disconnect or a timer while `stayConnected` holds. An asynchronous failure, and a synchronous throw from one of those attempts, each schedule exactly one timer, delayed by the backoff of the count at scheduling time. A warning goes with that timer only while `stayConnected` holds. A disconnect callback is registered only by a success while `stayConnected` holds. |
| `Reconnecting.Send` | src/main/java/com/spotify/folsom/reconnect/ReconnectingClient.java:90-93 | A request is handed to the installed connection, unchanged, exactly when one is installed. Otherwise it is rejected as not connected. |
| `Reconnecting.IsConnected` | src/main/java/com/spotify/folsom/reconnect/ReconnectingClient.java:101-104 | False for the not-connected stand-in. Otherwise it is what the installed connection reports. |
| `Reconnecting.NumTotalConnections` | src/main/java/com/spotify/folsom/reconnect/ReconnectingClient.java:106-109 | Returns the installed handle's answer: 0 for the stand-in, otherwise what that connection reports. |
| `Reconnecting.NumActiveConnections` | src/main/java/com/spotify/folsom/reconnect/ReconnectingClient.java:111-114 | Returns the installed handle's answer: 0 for the stand-in, otherwise what that connection reports. |
| `Runs.Run` | src/main/java/com/spotify/folsom/reconnect/ReconnectingClient.java:95-182 | Over any sequence of callbacks the log only grows, and a cleared `stayConnected` stays cleared. |
| `Runs.StayConnectedUntilShutdown` | src/main/java/com/spotify/folsom/reconnect/ReconnectingClient.java:95-99 | After any sequence of callbacks, `stayConnected` holds if and only if it held at the start and no shutdown was requested. |
| `Runs.QuietAfterShutdown` | src/main/java/com/spotify/folsom/reconnect/ReconnectingClient.java:157-181 | Once `stayConnected` is false, no later callback calls `connect()`, leaves a connect in flight, emits a retry warning or registers a disconnect callback. This holds even when a stale timer fires or a pending connect succeeds. |
| `Runs.ShutdownClosesInstalled` | src/main/java/com/spotify/folsom/reconnect/ReconnectingClient.java:129-141 | Once shutdown is requested, the installed handle has been shut down. This stays true through every later callback, including a connect that completes after the shutdown. |
| `Runs.ShutdownClosesInstalledFromCreate` | src/main/java/com/spotify/folsom/reconnect/ReconnectingClient.java:95-141 | From construction on, whenever `stayConnected` is false, the installed handle has received a shutdown. |
| `Runs.CurrentHandleIsLatestSuccess` | src/main/java/com/spotify/folsom/reconnect/ReconnectingClient.java:129-134 | After any sequence of callbacks, the installed handle is the connection of the latest successful connect. With no success it is the starting handle. (`Installed` is an independent definition of that connection.) |
| `Runs.NotConnectedBeforeFirstSuccess` | src/main/java/com/spotify/folsom/reconnect/ReconnectingClient.java:90-114 | From construction until the first successful connect, every request is rejected as not connected, `isConnected` is false and both connection counts are 0. |
| `Runs.RequestsGoToLatestConnection` | src/main/java/com/spotify/folsom/reconnect/ReconnectingClient.java:90-114 | After a connect of `id` succeeds, and until the next one does, every request is handed to `id` and the status queries return `id`'s answers. |
| `Runs.CountIsTimersSinceSuccess` | src/main/java/com/spotify/folsom/reconnect/ReconnectingClient.java:129-181 | After any sequence of callbacks, the count is the number of timer firings since the latest success, counted with Java `int` wrap-around. Without a success, counting starts from the initial count. |
| `Runs.CountIsTimersSinceSuccessNoWrap` | src/main/java/com/spotify/folsom/reconnect/ReconnectingClient.java:129-181 | While the count stays below the top of the `int` range, it is the plain number of timer firings since the latest success. Without a success, that number is added to the initial count. |
| `Runs.RetryThenFailure` | src/main/java/com/spotify/folsom/reconnect/ReconnectingClient.java:152-181 | Suppose a timer fires, its reconnect starts, and that connect completes exceptionally. The count is then one higher, `stayConnected` is unchanged, and the next retry is delayed by the backoff of the new count. |
| `Runs.RetryThenThrow` | src/main/java/com/spotify/folsom/reconnect/ReconnectingClient.java:116-181 | Suppose `stayConnected` holds, a timer fires, and the connect it starts throws at once. The count is then one higher, and the next retry is delayed by the backoff of the new count, just as when the connect completes exceptionally. |
| `Runs.FirstFailureScheduled` | src/main/java/com/spotify/folsom/reconnect/ReconnectingClient.java:116-181 | Suppose a connect starts from a count of 0 while `stayConnected` holds, and then fails, whether by throwing or by completing exceptionally. Exactly one retry is then scheduled, delayed by `backoff(0)`. |
| `Runs.RetriesScheduled` | src/main/java/com/spotify/folsom/reconnect/ReconnectingClient.java:165-181 | After a first failure delayed by `backoff(0)`, any N further failed retries extend the schedule to exactly `backoff(0)`, ..., `backoff(N)`, with the count at N. Each retry may either throw or complete exceptionally. |
| `Runs.BackoffAfterFailures` | src/main/java/com/spotify/folsom/reconnect/ReconnectingClient.java:77-181 | From construction, suppose the first connect fails and then N retries fail in a row (N below 2^31). Each failure may be a throw from `connect()` or a future that completes exceptionally. The delays ever scheduled are then exactly `backoff(0)`, ..., `backoff(N)`, in order. The count ends at N, and `stayConnected` still holds. |
| `Runs.SuccessResetsBackoff` | src/main/java/com/spotify/folsom/reconnect/ReconnectingClient.java:129-182 | While `stayConnected` holds, suppose a connection succeeds and is later lost, and the reconnect and then N retries all fail (each by throwing or by completing exceptionally). The delays scheduled after the success are then exactly `backoff(0)`, ..., `backoff(N)`, and the count ends at N, whatever the count was before the success. |
| `Runs.FlappingHasNoBackoff` | src/main/java/com/spotify/folsom/reconnect/ReconnectingClient.java:157-163 | Suppose connections are accepted and then lost, over and over, while `stayConnected` holds. Every loss starts exactly one new connect and no backoff timer is scheduled. Once there has been at least one success, the count is 0. |
| `Environment.StepSpawns` | src/main/java/com/spotify/folsom/reconnect/ReconnectingClient.java:116-182 | While `stayConnected` holds, every callback except shutdown leaves exactly one connect, timer or callback behind. After shutdown only a failed connect still schedules an idle timer; every other callback leaves nothing. |
| `Environment.StepOneCycle` | src/main/java/com/spotify/folsom/reconnect/ReconnectingClient.java:116-182 | Every callback that can be delivered preserves the single-cycle invariant. While `stayConnected` holds, exactly one connect, timer or disconnect callback is outstanding. Afterwards at most one is. |
| `Environment.RunOneCycle` | src/main/java/com/spotify/folsom/reconnect/ReconnectingClient.java:116-182 | The single-cycle invariant survives any sequence of deliverable callbacks. |
| `Environment.AtMostOneAttempt` | src/main/java/com/spotify/folsom/reconnect/ReconnectingClient.java:77-182 | From construction on, whatever callbacks arrive: at most one connect is ever in flight, at most one disconnect callback is registered, and while `stayConnected` holds exactly one of the three is outstanding. |
| `Environment.SysRun` | src/main/java/com/spotify/folsom/reconnect/ReconnectingClient.java:116-182 | When the outstanding work is tracked, the client's own state follows the same transitions as `Run`. |

## Left out

- The request pipeline underneath: `DefaultRawMemcacheClient`, its outstanding-request tracker, backpressure and per-request timeouts. That code is not part of this model, and the test file that exercises it runs real sockets. Modelling it would mean inventing behaviour.
- `NotConnectedClient` is not part of this model either. The model assumes it rejects every request as not connected, reports that it is not connected, and reports zero total and active connections.
- The futures returned by `send`: the model records which handle receives the request, not the response.
- `CompletableFuture` chaining, the `ScheduledExecutorService` and the shared `SCHEDULED_EXECUTOR_SERVICE` / `singletonExecutor()` (lines 40-44 and 184-186). Each callback becomes an atomic event, and scheduling a timer becomes an effect.
- True thread interleavings and `volatile` visibility. Each callback is one atomic transition. So a shutdown that lands between installing the new handle (line 134) and checking `stayConnected` (line 137) is not modelled.
- The `exceptionally` branch of the disconnect callback (lines 147-149). The model's disconnect event never carries an exception.
- Log lines other than the retry warning, `notifyConnectionChange` (inherited and not shown), metrics, `toString`, the server address, and the convenience constructor's `DefaultRawMemcacheClient.connect` plumbing (lines 57-75).
- The concrete `BackoffFunction`. It is an uninterpreted parameter, and the 64-bit range of its `long` result is not modelled.
- `Runs.BackoffAfterFailures`: stated only for up to 2^31 consecutive failures. Beyond that the Java `int` count wraps to a negative value. `Runs.CountIsTimersSinceSuccess` covers the wrap.
- `Reconnecting.SuccessEffects`: assumes that the success handler completes normally. In `connectWithRetries` (lines 118-123), `exceptionally` is chained after `thenAccept`. So an exception thrown inside `onSuccessfullConnect` would also reach `onFailedConnect` and schedule a retry. It could come from the old handle's `shutdown()`, from `newClient.shutdown()`, from `notifyConnectionChange()` or from the disconnect-future registration (lines 133-146). The model has no such event, so its claim that a success starts no timer holds only under that assumption.
