/**
  Sequences of callbacks delivered one after another, and what the
  reconnecting client promises across them.
 */
module Runs {
  import opened JavaInt
  import opened Handles
  import opened Effects
  import opened Reconnecting

  /** Deliver the callbacks `es` in order. */
  function Run(s: State, es: seq<Event>, backoff: Backoff): (r: State)
    ensures s.log <= r.log
    ensures !s.stayConnected ==> !r.stayConnected
    decreases |es|
  {
    if es == [] then s else Run(Step(s, es[0], backoff), es[1..], backoff)
  }

  lemma {:induction false} RunAppend(s: State, a: seq<Event>, b: seq<Event>, backoff: Backoff)
    ensures Run(s, a + b, backoff) == Run(Run(s, a, backoff), b, backoff)
    decreases |a|
  {
    if a == [] {
      assert a + b == b;
    } else {
      assert (a + b)[1..] == a[1..] + b;
      RunAppend(Step(s, a[0], backoff), a[1..], b, backoff);
    }
  }

  lemma RunSnoc(s: State, es: seq<Event>, e: Event, backoff: Backoff)
    ensures Run(s, es + [e], backoff) == Step(Run(s, es, backoff), e, backoff)
  {
    RunAppend(s, es, [e], backoff);
    assert [e][1..] == [];
  }

  lemma RunPair(s: State, a: Event, b: Event, backoff: Backoff)
    ensures Run(s, [a, b], backoff) == Step(Step(s, a, backoff), b, backoff)
  {
    assert [a, b][1..] == [b];
    var m := Step(s, a, backoff);
    assert Run(m, [b], backoff) == Run(Step(m, b, backoff), [], backoff) by {
      assert [b][1..] == [];
    }
  }

  /** The effects of two consecutive stretches of a run are those of the whole. */
  lemma NewCompose(s: State, m: State, r: State)
    requires s.log <= m.log && m.log <= r.log
    ensures s.log <= r.log && New(s, r) == New(s, m) + New(m, r)
  {
  }

  /** `stayConnected` holds after a run exactly when it held before and no
      shutdown was requested during the run: nothing ever sets it back. */
  lemma {:induction false} StayConnectedUntilShutdown(s: State, es: seq<Event>, backoff: Backoff)
    ensures Run(s, es, backoff).stayConnected <==> s.stayConnected && ShutdownRequested !in es
    decreases |es|
  {
    if es != [] {
      StayConnectedUntilShutdown(Step(s, es[0], backoff), es[1..], backoff);
      assert es == [es[0]] + es[1..];
    }
  }

  /** Quiet shutdown: once `stayConnected` is false, no callback calls
      connector.connect() again, no retry warning is emitted and no disconnect
      callback is registered, even when a connect that was in flight succeeds. */
  lemma {:induction false} QuietAfterShutdown(s: State, es: seq<Event>, backoff: Backoff)
    requires !s.stayConnected
    ensures var n := New(s, Run(s, es, backoff));
            Attempts(n) == 0 && InFlight(n) == 0 && Warnings(n) == 0 && Listened(n) == []
    decreases |es|
  {
    if es != [] {
      var m := Step(s, es[0], backoff);
      var r := Run(m, es[1..], backoff);
      StepEffects(s, es[0], backoff);
      QuietAfterShutdown(m, es[1..], backoff);
      NewCompose(s, m, r);
      ViewsOfConcat(New(s, m), New(m, r));
    }
  }

  /** A connection that is accepted and then lost, once per id. */
  function Flaps(ids: seq<nat>): seq<Event>
  {
    if ids == [] then [] else [ConnectSucceeded(ids[0]), Disconnected(ids[0], Started)] + Flaps(ids[1..])
  }

  /** A lost connection is replaced at once: however often a connection is
      accepted and then dropped, every loss starts one new connect and no
      backoff timer is ever scheduled, and each success resets the count. */
  lemma {:induction false} FlappingHasNoBackoff(s: State, ids: seq<nat>, backoff: Backoff)
    requires s.stayConnected
    ensures var r := Run(s, Flaps(ids), backoff);
            && r.stayConnected
            && Attempts(New(s, r)) == |ids|
            && Delays(New(s, r)) == []
            && r.reconnectCount == (if ids == [] then s.reconnectCount else 0)
    decreases |ids|
  {
    if ids != [] {
      var pair := [ConnectSucceeded(ids[0]), Disconnected(ids[0], Started)];
      var m1 := Step(s, ConnectSucceeded(ids[0]), backoff);
      var m := Step(m1, Disconnected(ids[0], Started), backoff);
      RunPair(s, ConnectSucceeded(ids[0]), Disconnected(ids[0], Started), backoff);
      RunAppend(s, pair, Flaps(ids[1..]), backoff);
      StepEffects(s, ConnectSucceeded(ids[0]), backoff);
      StepEffects(m1, Disconnected(ids[0], Started), backoff);
      FlappingHasNoBackoff(m, ids[1..], backoff);
      var r := Run(m, Flaps(ids[1..]), backoff);
      NewCompose(s, m1, m);
      NewCompose(s, m, r);
      ViewsOfConcat(New(s, m1), New(m1, m));
      ViewsOfConcat(New(s, m), New(m, r));
    }
  }

  /** After shutdown the installed handle has been shut down. */
  ghost predicate ClosedIfShutdown(s: State)
  {
    !s.stayConnected ==> ShutdownHandle(s.client) in s.log
  }

  /** No live connection outlives a shutdown: this holds from construction on,
      including when a connect completes after shutdown was requested. */
  lemma {:induction false} ShutdownClosesInstalled(s: State, es: seq<Event>, backoff: Backoff)
    requires ClosedIfShutdown(s)
    ensures ClosedIfShutdown(Run(s, es, backoff))
    decreases |es|
  {
    if es != [] {
      var m := Step(s, es[0], backoff);
      assert ClosedIfShutdown(m) by {
        if !m.stayConnected && es[0].ConnectSucceeded? {
          SuccessEffects(s, es[0].id);
        } else if !m.stayConnected && !es[0].ShutdownRequested? {
          assert m.log[..|s.log|] == s.log;
        }
      }
      ShutdownClosesInstalled(m, es[1..], backoff);
    }
  }

  lemma ShutdownClosesInstalledFromCreate(backoff: Backoff, start: ConnectStart, es: seq<Event>)
    ensures var r := Run(Create(backoff, start), es, backoff);
            !r.stayConnected ==> ShutdownHandle(r.client) in r.log
  {
    ShutdownClosesInstalled(Create(backoff, start), es, backoff);
  }

  /** Reference definition of the current handle: the connection of the latest
      successful connect, or the starting handle if there was none. */
  function Installed(initial: Handle, es: seq<Event>): Handle
  {
    if es == [] then initial
    else if es[|es| - 1].ConnectSucceeded? then Active(es[|es| - 1].id)
    else Installed(initial, es[..|es| - 1])
  }

  predicate NoSuccess(es: seq<Event>)
  {
    forall i :: 0 <= i < |es| ==> !es[i].ConnectSucceeded?
  }

  lemma {:induction false} CurrentHandleIsLatestSuccess(s: State, es: seq<Event>, backoff: Backoff)
    ensures Run(s, es, backoff).client == Installed(s.client, es)
    decreases |es|
  {
    if es != [] {
      var init := es[..|es| - 1];
      assert es == init + [es[|es| - 1]];
      RunSnoc(s, init, es[|es| - 1], backoff);
      CurrentHandleIsLatestSuccess(s, init, backoff);
    }
  }

  lemma {:induction false} InstalledWithoutSuccess(initial: Handle, es: seq<Event>)
    requires NoSuccess(es)
    ensures Installed(initial, es) == initial
    decreases |es|
  {
    if es != [] {
      InstalledWithoutSuccess(initial, es[..|es| - 1]);
    }
  }

  /** Before the first successful connect every request fails as not connected
      and the status queries give the not-connected answers. */
  lemma NotConnectedBeforeFirstSuccess<R>(backoff: Backoff, start: ConnectStart, es: seq<Event>,
                                          request: R, t: Transport)
    requires NoSuccess(es)
    ensures var r := Run(Create(backoff, start), es, backoff);
            && Send(r, request) == RejectedNotConnected(request)
            && !IsConnected(r, t)
            && NumTotalConnections(r, t) == 0
            && NumActiveConnections(r, t) == 0
  {
    CurrentHandleIsLatestSuccess(Create(backoff, start), es, backoff);
    InstalledWithoutSuccess(NotConnected, es);
  }

  /** After a connect of `id` succeeds, and until the next one does, requests go
      to connection `id` and the status queries are that connection's answers. */
  lemma RequestsGoToLatestConnection<R>(s: State, id: nat, es: seq<Event>, backoff: Backoff,
                                        request: R, t: Transport)
    requires NoSuccess(es)
    ensures var r := Run(s, [ConnectSucceeded(id)] + es, backoff);
            && Send(r, request) == Forwarded(id, request)
            && IsConnected(r, t) == t.connected(id)
            && NumTotalConnections(r, t) == t.totalConnections(id)
            && NumActiveConnections(r, t) == t.activeConnections(id)
  {
    RunAppend(s, [ConnectSucceeded(id)], es, backoff);
    assert Run(s, [ConnectSucceeded(id)], backoff) == Step(s, ConnectSucceeded(id), backoff) by {
      assert [ConnectSucceeded(id)][1..] == [];
    }
    var m := Step(s, ConnectSucceeded(id), backoff);
    CurrentHandleIsLatestSuccess(m, es, backoff);
    InstalledWithoutSuccess(m.client, es);
  }

  /** Timer firings since the latest successful connect (or since the start). */
  function TimersSinceSuccess(es: seq<Event>): nat
  {
    if es == [] then 0
    else if es[|es| - 1].ConnectSucceeded? then 0
    else (if es[|es| - 1].TimerFired? then 1 else 0) + TimersSinceSuccess(es[..|es| - 1])
  }

  /** The retry count is the number of backoff timers that fired since the
      latest successful connect (wrapping as a Java `int`), counted from the
      starting count when no connect succeeded. */
  lemma {:induction false} CountIsTimersSinceSuccess(s: State, es: seq<Event>, backoff: Backoff)
    ensures Run(s, es, backoff).reconnectCount ==
              IncN(if NoSuccess(es) then s.reconnectCount else 0, TimersSinceSuccess(es))
    decreases |es|
  {
    if es != [] {
      var init := es[..|es| - 1];
      var e := es[|es| - 1];
      assert es == init + [e];
      RunSnoc(s, init, e, backoff);
      CountIsTimersSinceSuccess(s, init, backoff);
      if !e.ConnectSucceeded? {
        assert NoSuccess(es) <==> NoSuccess(init) by {
          if NoSuccess(init) {
            forall i | 0 <= i < |es| ensures !es[i].ConnectSucceeded? {
              if i < |init| { assert es[i] == init[i]; }
            }
          }
          if NoSuccess(es) {
            forall i | 0 <= i < |init| ensures !init[i].ConnectSucceeded? {
              assert init[i] == es[i];
            }
          }
        }
      } else {
        assert !NoSuccess(es) by { assert es[|es| - 1].ConnectSucceeded?; }
      }
    }
  }

  /** Below the top of the `int` range the count is the plain number of timer
      firings since the latest successful connect. */
  lemma CountIsTimersSinceSuccessNoWrap(s: State, es: seq<Event>, backoff: Backoff)
    requires (if NoSuccess(es) then s.reconnectCount else 0) + TimersSinceSuccess(es) <= MaxInt
    ensures Run(s, es, backoff).reconnectCount ==
              (if NoSuccess(es) then s.reconnectCount else 0) + TimersSinceSuccess(es)
  {
    CountIsTimersSinceSuccess(s, es, backoff);
    IncNNoWrap(if NoSuccess(es) then s.reconnectCount else 0, TimersSinceSuccess(es));
  }

  /** How a connect that was just started goes on to fail: a pending future
      completes exceptionally, while a connect that threw has already failed. */
  function Failed(start: ConnectStart): seq<Event>
  {
    if start == Started then [ConnectFailed] else []
  }

  /** One retry that fails: the backoff timer fires and the connect it starts
      either completes exceptionally or throws at once. */
  function Retry(start: ConnectStart): seq<Event>
  {
    if start == Started then [TimerFired(Started), ConnectFailed] else [TimerFired(Threw)]
  }

  /** Consecutive failed retries, one per entry of `starts`. */
  function Retries(starts: seq<ConnectStart>): seq<Event>
  {
    if starts == [] then [] else Retries(starts[..|starts| - 1]) + Retry(starts[|starts| - 1])
  }

  /** backoff(0), ..., backoff(k-1). */
  function BackoffSchedule(backoff: Backoff, k: nat): seq<int>
    requires k <= MaxInt + 1
  {
    if k == 0 then [] else BackoffSchedule(backoff, k - 1) + [backoff(k - 1)]
  }

  /** From `s` to `r`, k failures in a row have been scheduled after backoff(0),
      ..., backoff(k-1), the count stands at k-1 and the client still wants to be
      connected. */
  predicate Scheduled(s: State, r: State, k: nat, backoff: Backoff)
    requires 1 <= k <= MaxInt + 1
  {
    && s.log <= r.log
    && r.stayConnected
    && r.reconnectCount == k - 1
    && Delays(New(s, r)) == BackoffSchedule(backoff, k)
  }

  /** A timer whose reconnect completes exceptionally: the count goes up by one and
      the next retry is delayed by backoff of the new count. */
  lemma RetryThenFailure(m: State, backoff: Backoff)
    ensures var r := Run(m, [TimerFired(Started), ConnectFailed], backoff);
            && m.log <= r.log
            && r.stayConnected == m.stayConnected
            && r.reconnectCount == Inc(m.reconnectCount)
            && Delays(New(m, r)) == [backoff(Inc(m.reconnectCount))]
  {
    var m1 := Step(m, TimerFired(Started), backoff);
    var r := Step(m1, ConnectFailed, backoff);
    StepEffects(m, TimerFired(Started), backoff);
    StepEffects(m1, ConnectFailed, backoff);
    RunPair(m, TimerFired(Started), ConnectFailed, backoff);
    NewCompose(m, m1, r);
    ViewsOfConcat(New(m, m1), New(m1, r));
  }

  /** A timer whose reconnect throws: while the client wants to stay connected the
      count goes up by one and the next retry is delayed by backoff of the new
      count, exactly as for a connect that completes exceptionally. */
  lemma RetryThenThrow(m: State, backoff: Backoff)
    requires m.stayConnected
    ensures var r := Run(m, [TimerFired(Threw)], backoff);
            && m.log <= r.log
            && r.stayConnected
            && r.reconnectCount == Inc(m.reconnectCount)
            && Delays(New(m, r)) == [backoff(Inc(m.reconnectCount))]
  {
    StepEffects(m, TimerFired(Threw), backoff);
    assert Run(m, [TimerFired(Threw)], backoff) == Step(m, TimerFired(Threw), backoff) by {
      assert [TimerFired(Threw)][1..] == [];
    }
  }

  /** A first connect from a zero count that completes exceptionally schedules
      its retry after backoff(0). */
  lemma FirstFailureAsync(s: State, backoff: Backoff)
    requires s.stayConnected && s.reconnectCount == 0
    ensures var m := ConnectWithRetries(s, backoff, Started);
            Scheduled(s, Run(m, [ConnectFailed], backoff), 1, backoff)
  {
    var m := ConnectWithRetries(s, backoff, Started);
    var r := Step(m, ConnectFailed, backoff);
    ConnectEffects(s, backoff, Started);
    StepEffects(m, ConnectFailed, backoff);
    assert Run(m, [ConnectFailed], backoff) == r by {
      assert [ConnectFailed][1..] == [];
    }
    NewCompose(s, m, r);
    ViewsOfConcat(New(s, m), New(m, r));
    assert BackoffSchedule(backoff, 1) == [backoff(0)];
  }

  /** A first connect from a zero count that throws has already scheduled its
      retry after backoff(0). */
  lemma FirstFailureThrow(s: State, backoff: Backoff)
    requires s.stayConnected && s.reconnectCount == 0
    ensures var m := ConnectWithRetries(s, backoff, Threw);
            Scheduled(s, Run(m, [], backoff), 1, backoff)
  {
    ConnectEffects(s, backoff, Threw);
    assert BackoffSchedule(backoff, 1) == [backoff(0)];
  }

  /** The first failure of a connect started from a zero count schedules its retry
      after backoff(0), whichever way the connect fails. */
  lemma FirstFailureScheduled(s: State, backoff: Backoff, start: ConnectStart)
    requires s.stayConnected && s.reconnectCount == 0
    ensures var m := ConnectWithRetries(s, backoff, start);
            Scheduled(s, Run(m, Failed(start), backoff), 1, backoff)
  {
    if start == Started {
      FirstFailureAsync(s, backoff);
    } else {
      FirstFailureThrow(s, backoff);
    }
  }

  /** Appending one more scheduled failure to a schedule of k-1. */
  lemma ExtendSchedule(s: State, m: State, r: State, k: nat, backoff: Backoff)
    requires 2 <= k <= MaxInt + 1
    requires Scheduled(s, m, k - 1, backoff)
    requires m.log <= r.log && r.stayConnected
    requires r.reconnectCount == Inc(m.reconnectCount)
    requires Delays(New(m, r)) == [backoff(Inc(m.reconnectCount))]
    ensures Scheduled(s, r, k, backoff)
  {
    NewCompose(s, m, r);
    ViewsOfConcat(New(s, m), New(m, r));
    assert Inc(m.reconnectCount) == k - 1;
  }

  /** One more failed retry extends the schedule by backoff of the new count,
      whether its connect completes exceptionally or throws. */
  lemma OneMoreRetry(s: State, m: State, k: nat, start: ConnectStart, backoff: Backoff)
    requires 2 <= k <= MaxInt + 1
    requires Scheduled(s, m, k - 1, backoff)
    ensures Scheduled(s, Run(m, Retry(start), backoff), k, backoff)
  {
    if start == Started {
      RetryThenFailure(m, backoff);
    } else {
      RetryThenThrow(m, backoff);
    }
    ExtendSchedule(s, m, Run(m, Retry(start), backoff), k, backoff);
  }

  /** Failed retries after a first failure keep extending the schedule:
      n retries after it bring it to backoff(0), ..., backoff(n). */
  lemma {:induction false} RetriesScheduled(s: State, m: State, starts: seq<ConnectStart>, backoff: Backoff)
    requires |starts| <= MaxInt
    requires Scheduled(s, m, 1, backoff)
    ensures Scheduled(s, Run(m, Retries(starts), backoff), |starts| + 1, backoff)
    decreases |starts|
  {
    if starts != [] {
      var init := starts[..|starts| - 1];
      var last := starts[|starts| - 1];
      RetriesScheduled(s, m, init, backoff);
      var mid := Run(m, Retries(init), backoff);
      RunAppend(m, Retries(init), Retry(last), backoff);
      OneMoreRetry(s, mid, |starts| + 1, last, backoff);
    }
  }

  /** Retry timing from construction: if the first connect and then every retry
      fail, each either by completing exceptionally or by throwing, the k-th
      retry is delayed by backoff(k-1), read before the timer's increment. */
  lemma {:induction false} BackoffAfterFailures(backoff: Backoff, first: ConnectStart, starts: seq<ConnectStart>)
    requires |starts| <= MaxInt
    ensures var r := Run(Create(backoff, first), Failed(first) + Retries(starts), backoff);
            && r.stayConnected
            && r.reconnectCount == |starts|
            && Delays(r.log) == BackoffSchedule(backoff, |starts| + 1)
  {
    var c := Create(backoff, first);
    var m := Run(c, Failed(first), backoff);
    FirstFailureScheduled(Initial, backoff, first);
    RetriesScheduled(Initial, m, starts, backoff);
    RunAppend(c, Failed(first), Retries(starts), backoff);
    assert New(Initial, Run(m, Retries(starts), backoff)) == Run(m, Retries(starts), backoff).log;
  }

  /** A successful connect resets the backoff: when that connection is lost and
      the reconnect and every retry fail, the retries are delayed by backoff(0),
      backoff(1), ... whatever the count was before the success. */
  lemma {:induction false} SuccessResetsBackoff(s: State, id: nat, first: ConnectStart, starts: seq<ConnectStart>,
                             backoff: Backoff)
    requires s.stayConnected && |starts| <= MaxInt
    ensures var m := Step(s, ConnectSucceeded(id), backoff);
            var r := Run(s, [ConnectSucceeded(id), Disconnected(id, first)] + Failed(first) + Retries(starts),
                         backoff);
            && m.log <= r.log
            && r.reconnectCount == |starts|
            && Delays(New(m, r)) == BackoffSchedule(backoff, |starts| + 1)
  {
    var m := Step(s, ConnectSucceeded(id), backoff);
    var d := Step(m, Disconnected(id, first), backoff);
    assert d == ConnectWithRetries(m, backoff, first);
    var f := Run(d, Failed(first), backoff);
    FirstFailureScheduled(m, backoff, first);
    RetriesScheduled(m, f, starts, backoff);
    RunPair(s, ConnectSucceeded(id), Disconnected(id, first), backoff);
    RunAppend(s, [ConnectSucceeded(id), Disconnected(id, first)], Failed(first), backoff);
    RunAppend(s, [ConnectSucceeded(id), Disconnected(id, first)] + Failed(first), Retries(starts), backoff);
  }
}
