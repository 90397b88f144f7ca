/**
  The connection handle the reconnecting client holds: either the
  stateless not-connected stand-in or one live connection.
  The live connection's own behaviour is external and is consulted
  through a `Transport`.
 */
module Handles {

  /** `NotConnected` is the shared stand-in; `Active(id)` names one live connection. */
  datatype Handle = NotConnected | Active(id: nat)

  /** What each live connection currently reports about itself. */
  datatype Transport = Transport(
    connected: nat -> bool,
    totalConnections: nat -> int,
    activeConnections: nat -> int)

  /** Where a request ends up: failed at once for lack of a connection, or handed to a live one. */
  datatype Dispatch<R> = RejectedNotConnected(request: R) | Forwarded(handle: nat, request: R)

  function HandleSend<R>(h: Handle, request: R): Dispatch<R>
  {
    match h
    case NotConnected => RejectedNotConnected(request)
    case Active(id) => Forwarded(id, request)
  }

  function HandleIsConnected(h: Handle, t: Transport): bool
  {
    match h
    case NotConnected => false
    case Active(id) => t.connected(id)
  }

  function HandleTotalConnections(h: Handle, t: Transport): int
  {
    match h
    case NotConnected => 0
    case Active(id) => t.totalConnections(id)
  }

  function HandleActiveConnections(h: Handle, t: Transport): int
  {
    match h
    case NotConnected => 0
    case Active(id) => t.activeConnections(id)
  }
}
