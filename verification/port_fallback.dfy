/** The server's port fallback (server.js:255-268): listen on a port, and on
    `EADDRINUSE` try the next one up; any other listen error ends the attempt
    without a bound port. */
module PortFallback {

  /** Why `listen` failed on a port. */
  datatype ListenError = AddressInUse | OtherError(code: string)

  /** How `startServer` ends: listening on a port, or stopped by another error. */
  datatype Startup = Listening(port: int) | Stopped(port: int, code: string)

  /** The default starting port when `PORT` is not set. */
  const DefaultPort := 3000

  /** The ports at or above `port` on which `listen` fails; the fallback
      only ever moves upwards through this finite set. */
  function FailingFrom(failures: map<int, ListenError>, port: int): set<int> {
    set p | p in failures && p >= port
  }

  /** Every port in [from, to) is busy with `EADDRINUSE`. */
  predicate AllBusy(failures: map<int, ListenError>, from: int, to: int) {
    forall p :: from <= p < to ==> p in failures && failures[p] == AddressInUse
  }

  /** `startServer(port)`: `failures` says how `listen` fails on each port
      that does not accept the server. */
  function StartServer(port: int, failures: map<int, ListenError>): (r: Startup)
    ensures r.port >= port
    ensures AllBusy(failures, port, r.port)
    ensures r.Listening? ==> r.port !in failures
    ensures r.Stopped? ==> r.port in failures && failures[r.port] == OtherError(r.code)
    decreases FailingFrom(failures, port)
  {
    if port !in failures then Listening(port)
    else
      match failures[port]
      case OtherError(code) => Stopped(port, code)
      case AddressInUse =>
        assert port in FailingFrom(failures, port) && port !in FailingFrom(failures, port + 1);
        assert FailingFrom(failures, port + 1) < FailingFrom(failures, port);
        StartServer(port + 1, failures)
  }

  /** The bound port is the least port at or above the start that is free:
      every port below it was busy, and no busy port is ever bound. */
  lemma BoundPortIsLeastFree(start: int, failures: map<int, ListenError>, q: int)
    requires q >= start && q !in failures
    requires forall p :: start <= p < q ==> p in failures
    requires forall p :: p in failures ==> failures[p] == AddressInUse
    ensures StartServer(start, failures) == Listening(q)
  {
  }

  /** Without any listen error other than `EADDRINUSE` the server always
      ends up listening. */
  lemma AlwaysBindsWithoutOtherErrors(start: int, failures: map<int, ListenError>)
    requires forall p :: p in failures ==> failures[p] == AddressInUse
    ensures StartServer(start, failures).Listening?
  {
  }

  /** With 3000, 3001 and 3002 taken, a server started on 3000 listens on 3003. */
  lemma ThreeBusyPorts()
    ensures StartServer(DefaultPort, map[3000 := AddressInUse, 3001 := AddressInUse, 3002 := AddressInUse])
      == Listening(3003)
  {
    var failures := map[3000 := AddressInUse, 3001 := AddressInUse, 3002 := AddressInUse];
    BoundPortIsLeastFree(3000, failures, 3003);
  }

  /** A non-`EADDRINUSE` error on the first free-looking port stops the
      fallback there, even when higher ports are free. */
  lemma OtherErrorStops(start: int, code: string)
    ensures StartServer(start, map[start := OtherError(code)]) == Stopped(start, code)
  {
  }
}
