/**
 * `findAvailablePort` and the requested port of the server entry point
 * (server.ts): try to bind `startPort`, and on "address in use" move to the
 * next port, at most `maxAttempts` times; any other error gives up.
 *
 * Binding is the oracle `bind`, which tells what `listen` on a port would
 * do; the test server's close and the promise plumbing are left out.
 */
module PortSearch {
  import opened Optional
  import opened Strings
  import opened JsNumbers

  /** What listening on a port does. */
  datatype BindResult = Bound | AddressInUse | OtherError(code: string)

  /** How the search ends: with a free port, or rejected with the last error. */
  datatype Found = Resolved(port: int) | Rejected(error: BindResult)

  /** `maxAttempts = 10`. */
  const DefaultMaxAttempts: nat := 10

  /** The search from its `attempt`-th try on, at port `start + attempt`. */
  function SearchFrom(start: int, attempt: nat, maxAttempts: nat, bind: int -> BindResult): (r: Found)
    decreases maxAttempts - attempt
  {
    var port := start + attempt;
    match bind(port)
    case Bound => Resolved(port)
    case AddressInUse =>
      if attempt < maxAttempts then SearchFrom(start, attempt + 1, maxAttempts, bind) else Rejected(AddressInUse)
    case OtherError(code) => Rejected(OtherError(code))
  }

  /** `findAvailablePort(startPort, maxAttempts)`, with the recursion of `tryPort` as a loop over the shared counter. */
  method FindAvailablePort(startPort: int, maxAttempts: nat, bind: int -> BindResult) returns (r: Found)
    ensures r == SearchFrom(startPort, 0, maxAttempts, bind)
  {
    var attempt: nat := 0;
    var port := startPort;
    while true
      invariant attempt <= maxAttempts && port == startPort + attempt
      invariant SearchFrom(startPort, 0, maxAttempts, bind) == SearchFrom(startPort, attempt, maxAttempts, bind)
      decreases maxAttempts - attempt
    {
      var outcome := bind(port);
      if outcome.Bound? {
        return Resolved(port);
      } else if outcome.AddressInUse? && attempt < maxAttempts {
        attempt := attempt + 1;
        port := port + 1;
      } else {
        return Rejected(outcome);
      }
    }
  }

  /**
   * The search resolves to port p exactly when p is the first port from
   * `start` that binds, every port before it is in use, and p is at most
   * `start + maxAttempts`.
   */
  lemma {:induction false} ResolvedIff(start: int, attempt: nat, maxAttempts: nat, bind: int -> BindResult, p: int)
    requires attempt <= maxAttempts
    ensures SearchFrom(start, attempt, maxAttempts, bind) == Resolved(p) <==>
              && start + attempt <= p <= start + maxAttempts
              && bind(p) == Bound
              && forall q :: start + attempt <= q < p ==> bind(q) == AddressInUse
    decreases maxAttempts - attempt
  {
    var port := start + attempt;
    if bind(port) == AddressInUse && attempt < maxAttempts {
      ResolvedIff(start, attempt + 1, maxAttempts, bind, p);
    }
  }

  /**
   * A rejection carries the first error that is not "address in use", or
   * "address in use" itself when all `maxAttempts + 1` ports were taken.
   */
  lemma {:induction false} RejectedWhy(start: int, attempt: nat, maxAttempts: nat, bind: int -> BindResult)
    requires attempt <= maxAttempts
    ensures match SearchFrom(start, attempt, maxAttempts, bind)
            case Resolved(_) => true
            case Rejected(e) =>
              || (e == AddressInUse && forall q :: start + attempt <= q <= start + maxAttempts ==> bind(q) == AddressInUse)
              || (e.OtherError? && FirstFailure(start + attempt, start + maxAttempts, bind, e))
    decreases maxAttempts - attempt
  {
    var port := start + attempt;
    if bind(port) == AddressInUse && attempt < maxAttempts {
      RejectedWhy(start, attempt + 1, maxAttempts, bind);
    } else if bind(port).OtherError? {
      assert bind(port) == SearchFrom(start, attempt, maxAttempts, bind).error;
    }
  }

  /** Port p, between lo and hi, fails with e, and every port from lo up to p is in use. */
  ghost predicate FirstFailure(lo: int, hi: int, bind: int -> BindResult, e: BindResult)
  {
    exists p :: lo <= p <= hi && bind(p) == e && forall q :: lo <= q < p ==> bind(q) == AddressInUse
  }

  /** With the default of 10 attempts, at most 11 ports are tried. */
  lemma DefaultRange(start: int, bind: int -> BindResult)
    ensures SearchFrom(start, 0, DefaultMaxAttempts, bind).Resolved? ==>
              start <= SearchFrom(start, 0, DefaultMaxAttempts, bind).port <= start + 10
  {
    var r := SearchFrom(start, 0, DefaultMaxAttempts, bind);
    if r.Resolved? {
      ResolvedIff(start, 0, DefaultMaxAttempts, bind, r.port);
    }
  }

  /** `parseInt(process.env.PORT || '3000', 10)`; an empty variable counts as unset. */
  function RequestedPort(env: Option<string>): Option<int>
  {
    ParseInt(if env.Some? && env.value != "" then env.value else "3000")
  }

  /** Without PORT the server asks for port 3000. */
  lemma RequestedPortDefault(env: Option<string>)
    requires env.None? || env == Some("")
    ensures RequestedPort(env) == Some(3000)
  {
    assert NatToString(3) == "3";
    assert NatToString(30) == "30";
    assert NatToString(300) == "300";
    assert NatToString(3000) == "3000";
    ParseIntOfNat(3000);
  }
}
