/**
 * `find_available_port`: probe ports upward from a start port and return the
 * first one on which a loopback bind succeeds. Whether a bind succeeds is the
 * environment's business; here it is the set `occupied` of ports whose bind
 * fails at the time of the probe.
 */
module PortSearch {
  import opened Wrappers
  import opened PortText

  /** The lowest port at or above `start` that is not occupied, if there is one. */
  function LowestFree(start: Port, occupied: set<Port>): (r: Option<Port>)
    ensures r.Some? ==> start <= r.value && r.value !in occupied
    ensures r.Some? ==> forall p: Port :: start <= p < r.value ==> p in occupied
    ensures r.None? <==> forall p: Port :: start <= p ==> p in occupied
    decreases MAX_PORT - start
  {
    if start !in occupied then Some(start)
    else if start == MAX_PORT then None
    else LowestFree(start + 1, occupied)
  }

  /**
   * The search with the counter wide enough for its guard to mean something:
   * it gives up, with `None`, once every port from `start` to 65535 is taken.
   */
  method FindAvailablePort(start: Port, occupied: set<Port>) returns (r: Option<Port>)
    ensures r == LowestFree(start, occupied)
  {
    var port: int := start;
    while port <= MAX_PORT
      invariant start <= port <= MAX_PORT + 1
      invariant port <= MAX_PORT ==> LowestFree(start, occupied) == LowestFree(port, occupied)
      invariant port > MAX_PORT ==> LowestFree(start, occupied) == None
      decreases MAX_PORT + 1 - port
    {
      if port !in occupied {
        return Some(port);
      }
      port := port + 1;
    }
    return None;
  }

  /** What the loop as written can end in. */
  datatype Probe =
    | Found(port: Port)
    | OverflowPanic   // `port += 1` on a `u16` holding 65535, in a debug build
    | NotFound        // the `None` after the loop

  /**
   * The loop as written, in a debug build: `port` and `max_port` are both
   * `u16`, so the guard `port <= max_port` never fails and the increment past
   * 65535 panics before the loop can end.
   */
  method FindAvailablePortAsWritten(start: Port, occupied: set<Port>) returns (r: Probe)
    ensures r != NotFound
    ensures r.Found? ==> LowestFree(start, occupied) == Some(r.port)
    ensures r == OverflowPanic <==> LowestFree(start, occupied) == None
  {
    var port: Port := start;
    var maxPort: Port := MAX_PORT;
    while port <= maxPort
      invariant start <= port
      invariant LowestFree(start, occupied) == LowestFree(port, occupied)
      decreases MAX_PORT - port
    {
      if port !in occupied {
        return Found(port);
      }
      if port == MAX_PORT {
        return OverflowPanic;
      }
      port := port + 1;
    }
    return NotFound;
  }

  /** An exhausted range: with 65535 taken, a search from 65535 finds nothing, and the loop as written panics. */
  lemma LastPortTakenExample()
    ensures LowestFree(MAX_PORT, {MAX_PORT}) == None
    ensures LowestFree(MAX_PORT - 1, {MAX_PORT}) == Some(MAX_PORT - 1)
  {
  }

  /**
   * The port probed after `k` increments from `start` when the increment wraps
   * from 65535 to 0, as `+=` on a `u16` does in a release build.
   */
  function Probed(start: Port, k: nat): (p: Port)
    requires k <= MAX_PORT + 1
  {
    if start + k <= MAX_PORT then start + k else start + k - (MAX_PORT + 1)
  }

  /** How many wrapping increments lead from `start` to `q`. */
  function Distance(start: Port, q: Port): (d: nat)
    ensures d <= MAX_PORT && Probed(start, d) == q
    ensures forall k :: 0 <= k < d ==> Probed(start, k) != q
  {
    if start <= q then q - start else q + (MAX_PORT + 1) - start
  }

  /**
   * The loop as written, in a release build: the increment past 65535 wraps
   * to 0 and probing goes on from there, so the loop ends only when some port,
   * possibly one below `start`, is free; with every port taken it never ends,
   * which is why this method requires a free port.
   */
  method FindAvailablePortWrapping(start: Port, occupied: set<Port>) returns (q: Port)
    requires exists p: Port :: p !in occupied
    ensures q !in occupied
    ensures forall k :: 0 <= k < Distance(start, q) ==> Probed(start, k) in occupied
  {
    ghost var free: Port :| free !in occupied;
    var port: Port := start;
    var maxPort: Port := MAX_PORT;
    ghost var steps: nat := 0;
    while port <= maxPort
      invariant steps <= Distance(start, free)
      invariant port == Probed(start, steps)
      invariant forall k :: 0 <= k < steps ==> Probed(start, k) in occupied
      decreases Distance(start, free) - steps
    {
      if port !in occupied {
        assert Distance(start, port) == steps;
        return port;
      }
      port := if port == MAX_PORT then 0 else port + 1;
      steps := steps + 1;
    }
    return port;
  }

  /**
   * Unlike the intended search, the wrapping one can end below `start`: with
   * only 65535 taken, a search from 65535 ends at port 0 and nowhere else.
   */
  lemma WrappingBelowStartExample(q: Port)
    ensures (q !in {MAX_PORT} &&
             forall k :: 0 <= k < Distance(MAX_PORT, q) ==> Probed(MAX_PORT, k) in {MAX_PORT})
        <==> q == 0
  {
    if q != 0 && q != MAX_PORT {
      assert Probed(MAX_PORT, 1) !in {MAX_PORT};
    }
  }
}
