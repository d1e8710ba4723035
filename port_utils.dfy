/**
 * Port conflict resolution: take the preferred port when it is free,
 * otherwise the first free port after it within the allowed range, never
 * an excluded one and never one above 65535.
 *
 * Whether a port from 0 to 65535 can be bound is the oracle `available`;
 * the host it is probed on is folded into that oracle. Binding a port
 * outside that range raises an `OverflowError` that the availability check
 * does not catch.
 */
module PortUtils {
  import opened Common
  import opened Strings

  const MaxPort := 65535

  /** A port `socket.bind` accepts without raising `OverflowError`. */
  predicate Bindable(port: int)
  {
    0 <= port <= MaxPort
  }

  /** Why `find_available_port` gives no port: the `RuntimeError` it raises, or the bind that overflows. */
  datatype PortError = NoPort(message: string) | BindOverflow(port: int)

  /** A port the sequential search accepts. */
  predicate Qualifies(port: int, exclude: seq<int>, available: int -> bool)
  {
    Bindable(port) && port !in exclude && available(port)
  }

  /**
   * A port at which the sequential search stops: at most 65535, not
   * excluded, and either free or below 0, where the bind raises.
   */
  predicate Stops(port: int, exclude: seq<int>, available: int -> bool)
  {
    port <= MaxPort && port !in exclude && (port < 0 || available(port))
  }

  /** The error `find_available_port` raises when no port is found. */
  function NoPortMessage(preferred: int, portRange: int): string
  {
    "No available port found in range " + IntToString(preferred) + "-" + IntToString(preferred + portRange)
  }

  /** The sequential search from `offset` to `portRange`: the first qualifying port, unless a bind raises first. */
  function SearchFrom(preferred: int, portRange: int, exclude: seq<int>, available: int -> bool, offset: int)
    : (r: Result<int, PortError>)
    decreases portRange + 1 - offset
  {
    if offset > portRange then Err(NoPort(NoPortMessage(preferred, portRange)))
    else
      var port := preferred + offset;
      if port > MaxPort then Err(NoPort(NoPortMessage(preferred, portRange)))
      else if port in exclude then SearchFrom(preferred, portRange, exclude, available, offset + 1)
      else if port < 0 then Err(BindOverflow(port))
      else if available(port) then Ok(port)
      else SearchFrom(preferred, portRange, exclude, available, offset + 1)
  }

  /** The ports the sequential search hands to the availability check from `offset` on. */
  function ProbesFrom(preferred: int, portRange: int, exclude: seq<int>, available: int -> bool, offset: int)
    : seq<int>
    decreases portRange + 1 - offset
  {
    if offset > portRange then []
    else
      var port := preferred + offset;
      if port > MaxPort then []
      else if port in exclude then ProbesFrom(preferred, portRange, exclude, available, offset + 1)
      else if port < 0 || available(port) then [port]
      else [port] + ProbesFrom(preferred, portRange, exclude, available, offset + 1)
  }

  /** What `find_available_port` returns, or the exception that escapes it. */
  function FindSpec(preferred: int, portRange: int, exclude: seq<int>, available: int -> bool)
    : Result<int, PortError>
  {
    if preferred !in exclude && !Bindable(preferred) then Err(BindOverflow(preferred))
    else if preferred !in exclude && available(preferred) then Ok(preferred)
    else SearchFrom(preferred, portRange, exclude, available, 1)
  }

  /** Every port `find_available_port` hands to the availability check, in order. */
  function Probes(preferred: int, portRange: int, exclude: seq<int>, available: int -> bool): seq<int>
  {
    if preferred in exclude then ProbesFrom(preferred, portRange, exclude, available, 1)
    else if !Bindable(preferred) || available(preferred) then [preferred]
    else [preferred] + ProbesFrom(preferred, portRange, exclude, available, 1)
  }

  /**
   * The sequential search ends at the first port from `offset` to
   * `portRange` where it stops: with that port when it is free, with the
   * overflowing bind when it is below 0, and with the range error exactly
   * when it stops nowhere; stopping at the first port above 65535 loses
   * nothing, because every later port is above it too.
   */
  lemma {:induction false} SearchFromSpec(preferred: int, portRange: int, exclude: seq<int>,
                                          available: int -> bool, offset: int)
    ensures var r := SearchFrom(preferred, portRange, exclude, available, offset);
      && (r.Ok? ==> preferred + offset <= r.value <= preferred + portRange
                    && Qualifies(r.value, exclude, available)
                    && forall p :: preferred + offset <= p < r.value ==> !Stops(p, exclude, available))
      && (r.Err? && r.error.BindOverflow? ==>
            var q := r.error.port;
            preferred + offset <= q <= preferred + portRange && q < 0 && q !in exclude
            && forall p :: preferred + offset <= p < q ==> !Stops(p, exclude, available))
      && (r.Err? && r.error.NoPort? <==>
            forall p :: preferred + offset <= p <= preferred + portRange ==> !Stops(p, exclude, available))
      && (r.Err? && r.error.NoPort? ==> r.error.message == NoPortMessage(preferred, portRange))
    decreases portRange + 1 - offset
  {
    if offset <= portRange {
      var port := preferred + offset;
      if port > MaxPort {
      } else if port in exclude || (0 <= port && !available(port)) {
        SearchFromSpec(preferred, portRange, exclude, available, offset + 1);
        assert !Stops(port, exclude, available);
      } else {
        assert Stops(port, exclude, available);
      }
    }
  }

  /**
   * The answer is the preferred port when it is not excluded and free, and
   * otherwise the first qualifying port after it within the range; it is
   * never excluded and lies between the preferred port and the end of the
   * range. A bind overflows on a preferred port outside 0..65535 that is not
   * excluded, or on a negative port the search reaches first; the range
   * error is raised exactly when neither happens and no port qualifies.
   */
  lemma FindSpecCorrect(preferred: int, portRange: int, exclude: seq<int>, available: int -> bool)
    ensures var r := FindSpec(preferred, portRange, exclude, available);
      && (preferred !in exclude && !Bindable(preferred) ==> r == Err(BindOverflow(preferred)))
      && (Qualifies(preferred, exclude, available) ==> r == Ok(preferred))
      && (r.Ok? ==> Qualifies(r.value, exclude, available))
      && (r.Ok? ==> r.value == preferred || preferred < r.value <= preferred + portRange)
      && (r.Ok? && r.value != preferred ==>
            forall p :: preferred < p < r.value ==> !Stops(p, exclude, available))
      && (r.Err? && r.error.BindOverflow? ==>
            var q := r.error.port;
            q !in exclude && !Bindable(q)
            && (q == preferred || (preferred < q <= preferred + portRange && q < 0
                                   && forall p :: preferred < p < q ==> !Stops(p, exclude, available))))
      && (r.Err? && r.error.NoPort? <==>
            (preferred in exclude || (Bindable(preferred) && !available(preferred)))
            && forall p :: preferred < p <= preferred + portRange ==> !Stops(p, exclude, available))
      && (r.Err? && r.error.NoPort? ==> r.error.message == NoPortMessage(preferred, portRange))
  {
    SearchFromSpec(preferred, portRange, exclude, available, 1);
  }

  /** Each port the sequential search probes is after the preferred one, in the range, at most 65535 and not excluded. */
  lemma {:induction false} ProbesFromBounded(preferred: int, portRange: int, exclude: seq<int>,
                                             available: int -> bool, offset: int)
    requires offset >= 1
    ensures forall k :: 0 <= k < |ProbesFrom(preferred, portRange, exclude, available, offset)| ==>
      var p := ProbesFrom(preferred, portRange, exclude, available, offset)[k];
      preferred + offset <= p <= preferred + portRange && p <= MaxPort && p !in exclude
    decreases portRange + 1 - offset
  {
    if offset <= portRange && preferred + offset <= MaxPort {
      ProbesFromBounded(preferred, portRange, exclude, available, offset + 1);
    }
  }

  /**
   * The availability check is never asked about an excluded port, and never
   * about a port above 65535 other than the preferred one.
   */
  lemma ProbesBounded(preferred: int, portRange: int, exclude: seq<int>, available: int -> bool)
    ensures forall k :: 0 <= k < |Probes(preferred, portRange, exclude, available)| ==>
      var p := Probes(preferred, portRange, exclude, available)[k];
      p !in exclude && (p == preferred || (preferred < p <= preferred + portRange && p <= MaxPort))
  {
    ProbesFromBounded(preferred, portRange, exclude, available, 1);
  }

  /** `find_available_port`, with the ports it hands to the availability check. */
  method FindAvailablePort(preferred: int, portRange: int, exclude: seq<int>, available: int -> bool)
    returns (r: Result<int, PortError>, probed: seq<int>)
    ensures r == FindSpec(preferred, portRange, exclude, available)
    ensures probed == Probes(preferred, portRange, exclude, available)
  {
    var head: seq<int> := [];
    if preferred !in exclude {
      head := [preferred];
      if !Bindable(preferred) {
        return Err(BindOverflow(preferred)), head;
      }
      if available(preferred) {
        return Ok(preferred), head;
      }
    }
    probed := head;
    var offset := 1;
    while offset <= portRange
      invariant 1 <= offset && (offset <= portRange + 1 || offset == 1)
      invariant SearchFrom(preferred, portRange, exclude, available, offset)
             == SearchFrom(preferred, portRange, exclude, available, 1)
      invariant probed + ProbesFrom(preferred, portRange, exclude, available, offset)
             == head + ProbesFrom(preferred, portRange, exclude, available, 1)
      decreases portRange + 1 - offset
    {
      var port := preferred + offset;
      if port > MaxPort {
        break;
      }
      if port in exclude {
        offset := offset + 1;
        continue;
      }
      probed := probed + [port];
      if port < 0 {
        return Err(BindOverflow(port)), probed;
      }
      if available(port) {
        return Ok(port), probed;
      }
      offset := offset + 1;
    }
    assert ProbesFrom(preferred, portRange, exclude, available, offset) == [];
    assert head + ProbesFrom(preferred, portRange, exclude, available, 1) == Probes(preferred, portRange, exclude, available);
    return Err(NoPort(NoPortMessage(preferred, portRange))), probed;
  }

  /** The part of `get_port_info` that does not depend on `lsof`. */
  datatype PortInfo = PortInfo(port: int, host: string, available: bool, status: string)

  /**
   * `get_port_info`, `None` when the availability check's bind overflows:
   * the status is "available" exactly when the port is, and "in_use"
   * otherwise.
   */
  function GetPortInfo(port: int, host: string, available: int -> bool): (r: Option<PortInfo>)
    ensures r.None? <==> !Bindable(port)
    ensures r.Some? ==> r.value.port == port && r.value.host == host && r.value.available == available(port)
    ensures r.Some? ==> (r.value.status == "available" <==> available(port))
    ensures r.Some? ==> (r.value.status == "in_use" <==> !available(port))
  {
    if !Bindable(port) then None
    else
      var free := available(port);
      Some(PortInfo(port, host, free, if free then "available" else "in_use"))
  }
}
