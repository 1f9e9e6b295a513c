/** `PortManager` (skyvern/webeye/browser_factory_optimizations.py:17-56):
    the set of debugging ports handed out to managed Chrome processes.
    The class-level set is one object here; the lock around each method
    makes each call one atomic step. */
module Ports {
  import opened Wrappers
  import opened Errors

  /** A port `random.choice(list(range(9222, 9999)))` can draw: 9999
      itself is not in the range. */
  type RangePort = p: int | 9222 <= p < 9999 witness 9222

  /** `get_available_port` draws at most this many ports. */
  const ProbeLimit: nat := 100

  const NoFreePortMessage: string := "无法找到可用的CDP端口"

  /** A drawn port is skipped when it is already handed out or when a
      connection to it on localhost succeeds. */
  predicate Busy(used: set<int>, inUse: int -> bool, p: int) {
    p in used || inUse(p)
  }

  class PortManager {
    var usedPorts: set<int>

    constructor()
      ensures usedPorts == {}
    {
      usedPorts := {};
    }

    /** `get_available_port`: `choose(k)` is the port drawn on probe `k`,
        `inUse(p)` whether something already listens on `p`. */
    method GetAvailablePort(choose: nat -> RangePort, inUse: int -> bool) returns (r: Result<int, Exc>)
      modifies this
      ensures r.Ok? ==>
        && 9222 <= r.value < 9999 && r.value !in old(usedPorts) && !inUse(r.value)
        && usedPorts == old(usedPorts) + {r.value}
        && exists k :: (0 <= k < ProbeLimit && choose(k) == r.value &&
             forall i :: 0 <= i < k ==> Busy(old(usedPorts), inUse, choose(i)))
      ensures r.Err? ==>
        && r.error == Raised(NoFreePortMessage) && usedPorts == old(usedPorts)
        && forall k :: 0 <= k < ProbeLimit ==> Busy(old(usedPorts), inUse, choose(k))
    {
      var k := 0;
      while k < ProbeLimit
        invariant 0 <= k <= ProbeLimit
        invariant usedPorts == old(usedPorts)
        invariant forall i :: 0 <= i < k ==> Busy(old(usedPorts), inUse, choose(i))
      {
        var port := choose(k);
        if port !in usedPorts && !inUse(port) {
          usedPorts := usedPorts + {port};
          return Ok(port as int);
        }
        k := k + 1;
      }
      return Err(Raised(NoFreePortMessage));
    }

    /** `release_port`: only the given port is given back; a port not held
        leaves the set as it is. */
    method ReleasePort(port: int)
      modifies this
      ensures usedPorts == old(usedPorts) - {port}
      ensures port !in old(usedPorts) ==> usedPorts == old(usedPorts)
    {
      usedPorts := usedPorts - {port};
    }
  }
}
