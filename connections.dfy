/** `CDPConnectionManager` (skyvern/webeye/browser_factory_optimizations.py:230-309):
    a cache of browser connections by CDP address, each with the time it
    was made, and a connection loop with exponential back-off. The clock
    is an integer parameter read once per call. */
module Connections {
  import opened Wrappers
  import opened PyStr
  import opened Errors

  type BrowserId = nat

  /** `_max_connection_age`, in seconds. */
  const MaxConnectionAge: int := 300

  function Pow2(n: nat): (r: nat)
    ensures r >= 1
  {
    if n == 0 then 1 else 2 * Pow2(n - 1)
  }

  /** The pauses after the first `n` failed attempts: 1, 2, 4, ... */
  function Backoff(n: nat): (r: seq<nat>)
    ensures |r| == n && forall i :: 0 <= i < n ==> r[i] == Pow2(i)
  {
    if n == 0 then [] else Backoff(n - 1) + [Pow2(n - 1)]
  }

  /** What the connection loop returns or raises, and the seconds it slept. */
  datatype Connection = Connection(result: Result<BrowserId, Exc>, sleeps: seq<nat>)

  function GiveUpMessage(maxRetries: nat): string {
    "CDP连接失败，已重试" + NatToString(maxRetries) + "次"
  }

  /** Attempt `k` of `maxRetries`; `connect(k)` is what `connect_over_cdp`
      (within its 30 second limit) produced on attempt `k`. */
  function ConnectFrom(maxRetries: nat, connect: nat -> Result<BrowserId, Exc>, k: nat): Connection
    decreases maxRetries - k
  {
    if k >= maxRetries then Connection(Err(Raised(GiveUpMessage(maxRetries))), [])
    else
      match connect(k)
      case Ok(b) => Connection(Ok(b), [])
      case Err(e) =>
        if k < maxRetries - 1 then
          var rest := ConnectFrom(maxRetries, connect, k + 1);
          Connection(rest.result, [Pow2(k)] + rest.sleeps)
        else Connection(Err(e), [])
  }

  lemma {:induction false} ConnectFromSucceeds(maxRetries: nat, connect: nat -> Result<BrowserId, Exc>, k: nat)
    requires k < maxRetries
    ensures ConnectFrom(maxRetries, connect, k).result.Ok? <==> exists j :: k <= j < maxRetries && connect(j).Ok?
    decreases maxRetries - k
  {
    if connect(k).Err? && k < maxRetries - 1 {
      ConnectFromSucceeds(maxRetries, connect, k + 1);
      if exists j :: k <= j < maxRetries && connect(j).Ok? {
        var j :| k <= j < maxRetries && connect(j).Ok?;
        assert j != k;
      }
    }
  }

  lemma {:induction false} ConnectFromFails(maxRetries: nat, connect: nat -> Result<BrowserId, Exc>, k: nat)
    requires k < maxRetries
    requires ConnectFrom(maxRetries, connect, k).result.Err?
    ensures connect(maxRetries - 1).Err?
    ensures ConnectFrom(maxRetries, connect, k).result.error == connect(maxRetries - 1).error
    ensures ConnectFrom(maxRetries, connect, k).sleeps == Backoff(maxRetries - 1)[k..]
    decreases maxRetries - k
  {
    if k < maxRetries - 1 {
      ConnectFromFails(maxRetries, connect, k + 1);
      assert Backoff(maxRetries - 1)[k..] == [Pow2(k)] + Backoff(maxRetries - 1)[k + 1..];
    }
  }

  lemma {:induction false} ConnectFromFirst(maxRetries: nat, connect: nat -> Result<BrowserId, Exc>, k: nat, j: nat)
    requires k <= j < maxRetries && connect(j).Ok?
    requires forall i :: k <= i < j ==> connect(i).Err?
    ensures ConnectFrom(maxRetries, connect, k) == Connection(Ok(connect(j).value), Backoff(j)[k..])
    decreases j - k
  {
    if k < j {
      ConnectFromStep(maxRetries, connect, k);
      ConnectFromFirst(maxRetries, connect, k + 1, j);
      BackoffFrom(j, k);
    } else {
      assert Backoff(j)[k..] == [];
    }
  }

  /** A failed attempt that is not the last pauses `2**k` seconds and goes on. */
  lemma ConnectFromStep(maxRetries: nat, connect: nat -> Result<BrowserId, Exc>, k: nat)
    requires k < maxRetries - 1 && connect(k).Err?
    ensures var rest := ConnectFrom(maxRetries, connect, k + 1);
      ConnectFrom(maxRetries, connect, k) == Connection(rest.result, [Pow2(k)] + rest.sleeps)
  {
  }

  lemma BackoffFrom(n: nat, k: nat)
    requires k < n
    ensures Backoff(n)[k..] == [Pow2(k)] + Backoff(n)[k + 1..]
  {
    var b := Backoff(n);
    assert b[k..][0] == b[k];
    assert b[k..][1..] == b[k + 1..];
  }

  /** The loop of `connect_with_retry`: with no attempts allowed it gives
      up at once; otherwise the first successful attempt wins after pauses
      of 1, 2, 4, ... seconds between failed attempts, and when all fail
      the last attempt's error is raised again. */
  lemma ConnectOutcome(maxRetries: nat, connect: nat -> Result<BrowserId, Exc>)
    ensures var c := ConnectFrom(maxRetries, connect, 0);
      && (maxRetries == 0 ==> c == Connection(Err(Raised(GiveUpMessage(0))), []))
      && (maxRetries > 0 ==> (c.result.Ok? <==> exists j :: 0 <= j < maxRetries && connect(j).Ok?))
      && (maxRetries > 0 && c.result.Err? ==>
            c.result == connect(maxRetries - 1) && c.sleeps == Backoff(maxRetries - 1))
      && (forall j :: 0 <= j < maxRetries && connect(j).Ok? && (forall i :: 0 <= i < j ==> connect(i).Err?) ==>
            c == Connection(connect(j), Backoff(j)))
  {
    var c := ConnectFrom(maxRetries, connect, 0);
    if maxRetries > 0 {
      ConnectFromSucceeds(maxRetries, connect, 0);
      if c.result.Err? {
        ConnectFromFails(maxRetries, connect, 0);
      }
      forall j | 0 <= j < maxRetries && connect(j).Ok? && (forall i :: 0 <= i < j ==> connect(i).Err?)
        ensures c == Connection(connect(j), Backoff(j))
      {
        ConnectFromFirst(maxRetries, connect, 0, j);
        assert Backoff(j)[0..] == Backoff(j);
      }
    }
  }

  /** `dict.get(key, default)` */
  function GetOr(m: map<string, int>, key: string, default: int): int {
    if key in m then m[key] else default
  }

  /** A cached connection is used while it is younger than five minutes. */
  predicate Fresh(connectedAt: map<string, int>, url: string, now: int) {
    now - GetOr(connectedAt, url, 0) < MaxConnectionAge
  }

  class CDPConnectionManager {
    var pool: map<string, BrowserId>
    var connectedAt: map<string, int>

    /** Both maps have the same addresses. */
    predicate Valid()
      reads this
    {
      pool.Keys == connectedAt.Keys
    }

    constructor()
      ensures Valid() && pool == map[] && connectedAt == map[]
    {
      pool := map[];
      connectedAt := map[];
    }

    /** `disconnect`: the address leaves both maps whether or not closing
        the browser succeeds; `closed` is the browser that was closed. */
    method Disconnect(url: string) returns (closed: Option<BrowserId>)
      modifies this
      ensures pool == old(pool) - {url} && connectedAt == old(connectedAt) - {url}
      ensures closed == if url in old(pool) then Some(old(pool)[url]) else None
      ensures old(Valid()) ==> Valid()
    {
      closed := if url in pool then Some(pool[url]) else None;
      pool := pool - {url};
      connectedAt := connectedAt - {url};
    }

    /** `connect_with_retry(playwright, url, max_retries)` at time `now`.
        A fresh cached connection is returned without any attempt; an
        expired one is closed first; a new connection is cached with the
        time `now`. */
    method ConnectWithRetry(url: string, maxRetries: nat, now: int, connect: nat -> Result<BrowserId, Exc>)
      returns (r: Result<BrowserId, Exc>, sleeps: seq<nat>, closed: Option<BrowserId>)
      modifies this
      ensures old(Valid()) ==> Valid()
      ensures url in old(pool) && Fresh(old(connectedAt), url, now) ==>
        r == Ok(old(pool)[url]) && sleeps == [] && closed == None &&
        pool == old(pool) && connectedAt == old(connectedAt)
      ensures !(url in old(pool) && Fresh(old(connectedAt), url, now)) ==>
        && Connection(r, sleeps) == ConnectFrom(maxRetries, connect, 0)
        && closed == (if url in old(pool) then Some(old(pool)[url]) else None)
        && (r.Ok? ==> pool == old(pool)[url := r.value] && connectedAt == old(connectedAt)[url := now])
        && (r.Err? ==> pool == old(pool) - {url} &&
                       connectedAt == if url in old(pool) then old(connectedAt) - {url} else old(connectedAt))
    {
      closed := None;
      if url in pool {
        if now - GetOr(connectedAt, url, 0) < MaxConnectionAge {
          return Ok(pool[url]), [], None;
        }
        closed := Disconnect(url);
      }
      r, sleeps := Attempts(maxRetries, connect);
      if r.Ok? {
        pool := pool[url := r.value];
        connectedAt := connectedAt[url := now];
      }
    }

    /** The `for attempt in range(max_retries)` loop of `connect_with_retry`. */
    method Attempts(maxRetries: nat, connect: nat -> Result<BrowserId, Exc>) returns (r: Result<BrowserId, Exc>, sleeps: seq<nat>)
      ensures Connection(r, sleeps) == ConnectFrom(maxRetries, connect, 0)
    {
      sleeps := [];
      var attempt := 0;
      while attempt < maxRetries
        invariant 0 <= attempt <= maxRetries
        invariant ConnectFrom(maxRetries, connect, 0) ==
          Connection(ConnectFrom(maxRetries, connect, attempt).result, sleeps + ConnectFrom(maxRetries, connect, attempt).sleeps)
      {
        var outcome := connect(attempt);
        if outcome.Ok? {
          assert sleeps + [] == sleeps;
          return Ok(outcome.value), sleeps;
        }
        if attempt >= maxRetries - 1 {
          assert sleeps + [] == sleeps;
          return Err(outcome.error), sleeps;
        }
        assert sleeps + ([Pow2(attempt)] + ConnectFrom(maxRetries, connect, attempt + 1).sleeps)
            == (sleeps + [Pow2(attempt)]) + ConnectFrom(maxRetries, connect, attempt + 1).sleeps;
        sleeps := sleeps + [Pow2(attempt)];
        attempt := attempt + 1;
      }
      assert sleeps + [] == sleeps;
      return Err(Raised(GiveUpMessage(maxRetries))), sleeps;
    }

    /** `disconnect_all`: every cached connection is closed and forgotten;
        `order` lists the cached addresses, and `closed` holds exactly the
        browsers that were cached. */
    method DisconnectAll(order: seq<string>) returns (closed: seq<BrowserId>)
      requires Valid()
      requires forall u :: u in order <==> u in pool
      modifies this
      ensures Valid() && pool == map[] && connectedAt == map[]
      ensures forall u :: u in old(pool) ==> old(pool)[u] in closed
      ensures forall i :: 0 <= i < |closed| ==> closed[i] in old(pool).Values
    {
      closed := [];
      var rest := order;
      while rest != []
        invariant Valid()
        invariant forall u :: u in pool ==> u in rest
        invariant forall u :: u in pool ==> u in old(pool) && pool[u] == old(pool)[u]
        invariant forall u :: u in old(pool) ==> u in pool || old(pool)[u] in closed
        invariant forall i :: 0 <= i < |closed| ==> closed[i] in old(pool).Values
        decreases |rest|
      {
        var c := Disconnect(rest[0]);
        if c.Some? {
          closed := closed + [c.value];
        }
        rest := rest[1..];
      }
    }
  }
}
