/** The sliding-window limiter: at most so many requests of an address in any minute. */
module RateLimiter {
  /** One minute in nanoseconds. */
  const WINDOW := 60_000_000_000

  type Address = nat

  type Table = map<Address, seq<nat>>

  datatype Call = Call(ip: Address, now: nat)

  /** The times less than a window before `now`. */
  function Recent(times: seq<nat>, now: nat): seq<nat> {
    if |times| == 0 then []
    else
      var rest, t := Recent(times[..|times| - 1], now), times[|times| - 1];
      if now - t < WINDOW then rest + [t] else rest
  }

  function Times(table: Table, ip: Address): seq<nat> {
    if ip in table then table[ip] else []
  }

  function Allowed(table: Table, limit: nat, c: Call): bool {
    |Recent(Times(table, c.ip), c.now)| < limit
  }

  function Step(table: Table, limit: nat, c: Call): Table {
    var recent := Recent(Times(table, c.ip), c.now);
    table[c.ip := if Allowed(table, limit, c) then recent + [c.now] else recent]
  }

  // ---------------------------------------------------------------- histories

  function Run(limit: nat, calls: seq<Call>): Table {
    if |calls| == 0 then map[] else Step(Run(limit, calls[..|calls| - 1]), limit, calls[|calls| - 1])
  }

  /** Whether call `i` was let through. */
  function Answer(limit: nat, calls: seq<Call>, i: nat): bool
    requires i < |calls|
  {
    Allowed(Run(limit, calls[..i]), limit, calls[i])
  }

  /** When an address was let through, over the whole history. */
  function Granted(limit: nat, calls: seq<Call>, ip: Address): seq<nat> {
    if |calls| == 0 then []
    else
      var n := |calls| - 1;
      var rest := Granted(limit, calls[..n], ip);
      if calls[n].ip == ip && Allowed(Run(limit, calls[..n]), limit, calls[n]) then rest + [calls[n].now] else rest
  }

  predicate Monotone(calls: seq<Call>) {
    forall i, j :: 0 <= i < j < |calls| ==> calls[i].now <= calls[j].now
  }

  // ---------------------------------------------------------------- forgetting old times loses nothing

  lemma RecentSnoc(times: seq<nat>, t: nat, now: nat)
    ensures Recent(times + [t], now) == Recent(times, now) + if now - t < WINDOW then [t] else []
  {}

  lemma {:induction false} RecentTwice(times: seq<nat>, a: nat, b: nat)
    requires a <= b
    ensures Recent(Recent(times, a), b) == Recent(times, b)
  {
    if |times| > 0 {
      var rest, t := times[..|times| - 1], times[|times| - 1];
      RecentTwice(rest, a, b);
      RecentSnoc(Recent(rest, a), t, b);
    }
  }

  /** The table remembers all that still matters of the whole history. */
  lemma {:induction false} TableRemembers(limit: nat, calls: seq<Call>, ip: Address, now: nat)
    requires Monotone(calls) && forall i :: 0 <= i < |calls| ==> calls[i].now <= now
    ensures Recent(Times(Run(limit, calls), ip), now) == Recent(Granted(limit, calls, ip), now)
  {
    if |calls| > 0 {
      var n := |calls| - 1;
      var prev, c := calls[..n], calls[n];
      TableRemembers(limit, prev, ip, now);
      if c.ip == ip {
        var times := Times(Run(limit, prev), ip);
        RecentTwice(times, c.now, now);
        if Allowed(Run(limit, prev), limit, c) {
          RecentSnoc(Recent(times, c.now), c.now, now);
          RecentSnoc(Granted(limit, prev, ip), c.now, now);
        }
      }
    }
  }

  // ---------------------------------------------------------------- the limiter is exact

  /** A request is let through exactly when fewer than the limit were let through in the minute before it. */
  lemma AllowedExactlyWhen(limit: nat, calls: seq<Call>, i: nat)
    requires Monotone(calls) && i < |calls|
    ensures Answer(limit, calls, i) <==> |Recent(Granted(limit, calls[..i], calls[i].ip), calls[i].now)| < limit
  {
    TableRemembers(limit, calls[..i], calls[i].ip, calls[i].now);
  }

  /** Times from `start` on, for a minute. */
  function InWindow(times: seq<nat>, start: int): seq<nat> {
    if |times| == 0 then []
    else
      var rest, t := InWindow(times[..|times| - 1], start), times[|times| - 1];
      if start <= t < start + WINDOW then rest + [t] else rest
  }

  lemma {:induction false} WindowIsRecent(times: seq<nat>, start: int, now: nat)
    requires start <= now < start + WINDOW
    ensures |InWindow(times, start)| <= |Recent(times, now)|
  {
    if |times| > 0 {
      WindowIsRecent(times[..|times| - 1], start, now);
    }
  }

  /** No minute, wherever it starts, holds more than the limit of an address. */
  lemma {:induction false} NoWindowExceeds(limit: nat, calls: seq<Call>, ip: Address, start: int)
    requires Monotone(calls)
    ensures |InWindow(Granted(limit, calls, ip), start)| <= limit
  {
    if |calls| > 0 {
      var n := |calls| - 1;
      var prev, c := calls[..n], calls[n];
      NoWindowExceeds(limit, prev, ip, start);
      if c.ip == ip && Allowed(Run(limit, prev), limit, c) {
        var times := Granted(limit, prev, ip);
        assert (times + [c.now])[..|times|] == times;
        if start <= c.now < start + WINDOW {
          WindowIsRecent(times, start, c.now);
          TableRemembers(limit, prev, ip, c.now);
        }
      }
    }
  }

  /** A refusal therefore means that exactly the limit was let through in the minute before. */
  lemma RefusedMeansFull(limit: nat, calls: seq<Call>, i: nat)
    requires Monotone(calls) && i < |calls| && !Answer(limit, calls, i)
    ensures |Recent(Granted(limit, calls[..i], calls[i].ip), calls[i].now)| == limit
  {
    var now, times := calls[i].now, Granted(limit, calls[..i], calls[i].ip);
    AllowedExactlyWhen(limit, calls, i);
    NoWindowExceeds(limit, calls[..i], calls[i].ip, now - WINDOW + 1);
    GrantedBefore(limit, calls[..i], calls[i].ip, now);
    RecentIsWindow(times, now);
  }

  lemma {:induction false} GrantedBefore(limit: nat, calls: seq<Call>, ip: Address, now: nat)
    requires forall i :: 0 <= i < |calls| ==> calls[i].now <= now
    ensures forall t :: t in Granted(limit, calls, ip) ==> t <= now
  {
    if |calls| > 0 {
      GrantedBefore(limit, calls[..|calls| - 1], ip, now);
    }
  }

  lemma {:induction false} RecentIsWindow(times: seq<nat>, now: nat)
    requires forall t :: t in times ==> t <= now
    ensures Recent(times, now) == InWindow(times, now - WINDOW + 1)
  {
    if |times| > 0 {
      var prev, t := times[..|times| - 1], times[|times| - 1];
      assert t in times && forall u :: u in prev ==> u in times;
      RecentIsWindow(prev, now);
    }
  }

  // ---------------------------------------------------------------- the limiter itself

  class Limiter {
    var requests: Table
    const limit: nat
    /** Every call so far. */
    ghost var calls: seq<Call>

    ghost predicate Valid()
      reads this
    {
      limit >= 1 && requests == Run(limit, calls)
    }

    constructor (maxPerMinute: nat)
      ensures Valid() && calls == [] && limit == if maxPerMinute < 1 then 1 else maxPerMinute
    {
      requests := map[];
      limit := if maxPerMinute < 1 then 1 else maxPerMinute;
      calls := [];
    }

    method Allow(ip: Address, now: nat) returns (ok: bool)
      requires Valid()
      modifies this
      ensures Valid() && calls == old(calls) + [Call(ip, now)]
      ensures ok == Answer(limit, calls, |old(calls)|)
    {
      ghost var c := Call(ip, now);
      var times := Times(requests, ip);
      var kept: seq<nat> := [];
      for i := 0 to |times|
        invariant kept == Recent(times[..i], now)
      {
        assert times[..i + 1][..i] == times[..i];
        if now - times[i] < WINDOW {
          kept := kept + [times[i]];
        }
      }
      assert times[..|times|] == times;
      assert (calls + [c])[..|calls|] == calls;
      calls := calls + [c];
      if |kept| >= limit {
        requests := requests[ip := kept];
        return false;
      }
      requests := requests[ip := kept + [now]];
      ok := true;
    }
  }
}
