/** The pause between two fetches from one host, which a lock held while sleeping enforces. */
module DomainPacing {
  import opened Common
  import RateLimiter

  /** A call of waitDomain: the host, the clock when it holds the lock, and how much it oversleeps. */
  datatype Call = Call(host: Option<string>, now: int, slack: nat)

  /** The clock when the call is through. */
  function Through(hits: map<string, int>, interval: int, c: Call): int {
    if c.host.None? then c.now
    else if c.host.value in hits then Max(c.now, hits[c.host.value] + interval) + c.slack
    else c.now + c.slack
  }

  function AfterCall(hits: map<string, int>, interval: int, c: Call): map<string, int> {
    if c.host.None? then hits else hits[c.host.value := Through(hits, interval, c)]
  }

  function Hits(interval: int, calls: seq<Call>): map<string, int> {
    if calls == [] then map[] else AfterCall(Hits(interval, calls[..|calls| - 1]), interval, calls[|calls| - 1])
  }

  /** When the fetches from this host started, in order. */
  function Starts(interval: int, calls: seq<Call>, host: string): seq<int> {
    if calls == [] then [] else
    var front, last := calls[..|calls| - 1], calls[|calls| - 1];
    Starts(interval, front, host)
    + if last.host == Some(host) then [Through(Hits(interval, front), interval, last)] else []
  }

  /** The last start is what is remembered of the host. */
  lemma {:induction false} LastStart(interval: int, calls: seq<Call>, host: string)
    ensures var starts, hits := Starts(interval, calls, host), Hits(interval, calls);
      if starts == [] then host !in hits else host in hits && hits[host] == starts[|starts| - 1]
  {
    if calls != [] {
      LastStart(interval, calls[..|calls| - 1], host);
    }
  }

  /**
   A fetch starts as soon as its call holds the lock and an interval has passed since the last start from the
   same host, but for its own oversleeping; calls for other hosts change nothing.
   */
  lemma StartIs(interval: int, calls: seq<Call>, c: Call, host: string)
    ensures var before, after := Starts(interval, calls, host), Starts(interval, calls + [c], host);
      if c.host != Some(host) then after == before
      else if before == [] || before[|before| - 1] + interval <= c.now then after == before + [c.now + c.slack]
      else after == before + [before[|before| - 1] + interval + c.slack]
  {
    LastStart(interval, calls, host);
    assert (calls + [c])[..|calls|] == calls;
    assert Starts(interval, calls, host) + [] == Starts(interval, calls, host);
  }

  lemma {:induction false} StartsSpaced(interval: int, calls: seq<Call>, host: string)
    ensures RateLimiter.Spaced(Starts(interval, calls, host), interval)
  {
    if calls != [] {
      StartsSpaced(interval, calls[..|calls| - 1], host);
      LastStart(interval, calls[..|calls| - 1], host);
    }
  }

  /** In any period of the given length at most length/interval + 1 fetches from one host start. */
  lemma HostBound(interval: int, calls: seq<Call>, host: string, since: int, length: nat)
    requires interval > 0
    ensures RateLimiter.InWindow(Starts(interval, calls, host), since, since + length) <= length / interval + 1
  {
    StartsSpaced(interval, calls, host);
    RateLimiter.SpacedWindow(Starts(interval, calls, host), interval, since, length);
  }
}
