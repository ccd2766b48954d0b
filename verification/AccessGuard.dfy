/** The fixed-window request guard of the stealth service. */
module AccessGuard {
  import opened Common

  const MINUTE := 60_000_000_000

  datatype Guard = Guard(windowStart: int, counts: map<string, nat>)

  datatype Call = Call(now: int, ip: string)

  function CountOf(g: Guard, ip: string): nat {
    if ip in g.counts then g.counts[ip] else 0
  }

  predicate Resets(g: Guard, c: Call) {
    c.now - g.windowStart >= MINUTE
  }

  function Step(g: Guard, c: Call): Guard {
    var current := if Resets(g, c) then Guard(c.now, map[]) else g;
    current.(counts := current.counts[c.ip := CountOf(current, c.ip) + 1])
  }

  class StealthAccessGuard {
    var windowStart: int
    var counts: map<string, nat>

    function View(): Guard
      reads this
    {
      Guard(windowStart, counts)
    }

    constructor (now: int)
      ensures View() == Guard(now, map[])
    {
      windowStart, counts := now, map[];
    }

    /** limit is the environment's rate per minute; a rate of zero turns the guard off. */
    method Allow(now: int, ip: string, limit: int) returns (ok: bool)
      modifies this
      ensures limit <= 0 ==> ok && View() == old(View())
      ensures limit > 0 ==> View() == Step(old(View()), Call(now, ip)) && ok == (CountOf(View(), ip) <= limit)
    {
      if limit <= 0 {
        return true;
      }
      if now - windowStart >= MINUTE {
        windowStart := now;
        counts := map[];
      }
      counts := counts[ip := (if ip in counts then counts[ip] else 0) + 1];
      return counts[ip] <= limit;
    }
  }

  // ---- Runs of calls ----

  function After(start: int, calls: seq<Call>): Guard {
    if calls == [] then Guard(start, map[]) else Step(After(start, calls[..|calls| - 1]), calls[|calls| - 1])
  }

  /** Whether call k was allowed. */
  predicate Admitted(start: int, limit: int, calls: seq<Call>, k: nat)
    requires k < |calls|
  {
    CountOf(After(start, calls[..k + 1]), calls[k].ip) <= limit
  }

  /**
   Calls in the order in which they get hold of the guard. Each has read the clock before that, so a
   reading may be up to skew behind one that was served earlier; skew is zero for calls one at a time.
   */
  ghost predicate Skewed(start: int, skew: nat, calls: seq<Call>) {
    && (forall i :: 0 <= i < |calls| ==> start - skew <= calls[i].now)
    && (forall i, j :: 0 <= i < j < |calls| ==> calls[i].now - skew <= calls[j].now)
  }

  // ---- Inside one window ----

  /** The window that call k falls into. */
  function WindowOf(start: int, calls: seq<Call>, k: nat): int
    requires k < |calls|
  {
    After(start, calls[..k + 1]).windowStart
  }

  /** How many calls from this address, among the first n, fall into the window. */
  function InWindow(start: int, calls: seq<Call>, n: nat, ip: string, window: int): nat
    requires n <= |calls|
  {
    if n == 0 then 0 else
    var here := calls[n - 1].ip == ip && WindowOf(start, calls, n - 1) == window;
    InWindow(start, calls, n - 1, ip, window) + if here then 1 else 0
  }

  lemma AfterStep(start: int, calls: seq<Call>, k: nat)
    requires k < |calls|
    ensures After(start, calls[..k + 1]) == Step(After(start, calls[..k]), calls[k])
  {
    assert calls[..k + 1][..k] == calls[..k];
  }

  /** A call a minute or more after the start of the window opens the next one, and no other call does. */
  lemma WindowRolls(start: int, calls: seq<Call>, k: nat)
    requires k < |calls|
    ensures var last := if k == 0 then start else WindowOf(start, calls, k - 1);
      WindowOf(start, calls, k) == if calls[k].now >= last + 60_000_000_000 then calls[k].now else last
  {
    AfterStep(start, calls, k);
    assert calls[..0] == [];
  }

  /** A later window has not been used yet. */
  lemma {:induction false} NothingAhead(start: int, calls: seq<Call>, n: nat, ip: string, window: int)
    requires n <= |calls| && After(start, calls[..n]).windowStart < window
    ensures InWindow(start, calls, n, ip, window) == 0
  {
    if n > 0 {
      AfterStep(start, calls, n - 1);
      NothingAhead(start, calls, n - 1, ip, window);
    }
  }

  /** The counter is the number of calls from the address in the current window. */
  lemma {:induction false} CountIsWindowCount(start: int, calls: seq<Call>, n: nat, ip: string)
    requires n <= |calls|
    ensures var g := After(start, calls[..n]); CountOf(g, ip) == InWindow(start, calls, n, ip, g.windowStart)
  {
    if n > 0 {
      var before := After(start, calls[..n - 1]);
      AfterStep(start, calls, n - 1);
      CountIsWindowCount(start, calls, n - 1, ip);
      if Resets(before, calls[n - 1]) {
        NothingAhead(start, calls, n - 1, ip, calls[n - 1].now);
      }
    }
  }

  /** Inside one window exactly the first limit calls of an address are admitted. */
  lemma FirstLimitAdmitted(start: int, limit: int, calls: seq<Call>, k: nat)
    requires k < |calls|
    ensures Admitted(start, limit, calls, k)
      <==> InWindow(start, calls, k + 1, calls[k].ip, WindowOf(start, calls, k)) <= limit
  {
    CountIsWindowCount(start, calls, k + 1, calls[k].ip);
  }

  // ---- Inside any minute ----

  /** How many of the first n calls come from the address in the minute from the given time and are admitted. */
  function AdmittedIn(start: int, limit: int, calls: seq<Call>, n: nat, ip: string, from: int): nat
    requires n <= |calls|
  {
    if n == 0 then 0 else
    var c := calls[n - 1];
    var counts := c.ip == ip && from <= c.now < from + MINUTE && Admitted(start, limit, calls, n - 1);
    AdmittedIn(start, limit, calls, n - 1, ip, from) + if counts then 1 else 0
  }

  lemma CountStep(g: Guard, c: Call, ip: string)
    ensures CountOf(Step(g, c), ip) == (if Resets(g, c) then 0 else CountOf(g, ip)) + if c.ip == ip then 1 else 0
    ensures Step(g, c).windowStart == if Resets(g, c) then c.now else g.windowStart
  {
  }

  lemma AdmittedStep(start: int, limit: int, calls: seq<Call>, k: nat)
    requires k < |calls|
    ensures Admitted(start, limit, calls, k)
      <==> CountOf(Step(After(start, calls[..k]), calls[k]), calls[k].ip) <= limit
  {
    AfterStep(start, calls, k);
  }

  /** How many windows can have admitted requests of the minute before the one that starts at the given time. */
  function Earlier(skew: nat, from: int, window: int): nat {
    if window <= from then 0 else if window <= from + MINUTE || skew == 0 then 1 else 2
  }

  /**
   A minute meets the window it starts in, the one that starts in it and, with late calls, one more: what
   holds of the a requests admitted in it when the current window and count are these.
   */
  ghost predicate FewWindows(limit: int, skew: nat, from: int, window: int, count: nat, a: nat) {
    && a <= Windows(skew) * limit
    && (window <= from - MINUTE ==> a == 0)
    && (window < from + MINUTE + skew ==> a <= Earlier(skew, from, window) * limit + Min(limit, count))
  }

  /** In how many windows the requests of one minute can be served. */
  function Windows(skew: nat): nat {
    if skew == 0 then 2 else 3
  }

  lemma FewWindowsStep(limit: int, skew: nat, from: int, g: Guard, c: Call, ip: string, a: nat)
    requires limit > 0 && skew <= MINUTE && g.windowStart - skew <= c.now
    requires FewWindows(limit, skew, from, g.windowStart, CountOf(g, ip), a)
    ensures var h := Step(g, c);
      var counts := c.ip == ip && from <= c.now < from + MINUTE && CountOf(h, ip) <= limit;
      FewWindows(limit, skew, from, h.windowStart, CountOf(h, ip), a + if counts then 1 else 0)
  {
    CountStep(g, c, ip);
  }

  ghost predicate FewWindowsAt(start: int, limit: int, skew: nat, calls: seq<Call>, n: nat, ip: string, from: int)
    requires n <= |calls|
  {
    var g := After(start, calls[..n]);
    FewWindows(limit, skew, from, g.windowStart, CountOf(g, ip), AdmittedIn(start, limit, calls, n, ip, from))
  }

  lemma FewWindowsNext(start: int, limit: int, skew: nat, calls: seq<Call>, k: nat, ip: string, from: int)
    requires limit > 0 && skew <= MINUTE && k < |calls| && After(start, calls[..k]).windowStart - skew <= calls[k].now
    requires FewWindowsAt(start, limit, skew, calls, k, ip, from)
    ensures FewWindowsAt(start, limit, skew, calls, k + 1, ip, from)
  {
    AfterStep(start, calls, k);
    AdmittedStep(start, limit, calls, k);
    FewWindowsStep(limit, skew, from, After(start, calls[..k]), calls[k], ip,
                   AdmittedIn(start, limit, calls, k, ip, from));
  }

  /** A window starts with the guard or with an earlier call. */
  lemma {:induction false} WindowStarts(start: int, calls: seq<Call>, n: nat)
    requires n <= |calls|
    ensures var w := After(start, calls[..n]).windowStart;
      w == start || exists i :: 0 <= i < n && calls[i].now == w
  {
    if n > 0 {
      WindowStarts(start, calls, n - 1);
      AfterStep(start, calls, n - 1);
    }
  }

  lemma {:induction false} FewWindowsHold(
    start: int, limit: int, skew: nat, calls: seq<Call>, n: nat, ip: string, from: int)
    requires limit > 0 && skew <= MINUTE && n <= |calls| && Skewed(start, skew, calls)
    ensures FewWindowsAt(start, limit, skew, calls, n, ip, from)
  {
    if n > 0 {
      FewWindowsHold(start, limit, skew, calls, n - 1, ip, from);
      WindowStarts(start, calls, n - 1);
      FewWindowsNext(start, limit, skew, calls, n - 1, ip, from);
    }
  }

  /**
   In any half-open minute at most 2*limit requests of one address are admitted when calls are served in
   the order of their clock readings, and at most 3*limit when readings come up to a minute late.
   */
  lemma MinuteBound(start: int, limit: int, skew: nat, calls: seq<Call>, ip: string, from: int)
    requires limit > 0 && skew <= MINUTE && Skewed(start, skew, calls)
    ensures AdmittedIn(start, limit, calls, |calls|, ip, from) <= if skew == 0 then 2 * limit else 3 * limit
  {
    FewWindowsHold(start, limit, skew, calls, |calls|, ip, from);
  }

  // ---- The bound is reached ----

  /** limit calls just before a window ends, and limit calls just after. */
  function Burst(start: int, limit: nat, ip: string): seq<Call> {
    seq(2 * limit, i requires 0 <= i => Call(if i < limit then start + MINUTE - 1 else start + MINUTE, ip))
  }

  lemma {:induction false} BurstAdmitted(start: int, limit: nat, ip: string, n: nat)
    requires n <= 2 * limit
    ensures var calls := Burst(start, limit, ip);
      var g := After(start, calls[..n]);
      && AdmittedIn(start, limit, calls, n, ip, start + MINUTE - 1) == n
      && g.windowStart == (if n <= limit then start else start + MINUTE)
      && CountOf(g, ip) == if n <= limit then n else n - limit
  {
    if n > 0 {
      var calls := Burst(start, limit, ip);
      BurstAdmitted(start, limit, ip, n - 1);
      AfterStep(start, calls, n - 1);
      AdmittedStep(start, limit, calls, n - 1);
      CountStep(After(start, calls[..n - 1]), calls[n - 1], ip);
    }
  }

  /** Two bursts around the end of a window get 2*limit requests through within two clock ticks. */
  lemma MinuteBoundIsTight(start: int, limit: nat, ip: string)
    ensures exists calls, from ::
      Skewed(start, 0, calls) && AdmittedIn(start, limit, calls, |calls|, ip, from) == 2 * limit
  {
    BurstAdmitted(start, limit, ip, 2 * limit);
    var calls := Burst(start, limit, ip);
    assert Skewed(start, 0, calls);
    assert AdmittedIn(start, limit, calls, |calls|, ip, start + MINUTE - 1) == 2 * limit;
  }

  /** The same bursts, and then another one whose clock readings are older than a window that someone else began. */
  function LateCall(start: int, limit: nat, ip: string, other: string, i: nat): Call {
    if i < limit then Call(start + MINUTE - 1, ip)
    else if i < 2 * limit then Call(start + MINUTE, ip)
    else if i == 2 * limit then Call(start + 2 * MINUTE, other)
    else Call(start + 2 * MINUTE - 2, ip)
  }

  function LateBurst(start: int, limit: nat, ip: string, other: string): seq<Call> {
    seq(3 * limit + 1, i requires 0 <= i => LateCall(start, limit, ip, other, i))
  }

  /** The guard after n of these calls, with a of them from the address admitted. */
  ghost predicate LateState(start: int, limit: nat, n: nat, g: Guard, ip: string, a: nat) {
    && a == (if n <= 2 * limit then n else n - 1)
    && g.windowStart == (if n <= limit then start else if n <= 2 * limit then start + MINUTE else start + 2 * MINUTE)
    && CountOf(g, ip) == if n <= limit then n else if n <= 2 * limit then n - limit else n - 2 * limit - 1
  }

  lemma LateStep(start: int, limit: nat, n: nat, g: Guard, ip: string, other: string, a: nat)
    requires 0 < limit && n <= 3 * limit && ip != other && LateState(start, limit, n, g, ip, a)
    ensures var c := LateCall(start, limit, ip, other, n); var h := Step(g, c);
      var from := start + MINUTE - 1;
      var counts := c.ip == ip && from <= c.now < from + MINUTE && CountOf(h, ip) <= limit;
      LateState(start, limit, n + 1, h, ip, a + if counts then 1 else 0)
  {
    CountStep(g, LateCall(start, limit, ip, other, n), ip);
  }

  ghost predicate LateAt(start: int, limit: nat, calls: seq<Call>, n: nat, ip: string)
    requires n <= |calls|
  {
    LateState(start, limit, n, After(start, calls[..n]), ip, AdmittedIn(start, limit, calls, n, ip, start + MINUTE - 1))
  }

  lemma LateNext(start: int, limit: nat, ip: string, other: string, calls: seq<Call>, k: nat)
    requires 0 < limit && k <= 3 * limit && ip != other && k < |calls|
    requires calls[k] == LateCall(start, limit, ip, other, k) && LateAt(start, limit, calls, k, ip)
    ensures LateAt(start, limit, calls, k + 1, ip)
  {
    AfterStep(start, calls, k);
    AdmittedStep(start, limit, calls, k);
    LateStep(start, limit, k, After(start, calls[..k]), ip, other,
             AdmittedIn(start, limit, calls, k, ip, start + MINUTE - 1));
  }

  lemma {:induction false} LateBurstAdmitted(
    start: int, limit: nat, ip: string, other: string, calls: seq<Call>, n: nat)
    requires 0 < limit && ip != other && n <= |calls| == 3 * limit + 1
    requires forall k :: 0 <= k < |calls| ==> calls[k] == LateCall(start, limit, ip, other, k)
    ensures LateAt(start, limit, calls, n, ip)
  {
    if n > 0 {
      LateBurstAdmitted(start, limit, ip, other, calls, n - 1);
      LateNext(start, limit, ip, other, calls, n - 1);
    }
  }

  /** Readings that are two clock ticks late are enough to get 3*limit requests through within a minute. */
  lemma LateBoundIsTight(start: int, limit: nat, ip: string, other: string)
    requires 0 < limit && ip != other
    ensures exists calls, from ::
      Skewed(start, 2, calls) && AdmittedIn(start, limit, calls, |calls|, ip, from) == 3 * limit
  {
    var calls := LateBurst(start, limit, ip, other);
    LateBurstAdmitted(start, limit, ip, other, calls, 3 * limit + 1);
    assert Skewed(start, 2, calls);
    assert AdmittedIn(start, limit, calls, |calls|, ip, start + MINUTE - 1) == 3 * limit;
  }
}
