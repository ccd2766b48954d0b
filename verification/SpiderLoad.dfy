/** Runs built step by step: a crawl that is loaded with more and more tasks and takes no result out. */
module SpiderLoad {
  import opened Common
  import opened SpiderModel
  import opened SpiderProgress
  import Text

  // ---- Runs ----

  /** s is the state of some run in which nobody outside cancels. */
  ghost predicate ReachableAlone(cfg: Config, start: set<string>, s: State)
    requires cfg.Valid()
  {
    exists paused: bool, steps: seq<Step> ::
      Cancel !in steps && Execute(cfg, Init(cfg, start, paused), steps) == Some(s)
  }

  /** A set of states that no step of the crawl itself leaves. */
  ghost predicate Closed(cfg: Config, within: State -> bool) {
    forall m, step :: within(m) && Internal(step) && Enabled(cfg, m, step) ==> within(Apply(cfg, m, step))
  }

  lemma ExecuteStep(cfg: Config, start: State, steps: seq<Step>, m: State, step: Step)
    requires Execute(cfg, start, steps) == Some(m) && Enabled(cfg, m, step)
    ensures Execute(cfg, start, steps + [step]) == Some(Apply(cfg, m, step))
  {
    assert (steps + [step])[..|steps|] == steps;
  }

  lemma ReachableStep(cfg: Config, start: set<string>, m: State, step: Step)
    requires cfg.Valid() && Reachable(cfg, start, m) && Enabled(cfg, m, step)
    ensures Reachable(cfg, start, Apply(cfg, m, step))
  {
    var paused, steps :| Execute(cfg, Init(cfg, start, paused), steps) == Some(m);
    ExecuteStep(cfg, Init(cfg, start, paused), steps, m, step);
  }

  lemma ReachableIsClosed(cfg: Config, start: set<string>)
    requires cfg.Valid()
    ensures Closed(cfg, m => Reachable(cfg, start, m))
  {
    forall m, step | Reachable(cfg, start, m) && Enabled(cfg, m, step)
      ensures Reachable(cfg, start, Apply(cfg, m, step))
    {
      ReachableStep(cfg, start, m, step);
    }
  }

  lemma AloneStep(cfg: Config, start: set<string>, m: State, step: Step)
    requires cfg.Valid() && ReachableAlone(cfg, start, m) && Internal(step) && Enabled(cfg, m, step)
    ensures ReachableAlone(cfg, start, Apply(cfg, m, step))
  {
    var paused, steps :| Cancel !in steps && Execute(cfg, Init(cfg, start, paused), steps) == Some(m);
    ExecuteStep(cfg, Init(cfg, start, paused), steps, m, step);
    assert Cancel !in steps + [step];
  }

  lemma AloneIsClosed(cfg: Config, start: set<string>)
    requires cfg.Valid()
    ensures Closed(cfg, m => ReachableAlone(cfg, start, m))
  {
    forall m, step | ReachableAlone(cfg, start, m) && Internal(step) && Enabled(cfg, m, step)
      ensures ReachableAlone(cfg, start, Apply(cfg, m, step))
    {
      AloneStep(cfg, start, m, step);
    }
  }

  lemma AloneIsReachable(cfg: Config, start: set<string>, s: State)
    requires cfg.Valid() && ReachableAlone(cfg, start, s)
    ensures Reachable(cfg, start, s)
  {
  }

  lemma StartsAlone(cfg: Config, start: set<string>)
    requires cfg.Valid()
    ensures ReachableAlone(cfg, start, Init(cfg, start, false))
  {
    assert Execute(cfg, Init(cfg, start, false), []) == Some(Init(cfg, start, false));
    assert Cancel !in [];
  }

  lemma Advance(cfg: Config, within: State -> bool, m: State, step: Step) returns (s': State)
    requires Closed(cfg, within) && within(m) && Internal(step) && Enabled(cfg, m, step)
    ensures s' == Apply(cfg, m, step) && within(s')
  {
    s' := Apply(cfg, m, step);
  }

  // ---- Loaded crawls ----

  /** The places that fill up first: the result channel, then the workers. */
  function Waiting(cfg: Config, n: nat): int {
    Min(n, cfg.OutCap())
  }

  function Holding(cfg: Config, n: nat): int {
    if n <= cfg.OutCap() then 0 else Min(n - cfg.OutCap(), cfg.concurrency)
  }

  /** The queue takes the rest. */
  function Queued(cfg: Config, n: nat): int {
    Max(n - 5 * cfg.concurrency, 0)
  }

  /**
   n tasks are in the system, as far on as they get without the coordinator taking results out, and
   extra more were just queued.
   */
  ghost predicate Loaded(cfg: Config, s: State, n: nat, extra: nat) {
    && |s.out| == Waiting(cfg, n) && |s.queue| == Queued(cfg, n) + extra
    && |s.workers| == cfg.concurrency
    && (forall i :: 0 <= i < Holding(cfg, n) ==> s.workers[i].Sending?)
    && (forall i :: Holding(cfg, n) <= i < cfg.concurrency ==> s.workers[i].Idle?)
    && s.budget == cfg.maxPages - |s.delivered| - Waiting(cfg, n) - Holding(cfg, n)
    && s.inFlight == n + extra
    && !s.paused && !s.cancelled
  }

  /** The coordinator's own part, and the first result, which a load leaves alone. */
  ghost predicate SameCoord(s: State, s': State) {
    s'.coord == s.coord && s'.seen == s.seen && s'.delivered == s.delivered
  }

  /** An idle worker takes the first task up to its result. */
  lemma FetchFirst(cfg: Config, within: State -> bool, s: State, w: nat, links: seq<string>) returns (s': State)
    requires Closed(cfg, within) && within(s) && s.queue != [] && !s.paused && s.budget > 0
    requires w < |s.workers| && s.workers[w].Idle? && cfg.Links(links)
    ensures within(s') && SameCoord(s, s') && s'.inFlight == s.inFlight && s'.budget == s.budget - 1
    ensures s'.queue == s.queue[1..] && s'.out == s.out && !s'.paused && s'.cancelled == s.cancelled
    ensures var t := s.queue[0];
      s'.workers == s.workers[w := Sending(Page(t.url, links, map["depth" := Text.Decimal(t.depth)]))]
  {
    s' := Advance(cfg, within, s, Take(w));
    s' := Advance(cfg, within, s', Admit(w));
    s' := Advance(cfg, within, s', Spend(w));
    s' := Advance(cfg, within, s', Fetch(w, links));
  }

  /** A task that was just queued moves on to where there is room. */
  lemma Absorb(cfg: Config, within: State -> bool, s: State, n: nat, links: seq<string>) returns (s': State)
    requires cfg.Valid() && Closed(cfg, within) && within(s) && Loaded(cfg, s, n, 1) && cfg.Links(links)
    requires n < 5 * cfg.concurrency ==> s.budget > 0
    ensures within(s') && Loaded(cfg, s', n + 1, 0) && SameCoord(s, s')
    ensures n > 0 ==> s'.out[0] == s.out[0]
    ensures n == 0 ==> s'.out[0] == Page(s.queue[0].url, links, map["depth" := Text.Decimal(s.queue[0].depth)])
  {
    if n >= 5 * cfg.concurrency {
      s' := s;
    } else {
      var w: nat := Holding(cfg, n);
      s' := FetchFirst(cfg, within, s, w, links);
      if n < cfg.OutCap() {
        s' := Advance(cfg, within, s', Send(w));
      }
    }
  }

  // ---- Seeding ----

  /** What the seeding loop will have marked seen. */
  function SeenAfter(cfg: Config, seen: set<string>, urls: seq<string>): set<string>
    decreases |urls|
  {
    if urls == [] then seen
    else if UrlAllowed(cfg, urls[0]) && IsNew(seen, urls[0]) then SeenAfter(cfg, seen + {Key(urls[0])}, urls[1..])
    else SeenAfter(cfg, seen, urls[1..])
  }

  lemma {:induction false} SeenAfterSize(cfg: Config, seen: set<string>, urls: seq<string>)
    ensures seen <= SeenAfter(cfg, seen, urls)
    ensures |SeenAfter(cfg, seen, urls) - seen| == Accepted(cfg, seen, urls)
    decreases |urls|
  {
    if urls != [] {
      if UrlAllowed(cfg, urls[0]) && IsNew(seen, urls[0]) {
        var key := Key(urls[0]);
        SeenAfterSize(cfg, seen + {key}, urls[1..]);
        var all := SeenAfter(cfg, seen, urls);
        assert all - seen == (all - (seen + {key})) + {key};
      } else {
        SeenAfterSize(cfg, seen, urls[1..]);
      }
    }
  }

  /** The first result is a start page with these links. */
  ghost predicate HeadHas(s: State, links: seq<string>) {
    s.out != [] ==> s.out[0].links == links && DepthOf(s.out[0]) == 0
  }

  ghost predicate SeedsAhead(cfg: Config, within: State -> bool, s: State, n: nat, links: seq<string>) {
    && cfg.Valid() && Closed(cfg, within) && within(s)
    && Loaded(cfg, s, n, 0) && s.delivered == [] && HeadHas(s, links) && cfg.Links(links)
  }

  /** A pending start URL is pushed and absorbed. */
  lemma PushSeed(cfg: Config, within: State -> bool, s: State, n: nat, links: seq<string>) returns (s': State)
    requires SeedsAhead(cfg, within, s, n, links) && s.coord.SeedSend? && s.coord.task.depth == 0
    requires n < 13 * cfg.concurrency && (n < 5 * cfg.concurrency ==> n < cfg.maxPages)
    ensures SeedsAhead(cfg, within, s', n + 1, links)
    ensures s'.coord == Seeding(s.coord.rest) && s'.seen == s.seen
  {
    var m := Advance(cfg, within, s, SeedPush);
    s' := Absorb(cfg, within, m, n, links);
    Text.ScanDecimal(0);
  }

  /** What is left to seed, and what will have been seen in the end. */
  ghost predicate SameSeeds(cfg: Config, s: State, s': State, taken: nat)
    requires (s.coord.Seeding? || s.coord.SeedSend?) && (s'.coord.Seeding? || s'.coord.SeedSend?)
  {
    && Accepted(cfg, s'.seen, s'.coord.rest) + taken == Accepted(cfg, s.seen, s.coord.rest)
    && SeenAfter(cfg, s'.seen, s'.coord.rest) == SeenAfter(cfg, s.seen, s.coord.rest)
  }

  /** The next start URL is passed over or becomes pending. */
  lemma MarkSeed(cfg: Config, within: State -> bool, s: State, n: nat, links: seq<string>) returns (s': State)
    requires SeedsAhead(cfg, within, s, n, links) && s.coord.Seeding? && s.coord.rest != []
    ensures SeedsAhead(cfg, within, s', n, links)
    ensures s'.coord.Seeding? || (s'.coord.SeedSend? && s'.coord.task.depth == 0)
    ensures s'.coord.rest == s.coord.rest[1..] && SameSeeds(cfg, s, s', if s'.coord.Seeding? then 0 else 1)
  {
    s' := Advance(cfg, within, s, SeedNext);
  }

  /** One start URL is seeded, or passed over. */
  lemma OneSeed(cfg: Config, within: State -> bool, s: State, n: nat, links: seq<string>)
    returns (s': State, taken: nat)
    requires SeedsAhead(cfg, within, s, n, links) && s.coord.Seeding? && s.coord.rest != []
    requires n < 13 * cfg.concurrency || Accepted(cfg, s.seen, s.coord.rest) == 0
    requires cfg.maxPages >= 5 * cfg.concurrency
    ensures SeedsAhead(cfg, within, s', n + taken, links) && taken <= 1
    ensures s'.coord == Seeding(s.coord.rest[1..]) && SameSeeds(cfg, s, s', taken)
  {
    s' := MarkSeed(cfg, within, s, n, links);
    taken := 0;
    if s'.coord.SeedSend? {
      s' := PushSeed(cfg, within, s', n, links);
      taken := 1;
    }
  }

  /** With room for all of them every accepted start URL is seeded. */
  lemma {:induction false} SeedAll(cfg: Config, within: State -> bool, s: State, n: nat, links: seq<string>)
    returns (s': State)
    requires SeedsAhead(cfg, within, s, n, links) && s.coord.Seeding?
    requires n + Accepted(cfg, s.seen, s.coord.rest) <= 13 * cfg.concurrency && cfg.maxPages >= 5 * cfg.concurrency
    ensures SeedsAhead(cfg, within, s', n + Accepted(cfg, s.seen, s.coord.rest), links)
    ensures s'.coord == Seeding([]) && s'.seen == SeenAfter(cfg, s.seen, s.coord.rest)
    decreases |s.coord.rest|
  {
    if s.coord.rest == [] {
      s' := s;
    } else {
      var m, taken := OneSeed(cfg, within, s, n, links);
      s' := SeedAll(cfg, within, m, n + taken, links);
    }
  }

  /** With more start URLs than that, limit of them are seeded and another one is pending. */
  lemma {:induction false} SeedUpTo(cfg: Config, within: State -> bool, s: State, n: nat, limit: nat)
    returns (s': State)
    requires SeedsAhead(cfg, within, s, n, []) && s.coord.Seeding?
    requires n <= limit < n + Accepted(cfg, s.seen, s.coord.rest) && limit <= 13 * cfg.concurrency
    requires Min(limit, 5 * cfg.concurrency) <= cfg.maxPages
    ensures SeedsAhead(cfg, within, s', limit, []) && s'.coord.SeedSend? && s'.coord.task.depth == 0
    ensures limit + 1 + Accepted(cfg, s'.seen, s'.coord.rest) == n + Accepted(cfg, s.seen, s.coord.rest)
    decreases |s.coord.rest|
  {
    var m := MarkSeed(cfg, within, s, n, []);
    if m.coord.Seeding? {
      s' := SeedUpTo(cfg, within, m, n, limit);
    } else if n == limit {
      s' := m;
    } else {
      m := PushSeed(cfg, within, m, n, []);
      s' := SeedUpTo(cfg, within, m, n + 1, limit);
    }
  }

  // ---- Dispatching ----

  /** Links the coordinator will accept one after the other. */
  ghost predicate FreshLinks(cfg: Config, seen: set<string>, links: seq<string>) {
    && (forall i :: 0 <= i < |links| ==> UrlAllowed(cfg, links[i]) && IsNew(seen, links[i]))
    && (forall i, j :: 0 <= i < j < |links| ==> Key(links[i]) != Key(links[j]))
  }

  lemma FreshTail(cfg: Config, seen: set<string>, links: seq<string>)
    requires FreshLinks(cfg, seen, links) && links != []
    ensures FreshLinks(cfg, seen + {Key(links[0])}, links[1..])
  {
    forall i | 0 <= i < |links[1..]|
      ensures UrlAllowed(cfg, links[1..][i]) && IsNew(seen + {Key(links[0])}, links[1..][i])
    {
      assert links[1..][i] == links[i + 1];
    }
  }

  /** The last sending worker uses the room in out, and takes another task if there is one. */
  lemma Refill(cfg: Config, within: State -> bool, s: State, n: nat) returns (s': State)
    requires cfg.Valid() && Closed(cfg, within) && within(s) && n > 0 && cfg.maxPages > 5 * cfg.concurrency
    requires |s.out| == Waiting(cfg, n) - 1 && |s.queue| == Queued(cfg, n) && |s.workers| == cfg.concurrency
    requires forall i :: 0 <= i < Holding(cfg, n) ==> s.workers[i].Sending?
    requires forall i :: Holding(cfg, n) <= i < cfg.concurrency ==> s.workers[i].Idle?
    requires |s.delivered| == 1 && s.budget == cfg.maxPages - Waiting(cfg, n) - Holding(cfg, n)
    requires s.inFlight == n - 1 && !s.paused && !s.cancelled
    ensures within(s') && Loaded(cfg, s', n - 1, 0) && SameCoord(s, s')
  {
    s' := s;
    if n > cfg.OutCap() {
      var w: nat := Holding(cfg, n) - 1;
      s' := Advance(cfg, within, s', Send(w));
      if n > 5 * cfg.concurrency {
        s' := FetchFirst(cfg, within, s', w, []);
      }
    }
  }

  /** After seeding the first result is taken, and its links are next. */
  lemma TakeFirst(cfg: Config, within: State -> bool, s: State, n: nat, links: seq<string>) returns (s': State)
    requires SeedsAhead(cfg, within, s, n, links) && s.coord == Seeding([])
    requires n > 0 && cfg.maxPages > 5 * cfg.concurrency
    ensures within(s') && Loaded(cfg, s', n - 1, 0) && |s'.delivered| == 1
    ensures s'.coord == Dispatching(links, 1) && s'.seen == s.seen
  {
    var m := Advance(cfg, within, s, SeedEnd);
    m := Advance(cfg, within, m, Receive);
    s' := Refill(cfg, within, m, n);
  }

  /** The next of some fresh links becomes pending. */
  lemma MarkLink(cfg: Config, within: State -> bool, s: State, n: nat) returns (s': State)
    requires cfg.Valid() && Closed(cfg, within) && within(s) && Loaded(cfg, s, n, 0)
    requires s.coord.Dispatching? && s.coord.depth == 1 && s.coord.rest != [] && FreshLinks(cfg, s.seen, s.coord.rest)
    ensures within(s') && Loaded(cfg, s', n, 0) && s'.delivered == s.delivered
    ensures s'.coord == LinkSend(Task(s.coord.rest[0], 1), s.coord.rest[1..])
    ensures FreshLinks(cfg, s'.seen, s.coord.rest[1..])
  {
    FreshTail(cfg, s.seen, s.coord.rest);
    s' := Advance(cfg, within, s, LinkNext);
  }

  /** A pending link is pushed and absorbed. */
  lemma PushLink(cfg: Config, within: State -> bool, s: State, n: nat) returns (s': State)
    requires cfg.Valid() && Closed(cfg, within) && within(s) && Loaded(cfg, s, n, 0)
    requires |s.delivered| == 1 && cfg.maxPages > 5 * cfg.concurrency && n < 13 * cfg.concurrency && s.coord.LinkSend?
    ensures within(s') && Loaded(cfg, s', n + 1, 0) && s'.delivered == s.delivered && s'.seen == s.seen
    ensures s'.coord == Dispatching(s.coord.rest, s.coord.task.depth)
  {
    var m := Advance(cfg, within, s, LinkPush);
    s' := Absorb(cfg, within, m, n, []);
  }

  /** Links are dispatched until the last one meets a full system. */
  lemma {:induction false} DispatchAll(cfg: Config, within: State -> bool, s: State, n: nat) returns (s': State)
    requires cfg.Valid() && Closed(cfg, within) && within(s) && Loaded(cfg, s, n, 0)
    requires |s.delivered| == 1 && cfg.maxPages > 5 * cfg.concurrency
    requires s.coord.Dispatching? && s.coord.depth == 1 && FreshLinks(cfg, s.seen, s.coord.rest)
    requires n + |s.coord.rest| == 13 * cfg.concurrency + 1 && s.coord.rest != []
    ensures within(s') && Loaded(cfg, s', 13 * cfg.concurrency, 0) && s'.coord.LinkSend?
    decreases |s.coord.rest|
  {
    s' := MarkLink(cfg, within, s, n);
    if |s.coord.rest| > 1 {
      s' := PushLink(cfg, within, s', n);
      s' := DispatchAll(cfg, within, s', n + 1);
    }
  }

  // ---- Leaving a cancelled run ----

  lemma {:induction false} EveryoneLeaves(cfg: Config, within: State -> bool, s: State, k: nat) returns (s': State)
    requires k <= |s.workers| && s.cancelled && Closed(cfg, within) && within(s)
    requires forall i :: 0 <= i < k ==> s.workers[i].Exited?
    requires forall i :: k <= i < |s.workers| ==> s.workers[i].Idle? || s.workers[i].Sending? || s.workers[i].Exited?
    ensures within(s') && AllExited(s'.workers) && SameCoord(s, s')
    ensures s'.queue == s.queue && s'.cancelled && s'.paused == s.paused
    decreases |s.workers| - k
  {
    if k == |s.workers| {
      s' := s;
    } else {
      s' := s;
      if s.workers[k].Idle? {
        s' := Advance(cfg, within, s, QuitDone(k));
      } else if s.workers[k].Sending? {
        s' := Advance(cfg, within, s, DropPage(k));
      }
      s' := EveryoneLeaves(cfg, within, s', k + 1);
    }
  }

  /** Without workers the seeding loop goes on until the queue is full. */
  lemma {:induction false} SeedUntilFull(cfg: Config, within: State -> bool, s: State) returns (s': State)
    requires Closed(cfg, within) && within(s) && s.coord.Seeding? && s.cancelled && AllExited(s.workers)
    requires |s.queue| <= cfg.QueueCap() < |s.queue| + Accepted(cfg, s.seen, s.coord.rest)
    ensures within(s') && s'.coord.SeedSend? && s'.cancelled
    ensures AllExited(s'.workers) && |s'.queue| == cfg.QueueCap()
    decreases |s.coord.rest|
  {
    var m := Advance(cfg, within, s, SeedNext);
    if m.coord.Seeding? {
      s' := SeedUntilFull(cfg, within, m);
    } else if |m.queue| == cfg.QueueCap() {
      s' := m;
    } else {
      m := Advance(cfg, within, m, SeedPush);
      s' := SeedUntilFull(cfg, within, m);
    }
  }
}
