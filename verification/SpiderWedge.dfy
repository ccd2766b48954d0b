/** Exactly which crawls can deadlock, and which always return. */
module SpiderWedge {
  import opened Common
  import opened SpiderModel
  import opened SpiderInvariant
  import opened SpiderDiscovery
  import opened SpiderTheorems
  import opened SpiderProgress
  import opened SpiderLoad
  import opened SpiderAccounts
  import Text

  // ---- The dispatch wedge ----

  /** No goroutine of an uncancelled, unpaused run can move: the coordinator is blocked dispatching. */
  ghost predicate StuckDispatching(cfg: Config, start: set<string>, s: State)
    requires cfg.Valid()
  {
    Reachable(cfg, start, s) && s.coord.LinkSend? && !s.cancelled && !s.paused && !CanStep(cfg, s)
  }

  /** A fetched page can link to some URL with this key, and the host policy admits it. */
  ghost predicate Admissible(cfg: Config, key: string) {
    key != "" && exists url :: UrlAllowed(cfg, url) && cfg.Links([url]) && Key(url) == key
  }

  ghost predicate AllAdmissible(cfg: Config, keys: set<string>) {
    forall k :: k in keys ==> Admissible(cfg, k)
  }

  ghost predicate Offers(cfg: Config, seen: set<string>, keys: set<string>, n: int) {
    |keys| >= n && keys !! seen && AllAdmissible(cfg, keys)
  }

  /** At least n keys can be linked to that are not seen yet. */
  ghost predicate FreshKeys(cfg: Config, seen: set<string>, n: int) {
    exists keys :: Offers(cfg, seen, keys, n)
  }

  /** With the accepted start URLs, links have to make up 13*Concurrency + 2 URLs. */
  function LinksNeeded(cfg: Config, start: set<string>): int {
    13 * cfg.concurrency + 2 - Accepted(cfg, start, cfg.startURLs)
  }

  ghost predicate DispatchCanStick(cfg: Config, start: set<string>) {
    && cfg.maxPages > 5 * cfg.concurrency
    && 1 <= Accepted(cfg, start, cfg.startURLs) <= 13 * cfg.concurrency
    && FreshKeys(cfg, SeenAfter(cfg, start, cfg.startURLs), LinksNeeded(cfg, start))
  }

  /** A stuck dispatch has spent a page on each worker, each waiting result and the current one. */
  lemma StuckCostsPages(cfg: Config, start: set<string>, s: State)
    requires cfg.Valid() && StuckDispatching(cfg, start, s)
    ensures InSystem(s) == 13 * cfg.concurrency
    ensures cfg.maxPages > 5 * cfg.concurrency && |s.dispatched| > 13 * cfg.concurrency
  {
    ReachableKnown(cfg, start, s);
    StuckIffWedged(cfg, start, s);
    forall i | 0 <= i < |s.workers| ensures Spent(s.workers[i]) && Busy(s.workers[i]) {
      assert WorkerBlocked(cfg, s, s.workers[i]);
    }
    CountExtremes(s.workers, Spent);
    CountExtremes(s.workers, Busy);
  }

  lemma {:induction false} DistinctKeys(ts: seq<Task>)
    requires DistinctBy(ts, TaskKey)
    ensures |KeysOf(ts)| == |ts|
  {
    if ts != [] {
      var front, last := ts[..|ts| - 1], ts[|ts| - 1];
      DistinctKeys(front);
      KeysOfPush(front, last);
      assert ts == front + [last];
      forall t | t in front ensures TaskKey(t) != TaskKey(last) {
      }
    }
  }

  /** The tasks dispatched or about to be have as many keys. */
  lemma KeyCount(start: set<string>, s: State)
    requires Keys(start, s)
    ensures |KeysOf(s.dispatched) + KeysOf(Pending(s))| == |s.dispatched| + |Pending(s)|
    ensures KeysOf(s.dispatched) + KeysOf(Pending(s)) !! start
  {
    DistinctKeys(s.dispatched);
    KeysOfPending(s);
    assert KeysOf(Pending(s)) * KeysOf(s.dispatched) == {};
  }

  /** Seeding marks every start URL the host policy admits. */
  lemma {:induction false} StartIsSeen(cfg: Config, seen: set<string>, urls: seq<string>, url: string)
    requires url in urls && UrlAllowed(cfg, url) && Key(url) != ""
    ensures Key(url) in SeenAfter(cfg, seen, urls)
    decreases |urls|
  {
    var next := if UrlAllowed(cfg, urls[0]) && IsNew(seen, urls[0]) then seen + {Key(urls[0])} else seen;
    if url == urls[0] {
      SeenAfterSize(cfg, next, urls[1..]);
    } else {
      StartIsSeen(cfg, next, urls[1..], url);
    }
  }

  /** What was dispatched and is not a start URL was linked to. */
  lemma FoundByLink(cfg: Config, start: set<string>, delivered: seq<Page>, t: Task)
    requires Justified(cfg, delivered, t) && forall i :: 0 <= i < |delivered| ==> cfg.Links(delivered[i].links)
    requires TaskKey(t) !in SeenAfter(cfg, start, cfg.startURLs)
    ensures Admissible(cfg, TaskKey(t))
  {
    var path :| Discovered(cfg, delivered, path) && |path| == t.depth + 1 && path[t.depth] == t.url;
    if t.depth == 0 {
      StartIsSeen(cfg, start, cfg.startURLs, t.url);
    } else {
      assert Linked(delivered, path[t.depth - 1], t.depth - 1, t.url);
      var p :| p in delivered && p.url == path[t.depth - 1] && DepthOf(p) == t.depth - 1 && t.url in p.links;
      assert cfg.Links(p.links) && cfg.Links([t.url]);
    }
  }

  lemma AllFoundByLink(cfg: Config, start: set<string>, s: State, seen: set<string>)
    requires Chains(cfg, s) && LinksOk(cfg, s) && seen == SeenAfter(cfg, start, cfg.startURLs)
    ensures AllAdmissible(cfg, KeysOf(s.dispatched) + KeysOf(Pending(s)) - seen)
  {
    forall k | k in KeysOf(s.dispatched) + KeysOf(Pending(s)) - seen ensures Admissible(cfg, k) {
      var t :| (t in s.dispatched || t in Pending(s)) && TaskKey(t) == k;
      FoundByLink(cfg, start, s.delivered, t);
    }
  }

  /** Whatever was dispatched beyond the accepted start URLs was linked to. */
  lemma FoundKeys(cfg: Config, start: set<string>, s: State, seen: set<string>, n: int)
    requires Keys(start, s) && Chains(cfg, s) && LinksOk(cfg, s) && seen == SeenAfter(cfg, start, cfg.startURLs)
    requires n <= |s.dispatched| + |Pending(s)| - Accepted(cfg, start, cfg.startURLs)
    ensures FreshKeys(cfg, seen, n)
  {
    var keys := KeysOf(s.dispatched) + KeysOf(Pending(s));
    KeyCount(start, s);
    AllFoundByLink(cfg, start, s, seen);
    SeenAfterSize(cfg, start, cfg.startURLs);
    KeysLeft(keys, start, seen);
    assert Offers(cfg, seen, keys - seen, n);
  }

  /** Everything such a run dispatched or was about to had to be found somewhere. */
  lemma StuckNeedsKeys(cfg: Config, start: set<string>, s: State)
    requires cfg.Valid() && StuckDispatching(cfg, start, s)
    ensures FreshKeys(cfg, SeenAfter(cfg, start, cfg.startURLs), LinksNeeded(cfg, start))
  {
    ReachableKnown(cfg, start, s);
    StuckCostsPages(cfg, start, s);
    FoundKeys(cfg, start, s, SeenAfter(cfg, start, cfg.startURLs), LinksNeeded(cfg, start));
  }

  /** n URLs whose keys are among the given ones, in some order. */
  lemma {:induction false} PickLinks(cfg: Config, seen: set<string>, keys: set<string>, n: nat)
    returns (links: seq<string>)
    requires n <= |keys| && keys !! seen && AllAdmissible(cfg, keys)
    ensures |links| == n && FreshLinks(cfg, seen, links) && cfg.Links(links)
    ensures forall i :: 0 <= i < n ==> Key(links[i]) in keys
    decreases n
  {
    if n == 0 {
      links := [];
    } else {
      var k :| k in keys;
      var url :| UrlAllowed(cfg, url) && cfg.Links([url]) && Key(url) == k;
      var rest := PickLinks(cfg, seen, keys - {k}, n - 1);
      links := [url] + rest;
      OneMoreLink(cfg, seen, url, rest);
    }
  }

  lemma OneMoreLink(cfg: Config, seen: set<string>, url: string, rest: seq<string>)
    requires UrlAllowed(cfg, url) && IsNew(seen, url) && FreshLinks(cfg, seen, rest)
    requires cfg.Links([url]) && cfg.Links(rest) && forall i :: 0 <= i < |rest| ==> Key(rest[i]) != Key(url)
    ensures FreshLinks(cfg, seen, [url] + rest) && cfg.Links([url] + rest)
  {
    assert url in [url];
  }

  /** What seeding does not account for. */
  lemma KeysLeft(keys: set<string>, start: set<string>, after: set<string>)
    requires keys !! start && start <= after
    ensures |keys - after| >= |keys| - |after - start|
  {
    var gone := keys - (keys - after);
    assert gone <= after - start;
    SubsetSize(gone, after - start);
    assert keys == (keys - after) + gone;
  }

  lemma {:induction false} SubsetSize(a: set<string>, b: set<string>)
    requires a <= b
    ensures |a| <= |b|
  {
    if a != {} {
      var x :| x in a;
      SubsetSize(a - {x}, b - {x});
    }
  }

  lemma LoadedIsWedged(cfg: Config, s: State)
    requires cfg.Valid() && Loaded(cfg, s, 13 * cfg.concurrency, 0) && (s.coord.LinkSend? || s.coord.SeedSend?)
    ensures Wedged(cfg, s)
  {
  }

  /** Links that fill the system up after the accepted start URLs. */
  lemma EnoughLinks(cfg: Config, start: set<string>) returns (links: seq<string>)
    requires cfg.Valid() && DispatchCanStick(cfg, start)
    ensures FreshLinks(cfg, SeenAfter(cfg, start, cfg.startURLs), links) && cfg.Links(links)
    ensures |links| == LinksNeeded(cfg, start)
  {
    var after := SeenAfter(cfg, start, cfg.startURLs);
    var keys :| Offers(cfg, after, keys, LinksNeeded(cfg, start));
    links := PickLinks(cfg, after, keys, LinksNeeded(cfg, start));
  }

  lemma FillByDispatching(cfg: Config, start: set<string>, within: State -> bool) returns (s: State)
    requires cfg.Valid() && DispatchCanStick(cfg, start) && Closed(cfg, within) && within(Init(cfg, start, false))
    ensures within(s) && Loaded(cfg, s, 13 * cfg.concurrency, 0) && s.coord.LinkSend?
  {
    var links := EnoughLinks(cfg, start);
    var accepted := Accepted(cfg, start, cfg.startURLs);
    s := SeedAll(cfg, within, Init(cfg, start, false), 0, links);
    s := TakeFirst(cfg, within, s, accepted, links);
    s := DispatchAll(cfg, within, s, accepted - 1);
  }

  /** One start page with enough links fills the system up. */
  lemma ReachDispatchWedge(cfg: Config, start: set<string>) returns (s: State)
    requires cfg.Valid() && DispatchCanStick(cfg, start)
    ensures ReachableAlone(cfg, start, s) && StuckDispatching(cfg, start, s)
  {
    ghost var within := (m: State) => ReachableAlone(cfg, start, m);
    AloneIsClosed(cfg, start);
    StartsAlone(cfg, start);
    s := FillByDispatching(cfg, start, within);
    LoadedIsWedged(cfg, s);
    AloneIsReachable(cfg, start, s);
    StuckIffWedged(cfg, start, s);
  }

  /**
   An uncancelled, unpaused run can get stuck dispatching links if and only if the page budget exceeds
   5*Concurrency, between one and 13*Concurrency start URLs are accepted, and pages can link to enough
   other URLs to make up 13*Concurrency + 2 with them.
   */
  lemma DispatchWedgesIff(cfg: Config, start: set<string>)
    requires cfg.Valid()
    ensures (exists s :: StuckDispatching(cfg, start, s)) <==> DispatchCanStick(cfg, start)
  {
    if DispatchCanStick(cfg, start) {
      var s := ReachDispatchWedge(cfg, start);
    }
    if s :| StuckDispatching(cfg, start, s) {
      ReachableKnown(cfg, start, s);
      StuckCostsPages(cfg, start, s);
      StuckNeedsKeys(cfg, start, s);
    }
  }

  /** Without a Parse function pages link to nothing, and dispatching never gets stuck. */
  lemma NoParseNeverSticks(cfg: Config, start: set<string>)
    requires cfg.Valid() && !cfg.parses
    ensures !exists s :: StuckDispatching(cfg, start, s)
  {
    DispatchWedgesIff(cfg, start);
    if DispatchCanStick(cfg, start) {
      var links := EnoughLinks(cfg, start);
      LinksNeedParse(cfg, links);
    }
  }

  lemma LinksNeedParse(cfg: Config, links: seq<string>)
    ensures cfg.Links(links) && links != [] ==> cfg.parses
  {
    if links != [] {
      assert links[0] in links;
    }
  }

  // ---- A host that admits all its pages ----

  function Path(n: nat): string {
    seq(n, _ => 'a')
  }

  /** Pages can link to all the URLs below prefix, and the host policy admits them. */
  ghost predicate AdmitsBelow(cfg: Config, prefix: string) {
    && prefix != "" && !Text.IsSpace(prefix[0])
    && forall n: nat :: n > 0 ==> UrlAllowed(cfg, prefix + Path(n)) && cfg.Links([prefix + Path(n)])
  }

  lemma PathKey(cfg: Config, prefix: string, n: nat)
    requires AdmitsBelow(cfg, prefix) && n > 0
    ensures Key(prefix + Path(n)) == prefix + Path(n) && Admissible(cfg, prefix + Path(n))
  {
    Text.TrimIsTrimmed(prefix + Path(n));
  }

  lemma {:induction false} LengthBound(keys: set<string>) returns (bound: nat)
    ensures forall k :: k in keys ==> |k| < bound
  {
    bound := 0;
    if keys != {} {
      var k :| k in keys;
      bound := LengthBound(keys - {k});
      bound := Max(bound, |k| + 1);
    }
  }

  lemma {:induction false} PathKeys(cfg: Config, prefix: string, longer: nat, n: nat) returns (keys: set<string>)
    requires AdmitsBelow(cfg, prefix)
    ensures |keys| == n
    ensures forall k :: k in keys ==> Admissible(cfg, k) && longer < |k| <= longer + |prefix| + n
  {
    keys := {};
    if n > 0 {
      keys := PathKeys(cfg, prefix, longer, n - 1);
      PathKey(cfg, prefix, longer + n);
      keys := keys + {prefix + Path(longer + n)};
    }
  }

  /** One such host offers any number of keys, whatever was seen before. */
  lemma HostHasFreshKeys(cfg: Config, start: set<string>, prefix: string, n: nat)
    requires AdmitsBelow(cfg, prefix)
    ensures FreshKeys(cfg, start, n)
  {
    var bound := LengthBound(start);
    var keys := PathKeys(cfg, prefix, bound, n);
    assert Offers(cfg, start, keys, n);
  }

  /** So for a spider that admits all pages below some address, the limits alone decide. */
  lemma DispatchWedgesOnHost(cfg: Config, start: set<string>, prefix: string)
    requires cfg.Valid() && AdmitsBelow(cfg, prefix)
    ensures (exists s :: StuckDispatching(cfg, start, s))
      <==> cfg.maxPages > 5 * cfg.concurrency && 1 <= Accepted(cfg, start, cfg.startURLs) <= 13 * cfg.concurrency
  {
    if LinksNeeded(cfg, start) >= 0 {
      HostHasFreshKeys(cfg, SeenAfter(cfg, start, cfg.startURLs), prefix, LinksNeeded(cfg, start));
    }
    DispatchWedgesIff(cfg, start);
  }

  // ---- The seeding wedge ----

  /**
   A cancelled run can be stuck in its seeding loop, whose send has no cancel branch, if and only if
   more than 8*Concurrency start URLs are accepted.
   */
  lemma SeedingWedgesIff(cfg: Config, start: set<string>)
    requires cfg.Valid()
    ensures (exists s :: Reachable(cfg, start, s) && s.coord.SeedSend? && s.cancelled && Wedged(cfg, s))
      <==> Accepted(cfg, start, cfg.startURLs) > cfg.QueueCap()
  {
    if Accepted(cfg, start, cfg.startURLs) > cfg.QueueCap() {
      StartsAlone(cfg, start);
      AloneIsReachable(cfg, start, Init(cfg, start, false));
      ReachableStep(cfg, start, Init(cfg, start, false), Cancel);
      ghost var within := (m: State) => Reachable(cfg, start, m);
      ReachableIsClosed(cfg, start);
      var m := EveryoneLeaves(cfg, within, Apply(cfg, Init(cfg, start, false), Cancel), 0);
      var s := SeedUntilFull(cfg, within, m);
      assert Reachable(cfg, start, s) && Wedged(cfg, s);
    } else {
      forall s | Reachable(cfg, start, s) && s.coord.SeedSend? ensures !Wedged(cfg, s) {
        SeedingNeverBlocks(cfg, start, s);
      }
    }
  }

  /** The worker has left, or waits to send its result, which only a cancellation can stop. */
  predicate Idles(cfg: Config, s: State, w: Worker) {
    w.Exited? || (w.Sending? && |s.out| == cfg.OutCap())
  }

  /** The seeding send is blocked, and no worker will take anything from the queue again. */
  ghost predicate StuckSeeding(cfg: Config, s: State) {
    && Shape(cfg, s) && s.coord.SeedSend? && |s.queue| == cfg.QueueCap()
    && forall i :: 0 <= i < |s.workers| ==> Idles(cfg, s, s.workers[i])
  }

  lemma WedgedIsStuckSeeding(cfg: Config, s: State)
    requires Shape(cfg, s) && Wedged(cfg, s) && s.coord.SeedSend?
    ensures StuckSeeding(cfg, s)
  {
    forall i | 0 <= i < |s.workers| ensures Idles(cfg, s, s.workers[i]) {
      assert WorkerBlocked(cfg, s, s.workers[i]);
    }
  }

  lemma StepStaysStuck(cfg: Config, s: State, step: Step)
    requires StuckSeeding(cfg, s) && Enabled(cfg, s, step)
    ensures StuckSeeding(cfg, Apply(cfg, s, step)) && Apply(cfg, s, step).coord == s.coord
  {
    StepShape(cfg, s, step);
    if WorkerStep(step) {
      assert Idles(cfg, s, s.workers[step.w]);
      assert step.DropPage?;
    }
  }

  lemma {:induction false} StaysStuck(cfg: Config, s: State, steps: seq<Step>)
    requires StuckSeeding(cfg, s) && Execute(cfg, s, steps).Some?
    ensures StuckSeeding(cfg, Execute(cfg, s, steps).value) && Execute(cfg, s, steps).value.coord == s.coord
    decreases |steps|
  {
    if steps != [] {
      var front := steps[..|steps| - 1];
      StaysStuck(cfg, s, front);
      StepStaysStuck(cfg, Execute(cfg, s, front).value, steps[|steps| - 1]);
    }
  }

  /**
   A run that is wedged in its seeding loop, cancelled or not, stays there: whatever happens, and not even
   when the environment cancels it, Run does not return.
   */
  lemma SeedingWedgeIsPermanent(cfg: Config, start: set<string>, s: State, steps: seq<Step>)
    requires cfg.Valid() && Reachable(cfg, start, s) && Wedged(cfg, s) && s.coord.SeedSend?
    requires Execute(cfg, s, steps).Some?
    ensures Execute(cfg, s, steps).value.coord == s.coord
  {
    ReachableInv(cfg, start, s);
    WedgedIsStuckSeeding(cfg, s);
    StaysStuck(cfg, s, steps);
  }

  // ---- The seeding wedge of a run nobody cancels ----

  /** During seeding the run is cancelled only from inside, by a worker that found the budget exhausted. */
  ghost predicate SelfInflicted(s: State) {
    && (!PastSeeding(s.coord) && s.cancelled ==> s.budget <= 0 && |s.dropped| >= 1)
    && forall i :: 0 <= i < |s.workers| && s.workers[i].Refused? ==> s.budget <= 0
  }

  lemma WorkerSelfInflicted(cfg: Config, s: State, step: Step)
    requires SelfInflicted(s) && WorkerStep(step) && WorkerEnabled(cfg, s, step)
    ensures SelfInflicted(WorkerApply(cfg, s, step))
  {
    WorkerFrame(cfg, s, step);
    assert step.CancelRun? ==> s.workers[step.w].Refused?;
  }

  lemma OtherSelfInflicted(cfg: Config, s: State, step: Step)
    requires SelfInflicted(s) && !WorkerStep(step) && !step.Cancel? && OtherEnabled(cfg, s, step)
    ensures SelfInflicted(OtherApply(cfg, s, step))
  {
    OtherFrame(cfg, s, step);
  }

  lemma {:induction false} RunSelfInflicted(cfg: Config, from: State, steps: seq<Step>)
    requires SelfInflicted(from) && Cancel !in steps && Execute(cfg, from, steps).Some?
    ensures SelfInflicted(Execute(cfg, from, steps).value)
    decreases |steps|
  {
    if steps != [] {
      var front, last := steps[..|steps| - 1], steps[|steps| - 1];
      assert last in steps;
      RunSelfInflicted(cfg, from, front);
      if WorkerStep(last) {
        WorkerSelfInflicted(cfg, Execute(cfg, from, front).value, last);
      } else {
        OtherSelfInflicted(cfg, Execute(cfg, from, front).value, last);
      }
    }
  }

  /** How many start URLs a run can take in before it is stuck: what leaves the queue, and a full queue. */
  function SeedRoom(cfg: Config): int {
    cfg.QueueCap() + Min(5 * cfg.concurrency, cfg.maxPages + 1)
  }

  lemma StuckSeedingTookAll(cfg: Config, start: set<string>, s: State)
    requires cfg.Valid() && ReachableAlone(cfg, start, s) && s.coord.SeedSend? && Wedged(cfg, s)
    ensures Accepted(cfg, start, cfg.startURLs) > SeedRoom(cfg)
  {
    var paused, steps :| Cancel !in steps && Execute(cfg, Init(cfg, start, paused), steps) == Some(s);
    RunSelfInflicted(cfg, Init(cfg, start, paused), steps);
    AloneIsReachable(cfg, start, s);
    ReachableKnown(cfg, start, s);
    if !s.cancelled {
      forall i | 0 <= i < |s.workers| ensures Spent(s.workers[i]) {
        assert WorkerBlocked(cfg, s, s.workers[i]);
      }
      CountExtremes(s.workers, Spent);
    }
  }

  /** With a budget for everything that leaves the queue, the run is stuck uncancelled. */
  lemma FillBySeeding(cfg: Config, start: set<string>) returns (s: State)
    requires cfg.Valid() && cfg.maxPages >= 5 * cfg.concurrency
    requires Accepted(cfg, start, cfg.startURLs) > 13 * cfg.concurrency
    ensures ReachableAlone(cfg, start, s) && s.coord.SeedSend? && Wedged(cfg, s)
  {
    ghost var within := (m: State) => ReachableAlone(cfg, start, m);
    AloneIsClosed(cfg, start);
    StartsAlone(cfg, start);
    s := SeedUpTo(cfg, within, Init(cfg, start, false), 0, 13 * cfg.concurrency);
    LoadedIsWedged(cfg, s);
  }

  /** An idle worker takes the first task, finds the budget exhausted and cancels the run. */
  lemma Refused(cfg: Config, within: State -> bool, s: State, w: nat) returns (s': State)
    requires Closed(cfg, within) && within(s) && s.queue != [] && !s.paused && s.budget <= 0
    requires w < |s.workers| && s.workers[w].Idle?
    ensures within(s') && SameCoord(s, s') && s'.queue == s.queue[1..] && s'.cancelled
    ensures s'.workers == s.workers[w := Exited]
  {
    s' := Advance(cfg, within, s, Take(w));
    s' := Advance(cfg, within, s', Admit(w));
    s' := Advance(cfg, within, s', Refuse(w));
    s' := Advance(cfg, within, s', CancelRun(w));
  }

  /** A worker takes the task that is one too many for the budget, and cancels the run. */
  lemma RefuseOne(cfg: Config, within: State -> bool, s: State) returns (s': State)
    requires cfg.Valid() && SeedsAhead(cfg, within, s, cfg.maxPages, []) && cfg.maxPages < 5 * cfg.concurrency
    requires s.coord.SeedSend? && s.coord.task.depth == 0
    ensures within(s') && s'.coord == Seeding(s.coord.rest) && s'.seen == s.seen
    ensures s'.cancelled && s'.queue == [] && AllExited(s'.workers)
  {
    var m := Advance(cfg, within, s, SeedPush);
    m := Refused(cfg, within, m, Holding(cfg, cfg.maxPages));
    s' := EveryoneLeaves(cfg, within, m, 0);
  }

  /** With less, a worker cancels the run, everyone leaves and the queue fills up. */
  lemma ExhaustBySeeding(cfg: Config, start: set<string>) returns (s: State)
    requires cfg.Valid() && cfg.maxPages < 5 * cfg.concurrency
    requires Accepted(cfg, start, cfg.startURLs) > cfg.QueueCap() + cfg.maxPages + 1
    ensures ReachableAlone(cfg, start, s) && s.coord.SeedSend? && Wedged(cfg, s)
  {
    ghost var within := (m: State) => ReachableAlone(cfg, start, m);
    AloneIsClosed(cfg, start);
    StartsAlone(cfg, start);
    s := SeedUpTo(cfg, within, Init(cfg, start, false), 0, cfg.maxPages);
    s := RefuseOne(cfg, within, s);
    s := SeedUntilFull(cfg, within, s);
  }

  /**
   A run that nobody cancels from outside can be stuck in its seeding loop if and only if more start
   URLs are accepted than the queue takes besides what the workers take out of it.
   */
  lemma SeedingWedgesAloneIff(cfg: Config, start: set<string>)
    requires cfg.Valid()
    ensures (exists s :: ReachableAlone(cfg, start, s) && s.coord.SeedSend? && Wedged(cfg, s))
      <==> Accepted(cfg, start, cfg.startURLs) > cfg.QueueCap() + Min(5 * cfg.concurrency, cfg.maxPages + 1)
  {
    if Accepted(cfg, start, cfg.startURLs) > SeedRoom(cfg) {
      if cfg.maxPages >= 5 * cfg.concurrency {
        var s := FillBySeeding(cfg, start);
      } else {
        var s := ExhaustBySeeding(cfg, start);
      }
    }
    if s :| ReachableAlone(cfg, start, s) && s.coord.SeedSend? && Wedged(cfg, s) {
      StuckSeedingTookAll(cfg, start, s);
    }
  }

  // ---- Crawls that always return ----

  /** An unpaused state that no step of the crawl leaves is one in which Run has returned. */
  ghost predicate NeverStuck(cfg: Config, start: set<string>)
    requires cfg.Valid()
  {
    forall s :: ReachableAlone(cfg, start, s) && !s.paused && !CanStep(cfg, s) ==> s.coord.Returned?
  }

  lemma WedgedBreaks(cfg: Config, start: set<string>, s: State)
    requires cfg.Valid() && ReachableAlone(cfg, start, s) && !s.paused && Wedged(cfg, s)
    ensures !NeverStuck(cfg, start)
  {
    AloneIsReachable(cfg, start, s);
    StuckIffWedged(cfg, start, s);
  }

  lemma StuckSeedingUnpaused(cfg: Config, start: set<string>)
    requires cfg.Valid() && Accepted(cfg, start, cfg.startURLs) > SeedRoom(cfg)
    ensures !NeverStuck(cfg, start)
  {
    SeedingWedgesAloneIff(cfg, start);
    var s :| ReachableAlone(cfg, start, s) && s.coord.SeedSend? && Wedged(cfg, s);
    if s.paused {
      AloneResume(cfg, start, s);
      ResumeKeepsWedge(cfg, s);
      WedgedBreaks(cfg, start, Apply(cfg, s, Resume));
    } else {
      WedgedBreaks(cfg, start, s);
    }
  }

  lemma ResumeKeepsWedge(cfg: Config, s: State)
    requires Wedged(cfg, s)
    ensures Wedged(cfg, Apply(cfg, s, Resume)) && !Apply(cfg, s, Resume).paused
  {
    var t := Apply(cfg, s, Resume);
    forall i | 0 <= i < |t.workers| ensures WorkerBlocked(cfg, t, t.workers[i]) {
      assert WorkerBlocked(cfg, s, s.workers[i]);
    }
  }

  lemma AloneResume(cfg: Config, start: set<string>, s: State)
    requires cfg.Valid() && ReachableAlone(cfg, start, s)
    ensures ReachableAlone(cfg, start, Apply(cfg, s, Resume))
  {
    var paused, steps :| Cancel !in steps && Execute(cfg, Init(cfg, start, paused), steps) == Some(s);
    ExecuteStep(cfg, Init(cfg, start, paused), steps, s, Resume);
    assert Cancel !in steps + [Resume];
  }

  /** Without outside cancellation these are exactly the crawls that cannot get stuck; by EveryRunEnds they return. */
  lemma NeverStuckIff(cfg: Config, start: set<string>)
    requires cfg.Valid()
    ensures NeverStuck(cfg, start)
      <==> Accepted(cfg, start, cfg.startURLs) <= SeedRoom(cfg) && !DispatchCanStick(cfg, start)
  {
    if Accepted(cfg, start, cfg.startURLs) > SeedRoom(cfg) {
      StuckSeedingUnpaused(cfg, start);
    } else if DispatchCanStick(cfg, start) {
      var s := ReachDispatchWedge(cfg, start);
    } else {
      forall s | ReachableAlone(cfg, start, s) && !s.paused && !CanStep(cfg, s) ensures s.coord.Returned? {
        AloneIsReachable(cfg, start, s);
        if !s.coord.Returned? {
          StuckIffWedged(cfg, start, s);
          SeedingWedgesAloneIff(cfg, start);
          DispatchWedgesIff(cfg, start);
          assert s.coord.LinkSend? ==> StuckDispatching(cfg, start, s);
        }
      }
    }
  }

  /** Neither seeding nor an uncancelled state comes back. */
  lemma StaysPast(cfg: Config, s: State, step: Step)
    requires Enabled(cfg, s, step) && PastSeeding(s.coord) && s.cancelled
    ensures PastSeeding(Apply(cfg, s, step).coord) && Apply(cfg, s, step).cancelled
  {
    if WorkerStep(step) {
      WorkerFrame(cfg, s, step);
    } else {
      OtherFrame(cfg, s, step);
    }
  }

  lemma {:induction false} DriveReaches(cfg: Config, start: set<string>, s: State, pick: State -> Step)
    requires cfg.Valid() && Reachable(cfg, start, s) && Shape(cfg, s) && !s.paused
    ensures Reachable(cfg, start, Drive(cfg, s, pick)) && !Drive(cfg, s, pick).paused
    ensures ReachableAlone(cfg, start, s) ==> ReachableAlone(cfg, start, Drive(cfg, s, pick))
    ensures PastSeeding(s.coord) && s.cancelled ==>
      PastSeeding(Drive(cfg, s, pick).coord) && Drive(cfg, s, pick).cancelled
    decreases s.budget, FetchCount(s), Work(s)
  {
    var step := pick(s);
    if Internal(step) && Enabled(cfg, s, step) {
      StepShape(cfg, s, step);
      StepDecreases(cfg, s, step);
      KeepsRunning(cfg, s, step);
      ReachableStep(cfg, start, s, step);
      if ReachableAlone(cfg, start, s) {
        AloneStep(cfg, start, s, step);
      }
      if PastSeeding(s.coord) && s.cancelled {
        StaysPast(cfg, s, step);
      }
      DriveReaches(cfg, start, Apply(cfg, s, step), pick);
    }
  }

  /** Run returns under every schedule from every unpaused state of a crawl that cannot get stuck. */
  lemma NeverStuckReturns(cfg: Config, start: set<string>, s: State, pick: State -> Step)
    requires cfg.Valid() && ReachableAlone(cfg, start, s) && !s.paused && Diligent(cfg, pick)
    requires Accepted(cfg, start, cfg.startURLs) <= SeedRoom(cfg) && !DispatchCanStick(cfg, start)
    ensures Shape(cfg, s) && Drive(cfg, s, pick).coord.Returned?
  {
    AloneIsReachable(cfg, start, s);
    ReachableInv(cfg, start, s);
    EveryRunEnds(cfg, start, s, pick);
    DriveReaches(cfg, start, s, pick);
    NeverStuckIff(cfg, start);
    var end := Drive(cfg, s, pick);
    if !end.coord.Returned? {
      AloneIsReachable(cfg, start, end);
      StuckIffWedged(cfg, start, end);
    }
  }

  /**
   With at most 5*Concurrency pages and at most 8*Concurrency accepted start URLs Run always returns:
   whatever the pages link to, and in whatever order the goroutines move, cancelled or not.
   */
  lemma ReturnsWithinCapacity(cfg: Config, start: set<string>, s: State, pick: State -> Step)
    requires cfg.Valid() && Reachable(cfg, start, s) && !s.paused && Diligent(cfg, pick)
    requires cfg.maxPages <= 5 * cfg.concurrency && Accepted(cfg, start, cfg.startURLs) <= cfg.QueueCap()
    ensures Shape(cfg, s) && Drive(cfg, s, pick).coord.Returned?
  {
    ReachableInv(cfg, start, s);
    EveryRunEnds(cfg, start, s, pick);
    DriveReaches(cfg, start, s, pick);
    var end := Drive(cfg, s, pick);
    if !end.coord.Returned? {
      StuckIffWedged(cfg, start, end);
      if end.coord.SeedSend? {
        SeedingNeverBlocks(cfg, start, end);
      } else {
        StuckCostsPages(cfg, start, end);
      }
    }
  }

  /** Once its seeding is over, cancelling a run makes it return, even one that was stuck dispatching. */
  lemma CancelledRunReturns(cfg: Config, start: set<string>, s: State, pick: State -> Step)
    requires cfg.Valid() && Reachable(cfg, start, s) && !s.paused && Diligent(cfg, pick)
    requires s.cancelled && PastSeeding(s.coord)
    ensures Shape(cfg, s) && Drive(cfg, s, pick).coord.Returned?
  {
    ReachableInv(cfg, start, s);
    EveryRunEnds(cfg, start, s, pick);
    DriveReaches(cfg, start, s, pick);
  }
}
