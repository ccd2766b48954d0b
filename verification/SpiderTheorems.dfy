/** What holds of every run of a crawl, in every interleaving. */
module SpiderTheorems {
  import opened Common
  import opened SpiderModel
  import opened SpiderInvariant
  import opened SpiderDiscovery
  import Text

  ghost predicate Inv(cfg: Config, start: set<string>, s: State) {
    && Shape(cfg, s) && Losses(s) && Counter(s) && Conserved(s) && Keys(start, s) && Outcome(s)
    && Current(s) && SeedsLeft(cfg, s) && Chains(cfg, s) && Links(cfg, s) && Seeds(cfg, s)
  }

  lemma InitInv(cfg: Config, start: set<string>, paused: bool)
    requires cfg.Valid()
    ensures Inv(cfg, start, Init(cfg, start, paused))
  {
    var s := Init(cfg, start, paused);
    CountExtremes(s.workers, Busy);
    IdleConserved(s);
    forall t ensures ConservedAt(s, t) {
      assert Tasks(s.out) == [] && Tasks(s.delivered) == [];
    }
  }

  lemma StepInv(cfg: Config, start: set<string>, s: State, step: Step)
    requires Inv(cfg, start, s) && Enabled(cfg, s, step)
    ensures Inv(cfg, start, Apply(cfg, s, step))
  {
    StepShape(cfg, s, step);
    StepLosses(cfg, s, step);
    StepCounter(cfg, s, step);
    StepConserved(cfg, s, step);
    StepKeys(cfg, start, s, step);
    StepOutcome(cfg, s, step);
    StepCurrent(cfg, s, step);
    StepChains(cfg, s, step);
    StepLinks(cfg, s, step);
    StepSeeds(cfg, s, step);
  }

  lemma {:induction false} RunInv(cfg: Config, start: set<string>, from: State, steps: seq<Step>)
    requires Inv(cfg, start, from) && Execute(cfg, from, steps).Some?
    ensures Inv(cfg, start, Execute(cfg, from, steps).value)
    decreases |steps|
  {
    if steps != [] {
      var front := steps[..|steps| - 1];
      RunInv(cfg, start, from, front);
      StepInv(cfg, start, Execute(cfg, from, front).value, steps[|steps| - 1]);
    }
  }

  lemma ReachableInv(cfg: Config, start: set<string>, s: State)
    requires cfg.Valid() && Reachable(cfg, start, s)
    ensures Inv(cfg, start, s)
  {
    var paused, steps :| Execute(cfg, Init(cfg, start, paused), steps) == Some(s);
    InitInv(cfg, start, paused);
    RunInv(cfg, start, Init(cfg, start, paused), steps);
  }

  // ---- Shutdown ----

  /**
   At the head of the receive loop the local counter equals the tasks in the queue, held by workers
   and waiting in out; cancellation can only make it an overcount, so it never hides work.
   */
  lemma InFlightIsExact(cfg: Config, start: set<string>, s: State)
    requires cfg.Valid() && Reachable(cfg, start, s) && s.coord.Receiving?
    ensures s.inFlight >= |s.queue| + BusyCount(s.workers) + |s.out|
    ensures !s.cancelled ==> s.inFlight == |s.queue| + BusyCount(s.workers) + |s.out| > 0
  {
    ReachableInv(cfg, start, s);
  }

  /**
   When Run returns nil every task it dispatched was fetched and delivered exactly once, the seen set
   grew by exactly the delivered keys, and it covers every start URL and every link that the host and
   depth policies admit.
   */
  lemma NilMeansComplete(cfg: Config, start: set<string>, s: State)
    requires cfg.Valid() && Reachable(cfg, start, s) && s.coord == Returned(false)
    ensures multiset(s.dispatched) == multiset(s.fetched) == multiset(Tasks(s.delivered))
    ensures s.seen == start + KeysOf(Tasks(s.delivered))
    ensures forall i, url :: 0 <= i < |s.delivered| && url in s.delivered[i].links ==>
              Eligible(cfg, s.delivered[i], url) ==> Key(url) in s.seen
    ensures forall url :: url in cfg.startURLs && UrlAllowed(cfg, url) && Key(url) != "" ==> Key(url) in s.seen
  {
    ReachableInv(cfg, start, s);
    IdleConserved(s);
    forall t
      ensures multiset(s.dispatched)[t] == multiset(s.fetched)[t] == multiset(Tasks(s.delivered))[t]
    {
      assert ConservedAt(s, t);
      assert Tasks(s.out) == [];
    }
    SameMultisetSameKeys(s.dispatched, Tasks(s.delivered));
    forall i, url | 0 <= i < |s.delivered| && url in s.delivered[i].links
      ensures Eligible(cfg, s.delivered[i], url) ==> Key(url) in s.seen
    {
      assert LinkDone(cfg, s, i, url);
    }
  }

  /** A crawl that returns nil has seen each start URL, and each link above the depth limit, of an admitted host. */
  lemma NilSawUrl(cfg: Config, start: set<string>, s: State, url: string)
    requires cfg.Valid() && Reachable(cfg, start, s) && s.coord == Returned(false)
    requires url in cfg.startURLs
             || exists p :: p in s.delivered && url in p.links && DepthOf(p) < cfg.maxDepth
    requires cfg.hostOf(url).Some? && cfg.hostOf(url).value !in cfg.denyHosts
    requires cfg.allowHosts == {} || cfg.hostOf(url).value in cfg.allowHosts
    ensures Text.Trim(url) == "" || Text.Trim(url) in s.seen
  {
    NilMeansComplete(cfg, start, s);
    assert UrlAllowed(cfg, url);
    if url !in cfg.startURLs {
      var p :| p in s.delivered && url in p.links && DepthOf(p) < cfg.maxDepth;
      var i :| 0 <= i < |s.delivered| && s.delivered[i] == p;
      assert Eligible(cfg, s.delivered[i], url) || Text.Trim(url) == "";
    }
  }

  lemma SameMultisetSameKeys(a: seq<Task>, b: seq<Task>)
    requires multiset(a) == multiset(b)
    ensures KeysOf(a) == KeysOf(b)
  {
    forall t ensures t in a <==> t in b {
      assert t in a <==> t in multiset(a);
      assert t in b <==> t in multiset(b);
    }
  }

  /** No channel is used after it is closed, or closed twice. */
  lemma NoChannelPanic(cfg: Config, start: set<string>, s: State, step: Step)
    requires cfg.Valid() && Reachable(cfg, start, s) && Enabled(cfg, s, step)
    ensures step.SeedPush? || step.LinkPush? || step.CloseEmpty? || step.CloseQueue? ==> !s.queueClosed
    ensures step.Send? || step.CloseOut? || step.ReturnEmpty? ==> !s.outClosed
  {
    ReachableInv(cfg, start, s);
  }

  // ---- Budget ----

  /** Results never outnumber fetches, and fetches are exactly the budget spent. */
  lemma BudgetBounds(cfg: Config, start: set<string>, s: State)
    requires cfg.Valid() && Reachable(cfg, start, s)
    ensures |s.delivered| <= |s.fetched| == cfg.maxPages - s.budget <= cfg.maxPages
  {
    ReachableInv(cfg, start, s);
    forall t ensures multiset(Tasks(s.delivered))[t] <= multiset(s.fetched)[t] {
      assert ConservedAt(s, t);
    }
    assert multiset(Tasks(s.delivered)) <= multiset(s.fetched);
    var rest := multiset(s.fetched) - multiset(Tasks(s.delivered));
    assert multiset(s.fetched) == multiset(Tasks(s.delivered)) + rest;
    assert |multiset(s.fetched)| == |s.fetched| && |multiset(Tasks(s.delivered))| == |s.delivered|;
  }

  // ---- What is fetched ----

  lemma FetchedWasDispatched(s: State)
    requires Conserved(s)
    ensures multiset(s.fetched) <= multiset(s.dispatched)
    ensures KeysOf(s.fetched) <= KeysOf(s.dispatched)
  {
    forall t ensures multiset(s.fetched)[t] <= multiset(s.dispatched)[t] {
      assert ConservedAt(s, t);
    }
    forall t | t in s.fetched ensures t in s.dispatched {
      assert t in multiset(s.fetched);
    }
  }

  /**
   Every fetched URL passes the host policy (its host is listed, where hosts are listed at all, and not denied),
   and its depth is at most MaxDepth and is the length of a
   discovery chain from a start URL.
   */
  lemma FetchedIsJustified(cfg: Config, start: set<string>, s: State, t: Task)
    requires cfg.Valid() && Reachable(cfg, start, s) && t in s.fetched
    ensures Justified(cfg, s.delivered, t)
    ensures var host := cfg.hostOf(t.url);
      host.Some? && (cfg.allowHosts == {} || host.value in cfg.allowHosts) && host.value !in cfg.denyHosts
    ensures Text.Trim(t.url) != "" && 0 <= t.depth <= cfg.maxDepth
  {
    ReachableInv(cfg, start, s);
    FetchedWasDispatched(s);
    assert t in multiset(s.fetched);
    assert t in s.dispatched;
  }

  /** Within a run no trimmed URL is fetched twice, and none that was seen before. */
  lemma FetchedOnce(cfg: Config, start: set<string>, s: State)
    requires cfg.Valid() && Reachable(cfg, start, s)
    ensures DistinctBy(s.fetched, TaskKey)
    ensures KeysOf(s.fetched) <= s.seen - start
    ensures forall i, j :: 0 <= i < j < |s.fetched| ==> Text.Trim(s.fetched[i].url) != Text.Trim(s.fetched[j].url)
    ensures forall t :: t in s.fetched ==> Text.Trim(t.url) !in start
  {
    ReachableInv(cfg, start, s);
    FetchedWasDispatched(s);
    SubLogDistinct(s.fetched, s.dispatched, TaskKey);
    forall i, j | 0 <= i < j < |s.fetched| ensures Text.Trim(s.fetched[i].url) != Text.Trim(s.fetched[j].url) {
      assert TaskKey(s.fetched[i]) != TaskKey(s.fetched[j]);
    }
    forall t | t in s.fetched ensures Text.Trim(t.url) !in start {
      assert TaskKey(t) in KeysOf(s.fetched);
    }
  }

  /** Workers that outlive a cancelled Run leave the seen set alone. */
  lemma SeenFixedAfterReturn(cfg: Config, s: State, step: Step)
    requires s.coord.Returned? && Enabled(cfg, s, step)
    ensures var s' := Apply(cfg, s, step); s'.coord == s.coord && s'.seen == s.seen && s'.dispatched == s.dispatched
  {
    if WorkerStep(step) {
      WorkerFrame(cfg, s, step);
    }
  }

  /** The seen set that run i starts from. */
  function StartOf(restored: set<string>, runs: seq<State>, i: nat): set<string>
    requires i <= |runs|
  {
    if i == 0 then restored else runs[i - 1].seen
  }

  ghost predicate IsRun(cfg: Config, restored: set<string>, runs: seq<State>, i: nat)
    requires cfg.Valid() && i < |runs|
  {
    Reachable(cfg, StartOf(restored, runs, i), runs[i]) && (i + 1 < |runs| ==> runs[i].coord.Returned?)
  }

  /** Successive Runs of one spider: each starts from the seen set the previous one left. */
  ghost predicate Session(cfg: Config, restored: set<string>, runs: seq<State>)
    requires cfg.Valid()
  {
    forall i: nat :: i < |runs| ==> IsRun(cfg, restored, runs, i)
  }

  lemma RunKeepsSeen(cfg: Config, start: set<string>, s: State)
    requires cfg.Valid() && Reachable(cfg, start, s)
    ensures start <= s.seen
  {
    ReachableInv(cfg, start, s);
  }

  lemma {:induction false} SeenGrowsOverRuns(cfg: Config, restored: set<string>, runs: seq<State>, i: nat, j: nat)
    requires cfg.Valid() && Session(cfg, restored, runs) && i <= j <= |runs|
    ensures StartOf(restored, runs, i) <= StartOf(restored, runs, j)
    decreases j - i
  {
    if i < j {
      SeenGrowsOverRuns(cfg, restored, runs, i, j - 1);
      assert IsRun(cfg, restored, runs, j - 1);
      RunKeepsSeen(cfg, StartOf(restored, runs, j - 1), runs[j - 1]);
    }
  }

  /**
   Over all Runs of one spider no trimmed URL is fetched twice, and none that a checkpoint restored is
   fetched at all.
   */
  lemma FetchedOnceOverRuns(cfg: Config, restored: set<string>, runs: seq<State>, i: nat, j: nat)
    requires cfg.Valid() && Session(cfg, restored, runs) && i <= j < |runs|
    ensures DistinctBy(runs[i].fetched, TaskKey)
    ensures i < j ==> KeysOf(runs[i].fetched) !! KeysOf(runs[j].fetched)
    ensures restored !! KeysOf(runs[i].fetched)
  {
    assert IsRun(cfg, restored, runs, i) && IsRun(cfg, restored, runs, j);
    FetchedOnce(cfg, StartOf(restored, runs, i), runs[i]);
    FetchedOnce(cfg, StartOf(restored, runs, j), runs[j]);
    SeenGrowsOverRuns(cfg, restored, runs, 0, i);
    if i < j {
      SeenGrowsOverRuns(cfg, restored, runs, i + 1, j);
    }
  }
}
