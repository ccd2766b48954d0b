/** Which URLs a crawl visits: host policy, depth, discovery chains and links already considered. */
module SpiderDiscovery {
  import opened SpiderModel
  import opened SpiderInvariant

  /** path leads from a start URL along links of delivered results, one depth a step. */
  ghost predicate Discovered(cfg: Config, delivered: seq<Page>, path: seq<string>) {
    && path != []
    && path[0] in cfg.startURLs
    && forall i :: 0 < i < |path| ==> Linked(delivered, path[i - 1], i - 1, path[i])
  }

  ghost predicate Linked(delivered: seq<Page>, from: string, depth: int, to: string) {
    exists p :: p in delivered && p.url == from && DepthOf(p) == depth && to in p.links
  }

  /** t passes the host policy, respects MaxDepth, and its depth is the length of a discovery chain. */
  ghost predicate Justified(cfg: Config, delivered: seq<Page>, t: Task) {
    && UrlAllowed(cfg, t.url) && Key(t.url) != ""
    && 0 <= t.depth <= cfg.maxDepth
    && exists path :: Discovered(cfg, delivered, path) && |path| == t.depth + 1 && path[t.depth] == t.url
  }

  /** The result whose links the coordinator is going through. */
  ghost predicate Current(s: State) {
    && (s.coord.Dispatching? ==> s.delivered != [] && var p := s.delivered[|s.delivered| - 1];
          s.coord.depth == DepthOf(p) + 1 && forall u :: u in s.coord.rest ==> u in p.links)
    && (s.coord.LinkSend? ==> s.delivered != [] && var p := s.delivered[|s.delivered| - 1];
          s.coord.task.depth == DepthOf(p) + 1 && forall u :: u in s.coord.rest ==> u in p.links)
  }

  ghost predicate SeedsLeft(cfg: Config, s: State) {
    s.coord.Seeding? || s.coord.SeedSend? ==> forall u :: u in s.coord.rest ==> u in cfg.startURLs
  }

  ghost predicate Chains(cfg: Config, s: State) {
    && (forall t :: t in s.dispatched ==> Justified(cfg, s.delivered, t))
    && (forall t :: t in Pending(s) ==> Justified(cfg, s.delivered, t))
  }

  /** The crawler is interested in this link of a delivered result. */
  predicate Eligible(cfg: Config, p: Page, url: string) {
    DepthOf(p) < cfg.maxDepth && UrlAllowed(cfg, url) && Key(url) != ""
  }

  /** url is still to be looked at, as a link of the result that is being gone through. */
  predicate LeftToDo(s: State, i: int, url: string) {
    i == |s.delivered| - 1 && (s.coord.Dispatching? || s.coord.LinkSend?) && url in s.coord.rest
  }

  ghost predicate LinkDone(cfg: Config, s: State, i: int, url: string)
    requires 0 <= i < |s.delivered|
  {
    Eligible(cfg, s.delivered[i], url) ==> Key(url) in s.seen || LeftToDo(s, i, url)
  }

  ghost predicate Links(cfg: Config, s: State) {
    forall i, url :: 0 <= i < |s.delivered| && url in s.delivered[i].links ==> LinkDone(cfg, s, i, url)
  }

  /** Every start URL the crawler is interested in is seen or still to come. */
  ghost predicate Seeds(cfg: Config, s: State) {
    forall url :: url in cfg.startURLs && UrlAllowed(cfg, url) && Key(url) != "" ==>
      Key(url) in s.seen || ((s.coord.Seeding? || s.coord.SeedSend?) && url in s.coord.rest)
  }

  lemma {:induction false} OccursIn(t: Task, ts: seq<Task>)
    ensures Occurrences(t, ts) > 0 <==> t in ts
  {
  }

  /** Whatever reached the coordinator, or waits for it, was dispatched. */
  lemma DeliveredWasDispatched(s: State, p: Page)
    requires Conserved(s) && (p in s.delivered || p in s.out)
    ensures TaskOf(p) in s.dispatched
  {
    var t := TaskOf(p);
    assert ConservedAt(s, t);
    if p in s.delivered {
      var i :| 0 <= i < |s.delivered| && s.delivered[i] == p;
      assert Tasks(s.delivered)[i] == t;
    } else {
      var i :| 0 <= i < |s.out| && s.out[i] == p;
      assert Tasks(s.out)[i] == t;
    }
    OccursIn(t, s.dispatched);
  }

  lemma MoreDelivered(cfg: Config, delivered: seq<Page>, p: Page, t: Task)
    requires Justified(cfg, delivered, t)
    ensures Justified(cfg, delivered + [p], t)
  {
    var path :| Discovered(cfg, delivered, path) && |path| == t.depth + 1 && path[t.depth] == t.url;
    forall i | 0 < i < |path| ensures Linked(delivered + [p], path[i - 1], i - 1, path[i]) {
      assert Linked(delivered, path[i - 1], i - 1, path[i]);
      var q :| q in delivered && q.url == path[i - 1] && DepthOf(q) == i - 1 && path[i] in q.links;
      assert q in delivered + [p];
    }
    assert Discovered(cfg, delivered + [p], path);
  }

  /** A link extends its page's chain by one. */
  lemma FollowLink(cfg: Config, delivered: seq<Page>, p: Page, url: string)
    requires p in delivered && Justified(cfg, delivered, TaskOf(p))
    requires url in p.links && UrlAllowed(cfg, url) && Key(url) != "" && DepthOf(p) + 1 <= cfg.maxDepth
    ensures Justified(cfg, delivered, Task(url, DepthOf(p) + 1))
  {
    var d := DepthOf(p);
    var path :| Discovered(cfg, delivered, path) && |path| == d + 1 && path[d] == p.url;
    var longer := path + [url];
    forall i | 0 < i < |longer| ensures Linked(delivered, longer[i - 1], i - 1, longer[i]) {
      if i < |path| {
        assert Linked(delivered, path[i - 1], i - 1, path[i]);
      }
    }
    assert Discovered(cfg, delivered, longer) && longer[d + 1] == url;
  }

  lemma StartChain(cfg: Config, delivered: seq<Page>, url: string)
    requires cfg.Valid() && url in cfg.startURLs && UrlAllowed(cfg, url) && Key(url) != ""
    ensures Justified(cfg, delivered, Task(url, 0))
  {
    assert Discovered(cfg, delivered, [url]);
  }

  // ---- Preservation ----

  /** Where the coordinator goes next, as far as its list of URLs is concerned. */
  ghost predicate Proceeds(cfg: Config, s: State, c': Coordinator, step: Step)
    requires !WorkerStep(step) && OtherEnabled(cfg, s, step)
  {
    var c := s.coord;
    match step
    case SeedNext =>
      if UrlAllowed(cfg, c.rest[0]) && IsNew(s.seen, c.rest[0]) then c' == SeedSend(Task(c.rest[0], 0), c.rest[1..])
      else c' == Seeding(c.rest[1..])
    case SeedPush => c' == Seeding(c.rest)
    case LinkNext =>
      if c.depth <= cfg.maxDepth && UrlAllowed(cfg, c.rest[0]) && IsNew(s.seen, c.rest[0])
      then c' == LinkSend(Task(c.rest[0], c.depth), c.rest[1..])
      else c' == Dispatching(c.rest[1..], c.depth)
    case LinkPush => c' == Dispatching(c.rest, c.task.depth)
    case LinkSkip => c' == Dispatching(c.rest, c.task.depth)
    case Receive => c' == Dispatching(s.out[0].links, DepthOf(s.out[0]) + 1)
    case _ => (c' == c || !(c'.Seeding? || c'.SeedSend? || c'.Dispatching? || c'.LinkSend?))
  }

  lemma MarkProceeds(cfg: Config, s: State, step: Step)
    requires MarkStep(step) && OtherEnabled(cfg, s, step)
    ensures Proceeds(cfg, s, OtherApply(cfg, s, step).coord, step)
  {
  }

  lemma RestProceeds(cfg: Config, s: State, step: Step)
    requires !WorkerStep(step) && !MarkStep(step) && OtherEnabled(cfg, s, step)
    ensures Proceeds(cfg, s, OtherApply(cfg, s, step).coord, step)
  {
  }

  lemma CoordFrame(cfg: Config, s: State, step: Step)
    requires !WorkerStep(step) && OtherEnabled(cfg, s, step)
    ensures Proceeds(cfg, s, OtherApply(cfg, s, step).coord, step)
  {
    if MarkStep(step) {
      MarkProceeds(cfg, s, step);
    } else {
      RestProceeds(cfg, s, step);
    }
  }

  lemma StepCurrent(cfg: Config, s: State, step: Step)
    requires Current(s) && SeedsLeft(cfg, s) && Enabled(cfg, s, step)
    ensures Current(Apply(cfg, s, step)) && SeedsLeft(cfg, Apply(cfg, s, step))
  {
    if WorkerStep(step) {
      WorkerFrame(cfg, s, step);
    } else {
      OtherFrame(cfg, s, step);
      CoordFrame(cfg, s, step);
    }
  }

  /** A newly pending task is a start URL or a link of the current result. */
  lemma MarkedIsJustified(cfg: Config, s: State, step: Step)
    requires cfg.Valid() && Current(s) && SeedsLeft(cfg, s) && Conserved(s) && Chains(cfg, s)
    requires step.SeedNext? || step.LinkNext?
    requires OtherEnabled(cfg, s, step)
    ensures forall t :: t in Pending(OtherApply(cfg, s, step)) ==> Justified(cfg, s.delivered, t)
  {
    CoordFrame(cfg, s, step);
    var url := s.coord.rest[0];
    if step.SeedNext? {
      if UrlAllowed(cfg, url) && Key(url) != "" {
        StartChain(cfg, s.delivered, url);
      }
    } else {
      var p := s.delivered[|s.delivered| - 1];
      DeliveredWasDispatched(s, p);
      if s.coord.depth <= cfg.maxDepth && UrlAllowed(cfg, url) && Key(url) != "" {
        FollowLink(cfg, s.delivered, p, url);
      }
    }
  }

  lemma StepChains(cfg: Config, s: State, step: Step)
    requires cfg.Valid() && Current(s) && SeedsLeft(cfg, s) && Conserved(s) && Chains(cfg, s) && Enabled(cfg, s, step)
    ensures Chains(cfg, Apply(cfg, s, step))
  {
    if WorkerStep(step) {
      WorkerFrame(cfg, s, step);
    } else {
      OtherFrame(cfg, s, step);
      CoordFrame(cfg, s, step);
      if step.SeedNext? || step.LinkNext? {
        MarkedIsJustified(cfg, s, step);
      } else if step.Receive? {
        forall t | Justified(cfg, s.delivered, t) ensures Justified(cfg, s.delivered + [s.out[0]], t) {
          MoreDelivered(cfg, s.delivered, s.out[0], t);
        }
      }
    }
  }

  /** Nothing leaves the seen set. */
  lemma SeenGrows(cfg: Config, s: State, step: Step)
    requires Enabled(cfg, s, step)
    ensures s.seen <= Apply(cfg, s, step).seen
    ensures step.LinkNext? ==> var s' := Apply(cfg, s, step); var url := s.coord.rest[0];
      s.coord.depth <= cfg.maxDepth && UrlAllowed(cfg, url) && Key(url) != "" ==> Key(url) in s'.seen
  {
    if WorkerStep(step) {
      WorkerFrame(cfg, s, step);
    } else {
      OtherFrame(cfg, s, step);
    }
  }

  lemma StepLinks(cfg: Config, s: State, step: Step)
    requires Current(s) && Links(cfg, s) && Enabled(cfg, s, step)
    ensures Links(cfg, Apply(cfg, s, step))
  {
    var s' := Apply(cfg, s, step);
    SeenGrows(cfg, s, step);
    forall i, url | 0 <= i < |s'.delivered| && url in s'.delivered[i].links ensures LinkDone(cfg, s', i, url) {
      if WorkerStep(step) {
        WorkerFrame(cfg, s, step);
        assert LinkDone(cfg, s, i, url);
      } else {
        OtherFrame(cfg, s, step);
        CoordFrame(cfg, s, step);
        OtherLinks(cfg, s, step, i, url);
      }
    }
  }

  lemma OtherLinks(cfg: Config, s: State, step: Step, i: int, url: string)
    requires Current(s) && Links(cfg, s) && !WorkerStep(step) && OtherEnabled(cfg, s, step)
    requires var s' := OtherApply(cfg, s, step); 0 <= i < |s'.delivered| && url in s'.delivered[i].links
    ensures LinkDone(cfg, OtherApply(cfg, s, step), i, url)
  {
    ghost var s' := OtherApply(cfg, s, step);
    OtherFrame(cfg, s, step);
    CoordFrame(cfg, s, step);
    SeenGrows(cfg, s, step);
    if i < |s.delivered| {
      assert s'.delivered[i] == s.delivered[i];
      assert LinkDone(cfg, s, i, url);
      if LeftToDo(s, i, url) && step.LinkNext? {
        assert url == s.coord.rest[0] || url in s.coord.rest[1..];
      }
    }
  }

  lemma StepSeeds(cfg: Config, s: State, step: Step)
    requires Seeds(cfg, s) && Enabled(cfg, s, step)
    ensures Seeds(cfg, Apply(cfg, s, step))
  {
    SeenGrows(cfg, s, step);
    if WorkerStep(step) {
      WorkerFrame(cfg, s, step);
    } else {
      CoordFrame(cfg, s, step);
      if step.SeedNext? {
        var url := s.coord.rest[0];
        assert UrlAllowed(cfg, url) && Key(url) != "" ==> Key(url) in Apply(cfg, s, step).seen;
        assert forall u :: u in s.coord.rest ==> u == url || u in s.coord.rest[1..];
      }
    }
  }
}
