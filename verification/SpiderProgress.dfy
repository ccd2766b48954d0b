/** When a crawl can move, when it is stuck, and why it cannot run forever. */
module SpiderProgress {
  import opened Common
  import opened SpiderModel
  import opened SpiderInvariant
  import opened SpiderDiscovery
  import opened SpiderTheorems

  // ---- Stuck states ----

  /** Some goroutine of the run, as opposed to the environment, can take a step. */
  ghost predicate CanStep(cfg: Config, s: State) {
    exists step :: Internal(step) && Enabled(cfg, s, step)
  }

  /** The coordinator is at a send on a full queue. Only the link send has a cancel branch. */
  predicate SenderBlocked(cfg: Config, s: State) {
    |s.queue| == cfg.QueueCap() && (s.coord.SeedSend? || (s.coord.LinkSend? && !s.cancelled))
  }

  predicate WorkerBlocked(cfg: Config, s: State, w: Worker) {
    w.Exited? || (w.Sending? && |s.out| == cfg.OutCap() && !s.cancelled)
  }

  predicate Wedged(cfg: Config, s: State) {
    SenderBlocked(cfg, s) && forall i :: 0 <= i < |s.workers| ==> WorkerBlocked(cfg, s, s.workers[i])
  }

  lemma WorkerCanStep(cfg: Config, s: State, w: nat)
    requires w < |s.workers| && !s.paused && |s.out| <= cfg.OutCap()
    requires !WorkerBlocked(cfg, s, s.workers[w])
    requires s.workers[w].Idle? ==> s.queue != [] || s.queueClosed || s.cancelled
    ensures exists step :: WorkerStep(step) && Enabled(cfg, s, step)
  {
    var step := match s.workers[w]
      case Idle => if s.queue != [] then Take(w) else if s.queueClosed then QuitClosed(w) else QuitDone(w)
      case Held(_) => Admit(w)
      case Admitted(_) => if s.budget > 0 then Spend(w) else Refuse(w)
      case Refused(_) => CancelRun(w)
      case Fetching(_) => Fetch(w, [])
      case Sending(_) => if |s.out| < cfg.OutCap() then Send(w) else DropPage(w)
      case Exited => Take(w);
    assert WorkerStep(step) && Enabled(cfg, s, step);
  }

  lemma WedgedCannotStep(cfg: Config, s: State, step: Step)
    requires Shape(cfg, s) && Wedged(cfg, s) && Internal(step)
    ensures !Enabled(cfg, s, step)
  {
    if WorkerStep(step) && step.w < |s.workers| {
      assert WorkerBlocked(cfg, s, s.workers[step.w]);
    } else if step.CloseOut? && s.coord.LinkSend? {
      assert !s.workers[0].Exited?;
    }
  }

  /** While the coordinator waits for results, something is still coming. */
  lemma ReceivingCanStep(cfg: Config, start: set<string>, s: State)
    requires Inv(cfg, start, s) && s.coord.Receiving? && !s.paused
    ensures CanStep(cfg, s)
  {
    if s.out != [] {
      assert Enabled(cfg, s, Receive);
    } else if s.outClosed {
      assert Enabled(cfg, s, OutEnd);
    } else if AllExited(s.workers) {
      assert Enabled(cfg, s, CloseOut);
    } else if s.cancelled {
      var w :| 0 <= w < |s.workers| && !s.workers[w].Exited?;
      WorkerCanStep(cfg, s, w);
    } else if BusyCount(s.workers) > 0 {
      CountExtremes(s.workers, Busy);
      var w :| 0 <= w < |s.workers| && Busy(s.workers[w]);
      WorkerCanStep(cfg, s, w);
    } else {
      CountExtremes(s.workers, Busy);
      assert !Busy(s.workers[0]) && !s.workers[0].Exited?;
      WorkerCanStep(cfg, s, 0);
    }
  }

  lemma AwaitCanStep(cfg: Config, start: set<string>, s: State)
    requires Inv(cfg, start, s) && s.coord.AwaitWorkers? && !s.paused
    ensures CanStep(cfg, s)
  {
    if AllExited(s.workers) {
      assert Enabled(cfg, s, ReturnEmpty);
    } else {
      var w :| 0 <= w < |s.workers| && !s.workers[w].Exited?;
      NothingDispatched(s);
      WorkerCanStep(cfg, s, w);
    }
  }

  lemma SenderCanStep(cfg: Config, s: State)
    requires Shape(cfg, s) && (s.coord.SeedSend? || s.coord.LinkSend?) && !s.paused && !Wedged(cfg, s)
    ensures CanStep(cfg, s)
  {
    if |s.queue| < cfg.QueueCap() {
      assert Enabled(cfg, s, if s.coord.SeedSend? then SeedPush else LinkPush);
    } else if s.coord.LinkSend? && s.cancelled {
      assert Enabled(cfg, s, LinkSkip);
    } else {
      var w :| 0 <= w < |s.workers| && !WorkerBlocked(cfg, s, s.workers[w]);
      WorkerCanStep(cfg, s, w);
    }
  }

  /**
   The exact deadlocks of an unpaused run that has not returned: nothing can move if and only if the
   coordinator is blocked on a full queue and every worker has exited or is blocked on a full out.
   */
  lemma StuckIffWedged(cfg: Config, start: set<string>, s: State)
    requires cfg.Valid() && Reachable(cfg, start, s) && !s.paused && !s.coord.Returned?
    ensures CanStep(cfg, s) <==> !Wedged(cfg, s)
  {
    ReachableInv(cfg, start, s);
    StuckIffWedgedInv(cfg, start, s);
  }

  lemma WedgedIsStuck(cfg: Config, s: State)
    requires Shape(cfg, s) && Wedged(cfg, s)
    ensures !CanStep(cfg, s)
  {
    forall step | Internal(step) ensures !Enabled(cfg, s, step) {
      WedgedCannotStep(cfg, s, step);
    }
  }

  lemma StuckIffWedgedInv(cfg: Config, start: set<string>, s: State)
    requires Inv(cfg, start, s) && !s.paused && !s.coord.Returned?
    ensures CanStep(cfg, s) <==> !Wedged(cfg, s)
  {
    if Wedged(cfg, s) {
      WedgedIsStuck(cfg, s);
    } else {
      match s.coord
      case Seeding(rest) => assert Enabled(cfg, s, if rest == [] then SeedEnd else SeedNext);
      case NothingSeeded => assert Enabled(cfg, s, CloseEmpty);
      case AwaitWorkers => AwaitCanStep(cfg, start, s);
      case Receiving => ReceivingCanStep(cfg, start, s);
      case Dispatching(rest, _) => assert Enabled(cfg, s, if rest == [] then LinksEnd else LinkNext);
      case Closing => assert Enabled(cfg, s, CloseQueue);
      case Finishing => assert Enabled(cfg, s, Return);
      case SeedSend(_, _) => SenderCanStep(cfg, s);
      case LinkSend(_, _) => SenderCanStep(cfg, s);
    }
  }

  /**
   While the coordinator is blocked dispatching a link, some worker can step unless exactly
   13*Concurrency tasks are in flight with every worker waiting to send its result.
   */
  lemma DispatchCapacity(cfg: Config, start: set<string>, s: State)
    requires cfg.Valid() && Reachable(cfg, start, s) && !s.paused && !s.cancelled
    requires s.coord.LinkSend? && |s.queue| == cfg.QueueCap()
    ensures InSystem(s) <= 13 * cfg.concurrency
    ensures (exists step :: WorkerStep(step) && Enabled(cfg, s, step))
      <==> InSystem(s) < 13 * cfg.concurrency || exists i :: 0 <= i < |s.workers| && !s.workers[i].Sending?
  {
    ReachableInv(cfg, start, s);
    CountExtremes(s.workers, Busy);
    if Wedged(cfg, s) {
      forall step | WorkerStep(step) ensures !Enabled(cfg, s, step) {
        WedgedCannotStep(cfg, s, step);
      }
      forall i | 0 <= i < |s.workers| ensures s.workers[i].Sending? {
        assert WorkerBlocked(cfg, s, s.workers[i]);
      }
    } else {
      var w :| 0 <= w < |s.workers| && !WorkerBlocked(cfg, s, s.workers[w]);
      WorkerCanStep(cfg, s, w);
    }
  }

  // ---- Seeding ----

  /** How many of the URLs the seeding loop will accept. */
  function Accepted(cfg: Config, seen: set<string>, urls: seq<string>): nat
    decreases |urls|
  {
    if urls == [] then 0
    else if UrlAllowed(cfg, urls[0]) && IsNew(seen, urls[0])
    then 1 + Accepted(cfg, seen + {Key(urls[0])}, urls[1..])
    else Accepted(cfg, seen, urls[1..])
  }

  ghost predicate SeedCount(cfg: Config, start: set<string>, s: State) {
    s.coord.Seeding? || s.coord.SeedSend? ==>
      |s.dispatched| + |Pending(s)| + Accepted(cfg, s.seen, s.coord.rest) == Accepted(cfg, start, cfg.startURLs)
  }

  lemma OtherSeedCount(cfg: Config, start: set<string>, s: State, step: Step)
    requires SeedCount(cfg, start, s) && (step.SeedNext? || step.SeedPush?) && OtherEnabled(cfg, s, step)
    ensures SeedCount(cfg, start, OtherApply(cfg, s, step))
  {
  }

  /** No other step of the coordinator leads back into seeding, or changes what it needs. */
  lemma LeavesSeeding(cfg: Config, s: State, step: Step)
    requires !WorkerStep(step) && !step.SeedNext? && !step.SeedPush? && OtherEnabled(cfg, s, step)
    ensures var c := OtherApply(cfg, s, step).coord; c == s.coord || !(c.Seeding? || c.SeedSend?)
  {
    CoordFrame(cfg, s, step);
  }

  lemma StepSeedCount(cfg: Config, start: set<string>, s: State, step: Step)
    requires SeedCount(cfg, start, s) && Enabled(cfg, s, step)
    ensures SeedCount(cfg, start, Apply(cfg, s, step))
  {
    if WorkerStep(step) {
      WorkerFrame(cfg, s, step);
    } else if step.SeedNext? || step.SeedPush? {
      OtherSeedCount(cfg, start, s, step);
    } else {
      OtherFrame(cfg, s, step);
      LeavesSeeding(cfg, s, step);
    }
  }

  lemma {:induction false} RunSeedCount(cfg: Config, start: set<string>, from: State, steps: seq<Step>)
    requires SeedCount(cfg, start, from) && Execute(cfg, from, steps).Some?
    ensures SeedCount(cfg, start, Execute(cfg, from, steps).value)
    decreases |steps|
  {
    if steps != [] {
      var front := steps[..|steps| - 1];
      RunSeedCount(cfg, start, from, front);
      StepSeedCount(cfg, start, Execute(cfg, from, front).value, steps[|steps| - 1]);
    }
  }

  /** With at most 8*Concurrency accepted start URLs the seeding send never blocks. */
  lemma SeedingNeverBlocks(cfg: Config, start: set<string>, s: State)
    requires cfg.Valid() && Reachable(cfg, start, s) && s.coord.SeedSend?
    requires Accepted(cfg, start, cfg.startURLs) <= cfg.QueueCap()
    ensures Enabled(cfg, s, SeedPush)
  {
    ReachableInv(cfg, start, s);
    var paused, steps :| Execute(cfg, Init(cfg, start, paused), steps) == Some(s);
    RunSeedCount(cfg, start, Init(cfg, start, paused), steps);
  }

  // ---- Termination ----

  predicate IsFetching(w: Worker) {
    w.Fetching?
  }

  function PageWeight(p: Page): nat {
    3 + 8 * |p.links|
  }

  function WorkerWeight(w: Worker): nat {
    match w
    case Idle => 1
    case Held(_) => 5
    case Admitted(_) => 4
    case Refused(_) => 3
    case Fetching(_) => 0
    case Sending(p) => 2 + PageWeight(p)
    case Exited => 0
  }

  function WorkersWeight(ws: seq<Worker>): nat {
    if ws == [] then 0 else WorkersWeight(ws[..|ws| - 1]) + WorkerWeight(ws[|ws| - 1])
  }

  function OutWeight(pages: seq<Page>): nat {
    if pages == [] then 0 else OutWeight(pages[..|pages| - 1]) + PageWeight(pages[|pages| - 1])
  }

  function CoordWeight(c: Coordinator): nat {
    match c
    case Seeding(rest) => 4 + 8 * |rest|
    case SeedSend(_, rest) => 11 + 8 * |rest|
    case NothingSeeded => 2
    case AwaitWorkers => 1
    case Receiving => 3
    case Dispatching(rest, _) => 4 + 8 * |rest|
    case LinkSend(_, rest) => 11 + 8 * |rest|
    case Closing => 2
    case Finishing => 1
    case Returned(_) => 0
  }

  /** The work left once no further fetch starts or completes. */
  function Work(s: State): nat {
    WorkersWeight(s.workers) + 5 * |s.queue| + OutWeight(s.out) + CoordWeight(s.coord) + if s.outClosed then 0 else 1
  }

  function FetchCount(s: State): nat {
    Count(s.workers, IsFetching)
  }

  /** The lexicographic order on pages left, fetches under way and remaining work. */
  predicate Smaller(s': State, s: State) {
    || s'.budget < s.budget
    || (s'.budget == s.budget && FetchCount(s') < FetchCount(s))
    || (s'.budget == s.budget && FetchCount(s') == FetchCount(s) && Work(s') < Work(s))
  }

  lemma {:induction false} UpdateWeight(ws: seq<Worker>, w: nat, to: Worker)
    requires w < |ws|
    ensures WorkersWeight(ws[w := to]) + WorkerWeight(ws[w]) == WorkersWeight(ws) + WorkerWeight(to)
  {
    var n := |ws| - 1;
    if w == n {
      assert ws[w := to][..n] == ws[..n];
    } else {
      assert ws[w := to][..n] == ws[..n][w := to];
      UpdateWeight(ws[..n], w, to);
    }
  }

  lemma PushWeight(pages: seq<Page>, p: Page)
    ensures OutWeight(pages + [p]) == OutWeight(pages) + PageWeight(p)
  {
    assert (pages + [p])[..|pages|] == pages;
  }

  lemma {:induction false} UnshiftWeight(p: Page, pages: seq<Page>)
    ensures OutWeight([p] + pages) == PageWeight(p) + OutWeight(pages)
  {
    if pages == [] {
      assert [p] + [] == [] + [p];
      PushWeight([], p);
    } else {
      var front, last := pages[..|pages| - 1], pages[|pages| - 1];
      UnshiftWeight(p, front);
      assert pages == front + [last];
      assert [p] + pages == ([p] + front) + [last];
      PushWeight(front, last);
      PushWeight([p] + front, last);
    }
  }

  lemma PopWeight(pages: seq<Page>)
    requires pages != []
    ensures OutWeight(pages) == PageWeight(pages[0]) + OutWeight(pages[1..])
  {
    UnshiftWeight(pages[0], pages[1..]);
    assert pages == [pages[0]] + pages[1..];
  }

  lemma WorkerDecreases(cfg: Config, s: State, step: Step)
    requires WorkerStep(step) && WorkerEnabled(cfg, s, step)
    ensures Smaller(WorkerApply(cfg, s, step), s)
  {
    var s' := WorkerApply(cfg, s, step);
    UpdateWeight(s.workers, step.w, s'.workers[step.w]);
    UpdateCount(s.workers, step.w, s'.workers[step.w], IsFetching);
    if step.Send? {
      PushWeight(s.out, s.workers[step.w].page);
    }
  }

  function Share(s: State): int {
    5 * |s.queue| + CoordWeight(s.coord) + if s.outClosed then 0 else 1
  }

  lemma MarkShare(cfg: Config, s: State, step: Step)
    requires MarkStep(step) && OtherEnabled(cfg, s, step)
    ensures Share(OtherApply(cfg, s, step)) < Share(s)
  {
  }

  lemma RestShare(cfg: Config, s: State, step: Step)
    requires !WorkerStep(step) && !MarkStep(step) && Internal(step) && OtherEnabled(cfg, s, step)
    ensures Share(OtherApply(cfg, s, step)) < Share(s) + if step.Receive? then PageWeight(s.out[0]) else 0
  {
  }

  lemma OtherDecreases(cfg: Config, s: State, step: Step)
    requires !WorkerStep(step) && Internal(step) && OtherEnabled(cfg, s, step)
    ensures Smaller(OtherApply(cfg, s, step), s)
  {
    OtherFrame(cfg, s, step);
    if MarkStep(step) {
      MarkShare(cfg, s, step);
    } else {
      RestShare(cfg, s, step);
    }
    if step.Receive? {
      PopWeight(s.out);
    }
    assert Work(s) == WorkersWeight(s.workers) + OutWeight(s.out) + Share(s);
  }

  /** Every step of the crawler itself, as opposed to its environment, brings the run closer to its end. */
  lemma StepDecreases(cfg: Config, s: State, step: Step)
    requires Internal(step) && Enabled(cfg, s, step)
    ensures Smaller(Apply(cfg, s, step), s)
  {
    if WorkerStep(step) {
      WorkerDecreases(cfg, s, step);
    } else {
      OtherDecreases(cfg, s, step);
    }
  }

  /** Lets a scheduler pick the steps until it picks none that is enabled. */
  ghost function Drive(cfg: Config, s: State, pick: State -> Step): State
    requires Shape(cfg, s)
    decreases s.budget, FetchCount(s), Work(s)
  {
    if Internal(pick(s)) && Enabled(cfg, s, pick(s)) then
      StepShape(cfg, s, pick(s));
      StepDecreases(cfg, s, pick(s));
      Drive(cfg, Apply(cfg, s, pick(s)), pick)
    else s
  }

  /** The scheduler picks an enabled step whenever there is one. */
  ghost predicate Diligent(cfg: Config, pick: State -> Step) {
    forall s :: CanStep(cfg, s) ==> Internal(pick(s)) && Enabled(cfg, s, pick(s))
  }

  lemma WorkerKeepsRunning(cfg: Config, s: State, step: Step)
    requires WorkerStep(step) && WorkerEnabled(cfg, s, step)
    ensures WorkerApply(cfg, s, step).paused == s.paused
  {
  }

  lemma OtherKeepsRunning(cfg: Config, s: State, step: Step)
    requires !WorkerStep(step) && Internal(step) && OtherEnabled(cfg, s, step)
    ensures OtherApply(cfg, s, step).paused == s.paused
  {
  }

  lemma KeepsRunning(cfg: Config, s: State, step: Step)
    requires Internal(step) && Enabled(cfg, s, step)
    ensures Apply(cfg, s, step).paused == s.paused
  {
    if WorkerStep(step) {
      WorkerKeepsRunning(cfg, s, step);
    } else {
      OtherKeepsRunning(cfg, s, step);
    }
  }

  lemma {:induction false} DriveEnds(cfg: Config, start: set<string>, s: State, pick: State -> Step)
    requires Inv(cfg, start, s) && !s.paused && Diligent(cfg, pick)
    ensures var end := Drive(cfg, s, pick); Inv(cfg, start, end) && (end.coord.Returned? || Wedged(cfg, end))
    decreases s.budget, FetchCount(s), Work(s)
  {
    var step := pick(s);
    if Internal(step) && Enabled(cfg, s, step) {
      StepInv(cfg, start, s, step);
      StepDecreases(cfg, s, step);
      KeepsRunning(cfg, s, step);
      DriveEnds(cfg, start, Apply(cfg, s, step), pick);
    } else if !s.coord.Returned? {
      StuckIffWedgedInv(cfg, start, s);
    }
  }

  /**
   From every reachable unpaused state, whatever the fetches return, every schedule that does not stop
   early ends after finitely many steps, and it ends with Run returned or wedged.
   */
  lemma EveryRunEnds(cfg: Config, start: set<string>, s: State, pick: State -> Step)
    requires cfg.Valid() && Reachable(cfg, start, s) && !s.paused && Diligent(cfg, pick)
    ensures Shape(cfg, s)
    ensures var end := Drive(cfg, s, pick); end.coord.Returned? || Wedged(cfg, end)
  {
    ReachableInv(cfg, start, s);
    DriveEnds(cfg, start, s, pick);
  }
}
