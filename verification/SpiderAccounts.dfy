/** Further accounts that every run keeps: where tasks and pages went, how much was seeded, what pages link to. */
module SpiderAccounts {
  import opened Common
  import opened SpiderModel
  import opened SpiderInvariant
  import opened SpiderTheorems
  import opened SpiderProgress

  // ---- Where the tasks and the budget went ----

  /** The worker has a task and has not spent a page on it. */
  predicate Early(w: Worker) {
    w.Held? || w.Admitted? || w.Refused?
  }

  /** The worker has spent a page and still has its result. */
  predicate Spent(w: Worker) {
    w.Fetching? || w.Sending?
  }

  ghost predicate Books(s: State) {
    && s.inFlight == |s.dispatched| - |s.delivered|
    && |s.dispatched| == |s.queue| + Count(s.workers, Early) + |s.fetched| + |s.dropped|
    && |s.fetched| == Count(s.workers, Spent) + |s.out| + |s.delivered| + |s.unsent|
  }

  /** A worker moves one task at most, and only forward. */
  ghost predicate Balanced(s: State, s': State) {
    && |s'.queue| + Count(s'.workers, Early) + |s'.fetched| + |s'.dropped|
         == |s.queue| + Count(s.workers, Early) + |s.fetched| + |s.dropped|
    && Count(s'.workers, Spent) + |s'.out| + |s'.unsent| - |s'.fetched|
         == Count(s.workers, Spent) + |s.out| + |s.unsent| - |s.fetched|
  }

  /** What a worker gives up when it leaves. */
  lemma LeavingLoses(cfg: Config, s: State, step: Step)
    requires LeavingStep(step) && WorkerEnabled(cfg, s, step)
    ensures var s', me := WorkerApply(cfg, s, step), s.workers[step.w];
      && |s'.dropped| == |s.dropped| + (if step.CancelRun? || (step.QuitDone? && me.Held?) then 1 else 0)
      && |s'.unsent| == |s.unsent| + (if step.DropPage? then 1 else 0)
  {
    match step
    case QuitDone(_) =>
    case CancelRun(_) =>
    case DropPage(_) =>
    case _ =>
  }

  lemma LeavingBooks(cfg: Config, s: State, step: Step)
    requires LeavingStep(step) && WorkerEnabled(cfg, s, step)
    ensures Balanced(s, WorkerApply(cfg, s, step))
  {
    LeavingLoses(cfg, s, step);
    WorkerFrame(cfg, s, step);
    UpdateCount(s.workers, step.w, WorkerApply(cfg, s, step).workers[step.w], Early);
    UpdateCount(s.workers, step.w, WorkerApply(cfg, s, step).workers[step.w], Spent);
  }

  lemma WorkingBooks(cfg: Config, s: State, step: Step)
    requires WorkerStep(step) && !LeavingStep(step) && WorkerEnabled(cfg, s, step)
    ensures Balanced(s, WorkerApply(cfg, s, step))
  {
    WorkerFrame(cfg, s, step);
    UpdateCount(s.workers, step.w, WorkerApply(cfg, s, step).workers[step.w], Early);
    UpdateCount(s.workers, step.w, WorkerApply(cfg, s, step).workers[step.w], Spent);
  }

  lemma FrameBooks(s: State, s': State, step: Step)
    requires Books(s) && (step.Receive? ==> s.out != []) && Frame(s, s', step)
    ensures Books(s')
  {
  }

  lemma StepBooks(cfg: Config, s: State, step: Step)
    requires Books(s) && Enabled(cfg, s, step)
    ensures Books(Apply(cfg, s, step))
  {
    if WorkerStep(step) {
      WorkerFrame(cfg, s, step);
      if LeavingStep(step) {
        LeavingBooks(cfg, s, step);
      } else {
        WorkingBooks(cfg, s, step);
      }
    } else {
      OtherFrame(cfg, s, step);
      FrameBooks(s, OtherApply(cfg, s, step), step);
    }
  }

  // ---- What seeding leaves behind ----

  predicate PastSeeding(c: Coordinator) {
    !c.Seeding? && !c.SeedSend?
  }

  /** The coordinator got past a seeding that accepted something. */
  predicate HasSeeded(c: Coordinator) {
    c.Receiving? || c.Dispatching? || c.LinkSend? || c.Closing? || c.Finishing?
  }

  /** Seeding takes no result out, so without a cancellation all accepted start URLs fit into the system. */
  ghost predicate SeedsFit(cfg: Config, start: set<string>, s: State) {
    var accepted := Accepted(cfg, start, cfg.startURLs);
    && (HasSeeded(s.coord) ==> accepted >= 1)
    && (PastSeeding(s.coord) && !s.cancelled ==> accepted <= 13 * cfg.concurrency)
  }

  lemma Capacity(cfg: Config, s: State)
    requires Shape(cfg, s)
    ensures InSystem(s) <= 13 * cfg.concurrency
  {
    CountExtremes(s.workers, Busy);
  }

  lemma CoordSeedsFit(cfg: Config, start: set<string>, s: State, step: Step)
    requires !WorkerStep(step) && !step.SeedEnd? && OtherEnabled(cfg, s, step)
    ensures var s' := OtherApply(cfg, s, step);
      && (PastSeeding(s'.coord) ==> PastSeeding(s.coord)) && (HasSeeded(s'.coord) ==> HasSeeded(s.coord))
  {
  }

  lemma StepSeedsFit(cfg: Config, start: set<string>, s: State, step: Step)
    requires Inv(cfg, start, s) && SeedCount(cfg, start, s) && SeedsFit(cfg, start, s) && Enabled(cfg, s, step)
    ensures SeedsFit(cfg, start, Apply(cfg, s, step))
  {
    if WorkerStep(step) {
      WorkerFrame(cfg, s, step);
    } else if step.SeedEnd? {
      Capacity(cfg, s);
    } else {
      OtherFrame(cfg, s, step);
      CoordSeedsFit(cfg, start, s, step);
    }
  }

  // ---- What pages link to ----

  /** Every result, wherever it waits, has links that a fetch can return. */
  ghost predicate LinksOk(cfg: Config, s: State) {
    && (forall i :: 0 <= i < |s.workers| && s.workers[i].Sending? ==> cfg.Links(s.workers[i].page.links))
    && (forall i :: 0 <= i < |s.out| ==> cfg.Links(s.out[i].links))
    && (forall i :: 0 <= i < |s.delivered| ==> cfg.Links(s.delivered[i].links))
  }

  lemma WorkerLinksOk(cfg: Config, s: State, step: Step)
    requires LinksOk(cfg, s) && WorkerStep(step) && WorkerEnabled(cfg, s, step)
    ensures LinksOk(cfg, WorkerApply(cfg, s, step))
  {
    WorkerFrame(cfg, s, step);
    var w := WorkerApply(cfg, s, step).workers[step.w];
    assert w.Sending? ==> cfg.Links(w.page.links);
  }

  lemma FrameLinksOk(cfg: Config, s: State, s': State, step: Step)
    requires LinksOk(cfg, s) && (step.Receive? ==> s.out != []) && Frame(s, s', step)
    ensures LinksOk(cfg, s')
  {
  }

  lemma StepLinksOk(cfg: Config, s: State, step: Step)
    requires LinksOk(cfg, s) && Enabled(cfg, s, step)
    ensures LinksOk(cfg, Apply(cfg, s, step))
  {
    if WorkerStep(step) {
      WorkerLinksOk(cfg, s, step);
    } else {
      OtherFrame(cfg, s, step);
      FrameLinksOk(cfg, s, OtherApply(cfg, s, step), step);
    }
  }

  // ---- All of it ----

  ghost predicate Known(cfg: Config, start: set<string>, s: State) {
    Inv(cfg, start, s) && SeedCount(cfg, start, s) && Books(s) && SeedsFit(cfg, start, s) && LinksOk(cfg, s)
  }

  lemma {:induction false} RunKnown(cfg: Config, start: set<string>, from: State, steps: seq<Step>)
    requires Known(cfg, start, from) && Execute(cfg, from, steps).Some?
    ensures Known(cfg, start, Execute(cfg, from, steps).value)
    decreases |steps|
  {
    if steps != [] {
      var front, last := steps[..|steps| - 1], steps[|steps| - 1];
      RunKnown(cfg, start, from, front);
      var s := Execute(cfg, from, front).value;
      StepInv(cfg, start, s, last);
      StepSeedCount(cfg, start, s, last);
      StepBooks(cfg, s, last);
      StepSeedsFit(cfg, start, s, last);
      StepLinksOk(cfg, s, last);
    }
  }

  lemma ReachableKnown(cfg: Config, start: set<string>, s: State)
    requires cfg.Valid() && Reachable(cfg, start, s)
    ensures Known(cfg, start, s)
  {
    var paused, steps :| Execute(cfg, Init(cfg, start, paused), steps) == Some(s);
    var from := Init(cfg, start, paused);
    InitInv(cfg, start, paused);
    CountExtremes(from.workers, Early);
    CountExtremes(from.workers, Spent);
    RunKnown(cfg, start, from, steps);
  }
}
