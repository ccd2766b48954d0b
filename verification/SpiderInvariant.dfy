/** What every step of a crawl keeps. Each part of the invariant has its own preservation lemma. */
module SpiderInvariant {
  import opened Common
  import opened SpiderModel
  import Text

  // ---- Where the tasks are ----

  predicate Busy(w: Worker) {
    !w.Idle? && !w.Exited?
  }

  /** w holds t and has not started its fetch. */
  predicate HoldsEarly(t: Task, w: Worker) {
    (w.Held? || w.Admitted? || w.Refused?) && w.task == t
  }

  /** w holds t and has started its fetch. */
  predicate HoldsLate(t: Task, w: Worker) {
    (w.Fetching? && w.task == t) || (w.Sending? && TaskOf(w.page) == t)
  }

  function EarlyTest(t: Task): Worker -> bool {
    w => HoldsEarly(t, w)
  }

  function LateTest(t: Task): Worker -> bool {
    w => HoldsLate(t, w)
  }

  function Count(ws: seq<Worker>, test: Worker -> bool): nat {
    if ws == [] then 0 else Count(ws[..|ws| - 1], test) + if test(ws[|ws| - 1]) then 1 else 0
  }

  lemma {:induction false} UpdateCount(ws: seq<Worker>, w: nat, to: Worker, test: Worker -> bool)
    requires w < |ws|
    ensures Count(ws[w := to], test) + (if test(ws[w]) then 1 else 0) == Count(ws, test) + if test(to) then 1 else 0
  {
    var n := |ws| - 1;
    if w == n {
      assert ws[w := to][..n] == ws[..n];
    } else {
      assert ws[w := to][..n] == ws[..n][w := to];
      UpdateCount(ws[..n], w, to, test);
    }
  }

  lemma {:induction false} CountExtremes(ws: seq<Worker>, test: Worker -> bool)
    ensures Count(ws, test) <= |ws|
    ensures Count(ws, test) == |ws| <==> forall i :: 0 <= i < |ws| ==> test(ws[i])
    ensures Count(ws, test) == 0 <==> forall i :: 0 <= i < |ws| ==> !test(ws[i])
  {
    if ws != [] {
      var n := |ws| - 1;
      CountExtremes(ws[..n], test);
      assert ws == ws[..n] + [ws[n]];
    }
  }

  function BusyCount(ws: seq<Worker>): nat {
    Count(ws, Busy)
  }

  function Tasks(pages: seq<Page>): (ts: seq<Task>)
    ensures |ts| == |pages|
  {
    seq(|pages|, i requires 0 <= i < |pages| => TaskOf(pages[i]))
  }

  function Occurrences(t: Task, ts: seq<Task>): nat {
    multiset(ts)[t]
  }

  /** How often t waits between the queue's sender and the start of its fetch. */
  function Unfetched(s: State, t: Task): nat {
    Occurrences(t, s.queue) + Count(s.workers, EarlyTest(t))
  }

  /** How often t waits between the start of its fetch and the coordinator. */
  function Undelivered(s: State, t: Task): nat {
    Count(s.workers, LateTest(t)) + Occurrences(t, Tasks(s.out))
  }

  /** The number of tasks the coordinator is waiting for. */
  function InSystem(s: State): nat {
    |s.queue| + BusyCount(s.workers) + |s.out|
  }

  // ---- The invariant ----

  ghost predicate Shape(cfg: Config, s: State) {
    && cfg.Valid()
    && |s.workers| == cfg.concurrency
    && |s.queue| <= cfg.QueueCap()
    && |s.out| <= cfg.OutCap()
    && 0 <= s.budget
    && |s.fetched| == cfg.maxPages - s.budget
    && (s.queueClosed <==> s.coord.AwaitWorkers? || s.coord.Finishing? || s.coord.Returned?)
    && (s.coord.Returned? ==> s.cancelled)
    && (s.outClosed ==> AllExited(s.workers) && CloserRunning(s.coord))
    && ((exists i :: 0 <= i < |s.workers| && s.workers[i].Exited?) ==> s.cancelled || s.queueClosed)
  }

  /** Nothing is lost unless the run was cancelled. */
  ghost predicate Losses(s: State) {
    !s.cancelled ==> s.skipped == [] && s.dropped == multiset{} && s.unsent == multiset{}
  }

  /** What each phase of the coordinator says about the counter. */
  ghost predicate Phases(s: State) {
    && (s.coord.Receiving? ==> s.inFlight > 0)
    && (s.coord.Seeding? || s.coord.SeedSend? ==>
          s.inFlight == |s.dispatched| && s.skipped == [] && s.delivered == [])
    && (s.coord.NothingSeeded? || s.coord.AwaitWorkers? ==> s.dispatched == [] && s.skipped == [])
    && (s.coord.Closing? || s.coord.Finishing? ==> s.inFlight <= 0 || s.cancelled)
  }

  /** The coordinator's counter never undercounts, and is exact until a cancellation. */
  ghost predicate Counter(s: State) {
    && s.inFlight >= InSystem(s)
    && (!s.cancelled ==> s.inFlight == InSystem(s))
    && Phases(s)
  }

  /** Each dispatched task is in exactly one place, and so is each fetched one. */
  ghost predicate ConservedAt(s: State, t: Task) {
    && Occurrences(t, s.dispatched) == Unfetched(s, t) + Occurrences(t, s.fetched) + s.dropped[t]
    && Occurrences(t, s.fetched) == Undelivered(s, t) + Occurrences(t, Tasks(s.delivered)) + s.unsent[t]
  }

  ghost predicate Conserved(s: State) {
    forall t :: ConservedAt(s, t)
  }

  /** The task the coordinator marked seen and is about to send. */
  function Pending(s: State): seq<Task> {
    if s.coord.SeedSend? || s.coord.LinkSend? then [s.coord.task] else []
  }

  function TaskKey(t: Task): string {
    Key(t.url)
  }

  ghost function KeysOf(ts: seq<Task>): set<string> {
    set t | t in ts :: TaskKey(t)
  }

  /**
   Everything marked seen in this run was dispatched, skipped at cancellation, or is pending; none of
   it was seen before, and no key is dispatched twice.
   */
  ghost predicate Keys(start: set<string>, s: State) {
    && s.seen == start + KeysOf(s.dispatched) + KeysOf(s.skipped) + KeysOf(Pending(s))
    && start !! KeysOf(s.dispatched)
    && start !! KeysOf(s.skipped)
    && start !! KeysOf(Pending(s))
    && KeysOf(s.dispatched) !! KeysOf(Pending(s))
    && DistinctBy(s.dispatched, TaskKey)
  }

  /** Every place a task can wait is empty, and none was lost. */
  ghost predicate Quiet(s: State) {
    && s.queue == [] && s.out == [] && BusyCount(s.workers) == 0
    && s.skipped == [] && s.dropped == multiset{} && s.unsent == multiset{}
  }

  /** A nil error was returned only over a quiet system. */
  ghost predicate Outcome(s: State) {
    s.coord.Returned? && !s.coord.failed ==> Quiet(s)
  }

  // ---- Preservation ----

  lemma WorkerShape(cfg: Config, s: State, step: Step)
    requires Shape(cfg, s) && WorkerStep(step) && WorkerEnabled(cfg, s, step)
    ensures Shape(cfg, WorkerApply(cfg, s, step))
  {
  }

  /** The coordinator keeps to the capacities, and to its own order of closing the channels. */
  lemma OtherCloses(cfg: Config, s: State, step: Step)
    requires Shape(cfg, s) && !WorkerStep(step) && OtherEnabled(cfg, s, step)
    ensures var s' := OtherApply(cfg, s, step);
      && s'.workers == s.workers && |s'.queue| <= cfg.QueueCap() && |s'.out| <= cfg.OutCap()
      && s'.budget == s.budget && s'.fetched == s.fetched
      && (s.queueClosed ==> s'.queueClosed) && (s.cancelled ==> s'.cancelled)
      && (s'.queueClosed <==> s'.coord.AwaitWorkers? || s'.coord.Finishing? || s'.coord.Returned?)
      && (s'.coord.Returned? ==> s'.cancelled)
  {
    match step
    case SeedNext =>
    case LinkNext =>
    case _ =>
  }

  lemma OtherShape(cfg: Config, s: State, step: Step)
    requires Shape(cfg, s) && !WorkerStep(step) && OtherEnabled(cfg, s, step)
    ensures Shape(cfg, OtherApply(cfg, s, step))
  {
    OtherCloses(cfg, s, step);
    match step
    case SeedNext =>
    case LinkNext =>
    case _ =>
  }

  lemma StepShape(cfg: Config, s: State, step: Step)
    requires Shape(cfg, s) && Enabled(cfg, s, step)
    ensures Shape(cfg, Apply(cfg, s, step))
  {
    if WorkerStep(step) {
      WorkerShape(cfg, s, step);
    } else {
      OtherShape(cfg, s, step);
    }
  }

  /** A worker changes its own phase, the channels and the history, never the coordinator's part. */
  ghost predicate WorkerFramed(s: State, s': State, step: Step)
    requires WorkerStep(step) && step.w < |s.workers| && (step.Take? ==> s.queue != [])
    requires step.Send? ==> s.workers[step.w].Sending?
    requires step.Spend? ==> s.workers[step.w].Admitted?
  {
    && |s'.workers| == |s.workers| && s'.workers == s.workers[step.w := s'.workers[step.w]]
    && s'.coord == s.coord && s'.inFlight == s.inFlight && s'.seen == s.seen && s'.queueClosed == s.queueClosed
    && s'.dispatched == s.dispatched && s'.skipped == s.skipped && s'.delivered == s.delivered
    && s'.queue == (if step.Take? then s.queue[1..] else s.queue)
    && s'.out == (if step.Send? then s.out + [s.workers[step.w].page] else s.out)
    && s'.fetched == (if step.Spend? then s.fetched + [s.workers[step.w].task] else s.fetched)
    && (s.cancelled ==> s'.cancelled)
  }

  predicate LeavingStep(step: Step) {
    step.QuitClosed? || step.QuitDone? || step.CancelRun? || step.DropPage? || step.Refuse?
  }

  lemma LeavingFrame(cfg: Config, s: State, step: Step)
    requires LeavingStep(step) && WorkerEnabled(cfg, s, step)
    ensures WorkerFramed(s, WorkerApply(cfg, s, step), step)
  {
  }

  lemma WorkingFrame(cfg: Config, s: State, step: Step)
    requires WorkerStep(step) && !LeavingStep(step) && WorkerEnabled(cfg, s, step)
    ensures WorkerFramed(s, WorkerApply(cfg, s, step), step)
  {
  }

  lemma WorkerFrame(cfg: Config, s: State, step: Step)
    requires WorkerStep(step) && WorkerEnabled(cfg, s, step)
    ensures WorkerFramed(s, WorkerApply(cfg, s, step), step)
  {
    if LeavingStep(step) {
      LeavingFrame(cfg, s, step);
    } else {
      WorkingFrame(cfg, s, step);
    }
  }

  /** A worker step loses a task only when the run is cancelled. */
  lemma WorkerFlow(cfg: Config, s: State, step: Step)
    requires WorkerStep(step) && WorkerEnabled(cfg, s, step)
    ensures var s' := WorkerApply(cfg, s, step);
      InSystem(s') == InSystem(s) || (InSystem(s') == InSystem(s) - 1 && s'.cancelled)
  {
    UpdateCount(s.workers, step.w, WorkerApply(cfg, s, step).workers[step.w], Busy);
  }

  lemma WorkerCounter(cfg: Config, s: State, step: Step)
    requires Counter(s) && WorkerStep(step) && WorkerEnabled(cfg, s, step)
    ensures Counter(WorkerApply(cfg, s, step))
  {
    WorkerFrame(cfg, s, step);
    WorkerFlow(cfg, s, step);
  }

  predicate MarkStep(step: Step) {
    step.SeedNext? || step.LinkNext?
  }

  predicate MoveStep(step: Step) {
    step.SeedPush? || step.LinkPush? || step.LinkSkip? || step.Receive?
  }

  /** What a step of the coordinator or the environment does to each part of the state. */
  ghost predicate Frame(s: State, s': State, step: Step)
    requires step.Receive? ==> s.out != []
  {
    var sent := if step.SeedPush? || step.LinkPush? then Pending(s) else [];
    && s'.workers == s.workers && s'.fetched == s.fetched && s'.budget == s.budget
    && s'.dropped == s.dropped && s'.unsent == s.unsent
    && s'.queue == s.queue + sent && s'.dispatched == s.dispatched + sent
    && s'.inFlight == s.inFlight + |sent| - (if step.Receive? then 1 else 0)
    && s'.out == (if step.Receive? then s.out[1..] else s.out)
    && s'.delivered == (if step.Receive? then s.delivered + [s.out[0]] else s.delivered)
    && s'.skipped == (if step.LinkSkip? then s.skipped + Pending(s) else s.skipped)
    && (s.cancelled ==> s'.cancelled)
    && if MarkStep(step) then Marks(s, s') else s'.seen == s.seen && Settles(s, s', step)
  }

  /** At most one URL becomes pending, and it is marked seen. */
  ghost predicate Marks(s: State, s': State) {
    && Pending(s) == []
    && if Pending(s') == [] then s'.seen == s.seen
       else IsNew(s.seen, Pending(s')[0].url) && s'.seen == s.seen + {TaskKey(Pending(s')[0])}
  }

  /** The pending task, if any, is sent or given up, or stays pending. */
  ghost predicate Settles(s: State, s': State, step: Step) {
    if step.SeedPush? || step.LinkPush? || step.LinkSkip? then Pending(s) != [] && Pending(s') == []
    else Pending(s') == Pending(s)
  }

  lemma MarkOnly(cfg: Config, s: State, step: Step)
    requires MarkStep(step) && OtherEnabled(cfg, s, step)
    ensures var s' := OtherApply(cfg, s, step); s' == s.(seen := s'.seen, coord := s'.coord)
  {
    match step
    case SeedNext =>
    case LinkNext =>
  }

  lemma MarkMarks(cfg: Config, s: State, step: Step)
    requires MarkStep(step) && OtherEnabled(cfg, s, step)
    ensures Marks(s, OtherApply(cfg, s, step))
  {
    match step
    case SeedNext =>
    case LinkNext =>
  }

  lemma MarkedFrame(s: State, s': State, step: Step)
    requires MarkStep(step) && s' == s.(seen := s'.seen, coord := s'.coord) && Marks(s, s')
    ensures Frame(s, s', step)
  {
    assert s.queue + [] == s.queue && s.dispatched + [] == s.dispatched;
  }

  lemma MarkFrame(cfg: Config, s: State, step: Step)
    requires MarkStep(step) && OtherEnabled(cfg, s, step)
    ensures Frame(s, OtherApply(cfg, s, step), step)
  {
    MarkOnly(cfg, s, step);
    MarkMarks(cfg, s, step);
    MarkedFrame(s, OtherApply(cfg, s, step), step);
  }

  lemma MoveFrame(cfg: Config, s: State, step: Step)
    requires MoveStep(step) && OtherEnabled(cfg, s, step)
    ensures Frame(s, OtherApply(cfg, s, step), step)
  {
  }

  lemma RestFrame(cfg: Config, s: State, step: Step)
    requires !WorkerStep(step) && !MarkStep(step) && !MoveStep(step) && OtherEnabled(cfg, s, step)
    ensures Frame(s, OtherApply(cfg, s, step), step)
  {
  }

  lemma OtherFrame(cfg: Config, s: State, step: Step)
    requires !WorkerStep(step) && OtherEnabled(cfg, s, step)
    ensures Frame(s, OtherApply(cfg, s, step), step)
  {
    if MarkStep(step) {
      MarkFrame(cfg, s, step);
    } else if MoveStep(step) {
      MoveFrame(cfg, s, step);
    } else {
      RestFrame(cfg, s, step);
    }
  }

  lemma WorkerLosses(cfg: Config, s: State, step: Step)
    requires Losses(s) && WorkerStep(step) && WorkerEnabled(cfg, s, step)
    ensures Losses(WorkerApply(cfg, s, step))
  {
  }

  lemma OtherLosses(cfg: Config, s: State, step: Step)
    requires Losses(s) && !WorkerStep(step) && OtherEnabled(cfg, s, step)
    ensures Losses(OtherApply(cfg, s, step))
  {
    OtherFrame(cfg, s, step);
  }

  lemma StepLosses(cfg: Config, s: State, step: Step)
    requires Losses(s) && Enabled(cfg, s, step)
    ensures Losses(Apply(cfg, s, step))
  {
    if WorkerStep(step) {
      WorkerLosses(cfg, s, step);
    } else {
      OtherLosses(cfg, s, step);
    }
  }

  /** The coordinator's counter moves with the tasks in the system. */
  lemma OtherFlow(cfg: Config, s: State, step: Step)
    requires !WorkerStep(step) && OtherEnabled(cfg, s, step)
    ensures var s' := OtherApply(cfg, s, step);
      InSystem(s') - InSystem(s) == s'.inFlight - s.inFlight && (s.cancelled ==> s'.cancelled)
  {
    OtherFrame(cfg, s, step);
  }

  lemma OtherPhases(cfg: Config, s: State, step: Step)
    requires Shape(cfg, s) && Phases(s) && !WorkerStep(step) && OtherEnabled(cfg, s, step)
    ensures Phases(OtherApply(cfg, s, step))
  {
    match step
    case SeedNext =>
    case LinkNext =>
    case OutEnd => assert s.workers[0].Exited?;
    case _ =>
  }

  lemma OtherCounter(cfg: Config, s: State, step: Step)
    requires Shape(cfg, s) && Counter(s) && !WorkerStep(step) && OtherEnabled(cfg, s, step)
    ensures Counter(OtherApply(cfg, s, step))
  {
    OtherFlow(cfg, s, step);
    OtherPhases(cfg, s, step);
  }

  lemma StepCounter(cfg: Config, s: State, step: Step)
    requires Shape(cfg, s) && Counter(s) && Enabled(cfg, s, step)
    ensures Counter(Apply(cfg, s, step))
  {
    if WorkerStep(step) {
      WorkerCounter(cfg, s, step);
    } else {
      OtherCounter(cfg, s, step);
    }
  }

  lemma PushTask(ts: seq<Task>, x: Task, t: Task)
    ensures Occurrences(t, ts + [x]) == Occurrences(t, ts) + if x == t then 1 else 0
  {
  }

  lemma PushPage(pages: seq<Page>, p: Page, t: Task)
    ensures Occurrences(t, Tasks(pages + [p])) == Occurrences(t, Tasks(pages)) + if TaskOf(p) == t then 1 else 0
  {
    assert Tasks(pages + [p]) == Tasks(pages) + [TaskOf(p)];
  }

  lemma PopTask(ts: seq<Task>, t: Task)
    requires ts != []
    ensures Occurrences(t, ts) == Occurrences(t, ts[1..]) + if ts[0] == t then 1 else 0
  {
    assert ts == [ts[0]] + ts[1..];
  }

  lemma PopPage(pages: seq<Page>, t: Task)
    requires pages != []
    ensures Occurrences(t, Tasks(pages)) == Occurrences(t, Tasks(pages[1..])) + if TaskOf(pages[0]) == t then 1 else 0
  {
    assert Tasks(pages)[1..] == Tasks(pages[1..]);
    PopTask(Tasks(pages), t);
  }

  /** Up to the start of its fetch a worker keeps, starts or drops its task. */
  lemma WorkerEarly(cfg: Config, s: State, step: Step, t: Task)
    requires WorkerStep(step) && WorkerEnabled(cfg, s, step)
    ensures var s' := WorkerApply(cfg, s, step);
      Unfetched(s', t) + Occurrences(t, s'.fetched) + s'.dropped[t]
        == Unfetched(s, t) + Occurrences(t, s.fetched) + s.dropped[t]
  {
    var s' := WorkerApply(cfg, s, step);
    UpdateCount(s.workers, step.w, s'.workers[step.w], EarlyTest(t));
    if step.Take? {
      PopTask(s.queue, t);
    } else if step.Spend? {
      PushTask(s.fetched, s.workers[step.w].task, t);
    }
  }

  /** From the start of its fetch a worker keeps, delivers or drops it. */
  lemma WorkerLate(cfg: Config, s: State, step: Step, t: Task)
    requires WorkerStep(step) && WorkerEnabled(cfg, s, step)
    ensures var s' := WorkerApply(cfg, s, step);
      Undelivered(s', t) + s'.unsent[t] + Occurrences(t, s.fetched)
        == Undelivered(s, t) + s.unsent[t] + Occurrences(t, s'.fetched)
  {
    var s' := WorkerApply(cfg, s, step);
    UpdateCount(s.workers, step.w, s'.workers[step.w], LateTest(t));
    if step.Fetch? {
      Text.ScanDecimal(s.workers[step.w].task.depth);
    } else if step.Spend? {
      PushTask(s.fetched, s.workers[step.w].task, t);
    } else if step.Send? {
      PushPage(s.out, s.workers[step.w].page, t);
    }
  }

  lemma WorkerConserved(cfg: Config, s: State, step: Step, t: Task)
    requires WorkerStep(step) && WorkerEnabled(cfg, s, step) && ConservedAt(s, t)
    ensures ConservedAt(WorkerApply(cfg, s, step), t)
  {
    WorkerFrame(cfg, s, step);
    WorkerEarly(cfg, s, step, t);
    WorkerLate(cfg, s, step, t);
  }

  lemma PushConserved(s: State, s': State, t: Task)
    requires ConservedAt(s, t) && Pending(s) != []
    requires s'.queue == s.queue + Pending(s) && s'.dispatched == s.dispatched + Pending(s)
    requires s'.workers == s.workers && s'.fetched == s.fetched && s'.dropped == s.dropped
    requires s'.out == s.out && s'.delivered == s.delivered && s'.unsent == s.unsent
    ensures ConservedAt(s', t)
  {
    PushTask(s.queue, s.coord.task, t);
    PushTask(s.dispatched, s.coord.task, t);
  }

  lemma ReceiveConserved(s: State, s': State, t: Task)
    requires ConservedAt(s, t) && s.out != []
    requires s'.out == s.out[1..] && s'.delivered == s.delivered + [s.out[0]]
    requires s'.queue == s.queue && s'.dispatched == s.dispatched
    requires s'.workers == s.workers && s'.fetched == s.fetched
    requires s'.dropped == s.dropped && s'.unsent == s.unsent
    ensures ConservedAt(s', t)
  {
    PopPage(s.out, t);
    PushPage(s.delivered, s.out[0], t);
  }

  /** What the coordinator, the closer and the environment do besides sending and receiving. */
  lemma OtherConserved(cfg: Config, s: State, step: Step, t: Task)
    requires !WorkerStep(step) && OtherEnabled(cfg, s, step) && ConservedAt(s, t)
    ensures ConservedAt(OtherApply(cfg, s, step), t)
  {
    OtherFrame(cfg, s, step);
    ghost var s' := OtherApply(cfg, s, step);
    if step.Receive? {
      ReceiveConserved(s, s', t);
    } else if step.SeedPush? || step.LinkPush? {
      PushConserved(s, s', t);
    } else {
      SameConserved(s, s', t);
    }
  }

  lemma SameConserved(s: State, s': State, t: Task)
    requires ConservedAt(s, t)
    requires s'.queue == s.queue && s'.dispatched == s.dispatched && s'.out == s.out && s'.delivered == s.delivered
    requires s'.workers == s.workers && s'.fetched == s.fetched && s'.dropped == s.dropped && s'.unsent == s.unsent
    ensures ConservedAt(s', t)
  {
  }

  lemma StepConserved(cfg: Config, s: State, step: Step)
    requires Conserved(s) && Enabled(cfg, s, step)
    ensures Conserved(Apply(cfg, s, step))
  {
    forall t ensures ConservedAt(Apply(cfg, s, step), t) {
      assert ConservedAt(s, t);
      if WorkerStep(step) {
        WorkerConserved(cfg, s, step, t);
      } else {
        OtherConserved(cfg, s, step, t);
      }
    }
  }

  lemma KeysOfPush(ts: seq<Task>, t: Task)
    ensures KeysOf(ts + [t]) == KeysOf(ts) + {TaskKey(t)}
  {
    assert t in ts + [t];
    forall x | x in ts ensures x in ts + [t] {
    }
  }

  lemma KeysOfPending(s: State)
    ensures KeysOf(Pending(s)) == if s.coord.SeedSend? || s.coord.LinkSend? then {TaskKey(s.coord.task)} else {}
  {
  }

  /** A send moves the pending key to the dispatched ones. */
  lemma PushKeys(start: set<string>, s: State, s': State)
    requires Keys(start, s) && Pending(s) != []
    requires s'.dispatched == s.dispatched + Pending(s) && s'.seen == s.seen && s'.skipped == s.skipped
    requires Pending(s') == []
    ensures Keys(start, s')
  {
    var t := s.coord.task;
    KeysOfPending(s);
    KeysOfPending(s');
    KeysOfPush(s.dispatched, t);
    forall i | 0 <= i < |s.dispatched| ensures TaskKey(s.dispatched[i]) != TaskKey(t) {
      assert TaskKey(s.dispatched[i]) in KeysOf(s.dispatched);
    }
  }

  /** A mark adds the key of the task that is now pending. */
  lemma MarkKeys(start: set<string>, s: State, s': State)
    requires Keys(start, s) && Pending(s) == []
    requires s'.dispatched == s.dispatched && s'.skipped == s.skipped && Marks(s, s')
    ensures Keys(start, s')
  {
    KeysOfPending(s);
    KeysOfPending(s');
  }

  lemma SkipKeys(start: set<string>, s: State, s': State)
    requires Keys(start, s) && Pending(s) != [] && Pending(s') == []
    requires s'.dispatched == s.dispatched && s'.skipped == s.skipped + Pending(s) && s'.seen == s.seen
    ensures Keys(start, s')
  {
    KeysOfPending(s);
    KeysOfPending(s');
    KeysOfPush(s.skipped, s.coord.task);
  }

  lemma SameKeys(start: set<string>, s: State, s': State)
    requires Keys(start, s) && Pending(s') == Pending(s)
    requires s'.dispatched == s.dispatched && s'.skipped == s.skipped && s'.seen == s.seen
    ensures Keys(start, s')
  {
  }

  lemma FrameKeys(start: set<string>, s: State, s': State, step: Step)
    requires Keys(start, s) && (step.Receive? ==> s.out != []) && Frame(s, s', step)
    ensures Keys(start, s')
  {
    if MarkStep(step) {
      MarkKeys(start, s, s');
    } else if step.SeedPush? || step.LinkPush? {
      PushKeys(start, s, s');
    } else if step.LinkSkip? {
      SkipKeys(start, s, s');
    } else {
      SameKeys(start, s, s');
    }
  }

  lemma StepKeys(cfg: Config, start: set<string>, s: State, step: Step)
    requires Keys(start, s) && Enabled(cfg, s, step)
    ensures Keys(start, Apply(cfg, s, step))
  {
    if WorkerStep(step) {
      WorkerFrame(cfg, s, step);
      SameKeys(start, s, Apply(cfg, s, step));
    } else {
      OtherFrame(cfg, s, step);
      FrameKeys(start, s, Apply(cfg, s, step), step);
    }
  }

  lemma IdleConserved(s: State)
    requires BusyCount(s.workers) == 0
    ensures forall t :: Count(s.workers, EarlyTest(t)) == 0 && Count(s.workers, LateTest(t)) == 0
  {
    CountExtremes(s.workers, Busy);
    forall t ensures Count(s.workers, EarlyTest(t)) == 0 && Count(s.workers, LateTest(t)) == 0 {
      CountExtremes(s.workers, EarlyTest(t));
      CountExtremes(s.workers, LateTest(t));
    }
  }

  lemma NothingDispatched(s: State)
    requires Conserved(s) && s.dispatched == []
    ensures s.queue == [] && s.out == [] && s.dropped == multiset{} && s.unsent == multiset{}
  {
    forall t
      ensures s.dropped[t] == 0 && s.unsent[t] == 0 && multiset(s.queue)[t] == 0 && multiset(Tasks(s.out))[t] == 0
    {
      assert ConservedAt(s, t);
    }
    assert s.dropped == s.unsent == multiset(s.queue) == multiset(Tasks(s.out)) == multiset{};
    assert |s.queue| == |multiset(s.queue)| && |s.out| == |multiset(Tasks(s.out))|;
  }

  /** In a quiet system a worker can only leave. */
  lemma QuietWorkerLeaves(cfg: Config, s: State, step: Step)
    requires Quiet(s) && WorkerStep(step) && WorkerEnabled(cfg, s, step)
    ensures WorkerApply(cfg, s, step) == s.(workers := s.workers[step.w := Exited])
  {
    CountExtremes(s.workers, Busy);
    assert !Busy(s.workers[step.w]);
  }

  lemma WorkerOutcome(cfg: Config, s: State, step: Step)
    requires Outcome(s) && WorkerStep(step) && WorkerEnabled(cfg, s, step)
    ensures Outcome(WorkerApply(cfg, s, step))
  {
    WorkerFrame(cfg, s, step);
    if s.coord.Returned? && !s.coord.failed {
      CountExtremes(s.workers, Busy);
      QuietWorkerLeaves(cfg, s, step);
      UpdateCount(s.workers, step.w, Exited, Busy);
    }
  }

  /** Apart from the two return steps nothing leads to a return, and afterwards nothing else changes. */
  lemma RestOutcome(cfg: Config, s: State, step: Step)
    requires !WorkerStep(step) && !step.Return? && !step.ReturnEmpty? && OtherEnabled(cfg, s, step)
    ensures OtherApply(cfg, s, step).coord.Returned? ==>
      OtherApply(cfg, s, step).coord == s.coord && !MarkStep(step) && !MoveStep(step)
  {
    match step
    case SeedNext =>
    case LinkNext =>
    case SeedEnd =>
    case LinksEnd =>
    case _ =>
  }

  lemma OtherOutcome(cfg: Config, s: State, step: Step)
    requires Shape(cfg, s) && Losses(s) && Counter(s) && Conserved(s) && Outcome(s)
    requires !WorkerStep(step) && OtherEnabled(cfg, s, step)
    ensures Outcome(OtherApply(cfg, s, step))
  {
    OtherFrame(cfg, s, step);
    if step.ReturnEmpty? {
      NothingDispatched(s);
      CountExtremes(s.workers, Busy);
    } else if !step.Return? {
      RestOutcome(cfg, s, step);
    }
  }

  lemma StepOutcome(cfg: Config, s: State, step: Step)
    requires Shape(cfg, s) && Losses(s) && Counter(s) && Conserved(s) && Outcome(s) && Enabled(cfg, s, step)
    ensures Outcome(Apply(cfg, s, step))
  {
    if WorkerStep(step) {
      WorkerOutcome(cfg, s, step);
    } else {
      OtherOutcome(cfg, s, step);
    }
  }
}
