/**
 One Spider.Run as a transition system: Concurrency worker goroutines, the coordinator,
 the goroutine that closes the result channel, and an environment that may cancel the
 context and pause or resume the crawl. A step is one atomic action of one of them.
 */
module SpiderModel {
  import opened Common
  import Text

  datatype Task = Task(url: string, depth: int)

  /** A CrawlResult: what a fetch hands to the coordinator. */
  datatype Page = Page(url: string, links: seq<string>, meta: map<string, string>)

  /**
   A spider's configuration after NewSpider filled in defaults. hostOf stands for url.Parse:
   the lower-cased host of a URL, or None when it does not parse or has no host. parses says that
   there is a Parse function, and prints which strings normalizeURLs can return.
   */
  datatype Config = Config(
    startURLs: seq<string>,
    concurrency: int,
    maxPages: int,
    maxDepth: int,
    domainMinInterval: int,
    hostOf: string -> Option<string>,
    parses: bool,
    prints: string -> bool,
    allowHosts: set<string>,
    denyHosts: set<string>)
  {
    predicate Valid() {
      startURLs != [] && concurrency > 0 && maxPages > 0 && maxDepth > 0 && domainMinInterval > 0
    }

    /** What a fetched page may link to. */
    predicate Links(links: seq<string>) {
      forall u :: u in links ==> parses && prints(u)
    }

    function QueueCap(): int { concurrency * 8 }

    function OutCap(): int { concurrency * 4 }
  }

  datatype Worker =
    | Idle                  // at the select on ctx.Done and queue
    | Held(task: Task)      // in waitIfPaused, at its check or at its select
    | Admitted(task: Task)  // about to consume budget
    | Refused(task: Task)   // budget exhausted, about to cancel the run
    | Fetching(task: Task)
    | Sending(page: Page)   // at the select on out and ctx.Done
    | Exited

  datatype Coordinator =
    | Seeding(rest: seq<string>)
    | SeedSend(task: Task, rest: seq<string>)      // blocked on queue <- task, no cancel branch
    | NothingSeeded                                // seeded == 0, about to close the queue
    | AwaitWorkers                                 // seeded == 0, in wg.Wait
    | Receiving
    | Dispatching(rest: seq<string>, depth: int)
    | LinkSend(task: Task, rest: seq<string>)      // at the select on queue and ctx.Done
    | Closing
    | Finishing
    | Returned(failed: bool)                       // failed: a non-nil error was returned

  /**
   The shared state of a run. The last six fields are history: the tasks ever put on the queue,
   the tasks whose fetch started, the results the coordinator received, and the tasks that a
   cancelled run dropped before the queue, before the fetch and after the fetch.
   */
  datatype State = State(
    queue: seq<Task>,
    queueClosed: bool,
    out: seq<Page>,
    outClosed: bool,
    workers: seq<Worker>,
    budget: int,
    seen: set<string>,
    paused: bool,
    cancelled: bool,
    coord: Coordinator,
    inFlight: int,  // named seeded in the source until the receive loop starts
    dispatched: seq<Task>,
    fetched: seq<Task>,
    delivered: seq<Page>,
    skipped: seq<Task>,
    dropped: multiset<Task>,
    unsent: multiset<Task>)

  function Key(url: string): string {
    Text.Trim(url)
  }

  predicate UrlAllowed(cfg: Config, url: string) {
    match cfg.hostOf(url)
    case None => false
    case Some(host) => (cfg.allowHosts == {} || host in cfg.allowHosts) && host !in cfg.denyHosts
  }

  /** Whether markSeen would report the URL as new. */
  predicate IsNew(seen: set<string>, url: string) {
    Key(url) != "" && Key(url) !in seen
  }

  /** The depth the coordinator reads back out of a result's metadata. */
  function DepthOf(page: Page): int {
    if "depth" in page.meta then
      match Text.Scan(page.meta["depth"])
      case None => 0
      case Some(d) => d
    else 0
  }

  function TaskOf(page: Page): Task {
    Task(page.url, DepthOf(page))
  }

  datatype Step =
    // worker w
    | Take(w: nat)
    | QuitClosed(w: nat)
    | QuitDone(w: nat)
    | Admit(w: nat)
    | Spend(w: nat)
    | Refuse(w: nat)
    | CancelRun(w: nat)
    | Fetch(w: nat, links: seq<string>)
    | Send(w: nat)
    | DropPage(w: nat)
    // coordinator
    | SeedNext
    | SeedPush
    | SeedEnd
    | CloseEmpty
    | ReturnEmpty
    | Receive
    | OutEnd
    | LinkNext
    | LinkPush
    | LinkSkip
    | LinksEnd
    | CloseQueue
    | Return
    // the goroutine that waits for the workers
    | CloseOut
    // environment
    | Cancel
    | Pause
    | Resume

  predicate Internal(step: Step) {
    !step.Cancel? && !step.Pause? && !step.Resume?
  }

  predicate WorkerStep(step: Step) {
    step.Take? || step.QuitClosed? || step.QuitDone? || step.Admit? || step.Spend?
    || step.Refuse? || step.CancelRun? || step.Fetch? || step.Send? || step.DropPage?
  }

  predicate AllExited(workers: seq<Worker>) {
    forall i :: 0 <= i < |workers| ==> workers[i].Exited?
  }

  function Init(cfg: Config, seen: set<string>, paused: bool): State
    requires cfg.Valid()
  {
    State([], false, [], false, seq(cfg.concurrency, _ => Idle), cfg.maxPages, seen, paused, false,
          Seeding(cfg.startURLs), 0, [], [], [], [], multiset{}, multiset{})
  }

  predicate WorkerEnabled(cfg: Config, s: State, step: Step)
    requires WorkerStep(step)
  {
    step.w < |s.workers| &&
    var me := s.workers[step.w];
    match step
    case Take(_) => me.Idle? && s.queue != []
    case QuitClosed(_) => me.Idle? && s.queueClosed && s.queue == []
    case QuitDone(_) => s.cancelled && (me.Idle? || me.Held?)
    case Admit(_) => me.Held? && !s.paused
    case Spend(_) => me.Admitted? && s.budget > 0
    case Refuse(_) => me.Admitted? && s.budget <= 0
    case CancelRun(_) => me.Refused?
    case Fetch(_, links) => me.Fetching? && cfg.Links(links)
    case Send(_) => me.Sending? && |s.out| < cfg.OutCap()
    case DropPage(_) => me.Sending? && s.cancelled
  }

  predicate OtherEnabled(cfg: Config, s: State, step: Step)
    requires !WorkerStep(step)
  {
    match step
    case SeedNext => s.coord.Seeding? && s.coord.rest != []
    case SeedPush => s.coord.SeedSend? && |s.queue| < cfg.QueueCap()
    case SeedEnd => s.coord.Seeding? && s.coord.rest == []
    case CloseEmpty => s.coord.NothingSeeded?
    case ReturnEmpty => s.coord.AwaitWorkers? && AllExited(s.workers)
    case Receive => s.coord.Receiving? && s.out != []
    case OutEnd => s.coord.Receiving? && s.out == [] && s.outClosed
    case LinkNext => s.coord.Dispatching? && s.coord.rest != []
    case LinkPush => s.coord.LinkSend? && |s.queue| < cfg.QueueCap()
    case LinkSkip => s.coord.LinkSend? && s.cancelled
    case LinksEnd => s.coord.Dispatching? && s.coord.rest == []
    case CloseQueue => s.coord.Closing?
    case Return => s.coord.Finishing?
    case CloseOut => CloserRunning(s.coord) && !s.outClosed && AllExited(s.workers)
    case _ => true
  }

  predicate Enabled(cfg: Config, s: State, step: Step) {
    if WorkerStep(step) then WorkerEnabled(cfg, s, step) else OtherEnabled(cfg, s, step)
  }

  /** The closing goroutine is started only once something was seeded. */
  predicate CloserRunning(c: Coordinator) {
    c.Receiving? || c.Dispatching? || c.LinkSend? || c.Closing? || c.Finishing? || c.Returned?
  }

  function WorkerApply(cfg: Config, s: State, step: Step): State
    requires WorkerStep(step) && WorkerEnabled(cfg, s, step)
  {
    var me := s.workers[step.w];
    match step
    case Take(_) => s.(queue := s.queue[1..], workers := s.workers[step.w := Held(s.queue[0])])
    case QuitClosed(_) => s.(workers := s.workers[step.w := Exited])
    case QuitDone(_) =>
      s.(workers := s.workers[step.w := Exited],
         dropped := s.dropped + (if me.Held? then multiset{me.task} else multiset{}))
    case Admit(_) => s.(workers := s.workers[step.w := Admitted(me.task)])
    case Spend(_) =>
      s.(workers := s.workers[step.w := Fetching(me.task)], budget := s.budget - 1, fetched := s.fetched + [me.task])
    case Refuse(_) => s.(workers := s.workers[step.w := Refused(me.task)])
    case CancelRun(_) =>
      s.(workers := s.workers[step.w := Exited], cancelled := true, dropped := s.dropped + multiset{me.task})
    case Fetch(_, links) =>
      s.(workers := s.workers[step.w := Sending(Page(me.task.url, links, map["depth" := Text.Decimal(me.task.depth)]))])
    case Send(_) => s.(workers := s.workers[step.w := Idle], out := s.out + [me.page])
    case DropPage(_) => s.(workers := s.workers[step.w := Exited], unsent := s.unsent + multiset{TaskOf(me.page)})
  }

  function OtherApply(cfg: Config, s: State, step: Step): State
    requires !WorkerStep(step) && OtherEnabled(cfg, s, step)
  {
    match step
    case SeedNext =>
      var url, rest := s.coord.rest[0], s.coord.rest[1..];
      if UrlAllowed(cfg, url) && IsNew(s.seen, url) then
        s.(seen := s.seen + {Key(url)}, coord := SeedSend(Task(url, 0), rest))
      else s.(coord := Seeding(rest))
    case SeedPush =>
      s.(queue := s.queue + [s.coord.task], dispatched := s.dispatched + [s.coord.task],
         inFlight := s.inFlight + 1, coord := Seeding(s.coord.rest))
    case SeedEnd => s.(coord := if s.inFlight == 0 then NothingSeeded else Receiving)
    case CloseEmpty => s.(queueClosed := true, coord := AwaitWorkers)
    case ReturnEmpty => s.(outClosed := true, coord := Returned(false), cancelled := true)
    case Receive =>
      s.(out := s.out[1..], delivered := s.delivered + [s.out[0]], inFlight := s.inFlight - 1,
         coord := Dispatching(s.out[0].links, DepthOf(s.out[0]) + 1))
    case OutEnd => s.(coord := Closing)
    case LinkNext =>
      var url, rest, depth := s.coord.rest[0], s.coord.rest[1..], s.coord.depth;
      if depth <= cfg.maxDepth && UrlAllowed(cfg, url) && IsNew(s.seen, url) then
        s.(seen := s.seen + {Key(url)}, coord := LinkSend(Task(url, depth), rest))
      else s.(coord := Dispatching(rest, depth))
    case LinkPush =>
      s.(queue := s.queue + [s.coord.task], dispatched := s.dispatched + [s.coord.task],
         inFlight := s.inFlight + 1, coord := Dispatching(s.coord.rest, s.coord.task.depth))
    case LinkSkip =>
      s.(skipped := s.skipped + [s.coord.task], coord := Dispatching(s.coord.rest, s.coord.task.depth))
    case LinksEnd => s.(coord := if s.inFlight <= 0 then Closing else Receiving)
    case CloseQueue => s.(queueClosed := true, coord := Finishing)
    case Return => s.(coord := Returned(s.cancelled), cancelled := true)
    case CloseOut => s.(outClosed := true)
    case Cancel => s.(cancelled := true)
    case Pause => s.(paused := true)
    case Resume => s.(paused := false)
  }

  function Apply(cfg: Config, s: State, step: Step): State
    requires Enabled(cfg, s, step)
  {
    if WorkerStep(step) then WorkerApply(cfg, s, step) else OtherApply(cfg, s, step)
  }

  /** The state after a schedule, or None when some step of it was not enabled. */
  function Execute(cfg: Config, start: State, steps: seq<Step>): Option<State>
    decreases |steps|
  {
    if steps == [] then Some(start) else
    match Execute(cfg, start, steps[..|steps| - 1])
    case None => None
    case Some(s) =>
      var last := steps[|steps| - 1];
      if Enabled(cfg, s, last) then Some(Apply(cfg, s, last)) else None
  }

  /** s is the state of some run that started with the given seen set. */
  ghost predicate Reachable(cfg: Config, seen: set<string>, s: State)
    requires cfg.Valid()
  {
    exists paused: bool, steps: seq<Step> :: Execute(cfg, Init(cfg, seen, paused), steps) == Some(s)
  }
}
