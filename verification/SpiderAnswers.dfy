/** What Run answers, and what Pause does, in terms of the steps that were taken. */
module SpiderAnswers {
  import opened Common
  import opened SpiderModel
  import opened SpiderInvariant
  import opened SpiderTheorems
  import opened SpiderProgress
  import opened SpiderAccounts

  // ---- The error Run returns ----

  /** The context was cancelled, from outside or by a worker, before step k. */
  ghost predicate CancelledBefore(steps: seq<Step>, k: nat) {
    exists j :: 0 <= j < k && j < |steps| && (steps[j].Cancel? || steps[j].CancelRun?)
  }

  predicate ReturnStep(step: Step) {
    step.Return? || step.ReturnEmpty?
  }

  /** Run returned at step k and nowhere else. */
  ghost predicate ReturnsAt(steps: seq<Step>, k: nat) {
    && k < |steps| && ReturnStep(steps[k])
    && forall m :: 0 <= m < |steps| && ReturnStep(steps[m]) ==> m == k
  }

  ghost predicate NoReturn(steps: seq<Step>) {
    forall m :: 0 <= m < |steps| ==> !ReturnStep(steps[m])
  }

  /** The return at step k answers for what came before it. */
  ghost predicate AnswersAt(steps: seq<Step>, s: State, k: nat)
    requires s.coord.Returned?
  {
    && ReturnsAt(steps, k)
    && if s.dispatched == [] then steps[k].ReturnEmpty? && !s.coord.failed
       else steps[k].Return? && (s.coord.failed <==> CancelledBefore(steps, k))
  }

  ghost predicate Answered(steps: seq<Step>, s: State) {
    if s.coord.Returned? then exists k :: AnswersAt(steps, s, k)
    else NoReturn(steps) && (s.cancelled <==> CancelledBefore(steps, |steps|))
  }

  /** Where the coordinator stands shows whether anything was dispatched. */
  ghost predicate Dispatched(s: State) {
    HasSeeded(s.coord) ==> s.dispatched != []
  }

  lemma RestDispatched(cfg: Config, s: State, step: Step)
    requires !WorkerStep(step) && !step.SeedEnd? && OtherEnabled(cfg, s, step)
    ensures HasSeeded(OtherApply(cfg, s, step).coord) ==> HasSeeded(s.coord)
  {
    CoordSeedsFit(cfg, {}, s, step);
  }

  lemma StepDispatched(cfg: Config, start: set<string>, s: State, step: Step)
    requires Inv(cfg, start, s) && Dispatched(s) && Enabled(cfg, s, step)
    ensures Dispatched(Apply(cfg, s, step))
  {
    if WorkerStep(step) {
      WorkerFrame(cfg, s, step);
    } else {
      OtherFrame(cfg, s, step);
      if !step.SeedEnd? {
        RestDispatched(cfg, s, step);
      }
    }
  }

  lemma CancelledStill(steps: seq<Step>, last: Step, k: nat)
    requires k <= |steps|
    ensures CancelledBefore(steps + [last], k) <==> CancelledBefore(steps, k)
    ensures CancelledBefore(steps + [last], |steps| + 1)
      <==> CancelledBefore(steps, |steps|) || last.Cancel? || last.CancelRun?
  {
    var longer := steps + [last];
    if j :| 0 <= j < k && (longer[j].Cancel? || longer[j].CancelRun?) {
      assert steps[j] == longer[j];
    }
    if j :| 0 <= j < k && (steps[j].Cancel? || steps[j].CancelRun?) {
      assert steps[j] == longer[j];
    }
    if j :| 0 <= j < |steps| && (steps[j].Cancel? || steps[j].CancelRun?) {
      assert steps[j] == longer[j];
    }
    if j :| 0 <= j < |longer| && (longer[j].Cancel? || longer[j].CancelRun?) {
      assert j < |steps| ==> steps[j] == longer[j];
    }
    assert longer[|steps|] == last;
  }

  lemma WorkerCancels(cfg: Config, s: State, step: Step)
    requires WorkerStep(step) && WorkerEnabled(cfg, s, step)
    ensures WorkerApply(cfg, s, step).cancelled <==> s.cancelled || step.CancelRun?
  {
  }

  lemma OtherCancels(cfg: Config, s: State, step: Step)
    requires !WorkerStep(step) && !ReturnStep(step) && OtherEnabled(cfg, s, step)
    ensures OtherApply(cfg, s, step).cancelled <==> s.cancelled || step.Cancel?
  {
    match step
    case SeedNext =>
    case LinkNext =>
    case _ =>
  }

  /** Only a cancellation, or the return itself, cancels the context; and only a return step returns. */
  lemma WhoCancels(cfg: Config, s: State, step: Step)
    requires Enabled(cfg, s, step) && !s.coord.Returned? && !ReturnStep(step)
    ensures var s' := Apply(cfg, s, step);
      !s'.coord.Returned? && (s'.cancelled <==> s.cancelled || step.Cancel? || step.CancelRun?)
  {
    if WorkerStep(step) {
      WorkerFrame(cfg, s, step);
      WorkerCancels(cfg, s, step);
    } else {
      RestOutcome(cfg, s, step);
      OtherCancels(cfg, s, step);
    }
  }

  lemma WhatIsReturned(cfg: Config, start: set<string>, s: State, step: Step)
    requires Inv(cfg, start, s) && Dispatched(s) && Enabled(cfg, s, step) && ReturnStep(step)
    ensures var s' := Apply(cfg, s, step);
      && s'.dispatched == s.dispatched && s'.coord.Returned?
      && (step.Return? ==> s.dispatched != [] && s'.coord.failed == s.cancelled)
      && (step.ReturnEmpty? ==> s.dispatched == [] && !s'.coord.failed)
      && !s.coord.Returned?
  {
  }

  lemma ReturnedAnswered(cfg: Config, steps: seq<Step>, s: State, step: Step)
    requires s.coord.Returned? && Answered(steps, s) && Enabled(cfg, s, step)
    ensures Answered(steps + [step], Apply(cfg, s, step))
  {
    var k :| AnswersAt(steps, s, k);
    SeenFixedAfterReturn(cfg, s, step);
    CancelledStill(steps, step, k);
    NoSecondReturn(cfg, s, step);
    assert AnswersAt(steps + [step], Apply(cfg, s, step), k);
  }

  lemma ReturningAnswered(cfg: Config, start: set<string>, steps: seq<Step>, s: State, step: Step)
    requires Inv(cfg, start, s) && Dispatched(s) && Answered(steps, s) && Enabled(cfg, s, step) && ReturnStep(step)
    ensures Answered(steps + [step], Apply(cfg, s, step))
  {
    WhatIsReturned(cfg, start, s, step);
    CancelledStill(steps, step, |steps|);
    assert AnswersAt(steps + [step], Apply(cfg, s, step), |steps|);
  }

  lemma RunningAnswered(cfg: Config, steps: seq<Step>, s: State, step: Step)
    requires !s.coord.Returned? && Answered(steps, s) && Enabled(cfg, s, step) && !ReturnStep(step)
    ensures Answered(steps + [step], Apply(cfg, s, step))
  {
    WhoCancels(cfg, s, step);
    CancelledStill(steps, step, |steps|);
  }

  lemma NoSecondReturn(cfg: Config, s: State, step: Step)
    requires Enabled(cfg, s, step) && s.coord.Returned?
    ensures !ReturnStep(step)
  {
  }

  ghost predicate SoFar(cfg: Config, start: set<string>, steps: seq<Step>, s: State) {
    Inv(cfg, start, s) && Dispatched(s) && Answered(steps, s)
  }

  lemma StepSoFar(cfg: Config, start: set<string>, steps: seq<Step>, s: State, step: Step)
    requires SoFar(cfg, start, steps, s) && Enabled(cfg, s, step)
    ensures SoFar(cfg, start, steps + [step], Apply(cfg, s, step))
  {
    StepInv(cfg, start, s, step);
    StepDispatched(cfg, start, s, step);
    if s.coord.Returned? {
      ReturnedAnswered(cfg, steps, s, step);
    } else if ReturnStep(step) {
      ReturningAnswered(cfg, start, steps, s, step);
    } else {
      RunningAnswered(cfg, steps, s, step);
    }
  }

  lemma InitSoFar(cfg: Config, start: set<string>, paused: bool)
    requires cfg.Valid()
    ensures SoFar(cfg, start, [], Init(cfg, start, paused))
  {
    InitInv(cfg, start, paused);
  }

  lemma LastApart(steps: seq<Step>)
    requires steps != []
    ensures steps[..|steps| - 1] + [steps[|steps| - 1]] == steps
  {
  }

  lemma {:induction false} RunSoFar(cfg: Config, start: set<string>, from: State, steps: seq<Step>)
    requires SoFar(cfg, start, [], from) && Execute(cfg, from, steps).Some?
    ensures SoFar(cfg, start, steps, Execute(cfg, from, steps).value)
    decreases |steps|
  {
    if steps != [] {
      var front, last := steps[..|steps| - 1], steps[|steps| - 1];
      RunSoFar(cfg, start, from, front);
      StepSoFar(cfg, start, front, Execute(cfg, from, front).value, last);
      LastApart(steps);
    }
  }

  /**
   The answer of Run, for every schedule after which it has returned: it returned at one step; a run that
   dispatched nothing answers nil, and any other answers an error if and only if the context was cancelled
   before that step, from outside or by a worker that found the budget exhausted.
   */
  lemma AnswerOfRun(cfg: Config, start: set<string>, paused: bool, steps: seq<Step>, s: State) returns (k: nat)
    requires cfg.Valid() && Execute(cfg, Init(cfg, start, paused), steps) == Some(s) && s.coord.Returned?
    ensures k < |steps| && (steps[k].Return? || steps[k].ReturnEmpty?)
    ensures s.dispatched == [] ==> steps[k].ReturnEmpty? && !s.coord.failed
    ensures s.dispatched != [] ==>
      && steps[k].Return?
      && (s.coord.failed <==> exists j :: 0 <= j < k && (steps[j].Cancel? || steps[j].CancelRun?))
  {
    InitSoFar(cfg, start, paused);
    RunSoFar(cfg, start, Init(cfg, start, paused), steps);
    k :| AnswersAt(steps, s, k);
    if s.coord.failed && s.dispatched != [] {
      var j :| 0 <= j < k && j < |steps| && (steps[j].Cancel? || steps[j].CancelRun?);
    }
  }

  // ---- Pausing ----

  /** The worker has passed the pause check, and has not spent a page yet. */
  predicate PastPause(w: Worker) {
    w.Admitted?
  }

  lemma PausedStep(cfg: Config, s: State, step: Step)
    requires Enabled(cfg, s, step) && s.paused && !step.Resume?
    ensures var s' := Apply(cfg, s, step);
      && s'.paused
      && |s'.fetched| + Count(s'.workers, PastPause) <= |s.fetched| + Count(s.workers, PastPause)
  {
    if WorkerStep(step) {
      WorkerFrame(cfg, s, step);
      WorkerKeepsRunning(cfg, s, step);
      UpdateCount(s.workers, step.w, WorkerApply(cfg, s, step).workers[step.w], PastPause);
    } else {
      OtherFrame(cfg, s, step);
    }
  }

  lemma {:induction false} PausedRun(cfg: Config, s: State, steps: seq<Step>)
    requires s.paused && Resume !in steps && Execute(cfg, s, steps).Some?
    ensures var s' := Execute(cfg, s, steps).value;
      s'.paused && |s'.fetched| + Count(s'.workers, PastPause) <= |s.fetched| + Count(s.workers, PastPause)
    decreases |steps|
  {
    if steps != [] {
      var front, last := steps[..|steps| - 1], steps[|steps| - 1];
      assert last in steps;
      PausedRun(cfg, s, front);
      PausedStep(cfg, Execute(cfg, s, front).value, last);
    }
  }

  /**
   After a Pause, and until a Resume, only the workers that had already passed the pause check start a fetch,
   each at most one.
   */
  lemma PauseStops(cfg: Config, s: State, steps: seq<Step>)
    requires Resume !in steps && Execute(cfg, Apply(cfg, s, Pause), steps).Some?
    ensures |Execute(cfg, Apply(cfg, s, Pause), steps).value.fetched|
      <= |s.fetched| + Count(s.workers, PastPause)
  {
    PausedRun(cfg, Apply(cfg, s, Pause), steps);
  }

  // ---- Order ----

  /** The tasks that workers took off the queue, in the order in which they took them. */
  function Taken(cfg: Config, from: State, steps: seq<Step>): seq<Task>
    requires Execute(cfg, from, steps).Some?
    decreases |steps|
  {
    if steps == [] then [] else
    var front, last := steps[..|steps| - 1], steps[|steps| - 1];
    Taken(cfg, from, front) + if last.Take? then HeldBy(Execute(cfg, from, steps).value, last.w) else []
  }

  function HeldBy(s: State, w: nat): seq<Task> {
    if w < |s.workers| && s.workers[w].Held? then [s.workers[w].task] else []
  }

  /** The results that workers sent, in order. */
  function Sent(cfg: Config, from: State, steps: seq<Step>): seq<Page>
    requires Execute(cfg, from, steps).Some?
    decreases |steps|
  {
    if steps == [] then [] else
    var front, last := steps[..|steps| - 1], steps[|steps| - 1];
    Sent(cfg, from, front) + if last.Send? then OfferedBy(Execute(cfg, from, front).value, last.w) else []
  }

  function OfferedBy(s: State, w: nat): seq<Page> {
    if w < |s.workers| && s.workers[w].Sending? then [s.workers[w].page] else []
  }

  lemma WorkerOrder(cfg: Config, s: State, step: Step)
    requires WorkerStep(step) && WorkerEnabled(cfg, s, step)
    ensures var s' := WorkerApply(cfg, s, step);
      && s'.dispatched == s.dispatched && s'.delivered == s.delivered
      && s.queue == (if step.Take? then HeldBy(s', step.w) else []) + s'.queue
      && s'.out == s.out + if step.Send? then OfferedBy(s, step.w) else []
  {
    if step.Take? {
      assert s.queue == [s.queue[0]] + s.queue[1..];
    } else {
      assert [] + s.queue == s.queue;
    }
    assert s.out + [] == s.out;
  }

  function PushedBy(c: Coordinator): seq<Task> {
    if c.SeedSend? || c.LinkSend? then [c.task] else []
  }

  lemma OtherQueueOrder(cfg: Config, s: State, step: Step)
    requires !WorkerStep(step) && OtherEnabled(cfg, s, step)
    ensures var s' := OtherApply(cfg, s, step);
      var pushed := if step.SeedPush? || step.LinkPush? then PushedBy(s.coord) else [];
      s'.dispatched == s.dispatched + pushed && s'.queue == s.queue + pushed
  {
    assert s.dispatched + [] == s.dispatched && s.queue + [] == s.queue;
    match step
    case SeedNext =>
    case LinkNext =>
    case _ =>
  }

  lemma OtherOutOrder(cfg: Config, s: State, step: Step)
    requires !WorkerStep(step) && OtherEnabled(cfg, s, step)
    ensures var s' := OtherApply(cfg, s, step); s'.delivered + s'.out == s.delivered + s.out
  {
    match step
    case SeedNext =>
    case LinkNext =>
    case Receive => assert s.out == [s.out[0]] + s.out[1..];
    case _ =>
  }

  ghost predicate InOrder(s: State, taken: seq<Task>, sent: seq<Page>) {
    s.dispatched == taken + s.queue && s.delivered + s.out == sent
  }

  lemma Regroup<T>(a: seq<T>, b: seq<T>, c: seq<T>)
    ensures a + b + c == a + (b + c)
  {
  }

  lemma StepInOrder(cfg: Config, s: State, step: Step, taken: seq<Task>, sent: seq<Page>)
    requires InOrder(s, taken, sent) && Enabled(cfg, s, step)
    ensures var s' := Apply(cfg, s, step);
      InOrder(s', taken + (if step.Take? then HeldBy(s', step.w) else []),
              sent + if step.Send? then OfferedBy(s, step.w) else [])
  {
    var s' := Apply(cfg, s, step);
    if WorkerStep(step) {
      WorkerOrder(cfg, s, step);
      Regroup(taken, if step.Take? then HeldBy(s', step.w) else [], s'.queue);
      Regroup(s.delivered, s.out, if step.Send? then OfferedBy(s, step.w) else []);
    } else {
      OtherQueueOrder(cfg, s, step);
      OtherOutOrder(cfg, s, step);
      assert taken + [] == taken && sent + [] == sent;
      Regroup(taken, s.queue, if step.SeedPush? || step.LinkPush? then PushedBy(s.coord) else []);
    }
  }

  lemma {:induction false} RunInOrder(cfg: Config, from: State, steps: seq<Step>)
    requires InOrder(from, [], []) && Execute(cfg, from, steps).Some?
    ensures InOrder(Execute(cfg, from, steps).value, Taken(cfg, from, steps), Sent(cfg, from, steps))
    decreases |steps|
  {
    if steps != [] {
      var front, last := steps[..|steps| - 1], steps[|steps| - 1];
      RunInOrder(cfg, from, front);
      StepInOrder(cfg, Execute(cfg, from, front).value, last, Taken(cfg, from, front), Sent(cfg, from, front));
    }
  }

  /** Both channels keep their order: tasks are taken as they were dispatched, results received as they were sent. */
  lemma FirstInFirstOut(cfg: Config, start: set<string>, paused: bool, steps: seq<Step>)
    requires cfg.Valid() && Execute(cfg, Init(cfg, start, paused), steps).Some?
    ensures var from := Init(cfg, start, paused);
      var s := Execute(cfg, from, steps).value;
      && s.dispatched == Taken(cfg, from, steps) + s.queue
      && s.delivered + s.out == Sent(cfg, from, steps)
  {
    assert InOrder(Init(cfg, start, paused), [], []);
    RunInOrder(cfg, Init(cfg, start, paused), steps);
  }
}
