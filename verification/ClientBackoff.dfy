/** How long one call backs off in total. */
module ClientBackoff {
  import opened Common
  import opened ClientModel

  function Delay(kind: Kind, e: Event): int {
    if e.Backoff? && e.kind == kind then e.delay else 0
  }

  /** The backoff delays that calls of this kind have started, summed. */
  function Slept(kind: Kind, log: seq<Event>): int {
    if log == [] then 0 else Slept(kind, log[..|log| - 1]) + Delay(kind, log[|log| - 1])
  }

  lemma SleptPush(kind: Kind, log: seq<Event>, e: Event)
    ensures Slept(kind, log + [e]) == Slept(kind, log) + Delay(kind, e)
  {
    assert (log + [e])[..|log|] == log;
  }

  // ---- Bounds on a single delay ----

  /** caps(i) bounds every delay at index i. */
  ghost predicate Bounds(cfg: Config, caps: nat -> int) {
    forall i: nat, z: Jitter :: Covers(cfg, caps, i, z)
  }

  ghost predicate Covers(cfg: Config, caps: nat -> int, i: nat, z: Jitter) {
    0 <= caps(i) && BackoffDelay(cfg, i, z) <= caps(i)
  }

  /** What indices i and above can still sleep; the last index never sleeps. */
  function Left(retryMax: int, caps: nat -> int, i: nat): int
    decreases retryMax - i
  {
    if i >= retryMax - 1 then 0 else caps(i) + Left(retryMax, caps, i + 1)
  }

  lemma {:induction false} LeftIsPositive(cfg: Config, caps: nat -> int, i: nat)
    requires Bounds(cfg, caps)
    ensures 0 <= Left(cfg.retryMax, caps, i)
    decreases cfg.retryMax - i
  {
    if i < cfg.retryMax - 1 {
      LeftIsPositive(cfg, caps, i + 1);
      assert Covers(cfg, caps, i, 0.0);
    }
  }

  /** The longest delay at index i. */
  function Cap(cfg: Config, i: nat): real {
    (cfg.baseDelay * Pow2(i)) as real * (1.0 + cfg.jitterFrac)
  }

  function FloorCap(cfg: Config): nat -> int {
    (i: nat) => Cap(cfg, i).Floor
  }

  lemma ScaleUp(b: real, f: real, g: real)
    requires b >= 0.0 && f <= g
    ensures b * f <= b * g
  {
  }

  lemma FloorMonotone(a: real, b: real)
    requires a <= b
    ensures a.Floor <= b.Floor
  {
  }

  lemma DelayBelowCap(cfg: Config, i: nat, z: Jitter)
    requires cfg.Valid()
    ensures 0 <= FloorCap(cfg)(i) && BackoffDelay(cfg, i, z) <= FloorCap(cfg)(i)
  {
    var b := (cfg.baseDelay * Pow2(i)) as real;
    ScaleUp(cfg.jitterFrac, z, 1.0);
    ScaleUp(b, 1.0 + z * cfg.jitterFrac, 1.0 + cfg.jitterFrac);
    ScaleUp(b, 0.0, 1.0 + cfg.jitterFrac);
    FloorMonotone(b * (1.0 + z * cfg.jitterFrac), b * (1.0 + cfg.jitterFrac));
    FloorMonotone(0.0, b * (1.0 + cfg.jitterFrac));
  }

  lemma CapsBound(cfg: Config)
    requires cfg.Valid()
    ensures Bounds(cfg, FloorCap(cfg))
  {
    forall i: nat, z: Jitter ensures Covers(cfg, FloorCap(cfg), i, z) {
      DelayBelowCap(cfg, i, z);
    }
  }

  lemma Distribute(a: int, b: int, f: real)
    ensures a as real * f + b as real * f == (a + b) as real * f
  {
  }

  lemma SplitPower(base: int, top: int, p: int)
    ensures base * (top - p) == base * p + base * (top - 2 * p)
  {
  }

  lemma GeometricStep(base: int, top: int, p: int, f: real, x: int, y: int)
    requires x as real <= (base * p) as real * f
    requires y as real <= (base * (top - 2 * p)) as real * f
    ensures (x + y) as real <= (base * (top - p)) as real * f
  {
    SplitPower(base, top, p);
    Distribute(base * p, base * (top - 2 * p), f);
  }

  /** The real-valued share of indices from i below last. */
  function Share(base: int, top: int, p: int, f: real): real {
    (base * (top - p)) as real * f
  }

  lemma ShareStep(base: int, top: int, p: int, f: real, x: int, y: int)
    requires x as real <= (base * p) as real * f && y as real <= Share(base, top, 2 * p, f)
    ensures (x + y) as real <= Share(base, top, p, f)
  {
    GeometricStep(base, top, p, f, x, y);
  }

  lemma NoShare(base: int, top: int, f: real)
    ensures Share(base, top, top, f) == 0.0
  {
    assert base * (top - top) == 0;
  }

  lemma {:induction false} LeftIsGeometric(cfg: Config, i: nat)
    requires cfg.Valid() && i < cfg.retryMax
    ensures Left(cfg.retryMax, FloorCap(cfg), i) as real
      <= Share(cfg.baseDelay, Pow2(cfg.retryMax - 1), Pow2(i), 1.0 + cfg.jitterFrac)
    decreases cfg.retryMax - i
  {
    if i < cfg.retryMax - 1 {
      LeftIsGeometric(cfg, i + 1);
      CapFloor(cfg, i);
      ShareStep(cfg.baseDelay, Pow2(cfg.retryMax - 1), Pow2(i), 1.0 + cfg.jitterFrac,
                FloorCap(cfg)(i), Left(cfg.retryMax, FloorCap(cfg), i + 1));
    } else {
      NoShare(cfg.baseDelay, Pow2(i), 1.0 + cfg.jitterFrac);
    }
  }

  lemma CapFloor(cfg: Config, i: nat)
    ensures FloorCap(cfg)(i) as real <= (cfg.baseDelay * Pow2(i)) as real * (1.0 + cfg.jitterFrac)
  {
  }

  // ---- One attempt ----

  function VerdictLog(v: Verdict): seq<Event> {
    if v.Done? then v.out.state.log else v.state.log
  }

  /** An attempt sleeps only when it gives its index up, and then for the delay of that index. */
  ghost predicate SleepsOnce(cfg: Config, st: State, kind: Kind, i: nat, d: int, v: Verdict, whose: Kind) {
    var more := Slept(whose, VerdictLog(v)) - Slept(whose, st.log);
    && (whose != kind ==> more == 0)
    && (v.Again? ==> v.next == i || (v.next == i + 1 && i < cfg.retryMax - 1))
    && (v.Again? && v.next == i ==> more == 0)
    && more <= if i == cfg.retryMax - 1 then 0 else Max(0, d)
  }

  lemma GiveUpSlept(cfg: Config, st: State, kind: Kind, i: nat, error: Error, d: int, turn: Turn, whose: Kind)
    requires i < cfg.retryMax
    ensures SleepsOnce(cfg, st, kind, i, d, GiveUpOrSleep(cfg, st, kind, i, error, d, turn), whose)
  {
    SleptPush(whose, st.log, Backoff(kind, i, d));
  }

  lemma {:induction false} NoSleep(whose: Kind, log: seq<Event>, report: seq<Event>)
    requires forall e :: e in report ==> !e.Backoff?
    ensures Slept(whose, log + report) == Slept(whose, log)
    decreases |report|
  {
    if report == [] {
      assert log + [] == log;
    } else {
      var n := |report| - 1;
      NoSleep(whose, log, report[..n]);
      assert log + report == (log + report[..n]) + [report[n]];
      SleptPush(whose, log + report[..n], report[n]);
    }
  }

  lemma OnBlockSlept(cfg: Config, st: State, lag: nat, whose: Kind)
    ensures Slept(whose, OnBlock(cfg, st, lag).log) == Slept(whose, st.log)
  {
    NoSleep(whose, st.log, BlockReport(cfg, st, lag));
  }

  lemma OnCleanSlept(cfg: Config, st: State, kind: Kind, body: string, whose: Kind)
    ensures Slept(whose, OnClean(cfg, st, kind, body).log) == Slept(whose, st.log)
  {
    NoSleep(whose, st.log, SuccessReport(cfg, st, kind, body));
  }

  lemma SolverSlept(cfg: Config, st: State, turn: Turn, whose: Kind)
    ensures Slept(whose, AfterSolver(cfg, OnBlock(cfg, st, turn.lag), turn).log) == Slept(whose, st.log)
  {
    OnBlockSlept(cfg, st, turn.lag, whose);
    assert AfterSolver(cfg, OnBlock(cfg, st, turn.lag), turn).log == OnBlock(cfg, st, turn.lag).log;
  }

  /** Only what has been slept so far matters about the state. */
  lemma SleepsOnceFrom(
    cfg: Config, st: State, after: State, kind: Kind, i: nat, d: int, v: Verdict, whose: Kind)
    requires SleepsOnce(cfg, after, kind, i, d, v, whose) && Slept(whose, after.log) == Slept(whose, st.log)
    ensures SleepsOnce(cfg, st, kind, i, d, v, whose)
  {
  }

  lemma BlockedReplySlept(cfg: Config, st: State, kind: Kind, i: nat, d: int, turn: Turn, whose: Kind)
    requires i < cfg.retryMax
    ensures SleepsOnce(cfg, st, kind, i, d, AfterBlockedReply(cfg, st, kind, i, d, turn), whose)
  {
    var after := AfterSolver(cfg, OnBlock(cfg, st, turn.lag), turn);
    SolverSlept(cfg, st, turn, whose);
    if !Solves(cfg, turn) {
      GiveUpSlept(cfg, after, kind, i, Blocked, d, turn, whose);
      SleepsOnceFrom(cfg, st, after, kind, i, d, GiveUpOrSleep(cfg, after, kind, i, Blocked, d, turn), whose);
    }
  }

  lemma SettleSlept(cfg: Config, st: State, kind: Kind, i: nat, turn: Turn, whose: Kind)
    requires i < cfg.retryMax
    ensures SleepsOnce(cfg, st, kind, i, BackoffDelay(cfg, i, turn.jitter), Settle(cfg, st, kind, i, turn), whose)
  {
    var d := BackoffDelay(cfg, i, turn.jitter);
    match Classify(cfg, turn.reply)
    case Clean(body) => OnCleanSlept(cfg, st, kind, body, whose);
    case Final(_) =>
    case Retryable(error) => GiveUpSlept(cfg, st, kind, i, error, d, turn, whose);
    case BlockedReply(secs) =>
      var st' := if secs > 0 && i < cfg.retryMax - 1 then st.Later(secs * 1_000_000_000) else st;
      BlockedReplySlept(cfg, st', kind, i, d, turn, whose);
  }

  // ---- One call ----

  lemma OthersPass(cfg: Config, st: State, kind: Kind, i: nat, whose: Kind)
    requires cfg.Valid() && i < cfg.retryMax && !kind.DjsReq? && whose != kind
    ensures Slept(whose, VerdictLog(Pass(cfg, st, kind, i))) == Slept(whose, st.log)
  {
    SleptPush(whose, st.log, FailFast(st.now));
    if !FailsFast(cfg, st) && st.script != [] && st.script[0].waitOk {
      var begun, turn := Begin(st), st.script[0];
      SleptPush(whose, st.log, Request(kind, "", begun.ua, begun.now));
      SettleSlept(cfg, Sent(begun, kind, "", turn), kind, i, turn, whose);
    }
  }

  /** A call to one endpoint adds nothing to another kind's sleep. */
  lemma {:induction false} OthersAwake(cfg: Config, st: State, kind: Kind, i: nat, whose: Kind)
    requires cfg.Valid() && i < cfg.retryMax && !kind.DjsReq? && whose != kind
    ensures Slept(whose, Retry(cfg, st, kind, i).state.log) == Slept(whose, st.log)
    decreases |st.script|
  {
    OthersPass(cfg, st, kind, i, whose);
    var v := Pass(cfg, st, kind, i);
    if v.Again? {
      OthersAwake(cfg, v.state, kind, v.next, whose);
    }
  }

  lemma TokenAwake(cfg: Config, st: State, query: string)
    requires cfg.Valid()
    ensures Slept(DjsReq(query), GetVQD(cfg, st, query).state.log) == Slept(DjsReq(query), st.log)
  {
    var key := CacheKey(query, st.ua);
    if Cached(st, key) {
      SleptPush(DjsReq(query), st.log, Hit(st.cache[key].value, query, st.ua, st.now));
    } else {
      OthersAwake(cfg, st, TokenReq(query), 0, DjsReq(query));
      var fetched := Retry(cfg, st, TokenReq(query), 0);
      if fetched.result.Ok? {
        var token := cfg.vqdOf(fetched.result.value);
        SleptPush(DjsReq(query), fetched.state.log, Issued(token, query, st.ua, fetched.state.now));
      }
    }
  }

  /** The calls made to build a request do not add to the sleep of the call they are made for. */
  lemma BuildAwake(cfg: Config, st: State, kind: Kind)
    requires cfg.Valid()
    ensures Slept(kind, Build(cfg, st, kind).state.log) == Slept(kind, st.log)
  {
    if kind.DjsReq? {
      TokenAwake(cfg, st, kind.query);
    }
  }

  lemma CoversAt(cfg: Config, caps: nat -> int, i: nat, z: Jitter)
    requires Bounds(cfg, caps)
    ensures 0 <= caps(i) && BackoffDelay(cfg, i, z) <= caps(i)
  {
    assert Covers(cfg, caps, i, z);
  }

  /** An attempt that sleeps once is paid for by its index. */
  lemma PaidByIndex(cfg: Config, caps: nat -> int, st: State, kind: Kind, i: nat, d: int, v: Verdict)
    requires i < cfg.retryMax && SleepsOnce(cfg, st, kind, i, d, v, kind) && 0 <= caps(i) && d <= caps(i)
    ensures var next := if v.Done? then i + 1 else v.next;
      Slept(kind, VerdictLog(v)) + Left(cfg.retryMax, caps, next) <= Slept(kind, st.log) + Left(cfg.retryMax, caps, i)
  {
  }

  /** What one attempt adds to the sleep, once its request is built. */
  lemma AttemptSlept(cfg: Config, caps: nat -> int, st: State, kind: Kind, token: string, i: nat, turn: Turn)
    requires Bounds(cfg, caps) && i < cfg.retryMax
    ensures var v := Settle(cfg, Sent(st, kind, token, turn), kind, i, turn);
      var next := if v.Done? then i + 1 else v.next;
      Slept(kind, VerdictLog(v)) + Left(cfg.retryMax, caps, next) <= Slept(kind, st.log) + Left(cfg.retryMax, caps, i)
  {
    var s := Sent(st, kind, token, turn);
    SleptPush(kind, st.log, Request(kind, token, st.ua, st.now));
    SettleSlept(cfg, s, kind, i, turn, kind);
    CoversAt(cfg, caps, i, turn.jitter);
    PaidByIndex(cfg, caps, s, kind, i, BackoffDelay(cfg, i, turn.jitter), Settle(cfg, s, kind, i, turn));
  }

  lemma PassSlept(cfg: Config, caps: nat -> int, st: State, kind: Kind, i: nat)
    requires cfg.Valid() && Bounds(cfg, caps) && i < cfg.retryMax
    ensures var v := Pass(cfg, st, kind, i);
      Slept(kind, VerdictLog(v)) + (if v.Done? then 0 else Left(cfg.retryMax, caps, v.next))
        <= Slept(kind, st.log) + Left(cfg.retryMax, caps, i)
  {
    LeftIsPositive(cfg, caps, i);
    LeftIsPositive(cfg, caps, i + 1);
    SleptPush(kind, st.log, FailFast(st.now));
    if !FailsFast(cfg, st) && st.script != [] && st.script[0].waitOk {
      BuildAwake(cfg, Begin(st), kind);
      var built := Build(cfg, Begin(st), kind);
      if built.result.Ok? {
        AttemptSlept(cfg, caps, built.state, kind, built.result.value, i, st.script[0]);
      }
    }
  }

  lemma {:induction false} SleptBelowLeft(cfg: Config, caps: nat -> int, st: State, kind: Kind, i: nat)
    requires cfg.Valid() && Bounds(cfg, caps) && i < cfg.retryMax
    ensures Slept(kind, Retry(cfg, st, kind, i).state.log) <= Slept(kind, st.log) + Left(cfg.retryMax, caps, i)
    decreases |st.script|
  {
    PassSlept(cfg, caps, st, kind, i);
    var v := Pass(cfg, st, kind, i);
    if v.Again? {
      SleptBelowLeft(cfg, caps, v.state, kind, v.next);
    }
  }

  function MaxBackoff(cfg: Config): real
    requires cfg.retryMax > 0
  {
    (cfg.baseDelay * (Pow2(cfg.retryMax - 1) - 1)) as real * (1.0 + cfg.jitterFrac)
  }

  lemma TotalShare(cfg: Config, before: int, after: int)
    requires cfg.Valid() && after <= before + Left(cfg.retryMax, FloorCap(cfg), 0)
    ensures (after - before) as real <= MaxBackoff(cfg)
  {
    LeftIsGeometric(cfg, 0);
    assert Pow2(0) == 1;
  }

  /**
   However often solved challenges repeat an index, one call backs off for at most
   (1 + jitterFrac) * baseDelay * (2^(retryMax-1) - 1), not counting the calls it makes to build requests.
   */
  lemma BackoffBound(cfg: Config, st: State, kind: Kind)
    requires cfg.Valid()
    ensures var slept := Slept(kind, Retry(cfg, st, kind, 0).state.log) - Slept(kind, st.log);
      slept as real <= MaxBackoff(cfg)
  {
    CapsBound(cfg);
    var after := SleptAfter(cfg, st, kind);
    TotalShare(cfg, Slept(kind, st.log), after);
  }

  lemma SleptAfter(cfg: Config, st: State, kind: Kind) returns (after: int)
    requires cfg.Valid() && Bounds(cfg, FloorCap(cfg))
    ensures after == Slept(kind, Retry(cfg, st, kind, 0).state.log)
    ensures after <= Slept(kind, st.log) + Left(cfg.retryMax, FloorCap(cfg), 0)
  {
    after := Slept(kind, Retry(cfg, st, kind, 0).state.log);
    SleptBelowLeft(cfg, FloorCap(cfg), st, kind, 0);
  }
}
