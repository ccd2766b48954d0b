/**
 The search client's retry protocol as a function of what the outside world does. A script lists,
 one Turn for each attempt, the delays, replies and solver answers an attempt will meet; when the
 script is used up the context is cancelled at the next rate-limit wait, so scripts range over all
 finite observations of a single caller.
 */
module ClientModel {
  import opened Common
  import CB = CircuitBreaker
  import Text

  /** rand.Float64()*2 - 1 */
  type Jitter = z: real | -1.0 <= z < 1.0 witness 0.0

  datatype AntiBot = AntiBot(solver: bool, invalidate: bool, threshold: int, cooldown: int)

  /** Options after NewClient filled in defaults. The functions stand for regular expressions and parsers. */
  datatype Config = Config(
    retryMax: int,
    baseDelay: int,
    jitterFrac: real,
    vqdTTL: int,
    noFallback: bool,
    antiBot: Option<AntiBot>,
    blockedStatus: set<int>,
    detects: string -> bool,               // blockedDetector(body) != ""
    vqdOf: string -> string,               // extractVQD
    djsResults: string -> Option<seq<string>>,
    htmlResults: string -> seq<string>)
  {
    predicate Valid() {
      retryMax > 0 && baseDelay > 0 && jitterFrac > 0.0 && vqdTTL > 0
    }

    predicate HasCircuit() {
      antiBot.Some? && antiBot.value.threshold != 0
    }

    predicate HasSolver() {
      antiBot.Some? && antiBot.value.solver
    }

    predicate Invalidates() {
      antiBot.Some? && antiBot.value.invalidate
    }

    function FreshBreaker(): CB.Breaker {
      if antiBot.Some? then CB.New(antiBot.value.threshold, antiBot.value.cooldown) else CB.New(0, 0)
    }
  }

  const DEFAULT_UA :=
    "Mozilla/5.0 (X11; Linux x86_64) AppleWebKit/537.36 (KHTML, like Gecko) Chrome/124.0 Safari/537.36"

  /** The defaults NewClient fills in. */
  function WithDefaults(raw: Config): (cfg: Config)
    ensures cfg.Valid() && (raw.Valid() ==> cfg == raw)
    ensures raw.retryMax <= 0 ==> cfg.retryMax == 3
    ensures raw.baseDelay <= 0 ==> cfg.baseDelay == 250_000_000
    ensures raw.jitterFrac <= 0.0 ==> cfg.jitterFrac == 0.2
    ensures raw.vqdTTL <= 0 ==> cfg.vqdTTL == 600_000_000_000
    ensures cfg == raw.(retryMax := cfg.retryMax, baseDelay := cfg.baseDelay, jitterFrac := cfg.jitterFrac,
                        vqdTTL := cfg.vqdTTL)
  {
    raw.(retryMax := if raw.retryMax <= 0 then 3 else raw.retryMax,
         baseDelay := if raw.baseDelay <= 0 then 250_000_000 else raw.baseDelay,
         jitterFrac := if raw.jitterFrac <= 0.0 then 0.2 else raw.jitterFrac,
         vqdTTL := if raw.vqdTTL <= 0 then 600_000_000_000 else raw.vqdTTL)
  }

  /** Failed covers a transport error and an error while reading the body. */
  datatype Reply = Failed | Response(status: int, body: string, retryAfter: nat)

  /**
   What one attempt meets: the rate-limit wait, the round trip, the gap between the breaker's two clock
   readings, the Retry-After sleep, the solver, and the backoff.
   */
  datatype Turn = Turn(
    wait: nat, waitOk: bool,
    travel: nat, reply: Reply,
    retryAfterOk: bool,
    lag: nat,
    solveDelay: nat, solution: Option<string>,  // the solver's user agent, "" for none
    jitter: Jitter, sleepOk: bool)

  /** The three request builders passed to doWithRetry. */
  datatype Kind = TokenReq(query: string) | DjsReq(query: string) | HtmlReq(query: string)

  datatype Error =
    | CircuitOpen | ContextDone | NoVQD | Network | Blocked | Server(status: int) | Refused(status: int)
    | UnexpectedBody | NoResults | BadQuery

  datatype Result<+T> = Ok(value: T) | Fail(error: Error)

  /** What an observer of the client sees, in order. */
  datatype Event =
    | Request(kind: Kind, token: string, ua: string, at: int)
    | Block(checkedAt: int, openedAt: int)
    | Success(kind: Kind, body: string, at: int)  // a clean reply
    | FailFast(at: int)     // circuit event, trigger fail_fast
    | Opened(at: int)       // circuit event, trigger threshold_reached
    | Reset(at: int)        // circuit event, trigger success_reset
    | Issued(token: string, query: string, ua: string, at: int)
    | Hit(token: string, query: string, ua: string, at: int)
    | Backoff(kind: Kind, attempt: int, delay: int)

  datatype Token = Token(value: string, expiresAt: int)

  datatype State = State(
    now: int,
    breaker: CB.Breaker,
    ua: string,
    cache: map<string, Token>,
    script: seq<Turn>,
    log: seq<Event>)
  {
    function Log(e: Event): State {
      this.(log := log + [e])
    }

    function Later(d: nat): State {
      this.(now := now + d)
    }
  }

  datatype Outcome<+T> = Outcome(result: Result<T>, state: State)

  function CacheKey(query: string, ua: string): string {
    query + "|" + ua
  }

  function Pow2(n: nat): nat {
    if n == 0 then 1 else 2 * Pow2(n - 1)
  }

  // ---- One attempt ----

  datatype Class = Clean(body: string) | BlockedReply(retryAfter: nat) | Retryable(error: Error) | Final(error: Error)

  function Classify(cfg: Config, reply: Reply): Class {
    match reply
    case Failed => Retryable(Network)
    case Response(status, body, retryAfter) =>
      if status in cfg.blockedStatus then BlockedReply(retryAfter)
      else if 200 <= status < 300 then
        if cfg.detects(body) then BlockedReply(0) else Clean(body)
      else if status == 429 || status >= 500 then Retryable(Server(status))
      else Final(Refused(status))
  }

  /** How an attempt ends: the call returns, or the loop goes on with this index. */
  datatype Verdict = Done(out: Outcome<string>) | Again(next: nat, state: State)

  /** Time passes, no further turn is consumed, and the next index is one the loop accepts. */
  predicate Fits(cfg: Config, st: State, v: Verdict) {
    match v
    case Done(out) => out.state.script == st.script && st.now <= out.state.now
    case Again(next, after) => next < cfg.retryMax && after.script == st.script && st.now <= after.now
  }

  function BackoffDelay(cfg: Config, i: nat, z: Jitter): int {
    ((cfg.baseDelay * Pow2(i)) as real * (1.0 + z * cfg.jitterFrac)).Floor
  }

  /** The end of the loop body: leave the loop on the last index, otherwise back off for d. */
  function GiveUpOrSleep(cfg: Config, st: State, kind: Kind, i: nat, error: Error, d: int, turn: Turn): (v: Verdict)
    requires i < cfg.retryMax
    ensures Fits(cfg, st, v)
  {
    if i == cfg.retryMax - 1 then Done(Outcome(Fail(error), st)) else
    if d <= 0 then Again(i + 1, st)
    else if !turn.sleepOk then Done(Outcome(Fail(ContextDone), st.Log(Backoff(kind, i, d))))
    else Again(i + 1, st.Log(Backoff(kind, i, d)).Later(d))
  }

  /** What a clean reply is reported as: with a breaker that was open, also as its reset. */
  function SuccessReport(cfg: Config, st: State, kind: Kind, body: string): seq<Event> {
    var clean := Success(kind, body, st.now);
    if cfg.HasCircuit() && CB.IsOpen(st.breaker, st.now) then [clean, Reset(st.now)] else [clean]
  }

  function OnClean(cfg: Config, st: State, kind: Kind, body: string): State {
    st.(log := st.log + SuccessReport(cfg, st, kind, body),
        breaker := if cfg.HasCircuit() then CB.AfterSuccess(st.breaker) else st.breaker)
  }

  /** What a block is reported as: with a breaker that it opens, also as an opening. */
  function BlockReport(cfg: Config, st: State, lag: nat): seq<Event> {
    var blocked := Block(st.now, st.now + lag);
    if cfg.HasCircuit() && CB.BlockOpens(st.breaker, st.now) then [blocked, Opened(st.now + lag)] else [blocked]
  }

  /** The block callback, the breaker and the token cache. */
  function OnBlock(cfg: Config, st: State, lag: nat): State {
    st.(now := st.now + lag,
        log := st.log + BlockReport(cfg, st, lag),
        breaker := if cfg.HasCircuit() then CB.AfterBlock(st.breaker, st.now + lag) else st.breaker,
        cache := if cfg.Invalidates() then map[] else st.cache)
  }

  /** The solver's answer sends the loop back to the same index. */
  predicate Solves(cfg: Config, turn: Turn) {
    cfg.HasSolver() && turn.solution.Some?
  }

  function AfterSolver(cfg: Config, st: State, turn: Turn): State {
    var asked := if cfg.HasSolver() then st.Later(turn.solveDelay) else st;
    if Solves(cfg, turn) && turn.solution.value != "" then asked.(ua := turn.solution.value) else asked
  }

  function AfterBlockedReply(cfg: Config, st: State, kind: Kind, i: nat, d: int, turn: Turn): (v: Verdict)
    requires i < cfg.retryMax
    ensures Fits(cfg, st, v)
  {
    var after := AfterSolver(cfg, OnBlock(cfg, st, turn.lag), turn);
    // i-- and continue: the loop increment brings the same index back
    if Solves(cfg, turn) then Again(i, after)
    else GiveUpOrSleep(cfg, after, kind, i, Blocked, d, turn)
  }

  function Settle(cfg: Config, st: State, kind: Kind, i: nat, turn: Turn): (v: Verdict)
    requires i < cfg.retryMax
    ensures Fits(cfg, st, v)
  {
    var d := BackoffDelay(cfg, i, turn.jitter);
    match Classify(cfg, turn.reply)
    case Clean(body) => Done(Outcome(Ok(body), OnClean(cfg, st, kind, body)))
    case Final(error) => Done(Outcome(Fail(error), st))
    case Retryable(error) => GiveUpOrSleep(cfg, st, kind, i, error, d, turn)
    case BlockedReply(secs) =>
      if secs > 0 && i < cfg.retryMax - 1 then
        if !turn.retryAfterOk then Done(Outcome(Fail(ContextDone), st))
        else AfterBlockedReply(cfg, st.Later(secs * 1_000_000_000), kind, i, d, turn)
      else AfterBlockedReply(cfg, st, kind, i, d, turn)
  }

  // ---- The retry loop and its builders ----

  predicate FailsFast(cfg: Config, st: State) {
    cfg.HasCircuit() && CB.IsOpen(st.breaker, st.now)
  }

  /** Takes the next turn and waits for the rate limiter. */
  function Begin(st: State): State
    requires st.script != []
  {
    st.(script := st.script[1..]).Later(st.script[0].wait)
  }

  function Sent(st: State, kind: Kind, token: string, turn: Turn): State {
    st.Log(Request(kind, token, st.ua, st.now)).Later(turn.travel)
  }

  /** doWithRetry from loop index i on. */
  function Retry(cfg: Config, st: State, kind: Kind, i: nat): (out: Outcome<string>)
    requires cfg.Valid() && i < cfg.retryMax
    ensures |out.state.script| <= |st.script| && st.now <= out.state.now
    decreases |st.script|, 1
  {
    match Pass(cfg, st, kind, i)
    case Done(out) => out
    case Again(next, after) => Retry(cfg, after, kind, next)
  }

  /** One pass of the loop. */
  function Pass(cfg: Config, st: State, kind: Kind, i: nat): (v: Verdict)
    requires cfg.Valid() && i < cfg.retryMax
    ensures match v
      case Done(out) => |out.state.script| <= |st.script| && st.now <= out.state.now
      case Again(next, after) => next < cfg.retryMax && |after.script| < |st.script| && st.now <= after.now
    decreases |st.script|, 0
  {
    if FailsFast(cfg, st) then Done(Outcome(Fail(CircuitOpen), st.Log(FailFast(st.now))))
    else if st.script == [] then Done(Outcome(Fail(ContextDone), st))
    else if !st.script[0].waitOk then Done(Outcome(Fail(ContextDone), Begin(st)))
    else
      var built := Build(cfg, Begin(st), kind);
      if built.result.Fail? then Done(built) else
      Settle(cfg, Sent(built.state, kind, built.result.value, st.script[0]), kind, i, st.script[0])
  }

  /** Only the d.js builder does anything but assemble a request: it obtains a token first. */
  function Build(cfg: Config, st: State, kind: Kind): (out: Outcome<string>)
    requires cfg.Valid()
    ensures |out.state.script| <= |st.script| && st.now <= out.state.now
    decreases |st.script|, 3
  {
    if kind.DjsReq? then GetVQD(cfg, st, kind.query) else Outcome(Ok(""), st)
  }

  predicate Cached(st: State, key: string) {
    key in st.cache && st.cache[key].value != "" && st.now < st.cache[key].expiresAt
  }

  function GetVQD(cfg: Config, st: State, query: string): (out: Outcome<string>)
    requires cfg.Valid()
    ensures |out.state.script| <= |st.script| && st.now <= out.state.now
    decreases |st.script|, 2
  {
    var key := CacheKey(query, st.ua);
    if Cached(st, key) then
      Outcome(Ok(st.cache[key].value), st.Log(Hit(st.cache[key].value, query, st.ua, st.now)))
    else
    var fetched := Retry(cfg, st, TokenReq(query), 0);
    if fetched.result.Fail? then fetched else
    var token := cfg.vqdOf(fetched.result.value);
    if token == "" then Outcome(Fail(NoVQD), fetched.state)
    else Outcome(Ok(token), Stored(cfg, fetched.state, query, st.ua, token, st.now))
  }

  /** The expiry, and the user agent of the key, are from before the token was requested. */
  function Stored(cfg: Config, st: State, query: string, ua: string, token: string, askedAt: int): State {
    var cache := st.cache[CacheKey(query, ua) := Token(token, askedAt + cfg.vqdTTL)];
    st.(cache := cache).Log(Issued(token, query, ua, st.now))
  }

  // ---- Searches ----

  function SearchDJS(cfg: Config, st: State, query: string): Outcome<seq<string>>
    requires cfg.Valid()
  {
    var out := Retry(cfg, st, DjsReq(query), 0);
    match out.result
    case Fail(error) => Outcome(Fail(error), out.state)
    case Ok(body) =>
      match cfg.djsResults(body)
      case None => Outcome(Fail(UnexpectedBody), out.state)
      case Some(results) => Outcome(if results == [] then Fail(NoResults) else Ok(results), out.state)
  }

  function SearchHTML(cfg: Config, st: State, query: string): Outcome<seq<string>>
    requires cfg.Valid()
  {
    var out := Retry(cfg, st, HtmlReq(query), 0);
    match out.result
    case Fail(error) => Outcome(Fail(error), out.state)
    case Ok(body) =>
      var results := cfg.htmlResults(body);
      Outcome(if results == [] then Fail(NoResults) else Ok(results), out.state)
  }

  function Clip(results: seq<string>, max: int): seq<string>
    requires max > 0
  {
    if |results| > max then results[..max] else results
  }

  /** Search, after session warm-up. */
  function Search(cfg: Config, st: State, rawQuery: string, maxResults: int): Outcome<seq<string>>
    requires cfg.Valid()
  {
    var query := Text.Trim(rawQuery);
    if query == "" then Outcome(Fail(BadQuery), st) else
    var max := if maxResults <= 0 then 10 else maxResults;
    var first := SearchDJS(cfg, st, query);
    match first.result
    case Ok(results) => Outcome(Ok(Clip(results, max)), first.state)
    case Fail(error) =>
      if cfg.noFallback then Outcome(Fail(error), first.state) else
      var second := SearchHTML(cfg, first.state, query);
      match second.result
      case Ok(results) => Outcome(Ok(Clip(results, max)), second.state)
      case Fail(error') => Outcome(Fail(error'), second.state)
  }

  // ---- Runs of one client ----

  datatype Op = DoSearch(query: string, maxResults: int) | Idle(d: nat)

  function NewClient(cfg: Config, now: int, ua: string, script: seq<Turn>): State {
    State(now, cfg.FreshBreaker(), if Text.Trim(ua) == "" then DEFAULT_UA else Text.Trim(ua), map[], script, [])
  }

  function After(cfg: Config, st: State, ops: seq<Op>): State
    requires cfg.Valid()
    decreases |ops|
  {
    if ops == [] then st else
    var before := After(cfg, st, ops[..|ops| - 1]);
    match ops[|ops| - 1]
    case DoSearch(query, max) => Search(cfg, before, query, max).state
    case Idle(d) => before.Later(d)
  }
}
