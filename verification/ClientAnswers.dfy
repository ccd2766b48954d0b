/** What the client answers, in terms of the replies it meets. */
module ClientAnswers {
  import opened Common
  import opened ClientModel
  import opened ClientCounts
  import CB = CircuitBreaker
  import Text

  // ---- One reply ----

  /** A 2xx page that no detector takes for a block, with a status that is not blocked. */
  predicate IsPage(cfg: Config, reply: Reply, body: string) {
    && reply.Response? && reply.body == body && 200 <= reply.status < 300
    && reply.status !in cfg.blockedStatus && !cfg.detects(body)
  }

  predicate IsBlock(cfg: Config, reply: Reply) {
    && reply.Response?
    && (reply.status in cfg.blockedStatus || (200 <= reply.status < 300 && cfg.detects(reply.body)))
  }

  /** The attempt is over without success: the last index ends the call, any other is followed by the next one. */
  ghost predicate GivesUp(cfg: Config, st: State, kind: Kind, i: nat, error: Error, turn: Turn, v: Verdict) {
    var d := BackoffDelay(cfg, i, turn.jitter);
    if i == cfg.retryMax - 1 then v == Done(Outcome(Fail(error), st))
    else if d <= 0 then v == Again(i + 1, st)
    else if turn.sleepOk then v == Again(i + 1, st.(now := st.now + d, log := st.log + [Backoff(kind, i, d)]))
    else v == Done(Outcome(Fail(ContextDone), st.(log := st.log + [Backoff(kind, i, d)])))
  }

  /** The Retry-After of a blocked status is slept, unless the attempt is the last one. */
  predicate SleepsRetryAfter(cfg: Config, i: nat, reply: Reply) {
    reply.Response? && reply.status in cfg.blockedStatus && reply.retryAfter > 0 && i < cfg.retryMax - 1
  }

  function BlockedAt(cfg: Config, st: State, i: nat, reply: Reply): int {
    if SleepsRetryAfter(cfg, i, reply) then st.now + reply.retryAfter * 1_000_000_000 else st.now
  }

  /** There is a breaker: the configuration has a threshold that is not zero. */
  predicate Breaks(cfg: Config) {
    cfg.antiBot.Some? && cfg.antiBot.value.threshold != 0
  }

  /** The breaker keeps requests from being sent. */
  predicate Refuses(b: CB.Breaker, now: int) {
    b.openUntil.Some? && now < b.openUntil.value
  }

  /** The block counts; from the threshold on it opens the breaker for a cooldown, logged unless it was open already. */
  ghost predicate CountsBlock(cfg: Config, st: State, at: int, openedAt: int, hit: State) {
    var n, was := st.breaker.consecutive + 1, st.breaker;
    && hit.breaker == (
      if !Breaks(cfg) then was
      else if n >= was.threshold then was.(consecutive := n, openUntil := Some(openedAt + was.cooldown))
      else was.(consecutive := n))
    && hit.log == st.log + (
      if Breaks(cfg) && n >= was.threshold && !Refuses(was, at) then [Block(at, openedAt), Opened(openedAt)]
      else [Block(at, openedAt)])
  }

  /** The block is counted, and the tokens are dropped or kept, before anything else happens. */
  ghost predicate NotesBlock(cfg: Config, st: State, at: int, lag: nat, hit: State) {
    && hit.now == at + lag && hit.script == st.script && hit.ua == st.ua
    && hit.cache == (if cfg.antiBot.Some? && cfg.antiBot.value.invalidate then map[] else st.cache)
    && CountsBlock(cfg, st, at, at + lag, hit)
  }

  /** A solved challenge repeats the index with the solver's user agent; otherwise the attempt is over. */
  ghost predicate AnswersBlock(cfg: Config, kind: Kind, i: nat, turn: Turn, hit: State, v: Verdict) {
    var asked := if cfg.antiBot.Some? && cfg.antiBot.value.solver then hit.(now := hit.now + turn.solveDelay) else hit;
    if cfg.antiBot.Some? && cfg.antiBot.value.solver && turn.solution.Some? then
      v == Again(i, asked.(ua := if turn.solution.value == "" then hit.ua else turn.solution.value))
    else GivesUp(cfg, asked, kind, i, Blocked, turn, v)
  }

  ghost predicate AnswersFrom(cfg: Config, st: State, kind: Kind, i: nat, turn: Turn, hit: State, v: Verdict) {
    && NotesBlock(cfg, st, BlockedAt(cfg, st, i, turn.reply), turn.lag, hit)
    && AnswersBlock(cfg, kind, i, turn, hit, v)
  }

  /** The page is returned and noted as a success, which closes the breaker; nothing else changes. */
  ghost predicate Accepts(cfg: Config, st: State, kind: Kind, body: string, v: Verdict) {
    && v.Done? && v.out.result == Ok(body)
    && v.out.state == st.(
      breaker := if Breaks(cfg) then st.breaker.(consecutive := 0, openUntil := None) else st.breaker,
      log := st.log + if Breaks(cfg) && Refuses(st.breaker, st.now) then [Success(kind, body, st.now), Reset(st.now)]
                      else [Success(kind, body, st.now)])
  }

  /** What each reply leads to. */
  ghost predicate AnswersReply(cfg: Config, st: State, kind: Kind, i: nat, turn: Turn, v: Verdict) {
    match turn.reply
    case Failed => GivesUp(cfg, st, kind, i, Network, turn, v)
    case Response(status, body, _) =>
      if IsBlock(cfg, turn.reply) then
        if SleepsRetryAfter(cfg, i, turn.reply) && !turn.retryAfterOk then v == Done(Outcome(Fail(ContextDone), st))
        else exists hit :: AnswersFrom(cfg, st, kind, i, turn, hit, v)
      else if IsPage(cfg, turn.reply, body) then
        Accepts(cfg, st, kind, body, v)
      else if status == 429 || status >= 500 then
        GivesUp(cfg, st, kind, i, Server(status), turn, v)
      else
        v == Done(Outcome(Fail(Refused(status)), st))
  }

  lemma BlockIsNoted(cfg: Config, st: State, lag: nat)
    ensures NotesBlock(cfg, st, st.now, lag, OnBlock(cfg, st, lag))
  {
  }

  lemma GiveUpAnswers(cfg: Config, st: State, kind: Kind, i: nat, error: Error, turn: Turn)
    requires i < cfg.retryMax
    ensures GivesUp(cfg, st, kind, i, error, turn,
                    GiveUpOrSleep(cfg, st, kind, i, error, BackoffDelay(cfg, i, turn.jitter), turn))
  {
  }

  lemma BlockAnswers(cfg: Config, st: State, kind: Kind, i: nat, turn: Turn)
    requires i < cfg.retryMax
    ensures AnswersBlock(cfg, kind, i, turn, OnBlock(cfg, st, turn.lag),
                         AfterBlockedReply(cfg, st, kind, i, BackoffDelay(cfg, i, turn.jitter), turn))
  {
    GiveUpAnswers(cfg, AfterSolver(cfg, OnBlock(cfg, st, turn.lag), turn), kind, i, Blocked, turn);
  }

  /** The classification of replies and all that follows from it, reply by reply. */
  lemma SettleAnswers(cfg: Config, st: State, kind: Kind, i: nat, turn: Turn)
    requires i < cfg.retryMax
    ensures AnswersReply(cfg, st, kind, i, turn, Settle(cfg, st, kind, i, turn))
  {
    var v := Settle(cfg, st, kind, i, turn);
    if IsBlock(cfg, turn.reply) {
      var at := st.(now := BlockedAt(cfg, st, i, turn.reply));
      BlockIsNoted(cfg, at, turn.lag);
      BlockAnswers(cfg, at, kind, i, turn);
      assert !(SleepsRetryAfter(cfg, i, turn.reply) && !turn.retryAfterOk) ==>
        AnswersFrom(cfg, st, kind, i, turn, OnBlock(cfg, at, turn.lag), v);
    } else if turn.reply.Failed? {
      GiveUpAnswers(cfg, st, kind, i, Network, turn);
    } else {
      GiveUpAnswers(cfg, st, kind, i, Server(turn.reply.status), turn);
    }
  }

  // ---- One attempt ----

  /** Nothing keeps the attempt from being made: the breaker is closed and the wait for the rate limit ends. */
  predicate MayTry(cfg: Config, st: State) {
    && !(Breaks(cfg) && Refuses(st.breaker, st.now))
    && st.script != [] && st.script[0].waitOk
  }

  /** A request of this kind has gone out, and its reply is there. */
  function Asked(st: State, kind: Kind, token: string, turn: Turn): State {
    st.(log := st.log + [Request(kind, token, st.ua, st.now)], now := st.now + turn.travel)
  }

  /** The attempt begins when the wait is over. */
  function Started(st: State): State
    requires st.script != []
  {
    st.(script := st.script[1..], now := st.now + st.script[0].wait)
  }

  lemma PlainPassIs(cfg: Config, st: State, kind: Kind, i: nat)
    requires cfg.Valid() && i < cfg.retryMax && MayTry(cfg, st) && !kind.DjsReq?
    ensures Pass(cfg, st, kind, i) == Settle(cfg, Asked(Started(st), kind, "", st.script[0]), kind, i, st.script[0])
  {
    assert Build(cfg, Begin(st), kind) == Outcome(Ok(""), Started(st));
  }

  /** A plain attempt sends exactly one request, and goes by its reply. */
  lemma PassAnswers(cfg: Config, st: State, kind: Kind, i: nat)
    requires cfg.Valid() && i < cfg.retryMax && MayTry(cfg, st) && !kind.DjsReq?
    ensures AnswersReply(cfg, Asked(Started(st), kind, "", st.script[0]), kind, i, st.script[0], Pass(cfg, st, kind, i))
  {
    PlainPassIs(cfg, st, kind, i);
    SettleAnswers(cfg, Asked(Started(st), kind, "", st.script[0]), kind, i, st.script[0]);
  }

  lemma DjsPassIs(cfg: Config, st: State, query: string, i: nat)
    requires cfg.Valid() && i < cfg.retryMax && MayTry(cfg, st)
    ensures var built := GetVQD(cfg, Started(st), query); var turn := st.script[0];
      Pass(cfg, st, DjsReq(query), i) ==
        if built.result.Fail? then Done(built)
        else Settle(cfg, Asked(built.state, DjsReq(query), built.result.value, turn), DjsReq(query), i, turn)
  {
    assert Build(cfg, Begin(st), DjsReq(query)) == GetVQD(cfg, Started(st), query);
  }

  /** A d.js attempt goes by its reply, too, once it has a token. */
  lemma DjsPassAnswers(cfg: Config, st: State, query: string, i: nat)
    requires cfg.Valid() && i < cfg.retryMax && MayTry(cfg, st)
    ensures var built := GetVQD(cfg, Started(st), query); var v := Pass(cfg, st, DjsReq(query), i);
      if built.result.Fail? then v == Done(built)
      else
        AnswersReply(cfg, Asked(built.state, DjsReq(query), built.result.value, st.script[0]),
                     DjsReq(query), i, st.script[0], v)
  {
    var built := GetVQD(cfg, Started(st), query);
    DjsPassIs(cfg, st, query, i);
    if built.result.Ok? {
      SettleAnswers(cfg, Asked(built.state, DjsReq(query), built.result.value, st.script[0]),
                    DjsReq(query), i, st.script[0]);
    }
  }

  /** On an open breaker, or when the context is cancelled during the wait, nothing is sent. */
  lemma NothingIsTried(cfg: Config, st: State, kind: Kind, i: nat)
    requires cfg.Valid() && i < cfg.retryMax && !MayTry(cfg, st)
    ensures var out := Retry(cfg, st, kind, i);
      if Breaks(cfg) && Refuses(st.breaker, st.now)
      then out == Outcome(Fail(CircuitOpen), st.(log := st.log + [FailFast(st.now)]))
      else out.result == Fail(ContextDone) && out.state.log == st.log
  {
  }

  // ---- One call ----

  /** Any other status than 2xx, 429 and 5xx that is not blocked ends the call with its one request. */
  lemma RefusedAtOnce(cfg: Config, st: State, kind: Kind, i: nat, status: int, body: string, retryAfter: nat)
    requires cfg.Valid() && i < cfg.retryMax && MayTry(cfg, st) && !kind.DjsReq?
    requires st.script[0].reply == Response(status, body, retryAfter)
    requires status !in cfg.blockedStatus && !(200 <= status < 300) && status != 429 && status < 500
    ensures var out := Retry(cfg, st, kind, i);
      && out.result == Fail(Refused(status)) && out.state.script == st.script[1..]
      && out.state.log == st.log + [Request(kind, "", st.ua, st.now + st.script[0].wait)]
  {
    PassAnswers(cfg, st, kind, i);
  }

  /** What a call that failed at one index goes on from. */
  ghost predicate GoesOnFrom(cfg: Config, st: State, kind: Kind, i: nat, after: State)
    requires st.script != []
  {
    var asked := st.log + [Request(kind, "", st.ua, st.now + st.script[0].wait)];
    var d := BackoffDelay(cfg, i, st.script[0].jitter);
    && after.script == st.script[1..] && after.breaker == st.breaker && after.cache == st.cache && after.ua == st.ua
    && after.log == (if d > 0 then asked + [Backoff(kind, i, d)] else asked)
  }

  /** A transport failure, 429 or 5xx that is not blocked leads to the next index, or ends the call on the last. */
  lemma RetriedAfterFailure(cfg: Config, st: State, kind: Kind, i: nat) returns (after: State)
    requires cfg.Valid() && i < cfg.retryMax && MayTry(cfg, st) && !kind.DjsReq? && st.script[0].sleepOk
    requires match st.script[0].reply
      case Failed => true
      case Response(status, _, _) => status !in cfg.blockedStatus && (status == 429 || status >= 500)
    ensures if i == cfg.retryMax - 1 then
        Retry(cfg, st, kind, i).result
          == Fail(if st.script[0].reply.Failed? then Network else Server(st.script[0].reply.status))
      else GoesOnFrom(cfg, st, kind, i, after) && Retry(cfg, st, kind, i) == Retry(cfg, after, kind, i + 1)
  {
    PassAnswers(cfg, st, kind, i);
    after := VerdictState(Pass(cfg, st, kind, i));
  }

  /** A page that is neither blocked nor detected is returned at once. */
  lemma PageIsReturned(cfg: Config, st: State, kind: Kind, i: nat, body: string)
    requires cfg.Valid() && i < cfg.retryMax && MayTry(cfg, st) && !kind.DjsReq?
    requires IsPage(cfg, st.script[0].reply, body)
    ensures Retry(cfg, st, kind, i).result == Ok(body) && Retry(cfg, st, kind, i).state.script == st.script[1..]
  {
    PassAnswers(cfg, st, kind, i);
  }

  lemma PassOkIsPage(cfg: Config, st: State, kind: Kind, i: nat)
    requires cfg.Valid() && i < cfg.retryMax
    ensures var v := Pass(cfg, st, kind, i);
      v.Done? && v.out.result.Ok? ==> st.script != [] && IsPage(cfg, st.script[0].reply, v.out.result.value)
  {
  }

  /** And nothing else is ever returned: what a call answers is the body of such a page that it met. */
  lemma {:induction false} OnlyPagesAreReturned(cfg: Config, st: State, kind: Kind, i: nat)
    requires cfg.Valid() && i < cfg.retryMax
    ensures var out := Retry(cfg, st, kind, i);
      out.result.Ok? ==> exists turn :: turn in st.script && IsPage(cfg, turn.reply, out.result.value)
    decreases |st.script|
  {
    PassOkIsPage(cfg, st, kind, i);
    ScriptsShrink(cfg, st, kind, i);
    var v := Pass(cfg, st, kind, i);
    if v.Again? {
      OnlyPagesAreReturned(cfg, v.state, kind, v.next);
    } else if v.out.result.Ok? {
      assert st.script[0] in st.script;
    }
  }

  /** What is left of a script was part of it. */
  ghost predicate Part(some: seq<Turn>, all: seq<Turn>) {
    forall t :: t in some ==> t in all
  }

  lemma {:induction false} ScriptsShrink(cfg: Config, st: State, kind: Kind, i: nat)
    requires cfg.Valid() && i < cfg.retryMax
    ensures Part(VerdictState(Pass(cfg, st, kind, i)).script, st.script)
    decreases |st.script|, 0
  {
    if st.script != [] {
      BuildShrinks(cfg, Begin(st), kind);
    }
  }

  lemma {:induction false} CallShrinks(cfg: Config, st: State, kind: Kind, i: nat)
    requires cfg.Valid() && i < cfg.retryMax
    ensures Part(Retry(cfg, st, kind, i).state.script, st.script)
    decreases |st.script|, 1
  {
    ScriptsShrink(cfg, st, kind, i);
    var v := Pass(cfg, st, kind, i);
    if v.Again? {
      CallShrinks(cfg, v.state, kind, v.next);
    }
  }

  lemma {:induction false} BuildShrinks(cfg: Config, st: State, kind: Kind)
    requires cfg.Valid()
    ensures Part(Build(cfg, st, kind).state.script, st.script)
    decreases |st.script|, 2
  {
    if kind.DjsReq? {
      CallShrinks(cfg, st, TokenReq(kind.query), 0);
    }
  }

  // ---- Backoff ----

  lemma Times(b: real, f: real, g: real)
    requires b >= 0.0 && f <= g
    ensures b * f <= b * g
  {
  }

  /** A share of b, rounded down, when the factor is between two others. */
  lemma ShareRange(b: real, low: real, factor: real, high: real)
    requires b >= 0.0 && low <= factor <= high
    ensures b * low - 1.0 < (b * factor).Floor as real <= b * high
  {
    Times(b, low, factor);
    Times(b, factor, high);
  }

  function Factor(frac: real, z: real): real {
    1.0 + z * frac
  }

  lemma JitterRange(frac: real, z: Jitter)
    requires frac > 0.0
    ensures 1.0 - frac <= Factor(frac, z) <= 1.0 + frac
  {
    Times(frac, -1.0, z);
    Times(frac, z, 1.0);
  }

  lemma WholeShare(n: int)
    ensures (n as real * (1.0 + 0.0)).Floor == n
  {
  }

  function Jittered(n: int, factor: real): int {
    (n as real * factor).Floor
  }

  ghost predicate Around(n: int, low: real, d: int, high: real) {
    n as real * low - 1.0 < d as real <= n as real * high
  }

  lemma JitteredAround(n: int, low: real, factor: real, high: real)
    requires n >= 0 && low <= factor <= high
    ensures Around(n, low, Jittered(n, factor), high)
  {
    ShareRange(n as real, low, factor, high);
  }

  lemma DelayIs(cfg: Config, i: nat, z: Jitter)
    ensures BackoffDelay(cfg, i, z) == Jittered(cfg.baseDelay * Pow2(i), Factor(cfg.jitterFrac, z))
  {
  }

  lemma DelayAround(n: int, frac: real, z: Jitter)
    requires n >= 0 && frac > 0.0
    ensures Around(n, 1.0 - frac, Jittered(n, Factor(frac, z)), 1.0 + frac)
  {
    JitterRange(frac, z);
    JitteredAround(n, 1.0 - frac, Factor(frac, z), 1.0 + frac);
  }

  /** The delay doubles with the index, and the jitter moves it by at most its fraction. */
  lemma BackoffRange(cfg: Config, i: nat, z: Jitter)
    requires cfg.Valid()
    ensures Around(cfg.baseDelay * Pow2(i), 1.0 - cfg.jitterFrac, BackoffDelay(cfg, i, z), 1.0 + cfg.jitterFrac)
  {
    NotNegative(cfg.baseDelay, Pow2(i));
    DelayIs(cfg, i, z);
    DelayAround(cfg.baseDelay * Pow2(i), cfg.jitterFrac, z);
  }

  lemma NotNegative(a: int, b: int)
    requires a >= 0 && b >= 0
    ensures a * b >= 0
  {
  }

  lemma Doubles(i: nat)
    ensures Pow2(0) == 1 && Pow2(i + 1) == 2 * Pow2(i) && Pow2(10) == 1024
  {
  }

  /** Without jitter the delay is exactly that. */
  lemma BackoffExact(cfg: Config, i: nat)
    ensures BackoffDelay(cfg, i, 0.0) == cfg.baseDelay * Pow2(i)
  {
    assert 0.0 * cfg.jitterFrac == 0.0;
    WholeShare(cfg.baseDelay * Pow2(i));
  }

  // ---- Searches ----

  /** The first results, as many as asked for. */
  predicate Shows(result: Result<seq<string>>, all: seq<string>, max: int) {
    && result.Ok? && 0 < |result.value| == (if |all| < max then |all| else max)
    && result.value == all[..|result.value|]
  }

  /** The d.js page has results. */
  predicate HasResults(cfg: Config, first: Result<string>) {
    first.Ok? && cfg.djsResults(first.value).Some? && cfg.djsResults(first.value).value != []
  }

  function DjsError(cfg: Config, first: Result<string>): Error {
    match first
    case Fail(error) => error
    case Ok(body) => if cfg.djsResults(body).None? then UnexpectedBody else NoResults
  }

  /** The answer of the fallback. */
  predicate ShowsHtml(cfg: Config, second: Result<string>, result: Result<seq<string>>, max: int) {
    match second
    case Fail(error) => result == Fail(error)
    case Ok(body) =>
      if cfg.htmlResults(body) == [] then result == Fail(NoResults) else Shows(result, cfg.htmlResults(body), max)
  }

  lemma ClipShows(all: seq<string>, max: int)
    requires max > 0 && all != []
    ensures Shows(Ok(Clip(all, max)), all, max)
  {
  }

  lemma DjsAnswers(cfg: Config, st: State, query: string)
    requires cfg.Valid()
    ensures var first := Retry(cfg, st, DjsReq(query), 0);
      SearchDJS(cfg, st, query) == Outcome(
        if HasResults(cfg, first.result) then Ok(cfg.djsResults(first.result.value).value)
        else Fail(DjsError(cfg, first.result)), first.state)
  {
  }

  lemma HtmlAnswers(cfg: Config, st: State, query: string, max: int)
    requires cfg.Valid() && max > 0
    ensures var second := Retry(cfg, st, HtmlReq(query), 0); var out := SearchHTML(cfg, st, query);
      && out.state == second.state
      && ShowsHtml(cfg, second.result, if out.result.Ok? then Ok(Clip(out.result.value, max)) else out.result, max)
  {
  }

  /**
   A search answers the first results of its d.js page, in their order; without any, and unless the fallback
   is switched off, those of its HTML page; and otherwise the error of the last call it made.
   */
  lemma SearchAnswers(cfg: Config, st: State, rawQuery: string, maxResults: int)
    requires cfg.Valid()
    ensures var query := Text.Trim(rawQuery); var max := if maxResults <= 0 then 10 else maxResults;
      var out := Search(cfg, st, rawQuery, maxResults);
      if query == "" then out == Outcome(Fail(BadQuery), st) else
      var first := Retry(cfg, st, DjsReq(query), 0);
      if HasResults(cfg, first.result) then
        out.state == first.state && Shows(out.result, cfg.djsResults(first.result.value).value, max)
      else if cfg.noFallback then
        out == Outcome(Fail(DjsError(cfg, first.result)), first.state)
      else
        var second := Retry(cfg, first.state, HtmlReq(query), 0);
        out.state == second.state && ShowsHtml(cfg, second.result, out.result, max)
  {
    var query, max := Text.Trim(rawQuery), if maxResults <= 0 then 10 else maxResults;
    var first := Retry(cfg, st, DjsReq(query), 0);
    DjsAnswers(cfg, st, query);
    HtmlAnswers(cfg, first.state, query, max);
    if HasResults(cfg, first.result) {
      ClipShows(cfg.djsResults(first.result.value).value, max);
    }
  }

  // ---- Which endpoints are asked ----

  /** The log goes on, and every request in what is new is of this kind, or asks for the token it needs. */
  ghost predicate AsksOnly(before: seq<Event>, log: seq<Event>, kind: Kind) {
    && before <= log
    && forall k :: |before| <= k < |log| ==> Concerns(log[k], kind)
  }

  predicate Concerns(e: Event, kind: Kind) {
    e.Request? ==> e.kind == kind || (kind.DjsReq? && e.kind == TokenReq(kind.query))
  }

  lemma AsksMore(before: seq<Event>, log: seq<Event>, longer: seq<Event>, kind: Kind)
    requires AsksOnly(before, log, kind) && AsksOnly(log, longer, kind)
    ensures AsksOnly(before, longer, kind)
  {
  }

  /** One more event that asks nothing. */
  lemma AsksNothing(before: seq<Event>, log: seq<Event>, e: Event, kind: Kind)
    requires AsksOnly(before, log, kind) && !e.Request?
    ensures AsksOnly(before, log + [e], kind)
  {
  }

  lemma GiveUpAsks(cfg: Config, st: State, kind: Kind, i: nat, error: Error, d: int, turn: Turn)
    requires i < cfg.retryMax
    ensures AsksOnly(st.log, VerdictState(GiveUpOrSleep(cfg, st, kind, i, error, d, turn)).log, kind)
  {
    AsksNothing(st.log, st.log, Backoff(kind, i, d), kind);
  }

  lemma OnBlockAsks(cfg: Config, st: State, lag: nat, kind: Kind)
    ensures AsksOnly(st.log, OnBlock(cfg, st, lag).log, kind)
  {
    var b, o := Block(st.now, st.now + lag), Opened(st.now + lag);
    AsksNothing(st.log, st.log, b, kind);
    AsksNothing(st.log, st.log + [b], o, kind);
    assert st.log + [b, o] == (st.log + [b]) + [o];
  }

  lemma OnCleanAsks(cfg: Config, st: State, kind: Kind, body: string)
    ensures AsksOnly(st.log, OnClean(cfg, st, kind, body).log, kind)
  {
    var c, r := Success(kind, body, st.now), Reset(st.now);
    AsksNothing(st.log, st.log, c, kind);
    AsksNothing(st.log, st.log + [c], r, kind);
    assert st.log + [c, r] == (st.log + [c]) + [r];
  }

  lemma BlockedReplyAsks(cfg: Config, st: State, kind: Kind, i: nat, d: int, turn: Turn)
    requires i < cfg.retryMax
    ensures AsksOnly(st.log, VerdictState(AfterBlockedReply(cfg, st, kind, i, d, turn)).log, kind)
  {
    var hit := OnBlock(cfg, st, turn.lag);
    var after := AfterSolver(cfg, hit, turn);
    OnBlockAsks(cfg, st, turn.lag, kind);
    GiveUpAsks(cfg, after, kind, i, Blocked, d, turn);
    AsksMore(st.log, hit.log, VerdictState(GiveUpOrSleep(cfg, after, kind, i, Blocked, d, turn)).log, kind);
  }

  lemma SettleAsks(cfg: Config, st: State, kind: Kind, i: nat, turn: Turn)
    requires i < cfg.retryMax
    ensures AsksOnly(st.log, VerdictState(Settle(cfg, st, kind, i, turn)).log, kind)
  {
    var d := BackoffDelay(cfg, i, turn.jitter);
    match Classify(cfg, turn.reply)
    case Clean(body) => OnCleanAsks(cfg, st, kind, body);
    case Final(_) =>
    case Retryable(error) => GiveUpAsks(cfg, st, kind, i, error, d, turn);
    case BlockedReply(secs) =>
      BlockedReplyAsks(cfg, st, kind, i, d, turn);
      BlockedReplyAsks(cfg, st.Later(secs * 1_000_000_000), kind, i, d, turn);
  }

  lemma {:induction false} PassAsks(cfg: Config, st: State, kind: Kind, i: nat)
    requires cfg.Valid() && i < cfg.retryMax
    ensures AsksOnly(st.log, VerdictState(Pass(cfg, st, kind, i)).log, kind)
    decreases |st.script|, 0
  {
    if Sending(cfg, st) {
      BuildAsks(cfg, Begin(st), kind);
      var built := Build(cfg, Begin(st), kind);
      if built.result.Ok? {
        var sent := Sent(built.state, kind, built.result.value, st.script[0]);
        SettleAsks(cfg, sent, kind, i, st.script[0]);
        AsksMore(st.log, built.state.log, sent.log, kind);
        AsksMore(st.log, sent.log, VerdictState(Pass(cfg, st, kind, i)).log, kind);
      }
    }
  }

  /** A call asks its own endpoint, and a d.js call also for the token of its query. */
  lemma {:induction false} CallAsks(cfg: Config, st: State, kind: Kind, i: nat)
    requires cfg.Valid() && i < cfg.retryMax
    ensures AsksOnly(st.log, Retry(cfg, st, kind, i).state.log, kind)
    decreases |st.script|, 1
  {
    PassAsks(cfg, st, kind, i);
    var v := Pass(cfg, st, kind, i);
    if v.Again? {
      CallAsks(cfg, v.state, kind, v.next);
      AsksMore(st.log, v.state.log, Retry(cfg, st, kind, i).state.log, kind);
    }
  }

  lemma {:induction false} BuildAsks(cfg: Config, st: State, kind: Kind)
    requires cfg.Valid()
    ensures AsksOnly(st.log, Build(cfg, st, kind).state.log, kind)
    decreases |st.script|, 2
  {
    if kind.DjsReq? {
      CallAsks(cfg, st, TokenReq(kind.query), 0);
    }
  }

  /** With the fallback switched off a search never asks the HTML endpoint. */
  lemma NoFallbackNoHtml(cfg: Config, st: State, rawQuery: string, maxResults: int)
    requires cfg.Valid() && cfg.noFallback
    ensures AsksOnly(st.log, Search(cfg, st, rawQuery, maxResults).state.log, DjsReq(Text.Trim(rawQuery)))
  {
    SearchAnswers(cfg, st, rawQuery, maxResults);
    CallAsks(cfg, st, DjsReq(Text.Trim(rawQuery)), 0);
  }
}
