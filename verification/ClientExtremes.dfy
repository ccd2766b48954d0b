/** Scripts that reach the request bounds, and scripts that show where there is none. */
module ClientExtremes {
  import opened Common
  import opened ClientModel
  import opened ClientCounts
  import CB = CircuitBreaker
  import Text

  function Repeat(turn: Turn, n: nat): seq<Turn> {
    if n == 0 then [] else [turn] + Repeat(turn, n - 1)
  }

  const FAILED := Turn(0, true, 0, Failed, true, 0, 0, None, 0.0, true)

  /** After the given wait a blocked reply, whose challenge is solved after the given delay. */
  function Challenge(reply: Reply, wait: nat, solveDelay: nat): Turn {
    Turn(wait, true, 0, reply, true, 0, solveDelay, Some(""), 0.0, true)
  }

  /** A reply without delays. */
  function PageTurn(reply: Reply): Turn {
    Turn(0, true, 0, reply, true, 0, 0, None, 0.0, true)
  }

  /** The client takes the reply for a block. */
  predicate Blocks(cfg: Config, reply: Reply) {
    Classify(cfg, reply) == BlockedReply(0)
  }

  /** The reply is a clean page with a token. */
  predicate Issues(cfg: Config, reply: Reply) {
    match Classify(cfg, reply)
    case Clean(body) => cfg.vqdOf(body) != ""
    case _ => false
  }

  /** A pass that sends is a settled attempt. */
  lemma PassIs(cfg: Config, st: State, kind: Kind, i: nat)
    requires cfg.Valid() && i < cfg.retryMax && Sending(cfg, st)
    ensures var built := Build(cfg, Begin(st), kind); var turn := st.script[0];
      built.result.Ok? ==>
        Pass(cfg, st, kind, i) == Settle(cfg, Sent(built.state, kind, built.result.value, turn), kind, i, turn)
  {
  }

  /** A failure on the last index ends the call; before it the next index follows, closed as before. */
  ghost predicate FailsOn(cfg: Config, st: State, i: nat, v: Verdict) {
    match v
    case Done(out) => i == cfg.retryMax - 1 && Sends(out.state) == Sends(st) && out.state == st && out.result.Fail?
    case Again(next, after) =>
      && i < cfg.retryMax - 1 && next == i + 1 && Sends(after) == Sends(st)
      && after.breaker == st.breaker && st.now <= after.now && after.script == st.script
      && after.cache == st.cache && after.ua == st.ua
  }

  lemma FailedGiveUp(cfg: Config, st: State, kind: Kind, i: nat, d: int)
    requires i < cfg.retryMax
    ensures FailsOn(cfg, st, i, GiveUpOrSleep(cfg, st, kind, i, Network, d, FAILED))
  {
    GiveUpFacts(cfg, st, kind, i, Network, d, FAILED);
  }

  lemma FailedSettle(cfg: Config, st: State, kind: Kind, i: nat)
    requires i < cfg.retryMax
    ensures FailsOn(cfg, st, i, Settle(cfg, st, kind, i, FAILED))
  {
    FailedGiveUp(cfg, st, kind, i, BackoffDelay(cfg, i, FAILED.jitter));
  }

  /** A plain attempt that fails sends one request and changes nothing else that matters. */
  ghost predicate FailedTo(st: State, after: State)
    requires st.script != []
  {
    && Sends(after) == Sends(st) + 1 && after.script == st.script[1..] && st.now <= after.now
    && after.breaker == st.breaker && after.cache == st.cache && after.ua == st.ua
  }

  lemma FailedStep(cfg: Config, st: State, kind: Kind, i: nat)
    requires cfg.Valid() && i < cfg.retryMax && !kind.DjsReq? && !FailsFast(cfg, st)
    requires st.script != [] && st.script[0] == FAILED
    ensures var v := Pass(cfg, st, kind, i);
      && FailedTo(st, VerdictState(v))
      && if v.Done? then i == cfg.retryMax - 1 else v.next == i + 1 && i < cfg.retryMax - 1
  {
    PassIs(cfg, st, kind, i);
    SentFacts(Begin(st), kind, "", FAILED);
    FailedSettle(cfg, Sent(Begin(st), kind, "", FAILED), kind, i);
  }

  lemma RepeatTail(turn: Turn, n: nat, rest: seq<Turn>)
    requires n > 0
    ensures var script := Repeat(turn, n) + rest; script[0] == turn && script[1..] == Repeat(turn, n - 1) + rest
  {
  }

  /** Transport failures use up every remaining index. */
  lemma {:induction false} FailedRun(cfg: Config, st: State, kind: Kind, i: nat)
    requires cfg.Valid() && i < cfg.retryMax && !kind.DjsReq? && !FailsFast(cfg, st)
    requires st.script == Repeat(FAILED, cfg.retryMax - i)
    ensures Sends(Retry(cfg, st, kind, i).state) == Sends(st) + cfg.retryMax - i
    decreases cfg.retryMax - i
  {
    FailedStep(cfg, st, kind, i);
    var v := Pass(cfg, st, kind, i);
    if v.Again? {
      FailedRun(cfg, v.state, kind, v.next);
    }
  }

  /** One solved challenge: the index stays, and the breaker counts a block. */
  lemma ChallengeStep(cfg: Config, st: State, kind: Kind, token: string, i: nat, reply: Reply, wait: nat, d: nat)
    requires cfg.Valid() && i < cfg.retryMax && cfg.HasSolver() && Blocks(cfg, reply)
    ensures var turn := Challenge(reply, wait, d);
      var v := Settle(cfg, Sent(st, kind, token, turn), kind, i, turn);
      && v.Again? && v.next == i && Sends(v.state) == Sends(st) + 1
      && v.state.breaker == (if cfg.HasCircuit() then CB.AfterBlock(st.breaker, st.now) else st.breaker)
      && v.state.cache == (if cfg.Invalidates() then map[] else st.cache)
      && v.state.now == st.now + d && v.state.script == st.script && v.state.ua == st.ua
  {
    var turn := Challenge(reply, wait, d);
    SentFacts(st, kind, token, turn);
    BlockedReplyFacts(cfg, Sent(st, kind, token, turn), kind, i, BackoffDelay(cfg, i, turn.jitter), turn);
  }

  /** The same for a call that fetches no token. */
  lemma PlainChallenge(cfg: Config, st: State, kind: Kind, reply: Reply, d: nat)
    requires cfg.Valid() && cfg.HasSolver() && !kind.DjsReq? && Blocks(cfg, reply) && !FailsFast(cfg, st)
    requires st.script != [] && st.script[0] == Challenge(reply, 0, d)
    ensures var v := Pass(cfg, st, kind, 0);
      && v.Again? && v.next == 0 && Sends(v.state) == Sends(st) + 1
      && v.state.breaker == (if cfg.HasCircuit() then CB.AfterBlock(st.breaker, st.now) else st.breaker)
      && v.state.now == st.now + d && v.state.script == st.script[1..]
  {
    PassIs(cfg, st, kind, 0);
    ChallengeStep(cfg, Begin(st), kind, "", 0, reply, 0, d);
  }

  lemma {:induction false} ChallengesThenFailures(cfg: Config, st: State, kind: Kind, reply: Reply, k: nat)
    requires cfg.Valid() && cfg.HasSolver() && cfg.HasCircuit() && !kind.DjsReq? && Blocks(cfg, reply)
    requires st.breaker.openUntil.None? && st.breaker.consecutive + k < st.breaker.threshold
    requires st.script == Repeat(Challenge(reply, 0, 0), k) + Repeat(FAILED, cfg.retryMax)
    ensures Sends(Retry(cfg, st, kind, 0).state) == Sends(st) + k + cfg.retryMax
    decreases k
  {
    if k == 0 {
      FailedRun(cfg, st, kind, 0);
    } else {
      assert st.script[1..] == Repeat(Challenge(reply, 0, 0), k - 1) + Repeat(FAILED, cfg.retryMax);
      PlainChallenge(cfg, st, kind, reply, 0);
      ChallengesThenFailures(cfg, Pass(cfg, st, kind, 0).state, kind, reply, k - 1);
    }
  }

  /** The bound of retryMax + threshold - 1 requests is reached. */
  lemma SolvedBoundIsTight(cfg: Config, st: State, kind: Kind, reply: Reply)
    requires cfg.Valid() && cfg.HasSolver() && cfg.HasCircuit() && !kind.DjsReq? && Blocks(cfg, reply)
    requires st.breaker.openUntil.None? && st.breaker.consecutive == 0 < st.breaker.threshold
    ensures exists script ::
      Sends(Retry(cfg, st.(script := script), kind, 0).state) == Sends(st) + cfg.retryMax + st.breaker.threshold - 1
  {
    var k := st.breaker.threshold - 1;
    var script := Repeat(Challenge(reply, 0, 0), k) + Repeat(FAILED, cfg.retryMax);
    ChallengesThenFailures(cfg, st.(script := script), kind, reply, k);
  }

  /**
   Without a breaker, or with a solver that takes at least one cooldown, every solved challenge is
   followed by another request: for every n some call sends n requests.
   */
  lemma {:induction false} UncheckedSolverIsUnbounded(cfg: Config, st: State, kind: Kind, reply: Reply, d: nat, n: nat)
    requires cfg.Valid() && cfg.HasSolver() && !kind.DjsReq? && Blocks(cfg, reply)
    requires !FailsFast(cfg, st) && (cfg.HasCircuit() ==> d >= st.breaker.cooldown)
    requires st.script == Repeat(Challenge(reply, 0, d), n)
    ensures Sends(Retry(cfg, st, kind, 0).state) == Sends(st) + n && Retry(cfg, st, kind, 0).result.Fail?
    decreases n
  {
    if n > 0 {
      assert st.script[1..] == Repeat(Challenge(reply, 0, d), n - 1);
      PlainChallenge(cfg, st, kind, reply, d);
      UncheckedSolverIsUnbounded(cfg, Pass(cfg, st, kind, 0).state, kind, reply, d, n - 1);
    }
  }

  // ---- Tokens that have to be fetched again ----

  /** Each round uses an attempt at d.js, for which a token has to be fetched first. */
  function Rounds(blocked: Reply, page: Reply, wait: nat, n: nat): seq<Turn> {
    if n == 0 then [] else [Challenge(blocked, wait, 0), PageTurn(page)] + Rounds(blocked, page, wait, n - 1)
  }

  /** A plain call that meets a clean page at this index. */
  ghost predicate Cleaned(cfg: Config, st: State, page: Reply, out: Outcome<string>)
    requires Classify(cfg, page).Clean?
  {
    && out.result == Ok(Classify(cfg, page).body)
    && out.state.cache == st.cache && out.state.ua == st.ua
    && out.state.breaker == if cfg.HasCircuit() then CB.AfterSuccess(st.breaker) else st.breaker
  }

  lemma PlainPage(cfg: Config, st: State, kind: Kind, i: nat, page: Reply)
    requires cfg.Valid() && i < cfg.retryMax && !kind.DjsReq? && Classify(cfg, page).Clean? && !FailsFast(cfg, st)
    requires st.script != [] && st.script[0] == PageTurn(page)
    ensures var out := Retry(cfg, st, kind, i);
      && Cleaned(cfg, st, page, out) && Sends(out.state) == Sends(st) + 1
      && out.state.script == st.script[1..] && out.state.now == st.now
  {
    var turn := PageTurn(page);
    var begun := Begin(st);
    PassIs(cfg, st, kind, i);
    SentFacts(begun, kind, "", turn);
    OnCleanFacts(cfg, Sent(begun, kind, "", turn), kind, Classify(cfg, page).body);
    assert Build(cfg, begun, kind) == Outcome(Ok(""), begun);
  }

  /** Fetching a token succeeds at the first attempt, resets the breaker and caches the token for its lifetime. */
  lemma FetchToken(cfg: Config, st: State, query: string, page: Reply)
    requires cfg.Valid() && Issues(cfg, page) && !FailsFast(cfg, st) && !Cached(st, CacheKey(query, st.ua))
    requires st.script != [] && st.script[0] == PageTurn(page)
    ensures var out := GetVQD(cfg, st, query); var token := cfg.vqdOf(Classify(cfg, page).body);
      && out.result == Ok(token) && Sends(out.state) == Sends(st) + 1
      && out.state.script == st.script[1..] && out.state.now == st.now && out.state.ua == st.ua
      && out.state.cache == st.cache[CacheKey(query, st.ua) := Token(token, st.now + cfg.vqdTTL)]
      && out.state.breaker == if cfg.HasCircuit() then CB.AfterSuccess(st.breaker) else st.breaker
  {
    PlainPage(cfg, st, TokenReq(query), 0, page);
    var fetched := Retry(cfg, st, TokenReq(query), 0).state;
    RequestsPush(fetched.log, Issued(cfg.vqdOf(Classify(cfg, page).body), query, st.ua, fetched.now));
  }

  /** The breaker takes one more block without opening, however many came before, as long as a success precedes it. */
  predicate Lenient(cfg: Config, st: State) {
    cfg.HasCircuit() ==> st.breaker.threshold >= 2 && st.breaker.openUntil.None?
  }

  /** One round: a token is fetched, its request is blocked, and the challenge is solved. */
  lemma Round(cfg: Config, st: State, query: string, blocked: Reply, page: Reply, wait: nat)
    requires cfg.Valid() && cfg.HasSolver() && Blocks(cfg, blocked) && Issues(cfg, page)
    requires Lenient(cfg, st) && (cfg.Invalidates() || wait >= cfg.vqdTTL)
    requires !Cached(st.Later(wait), CacheKey(query, st.ua))
    requires |st.script| >= 2 && st.script[0] == Challenge(blocked, wait, 0) && st.script[1] == PageTurn(page)
    ensures var v := Pass(cfg, st, DjsReq(query), 0);
      && v.Again? && v.next == 0 && Sends(v.state) == Sends(st) + 2 && v.state.script == st.script[2..]
      && Lenient(cfg, v.state) && !Cached(v.state.Later(wait), CacheKey(query, v.state.ua))
  {
    var begun := Begin(st);
    assert begun.script[0] == PageTurn(page) && begun.script[1..] == st.script[2..];
    FetchToken(cfg, begun, query, page);
    var built := GetVQD(cfg, begun, query);
    PassIs(cfg, st, DjsReq(query), 0);
    ChallengeStep(cfg, built.state, DjsReq(query), built.result.value, 0, blocked, wait, 0);
  }

  /**
   Without a breaker, or with a threshold of at least two, no number bounds the requests of a d.js call,
   however prompt the solver: the success of the refetched token resets the breaker each time. The token
   is refetched because the block invalidated it, or because it expired during the wait.
   */
  lemma {:induction false} TokenSuccessDefeatsBreaker(
    cfg: Config, st: State, query: string, blocked: Reply, page: Reply, wait: nat, n: nat)
    requires cfg.Valid() && cfg.HasSolver() && Blocks(cfg, blocked) && Issues(cfg, page)
    requires Lenient(cfg, st) && (cfg.Invalidates() || wait >= cfg.vqdTTL)
    requires !Cached(st.Later(wait), CacheKey(query, st.ua)) && st.script == Rounds(blocked, page, wait, n)
    ensures Sends(Retry(cfg, st, DjsReq(query), 0).state) == Sends(st) + 2 * n
    decreases n
  {
    if n > 0 {
      assert st.script[2..] == Rounds(blocked, page, wait, n - 1);
      Round(cfg, st, query, blocked, page, wait);
      TokenSuccessDefeatsBreaker(cfg, Pass(cfg, st, DjsReq(query), 0).state, query, blocked, page, wait, n - 1);
    }
  }

  // ---- The most a search without solved challenges can send ----

  /** Failures at every index but the last, and then a clean page. */
  lemma {:induction false} FailuresThenPage(
    cfg: Config, st: State, kind: Kind, i: nat, page: Reply, rest: seq<Turn>)
    requires cfg.Valid() && i < cfg.retryMax && !kind.DjsReq? && Classify(cfg, page).Clean? && !FailsFast(cfg, st)
    requires st.script == Repeat(FAILED, cfg.retryMax - 1 - i) + ([PageTurn(page)] + rest)
    ensures var out := Retry(cfg, st, kind, i);
      && Cleaned(cfg, st, page, out) && Sends(out.state) == Sends(st) + cfg.retryMax - i
      && out.state.script == rest && st.now <= out.state.now
    decreases cfg.retryMax - i
  {
    if i == cfg.retryMax - 1 {
      assert st.script == [PageTurn(page)] + rest;
      PlainPage(cfg, st, kind, i, page);
    } else {
      RepeatTail(FAILED, cfg.retryMax - 1 - i, [PageTurn(page)] + rest);
      FailedStep(cfg, st, kind, i);
      FailuresThenPage(cfg, Pass(cfg, st, kind, i).state, kind, i + 1, page, rest);
    }
  }

  /** A token that takes every attempt there is to fetch. */
  lemma DearToken(cfg: Config, st: State, query: string, page: Reply, rest: seq<Turn>)
    requires cfg.Valid() && Issues(cfg, page) && !FailsFast(cfg, st) && !Cached(st, CacheKey(query, st.ua))
    requires st.script == Repeat(FAILED, cfg.retryMax - 1) + ([PageTurn(page)] + rest)
    ensures var out := GetVQD(cfg, st, query); var token := cfg.vqdOf(Classify(cfg, page).body);
      && out.result == Ok(token) && Sends(out.state) == Sends(st) + cfg.retryMax
      && out.state.script == rest && out.state.ua == st.ua && st.now <= out.state.now
      && out.state.cache == st.cache[CacheKey(query, st.ua) := Token(token, st.now + cfg.vqdTTL)]
      && out.state.breaker == if cfg.HasCircuit() then CB.AfterSuccess(st.breaker) else st.breaker
  {
    FailuresThenPage(cfg, st, TokenReq(query), 0, page, rest);
    var fetched := Retry(cfg, st, TokenReq(query), 0).state;
    RequestsPush(fetched.log, Issued(cfg.vqdOf(Classify(cfg, page).body), query, st.ua, fetched.now));
  }

  /** A d.js attempt that starts so late that it has to fetch its token, and then fails. */
  function LateFailure(wait: nat): Turn {
    FAILED.(wait := wait)
  }

  /** n such attempts, each with a token that takes every attempt there is. */
  function DearRounds(retryMax: int, page: Reply, wait: nat, n: nat, rest: seq<Turn>): seq<Turn>
    requires retryMax > 0
  {
    if n == 0 then rest else
    var others := DearRounds(retryMax, page, wait, n - 1, rest);
    [LateFailure(wait)] + (Repeat(FAILED, retryMax - 1) + ([PageTurn(page)] + others))
  }

  /** What is left after a failure at index i, if anything follows. */
  lemma LateSettle(cfg: Config, st: State, kind: Kind, i: nat, wait: nat)
    requires i < cfg.retryMax
    ensures FailsOn(cfg, st, i, Settle(cfg, st, kind, i, LateFailure(wait)))
  {
    GiveUpFacts(cfg, st, kind, i, Network, BackoffDelay(cfg, i, 0.0), LateFailure(wait));
  }

  lemma DearRound(cfg: Config, st: State, query: string, i: nat, page: Reply, wait: nat, rest: seq<Turn>)
    requires cfg.Valid() && i < cfg.retryMax && Issues(cfg, page) && !FailsFast(cfg, st) && wait >= cfg.vqdTTL
    requires !Cached(st.Later(wait), CacheKey(query, st.ua))
    requires st.script == [LateFailure(wait)] + (Repeat(FAILED, cfg.retryMax - 1) + ([PageTurn(page)] + rest))
    ensures var v := Pass(cfg, st, DjsReq(query), i); var after := VerdictState(v);
      && Sends(after) == Sends(st) + cfg.retryMax + 1 && after.script == rest && !FailsFast(cfg, after)
      && (if v.Done? then i == cfg.retryMax - 1 && v.out.result.Fail? else v.next == i + 1 && i < cfg.retryMax - 1)
      && !Cached(after.Later(wait), CacheKey(query, after.ua))
  {
    var begun, turn := Begin(st), LateFailure(wait);
    assert begun.script == Repeat(FAILED, cfg.retryMax - 1) + ([PageTurn(page)] + rest);
    DearToken(cfg, begun, query, page, rest);
    var built := GetVQD(cfg, begun, query);
    PassIs(cfg, st, DjsReq(query), i);
    SentFacts(built.state, DjsReq(query), built.result.value, turn);
    LateSettle(cfg, Sent(built.state, DjsReq(query), built.result.value, turn), DjsReq(query), i, wait);
  }

  lemma {:induction false} DearCall(
    cfg: Config, st: State, query: string, i: nat, page: Reply, wait: nat, rest: seq<Turn>)
    requires cfg.Valid() && i < cfg.retryMax && Issues(cfg, page) && !FailsFast(cfg, st) && wait >= cfg.vqdTTL
    requires !Cached(st.Later(wait), CacheKey(query, st.ua))
    requires st.script == DearRounds(cfg.retryMax, page, wait, cfg.retryMax - i, rest)
    ensures var out := Retry(cfg, st, DjsReq(query), i);
      && out.result.Fail? && out.state.script == rest && !FailsFast(cfg, out.state)
      && Sends(out.state) == Sends(st) + NestedPrice(cfg.retryMax - i, cfg.retryMax)
    decreases cfg.retryMax - i
  {
    DearRound(cfg, st, query, i, page, wait, DearRounds(cfg.retryMax, page, wait, cfg.retryMax - i - 1, rest));
    var v := Pass(cfg, st, DjsReq(query), i);
    if v.Again? {
      DearCall(cfg, v.state, query, v.next, page, wait, rest);
    }
  }

  /** A wait after which the cached token, if any, is out of date. */
  function LongWait(cfg: Config, st: State, key: string): (wait: int)
    ensures cfg.Valid() ==> wait >= cfg.vqdTTL && wait >= 0 && !(wait >= 0 && Cached(st.Later(wait), key))
  {
    if key in st.cache then Max(cfg.vqdTTL, st.cache[key].expiresAt - st.now) else cfg.vqdTTL
  }

  /**
   The bound of retryMax*(retryMax+2) requests of one Search is reached: every d.js attempt finds its token
   expired, needs every attempt to fetch another one and then fails, and so does every HTML attempt.
   */
  lemma SearchBoundIsTight(cfg: Config, st: State, query: string, maxResults: int, page: Reply)
    requires cfg.Valid() && !cfg.noFallback && Issues(cfg, page) && !FailsFast(cfg, st) && Text.Trim(query) != ""
    ensures exists script ::
      Sends(Search(cfg, st.(script := script), query, maxResults).state)
        == Sends(st) + cfg.retryMax * (cfg.retryMax + 2)
  {
    var trimmed := Text.Trim(query);
    var wait := LongWait(cfg, st, CacheKey(trimmed, st.ua));
    var script := DearRounds(cfg.retryMax, page, wait, cfg.retryMax, Repeat(FAILED, cfg.retryMax));
    var st' := st.(script := script);
    DearCall(cfg, st', trimmed, 0, page, wait, Repeat(FAILED, cfg.retryMax));
    var first := SearchDJS(cfg, st', trimmed);
    FailedRun(cfg, first.state, HtmlReq(trimmed), 0);
    SearchPrice(cfg.retryMax);
  }
}
