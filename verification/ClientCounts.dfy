/** How many requests a call can send and how long it can back off. */
module ClientCounts {
  import opened Common
  import opened ClientModel
  import CB = CircuitBreaker
  import Text

  function Requests(log: seq<Event>): nat {
    if log == [] then 0 else Requests(log[..|log| - 1]) + if log[|log| - 1].Request? then 1 else 0
  }

  lemma RequestsPush(log: seq<Event>, e: Event)
    ensures Requests(log + [e]) == Requests(log) + if e.Request? then 1 else 0
  {
    assert (log + [e])[..|log|] == log;
  }

  /** The requests sent through doWithRetry since the client was made. */
  function Sends(st: State): nat {
    Requests(st.log)
  }

  function VerdictState(v: Verdict): State {
    if v.Done? then v.out.state else v.state
  }

  // ---- One attempt ----

  lemma GiveUpFacts(cfg: Config, st: State, kind: Kind, i: nat, error: Error, d: int, turn: Turn)
    requires i < cfg.retryMax
    ensures var v := GiveUpOrSleep(cfg, st, kind, i, error, d, turn); var after := VerdictState(v);
      && Sends(after) == Sends(st) && after.cache == st.cache && after.ua == st.ua && after.breaker == st.breaker
      && (v.Again? ==> v.next == i + 1)
  {
    RequestsPush(st.log, Backoff(kind, i, d));
  }

  lemma {:induction false} NoRequests(log: seq<Event>, report: seq<Event>)
    requires forall e :: e in report ==> !e.Request?
    ensures Requests(log + report) == Requests(log)
    decreases |report|
  {
    if report == [] {
      assert log + [] == log;
    } else {
      var n := |report| - 1;
      NoRequests(log, report[..n]);
      assert log + report == (log + report[..n]) + [report[n]];
      RequestsPush(log + report[..n], report[n]);
    }
  }

  lemma OnBlockFacts(cfg: Config, st: State, lag: nat)
    ensures var after := OnBlock(cfg, st, lag);
      && Sends(after) == Sends(st) && after.ua == st.ua && after.now == st.now + lag
      && after.cache == (if cfg.Invalidates() then map[] else st.cache)
      && after.breaker == if cfg.HasCircuit() then CB.AfterBlock(st.breaker, st.now + lag) else st.breaker
  {
    NoRequests(st.log, BlockReport(cfg, st, lag));
  }

  lemma OnCleanFacts(cfg: Config, st: State, kind: Kind, body: string)
    ensures var after := OnClean(cfg, st, kind, body);
      && Sends(after) == Sends(st) && after.cache == st.cache && after.ua == st.ua && after.now == st.now
      && after.breaker == if cfg.HasCircuit() then CB.AfterSuccess(st.breaker) else st.breaker
  {
    NoRequests(st.log, SuccessReport(cfg, st, kind, body));
  }

  lemma AfterSolverFacts(cfg: Config, st: State, turn: Turn)
    ensures var after := AfterSolver(cfg, st, turn);
      && after.log == st.log && after.cache == st.cache && after.breaker == st.breaker
      && (!cfg.HasSolver() ==> after.ua == st.ua)
      && (Solves(cfg, turn) ==> after.now == st.now + turn.solveDelay)
  {
  }

  /** Some reply makes the client ask its solver. */
  ghost predicate Engages(cfg: Config) {
    cfg.HasSolver() && exists reply :: Classify(cfg, reply).BlockedReply?
  }

  lemma BlockedReplyFacts(cfg: Config, st: State, kind: Kind, i: nat, d: int, turn: Turn)
    requires i < cfg.retryMax
    ensures var v := AfterBlockedReply(cfg, st, kind, i, d, turn); var after := VerdictState(v);
      && Sends(after) == Sends(st)
      && (v.Again? ==> v.next == if Solves(cfg, turn) then i else i + 1)
      && (Solves(cfg, turn) ==> v.Again? && after.now == st.now + turn.lag + turn.solveDelay)
      && (!cfg.HasSolver() ==> after.ua == st.ua)
      && after.cache == (if cfg.Invalidates() then map[] else st.cache)
      && after.breaker == if cfg.HasCircuit() then CB.AfterBlock(st.breaker, st.now + turn.lag) else st.breaker
  {
    var hit := OnBlock(cfg, st, turn.lag);
    OnBlockFacts(cfg, st, turn.lag);
    AfterSolverFacts(cfg, hit, turn);
    GiveUpFacts(cfg, AfterSolver(cfg, hit, turn), kind, i, Blocked, d, turn);
  }

  /** Settling sends nothing; where no challenge is solved every further attempt has a larger index. */
  lemma SettleFacts(cfg: Config, st: State, kind: Kind, i: nat, turn: Turn)
    requires i < cfg.retryMax
    ensures var v := Settle(cfg, st, kind, i, turn); var after := VerdictState(v);
      && Sends(after) == Sends(st)
      && (v.Again? ==> v.next == i + 1 || (v.next == i && Engages(cfg)))
      && (!Engages(cfg) ==> after.ua == st.ua)
      && (!cfg.Invalidates() ==> after.cache == st.cache)
  {
    var d := BackoffDelay(cfg, i, turn.jitter);
    match Classify(cfg, turn.reply)
    case Clean(body) => OnCleanFacts(cfg, st, kind, body);
    case Final(_) =>
    case Retryable(error) => GiveUpFacts(cfg, st, kind, i, error, d, turn);
    case BlockedReply(secs) =>
      BlockedReplyFacts(cfg, st, kind, i, d, turn);
      BlockedReplyFacts(cfg, st.Later(secs * 1_000_000_000), kind, i, d, turn);
  }

  lemma SentFacts(st: State, kind: Kind, token: string, turn: Turn)
    ensures Sends(Sent(st, kind, token, turn)) == Sends(st) + 1
  {
    RequestsPush(st.log, Request(kind, token, st.ua, st.now));
  }

  // ---- One pass ----

  predicate Sending(cfg: Config, st: State) {
    !FailsFast(cfg, st) && st.script != [] && st.script[0].waitOk
  }

  /** A pass that gets as far as sending sends one request beyond what building it took. */
  lemma PassFacts(cfg: Config, st: State, kind: Kind, i: nat)
    requires cfg.Valid() && i < cfg.retryMax
    ensures var v := Pass(cfg, st, kind, i); var after := VerdictState(v);
      if !Sending(cfg, st) then v.Done? && Sends(after) == Sends(st) && after.ua == st.ua
      else
        var built := Build(cfg, Begin(st), kind);
        if built.result.Fail? then v == Done(built)
        else
          && Sends(after) == Sends(built.state) + 1
          && (v.Again? ==> v.next == i + 1 || (v.next == i && Engages(cfg)))
          && (!Engages(cfg) ==> after.ua == built.state.ua)
          && (!cfg.Invalidates() ==> after.cache == built.state.cache)
  {
    RequestsPush(st.log, FailFast(st.now));
    if Sending(cfg, st) {
      var turn := st.script[0];
      var built := Build(cfg, Begin(st), kind);
      if built.result.Ok? {
        SentFacts(built.state, kind, built.result.value, turn);
        SettleFacts(cfg, Sent(built.state, kind, built.result.value, turn), kind, i, turn);
      }
    }
  }

  // ---- Where no challenge is solved ----

  lemma {:induction false} PlainCost(cfg: Config, st: State, kind: Kind, i: nat)
    requires cfg.Valid() && i < cfg.retryMax && !Engages(cfg) && !kind.DjsReq?
    ensures var out := Retry(cfg, st, kind, i);
      Sends(out.state) <= Sends(st) + cfg.retryMax - i && out.state.ua == st.ua
    decreases |st.script|
  {
    PassFacts(cfg, st, kind, i);
    var v := Pass(cfg, st, kind, i);
    if v.Again? {
      PlainCost(cfg, v.state, kind, v.next);
    }
  }

  lemma TokenCost(cfg: Config, st: State, query: string)
    requires cfg.Valid() && !Engages(cfg)
    ensures var out := GetVQD(cfg, st, query);
      Sends(out.state) <= Sends(st) + cfg.retryMax && out.state.ua == st.ua
  {
    var key := CacheKey(query, st.ua);
    if Cached(st, key) {
      RequestsPush(st.log, Hit(st.cache[key].value, query, st.ua, st.now));
    } else {
      PlainCost(cfg, st, TokenReq(query), 0);
      var fetched := Retry(cfg, st, TokenReq(query), 0);
      if fetched.result.Ok? {
        RequestsPush(fetched.state.log, Issued(cfg.vqdOf(fetched.result.value), query, st.ua, fetched.state.now));
      }
    }
  }

  lemma NestedPass(cfg: Config, st: State, query: string, i: nat)
    requires cfg.Valid() && i < cfg.retryMax && !Engages(cfg)
    ensures var v := Pass(cfg, st, DjsReq(query), i);
      Sends(VerdictState(v)) <= Sends(st) + cfg.retryMax + 1 && (v.Again? ==> v.next == i + 1)
  {
    PassFacts(cfg, st, DjsReq(query), i);
    if Sending(cfg, st) {
      TokenCost(cfg, Begin(st), query);
    }
  }

  /** n attempts that may each fetch a token first. */
  function NestedPrice(n: nat, retryMax: nat): nat {
    if n == 0 then 0 else NestedPrice(n - 1, retryMax) + retryMax + 1
  }

  lemma {:induction false} NestedPriceProduct(n: nat, retryMax: nat)
    ensures NestedPrice(n, retryMax) == n * (retryMax + 1)
  {
    if n > 0 {
      NestedPriceProduct(n - 1, retryMax);
    }
  }

  lemma {:induction false} NestedCost(cfg: Config, st: State, query: string, i: nat)
    requires cfg.Valid() && i < cfg.retryMax && !Engages(cfg)
    ensures Sends(Retry(cfg, st, DjsReq(query), i).state) <= Sends(st) + NestedPrice(cfg.retryMax - i, cfg.retryMax)
    decreases |st.script|
  {
    NestedPass(cfg, st, query, i);
    var v := Pass(cfg, st, DjsReq(query), i);
    if v.Again? {
      NestedCost(cfg, v.state, query, v.next);
    }
  }

  lemma SearchPrice(n: nat)
    ensures NestedPrice(n, n) + n == n * (n + 2)
  {
    NestedPriceProduct(n, n);
    assert n * (n + 2) == n * (n + 1) + n;
  }

  /** Without a solver, or a reply it could be asked about, one Search sends at most retryMax*(retryMax+2) requests. */
  lemma SearchCost(cfg: Config, st: State, query: string, maxResults: int)
    requires cfg.Valid() && !Engages(cfg)
    ensures Sends(Search(cfg, st, query, maxResults).state) <= Sends(st) + cfg.retryMax * (cfg.retryMax + 2)
  {
    var trimmed := Text.Trim(query);
    NestedCost(cfg, st, trimmed, 0);
    SearchPrice(cfg.retryMax);
    PlainCost(cfg, SearchDJS(cfg, st, trimmed).state, HtmlReq(trimmed), 0);
  }

  // ---- With a solver ----

  /** Every solved challenge is retried within the cooldown. */
  ghost predicate Prompt(script: seq<Turn>, cooldown: int) {
    forall t :: t in script && t.solution.Some? ==> t.solveDelay < cooldown
  }

  /** How many requests the rest of a call may send: the attempts left and the blocks the breaker still takes. */
  function SendBound(cfg: Config, st: State, i: nat): int {
    if FailsFast(cfg, st) then 0 else Purse(cfg, st, i)
  }

  /** What the attempts left and the blocks the breaker still takes pay for when a request is sent at index i. */
  function Purse(cfg: Config, st: State, i: nat): int {
    cfg.retryMax - i + Max(st.breaker.threshold - st.breaker.consecutive, 1) - 1
  }

  ghost predicate Paid(cfg: Config, st: State, i: nat, v: Verdict) {
    v.Again? ==>
      && v.state.breaker.cooldown == st.breaker.cooldown && v.state.breaker.threshold == st.breaker.threshold
      && 1 + SendBound(cfg, v.state, v.next) <= Purse(cfg, st, i)
  }

  lemma BlockIsPaid(cfg: Config, st: State, kind: Kind, i: nat, d: int, turn: Turn)
    requires cfg.HasCircuit() && i < cfg.retryMax
    requires turn.solution.Some? ==> turn.solveDelay < st.breaker.cooldown
    ensures Paid(cfg, st, i, AfterBlockedReply(cfg, st, kind, i, d, turn))
  {
    BlockedReplyFacts(cfg, st, kind, i, d, turn);
  }

  lemma GiveUpIsPaid(cfg: Config, st: State, kind: Kind, i: nat, error: Error, d: int, turn: Turn)
    requires i < cfg.retryMax
    ensures Paid(cfg, st, i, GiveUpOrSleep(cfg, st, kind, i, error, d, turn))
  {
    GiveUpFacts(cfg, st, kind, i, error, d, turn);
  }

  /** Each attempt is paid for by an index, or by a block that brings the breaker closer to opening. */
  lemma AttemptIsPaid(cfg: Config, st: State, kind: Kind, i: nat, turn: Turn)
    requires cfg.HasCircuit() && i < cfg.retryMax
    requires turn.solution.Some? ==> turn.solveDelay < st.breaker.cooldown
    ensures Paid(cfg, st, i, Settle(cfg, st, kind, i, turn))
  {
    var d := BackoffDelay(cfg, i, turn.jitter);
    match Classify(cfg, turn.reply)
    case Clean(_) =>
    case Final(_) =>
    case Retryable(error) => GiveUpIsPaid(cfg, st, kind, i, error, d, turn);
    case BlockedReply(secs) =>
      BlockIsPaid(cfg, st, kind, i, d, turn);
      BlockIsPaid(cfg, st.Later(secs * 1_000_000_000), kind, i, d, turn);
  }

  lemma PromptTail(script: seq<Turn>, tail: seq<Turn>, cooldown: int)
    requires Prompt(script, cooldown) && forall t :: t in tail ==> t in script
    ensures Prompt(tail, cooldown)
  {
  }

  lemma SolvedPass(cfg: Config, st: State, kind: Kind, i: nat)
    requires cfg.Valid() && i < cfg.retryMax && cfg.HasCircuit() && !kind.DjsReq?
    requires Prompt(st.script, st.breaker.cooldown)
    ensures match Pass(cfg, st, kind, i)
      case Done(out) => Sends(out.state) <= Sends(st) + SendBound(cfg, st, i)
      case Again(next, after) =>
        && Sends(after) + SendBound(cfg, after, next) <= Sends(st) + SendBound(cfg, st, i)
        && Prompt(after.script, after.breaker.cooldown)
  {
    PassFacts(cfg, st, kind, i);
    if Sending(cfg, st) {
      var turn := st.script[0];
      AttemptIsPaid(cfg, Sent(Begin(st), kind, "", turn), kind, i, turn);
      PromptTail(st.script, st.script[1..], st.breaker.cooldown);
    }
  }

  lemma {:induction false} SolvedCost(cfg: Config, st: State, kind: Kind, i: nat)
    requires cfg.Valid() && i < cfg.retryMax && cfg.HasCircuit() && !kind.DjsReq?
    requires Prompt(st.script, st.breaker.cooldown)
    ensures Sends(Retry(cfg, st, kind, i).state) <= Sends(st) + SendBound(cfg, st, i)
    decreases |st.script|
  {
    SolvedPass(cfg, st, kind, i);
    var v := Pass(cfg, st, kind, i);
    if v.Again? {
      SolvedCost(cfg, v.state, kind, v.next);
    }
  }

  /**
   A call whose builder records no success sends at most retryMax + threshold - 1 requests, although each
   solved challenge undoes its loop increment, provided solved challenges are retried within the cooldown.
   */
  lemma SolvedCallCost(cfg: Config, st: State, kind: Kind)
    requires cfg.Valid() && cfg.HasCircuit() && !kind.DjsReq?
    requires st.breaker.threshold > 0 && st.breaker.consecutive >= 0
    requires Prompt(st.script, st.breaker.cooldown)
    ensures Sends(Retry(cfg, st, kind, 0).state) <= Sends(st) + cfg.retryMax + st.breaker.threshold - 1
  {
    SolvedCost(cfg, st, kind, 0);
  }
}
