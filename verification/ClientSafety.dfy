/** What holds of the whole event log of one client with a single caller, over any sequence of searches. */
module ClientSafety {
  import opened ClientModel
  import CB = CircuitBreaker
  import Text

  /** The breaker state that the logged blocks and successes amount to. */
  function BreakerAfter(cfg: Config, log: seq<Event>): CB.Breaker {
    if log == [] then cfg.FreshBreaker() else
    var before := BreakerAfter(cfg, log[..|log| - 1]);
    if !cfg.HasCircuit() then before else
    match log[|log| - 1]
    case Block(_, openedAt) => CB.AfterBlock(before, openedAt)
    case Success(_, _, _) => CB.AfterSuccess(before)
    case _ => before
  }

  /** The token was issued at event j, and nothing was blocked since. */
  ghost predicate IssuedAt(log: seq<Event>, j: nat, token: string) {
    j < |log| && log[j].Issued? && log[j].token == token && forall k :: j < k < |log| ==> !log[k].Block?
  }

  ghost predicate SinceBlock(log: seq<Event>, token: string) {
    exists j :: IssuedAt(log, j, token)
  }

  /** The token was issued less than ttl before the limit. */
  ghost predicate StillValid(log: seq<Event>, token: string, limit: int, ttl: int) {
    exists j :: 0 <= j < |log| && log[j].Issued? && log[j].token == token && limit <= log[j].at + ttl
  }

  /** What the log promises about its next event. */
  ghost predicate EventOk(cfg: Config, before: seq<Event>, e: Event) {
    match e
    case Request(kind, token, _, at) =>
      && (cfg.HasCircuit() ==> !CB.IsOpen(BreakerAfter(cfg, before), at))
      && (cfg.Invalidates() && kind.DjsReq? ==> SinceBlock(before, token))
    case Success(_, _, at) => cfg.HasCircuit() ==> !CB.IsOpen(BreakerAfter(cfg, before), at)
    case Reset(_) => false
    case Hit(token, _, _, at) => StillValid(before, token, at + 1, cfg.vqdTTL)
    case _ => true
  }

  ghost predicate LogOk(cfg: Config, log: seq<Event>) {
    forall k :: 0 <= k < |log| ==> EventOk(cfg, log[..k], log[k])
  }

  ghost predicate CacheOk(cfg: Config, st: State) {
    forall key :: key in st.cache ==> TokenOk(cfg, st.log, st.cache[key])
  }

  ghost predicate TokenOk(cfg: Config, log: seq<Event>, t: Token) {
    StillValid(log, t.value, t.expiresAt, cfg.vqdTTL) && (cfg.Invalidates() ==> SinceBlock(log, t.value))
  }

  ghost predicate Inv(cfg: Config, st: State) {
    LogOk(cfg, st.log) && st.breaker == BreakerAfter(cfg, st.log) && CacheOk(cfg, st)
  }

  // ---- Appending events ----

  lemma LogGrows(cfg: Config, log: seq<Event>, e: Event)
    requires LogOk(cfg, log) && EventOk(cfg, log, e)
    ensures LogOk(cfg, log + [e])
  {
    var longer := log + [e];
    forall k | 0 <= k < |longer| ensures EventOk(cfg, longer[..k], longer[k]) {
      if k < |log| {
        assert longer[..k] == log[..k];
      } else {
        assert longer[..k] == log;
      }
    }
  }

  lemma TokenStays(cfg: Config, log: seq<Event>, e: Event, t: Token)
    requires TokenOk(cfg, log, t) && (cfg.Invalidates() ==> !e.Block?)
    ensures TokenOk(cfg, log + [e], t)
  {
    var longer := log + [e];
    var j :| 0 <= j < |log| && log[j].Issued? && log[j].token == t.value && t.expiresAt <= log[j].at + cfg.vqdTTL;
    assert longer[j] == log[j];
    if cfg.Invalidates() {
      var i :| IssuedAt(log, i, t.value);
      assert IssuedAt(longer, i, t.value);
    }
  }

  /** Events other than blocks and successes leave the breaker and the cache alone. */
  lemma Noted(cfg: Config, st: State, e: Event)
    requires Inv(cfg, st) && EventOk(cfg, st.log, e) && !e.Block? && !e.Success?
    ensures Inv(cfg, st.Log(e))
  {
    LogGrows(cfg, st.log, e);
    assert (st.log + [e])[..|st.log|] == st.log;
    forall key | key in st.cache ensures TokenOk(cfg, st.log + [e], st.cache[key]) {
      TokenStays(cfg, st.log, e, st.cache[key]);
    }
  }

  lemma LaterKeeps(cfg: Config, st: State, d: nat)
    requires Inv(cfg, st)
    ensures Inv(cfg, st.Later(d))
    ensures !FailsFast(cfg, st) ==> !FailsFast(cfg, st.Later(d))
  {
  }

  /** On a closed breaker a success is reported alone. */
  lemma OnCleanKeeps(cfg: Config, st: State, kind: Kind, body: string)
    requires Inv(cfg, st) && !FailsFast(cfg, st)
    ensures var after := OnClean(cfg, st, kind, body);
      Inv(cfg, after) && !FailsFast(cfg, after) && after.now == st.now
  {
    var e := Success(kind, body, st.now);
    LogGrows(cfg, st.log, e);
    assert (st.log + [e])[..|st.log|] == st.log;
    forall key | key in st.cache ensures TokenOk(cfg, st.log + [e], st.cache[key]) {
      TokenStays(cfg, st.log, e, st.cache[key]);
    }
  }

  /** A block is counted, and drops the tokens when they are to be invalidated. */
  lemma BlockCounted(cfg: Config, st: State, e: Event, st': State)
    requires Inv(cfg, st) && e.Block? && st'.log == st.log + [e]
    requires st'.breaker == if cfg.HasCircuit() then CB.AfterBlock(st.breaker, e.openedAt) else st.breaker
    requires st'.cache == if cfg.Invalidates() then map[] else st.cache
    ensures Inv(cfg, st')
  {
    LogGrows(cfg, st.log, e);
    assert (st.log + [e])[..|st.log|] == st.log;
    forall key | key in st'.cache ensures TokenOk(cfg, st'.log, st'.cache[key]) {
      TokenStays(cfg, st.log, e, st.cache[key]);
    }
  }

  /** The state in which the block is counted, but an opening is not yet reported. */
  function Counted(cfg: Config, st: State, lag: nat): State {
    OnBlock(cfg, st, lag).(log := st.log + [Block(st.now, st.now + lag)])
  }

  lemma BlockReported(cfg: Config, st: State, lag: nat)
    ensures var counted, out := Counted(cfg, st, lag), OnBlock(cfg, st, lag);
      out == counted || out == counted.Log(Opened(st.now + lag))
  {
    var blocked, tripped := Block(st.now, st.now + lag), Opened(st.now + lag);
    assert st.log + [blocked, tripped] == (st.log + [blocked]) + [tripped];
  }

  lemma OnBlockKeeps(cfg: Config, st: State, lag: nat)
    requires Inv(cfg, st)
    ensures Inv(cfg, OnBlock(cfg, st, lag)) && st.now <= OnBlock(cfg, st, lag).now
  {
    BlockCounted(cfg, st, Block(st.now, st.now + lag), Counted(cfg, st, lag));
    Noted(cfg, Counted(cfg, st, lag), Opened(st.now + lag));
    BlockReported(cfg, st, lag);
  }

  // ---- One attempt ----

  ghost predicate VerdictOk(cfg: Config, st: State, v: Verdict) {
    match v
    case Done(out) => OutcomeOk(cfg, st, out)
    case Again(_, after) => Inv(cfg, after) && st.now <= after.now
  }

  /** A successful call leaves the breaker closed. */
  ghost predicate OutcomeOk(cfg: Config, st: State, out: Outcome<string>) {
    Inv(cfg, out.state) && st.now <= out.state.now && (out.result.Ok? ==> !FailsFast(cfg, out.state))
  }

  lemma GiveUpKeeps(cfg: Config, st: State, kind: Kind, i: nat, error: Error, d: int, turn: Turn)
    requires Inv(cfg, st) && i < cfg.retryMax
    ensures VerdictOk(cfg, st, GiveUpOrSleep(cfg, st, kind, i, error, d, turn))
  {
    Noted(cfg, st, Backoff(kind, i, d));
  }

  lemma AfterSolverKeeps(cfg: Config, st: State, turn: Turn)
    requires Inv(cfg, st)
    ensures Inv(cfg, AfterSolver(cfg, st, turn)) && st.now <= AfterSolver(cfg, st, turn).now
  {
    LaterKeeps(cfg, st, turn.solveDelay);
  }

  lemma BlockedReplyKeeps(cfg: Config, st: State, kind: Kind, i: nat, d: int, turn: Turn)
    requires Inv(cfg, st) && i < cfg.retryMax
    ensures VerdictOk(cfg, st, AfterBlockedReply(cfg, st, kind, i, d, turn))
  {
    var hit := OnBlock(cfg, st, turn.lag);
    OnBlockKeeps(cfg, st, turn.lag);
    AfterSolverKeeps(cfg, hit, turn);
    GiveUpKeeps(cfg, AfterSolver(cfg, hit, turn), kind, i, Blocked, d, turn);
  }

  lemma SettleKeeps(cfg: Config, st: State, kind: Kind, i: nat, turn: Turn)
    requires Inv(cfg, st) && !FailsFast(cfg, st) && i < cfg.retryMax
    ensures VerdictOk(cfg, st, Settle(cfg, st, kind, i, turn))
  {
    var d := BackoffDelay(cfg, i, turn.jitter);
    match Classify(cfg, turn.reply)
    case Clean(body) => OnCleanKeeps(cfg, st, kind, body);
    case Final(_) =>
    case Retryable(error) => GiveUpKeeps(cfg, st, kind, i, error, d, turn);
    case BlockedReply(secs) =>
      LaterKeeps(cfg, st, secs * 1_000_000_000);
      BlockedReplyKeeps(cfg, st, kind, i, d, turn);
      BlockedReplyKeeps(cfg, st.Later(secs * 1_000_000_000), kind, i, d, turn);
  }

  lemma SendKeeps(cfg: Config, st: State, kind: Kind, token: string, turn: Turn)
    requires Inv(cfg, st) && !FailsFast(cfg, st)
    requires cfg.Invalidates() && kind.DjsReq? ==> SinceBlock(st.log, token)
    ensures Inv(cfg, Sent(st, kind, token, turn)) && !FailsFast(cfg, Sent(st, kind, token, turn))
  {
    Noted(cfg, st, Request(kind, token, st.ua, st.now));
    LaterKeeps(cfg, st.Log(Request(kind, token, st.ua, st.now)), turn.travel);
  }

  // ---- The nested loops ----

  lemma {:induction false} RetryKeeps(cfg: Config, st: State, kind: Kind, i: nat)
    requires cfg.Valid() && i < cfg.retryMax && Inv(cfg, st)
    ensures OutcomeOk(cfg, st, Retry(cfg, st, kind, i))
    decreases |st.script|, 1
  {
    if FailsFast(cfg, st) {
      Noted(cfg, st, FailFast(st.now));
    } else if st.script != [] {
      var s1 := Begin(st);
      LaterKeeps(cfg, st, st.script[0].wait);
      if st.script[0].waitOk {
        BuildKeeps(cfg, s1, kind);
        var built := Build(cfg, s1, kind);
        if built.result.Ok? {
          SendKeeps(cfg, built.state, kind, built.result.value, st.script[0]);
          var s2 := Sent(built.state, kind, built.result.value, st.script[0]);
          SettleKeeps(cfg, s2, kind, i, st.script[0]);
          var v := Settle(cfg, s2, kind, i, st.script[0]);
          if v.Again? {
            RetryKeeps(cfg, v.state, kind, v.next);
          }
        }
      }
    }
  }

  /** A built request may be sent: the breaker is closed, and a d.js token is recent. */
  ghost predicate BuiltOk(cfg: Config, st: State, kind: Kind, out: Outcome<string>) {
    && OutcomeOk(cfg, st, out)
    && (out.result.Ok? && kind.DjsReq? && cfg.Invalidates() ==> SinceBlock(out.state.log, out.result.value))
  }

  lemma {:induction false} BuildKeeps(cfg: Config, st: State, kind: Kind)
    requires cfg.Valid() && Inv(cfg, st) && !FailsFast(cfg, st)
    ensures BuiltOk(cfg, st, kind, Build(cfg, st, kind))
    decreases |st.script|, 3
  {
    if kind.DjsReq? {
      GetVQDKeeps(cfg, st, kind.query);
    }
  }

  lemma {:induction false} GetVQDKeeps(cfg: Config, st: State, query: string)
    requires cfg.Valid() && Inv(cfg, st) && !FailsFast(cfg, st)
    ensures BuiltOk(cfg, st, DjsReq(query), GetVQD(cfg, st, query))
    decreases |st.script|, 2
  {
    var key := CacheKey(query, st.ua);
    if Cached(st, key) {
      HitKeeps(cfg, st, query, key);
    } else {
      RetryKeeps(cfg, st, TokenReq(query), 0);
      var fetched := Retry(cfg, st, TokenReq(query), 0);
      if fetched.result.Ok? && cfg.vqdOf(fetched.result.value) != "" {
        StoredKeeps(cfg, fetched.state, query, st.ua, cfg.vqdOf(fetched.result.value), st.now);
      }
    }
  }

  lemma HitKeeps(cfg: Config, st: State, query: string, key: string)
    requires Inv(cfg, st) && Cached(st, key)
    ensures var t := st.cache[key].value; var st' := st.Log(Hit(t, query, st.ua, st.now));
      Inv(cfg, st') && (cfg.Invalidates() ==> SinceBlock(st'.log, t))
  {
    var t := st.cache[key];
    var e := Hit(t.value, query, st.ua, st.now);
    assert TokenOk(cfg, st.log, t);
    Noted(cfg, st, e);
    TokenStays(cfg, st.log, e, t);
  }

  /** A token that was just issued may be cached. */
  lemma IssuedIsOk(cfg: Config, log: seq<Event>, e: Event, askedAt: int)
    requires e.Issued? && askedAt <= e.at
    ensures TokenOk(cfg, log + [e], Token(e.token, askedAt + cfg.vqdTTL)) && SinceBlock(log + [e], e.token)
  {
    assert (log + [e])[|log|] == e;
    assert IssuedAt(log + [e], |log|, e.token);
  }

  lemma CacheOneMore(cfg: Config, st: State, key: string, t: Token)
    requires Inv(cfg, st) && TokenOk(cfg, st.log, t)
    ensures Inv(cfg, st.(cache := st.cache[key := t]))
  {
    var cache := st.cache[key := t];
    forall k | k in cache ensures TokenOk(cfg, st.log, cache[k]) {
      if k != key {
        assert cache[k] == st.cache[k];
      }
    }
  }

  lemma StoredIs(cfg: Config, st: State, query: string, ua: string, token: string, askedAt: int)
    ensures var logged := st.Log(Issued(token, query, ua, st.now));
      Stored(cfg, st, query, ua, token, askedAt)
        == logged.(cache := logged.cache[CacheKey(query, ua) := Token(token, askedAt + cfg.vqdTTL)])
  {
  }

  lemma StoredKeeps(cfg: Config, st: State, query: string, ua: string, token: string, askedAt: int)
    requires Inv(cfg, st) && askedAt <= st.now
    ensures var out := Stored(cfg, st, query, ua, token, askedAt); Inv(cfg, out) && SinceBlock(out.log, token)
  {
    var e := Issued(token, query, ua, st.now);
    IssuedIsOk(cfg, st.log, e, askedAt);
    NotedInv(cfg, st, e);
    CacheOneMore(cfg, st.Log(e), CacheKey(query, ua), Token(token, askedAt + cfg.vqdTTL));
    StoredIs(cfg, st, query, ua, token, askedAt);
  }

  lemma NotedInv(cfg: Config, st: State, e: Event)
    requires Inv(cfg, st) && e.Issued?
    ensures Inv(cfg, st.Log(e))
  {
    Noted(cfg, st, e);
  }

  // ---- Theorems over whole runs ----

  lemma SearchKeeps(cfg: Config, st: State, query: string, maxResults: int)
    requires cfg.Valid() && Inv(cfg, st)
    ensures Inv(cfg, Search(cfg, st, query, maxResults).state)
  {
    var trimmed := Text.Trim(query);
    RetryKeeps(cfg, st, DjsReq(trimmed), 0);
    RetryKeeps(cfg, SearchDJS(cfg, st, trimmed).state, HtmlReq(trimmed), 0);
  }

  lemma {:induction false} RunsKeep(cfg: Config, st: State, ops: seq<Op>)
    requires cfg.Valid() && Inv(cfg, st)
    ensures Inv(cfg, After(cfg, st, ops))
    decreases |ops|
  {
    if ops != [] {
      var before := After(cfg, st, ops[..|ops| - 1]);
      RunsKeep(cfg, st, ops[..|ops| - 1]);
      match ops[|ops| - 1]
      case DoSearch(query, max) => SearchKeeps(cfg, before, query, max);
      case Idle(d) => LaterKeeps(cfg, before, d);
    }
  }

  /** The event log of a new client after any searches and pauses. */
  function LogOf(cfg: Config, now: int, ua: string, script: seq<Turn>, ops: seq<Op>): seq<Event>
    requires cfg.Valid()
  {
    After(cfg, NewClient(cfg, now, ua, script), ops).log
  }

  lemma RunLogOk(cfg: Config, now: int, ua: string, script: seq<Turn>, ops: seq<Op>)
    requires cfg.Valid()
    ensures LogOk(cfg, LogOf(cfg, now, ua, script, ops))
  {
    RunsKeep(cfg, NewClient(cfg, now, ua, script), ops);
  }

  /**
   No request is sent while the breaker is open, although building a request may itself run a retry loop
   that records blocks; so a success is only ever recorded on a closed breaker, and the "success_reset"
   event never fires.
   */
  lemma NothingSentWhileOpen(cfg: Config, now: int, ua: string, script: seq<Turn>, ops: seq<Op>, k: nat)
    requires cfg.Valid() && cfg.HasCircuit()
    requires k < |LogOf(cfg, now, ua, script, ops)|
    ensures var log := LogOf(cfg, now, ua, script, ops);
      && ((log[k].Request? || log[k].Success?) ==> !CB.IsOpen(BreakerAfter(cfg, log[..k]), log[k].at))
      && !log[k].Reset?
  {
    RunLogOk(cfg, now, ua, script, ops);
    var log := LogOf(cfg, now, ua, script, ops);
    assert EventOk(cfg, log[..k], log[k]);
  }

  /** With VQDInvalidateOnBlock, each d.js request carries a token issued after the most recent block. */
  lemma TokenPostdatesBlocks(cfg: Config, now: int, ua: string, script: seq<Turn>, ops: seq<Op>, k: nat)
    requires cfg.Valid() && cfg.Invalidates()
    requires k < |LogOf(cfg, now, ua, script, ops)|
    ensures var log := LogOf(cfg, now, ua, script, ops);
      log[k].Request? && log[k].kind.DjsReq? ==>
        exists j :: 0 <= j < k && log[j].Issued? && log[j].token == log[k].token
          && forall m :: j < m < k ==> !log[m].Block?
  {
    RunLogOk(cfg, now, ua, script, ops);
    var log := LogOf(cfg, now, ua, script, ops);
    assert EventOk(cfg, log[..k], log[k]);
    if log[k].Request? && log[k].kind.DjsReq? {
      var j: nat :| IssuedAt(log[..k], j, log[k].token);
      assert log[j].Issued? && log[j].token == log[k].token;
      forall m | j < m < k ensures !log[m].Block? {
        assert log[..k][m] == log[m];
      }
    }
  }

  /** A token served from the cache was issued less than one TTL ago. */
  lemma CachedTokenIsInDate(cfg: Config, now: int, ua: string, script: seq<Turn>, ops: seq<Op>, k: nat)
    requires cfg.Valid() && k < |LogOf(cfg, now, ua, script, ops)|
    ensures var log := LogOf(cfg, now, ua, script, ops);
      log[k].Hit? ==>
        exists j :: 0 <= j < k && log[j].Issued? && log[j].token == log[k].token && log[k].at < log[j].at + cfg.vqdTTL
  {
    RunLogOk(cfg, now, ua, script, ops);
    var log := LogOf(cfg, now, ua, script, ops);
    assert EventOk(cfg, log[..k], log[k]);
  }
}
