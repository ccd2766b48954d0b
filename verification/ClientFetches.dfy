/** How often a d.js call fetches a token, where no challenge is solved: at first, and after blocks and expiries. */
module ClientFetches {
  import opened Common
  import opened ClientModel
  import opened ClientCounts
  import Text

  // ---- Blocks ----

  function BlockCount(log: seq<Event>): nat {
    if log == [] then 0 else BlockCount(log[..|log| - 1]) + if log[|log| - 1].Block? then 1 else 0
  }

  /** The blocks seen since the client was made. */
  function Blocked(st: State): nat {
    BlockCount(st.log)
  }

  lemma BlockPush(log: seq<Event>, e: Event)
    ensures BlockCount(log + [e]) == BlockCount(log) + if e.Block? then 1 else 0
  {
    assert (log + [e])[..|log|] == log;
  }

  lemma OnCleanCount(cfg: Config, st: State, kind: Kind, body: string)
    ensures Blocked(OnClean(cfg, st, kind, body)) == Blocked(st)
  {
    var s, r := Success(kind, body, st.now), Reset(st.now);
    BlockPush(st.log, s);
    BlockPush(st.log + [s], r);
    assert st.log + [s, r] == st.log + [s] + [r];
  }

  lemma OnBlockCount(cfg: Config, st: State, lag: nat)
    ensures Blocked(OnBlock(cfg, st, lag)) == Blocked(st) + 1
  {
    var b, o := Block(st.now, st.now + lag), Opened(st.now + lag);
    BlockPush(st.log, b);
    BlockPush(st.log + [b], o);
    assert st.log + [b, o] == st.log + [b] + [o];
  }

  /** Time passes, and the cache stays unless a block was to invalidate it. */
  ghost predicate KeepsTokens(cfg: Config, st: State, after: State) {
    && st.now <= after.now && Blocked(st) <= Blocked(after)
    && (after.cache == st.cache || (cfg.Invalidates() && Blocked(st) < Blocked(after) && after.cache == map[]))
  }

  lemma GiveUpKeepsTokens(cfg: Config, st: State, kind: Kind, i: nat, error: Error, d: int, turn: Turn)
    requires i < cfg.retryMax
    ensures KeepsTokens(cfg, st, VerdictState(GiveUpOrSleep(cfg, st, kind, i, error, d, turn)))
  {
    BlockPush(st.log, Backoff(kind, i, d));
  }

  lemma BlockedReplyKeepsTokens(cfg: Config, st: State, kind: Kind, i: nat, d: int, turn: Turn)
    requires i < cfg.retryMax
    ensures KeepsTokens(cfg, st, VerdictState(AfterBlockedReply(cfg, st, kind, i, d, turn)))
  {
    var after := AfterSolver(cfg, OnBlock(cfg, st, turn.lag), turn);
    OnBlockCount(cfg, st, turn.lag);
    AfterSolverFacts(cfg, OnBlock(cfg, st, turn.lag), turn);
    GiveUpKeepsTokens(cfg, after, kind, i, Error.Blocked, d, turn);
  }

  lemma SettleKeepsTokens(cfg: Config, st: State, kind: Kind, i: nat, turn: Turn)
    requires i < cfg.retryMax
    ensures KeepsTokens(cfg, st, VerdictState(Settle(cfg, st, kind, i, turn)))
  {
    var d := BackoffDelay(cfg, i, turn.jitter);
    match Classify(cfg, turn.reply)
    case Clean(body) => OnCleanCount(cfg, st, kind, body);
    case Final(_) =>
    case Retryable(error) => GiveUpKeepsTokens(cfg, st, kind, i, error, d, turn);
    case BlockedReply(secs) =>
      BlockedReplyKeepsTokens(cfg, st, kind, i, d, turn);
      BlockedReplyKeepsTokens(cfg, st.Later(secs * 1_000_000_000), kind, i, d, turn);
  }

  lemma SentKeepsTokens(cfg: Config, st: State, kind: Kind, token: string, i: nat, turn: Turn)
    requires i < cfg.retryMax
    ensures KeepsTokens(cfg, st, VerdictState(Settle(cfg, Sent(st, kind, token, turn), kind, i, turn)))
  {
    var sent := Sent(st, kind, token, turn);
    BlockPush(st.log, Request(kind, token, st.ua, st.now));
    SettleKeepsTokens(cfg, sent, kind, i, turn);
  }

  lemma IdlePassKeepsTokens(cfg: Config, st: State, kind: Kind, i: nat)
    requires cfg.Valid() && i < cfg.retryMax && !Sending(cfg, st)
    ensures KeepsTokens(cfg, st, VerdictState(Pass(cfg, st, kind, i)))
  {
    BlockPush(st.log, FailFast(st.now));
  }

  /** What a pass does after its request is built. */
  lemma PassKeepsTokens(cfg: Config, st: State, kind: Kind, i: nat)
    requires cfg.Valid() && i < cfg.retryMax
    ensures var after := VerdictState(Pass(cfg, st, kind, i));
      if !Sending(cfg, st) then KeepsTokens(cfg, st, after)
      else
        var built := Build(cfg, Begin(st), kind);
        built.result.Ok? ==> KeepsTokens(cfg, built.state, after)
  {
    if !Sending(cfg, st) {
      IdlePassKeepsTokens(cfg, st, kind, i);
    } else {
      var built := Build(cfg, Begin(st), kind);
      if built.result.Ok? {
        SentKeepsTokens(cfg, built.state, kind, built.result.value, i, st.script[0]);
      }
    }
  }

  lemma {:induction false} PlainBlocked(cfg: Config, st: State, kind: Kind, i: nat)
    requires cfg.Valid() && i < cfg.retryMax && !kind.DjsReq?
    ensures Blocked(st) <= Blocked(Retry(cfg, st, kind, i).state)
    decreases |st.script|
  {
    PassKeepsTokens(cfg, st, kind, i);
    var v := Pass(cfg, st, kind, i);
    if v.Again? {
      PlainBlocked(cfg, v.state, kind, v.next);
    }
  }

  // ---- Token lifetimes ----

  /** How many fetches, a token lifetime apart, fit in from since to end. */
  function Periods(since: int, end: int, ttl: int): nat
    requires ttl > 0
    decreases end - since
  {
    if since > end then 0 else 1 + Periods(since + ttl, end, ttl)
  }

  lemma {:induction false} PeriodsShrink(a: int, b: int, end: int, ttl: int)
    requires ttl > 0 && a <= b
    ensures Periods(b, end, ttl) <= Periods(a, end, ttl)
    decreases end - b
  {
    if b <= end {
      PeriodsShrink(a + ttl, b + ttl, end, ttl);
    }
  }

  /** q is the quotient of x by d. */
  predicate Divides(q: int, x: int, d: int) {
    q * d <= x < q * d + d
  }

  lemma {:induction false} PeriodsBound(since: int, end: int, ttl: int)
    requires ttl > 0 && since <= end
    ensures Periods(since, end, ttl) > 0 && Divides(Periods(since, end, ttl) - 1, end - since, ttl)
    decreases end - since
  {
    if since + ttl <= end {
      var n := Periods(since + ttl, end, ttl);
      PeriodsBound(since + ttl, end, ttl);
      OneMoreTime(n - 1, ttl);
    }
  }

  lemma OneMoreTime(n: int, d: int)
    ensures (n + 1) * d == n * d + d
  {
  }

  lemma QuotientIs(q: int, x: int, d: int)
    requires d > 0 && Divides(q, x, d)
    ensures x / d == q
  {
    var p := x / d;
    assert Divides(p, x, d);
    if p < q {
      Apart(p, q, d);
    } else if q < p {
      Apart(q, p, d);
    }
  }

  lemma Apart(p: int, q: int, d: int)
    requires d > 0 && p < q
    ensures p * d + d <= q * d
  {
    assert (q - p - 1) * d >= 0;
    assert q * d == p * d + d + (q - p - 1) * d;
  }

  lemma PeriodsQuotient(since: int, end: int, ttl: int)
    requires ttl > 0 && since <= end
    ensures Periods(since, end, ttl) == (end - since) / ttl + 1
  {
    PeriodsBound(since, end, ttl);
    QuotientIs(Periods(since, end, ttl) - 1, end - since, ttl);
  }

  /** The time before which the token for this key is not fetched again, unless a block invalidates it. */
  function Due(cfg: Config, st: State, key: string): int {
    if key in st.cache && st.cache[key].value != ""
    then Max(st.now, Min(st.cache[key].expiresAt, st.now + cfg.vqdTTL)) else st.now
  }

  function Left(cfg: Config, st: State, key: string, end: int): nat
    requires cfg.Valid()
  {
    Periods(Due(cfg, st, key), end, cfg.vqdTTL)
  }

  /** The blocks between two states that invalidate tokens. */
  function Lost(cfg: Config, st: State, after: State): int {
    if cfg.Invalidates() then Blocked(after) - Blocked(st) else 0
  }

  lemma KeptIsDueLater(cfg: Config, st: State, after: State, key: string, end: int)
    requires cfg.Valid() && KeepsTokens(cfg, st, after)
    ensures Left(cfg, after, key, end) <= Left(cfg, st, key, end) + Lost(cfg, st, after)
  {
    if after.cache == st.cache {
      PeriodsShrink(Due(cfg, st, key), Due(cfg, after, key), end, cfg.vqdTTL);
    } else {
      PeriodsShrink(Due(cfg, st, key), after.now + cfg.vqdTTL, end, cfg.vqdTTL);
    }
  }

  /** A request built from a state, at the cost of so many fetches. */
  ghost predicate BuiltBy(cfg: Config, st: State, key: string, out: Outcome<string>, end: int, fetches: nat)
    requires cfg.Valid()
  {
    && fetches <= 1
    && out.state.ua == st.ua && Blocked(st) <= Blocked(out.state)
    && Sends(out.state) <= Sends(st) + (if fetches == 0 then 0 else cfg.retryMax)
    && fetches + (if out.result.Ok? then Left(cfg, out.state, key, end) else 0) <= Left(cfg, st, key, end)
  }

  lemma HitIs(cfg: Config, st: State, query: string)
    requires cfg.Valid() && Cached(st, CacheKey(query, st.ua))
    ensures var token := st.cache[CacheKey(query, st.ua)].value;
      GetVQD(cfg, st, query) == Outcome(Ok(token), st.Log(Hit(token, query, st.ua, st.now)))
  {
  }

  lemma LoggedCounts(st: State, e: Event)
    requires e.Hit?
    ensures Blocked(st.Log(e)) == Blocked(st) && Sends(st.Log(e)) == Sends(st)
  {
    BlockPush(st.log, e);
    RequestsPush(st.log, e);
  }

  lemma LoggedIsDue(cfg: Config, st: State, e: Event, key: string)
    ensures Due(cfg, st.Log(e), key) == Due(cfg, st, key)
  {
  }

  lemma LoggedIsBuilt(cfg: Config, st: State, query: string, key: string, token: string, end: int)
    requires cfg.Valid()
    ensures BuiltBy(cfg, st, key, Outcome(Ok(token), st.Log(Hit(token, query, st.ua, st.now))), end, 0)
  {
    LoggedCounts(st, Hit(token, query, st.ua, st.now));
    LoggedIsDue(cfg, st, Hit(token, query, st.ua, st.now), key);
  }

  lemma BuildHits(cfg: Config, st: State, query: string, end: int)
    requires cfg.Valid() && Cached(st, CacheKey(query, st.ua))
    ensures BuiltBy(cfg, st, CacheKey(query, st.ua), GetVQD(cfg, st, query), end, 0)
  {
    var key := CacheKey(query, st.ua);
    HitIs(cfg, st, query);
    LoggedIsBuilt(cfg, st, query, key, st.cache[key].value, end);
  }

  /** A token fetched from a state is due again one lifetime later. */
  lemma StoredIsDue(cfg: Config, st: State, fetched: State, query: string, token: string, end: int)
    requires cfg.Valid() && st.now <= fetched.now && st.now <= end && token != ""
    ensures var out := Stored(cfg, fetched, query, st.ua, token, st.now);
      1 + Left(cfg, out, CacheKey(query, st.ua), end) <= Periods(st.now, end, cfg.vqdTTL)
  {
    var key := CacheKey(query, st.ua);
    var out := Stored(cfg, fetched, query, st.ua, token, st.now);
    assert out.cache[key] == Token(token, st.now + cfg.vqdTTL) && out.now == fetched.now;
    PeriodsShrink(st.now + cfg.vqdTTL, Due(cfg, out, key), end, cfg.vqdTTL);
  }

  lemma BuildMisses(cfg: Config, st: State, query: string, end: int)
    requires cfg.Valid() && !Engages(cfg) && !Cached(st, CacheKey(query, st.ua))
    requires GetVQD(cfg, st, query).state.now <= end
    ensures BuiltBy(cfg, st, CacheKey(query, st.ua), GetVQD(cfg, st, query), end, 1)
  {
    var key := CacheKey(query, st.ua);
    var fetched := Retry(cfg, st, TokenReq(query), 0);
    TokenCost(cfg, st, query);
    PlainBlocked(cfg, st, TokenReq(query), 0);
    if fetched.result.Ok? && cfg.vqdOf(fetched.result.value) != "" {
      BlockPush(fetched.state.log, Issued(cfg.vqdOf(fetched.result.value), query, st.ua, fetched.state.now));
      StoredIsDue(cfg, st, fetched.state, query, cfg.vqdOf(fetched.result.value), end);
    }
    assert Due(cfg, st, key) == st.now;
  }

  /** Building a request pays for at most one fetch, and only when the token is due. */
  lemma BuildFetches(cfg: Config, st: State, query: string, end: int) returns (fetches: nat)
    requires cfg.Valid() && !Engages(cfg) && GetVQD(cfg, st, query).state.now <= end
    ensures BuiltBy(cfg, st, CacheKey(query, st.ua), GetVQD(cfg, st, query), end, fetches)
  {
    if Cached(st, CacheKey(query, st.ua)) {
      BuildHits(cfg, st, query, end);
      fetches := 0;
    } else {
      BuildMisses(cfg, st, query, end);
      fetches := 1;
    }
  }

  lemma FetchPass(cfg: Config, st: State, query: string, i: nat, end: int) returns (fetches: nat)
    requires cfg.Valid() && i < cfg.retryMax && !Engages(cfg)
    requires VerdictState(Pass(cfg, st, DjsReq(query), i)).now <= end
    ensures fetches <= 1
    ensures var v := Pass(cfg, st, DjsReq(query), i); var after := VerdictState(v); var key := CacheKey(query, st.ua);
      && Blocked(st) <= Blocked(after)
      && Sends(after) <= Sends(st) + 1 + (if fetches == 0 then 0 else cfg.retryMax)
      && (v.Again? ==> v.next == i + 1 && after.ua == st.ua)
      && fetches + (if v.Again? then Left(cfg, after, key, end) else 0)
           <= Left(cfg, st, key, end) + Lost(cfg, st, after)
  {
    fetches := 0;
    PassFacts(cfg, st, DjsReq(query), i);
    PassKeepsTokens(cfg, st, DjsReq(query), i);
    if Sending(cfg, st) {
      var key, begun := CacheKey(query, st.ua), Begin(st);
      var after := VerdictState(Pass(cfg, st, DjsReq(query), i));
      fetches := BuildFetches(cfg, begun, query, end);
      KeptIsDueLater(cfg, st, begun, key, end);
      var built := GetVQD(cfg, begun, query);
      if built.result.Ok? {
        KeptIsDueLater(cfg, built.state, after, key, end);
      }
    }
  }

  // ---- The price of a call ----

  /** n fetches. */
  function Price(n: nat, retryMax: nat): nat {
    if n == 0 then 0 else Price(n - 1, retryMax) + retryMax
  }

  lemma {:induction false} PriceProduct(n: nat, retryMax: nat)
    ensures Price(n, retryMax) == n * retryMax
  {
    if n > 0 {
      PriceProduct(n - 1, retryMax);
    }
  }

  lemma {:induction false} PriceGrows(m: nat, n: nat, retryMax: nat)
    requires m <= n
    ensures Price(m, retryMax) <= Price(n, retryMax)
    decreases n
  {
    if m < n {
      PriceGrows(m, n - 1, retryMax);
    }
  }

  lemma PayOnce(fetches: nat, left: nat, most: nat, retryMax: nat)
    requires fetches <= 1 && fetches + left <= most
    ensures (if fetches == 0 then 0 else retryMax) + Price(left, retryMax) <= Price(most, retryMax)
  {
    PriceGrows(fetches + left, most, retryMax);
  }

  /** The requests from one state to another are paid for by the indices and by the tokens that are due. */
  ghost predicate Paid(cfg: Config, st: State, out: State, key: string, end: int, indices: int)
    requires cfg.Valid()
  {
    && Blocked(st) <= Blocked(out)
    && Sends(out) <= Sends(st) + indices + Price(Left(cfg, st, key, end) + Lost(cfg, st, out), cfg.retryMax)
  }

  /** One attempt, with its fetch if it made one. */
  ghost predicate Attempted(cfg: Config, st: State, after: State, left: int, key: string, end: int, fetches: nat)
    requires cfg.Valid()
  {
    && Blocked(st) <= Blocked(after) && fetches <= 1
    && Sends(after) <= Sends(st) + 1 + (if fetches == 0 then 0 else cfg.retryMax)
    && fetches + left <= Left(cfg, st, key, end) + Lost(cfg, st, after)
  }

  lemma LastIsPaid(cfg: Config, st: State, out: State, key: string, end: int, fetches: nat)
    requires cfg.Valid() && Attempted(cfg, st, out, 0, key, end, fetches)
    ensures Paid(cfg, st, out, key, end, 1)
  {
    PayOnce(fetches, 0, Left(cfg, st, key, end) + Lost(cfg, st, out), cfg.retryMax);
  }

  lemma OneMoreIsPaid(
    cfg: Config, st: State, after: State, out: State, key: string, end: int, fetches: nat, indices: int)
    requires cfg.Valid() && Attempted(cfg, st, after, Left(cfg, after, key, end), key, end, fetches)
    requires Paid(cfg, after, out, key, end, indices)
    ensures Paid(cfg, st, out, key, end, indices + 1)
  {
    PayOnce(fetches, Left(cfg, after, key, end) + Lost(cfg, after, out),
            Left(cfg, st, key, end) + Lost(cfg, st, out), cfg.retryMax);
  }

  lemma MoreIndices(cfg: Config, st: State, out: State, key: string, end: int, few: int, many: int)
    requires cfg.Valid() && Paid(cfg, st, out, key, end, few) && few <= many
    ensures Paid(cfg, st, out, key, end, many)
  {
  }

  /**
   A d.js call sends one request for each index, and fetches a token when none is cached, after each
   lifetime of the one that is, and after each block that invalidates it.
   */
  lemma {:induction false} DjsFetchCost(cfg: Config, st: State, query: string, i: nat, end: int)
    requires cfg.Valid() && i < cfg.retryMax && !Engages(cfg)
    requires Retry(cfg, st, DjsReq(query), i).state.now <= end
    ensures Paid(cfg, st, Retry(cfg, st, DjsReq(query), i).state, CacheKey(query, st.ua), end, cfg.retryMax - i)
    decreases |st.script|
  {
    var key := CacheKey(query, st.ua);
    var v := Pass(cfg, st, DjsReq(query), i);
    var fetches := FetchPass(cfg, st, query, i, end);
    if v.Again? {
      DjsFetchCost(cfg, v.state, query, v.next, end);
      OneMoreIsPaid(cfg, st, v.state, Retry(cfg, v.state, DjsReq(query), v.next).state, key, end, fetches,
                    cfg.retryMax - v.next);
    } else {
      LastIsPaid(cfg, st, v.out.state, key, end, fetches);
      MoreIndices(cfg, st, v.out.state, key, end, 1, cfg.retryMax - i);
    }
  }

  /** How many tokens the d.js part of a search may fetch: one for each lifetime it takes, and one for each block. */
  function Fetches(cfg: Config, st: State, query: string): int
    requires cfg.Valid()
  {
    var first := SearchDJS(cfg, st, Text.Trim(query)).state;
    (first.now - st.now) / cfg.vqdTTL + 1 + Lost(cfg, st, first)
  }

  lemma DjsTime(cfg: Config, st: State, query: string)
    requires cfg.Valid()
    ensures st.now <= SearchDJS(cfg, st, query).state.now
  {
  }

  lemma DjsState(cfg: Config, st: State, query: string)
    requires cfg.Valid()
    ensures SearchDJS(cfg, st, query).state == Retry(cfg, st, DjsReq(query), 0).state
  {
  }

  /** Whatever is paid for costs a fetch for each lifetime that it took, and for each block. */
  lemma PaidByTime(cfg: Config, st: State, out: State, key: string, indices: int)
    requires cfg.Valid() && st.now <= out.now && Paid(cfg, st, out, key, out.now, indices)
    ensures var n := (out.now - st.now) / cfg.vqdTTL + 1 + Lost(cfg, st, out);
      n >= 0 && Sends(out) <= Sends(st) + indices + Price(n, cfg.retryMax)
  {
    PeriodsQuotient(st.now, out.now, cfg.vqdTTL);
    PeriodsShrink(st.now, Due(cfg, st, key), out.now, cfg.vqdTTL);
    var lifetimes := (out.now - st.now) / cfg.vqdTTL + 1;
    PriceGrows(Left(cfg, st, key, out.now) + Lost(cfg, st, out), lifetimes + Lost(cfg, st, out), cfg.retryMax);
  }

  lemma DjsPartPrice(cfg: Config, st: State, query: string)
    requires cfg.Valid() && !Engages(cfg)
    ensures Fetches(cfg, st, query) >= 0
    ensures Sends(SearchDJS(cfg, st, Text.Trim(query)).state)
      <= Sends(st) + cfg.retryMax + Price(Fetches(cfg, st, query), cfg.retryMax)
  {
    var trimmed := Text.Trim(query);
    var first := SearchDJS(cfg, st, trimmed).state;
    DjsTime(cfg, st, trimmed);
    DjsState(cfg, st, trimmed);
    DjsFetchCost(cfg, st, trimmed, 0, first.now);
    PaidByTime(cfg, st, first, CacheKey(trimmed, st.ua), cfg.retryMax);
  }

  lemma SearchIsTwoCalls(cfg: Config, st: State, query: string, maxResults: int)
    requires cfg.Valid() && !Engages(cfg)
    ensures Sends(Search(cfg, st, query, maxResults).state)
      <= Max(Sends(st), Sends(SearchDJS(cfg, st, Text.Trim(query)).state) + cfg.retryMax)
  {
    var trimmed := Text.Trim(query);
    PlainCost(cfg, SearchDJS(cfg, st, trimmed).state, HtmlReq(trimmed), 0);
  }

  lemma SearchFetchPrice(cfg: Config, st: State, query: string, maxResults: int)
    requires cfg.Valid() && !Engages(cfg)
    ensures Fetches(cfg, st, query) >= 0
    ensures Sends(Search(cfg, st, query, maxResults).state)
      <= Sends(st) + 2 * cfg.retryMax + Price(Fetches(cfg, st, query), cfg.retryMax)
  {
    DjsPartPrice(cfg, st, query);
    SearchIsTwoCalls(cfg, st, query, maxResults);
  }

  /**
   Where no challenge is solved, a Search sends at most 2*retryMax requests and retryMax more for each token
   it may have to fetch: one, and one more for each token lifetime that its d.js part takes and for each
   block in that part that invalidates the tokens.
   */
  lemma SearchFetchCost(cfg: Config, st: State, query: string, maxResults: int)
    requires cfg.Valid() && !Engages(cfg)
    ensures Sends(Search(cfg, st, query, maxResults).state)
      <= Sends(st) + 2 * cfg.retryMax + Fetches(cfg, st, query) * cfg.retryMax
  {
    SearchFetchPrice(cfg, st, query, maxResults);
    PriceProduct(Fetches(cfg, st, query), cfg.retryMax);
  }

  /** The d.js part ends within one token lifetime, and no block invalidates a token. */
  predicate TokensLast(cfg: Config, st: State, query: string)
    requires cfg.Valid()
  {
    var first := SearchDJS(cfg, st, Text.Trim(query)).state;
    first.now < st.now + cfg.vqdTTL && (cfg.Invalidates() ==> Blocked(first) == Blocked(st))
  }

  lemma OneFetch(cfg: Config, st: State, query: string)
    requires cfg.Valid() && TokensLast(cfg, st, query)
    ensures Fetches(cfg, st, query) == 1
  {
    var first := SearchDJS(cfg, st, Text.Trim(query)).state;
    DjsTime(cfg, st, Text.Trim(query));
    PeriodsQuotient(st.now, first.now, cfg.vqdTTL);
    assert Periods(st.now, first.now, cfg.vqdTTL) == 1;
  }

  /** If tokens are neither invalidated nor expire during its d.js part, a Search sends at most 3*retryMax requests. */
  lemma QuickSearchCost(cfg: Config, st: State, query: string, maxResults: int)
    requires cfg.Valid() && !Engages(cfg) && TokensLast(cfg, st, query)
    ensures Sends(Search(cfg, st, query, maxResults).state) <= Sends(st) + 3 * cfg.retryMax
  {
    SearchFetchPrice(cfg, st, query, maxResults);
    OneFetch(cfg, st, query);
    assert Price(1, cfg.retryMax) == Price(0, cfg.retryMax) + cfg.retryMax;
  }
}
