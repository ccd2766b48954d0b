/** Whose token a d.js request carries. */
module ClientTokens {
  import opened ClientModel
  import opened ClientCounts
  import opened ClientSafety
  import Text

  // ---- Cache keys ----

  /** One of two keys that are the same string although query and user agent differ. */
  ghost predicate Overlaps(query: string, ua: string, query': string, ua': string) {
    exists s :: query' == query + "|" + s && ua == s + "|" + ua'
  }

  lemma Rejoin(a: string, b: string, c: string)
    ensures (a + "|" + b) + "|" + c == a + "|" + (b + "|" + c)
  {
  }

  lemma ShorterOverlaps(query: string, ua: string, query': string, ua': string)
    requires query + "|" + ua == query' + "|" + ua' && |query| < |query'|
    ensures Overlaps(query, ua, query', ua')
  {
    var key := query + "|" + ua;
    var s := query'[|query| + 1..];
    assert query' == key[..|query'|] && query == key[..|query|] && key[|query|] == '|';
    assert query' == query + "|" + s;
    assert ua == key[|query| + 1..] && ua' == key[|query'| + 1..] && key[|query'|] == '|';
    assert ua == s + "|" + ua';
  }

  /** Query and user agent are joined by a bar, which does not separate them when they contain bars themselves. */
  lemma KeysEqualIff(query: string, ua: string, query': string, ua': string)
    ensures CacheKey(query, ua) == CacheKey(query', ua')
      <==> (query == query' && ua == ua') || Overlaps(query, ua, query', ua') || Overlaps(query', ua', query, ua)
  {
    var a, b := query + "|" + ua, query' + "|" + ua';
    if a == b {
      if |query| < |query'| {
        ShorterOverlaps(query, ua, query', ua');
      } else if |query'| < |query| {
        ShorterOverlaps(query', ua', query, ua);
      } else {
        assert query == a[..|query|] && query' == b[..|query|];
        assert ua == a[|query| + 1..] && ua' == b[|query| + 1..];
      }
    }
    if s :| query' == query + "|" + s && ua == s + "|" + ua' {
      Rejoin(query, s, ua');
    }
    if s :| query == query' + "|" + s && ua' == s + "|" + ua {
      Rejoin(query', s, ua);
    }
  }

  lemma OverlapsShow(query: string, ua: string, query': string, ua': string)
    ensures Overlaps(query, ua, query', ua') ==> '|' in query' && |ua| > |ua'|
  {
    if s :| query' == query + "|" + s && ua == s + "|" + ua' {
      assert query'[|query|] == '|';
    }
  }

  /** Under one user agent, or with queries that contain no bar, a key belongs to one query. */
  lemma KeysSeparate(query: string, ua: string, query': string, ua': string)
    requires CacheKey(query, ua) == CacheKey(query', ua')
    requires ua == ua' || ('|' !in query && '|' !in query')
    ensures query == query' && ua == ua'
  {
    KeysEqualIff(query, ua, query', ua');
    OverlapsShow(query, ua, query', ua');
    OverlapsShow(query', ua', query, ua);
  }

  /** A token kept for one query and user agent is served to another pair exactly when the two keys overlap. */
  lemma SharedIff(cfg: Config, st: State, query: string, query': string, ua': string, token: string)
    requires cfg.Valid() && token != "" && st.cache == map[]
    ensures var kept := Stored(cfg, st, query, st.ua, token, st.now).(ua := ua');
      Cached(kept, CacheKey(query', ua')) <==>
        (query == query' && st.ua == ua') || Overlaps(query, st.ua, query', ua') || Overlaps(query', ua', query, st.ua)
  {
    KeysEqualIff(query, st.ua, query', ua');
  }

  /** So a token can be served to another query: after a solver changed the user agent from "c" to "b|c". */
  lemma SharedToken(cfg: Config, st: State, token: string)
    requires cfg.Valid() && token != "" && "a|b|c" in st.cache && st.cache["a|b|c"].value == token
    requires st.now < st.cache["a|b|c"].expiresAt
    ensures GetVQD(cfg, st.(ua := "c"), "a|b").result == Ok(token)
    ensures GetVQD(cfg, st.(ua := "b|c"), "a").result == Ok(token)
  {
    assert "a|b" + "|" + "c" == "a|b|c" && "a" + "|" + "b|c" == "a|b|c";
  }

  // ---- Where a token comes from ----

  /** Some request of this kind was followed by this clean reply. */
  ghost predicate Answered(log: seq<Event>, kind: Kind, body: string) {
    exists i :: AnsweredAt(log, kind, body, i)
  }

  ghost predicate AnsweredAt(log: seq<Event>, kind: Kind, body: string, i: int) {
    && 0 < i < |log| && log[i - 1].Request? && log[i - 1].kind == kind
    && log[i].Success? && log[i].kind == kind && log[i].body == body
  }

  /** The token was read from a clean reply to a request for a token for this query. */
  ghost predicate Fetched(cfg: Config, log: seq<Event>, query: string, token: string) {
    exists body :: Answered(log, TokenReq(query), body) && cfg.vqdOf(body) == token
  }

  /** The token was issued at event j, for a query that shares its key with this one if it is not the same. */
  ghost predicate IssuedFor(log: seq<Event>, query: string, ua: string, token: string, j: int) {
    && 0 <= j < |log| && log[j].Issued? && log[j].token == token
    && (log[j].query == query || log[j].query + "|" + log[j].ua == query + "|" + ua)
  }

  ghost predicate IssuedUnder(log: seq<Event>, key: string, token: string) {
    exists j :: IssuedKey(log, key, token, j)
  }

  ghost predicate IssuedKey(log: seq<Event>, key: string, token: string, j: int) {
    0 <= j < |log| && log[j].Issued? && log[j].token == token && log[j].query + "|" + log[j].ua == key
  }

  ghost predicate Owned(log: seq<Event>, query: string, ua: string, token: string) {
    exists j :: IssuedFor(log, query, ua, token, j)
  }

  /** What the log promises about its next event. */
  ghost predicate OriginOk(cfg: Config, before: seq<Event>, e: Event) {
    match e
    case Request(DjsReq(query), token, ua, _) => Owned(before, query, ua, token)
    case Request(_, token, _, _) => token == ""
    case Success(kind, _, _) => before != [] && before[|before| - 1].Request? && before[|before| - 1].kind == kind
    case Issued(token, query, _, _) => Fetched(cfg, before, query, token)
    case Hit(token, query, ua, _) => IssuedUnder(before, query + "|" + ua, token)
    case _ => true
  }

  ghost predicate OriginsOk(cfg: Config, log: seq<Event>) {
    forall k :: 0 <= k < |log| ==> OriginOk(cfg, log[..k], log[k])
  }

  ghost predicate CacheOwned(st: State) {
    forall key :: key in st.cache ==> IssuedUnder(st.log, key, st.cache[key].value)
  }

  /** Without a solver the user agent never changes. */
  ghost predicate OneAgent(cfg: Config, st: State) {
    !cfg.HasSolver() ==> forall k :: 0 <= k < |st.log| ==> AgentIs(st.log[k], st.ua)
  }

  predicate AgentIs(e: Event, ua: string) {
    e.Request? || e.Issued? || e.Hit? ==> e.ua == ua
  }

  ghost predicate Origins(cfg: Config, st: State) {
    OriginsOk(cfg, st.log) && CacheOwned(st) && OneAgent(cfg, st)
  }

  // ---- Appending events ----

  lemma AnsweredStays(log: seq<Event>, more: seq<Event>, kind: Kind, body: string)
    requires Answered(log, kind, body)
    ensures Answered(log + more, kind, body)
  {
    var i :| AnsweredAt(log, kind, body, i);
    assert AnsweredAt(log + more, kind, body, i);
  }

  lemma FetchedStays(cfg: Config, log: seq<Event>, more: seq<Event>, query: string, token: string)
    requires Fetched(cfg, log, query, token)
    ensures Fetched(cfg, log + more, query, token)
  {
    var body :| Answered(log, TokenReq(query), body) && cfg.vqdOf(body) == token;
    AnsweredStays(log, more, TokenReq(query), body);
  }

  lemma IssuedStays(log: seq<Event>, more: seq<Event>, key: string, token: string)
    requires IssuedUnder(log, key, token)
    ensures IssuedUnder(log + more, key, token)
  {
    var j :| IssuedKey(log, key, token, j);
    assert IssuedKey(log + more, key, token, j);
  }

  lemma OriginsGrow(cfg: Config, log: seq<Event>, e: Event)
    requires OriginsOk(cfg, log) && OriginOk(cfg, log, e)
    ensures OriginsOk(cfg, log + [e])
  {
    var longer := log + [e];
    forall k | 0 <= k < |longer| ensures OriginOk(cfg, longer[..k], longer[k]) {
      assert longer[..k] == if k < |log| then log[..k] else log;
    }
  }

  /** One more event, while the cache stays or is emptied. */
  lemma OriginNoted(cfg: Config, st: State, e: Event, after: State)
    requires Origins(cfg, st) && OriginOk(cfg, st.log, e) && AgentIs(e, st.ua)
    requires after.log == st.log + [e] && after.ua == st.ua && (after.cache == st.cache || after.cache == map[])
    ensures Origins(cfg, after)
  {
    OriginsGrow(cfg, st.log, e);
    forall key | key in after.cache ensures IssuedUnder(after.log, key, after.cache[key].value) {
      IssuedStays(st.log, [e], key, st.cache[key].value);
    }
  }

  /** Without a new event the log stays as it was. */
  lemma OriginsSame(cfg: Config, st: State, after: State)
    requires Origins(cfg, st) && after.log == st.log && (after.cache == st.cache || after.cache == map[])
    requires after.ua == st.ua || cfg.HasSolver()
    ensures Origins(cfg, after)
  {
  }

  // ---- One attempt ----

  lemma GiveUpOrigins(cfg: Config, st: State, kind: Kind, i: nat, error: Error, d: int, turn: Turn)
    requires Origins(cfg, st) && i < cfg.retryMax
    ensures Origins(cfg, VerdictState(GiveUpOrSleep(cfg, st, kind, i, error, d, turn)))
  {
    var after := VerdictState(GiveUpOrSleep(cfg, st, kind, i, error, d, turn));
    var e := Backoff(kind, i, d);
    if after.log == st.log {
      OriginsSame(cfg, st, after);
    } else {
      OriginNoted(cfg, st, e, after);
    }
  }

  lemma OnBlockOrigins(cfg: Config, st: State, lag: nat)
    requires Origins(cfg, st)
    ensures Origins(cfg, OnBlock(cfg, st, lag))
  {
    var counted := Counted(cfg, st, lag);
    OriginNoted(cfg, st, Block(st.now, st.now + lag), counted);
    BlockReported(cfg, st, lag);
    OriginNoted(cfg, counted, Opened(st.now + lag), counted.Log(Opened(st.now + lag)));
  }

  lemma BlockedReplyOrigins(cfg: Config, st: State, kind: Kind, i: nat, d: int, turn: Turn)
    requires Origins(cfg, st) && i < cfg.retryMax
    ensures Origins(cfg, VerdictState(AfterBlockedReply(cfg, st, kind, i, d, turn)))
  {
    var hit := OnBlock(cfg, st, turn.lag);
    OnBlockOrigins(cfg, st, turn.lag);
    OriginsSame(cfg, hit, AfterSolver(cfg, hit, turn));
    GiveUpOrigins(cfg, AfterSolver(cfg, hit, turn), kind, i, Blocked, d, turn);
  }

  /** The last thing that happened was a request of this kind. */
  ghost predicate JustSent(st: State, kind: Kind) {
    st.log != [] && st.log[|st.log| - 1].Request? && st.log[|st.log| - 1].kind == kind
  }

  /** The state in which the clean reply is noted, but a reset is not yet reported. */
  function CleanNoted(cfg: Config, st: State, kind: Kind, body: string): State {
    OnClean(cfg, st, kind, body).(log := st.log + [Success(kind, body, st.now)])
  }

  lemma CleanReported(cfg: Config, st: State, kind: Kind, body: string)
    ensures var noted, after := CleanNoted(cfg, st, kind, body), OnClean(cfg, st, kind, body);
      after == noted || after == noted.Log(Reset(st.now))
  {
    var clean, reset := Success(kind, body, st.now), Reset(st.now);
    assert st.log + [clean, reset] == (st.log + [clean]) + [reset];
  }

  lemma CleanNotedOrigins(cfg: Config, st: State, kind: Kind, body: string)
    requires Origins(cfg, st) && JustSent(st, kind)
    ensures var noted := CleanNoted(cfg, st, kind, body); Origins(cfg, noted) && Answered(noted.log, kind, body)
  {
    var noted := CleanNoted(cfg, st, kind, body);
    OriginNoted(cfg, st, Success(kind, body, st.now), noted);
    assert AnsweredAt(noted.log, kind, body, |st.log|);
  }

  lemma OnCleanOrigins(cfg: Config, st: State, kind: Kind, body: string)
    requires Origins(cfg, st) && JustSent(st, kind)
    ensures var after := OnClean(cfg, st, kind, body); Origins(cfg, after) && Answered(after.log, kind, body)
  {
    var noted := CleanNoted(cfg, st, kind, body);
    CleanNotedOrigins(cfg, st, kind, body);
    CleanReported(cfg, st, kind, body);
    AnsweredStays(noted.log, [Reset(st.now)], kind, body);
    OriginNoted(cfg, noted, Reset(st.now), noted.Log(Reset(st.now)));
  }

  lemma SettleOrigins(cfg: Config, st: State, kind: Kind, i: nat, turn: Turn)
    requires Origins(cfg, st) && JustSent(st, kind) && i < cfg.retryMax
    ensures var v := Settle(cfg, st, kind, i, turn);
      && Origins(cfg, VerdictState(v))
      && (v.Done? && v.out.result.Ok? ==> Answered(v.out.state.log, kind, v.out.result.value))
  {
    var d := BackoffDelay(cfg, i, turn.jitter);
    match Classify(cfg, turn.reply)
    case Clean(body) => OnCleanOrigins(cfg, st, kind, body);
    case Final(_) =>
    case Retryable(error) => GiveUpOrigins(cfg, st, kind, i, error, d, turn);
    case BlockedReply(secs) =>
      var later := st.Later(secs * 1_000_000_000);
      OriginsSame(cfg, st, later);
      BlockedReplyOrigins(cfg, st, kind, i, d, turn);
      BlockedReplyOrigins(cfg, later, kind, i, d, turn);
  }

  // ---- The nested loops ----

  lemma SentOrigins(cfg: Config, st: State, kind: Kind, token: string, turn: Turn)
    requires Origins(cfg, st)
    requires if kind.DjsReq? then Owned(st.log, kind.query, st.ua, token) else token == ""
    ensures Origins(cfg, Sent(st, kind, token, turn)) && JustSent(Sent(st, kind, token, turn), kind)
  {
    OriginNoted(cfg, st, Request(kind, token, st.ua, st.now), Sent(st, kind, token, turn));
  }

  ghost predicate CallOrigins(cfg: Config, kind: Kind, out: Outcome<string>) {
    Origins(cfg, out.state) && (out.result.Ok? ==> Answered(out.state.log, kind, out.result.value))
  }

  /** A built request carries no token, or one that belongs to its query. */
  ghost predicate BuiltOrigins(cfg: Config, kind: Kind, out: Outcome<string>) {
    && Origins(cfg, out.state)
    && (out.result.Ok? ==>
          if kind.DjsReq? then Owned(out.state.log, kind.query, out.state.ua, out.result.value)
          else out.result.value == "")
  }

  lemma {:induction false} PassOrigins(cfg: Config, st: State, kind: Kind, i: nat)
    requires cfg.Valid() && i < cfg.retryMax && Origins(cfg, st)
    ensures var v := Pass(cfg, st, kind, i);
      Origins(cfg, VerdictState(v)) && (v.Done? ==> CallOrigins(cfg, kind, v.out))
    decreases |st.script|, 0
  {
    OriginNoted(cfg, st, FailFast(st.now), st.Log(FailFast(st.now)));
    if st.script != [] {
      OriginsSame(cfg, st, Begin(st));
      if !FailsFast(cfg, st) && st.script[0].waitOk {
        BuildOrigins(cfg, Begin(st), kind);
        var built := Build(cfg, Begin(st), kind);
        if built.result.Ok? {
          SentOrigins(cfg, built.state, kind, built.result.value, st.script[0]);
          SettleOrigins(cfg, Sent(built.state, kind, built.result.value, st.script[0]), kind, i, st.script[0]);
        }
      }
    }
  }

  lemma {:induction false} RetryOrigins(cfg: Config, st: State, kind: Kind, i: nat)
    requires cfg.Valid() && i < cfg.retryMax && Origins(cfg, st)
    ensures CallOrigins(cfg, kind, Retry(cfg, st, kind, i))
    decreases |st.script|, 1
  {
    PassOrigins(cfg, st, kind, i);
    var v := Pass(cfg, st, kind, i);
    if v.Again? {
      RetryOrigins(cfg, v.state, kind, v.next);
    }
  }

  lemma {:induction false} BuildOrigins(cfg: Config, st: State, kind: Kind)
    requires cfg.Valid() && Origins(cfg, st)
    ensures BuiltOrigins(cfg, kind, Build(cfg, st, kind))
    decreases |st.script|, 3
  {
    if kind.DjsReq? {
      TokenOrigins(cfg, st, kind.query);
    }
  }

  lemma HitOrigins(cfg: Config, st: State, query: string)
    requires Origins(cfg, st) && Cached(st, CacheKey(query, st.ua))
    ensures var token := st.cache[CacheKey(query, st.ua)].value; var after := st.Log(Hit(token, query, st.ua, st.now));
      Origins(cfg, after) && Owned(after.log, query, st.ua, token)
  {
    var token := st.cache[CacheKey(query, st.ua)].value;
    var e := Hit(token, query, st.ua, st.now);
    OriginNoted(cfg, st, e, st.Log(e));
    var j :| IssuedKey(st.log, query + "|" + st.ua, token, j);
    assert IssuedFor(st.log + [e], query, st.ua, token, j);
  }

  lemma StoredOrigins(cfg: Config, st: State, query: string, ua: string, token: string, askedAt: int)
    requires Origins(cfg, st) && Fetched(cfg, st.log, query, token) && (!cfg.HasSolver() ==> ua == st.ua)
    ensures var after := Stored(cfg, st, query, ua, token, askedAt);
      Origins(cfg, after) && Owned(after.log, query, after.ua, token)
  {
    var e := Issued(token, query, ua, st.now);
    var after := Stored(cfg, st, query, ua, token, askedAt);
    OriginsGrow(cfg, st.log, e);
    assert after.log[|st.log|] == e;
    assert IssuedFor(after.log, query, after.ua, token, |st.log|);
    assert IssuedKey(after.log, query + "|" + ua, token, |st.log|);
    forall key | key in after.cache ensures IssuedUnder(after.log, key, after.cache[key].value) {
      if key != CacheKey(query, ua) {
        IssuedStays(st.log, [e], key, st.cache[key].value);
      }
    }
  }

  lemma {:induction false} TokenOrigins(cfg: Config, st: State, query: string)
    requires cfg.Valid() && Origins(cfg, st)
    ensures BuiltOrigins(cfg, DjsReq(query), GetVQD(cfg, st, query))
    decreases |st.script|, 2
  {
    if Cached(st, CacheKey(query, st.ua)) {
      HitOrigins(cfg, st, query);
    } else {
      RetryOrigins(cfg, st, TokenReq(query), 0);
      var fetched := Retry(cfg, st, TokenReq(query), 0);
      if fetched.result.Ok? && cfg.vqdOf(fetched.result.value) != "" {
        if !cfg.HasSolver() {
          PlainCost(cfg, st, TokenReq(query), 0);
        }
        StoredOrigins(cfg, fetched.state, query, st.ua, cfg.vqdOf(fetched.result.value), st.now);
      }
    }
  }

  // ---- Whole runs ----

  lemma {:induction false} RunOrigins(cfg: Config, st: State, ops: seq<Op>)
    requires cfg.Valid() && Origins(cfg, st)
    ensures Origins(cfg, After(cfg, st, ops))
    decreases |ops|
  {
    if ops != [] {
      var before := After(cfg, st, ops[..|ops| - 1]);
      RunOrigins(cfg, st, ops[..|ops| - 1]);
      match ops[|ops| - 1]
      case DoSearch(query, _) =>
        RetryOrigins(cfg, before, DjsReq(Text.Trim(query)), 0);
        RetryOrigins(cfg, SearchDJS(cfg, before, Text.Trim(query)).state, HtmlReq(Text.Trim(query)), 0);
      case Idle(d) => OriginsSame(cfg, before, before.Later(d));
    }
  }

  lemma LogOrigins(cfg: Config, now: int, ua: string, script: seq<Turn>, ops: seq<Op>)
    requires cfg.Valid()
    ensures OriginsOk(cfg, LogOf(cfg, now, ua, script, ops))
    ensures OneAgent(cfg, After(cfg, NewClient(cfg, now, ua, script), ops))
  {
    RunOrigins(cfg, NewClient(cfg, now, ua, script), ops);
  }

  /**
   In every run each d.js request carries a token that was read from a clean reply to a request for a
   token: for its own query, or for one whose key with its user agent is the same string.
   */
  lemma TokenBelongs(cfg: Config, now: int, ua: string, script: seq<Turn>, ops: seq<Op>, k: nat) returns (j: nat)
    requires cfg.Valid() && k < |LogOf(cfg, now, ua, script, ops)|
    requires var e := LogOf(cfg, now, ua, script, ops)[k]; e.Request? && e.kind.DjsReq?
    ensures var log := LogOf(cfg, now, ua, script, ops);
      && j < k && log[j].Issued? && log[j].token == log[k].token
      && Fetched(cfg, log[..j], log[j].query, log[k].token)
      && (log[j].query == log[k].kind.query || log[j].query + "|" + log[j].ua == log[k].kind.query + "|" + log[k].ua)
  {
    var log := LogOf(cfg, now, ua, script, ops);
    LogOrigins(cfg, now, ua, script, ops);
    assert OriginOk(cfg, log[..k], log[k]);
    j :| IssuedFor(log[..k], log[k].kind.query, log[k].ua, log[k].token, j);
    assert OriginOk(cfg, log[..j], log[j]);
  }

  /** Without a solver, or if no query that a token was issued for contains a bar, the token is for its own query. */
  lemma TokenIsOwn(cfg: Config, now: int, ua: string, script: seq<Turn>, ops: seq<Op>, k: nat) returns (j: nat)
    requires cfg.Valid() && k < |LogOf(cfg, now, ua, script, ops)|
    requires var e := LogOf(cfg, now, ua, script, ops)[k]; e.Request? && e.kind.DjsReq?
    requires var log := LogOf(cfg, now, ua, script, ops);
      || !cfg.HasSolver()
      || ('|' !in log[k].kind.query && forall i :: 0 <= i < k && log[i].Issued? ==> '|' !in log[i].query)
    ensures var log := LogOf(cfg, now, ua, script, ops);
      && j < k && log[j].Issued? && log[j].token == log[k].token && log[j].query == log[k].kind.query
      && Fetched(cfg, log[..j], log[k].kind.query, log[k].token)
  {
    var log := LogOf(cfg, now, ua, script, ops);
    LogOrigins(cfg, now, ua, script, ops);
    j := TokenBelongs(cfg, now, ua, script, ops, k);
    if log[j].query != log[k].kind.query {
      if !cfg.HasSolver() {
        assert AgentIs(log[j], log[k].ua) && AgentIs(log[k], log[k].ua);
      }
      KeysSeparate(log[j].query, log[j].ua, log[k].kind.query, log[k].ua);
    }
  }
}
